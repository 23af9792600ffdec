/** The map engine: the `.rmp` header loader, the engine session state
    (running and exiting flags, frame rate, current map and its file name,
    camera and input attachments, the script stash) and the run loop that
    alternates update and render until a script asks the engine to exit.

    Scripts are opaque compiled values; invoking one is recorded as an event
    in `trace`, as are the commands the engine sends to persons and the calls
    into the person and drawing subsystems. Devices, frame pacing and the
    persons' reported positions are inputs. */
module MapEngine {
  import opened Common
  import opened Persons
  import Keys

  /** A length-prefixed string as read from a map file (`lstring_t`). */
  type LString = seq<Byte>

  // ---------------------------------------------------------------------
  // The .rmp header
  // ---------------------------------------------------------------------

  const RMP_HEADER_SIZE: nat := 256

  /** The four signature bytes ".rmp". */
  const RMP_SIGNATURE: seq<Byte> := [46, 114, 109, 112]

  /** The fixed 256-byte header (`struct rmp_header`), decoded little-endian. */
  datatype RmpHeader = RmpHeader(
    signature: seq<Byte>,
    version: int,
    mapType: int,
    numLayers: int,
    numEntities: int,
    startX: int,
    startY: int,
    startLayer: int,
    startDirection: int,
    numStrings: int,
    numZones: int,
    toricMap: int)

  function Int8At(b: seq<Byte>, off: nat): (v: int)
    requires off < |b|
    ensures -128 <= v < 128
    ensures (v - b[off] as int) % 256 == 0
  {
    if b[off] >= 128 then b[off] as int - 256 else b[off]
  }

  /** A little-endian `int16_t` at byte offset `off`. */
  function Int16At(b: seq<Byte>, off: nat): (v: int)
    requires off + 2 <= |b|
    ensures -32768 <= v < 32768
    ensures (v - (b[off] as int + 256 * b[off + 1] as int)) % 65536 == 0
  {
    var u: int := b[off] as int + 256 * b[off + 1] as int;
    if u >= 32768 then u - 65536 else u
  }

  function DecodeHeader(b: seq<Byte>): (h: RmpHeader)
    requires |b| == RMP_HEADER_SIZE
    ensures |h.signature| == 4
    ensures -32768 <= h.version < 32768 && -32768 <= h.numStrings < 32768
  {
    RmpHeader(
      b[..4], Int16At(b, 4), b[6], Int8At(b, 7), Int16At(b, 9),
      Int16At(b, 11), Int16At(b, 13), Int8At(b, 15), Int8At(b, 16),
      Int16At(b, 17), Int16At(b, 19), b[21])
  }

  /** What reading an opened map file yields: the bytes the 256-byte header
      read returned (fewer on a short read), and the results of successive
      string reads (`None` for a failed read; reads past the list fail). */
  datatype MapFile = MapFile(header: seq<Byte>, strings: seq<Option<LString>>)

  function StringRead(f: MapFile, i: nat): Option<LString> {
    if i < |f.strings| then f.strings[i] else None
  }

  /** A loaded map. `load_map` never sets the dimensions, so they stay 0. */
  datatype Map = Map(width: int, height: int, scripts: seq<LString>)

  /** The number of strings `load_map` goes on to read, or `None` when it
      gives up before the string table: no file, a short header read, a bad
      signature, a version other than 1, or a negative count (whose
      allocation fails). */
  function StringCount(file: Option<MapFile>): (n: Option<nat>)
    ensures n.Some? <==>
      file.Some? && |file.value.header| == RMP_HEADER_SIZE &&
      file.value.header[..4] == RMP_SIGNATURE &&
      DecodeHeader(file.value.header).version == 1 &&
      DecodeHeader(file.value.header).numStrings >= 0
    ensures n.Some? ==> n.value == DecodeHeader(file.value.header).numStrings
  {
    if file.None? then None
    else
      var f := file.value;
      if |f.header| != RMP_HEADER_SIZE then None
      else if f.header[..4] != RMP_SIGNATURE then None
      else
        var rmp := DecodeHeader(f.header);
        if rmp.version != 1 then None
        else if rmp.numStrings < 0 then None
        else Some(rmp.numStrings)
  }

  /** The first `n` strings, or `None` if any of those reads failed. */
  function ReadStrings(f: MapFile, n: nat): Option<seq<LString>>
  {
    if n == 0 then Some([])
    else
      var prefix := ReadStrings(f, n - 1);
      var last := StringRead(f, n - 1);
      if prefix.None? || last.None? then None else Some(prefix.value + [last.value])
  }

  /** The map `load_map` returns for a file (`None` for NULL). `allocOk`
      says whether the string table's allocation succeeds; with a count of 0
      C lets it return NULL as well. */
  function LoadResult(file: Option<MapFile>, allocOk: bool): Option<Map> {
    var n := StringCount(file);
    if n.None? || !allocOk then None
    else
      var strings := ReadStrings(file.value, n.value);
      if strings.None? then None else Some(Map(0, 0, strings.value))
  }

  /** The string table reads all succeed exactly when every one of the
      first `n` reads does, and then they are stored in order. */
  lemma {:induction false} ReadStringsExact(f: MapFile, n: nat)
    ensures ReadStrings(f, n).Some? <==> forall i :: 0 <= i < n ==> StringRead(f, i).Some?
    ensures ReadStrings(f, n).Some? ==>
      |ReadStrings(f, n).value| == n &&
      forall i :: 0 <= i < n ==> ReadStrings(f, n).value[i] == StringRead(f, i).value
  {
    if n > 0 {
      ReadStringsExact(f, n - 1);
    }
  }

  /** `load_map` fails, returning no map, on a missing file, a short header,
      a bad signature or any version but 1. */
  lemma LoadRejectsBadHeader(file: Option<MapFile>, allocOk: bool)
    requires file.None? || |file.value.header| != RMP_HEADER_SIZE ||
             file.value.header[..4] != RMP_SIGNATURE ||
             DecodeHeader(file.value.header).version != 1
    ensures LoadResult(file, allocOk).None?
  {
  }

  /** A load succeeds exactly when the header is acceptable, the string
      table is allocated and all of its `num_strings` string reads succeed;
      the map then holds exactly those strings, in order, and no
      dimensions. */
  lemma LoadSucceedsIff(file: Option<MapFile>, allocOk: bool)
    ensures LoadResult(file, allocOk).Some? <==>
      StringCount(file).Some? && allocOk &&
      forall i :: 0 <= i < StringCount(file).value ==> StringRead(file.value, i).Some?
    ensures LoadResult(file, allocOk).Some? ==>
      var m := LoadResult(file, allocOk).value;
      m.width == 0 && m.height == 0 &&
      |m.scripts| == DecodeHeader(file.value.header).numStrings &&
      forall i :: 0 <= i < |m.scripts| ==> m.scripts[i] == StringRead(file.value, i).value
  {
    if StringCount(file).Some? {
      ReadStringsExact(file.value, StringCount(file).value);
    }
  }

  /** `load_map`. The string loop runs to the end even after a failed read,
      so `attempts` is the full count whenever the header was accepted and
      the string table allocated; a failed allocation reads no string. */
  method LoadMap(file: Option<MapFile>, allocOk: bool) returns (result: Option<Map>, attempts: nat)
    ensures result == LoadResult(file, allocOk)
    ensures attempts == if StringCount(file).Some? && allocOk then StringCount(file).value else 0
  {
    attempts := 0;
    if file.None? {
      return None, 0;
    }
    var f := file.value;
    if |f.header| != RMP_HEADER_SIZE {
      return None, 0;
    }
    if f.header[..4] != RMP_SIGNATURE {
      return None, 0;
    }
    var rmp := DecodeHeader(f.header);
    if rmp.version != 1 {
      return None, 0;
    }
    if rmp.numStrings < 0 {
      return None, 0;
    }
    var n: nat := rmp.numStrings;
    if !allocOk {
      return None, 0;
    }
    var scripts := new LString[n];
    var failed := false;
    var i := 0;
    while i < n
      invariant 0 <= i <= n && attempts == i
      invariant failed <==> ReadStrings(f, i).None?
      invariant !failed ==> scripts[..i] == ReadStrings(f, i).value
    {
      var s := StringRead(f, i);
      scripts[i] := if s.Some? then s.value else [];
      failed := s.None? || failed;
      attempts := attempts + 1;
      i := i + 1;
      assert !failed ==> scripts[..i] == scripts[..i - 1] + [scripts[i - 1]];
    }
    if failed {
      return None, attempts;
    }
    assert scripts[..] == scripts[..n];
    result := Some(Map(0, 0, scripts[..]));
  }

  // ---------------------------------------------------------------------
  // Script slots
  // ---------------------------------------------------------------------

  /** A script compiled from its source text; an opaque callable. */
  datatype Script = Script(source: string)

  /** The map script constants `SCRIPT_ON_ENTER_MAP` (0) ..
      `SCRIPT_ON_LEAVE_MAP_WEST` (5). */
  datatype MapScriptKind =
    OnEnterMap | OnLeaveMap | OnLeaveMapNorth | OnLeaveMapEast | OnLeaveMapSouth | OnLeaveMapWest

  function MapScriptCode(k: MapScriptKind): (n: int)
    ensures 0 <= n < 6
  {
    match k
    case OnEnterMap => 0
    case OnLeaveMap => 1
    case OnLeaveMapNorth => 2
    case OnLeaveMapEast => 3
    case OnLeaveMapSouth => 4
    case OnLeaveMapWest => 5
  }

  /** The constant a script passes to `SetDefaultMapScript`; any other
      number names no slot. */
  function MapScriptOfCode(n: int): (k: Option<MapScriptKind>)
    ensures k.Some? <==> 0 <= n < 6
    ensures k.Some? ==> MapScriptCode(k.value) == n
  {
    if n == 0 then Some(OnEnterMap)
    else if n == 1 then Some(OnLeaveMap)
    else if n == 2 then Some(OnLeaveMapNorth)
    else if n == 3 then Some(OnLeaveMapEast)
    else if n == 4 then Some(OnLeaveMapSouth)
    else if n == 5 then Some(OnLeaveMapWest)
    else None
  }

  lemma MapScriptCodeRoundTrip(k: MapScriptKind)
    ensures MapScriptOfCode(MapScriptCode(k)) == Some(k)
  {
  }

  /** The stash entries the map engine keeps scripts in. */
  datatype Slot = DefaultScript(kind: MapScriptKind) | RenderScript | UpdateScript

  /** The stash property name of each slot. */
  function StashName(slot: Slot): string {
    match slot
    case DefaultScript(OnEnterMap) => "map_def_enter_script"
    case DefaultScript(OnLeaveMap) => "map_def_leave_script"
    case DefaultScript(OnLeaveMapNorth) => "map_def_leave_north_script"
    case DefaultScript(OnLeaveMapEast) => "map_def_leave_east_script"
    case DefaultScript(OnLeaveMapSouth) => "map_def_leave_south_script"
    case DefaultScript(OnLeaveMapWest) => "map_def_leave_west_script"
    case RenderScript => "render_script"
    case UpdateScript => "update_script"
  }

  /** Length and three characters are enough to tell the slot names apart. */
  function NameKey(name: string): (int, char, char, char) {
    if |name| > 14 then (|name|, name[0], name[8], name[14])
    else if |name| > 0 then (|name|, name[0], ' ', ' ')
    else (0, ' ', ' ', ' ')
  }

  /** Different slots are different stash properties, so setting one never
      disturbs another. */
  lemma StashNamesDistinct(a: Slot, b: Slot)
    ensures StashName(a) == StashName(b) ==> a == b
  {
    if a != b {
      assert NameKey(StashName(a)) != NameKey(StashName(b));
    }
  }

  // ---------------------------------------------------------------------
  // Observable events
  // ---------------------------------------------------------------------

  datatype Event =
    | ClearedScreen
    | CalledStash(slot: Slot, script: Script)      // a stored callable was invoked
    | RanMapScript(index: nat, source: LString)    // one of the map's own scripts ran
    | Commanded(person: Person, command: Command)  // command_person
    | UpdatedPersons                               // update_persons
    | RenderedPersons                              // render_persons
    | DrewMapName(shown: Option<string>)           // the file name text drawn each frame

  /** Invoking a slot: a silent no-op when nothing callable is stored there. */
  function StashCall(stash: map<Slot, Script>, slot: Slot): (evs: seq<Event>)
    ensures slot in stash ==> evs == [CalledStash(slot, stash[slot])]
    ensures slot !in stash ==> evs == []
  {
    if slot in stash then [CalledStash(slot, stash[slot])] else []
  }

  /** The key that steers a person in direction `d`. */
  function ArrowKey(d: Direction): int {
    match d
    case North => Keys.KEY_UP
    case East => Keys.KEY_RIGHT
    case South => Keys.KEY_DOWN
    case West => Keys.KEY_LEFT
    case _ => -1
  }

  /** The priority of the four arrow directions: Up, Right, Down, Left. */
  function ArrowRank(d: Direction): int {
    match d
    case North => 0
    case East => 1
    case South => 2
    case West => 3
    case _ => 4
  }

  /** The direction the held arrow keys steer in, checking Up, Right, Down
      and Left in that order; the highest-ranked held arrow wins. */
  function HeldDirection(keys: set<int>): Option<Direction> {
    if Keys.KEY_UP in keys then Some(North)
    else if Keys.KEY_RIGHT in keys then Some(East)
    else if Keys.KEY_DOWN in keys then Some(South)
    else if Keys.KEY_LEFT in keys then Some(West)
    else None
  }

  /** No arrow held means no direction; otherwise the direction is that of a
      held arrow of rank below 4 and no arrow of higher priority is held. */
  lemma HeldDirectionIsHighestPriority(keys: set<int>)
    ensures HeldDirection(keys).None? <==>
      Keys.KEY_UP !in keys && Keys.KEY_RIGHT !in keys && Keys.KEY_DOWN !in keys && Keys.KEY_LEFT !in keys
    ensures HeldDirection(keys).Some? ==>
      var d := HeldDirection(keys).value;
      ArrowRank(d) < 4 && ArrowKey(d) in keys &&
      forall e: Direction :: ArrowRank(e) < ArrowRank(d) ==> ArrowKey(e) !in keys
  {
  }

  /** The commands one update sends to the input person: a face command then
      a move command in the held direction, or nothing. */
  function InputCommands(input: Option<Person>, keys: set<int>): (evs: seq<Event>)
    ensures evs == [] <==> input.None? || HeldDirection(keys).None?
    ensures evs != [] ==>
      var d := HeldDirection(keys).value;
      evs == [Commanded(input.value, Face(d)), Commanded(input.value, Move(d))]
  {
    if input.None? then []
    else
      var d := HeldDirection(keys);
      if d.None? then [] else [Commanded(input.value, Face(d.value)), Commanded(input.value, Move(d.value))]
  }

  /** Pressing Up and Left together moves the input person north only. */
  lemma UpBeatsLeft(p: Person, keys: set<int>)
    requires Keys.KEY_UP in keys && Keys.KEY_LEFT in keys
    ensures InputCommands(Some(p), keys) == [Commanded(p, Face(North)), Commanded(p, Move(North))]
  {
  }

  /** What one update (`update_map_engine`) emits. */
  function UpdateEvents(input: Option<Person>, stash: map<Slot, Script>, keys: set<int>): seq<Event> {
    [UpdatedPersons] + InputCommands(input, keys) + StashCall(stash, UpdateScript)
  }

  /** What one render (`render_map_engine`) emits. */
  function RenderEvents(filename: Option<string>, stash: map<Slot, Script>): seq<Event> {
    [DrewMapName(filename), RenderedPersons] + StashCall(stash, RenderScript)
  }

  /** After `SetUpdateScript(s1)` and then `SetUpdateScript(s2)` only `s2`
      runs in an update: the slot is overwritten, not accumulated. */
  lemma {:induction false} LatestUpdateScriptWins(input: Option<Person>, stash: map<Slot, Script>,
                                                 s1: string, s2: string, keys: set<int>)
    requires s1 != s2
    ensures var evs := UpdateEvents(input, stash[UpdateScript := Script(s1)][UpdateScript := Script(s2)], keys);
            CalledStash(UpdateScript, Script(s2)) in evs && CalledStash(UpdateScript, Script(s1)) !in evs
  {
    var st := stash[UpdateScript := Script(s1)][UpdateScript := Script(s2)];
    var evs := UpdateEvents(input, st, keys);
    assert evs[|evs| - 1] == CalledStash(UpdateScript, Script(s2));
    forall k | 0 <= k < |evs|
      ensures evs[k] != CalledStash(UpdateScript, Script(s1))
    {
      if k == |evs| - 1 {
      } else if k > 0 {
        assert evs[k] in InputCommands(input, keys);
      }
    }
  }

  /** What changing to a freshly loaded map runs: the default enter script if
      one is stored, then the map's own enter script (string index 3) when the
      map has one. */
  function EnterEvents(stash: map<Slot, Script>, m: Map): (evs: seq<Event>)
    ensures |evs| == (if DefaultScript(OnEnterMap) in stash then 1 else 0) + (if |m.scripts| > 3 then 1 else 0)
    ensures |m.scripts| > 3 ==> evs[|evs| - 1] == RanMapScript(3, m.scripts[3])
    ensures DefaultScript(OnEnterMap) in stash ==> evs[0] == CalledStash(DefaultScript(OnEnterMap), stash[DefaultScript(OnEnterMap)])
  {
    StashCall(stash, DefaultScript(OnEnterMap)) + (if |m.scripts| > 3 then [RanMapScript(3, m.scripts[3])] else [])
  }

  /** `change_map` as written runs `scripts[3]` of every loaded map; this is its
      precondition, which nothing in the loader establishes. */
  predicate EnterScriptIndexAsWrittenSafe(m: Map) {
    3 < |m.scripts|
  }

  /** A version-1 header with one string, read successfully, loads, yet has
      no string 3: `change_map` as written would index past the string
      table. */
  lemma ShortStringTableLoads(s: LString)
    ensures var file := Some(MapFile(RMP_SIGNATURE + [1, 0] + seq(11, _ => 0) + [1, 0] + seq(237, _ => 0), [Some(s)]));
            LoadResult(file, true).Some? && !EnterScriptIndexAsWrittenSafe(LoadResult(file, true).value)
  {
    var h: seq<Byte> := RMP_SIGNATURE + [1, 0] + seq(11, _ => 0) + [1, 0] + seq(237, _ => 0);
    assert |h| == RMP_HEADER_SIZE;
    assert h[..4] == RMP_SIGNATURE;
    assert h[4] == 1 && h[5] == 0 && h[17] == 1 && h[18] == 0;
    assert DecodeHeader(h).version == 1;
    assert DecodeHeader(h).numStrings == 1;
    var f := MapFile(h, [Some(s)]);
    assert ReadStrings(f, 0) == Some([]) && StringRead(f, 0) == Some(s);
    assert ReadStrings(f, 1) == Some([] + [s]);
  }

  // ---------------------------------------------------------------------
  // The run loop
  // ---------------------------------------------------------------------

  /** The host-side inputs of one loop iteration: whether frame pacing
      (`begin_frame`) let the frame proceed, the keys held, the position
      reported for the camera person, and whether a script run during the
      iteration called `ExitMapEngine`. */
  datatype Frame = Frame(paced: bool, keys: set<int>, cameraXY: (int, int), requestsExit: bool)

  datatype LoopEnd =
    | Exited          // an exit request ended the loop; MapEngine returned
    | PacingFailed    // begin_frame refused a frame; an error was raised
    | FramesExhausted // the supplied frames ran out with the loop still going

  /** How far the loop gets over `frames`: the iterations it runs and why it
      stops. */
  datatype LoopRun = LoopRun(iterations: nat, end: LoopEnd)

  /** The loop's control flow: a refused frame stops it before anything runs,
      otherwise the iteration runs and the loop stops after it if an exit was
      requested. */
  function RunFrames(frames: seq<Frame>): (r: LoopRun)
    ensures r.iterations <= |frames|
    ensures r.end == FramesExhausted ==> r.iterations == |frames|
    decreases |frames|
  {
    if frames == [] then LoopRun(0, FramesExhausted)
    else if !frames[0].paced then LoopRun(0, PacingFailed)
    else if frames[0].requestsExit then LoopRun(1, Exited)
    else
      var rest := RunFrames(frames[1..]);
      LoopRun(1 + rest.iterations, rest.end)
  }

  /** What the loop reads from the session; scripts are not modelled as
      changing it while the loop runs. */
  datatype Session = Session(input: Option<Person>, filename: Option<string>, stash: map<Slot, Script>)

  /** What one iteration emits: an update, then a render. */
  function FrameEvents(s: Session, f: Frame): seq<Event> {
    UpdateEvents(s.input, s.stash, f.keys) + RenderEvents(s.filename, s.stash)
  }

  /** The events of running every frame in `frames`, in order. */
  function FramesEvents(frames: seq<Frame>, s: Session): seq<Event>
    decreases |frames|
  {
    if frames == [] then []
    else FramesEvents(frames[..|frames| - 1], s) + FrameEvents(s, frames[|frames| - 1])
  }

  lemma FramesEventsSnoc(frames: seq<Frame>, i: nat, s: Session)
    requires i < |frames|
    ensures FramesEvents(frames[..i + 1], s) == FramesEvents(frames[..i], s) + FrameEvents(s, frames[i])
  {
    assert frames[..i + 1][..i] == frames[..i];
  }

  /** A trace that holds the events of the first `i` frames, extended by
      frame `i`'s, holds the events of the first `i + 1`. */
  lemma TraceAfterFrame(frames: seq<Frame>, i: nat, s: Session, base: seq<Event>, t: seq<Event>)
    requires i < |frames| && t == base + FramesEvents(frames[..i], s)
    ensures t + FrameEvents(s, frames[i]) == base + FramesEvents(frames[..i + 1], s)
  {
    var done, step := FramesEvents(frames[..i], s), FrameEvents(s, frames[i]);
    FramesEventsSnoc(frames, i, s);
    AppendAssoc(base, done, step);
  }

  /** Regrouping a concatenation, stated on its own so that the solver
      meets it without the events' definitions in view. */
  lemma AppendAssoc<T>(a: seq<T>, b: seq<T>, c: seq<T>)
    ensures (a + b) + c == a + (b + c)
  {
  }

  /** Every loop run is a prefix of the frames: each iteration it runs was
      paced, none but the last requested an exit, it ended with an exit
      exactly when the last one did, and a refusal is reported only for a
      frame that pacing refused. */
  lemma {:induction false} RunFramesIsPrefix(frames: seq<Frame>)
    ensures var r := RunFrames(frames);
      (forall j :: 0 <= j < r.iterations ==> frames[j].paced) &&
      (forall j :: 0 <= j < r.iterations - 1 ==> !frames[j].requestsExit) &&
      (r.end == Exited <==> r.iterations > 0 && frames[r.iterations - 1].requestsExit) &&
      (r.end == PacingFailed ==> r.iterations < |frames| && !frames[r.iterations].paced)
    decreases |frames|
  {
    if frames != [] && frames[0].paced && !frames[0].requestsExit {
      RunFramesIsPrefix(frames[1..]);
    }
  }

  /** Conversely, wherever the frames first stop the loop, `RunFrames`
      stops there. */
  lemma {:induction false} RunFramesStopsAt(frames: seq<Frame>, i: nat)
    requires i <= |frames|
    requires forall j :: 0 <= j < i ==> frames[j].paced
    requires forall j :: 0 <= j < i - 1 ==> !frames[j].requestsExit
    requires (i > 0 && frames[i - 1].requestsExit) || i == |frames| || !frames[i].paced
    ensures RunFrames(frames) ==
      LoopRun(i, if i > 0 && frames[i - 1].requestsExit then Exited
                 else if i == |frames| then FramesExhausted else PacingFailed)
    decreases i
  {
    if i > 0 && !frames[0].requestsExit {
      var tail := frames[1..];
      assert forall j :: 0 <= j < i - 1 ==> tail[j] == frames[j + 1];
      RunFramesStopsAt(tail, i - 1);
    }
  }

  /** An exit request made during iteration `k` takes effect at the top of
      the next iteration: iteration `k` still updates and renders, and no
      later update runs. */
  lemma ExitStopsBeforeNextUpdate(frames: seq<Frame>, k: nat, s: Session)
    requires k < |frames| && frames[k].requestsExit
    requires forall j :: 0 <= j <= k ==> frames[j].paced
    requires forall j :: 0 <= j < k ==> !frames[j].requestsExit
    ensures RunFrames(frames) == LoopRun(k + 1, Exited)
    ensures FramesEvents(frames[..k + 1], s) ==
      FramesEvents(frames[..k], s) + UpdateEvents(s.input, s.stash, frames[k].keys) + RenderEvents(s.filename, s.stash)
  {
    RunFramesStopsAt(frames, k + 1);
    FramesEventsSnoc(frames, k, s);
  }

  // ---------------------------------------------------------------------
  // The engine session
  // ---------------------------------------------------------------------

  /** The engine's module-level session state. */
  class Engine {
    var running: bool
    var exiting: bool
    var framerate: int
    var currentMap: Option<Map>
    var mapFilename: Option<string>
    var cameraPerson: Option<Person>
    var inputPerson: Option<Person>
    var camX: int
    var camY: int
    /** The script-engine stash entries the map engine reads and writes. */
    var stash: map<Slot, Script>
    var trace: seq<Event>

    /** The state before any script has touched the engine. */
    constructor ()
      ensures !running && !exiting && framerate == 0
      ensures currentMap.None? && mapFilename.None?
      ensures cameraPerson.None? && inputPerson.None?
      ensures camX == 0 && camY == 0
      ensures stash == map[] && trace == []
    {
      running, exiting, framerate := false, false, 0;
      currentMap, mapFilename := None, None;
      cameraPerson, inputPerson := None, None;
      camX, camY := 0, 0;
      stash, trace := map[], [];
    }

    /** `change_map`: on a successful load the map and its name become
        current and the enter scripts run; on failure only the name is
        cleared. `scriptsRequestExit` says whether an enter script that ran
        called `ExitMapEngine`, and `allocOk` whether the string table's
        allocation in `load_map` succeeds. */
    method ChangeMap(filename: string, file: Option<MapFile>, allocOk: bool, scriptsRequestExit: bool) returns (ok: bool)
      modifies this`currentMap, this`mapFilename, this`trace, this`exiting
      ensures ok == LoadResult(file, allocOk).Some?
      ensures ok ==> currentMap == LoadResult(file, allocOk) && mapFilename == Some(filename)
      ensures !ok ==> currentMap == old(currentMap) && mapFilename.None?
      ensures trace == old(trace) + (if ok then EnterEvents(stash, LoadResult(file, allocOk).value) else [])
      ensures exiting == (old(exiting) || (scriptsRequestExit && trace != old(trace)))
    {
      var m, _ := LoadMap(file, allocOk);
      mapFilename := None;
      if m.Some? {
        currentMap := m;
        mapFilename := Some(filename);
        var evs := EnterEvents(stash, m.value);
        trace := trace + evs;
        if scriptsRequestExit && evs != [] {
          exiting := true;
        }
        ok := true;
      } else {
        ok := false;
      }
    }

    /** `update_map_engine`: persons advance, the input person is steered
        by the arrow keys, the camera follows its person, and the update
        script runs. */
    method Update(keys: set<int>, cameraXY: (int, int))
      modifies this`trace, this`camX, this`camY
      ensures trace == old(trace) + UpdateEvents(inputPerson, stash, keys)
      ensures cameraPerson.Some? ==> (camX, camY) == cameraXY
      ensures cameraPerson.None? ==> camX == old(camX) && camY == old(camY)
    {
      var commands: seq<Event> := [];
      if inputPerson.Some? {
        var p := inputPerson.value;
        if Keys.KEY_UP in keys {
          commands := [Commanded(p, Face(North)), Commanded(p, Move(North))];
        } else if Keys.KEY_RIGHT in keys {
          commands := [Commanded(p, Face(East)), Commanded(p, Move(East))];
        } else if Keys.KEY_DOWN in keys {
          commands := [Commanded(p, Face(South)), Commanded(p, Move(South))];
        } else if Keys.KEY_LEFT in keys {
          commands := [Commanded(p, Face(West)), Commanded(p, Move(West))];
        }
      }
      assert commands == InputCommands(inputPerson, keys);
      if cameraPerson.Some? {
        camX, camY := cameraXY.0, cameraXY.1;
      }
      var call := if UpdateScript in stash then [CalledStash(UpdateScript, stash[UpdateScript])] else [];
      trace := trace + ([UpdatedPersons] + commands + call);
    }

    /** `render_map_engine`. */
    method Render()
      modifies this`trace
      ensures trace == old(trace) + RenderEvents(mapFilename, stash)
    {
      trace := trace + [DrewMapName(mapFilename), RenderedPersons];
      if RenderScript in stash {
        trace := trace + [CalledStash(RenderScript, stash[RenderScript])];
      }
    }

    /** What the run loop reads from this session. */
    function Ctx(): Session
      reads this`inputPerson, this`mapFilename, this`stash
    {
      Session(inputPerson, mapFilename, stash)
    }

    /** One pass of the loop body for a paced frame. */
    method Iterate(f: Frame)
      modifies this`trace, this`camX, this`camY, this`exiting
      ensures trace == old(trace) + FrameEvents(Ctx(), f)
      ensures exiting == (old(exiting) || f.requestsExit)
      ensures cameraPerson.Some? ==> (camX, camY) == f.cameraXY
      ensures cameraPerson.None? ==> camX == old(camX) && camY == old(camY)
    {
      Update(f.keys, f.cameraXY);
      if f.requestsExit {
        exiting := true;
      }
      Render();
    }

    /** One loop iteration over `frames[i]`, extending the trace of the
        iterations before it. */
    method AdvanceFrame(frames: seq<Frame>, i: nat, ghost session: Session, ghost base: seq<Event>)
      requires i < |frames| && Ctx() == session
      requires trace == base + FramesEvents(frames[..i], session)
      modifies this`trace, this`camX, this`camY, this`exiting
      ensures trace == base + FramesEvents(frames[..i + 1], session)
      ensures exiting == (old(exiting) || frames[i].requestsExit)
      ensures cameraPerson.Some? ==> (camX, camY) == frames[i].cameraXY
      ensures cameraPerson.None? ==> camX == old(camX) && camY == old(camY)
    {
      ghost var before := trace;
      Iterate(frames[i]);
      TraceAfterFrame(frames, i, session, base, before);
    }

    /** The `while (!exiting)` loop of `MapEngine`, from a state where no exit
        is pending. */
    method RunLoop(frames: seq<Frame>) returns (end: LoopEnd)
      requires running && !exiting
      modifies this`trace, this`camX, this`camY, this`exiting
      ensures var r := RunFrames(frames);
        end == r.end && trace == old(trace) + FramesEvents(frames[..r.iterations], Ctx()) &&
        exiting == (end == Exited) &&
        (cameraPerson.Some? && r.iterations > 0 ==> (camX, camY) == frames[r.iterations - 1].cameraXY) &&
        (cameraPerson.None? || r.iterations == 0 ==> camX == old(camX) && camY == old(camY))
    {
      ghost var session := Ctx();
      var i := 0;
      while !exiting && i < |frames| && frames[i].paced
        invariant 0 <= i <= |frames|
        invariant Ctx() == session
        invariant forall j :: 0 <= j < i ==> frames[j].paced
        invariant forall j :: 0 <= j < i - 1 ==> !frames[j].requestsExit
        invariant exiting <==> i > 0 && frames[i - 1].requestsExit
        invariant trace == old(trace) + FramesEvents(frames[..i], session)
        invariant cameraPerson.Some? && i > 0 ==> (camX, camY) == frames[i - 1].cameraXY
        invariant cameraPerson.None? || i == 0 ==> camX == old(camX) && camY == old(camY)
        decreases |frames| - i
      {
        AdvanceFrame(frames, i, session, old(trace));
        i := i + 1;
      }
      // The loop stops on an exit request, on running out of frames, or on
      // a frame that pacing refuses, checked in that order.
      end := if exiting then Exited else if i == |frames| then FramesExhausted else PacingFailed;
      RunFramesStopsAt(frames, i);
      assert frames[..RunFrames(frames).iterations] == frames[..i];
    }

    /** `MapEngine(filename, framerate)`: starts a session, changes to the
        map, then updates and renders once per frame until an exit request.
        Only `frames` are supplied; if they run out first the loop is still
        going (`FramesExhausted`). A refused frame raises an error and leaves
        the running flag set. `enterRequestsExit` says whether an enter
        script that runs calls `ExitMapEngine`, and `allocOk` whether the
        loader's string table is allocated. */
    method RunMapEngine(filename: string, rate: int, file: Option<MapFile>, allocOk: bool, enterRequestsExit: bool,
                        frames: seq<Frame>) returns (end: LoopEnd)
      modifies this`running, this`exiting, this`framerate, this`currentMap, this`mapFilename
      modifies this`trace, this`camX, this`camY
      ensures framerate == rate
      ensures LoadResult(file, allocOk).Some? ==> currentMap == LoadResult(file, allocOk) && mapFilename == Some(filename)
      ensures LoadResult(file, allocOk).None? ==> currentMap == old(currentMap) && mapFilename.None?
      ensures running == (end != Exited) && exiting == (end == Exited)
      ensures var enter := if LoadResult(file, allocOk).Some? then EnterEvents(stash, LoadResult(file, allocOk).value) else [];
        if enterRequestsExit && enter != [] then
          end == Exited && trace == old(trace) + [ClearedScreen] + enter
        else
          var r := RunFrames(frames);
          end == r.end && trace == old(trace) + [ClearedScreen] + enter + FramesEvents(frames[..r.iterations], Ctx()) &&
          (cameraPerson.Some? && r.iterations > 0 ==> (camX, camY) == frames[r.iterations - 1].cameraXY)
    {
      running := true;
      exiting := false;
      trace := trace + [ClearedScreen];
      framerate := rate;
      var _ := ChangeMap(filename, file, allocOk, enterRequestsExit);
      if exiting {
        running := false;
        return Exited;
      }
      ghost var started := trace;
      end := RunLoop(frames);
      assert trace == started + FramesEvents(frames[..RunFrames(frames).iterations], Ctx());
      if end == Exited {
        running := false;
      }
    }

    /** `GetCurrentMap()`. */
    method GetCurrentMap() returns (r: Result<Option<string>>)
      ensures r.Err? <==> !running
      ensures r.Err? ==> r.error == Error
      ensures r.Ok? ==> r.value == mapFilename
    {
      if running {
        r := Ok(mapFilename);
      } else {
        r := Err(Error);
      }
    }

    /** `GetMapEngineFrameRate()`. */
    function GetFrameRate(): int
      reads this
    {
      framerate
    }

    /** `SetMapEngineFrameRate(rate)`. */
    method SetFrameRate(rate: int)
      modifies this`framerate
      ensures GetFrameRate() == rate
    {
      framerate := rate;
    }

    /** `SetDefaultMapScript(kind, source)`: overwrites one of the six default
        map script slots; any other constant is an error. */
    method SetDefaultMapScript(kind: int, source: string) returns (r: Result<()>)
      modifies this`stash
      ensures r.Ok? <==> 0 <= kind < 6
      ensures r.Err? ==> r.error == Error && stash == old(stash)
      ensures r.Ok? ==> stash == old(stash)[DefaultScript(MapScriptOfCode(kind).value) := Script(source)]
    {
      var k := MapScriptOfCode(kind);
      if k.Some? {
        stash := stash[DefaultScript(k.value) := Script(source)];
        r := Ok(());
      } else {
        r := Err(Error);
      }
    }

    /** `SetRenderScript(source)`. */
    method SetRenderScript(source: string)
      modifies this`stash
      ensures stash == old(stash)[RenderScript := Script(source)]
    {
      stash := stash[RenderScript := Script(source)];
    }

    /** `SetUpdateScript(source)`. */
    method SetUpdateScript(source: string)
      modifies this`stash
      ensures stash == old(stash)[UpdateScript := Script(source)]
    {
      stash := stash[UpdateScript := Script(source)];
    }

    /** `IsMapEngineRunning()`. */
    function IsRunning(): bool
      reads this
    {
      running
    }

    /** `AttachCamera(name)`: `registry` plays `find_person`. */
    method AttachCamera(name: string, registry: map<string, Person>) returns (r: Result<()>)
      modifies this`cameraPerson
      ensures r.Ok? <==> name in registry
      ensures r.Ok? ==> cameraPerson == Some(registry[name])
      ensures r.Err? ==> r.error == ReferenceError && cameraPerson == old(cameraPerson)
    {
      if name in registry {
        cameraPerson := Some(registry[name]);
        r := Ok(());
      } else {
        r := Err(ReferenceError);
      }
    }

    /** `AttachInput(name)`: `registry` plays `find_person`. */
    method AttachInput(name: string, registry: map<string, Person>) returns (r: Result<()>)
      modifies this`inputPerson
      ensures r.Ok? <==> name in registry
      ensures r.Ok? ==> inputPerson == Some(registry[name])
      ensures r.Err? ==> r.error == ReferenceError && inputPerson == old(inputPerson)
    {
      if name in registry {
        inputPerson := Some(registry[name]);
        r := Ok(());
      } else {
        r := Err(ReferenceError);
      }
    }

    /** `ExitMapEngine()`: only raises the exit flag. */
    method ExitMapEngine() returns (r: Result<()>)
      modifies this`exiting
      ensures r.Ok? <==> running
      ensures r.Ok? ==> exiting
      ensures r.Err? ==> r.error == Error && exiting == old(exiting)
    {
      if running {
        exiting := true;
        r := Ok(());
      } else {
        r := Err(Error);
      }
    }

    /** `RenderMap()`. */
    method RenderMap() returns (r: Result<()>)
      modifies this`trace
      ensures r.Ok? <==> running
      ensures r.Ok? ==> trace == old(trace) + RenderEvents(mapFilename, stash)
      ensures r.Err? ==> r.error == Error && trace == old(trace)
    {
      if running {
        Render();
        r := Ok(());
      } else {
        r := Err(Error);
      }
    }

    /** `UpdateMapEngine()`, with the keyboard state and the camera person's
        reported position as inputs. */
    method UpdateMapEngine(keys: set<int>, cameraXY: (int, int)) returns (r: Result<()>)
      modifies this`trace, this`camX, this`camY
      ensures r.Ok? <==> running
      ensures r.Ok? ==> trace == old(trace) + UpdateEvents(inputPerson, stash, keys)
      ensures r.Ok? && cameraPerson.Some? ==> (camX, camY) == cameraXY
      ensures r.Err? || cameraPerson.None? ==> camX == old(camX) && camY == old(camY)
      ensures r.Err? ==> r.error == Error && trace == old(trace)
    {
      if running {
        Update(keys, cameraXY);
        r := Ok(());
      } else {
        r := Err(Error);
      }
    }
  }
}
