/** Keyboard and mouse-wheel queues and key/joystick-button bindings.

    The two queues are fixed 255-slot arrays with a count; keys past the
    capacity are dropped. The binding lists are sequences the operations
    rewrite entry by entry. Device state (which keys and buttons are down,
    the wheel position, the pending Allegro events) is an input; scripts are
    opaque references, and running one is recorded in `scriptRuns`. The
    window-level actions the key handler triggers are recorded in
    `hostActions`. */
module Input {
  import opened Common
  import Keys

  /** The capacity of the key queue and of the wheel queue. */
  const QUEUE_CAPACITY: int := 255

  const MAX_JOYSTICKS: int := 4
  const MAX_JOY_BUTTONS: int := 32

  /** `MOUSE_WHEEL_UP` and `MOUSE_WHEEL_DOWN`. */
  const MOUSE_WHEEL_UP: int := 0
  const MOUSE_WHEEL_DOWN: int := 1

  // ---------------------------------------------------------------------
  // Bounded FIFO queues
  // ---------------------------------------------------------------------

  /** Appending to a queue holding `q`: a full queue drops the value. */
  function Enqueue(q: seq<int>, x: int): (r: seq<int>)
    ensures |q| < QUEUE_CAPACITY ==> r == q + [x]
    ensures |q| >= QUEUE_CAPACITY ==> r == q
  {
    if |q| < QUEUE_CAPACITY then q + [x] else q
  }

  /** Appending each of `xs` in turn. */
  function EnqueueAll(q: seq<int>, xs: seq<int>): seq<int>
    decreases |xs|
  {
    if xs == [] then q else EnqueueAll(Enqueue(q, xs[0]), xs[1..])
  }

  function Min(a: int, b: int): int {
    if a < b then a else b
  }

  /** A run of appends keeps everything that fits, in arrival order, and
      drops the rest: the queue holds the first 255 values offered. */
  lemma {:induction false} EnqueueAllKeepsPrefix(q: seq<int>, xs: seq<int>)
    requires |q| <= QUEUE_CAPACITY
    ensures EnqueueAll(q, xs) == (q + xs)[..Min(|q| + |xs|, QUEUE_CAPACITY)]
    decreases |xs|
  {
    if xs != [] {
      var q' := Enqueue(q, xs[0]);
      EnqueueAllKeepsPrefix(q', xs[1..]);
      if |q| < QUEUE_CAPACITY {
        assert q' + xs[1..] == q + xs;
      } else {
        assert (q + xs)[..QUEUE_CAPACITY] == q;
        assert (q' + xs[1..])[..QUEUE_CAPACITY] == q;
      }
    } else {
      assert q + xs == q;
    }
  }

  /** A 255-slot queue of integers with a count (`struct key_queue` and the
      wheel queue). */
  class BoundedQueue {
    const items: array<int>
    var count: int

    ghost predicate Valid()
      reads this
    {
      items.Length == QUEUE_CAPACITY && 0 <= count <= QUEUE_CAPACITY
    }

    /** The queued values, front first. */
    function Contents(): seq<int>
      requires Valid()
      reads this, items
    {
      items[..count]
    }

    constructor ()
      ensures Valid() && Contents() == [] && fresh(items)
    {
      items := new int[QUEUE_CAPACITY];
      count := 0;
    }

    /** `queue_key` / `queue_wheel_event`. */
    method Push(x: int)
      requires Valid()
      modifies this`count, items
      ensures Valid() && Contents() == Enqueue(old(Contents()), x)
    {
      if count < QUEUE_CAPACITY {
        items[count] := x;
        count := count + 1;
        assert items[..count] == old(items[..count]) + [x];
      }
    }

    /** Removes the front value and shifts the rest down one slot. The
        callers' blocking wait for a value becomes the precondition. */
    method Pop() returns (x: int)
      requires Valid() && count > 0
      modifies this`count, items
      ensures Valid() && x == old(Contents())[0] && Contents() == old(Contents())[1..]
    {
      ghost var c := items[..count];
      x := items[0];
      count := count - 1;
      var i := 0;
      while i < count
        invariant 0 <= i <= count && count == |c| - 1 && items.Length == QUEUE_CAPACITY
        invariant forall j :: 0 <= j < i ==> items[j] == c[j + 1]
        invariant forall j :: i < j < |c| ==> items[j] == c[j]
      {
        items[i] := items[i + 1];
        i := i + 1;
      }
      assert items[..count] == c[1..];
    }

    /** `clear_key_queue`. */
    method Clear()
      requires Valid()
      modifies this`count
      ensures Valid() && Contents() == []
    {
      count := 0;
    }

    /** `AreKeysLeft`. */
    function IsNonEmpty(): (b: bool)
      requires Valid()
      reads this, items
      ensures b <==> Contents() != []
    {
      count > 0
    }
  }

  // ---------------------------------------------------------------------
  // Bindings
  // ---------------------------------------------------------------------

  /** An opaque compiled script (`script_t*`). */
  datatype ScriptRef = ScriptRef(id: nat)

  /** One binding: the bound key (a keycode, or a joystick and button), the
      state seen on the last poll and the two scripts (`None` for NULL). */
  datatype Binding<K> = Binding(key: K, isPressed: bool, onDown: Option<ScriptRef>, onUp: Option<ScriptRef>)

  /** A joystick button: joystick index and button index. */
  datatype ButtonId = ButtonId(joystick: int, button: int)

  predicate UniqueKeys<K(==)>(bs: seq<Binding<K>>) {
    forall i, j :: 0 <= i < j < |bs| ==> bs[i].key != bs[j].key
  }

  predicate HasKey<K(==)>(bs: seq<Binding<K>>, key: K) {
    exists i :: 0 <= i < |bs| && bs[i].key == key
  }

  /** Every entry with `nb`'s key overwritten by `nb`. */
  function ReplaceMatching<K(==)>(bs: seq<Binding<K>>, nb: Binding<K>): seq<Binding<K>>
    decreases |bs|
  {
    if bs == [] then []
    else
      var last := bs[|bs| - 1];
      ReplaceMatching(bs[..|bs| - 1], nb) + [if last.key == nb.key then nb else last]
  }

  lemma {:induction false} ReplaceMatchingEntries<K>(bs: seq<Binding<K>>, nb: Binding<K>)
    ensures |ReplaceMatching(bs, nb)| == |bs|
    ensures forall i :: 0 <= i < |bs| ==>
      ReplaceMatching(bs, nb)[i] == if bs[i].key == nb.key then nb else bs[i]
    decreases |bs|
  {
    if bs != [] {
      ReplaceMatchingEntries(bs[..|bs| - 1], nb);
    }
  }

  /** `bind_key` / `bind_button`: every entry for the key is replaced by a
      fresh, not-pressed entry with the new scripts; if there was none, one
      is appended. */
  function Rebind<K(==)>(bs: seq<Binding<K>>, key: K, onDown: Option<ScriptRef>, onUp: Option<ScriptRef>): seq<Binding<K>> {
    var nb := Binding(key, false, onDown, onUp);
    if HasKey(bs, key) then ReplaceMatching(bs, nb) else bs + [nb]
  }

  /** Rebinding keeps keys unique, leaves exactly one entry for the key (not
      pressed, with the new scripts) in the place of the old one or at the
      end, and changes no other entry. */
  lemma RebindSpec<K>(bs: seq<Binding<K>>, key: K, onDown: Option<ScriptRef>, onUp: Option<ScriptRef>)
    requires UniqueKeys(bs)
    ensures var r := Rebind(bs, key, onDown, onUp);
      UniqueKeys(r) &&
      |r| == (if HasKey(bs, key) then |bs| else |bs| + 1) &&
      HasKey(r, key) &&
      (forall i :: 0 <= i < |r| && r[i].key == key ==> r[i] == Binding(key, false, onDown, onUp)) &&
      (forall i :: 0 <= i < |bs| && bs[i].key != key ==> r[i] == bs[i]) &&
      (forall i :: 0 <= i < |bs| ==> r[i].key == bs[i].key)
  {
    var nb := Binding(key, false, onDown, onUp);
    var r := Rebind(bs, key, onDown, onUp);
    if HasKey(bs, key) {
      ReplaceMatchingEntries(bs, nb);
      var k :| 0 <= k < |bs| && bs[k].key == key;
      assert r[k].key == key;
    } else {
      assert r[|bs|].key == key;
    }
  }

  /** Unbinding is a rebind with NULL scripts, so the entry stays in the
      list. */
  lemma UnbindKeepsEntry<K>(bs: seq<Binding<K>>, key: K)
    requires UniqueKeys(bs) && HasKey(bs, key)
    ensures |Rebind(bs, key, None, None)| == |bs|
    ensures HasKey(Rebind(bs, key, None, None), key)
  {
    RebindSpec(bs, key, None, None);
  }

  /** The loop of `bind_key` / `bind_button` over the binding list. */
  method BindEntry<K(==)>(bs: seq<Binding<K>>, key: K, onDown: Option<ScriptRef>, onUp: Option<ScriptRef>)
    returns (r: seq<Binding<K>>)
    ensures r == Rebind(bs, key, onDown, onUp)
  {
    var nb := Binding(key, false, onDown, onUp);
    var isNew := true;
    r := bs;
    var i := 0;
    while i < |bs|
      invariant 0 <= i <= |bs| && |r| == |bs|
      invariant forall j :: 0 <= j < i ==> r[j] == if bs[j].key == key then nb else bs[j]
      invariant forall j :: i <= j < |bs| ==> r[j] == bs[j]
      invariant isNew <==> forall j :: 0 <= j < i ==> bs[j].key != key
    {
      if r[i].key == key {
        r := r[i := nb];
        isNew := false;
      }
      i := i + 1;
    }
    ReplaceMatchingEntries(bs, nb);
    if isNew {
      assert r == bs;
      r := r + [nb];
    } else {
      assert r == ReplaceMatching(bs, nb);
    }
  }

  /** Running an optional script: NULL runs nothing. */
  function Run(s: Option<ScriptRef>): seq<ScriptRef> {
    if s.Some? then [s.value] else []
  }

  /** The scripts one entry fires on a poll: the down script on a press, the
      up script on a release, nothing otherwise. */
  function Fires<K>(b: Binding<K>, held: set<K>): seq<ScriptRef> {
    var down := b.key in held;
    if down && !b.isPressed then Run(b.onDown)
    else if !down && b.isPressed then Run(b.onUp)
    else []
  }

  /** The entries after a poll: each records whether its key is down. */
  function Polled<K>(bs: seq<Binding<K>>, held: set<K>): (r: seq<Binding<K>>)
    ensures |r| == |bs|
    ensures forall i :: 0 <= i < |bs| ==> r[i] == bs[i].(isPressed := bs[i].key in held)
    decreases |bs|
  {
    if bs == [] then []
    else Polled(bs[..|bs| - 1], held) + [bs[|bs| - 1].(isPressed := bs[|bs| - 1].key in held)]
  }

  /** The scripts a poll runs, in list order. */
  function Fired<K>(bs: seq<Binding<K>>, held: set<K>): seq<ScriptRef>
    decreases |bs|
  {
    if bs == [] then [] else Fired(bs[..|bs| - 1], held) + Fires(bs[|bs| - 1], held)
  }

  /** A poll fires a script only for an entry whose key changed state. */
  lemma {:induction false} FiredOnlyOnTransitions<K>(bs: seq<Binding<K>>, held: set<K>)
    requires forall i :: 0 <= i < |bs| ==> bs[i].isPressed == (bs[i].key in held)
    ensures Fired(bs, held) == []
    decreases |bs|
  {
    if bs != [] {
      FiredOnlyOnTransitions(bs[..|bs| - 1], held);
    }
  }

  /** Polling twice with the same keys down fires nothing the second time and
      leaves the entries as the first poll left them: runs are edge-triggered. */
  lemma PollIsEdgeTriggered<K>(bs: seq<Binding<K>>, held: set<K>)
    ensures Fired(Polled(bs, held), held) == []
    ensures Polled(Polled(bs, held), held) == Polled(bs, held)
  {
    FiredOnlyOnTransitions(Polled(bs, held), held);
  }

  /** One binding list's loop in `update_bound_keys`. */
  method PollBindings<K>(bs: seq<Binding<K>>, held: set<K>) returns (r: seq<Binding<K>>, runs: seq<ScriptRef>)
    ensures r == Polled(bs, held) && runs == Fired(bs, held)
  {
    r := [];
    runs := [];
    var i := 0;
    while i < |bs|
      invariant 0 <= i <= |bs|
      invariant r == Polled(bs[..i], held) && runs == Fired(bs[..i], held)
    {
      var b := bs[i];
      var isDown := b.key in held;
      if isDown && !b.isPressed && b.onDown.Some? {
        runs := runs + [b.onDown.value];
      }
      if !isDown && b.isPressed && b.onUp.Some? {
        runs := runs + [b.onUp.value];
      }
      r := r + [b.(isPressed := isDown)];
      assert bs[..i + 1][..i] == bs[..i];
      i := i + 1;
    }
    assert bs[..|bs|] == bs;
  }

  // ---------------------------------------------------------------------
  // Allegro key-char events
  // ---------------------------------------------------------------------

  /** A pending Allegro event: a key-char event with its modifiers, or any
      other event type. */
  datatype InputEvent = KeyChar(keycode: int, alt: bool, altGr: bool) | OtherEvent

  datatype HostAction = ToggleFullscreen | ToggleFpsDisplay | TakeScreenshot

  /** What the engine does with a key-char event instead of queueing it. */
  function HostActionOf(e: InputEvent): Option<HostAction> {
    if !e.KeyChar? then None
    else if e.keycode == Keys.KEY_ENTER && (e.alt || e.altGr) then Some(ToggleFullscreen)
    else if e.keycode == Keys.KEY_F10 then Some(ToggleFullscreen)
    else if e.keycode == Keys.KEY_F11 then Some(ToggleFpsDisplay)
    else if e.keycode == Keys.KEY_F12 then Some(TakeScreenshot)
    else None
  }

  /** A key-char event is queued exactly when it triggers no host action. */
  function QueuedKey(e: InputEvent): (k: Option<int>)
    ensures k.Some? <==> e.KeyChar? && HostActionOf(e).None?
    ensures k.Some? ==> k.value == e.keycode
  {
    if e.KeyChar? && HostActionOf(e).None? then Some(e.keycode) else None
  }

  /** The keys `update_input` offers to the key queue, in event order. */
  function QueuedKeys(events: seq<InputEvent>): seq<int>
    decreases |events|
  {
    if events == [] then []
    else
      var last := events[|events| - 1];
      QueuedKeys(events[..|events| - 1]) + (if QueuedKey(last).Some? then [QueuedKey(last).value] else [])
  }

  function HostActions(events: seq<InputEvent>): seq<HostAction>
    decreases |events|
  {
    if events == [] then []
    else
      var last := events[|events| - 1];
      HostActions(events[..|events| - 1]) + (if HostActionOf(last).Some? then [HostActionOf(last).value] else [])
  }

  /** The reserved keys never reach the queue; Enter does unless Alt or
      AltGr is held; every other key-char event is queued. */
  lemma {:induction false} QueuedKeysFilter(events: seq<InputEvent>, k: int)
    ensures k in QueuedKeys(events) <==>
      exists i :: 0 <= i < |events| && events[i].KeyChar? && events[i].keycode == k &&
        HostActionOf(events[i]).None?
    ensures k == Keys.KEY_F10 || k == Keys.KEY_F11 || k == Keys.KEY_F12 ==> k !in QueuedKeys(events)
    decreases |events|
  {
    if events != [] {
      var init := events[..|events| - 1];
      QueuedKeysFilter(init, k);
      assert forall i :: 0 <= i < |init| ==> init[i] == events[i];
    }
  }

  /** The wheel events one update queues for a move from `last` to `z`: at
      most one, UP when the wheel rose and DOWN when it fell. */
  function WheelEvents(last: int, z: int): (evs: seq<int>)
    ensures |evs| <= 1
    ensures evs == [MOUSE_WHEEL_UP] <==> z > last
    ensures evs == [MOUSE_WHEEL_DOWN] <==> z < last
    ensures evs == [] <==> z == last
  {
    if z > last then [MOUSE_WHEEL_UP] else if z < last then [MOUSE_WHEEL_DOWN] else []
  }

  // ---------------------------------------------------------------------
  // Key names and player keys
  // ---------------------------------------------------------------------

  /** The shifted symbols of the digit keys 0..9. */
  const SHIFTED_DIGITS: string := ")!@#$%^&*("

  /** A punctuation key's character unshifted and shifted. */
  function Punctuation(keycode: int): Option<(char, char)> {
    if keycode == Keys.KEY_BACKSLASH then Some(('\\', '|'))
    else if keycode == Keys.KEY_FULLSTOP then Some(('.', '>'))
    else if keycode == Keys.KEY_CLOSEBRACE then Some((']', '}'))
    else if keycode == Keys.KEY_COMMA then Some((',', '<'))
    else if keycode == Keys.KEY_EQUALS then Some(('=', '+'))
    else if keycode == Keys.KEY_MINUS then Some(('-', '_'))
    else if keycode == Keys.KEY_QUOTE then Some(('\'', '"'))
    else if keycode == Keys.KEY_OPENBRACE then Some(('[', '{'))
    else if keycode == Keys.KEY_SEMICOLON then Some((';', ':'))
    else if keycode == Keys.KEY_SLASH then Some(('/', '?'))
    else if keycode == Keys.KEY_TILDE then Some(('`', '~'))
    else None
  }

  predicate IsLetterKey(keycode: int) {
    Keys.KEY_A <= keycode <= Keys.KEY_Z
  }

  predicate IsDigitKey(keycode: int) {
    Keys.KEY_0 <= keycode <= Keys.KEY_9
  }

  /** The keys `GetKeyString` has a name for. */
  predicate IsNamedKey(keycode: int) {
    IsLetterKey(keycode) || IsDigitKey(keycode) || Punctuation(keycode).Some? ||
    keycode == Keys.KEY_SPACE || keycode == Keys.KEY_TAB
  }

  /** `GetKeyString(keycode, shift)`. */
  function KeyString(keycode: int, shift: bool): (s: string)
    ensures |s| <= 1
    ensures s == [] <==> !IsNamedKey(keycode)
  {
    if IsLetterKey(keycode) then
      [((if shift then 'A' else 'a') as int + (keycode - Keys.KEY_A)) as char]
    else if IsDigitKey(keycode) then
      if shift then [SHIFTED_DIGITS[keycode - Keys.KEY_0]] else [('0' as int + (keycode - Keys.KEY_0)) as char]
    else if Punctuation(keycode).Some? then
      [if shift then Punctuation(keycode).value.1 else Punctuation(keycode).value.0]
    else if keycode == Keys.KEY_SPACE then " "
    else if keycode == Keys.KEY_TAB then "\t"
    else ""
  }

  /** The key whose name under `shift` is `c`: the inverse of `KeyString`. */
  function KeyOfChar(c: char, shift: bool): Option<int> {
    if c == ' ' then Some(Keys.KEY_SPACE)
    else if c == '\t' then Some(Keys.KEY_TAB)
    else if !shift && 'a' <= c <= 'z' then Some(Keys.KEY_A + (c as int - 'a' as int))
    else if shift && 'A' <= c <= 'Z' then Some(Keys.KEY_A + (c as int - 'A' as int))
    else if !shift && '0' <= c <= '9' then Some(Keys.KEY_0 + (c as int - '0' as int))
    else if shift then ShiftedSymbolKey(c)
    else SymbolKey(c)
  }

  function SymbolKey(c: char): Option<int> {
    match c
    case '\\' => Some(Keys.KEY_BACKSLASH)
    case '.' => Some(Keys.KEY_FULLSTOP)
    case ']' => Some(Keys.KEY_CLOSEBRACE)
    case ',' => Some(Keys.KEY_COMMA)
    case '=' => Some(Keys.KEY_EQUALS)
    case '-' => Some(Keys.KEY_MINUS)
    case '\'' => Some(Keys.KEY_QUOTE)
    case '[' => Some(Keys.KEY_OPENBRACE)
    case ';' => Some(Keys.KEY_SEMICOLON)
    case '/' => Some(Keys.KEY_SLASH)
    case '`' => Some(Keys.KEY_TILDE)
    case _ => None
  }

  function ShiftedSymbolKey(c: char): Option<int> {
    match c
    case ')' => Some(Keys.KEY_0)
    case '!' => Some(Keys.KEY_0 + 1)
    case '@' => Some(Keys.KEY_0 + 2)
    case '#' => Some(Keys.KEY_0 + 3)
    case '$' => Some(Keys.KEY_0 + 4)
    case '%' => Some(Keys.KEY_0 + 5)
    case '^' => Some(Keys.KEY_0 + 6)
    case '&' => Some(Keys.KEY_0 + 7)
    case '*' => Some(Keys.KEY_0 + 8)
    case '(' => Some(Keys.KEY_0 + 9)
    case '|' => Some(Keys.KEY_BACKSLASH)
    case '>' => Some(Keys.KEY_FULLSTOP)
    case '}' => Some(Keys.KEY_CLOSEBRACE)
    case '<' => Some(Keys.KEY_COMMA)
    case '+' => Some(Keys.KEY_EQUALS)
    case '_' => Some(Keys.KEY_MINUS)
    case '"' => Some(Keys.KEY_QUOTE)
    case '{' => Some(Keys.KEY_OPENBRACE)
    case ':' => Some(Keys.KEY_SEMICOLON)
    case '?' => Some(Keys.KEY_SLASH)
    case '~' => Some(Keys.KEY_TILDE)
    case _ => None
  }

  /** Every named key is recovered from its name, so for a fixed shift state
      distinct named keys have distinct names. */
  lemma KeyStringRoundTrip(keycode: int, shift: bool)
    requires IsNamedKey(keycode)
    ensures KeyOfChar(KeyString(keycode, shift)[0], shift) == Some(keycode)
  {
    if IsLetterKey(keycode) {
      LetterRoundTrip(keycode, shift);
    } else if IsDigitKey(keycode) {
      DigitRoundTrip(keycode, shift);
    }
  }

  lemma LetterRoundTrip(keycode: int, shift: bool)
    requires IsLetterKey(keycode)
    ensures KeyOfChar(KeyString(keycode, shift)[0], shift) == Some(keycode)
  {
    var c := KeyString(keycode, shift)[0];
    assert c as int == (if shift then 'A' else 'a') as int + (keycode - Keys.KEY_A);
  }

  lemma DigitRoundTrip(keycode: int, shift: bool)
    requires IsDigitKey(keycode)
    ensures KeyOfChar(KeyString(keycode, shift)[0], shift) == Some(keycode)
  {
    var i := keycode - Keys.KEY_0;
    if shift {
      assert KeyString(keycode, shift)[0] == SHIFTED_DIGITS[i];
      assert ShiftedSymbolKey(SHIFTED_DIGITS[i]) == Some(keycode);
    }
  }

  /** Shift turns a letter's name into its upper case; space and tab ignore
      shift. */
  lemma KeyStringShift(keycode: int)
    ensures IsLetterKey(keycode) ==>
      KeyString(keycode, true)[0] as int == KeyString(keycode, false)[0] as int - 32
    ensures keycode == Keys.KEY_SPACE || keycode == Keys.KEY_TAB ==>
      KeyString(keycode, true) == KeyString(keycode, false)
  {
  }

  /** The `PLAYER_KEY_*` constants. */
  datatype PlayerKey = MenuKey | UpKey | DownKey | LeftKey | RightKey | AKey | BKey | XKey | YKey

  /** A key type argument: one of the constants, or any other number. */
  datatype PlayerKeyArg = Listed(k: PlayerKey) | Unlisted(raw: int)

  /** `GetPlayerKey(player, type)`: the fixed keyboard layout, the same for
      every player. An unlisted type pushes nothing, so the call returns the
      value on top of the stack: the last argument passed (`lastArg`), which
      is the type itself when exactly two are given. */
  function PlayerKeyCode(arg: PlayerKeyArg, lastArg: int): (k: int)
    ensures arg.Listed? ==> 0 <= k < Keys.KEY_MAX
    ensures arg.Unlisted? ==> k == lastArg
  {
    match arg
    case Unlisted(_) => lastArg
    case Listed(MenuKey) => Keys.KEY_ESCAPE
    case Listed(UpKey) => Keys.KEY_UP
    case Listed(DownKey) => Keys.KEY_DOWN
    case Listed(LeftKey) => Keys.KEY_LEFT
    case Listed(RightKey) => Keys.KEY_RIGHT
    case Listed(AKey) => Keys.KEY_Z
    case Listed(BKey) => Keys.KEY_X
    case Listed(XKey) => Keys.KEY_C
    case Listed(YKey) => Keys.KEY_V
  }

  /** The nine player keys map to nine different keyboard keys, whatever
      else is on the stack. */
  lemma PlayerKeysDistinct(a: PlayerKey, b: PlayerKey, top1: int, top2: int)
    ensures PlayerKeyCode(Listed(a), top1) == PlayerKeyCode(Listed(b), top2) ==> a == b
  {
  }

  // ---------------------------------------------------------------------
  // The input subsystem state
  // ---------------------------------------------------------------------

  class InputState {
    const keyQueue: BoundedQueue
    const wheelQueue: BoundedQueue
    var lastWheelPos: int
    /** `s_bound_keys`, `s_bound_map_keys` and `s_bound_buttons`. */
    var boundKeys: seq<Binding<int>>
    var boundMapKeys: seq<Binding<int>>
    var boundButtons: seq<Binding<ButtonId>>
    var hostActions: seq<HostAction>
    var scriptRuns: seq<ScriptRef>

    ghost predicate Valid()
      reads this, keyQueue, wheelQueue
    {
      keyQueue.Valid() && wheelQueue.Valid() && keyQueue != wheelQueue && keyQueue.items != wheelQueue.items &&
      UniqueKeys(boundKeys) && UniqueKeys(boundMapKeys) && UniqueKeys(boundButtons)
    }

    /** `initialize_input`: empty queues and binding lists. */
    constructor ()
      ensures Valid() && fresh(keyQueue) && fresh(wheelQueue) && fresh(keyQueue.items) && fresh(wheelQueue.items)
      ensures keyQueue.Contents() == [] && wheelQueue.Contents() == [] && lastWheelPos == 0
      ensures boundKeys == [] && boundMapKeys == [] && boundButtons == []
      ensures hostActions == [] && scriptRuns == []
    {
      keyQueue := new BoundedQueue();
      wheelQueue := new BoundedQueue();
      lastWheelPos := 0;
      boundKeys, boundMapKeys, boundButtons := [], [], [];
      hostActions, scriptRuns := [], [];
    }

    /** `update_input`: handles the pending events in order, then compares
        the wheel position `z` with the last one seen. */
    method UpdateInput(events: seq<InputEvent>, z: int)
      requires Valid()
      modifies keyQueue, keyQueue.items, wheelQueue, wheelQueue.items, this`hostActions, this`lastWheelPos
      ensures Valid()
      ensures keyQueue.Contents() == EnqueueAll(old(keyQueue.Contents()), QueuedKeys(events))
      ensures hostActions == old(hostActions) + HostActions(events)
      ensures wheelQueue.Contents() == EnqueueAll(old(wheelQueue.Contents()), WheelEvents(old(lastWheelPos), z))
      ensures lastWheelPos == z
    {
      var i := 0;
      while i < |events|
        invariant 0 <= i <= |events|
        invariant Valid()
        invariant keyQueue.Contents() == EnqueueAll(old(keyQueue.Contents()), QueuedKeys(events[..i]))
        invariant hostActions == old(hostActions) + HostActions(events[..i])
        invariant wheelQueue.Contents() == old(wheelQueue.Contents()) && lastWheelPos == old(lastWheelPos)
      {
        assert events[..i + 1][..i] == events[..i];
        EnqueueAllSnoc(old(keyQueue.Contents()), QueuedKeys(events[..i]), QueuedKey(events[i]));
        HandleKeyChar(events[i]);
        i := i + 1;
      }
      assert events[..|events|] == events;
      if z > lastWheelPos {
        wheelQueue.Push(MOUSE_WHEEL_UP);
      }
      if z < lastWheelPos {
        wheelQueue.Push(MOUSE_WHEEL_DOWN);
      }
      lastWheelPos := z;
    }

    /** The body of the event loop of `update_input` for one event. */
    method HandleKeyChar(e: InputEvent)
      requires Valid()
      modifies keyQueue, keyQueue.items, this`hostActions
      ensures Valid()
      ensures keyQueue.Contents() ==
        if QueuedKey(e).Some? then Enqueue(old(keyQueue.Contents()), e.keycode) else old(keyQueue.Contents())
      ensures hostActions == old(hostActions) + (if HostActionOf(e).Some? then [HostActionOf(e).value] else [])
    {
      if e.KeyChar? {
        if e.keycode == Keys.KEY_ENTER {
          if e.alt || e.altGr {
            hostActions := hostActions + [ToggleFullscreen];
          } else {
            keyQueue.Push(e.keycode);
          }
        } else if e.keycode == Keys.KEY_F10 {
          hostActions := hostActions + [ToggleFullscreen];
        } else if e.keycode == Keys.KEY_F11 {
          hostActions := hostActions + [ToggleFpsDisplay];
        } else if e.keycode == Keys.KEY_F12 {
          hostActions := hostActions + [TakeScreenshot];
        } else {
          keyQueue.Push(e.keycode);
        }
      }
    }

    /** `update_bound_keys`: the map-key bindings (only when the map engine
        asks for them), then the other key bindings, then the joystick
        buttons. */
    method UpdateBoundKeys(useMapKeys: bool, heldKeys: set<int>, heldButtons: set<ButtonId>)
      requires Valid()
      modifies this`boundMapKeys, this`boundKeys, this`boundButtons, this`scriptRuns
      ensures Valid()
      ensures boundMapKeys == (if useMapKeys then Polled(old(boundMapKeys), heldKeys) else old(boundMapKeys))
      ensures boundKeys == Polled(old(boundKeys), heldKeys)
      ensures boundButtons == Polled(old(boundButtons), heldButtons)
      ensures scriptRuns == old(scriptRuns) +
        (if useMapKeys then Fired(old(boundMapKeys), heldKeys) else []) +
        Fired(old(boundKeys), heldKeys) + Fired(old(boundButtons), heldButtons)
    {
      var runs: seq<ScriptRef> := [];
      if useMapKeys {
        boundMapKeys, runs := PollBindings(boundMapKeys, heldKeys);
        PolledKeepsKeys(old(boundMapKeys), heldKeys);
      }
      var keyRuns, buttonRuns;
      boundKeys, keyRuns := PollBindings(boundKeys, heldKeys);
      PolledKeepsKeys(old(boundKeys), heldKeys);
      boundButtons, buttonRuns := PollBindings(boundButtons, heldButtons);
      PolledKeepsKeys(old(boundButtons), heldButtons);
      scriptRuns := scriptRuns + runs + keyRuns + buttonRuns;
    }

    /** `AreKeysLeft()`. */
    method AreKeysLeft() returns (b: bool)
      requires Valid()
      ensures b <==> |keyQueue.Contents()| > 0
    {
      b := keyQueue.IsNonEmpty();
    }

    /** `GetKey()`, once a key is queued: the oldest key. */
    method GetKey() returns (k: int)
      requires Valid() && |keyQueue.Contents()| > 0
      modifies keyQueue, keyQueue.items
      ensures Valid()
      ensures k == old(keyQueue.Contents())[0] && keyQueue.Contents() == old(keyQueue.Contents())[1..]
    {
      k := keyQueue.Pop();
    }

    /** `ClearKeyQueue()`. */
    method ClearKeyQueue()
      requires Valid()
      modifies keyQueue
      ensures Valid() && keyQueue.Contents() == []
    {
      keyQueue.Clear();
    }

    /** `GetNumMouseWheelEvents()`. */
    method GetNumMouseWheelEvents() returns (n: int)
      requires Valid()
      ensures n == |wheelQueue.Contents()|
    {
      n := wheelQueue.count;
    }

    /** `GetMouseWheelEvent()`, once an event is queued: the oldest event. */
    method GetMouseWheelEvent() returns (e: int)
      requires Valid() && |wheelQueue.Contents()| > 0
      modifies wheelQueue, wheelQueue.items
      ensures Valid()
      ensures e == old(wheelQueue.Contents())[0] && wheelQueue.Contents() == old(wheelQueue.Contents())[1..]
    {
      e := wheelQueue.Pop();
    }

    /** `BindKey(keycode, down, up)`: binds a map key. */
    method BindKey(keycode: int, onDown: ScriptRef, onUp: ScriptRef) returns (r: Result<()>)
      requires Valid()
      modifies this`boundMapKeys
      ensures Valid()
      ensures r.Ok? <==> 0 <= keycode < Keys.KEY_MAX
      ensures r.Ok? ==> boundMapKeys == Rebind(old(boundMapKeys), keycode, Some(onDown), Some(onUp))
      ensures r.Err? ==> r.error == RangeError && boundMapKeys == old(boundMapKeys)
    {
      if keycode < 0 || keycode >= Keys.KEY_MAX {
        return Err(RangeError);
      }
      RebindSpec(boundMapKeys, keycode, Some(onDown), Some(onUp));
      boundMapKeys := BindEntry(boundMapKeys, keycode, Some(onDown), Some(onUp));
      r := Ok(());
    }

    /** `UnbindKey(keycode)`: rebinds the map key to NULL scripts. */
    method UnbindKey(keycode: int) returns (r: Result<()>)
      requires Valid()
      modifies this`boundMapKeys
      ensures Valid()
      ensures r.Ok? <==> 0 <= keycode < Keys.KEY_MAX
      ensures r.Ok? ==> boundMapKeys == Rebind(old(boundMapKeys), keycode, None, None)
      ensures r.Err? ==> r.error == RangeError && boundMapKeys == old(boundMapKeys)
    {
      if keycode < 0 || keycode >= Keys.KEY_MAX {
        return Err(RangeError);
      }
      RebindSpec(boundMapKeys, keycode, None, None);
      boundMapKeys := BindEntry(boundMapKeys, keycode, None, None);
      r := Ok(());
    }

    /** `BindJoystickButton(joy, button, down, up)`. */
    method BindJoystickButton(joy: int, button: int, onDown: ScriptRef, onUp: ScriptRef) returns (r: Result<()>)
      requires Valid()
      modifies this`boundButtons
      ensures Valid()
      ensures r.Ok? <==> 0 <= joy < MAX_JOYSTICKS && 0 <= button < MAX_JOY_BUTTONS
      ensures r.Ok? ==> boundButtons == Rebind(old(boundButtons), ButtonId(joy, button), Some(onDown), Some(onUp))
      ensures r.Err? ==> r.error == RangeError && boundButtons == old(boundButtons)
    {
      if joy < 0 || joy >= MAX_JOYSTICKS || button < 0 || button >= MAX_JOY_BUTTONS {
        return Err(RangeError);
      }
      RebindSpec(boundButtons, ButtonId(joy, button), Some(onDown), Some(onUp));
      boundButtons := BindEntry(boundButtons, ButtonId(joy, button), Some(onDown), Some(onUp));
      r := Ok(());
    }

    /** `UnbindJoystickButton(joy, button)`. */
    method UnbindJoystickButton(joy: int, button: int) returns (r: Result<()>)
      requires Valid()
      modifies this`boundButtons
      ensures Valid()
      ensures r.Ok? <==> 0 <= joy < MAX_JOYSTICKS && 0 <= button < MAX_JOY_BUTTONS
      ensures r.Ok? ==> boundButtons == Rebind(old(boundButtons), ButtonId(joy, button), None, None)
      ensures r.Err? ==> r.error == RangeError && boundButtons == old(boundButtons)
    {
      if joy < 0 || joy >= MAX_JOYSTICKS || button < 0 || button >= MAX_JOY_BUTTONS {
        return Err(RangeError);
      }
      RebindSpec(boundButtons, ButtonId(joy, button), None, None);
      boundButtons := BindEntry(boundButtons, ButtonId(joy, button), None, None);
      r := Ok(());
    }
  }

  lemma EnqueueAllSnoc(q: seq<int>, xs: seq<int>, x: Option<int>)
    requires |q| <= QUEUE_CAPACITY
    ensures EnqueueAll(q, xs + (if x.Some? then [x.value] else [])) ==
            if x.Some? then Enqueue(EnqueueAll(q, xs), x.value) else EnqueueAll(q, xs)
  {
    if x.Some? {
      EnqueueAllKeepsPrefix(q, xs + [x.value]);
      EnqueueAllKeepsPrefix(q, xs);
      assert q + (xs + [x.value]) == (q + xs) + [x.value];
    } else {
      assert xs + [] == xs;
    }
  }

  /** A poll changes only the pressed flags, so it keeps keys unique. */
  lemma PolledKeepsKeys<K>(bs: seq<Binding<K>>, held: set<K>)
    requires UniqueKeys(bs)
    ensures UniqueKeys(Polled(bs, held))
  {
  }
}
