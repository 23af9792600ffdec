# minisphere engine core in Dafny

This project models five parts of the minisphere game engine, each with its
state and its script-facing API:

- **Map engine** (`map_engine.dfy`, module `MapEngine`). This is the `.rmp`
  header and string-table loader. It also holds the engine session: the
  running and exiting flags, the frame rate, the current map and its file
  name, the camera and input persons, and the stash slots the map scripts
  live in. The `MapEngine()` loop runs one update and then one render per
  frame until a script calls `ExitMapEngine`. Script calls, person commands
  and the person and drawing subsystems are recorded as events in a trace.
- **ByteArray** (`bytearray.dfy`, module `ByteArrays`). A refcounted byte
  buffer with zero-filled creation and copies from buffers and strings. It
  supports concatenation, slicing, and bounds-checked indexed reads and
  writes, together with the script-level argument checks for each.
- **Input** (`input.dfy`, module `Input`). The key queue and the mouse-wheel
  queue are bounded FIFOs of 255 entries. The model also covers filtering of
  key-char events and wheel deltas, and the key and joystick-button binding
  lists with their replace-or-append rule. Bound scripts are polled on the
  edge of each key or button. The key-name and player-key mapping tables are
  pure functions.
- **Galileo** (`galileo.dfy`, module `Galileo`). Shapes with a growable
  vertex array, primitive-mode selection and bounding boxes. Groups hold a
  list of shapes with one reference per entry.
- **Images** (`image.dfy`, module `Images`). An image is a refcounted pixel
  grid with a parent chain for subimages and a cache of packed pixel words.
  The model covers colour replacement, lookup-table remapping, filling,
  flipping and rescaling, plus the cache invalidation each of these does.

Shared definitions sit in `common.dfy` (`Common`: `Option`, `Result` carrying
a script error kind, bytes, colours, 32-bit integer wrap-around), `keys.dfy`
(`Keys`: the Allegro 5 keycodes used) and `persons.dfy` (`Persons`: the
`person_cmd` and `person_script_type` enums).

The engine's devices are parameters of the operations that read them:
- keys held down;
- joystick buttons held down;
- the wheel position;
- the pending key-char events;
- whether an allocation, a bitmap lock or frame pacing succeeds;
- the position reported for the camera person;
- whether a script run by the engine asks it to exit.

Scripts themselves are opaque tokens.

## Model

| member | source | states |
|---|---|---|
| Persons.DirectionOfIndex | minisphere/persons.h:30-37 | exactly the numbers 0..7 name a direction |
| Persons.CommandOfCode | minisphere/persons.h:26-46 | exactly the numbers 0..17, `COMMAND_WAIT` to `COMMAND_MOVE_NORTHWEST`, name a command |
| Common.Wrap32 | src/bytearray.c:331 | C `int` addition wraps: the result is a 32-bit value congruent to the sum modulo 2^32, and equal to it when it fits |
| MapEngine.MapScriptCode | minisphere/map_engine.c:61-69 | map script kinds number 0..5 |
| Persons.CommandCode | minisphere/persons.h:26-46 | face commands are 2..9 and move commands 10..17, as in `person_cmd` |
| Persons.CommandCodeRoundTrip | minisphere/persons.h:26-46 | decoding a command's number gives the command back |
| Persons.CommandCodeInjective | minisphere/persons.h:26-46 | different commands have different numbers |
| Persons.DirectionIndexRoundTrip | minisphere/persons.h:30-37 | the eight directions and their numbers are inverse |
| Persons.PersonScriptCode | minisphere/persons.h:48-56 | every person script type is below `PERSON_SCRIPT_MAX` |
| MapEngine.Int16At | minisphere/map_engine.c:45 | a little-endian `int16_t` lies in [-32768, 32768) and agrees with the two bytes modulo 2^16 |
| MapEngine.Int8At | minisphere/map_engine.c:47 | an `int8_t` lies in [-128, 128) and agrees with its byte modulo 256 |
| MapEngine.DecodeHeader | minisphere/map_engine.c:42-58 | the packed header's signature has 4 bytes; version and string count are 16-bit signed values |
| MapEngine.StringCount | minisphere/map_engine.c:83-97 | the loader goes on to the string table iff the file opened, the header read was full, the signature is ".rmp", the version is 1 and the count is non-negative; the count is `num_strings` |
| MapEngine.LoadResult | minisphere/map_engine.c:72-110 | the reference definition of what `load_map` returns: no map unless the header is accepted, the string table is allocated and every string read succeeds, and then the strings in order; its properties are `LoadSucceedsIff` and `LoadRejectsBadHeader` |
| MapEngine.ReadStringsExact | minisphere/map_engine.c:89-93 | the table loads iff every one of the first `n` reads succeeds, and then holds exactly those strings in order |
| MapEngine.LoadRejectsBadHeader | minisphere/map_engine.c:83-97 | a missing file, short header, bad signature or version other than 1 yields no map |
| MapEngine.LoadSucceedsIff | minisphere/map_engine.c:84-107 | a load succeeds iff the header is accepted, the string table's allocation succeeds and all `num_strings` reads succeed; the map then holds exactly those strings and zero dimensions |
| MapEngine.LoadMap | minisphere/map_engine.c:72-110 | the loop's result equals `LoadResult`; once the string table is allocated it attempts every read even after a failed one, and a failed allocation attempts none |
| MapEngine.MapScriptOfCode | minisphere/map_engine.c:61-69 | exactly the constants 0..5 name a map script kind, and decoding inverts `MapScriptCode` |
| MapEngine.MapScriptCodeRoundTrip | minisphere/map_engine.c:130-135 | each map script constant decodes back to its kind |
| MapEngine.StashNamesDistinct | minisphere/map_engine.c:284-290 | the eight stash property names are pairwise different, so setting one slot never disturbs another |
| MapEngine.StashCall | minisphere/map_engine.c:156-161 | a stored slot is called once and an empty slot is not called |
| MapEngine.HeldDirection | minisphere/map_engine.c:196-211 | the reference definition of the arrow priority: Up, then Right, Down and Left; its property is `HeldDirectionIsHighestPriority` |
| MapEngine.HeldDirectionIsHighestPriority | minisphere/map_engine.c:196-211 | no arrow held gives no direction; otherwise the chosen arrow is held and no arrow of higher priority (Up, Right, Down, Left) is |
| MapEngine.InputCommands | minisphere/map_engine.c:194-212 | nothing is sent without an input person or a held arrow; otherwise exactly FACE then MOVE in the chosen direction |
| MapEngine.UpBeatsLeft | minisphere/map_engine.c:196-211 | with Up and Left held, the input person goes north only |
| MapEngine.UpdateEvents | minisphere/map_engine.c:191-225 | the reference definition of one update: persons are updated, then the input commands, then the update slot is called if set |
| MapEngine.RenderEvents | minisphere/map_engine.c:175-183 | a render draws the file name, renders the persons, then calls the render slot if set |
| MapEngine.LatestUpdateScriptWins | minisphere/map_engine.c:320-332 | after two `SetUpdateScript` calls only the second script runs in an update |
| MapEngine.EnterEvents | minisphere/map_engine.c:155-165 | entering a map calls the default enter slot (if set) first and then the map's script 3 (if present) |
| MapEngine.ShortStringTableLoads | minisphere/map_engine.c:164 | a valid version-1 map with one string, read successfully, loads, yet has no script 3 |
| MapEngine.RunFrames | minisphere/map_engine.c:239-243 | the loop never runs more iterations than frames supplied, and runs them all when the frames run out |
| MapEngine.RunFramesIsPrefix | minisphere/map_engine.c:239-243 | every iteration run was paced, only the last may have requested exit, the loop ends by exit iff the last one did, and a pacing failure names an unpaced frame |
| MapEngine.RunFramesStopsAt | minisphere/map_engine.c:239-243 | conversely, the loop stops exactly at the first exit request or pacing failure |
| MapEngine.ExitStopsBeforeNextUpdate | minisphere/map_engine.c:239-243 | an exit request in iteration k still lets that iteration update and render, and no later update runs |
| MapEngine.TraceAfterFrame | minisphere/map_engine.c:241-242 | the events of k frames followed by frame k's update and render are the events of k + 1 frames |
| MapEngine.Engine.constructor | minisphere/map_engine.c:31-39 | the initial session: not running, no map, no attachments, frame rate 0 |
| MapEngine.Engine.ChangeMap | minisphere/map_engine.c:142-172 | success iff the map loads, including the string table's allocation; on success the map and file name are set and the enter events follow; on failure the file name is cleared and the old map is kept |
| MapEngine.Engine.Update | minisphere/map_engine.c:186-226 | an update emits `UpdateEvents` (persons, input commands, update slot) and the camera follows its person only when one is attached |
| MapEngine.Engine.Render | minisphere/map_engine.c:175-183 | the trace grows by `RenderEvents` |
| MapEngine.Engine.Iterate | minisphere/map_engine.c:240-242 | one paced iteration is an update and then a render, and records an exit request |
| MapEngine.Engine.AdvanceFrame | minisphere/map_engine.c:239-243 | running frame i extends a trace of i frames to i + 1 frames |
| MapEngine.Engine.RunLoop | minisphere/map_engine.c:239-243 | the loop's end and its trace are those of `RunFrames` and `FramesEvents`; exiting holds iff it ended by exit |
| MapEngine.Engine.RunMapEngine | minisphere/map_engine.c:229-246 | running and exiting are set up, the screen is cleared, the frame rate is stored and the map changed; an exit from an enter script skips the loop; running ends cleared iff the loop ended by exit |
| MapEngine.Engine.GetCurrentMap | minisphere/map_engine.c:249-258 | an Error when not running, otherwise the current file name |
| MapEngine.Engine.SetFrameRate | minisphere/map_engine.c:261-272 | `GetMapEngineFrameRate` then returns the stored rate |
| MapEngine.Engine.GetFrameRate | minisphere/map_engine.c:261-265 | reads the stored frame rate |
| MapEngine.Engine.SetDefaultMapScript | minisphere/map_engine.c:275-302 | constants 0..5 overwrite their one slot; any other value is an Error and changes nothing |
| MapEngine.Engine.SetRenderScript | minisphere/map_engine.c:305-317 | the render slot is overwritten and no other slot changes |
| MapEngine.Engine.SetUpdateScript | minisphere/map_engine.c:320-332 | the update slot is overwritten and no other slot changes |
| MapEngine.Engine.IsRunning | minisphere/map_engine.c:335-339 | reads the running flag |
| MapEngine.Engine.AttachCamera | minisphere/map_engine.c:342-355 | the camera person changes iff the name is found; otherwise a ReferenceError and no change |
| MapEngine.Engine.AttachInput | minisphere/map_engine.c:358-371 | the input person changes iff the name is found; otherwise a ReferenceError and no change |
| MapEngine.Engine.ExitMapEngine | minisphere/map_engine.c:374-383 | only the exit flag is raised, and only while running; otherwise an Error |
| MapEngine.Engine.RenderMap | minisphere/map_engine.c:386-395 | a render while running; an Error and no events otherwise |
| MapEngine.Engine.UpdateMapEngine | minisphere/map_engine.c:398-407 | an update while running; an Error, no events and no camera move otherwise |
| ByteArrays.ByteArray.Zeroed | src/bytearray.c:31-44 | a new buffer has the requested size, all bytes 0 and refcount 1 |
| ByteArrays.ByteArray.Ref | src/bytearray.c:71-75 | the refcount goes up by one |
| ByteArrays.ByteArray.GetByte | src/bytearray.c:87-90 | the byte at the index |
| ByteArrays.ByteArray.SetByte | src/bytearray.c:106-109 | exactly the one byte changes |
| ByteArrays.NewByteArray | src/bytearray.c:31-44 | a buffer exists iff allocation succeeds and the size is in [0, INT_MAX]; it is zero-filled with refcount 1 |
| ByteArrays.CopyInto | src/bytearray.c:53 | a `memcpy`: the target range equals the source range and the bytes around it are unchanged |
| ByteArrays.FromBuffer | src/bytearray.c:47-55 | the new buffer holds exactly the given bytes |
| ByteArrays.FromLString | src/bytearray.c:58-68 | NULL for a string longer than INT_MAX; otherwise an exact copy |
| ByteArrays.Free | src/bytearray.c:78-84 | NULL is ignored; otherwise one reference is dropped and the buffer is released at zero |
| ByteArrays.ConcatByteArrays | src/bytearray.c:112-123 | the result has the first array's bytes then the second's, and fails when the sizes overflow `int` |
| ByteArrays.SliceByteArray | src/bytearray.c:126-134 | the result holds the `length` bytes from `start` |
| ByteArrays.NewContents | src/bytearray.c:218-242 | a string is copied and a size gives zeros; RangeError iff the string is too long or the size is negative |
| ByteArrays.JsNewByteArray | src/bytearray.c:218-242 | the script object has the contents of `NewContents` and one reference |
| ByteArrays.GetProp | src/bytearray.c:281-288 | success iff 0 <= index < size, giving that byte; RangeError otherwise |
| ByteArrays.SetProp | src/bytearray.c:304-311 | success iff 0 <= index < size; the size is kept; RangeError otherwise |
| ByteArrays.SetThenGet | src/bytearray.c:304-311 | a load after a store at the same index returns the stored byte; other indices are unchanged |
| ByteArrays.StoredByteOfByte | src/bytearray.c:309 | a byte value is stored as itself |
| ByteArrays.JsGetProp | src/bytearray.c:274-294 | the indexed read equals `GetProp` on the contents |
| ByteArrays.JsSetProp | src/bytearray.c:297-318 | the indexed write equals `SetProp` on the contents; on error the contents are unchanged |
| ByteArrays.Length | src/bytearray.c:255-264 | the `length` property is the number of bytes held, within [0, INT_MAX] |
| ByteArrays.NormalizeEnd | src/bytearray.c:344-353 | the end defaults to the size, counts from the size when negative, and is capped at the size |
| ByteArrays.SliceNegativeStartAccepted | src/bytearray.c:354 | the range test as written accepts `slice(-2)` on 4 bytes |
| ByteArrays.Slice | src/bytearray.c:340-360 | success iff 0 <= start <= normalised end, giving exactly those bytes; RangeError otherwise |
| ByteArrays.SliceRefinesAsWritten | src/bytearray.c:353-356 | every slice the corrected test accepts passes the test as written, and byte i is `bytes[start + i]` |
| ByteArrays.SliceAsWrittenAgreesOnNonNegativeStart | src/bytearray.c:353-356 | the corrected test accepts exactly the slices the test as written accepts with a start that is not negative, so the two differ only on negative starts |
| ByteArrays.SliceToEnd | src/bytearray.c:344 | `slice(start)` copies from start to the end |
| ByteArrays.JsSlice | src/bytearray.c:340-360 | success iff `Slice` of the contents succeeds and the allocation does; the new array holds those bytes with two references, the creation's and the push's (bytearray.c:158); a RangeError for the bad ranges; an Error on allocation failure |
| ByteArrays.JsSliceOwned | src/bytearray.c:239-240 | `slice` with the release after the push that `js_new_ByteArray` makes: the same outcomes, and the new array has one reference |
| ByteArrays.ConcatGuardVacuous | src/bytearray.c:331 | for all inputs the concat as written never raises RangeError, and whenever the sizes sum past `INT_MAX` it raises a plain Error |
| ByteArrays.Concat | src/bytearray.c:321-337 | a RangeError iff the sizes sum past INT_MAX; otherwise the first bytes then the second's |
| ByteArrays.ConcatAgreesWithoutOverflow | src/bytearray.c:331-334 | without overflow the corrected and the as-written concat agree |
| ByteArrays.JsConcat | src/bytearray.c:321-337 | the new array holds `Concat` of the contents, with its errors, and two references: the creation's and the push's (bytearray.c:158) |
| ByteArrays.JsConcatOwned | src/bytearray.c:239-240 | `concat` with the release after the push: the same outcomes, and the new array has one reference |
| ByteArrays.Finalize | src/bytearray.c:245-252 | the finalizer drops one reference and releases the buffer at zero |
| ByteArrays.ConcatLeaksAfterFinalize | src/bytearray.c:335-336 | after `concat` and the finalizer, one reference is left and the buffer is never released |
| ByteArrays.OwnedConcatFreedByFinalize | src/bytearray.c:239-250 | with the release after the push, the finalizer releases the buffer |
| ByteArrays.JsCreateStringFromByteArray | src/bytearray.c:182-188 | the string of exactly the array's bytes |
| Input.Enqueue | src/input.c:564-582 | an append below 255 entries adds at the tail; a full queue is unchanged |
| Input.EnqueueAllKeepsPrefix | src/input.c:564-573 | a run of appends keeps the queue followed by the arrivals, truncated to 255 entries, in order |
| Input.EnqueueAllSnoc | src/input.c:311-339 | appending one more key after a run of appends is one more `Enqueue` |
| Input.BoundedQueue.constructor | src/input.c:63-67 | an empty queue of 255 slots |
| Input.BoundedQueue.Push | src/input.c:564-582 | the contents become `Enqueue(old contents, x)` |
| Input.BoundedQueue.Pop | src/input.c:651-653 | the front value is returned and the rest move down one slot in order |
| Input.BoundedQueue.Clear | src/input.c:253-257 | the queue becomes empty |
| Input.BoundedQueue.IsNonEmpty | src/input.c:587 | true iff the queue holds something |
| Input.ReplaceMatchingEntries | src/input.c:400-412 | entries with the key become the new binding; the others are unchanged |
| Input.RebindSpec | src/input.c:384-415 | keys stay unique; an existing key is replaced in place (length kept) and a new key is appended once, not pressed; other entries are unchanged |
| Input.Rebind | src/input.c:384-415 | the reference definition of binding: the entries with the key are replaced by the new, unpressed binding, or it is appended when there is none; its properties are `RebindSpec` and `UnbindKeepsEntry` |
| Input.UnbindKeepsEntry | src/input.c:886 | unbinding a bound key keeps its entry |
| Input.BindEntry | src/input.c:350-415 | the loop computes `Rebind` |
| Input.Fires | src/input.c:275-278 | the down script fires on a press and the up script on a release, with nothing otherwise |
| Input.Polled | src/input.c:279-300 | each entry's pressed flag becomes whether its key is held; nothing else changes |
| Input.FiredOnlyOnTransitions | src/input.c:283-290 | entries whose state did not change fire nothing |
| Input.PollIsEdgeTriggered | src/input.c:259-302 | polling twice with the same keys fires nothing the second time and is idempotent |
| Input.PolledKeepsKeys | src/input.c:259-302 | polling keeps keys unique |
| Input.PollBindings | src/input.c:282-290 | the loop computes `Polled` and the scripts `Fired` |
| Input.HostActionOf | src/input.c:314-337 | Alt/AltGr+Enter and F10 toggle fullscreen, F11 toggles the fps display, F12 takes a screenshot |
| Input.QueuedKey | src/input.c:313-337 | a key-char event is queued iff it triggers no host action, and its keycode is queued |
| Input.QueuedKeysFilter | src/input.c:313-337 | a key reaches the queue iff some event carries it without triggering a host action; F10, F11 and F12 never do |
| Input.WheelEvents | src/input.c:342-347 | UP iff the wheel rose, DOWN iff it fell, nothing iff unchanged |
| Input.IsNamedKey | src/input.c:665-717 | the keys `GetKeyString` names: letters, digits, space, tab and the punctuation keys |
| Input.KeyString | src/input.c:658-719 | at most one character, and empty iff the key has no name |
| Input.KeyStringRoundTrip | src/input.c:665-717 | every named key is recovered from its name for a fixed shift state |
| Input.LetterRoundTrip | src/input.c:665-717 | a letter key is recovered from its name |
| Input.DigitRoundTrip | src/input.c:665-717 | a digit key is recovered from its name |
| Input.KeyStringShift | src/input.c:665-717 | shift turns a letter into its capital; space and tab ignore shift |
| Input.PlayerKeyCode | src/input.c:790-810 | each player key maps to a valid keycode; an unlisted type pushes nothing, so the result is the last argument on the stack |
| Input.PlayerKeysDistinct | src/input.c:799-807 | the nine player keys map to nine different keys, whatever else is on the stack |
| Input.InputState.constructor | src/input.c:108-111 | empty queues and binding lists |
| Input.InputState.UpdateInput | src/input.c:304-348 | the queued keys are `EnqueueAll` of the filtered events, the host actions are recorded, the wheel queue receives `WheelEvents`, and z is stored |
| Input.InputState.HandleKeyChar | src/input.c:313-337 | one event is queued or becomes a host action |
| Input.InputState.UpdateBoundKeys | src/input.c:259-302 | each list is `Polled`; map keys only when map keys are in use; the runs are the `Fired` scripts in list order |
| Input.InputState.AreKeysLeft | src/input.c:584-589 | true iff a key is queued |
| Input.InputState.GetKey | src/input.c:643-656 | the oldest key, removed in FIFO order |
| Input.InputState.ClearKeyQueue | src/input.c:858-863 | the key queue becomes empty |
| Input.InputState.GetNumMouseWheelEvents | src/input.c:783-788 | the number of queued wheel events |
| Input.InputState.GetMouseWheelEvent | src/input.c:721-736 | the oldest wheel event, removed in FIFO order |
| Input.InputState.BindKey | src/input.c:845-856 | a RangeError outside [0, KEY_MAX) with nothing changed; otherwise the map-key list is `Rebind` |
| Input.InputState.UnbindKey | src/input.c:879-888 | as `BindKey` with NULL scripts |
| Input.InputState.BindJoystickButton | src/input.c:829-843 | a RangeError outside joystick [0, 4) or button [0, 32); otherwise the button list is `Rebind` |
| Input.InputState.UnbindJoystickButton | src/input.c:865-877 | as `BindJoystickButton` with NULL scripts |
| Galileo.ExplicitTypesSelectDistinctModes | src/galileo.c:312-317 | an explicit type draws the same way whatever the vertex count, and distinct types draw differently |
| Galileo.UnknownTypeDrawsPoints | src/galileo.c:313-317 | a type outside the table draws as a point list |
| Galileo.AutoModeByCount | src/galileo.c:307-311 | auto mode is point list iff 1 vertex, line list iff 2, fan iff 4, never a triangle list |
| Galileo.DrawMode | src/galileo.c:307-317 | the reference definition of the primitive choice of `draw_shape`; its properties are the three lemmas above |
| Galileo.FoldBoundsContains | src/galileo.c:235-240 | the folded rectangle contains the start rectangle and every vertex |
| Galileo.FoldBoundsAttained | src/galileo.c:235-240 | every bound is the starting bound or some vertex's coordinate |
| Galileo.BoundsOf | src/galileo.c:224-242 | the reference definition of `get_shape_bounds`: the zero rectangle without vertices, otherwise the fold from the first vertex; its property is `BoundsAreTight` |
| Galileo.BoundsAreTight | src/galileo.c:224-242 | a non-empty shape's bounds contain every vertex and each bound is attained by a vertex |
| Galileo.TextureLedger.Record | src/galileo.c:268-269 | the texture reference operations are appended in order |
| Galileo.Shape.constructor | src/galileo.c:188-201 | a new shape has one reference, no vertices and its texture |
| Galileo.Shape.Ref | src/galileo.c:204-209 | the refcount goes up by one |
| Galileo.Shape.AddVertex | src/galileo.c:274-289 | success iff there is room or the growth succeeds; the vertex is appended and earlier ones kept; a full buffer grows to (n + 1) * 2; on failure nothing changes |
| Galileo.Shape.RemoveVertex | src/galileo.c:292-299 | an index below the count: that vertex goes and the later ones shift down in order; an index at or past the count: the last vertex goes |
| Galileo.Shape.GetVertex | src/galileo.c:251-254 | the vertex at the index |
| Galileo.Shape.SetVertex | src/galileo.c:257-260 | the buffer slot holds the vertex; below the count exactly that vertex changes, and in spare capacity no vertex of the shape changes |
| Galileo.Shape.AssignDefaultUv | src/galileo.c:337-344 | every vertex takes the u and v of the default mapping and keeps its position and colour |
| Galileo.Shape.GetBounds | src/galileo.c:224-242 | the loop computes `BoundsOf` of the vertices |
| Galileo.Shape.Mode | src/galileo.c:307-317 | the shape is drawn in `DrawMode` of its type and vertex count |
| Galileo.Shape.SetTexture | src/galileo.c:263-271 | the new texture is referenced before the old one is released |
| Galileo.NewShape | src/galileo.c:188-201 | on success a shape with one reference that took a reference on its texture; on failure no references |
| Galileo.FreeShape | src/galileo.c:212-221 | one reference is dropped; at zero the shape dies and its texture is released |
| Galileo.CountSnoc | src/galileo.c:158-160 | appending an entry adds one to that shape's count |
| Galileo.ListReleasesOnlyUnshared | src/galileo.c:158-160 | only textures of shapes whose references were all held by the list are released; none if every shape has more references than entries |
| Galileo.ReleaseShapes | src/galileo.c:158-160 | each shape loses one reference per entry, dies iff at zero, and the releases are `ListReleases` |
| Galileo.ReleaseStep | src/galileo.c:159-160 | one `free_shape` extends the released prefix by one entry |
| Galileo.CountPrefixSnoc | src/galileo.c:158-160 | the count of a prefix grows by one only for the entry added |
| Galileo.ListReleasesSnoc | src/galileo.c:158-160 | the releases of a prefix grow by that entry's release, if its count reached zero there |
| Galileo.Group.constructor | src/galileo.c:78-90 | a new group has one reference and no shapes |
| Galileo.Group.Ref | src/galileo.c:93-98 | the refcount goes up by one |
| Galileo.Group.GetShape | src/galileo.c:118-124 | the entry at the index |
| Galileo.Group.AddShape | src/galileo.c:138-143 | the shape is appended and gains one reference; the call always succeeds |
| Galileo.Group.SetShape | src/galileo.c:127-135 | the entry is replaced; the new shape gains a reference before the old loses one, so setting the same shape keeps it alive |
| Galileo.Group.RemoveShape | src/galileo.c:146-149 | the entry is removed and no reference is released |
| Galileo.Group.Clear | src/galileo.c:152-162 | every entry's reference is released and the list becomes empty |
| Galileo.NewGroup | src/galileo.c:78-90 | a group with one reference and no shapes, or null on allocation failure |
| Galileo.FreeGroup | src/galileo.c:101-115 | one reference is dropped; at zero every entry's reference is released |
| Galileo.VertexOf | src/galileo.c:641-653 | missing x and y are 0 and a missing colour is opaque white |
| Galileo.ShapeVertices | src/galileo.c:639-659 | the reference definition of the vertices `new Shape` builds |
| Galileo.ShapeVerticesKeepGiven | src/galileo.c:639-659 | positions and colours are always the given ones (or defaults); u and v are the given ones iff every vertex has both, and otherwise all come from the default mapping |
| Galileo.Capacity | src/galileo.c:279-285 | the buffer length of a new shape after n appends, doubling past the count when full |
| Galileo.CapacityBounds | src/galileo.c:279-285 | the buffer holds at least n and at most 2n vertices after n appends |
| Galileo.AppendsSucceed | src/galileo.c:279-282 | every append either fits or its allocation succeeds |
| Galileo.JsNewShape | src/galileo.c:617-663 | a RangeError for a type outside [0, SHAPE_MAX); an Error if the shape allocation fails; with a valid type and a shape, success iff every vertex append fits or its growth succeeds, an Error otherwise, and the texture reference is kept either way; on success a shape of that type whose vertices are `ShapeVertices`: the given ones, with every u and v from the default mapping when any vertex lacks one |
| Galileo.JsNewGroup | src/galileo.c:417-441 | on success a group holding the shapes in order, each with one more reference per entry; on failure nothing changes |
| Images.PackColor | src/image.c:428-429 | an `ABGR_8888` pixel is a 32-bit word |
| Images.PackedBytes | src/image.c:428-429 | red is byte 0, green byte 1, blue byte 2 and alpha byte 3 of the word |
| Images.UnpackPixelRoundTrip | src/image.c:428-429 | unpacking by the cache's format inverts packing |
| Images.CachedReadSwapsRedBlue | src/image.c:228-233 | the cached read as written returns the pixel with red and blue exchanged |
| Images.OpaqueRedReadsAsBlue | src/image.c:228-233 | an opaque red pixel reads back from the cache as opaque blue |
| Images.Row | src/image.c:431-435 | one cached row is the packed words of that row of pixels |
| Images.PackedRowsIndex | src/image.c:431-435 | pixel (x, y) is word `x + y * width` of the cache |
| Images.PackedRowsLength | src/image.c:429-435 | the cache has `width * height` words |
| Images.ComposeLookup | src/image.c:270-273 | the composition of two tables is a table |
| Images.LookupComposes | src/image.c:268-274 | applying two lookups in turn is applying their composition |
| Images.IdentityLookupKeepsColor | src/image.c:270-273 | the identity tables keep every colour |
| Images.ReplaceIsIdempotent | src/image.c:382-391 | replacing a colour twice is replacing it once |
| Images.ReplaceKeepsOthers | src/image.c:382-391 | a pixel is either replaced or kept as it was |
| Images.DrawFlagsAsWrittenAreZero | src/image.c:346-357 | the flags as written are 0 whatever flips are asked for |
| Images.DrawFlagsSelectFlips | src/image.c:356-357 | with `\|=` each requested flip sets its own flag and nothing else |
| Images.FlipIsInvolution | src/image.c:358 | flipping twice with the intended flags restores every pixel position |
| Images.Image.Create | src/image.c:46-61 | a new image with one reference, the given size, no parent and no cache |
| Images.Image.Sub | src/image.c:64-79 | a subimage whose parent chain is the parent and its ancestors |
| Images.Image.Ref | src/image.c:186-191 | the refcount goes up by one |
| Images.Image.Uncache | src/image.c:451-455 | the cache is dropped |
| Images.Image.CachePixels | src/image.c:419-448 | the cache exists afterwards iff it existed or the lock succeeded, and holds the packed rows |
| Images.Image.GetBitmap | src/image.c:204-208 | handing out the bitmap drops the cache |
| Images.Image.GetPixel | src/image.c:217-236 | the cached read returns the red/blue-swapped pixel; otherwise the pixel itself |
| Images.Image.SetPixel | src/image.c:245-254 | exactly that pixel changes, and a position outside the image (clipped by Allegro) changes none; the cache is dropped |
| Images.Image.ApplyLookup | src/image.c:257-277 | an empty rectangle (width or height of zero or less) is a success that changes no pixel; inside the rectangle every channel goes through its table and outside nothing changes; on a failed lock nothing changes; the cache is dropped |
| Images.Image.LookupColumn | src/image.c:268-274 | the inner loop maps one column of the rectangle |
| Images.Image.ReplaceColor | src/image.c:366-395 | pixels equal to the colour in all four channels become the new colour and the others are unchanged; the cache is dropped |
| Images.Image.ReplaceInColumn | src/image.c:380-392 | the inner loop replaces within one column |
| Images.Image.Fill | src/image.c:328-341 | every pixel becomes the colour and the cache is dropped, under the whole-image clip named under "## Left out" |
| Images.Image.Flip | src/image.c:344-363 | neither flag: success with nothing changed; otherwise the cache is dropped, success iff the new bitmap is allocated, and then every opaque pixel is where it was (nothing flips, with the flags as written) |
| Images.Image.Rescale | src/image.c:398-416 | the current size is a no-op that succeeds; otherwise success iff allocation succeeds, and then the new size with the cache dropped |
| Images.AncestorsAreAbove | src/image.c:199 | every ancestor is strictly higher in the chain, so releasing up the chain terminates |
| Images.CreateImage | src/image.c:46-61 | an image with one reference, or null on allocation failure |
| Images.CreateSubimage | src/image.c:64-79 | on success the parent gains exactly one reference |
| Images.FreeImage | src/image.c:194-201 | one reference is dropped; at zero the image dies and its parent is released exactly once; otherwise no ancestor changes |

## Left out

- File and device I/O is not modelled. The map file is given as the header bytes it yielded and the results of its string reads. Keyboard, mouse and joystick state are parameters. Opening and closing the file, and the file left open after a successful load, are not modelled.
- The script engine is not modelled: stack handling, the global stash object, compilation, `duk_require_*` argument coercion, proxies and API registration. Scripts are opaque tokens, and a script call is a trace event or an entry in `scriptRuns`. What a script does when it runs is not modelled, except for whether it calls `ExitMapEngine`. In particular, a polled script that changes the binding lists while they are being scanned is not covered.
- Person movement, `find_person` and `get_person_xy` are not modelled. The person registry is a map from names to persons, and the camera person's position is an input. Map dimensions are never set by the loader and stay 0 in the model. The source passes them in a call whose argument shape does not match its declaration in `minisphere/persons.h`, and that call is not modelled.
- Rendering is not modelled: text drawing, `render_persons`, `draw_shape`'s vertex-buffer draw, `draw_group` transforms, the blits, `refresh_shape_vbuf`, toggling fullscreen or the fps display, and screenshots. Host actions are recorded as values instead.
- Floating-point code is left out: the trigonometry of `assign_default_uv`, group position and angle, joystick axes, mouse scaling. Vertex coordinates are `real`. `Galileo.JsNewShape` takes the default texture mapping as an input (`uvs`) and applies it to every vertex when one lacks u or v.
- `Galileo.JsNewShape`: when a vertex lacks u or v, the source leaves the previous vertex's value (or an uninitialised one) in the vertex it appends. The mapping then overwrites every u and v, so the model stores 0 there instead.
- The initial contents of a new bitmap (`create_image`, `rescale_image`) are left unspecified, because Allegro does not define them. The scaled contents after `rescale_image` are also unspecified.
- `Images.Image.Flip`: the old bitmap is drawn onto a new one whose contents are undefined, and the draw blends. The contract therefore promises only that opaque pixels come through unchanged, as they do under Allegro's default blender. What a translucent pixel becomes is left unspecified, although the model copies it. Because the draw flags are 0 as written, nothing is flipped. The intended flags are proved about separately under "## Findings".
- `Images.Image.Sub`: a subimage has a pixel grid of its own. Allegro sub-bitmaps share their parent's pixels, and that sharing is not modelled.
- `Images.Image.Create` and `Images.Image.Rescale` require non-negative sizes. The source hands negative sizes to Allegro, whose behaviour with them is not part of this model.
- Shape textures are opaque handles. Their reference operations are recorded in a `TextureLedger` and are not tied to the `Images` refcounts.
- The pixel cache is not freed when an image is destroyed, and `clone_image`, `load_image`, `read_image`, `read_subimage` and `create_surface` are not modelled. They are allocation and file-format code around the same records.
- `HashByteArray`, `GetToggleState` and the ShaderProgram functions are left out. They are stubs that only raise an error or return a constant.
- `minisphere/input.h`, `src/galileo.h` and Allegro's headers are not part of this model:
  - the player-key constants are a datatype;
  - the `SHAPE_*` constants are taken as 0..5 in the order they are registered, with `SHAPE_MAX` = 6;
  - the keycodes are Allegro 5's numbering.
- Reference counts are unbounded integers. A 32-bit refcount overflow is not modelled.
- `Input.InputState.GetKey`, `Input.InputState.GetMouseWheelEvent`: the source waits in an event loop until something is queued. The model instead requires a non-empty queue.
- `Galileo.Shape.GetVertex`, `Images.Image.GetPixel`: the source does not check the index or the position. A vertex index past the buffer, or a pixel outside the image, is read past the buffer or the cache, which is undefined behaviour. A vertex index in the buffer's spare capacity reads a slot that was never written. The model requires the index or position to be in range.
- `Galileo.Shape.RemoveVertex`: a negative index shifts vertices through `vertices[-1]`, and removing from an empty shape makes the count negative. Both are undefined behaviour in the source, so the model requires an index of 0 or more and at least one vertex. An index at or past the count is modelled: the last vertex goes.
- `Galileo.Shape.SetVertex`: an index outside the buffer writes out of bounds, which is undefined behaviour. The model requires the index to lie within the buffer, including its spare capacity.
- `Galileo.Group.GetShape`, `Galileo.Group.SetShape`, `Galileo.Group.RemoveShape`: the index goes to `get_vector_item`, `set_vector_item` and `remove_vector_item`. `src/vector.c` is not part of this model, so what those do with an index out of range is unknown. The model requires the index to be in range.
- `Images.Image.ApplyLookup`: a non-empty rectangle reaching outside the image writes outside the locked region in the source, which is undefined behaviour. The model requires a non-empty rectangle to lie inside the image. An empty one is accepted anywhere.
- `Images.Image.SetPixel`, `Images.Image.Fill`: Allegro's clipping rectangle is taken to be the whole image, so exactly the positions inside the image are written. `fill_image` resets the clip before it makes the image the target, so the reset applies to the previous target, and the image's own clip bounds the clear.
- `MapEngine.LoadResult`, `MapEngine.LoadMap`, `MapEngine.LoadRejectsBadHeader`: `load_map` jumps to its cleanup before `file` (map_engine.c:75) or `scripts` (map_engine.c:78) is assigned when the map record's allocation fails (map_engine.c:81), the file does not open, the header is short, the signature is wrong or the version is not 1. The cleanup then reads those uninitialised pointers (map_engine.c:103-106), which is undefined behaviour. The model takes the defined branch, in which no map is returned and nothing else happens. It has no input for the map record's allocation, since the source does nothing defined when that fails. The string table's allocation (map_engine.c:89-90) fails with the file open and `scripts` NULL, which is well defined, and it is the `allocOk` input of these members and of `MapEngine.Engine.ChangeMap`.
- `MapEngine.Engine.Update`, `MapEngine.Engine.Render`: a failed `change_map` sets `s_map_filename` to NULL (map_engine.c:150), yet the loop still runs. On the next frame `render_map_engine` passes that NULL to `al_draw_text` (map_engine.c:177), which takes its length, so the engine crashes after any failed load, with or without a camera person. When the failed load is the first, no map is loaded either, and with a camera person attached `update_map_engine` also reads `s_map->width` through a NULL map (map_engine.c:216). The model takes the defined branches: it records the map-name draw as `DrewMapName(None)` and lets the camera follow its person with no map.
- `ByteArrays.JsConcat`, `ByteArrays.JsConcatOwned`: when the sizes sum past `INT_MAX`, the model raises the corrected RangeError where the code as written raises a plain Error (`ByteArrays.ConcatGuardVacuous`).

## Findings

| source | as written | input that shows it | evidently intended | confidence | as-written member | corrected member |
|---|---|---|---|---|---|---|
| src/image.c:228-233 | the cached read takes red from bits 16-23 and blue from bits 0-7 of an `ABGR_8888` word, whose red is in bits 0-7 and blue in bits 16-23 | an opaque red pixel, read with the cache in place, comes back opaque blue | red from bits 0-7 and blue from bits 16-23, so a read returns the stored colour | not executed | Images.UnpackPixelAsWritten, Images.OpaqueRedReadsAsBlue, Images.CachedReadSwapsRedBlue | Images.UnpackPixel, Images.UnpackPixelRoundTrip |
| src/image.c:346-357 | the flip flags are built with `&=` on 0 | `flip_image(img, true, false)` draws with flags 0 and leaves the image unflipped | `\|=`, setting the flag of each flip asked for | not executed | Images.DrawFlagsAsWritten, Images.DrawFlagsAsWrittenAreZero | Images.DrawFlags, Images.DrawFlagsSelectFlips, Images.FlipIsInvolution |
| src/bytearray.c:353-356 | `slice` checks only the normalised end, so a negative start reaches `memcpy` | `slice(-2)` on a 4-byte array reads two bytes before the buffer | a RangeError unless 0 <= start <= end | not executed | ByteArrays.SliceAcceptsAsWritten, ByteArrays.SliceNegativeStartAccepted | ByteArrays.Slice, ByteArrays.SliceRefinesAsWritten, ByteArrays.SliceAsWrittenAgreesOnNonNegativeStart |
| src/bytearray.c:331 | the `INT_MAX` test adds two C `int` sizes, which wraps instead of exceeding `INT_MAX` | two arrays of 2^30 bytes each give an allocation Error, not the RangeError | the sum computed without overflow, giving a RangeError past `INT_MAX` | not executed | ByteArrays.ConcatAsWritten, ByteArrays.ConcatGuardVacuous | ByteArrays.Concat, ByteArrays.ConcatAgreesWithoutOverflow |
| src/bytearray.c:335-336 | `concat` and `slice` push the new array, which takes a reference (bytearray.c:158), and never drop the one they got on creation, unlike `js_new_ByteArray` (239-240) | `a.concat(b)`: once the result object is finalized (250), its buffer is left with one reference and is never freed | release the creation's reference after the push, so the finalizer frees the buffer | not executed | ByteArrays.JsConcat, ByteArrays.JsSlice, ByteArrays.ConcatLeaksAfterFinalize | ByteArrays.JsConcatOwned, ByteArrays.JsSliceOwned, ByteArrays.OwnedConcatFreedByFinalize |
| minisphere/map_engine.c:164 | `change_map` runs `scripts[3]` of every loaded map | a version-1 map with `num_strings` = 1 whose one string reads loads, and then has its string table indexed at 3, past its end | the map's enter script runs only when the map has one | not executed | MapEngine.EnterScriptIndexAsWrittenSafe, MapEngine.ShortStringTableLoads | MapEngine.EnterEvents |

The slice bounds and the map-engine entry use the corrected definitions, since the code as written reads memory outside the buffers. The concat bounds use the corrected definition too, although the code as written reads nothing out of bounds: its sum of two sizes overflows a signed C `int`, which is undefined behaviour in C. The reference leak of `concat` and `slice` is well defined, so `ByteArrays.JsConcat` and `ByteArrays.JsSlice` keep the code's reference counts, and the `Owned` variants beside them carry the intended ones. The two image defects are well defined as written: the wrong channel order and a flip that does nothing. So `Images.Image.GetPixel` and `Images.Image.Flip` keep the behaviour of the code, and the corrected definitions beside them carry the intended properties.
