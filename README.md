# usb-dmx in Dafny

This project models the core of usb-dmx, a small Python program that drives stage lamps over a DMX512 serial universe. An operator picks a *chase*: a repeating sequence of per-lamp colour *scenes*. The program keeps sending the resulting 512-channel frame over a serial line with DMX512 framing: a break, a mark-after-break byte, the NULL START code, then the data slots.

The model has six modules, one file each:

- `results.dfy` (`Results`): the `Byte` type, the `Result` type and one error variant per exception the Python code raises. The variants are `ValueError` for a bad tempo, a bad colour or an overflowing write; `IndexError` for an empty colour name; and `StopIteration` for a chase with no scenes.
- `arith.dfy` (`Arith`): small multiplication and modulo facts. The cursor proofs rely on them.
- `dataclasses.dfy` (`DataClasses`): the validated value types.
  - `BPM`: a tempo in [30, 2400].
  - `RGB`: three bytes decoded from six hex digits, and `hex()` back.
  - `Scene`: 512 bytes with colours written at channel offsets. `NewScene` fills a zeroed byte array in place. It is proved equal to the fold `SceneOf`, and `SceneOf` is described declaratively: the last write covering a byte wins, and an uncovered byte stays 0.
  - `Chase`: a class whose cursor wraps around, so `next()` cycles through the scenes forever.
- `chase_generator.dfy` (`ChaseGenerator`): the colour-alias table, `color_from_alias`, `make_chase` (lamp channels zipped with the colour names of each scene) and the presets `gen_random`, `gen_iso`, `gen_blackout`, `gen_mayday` and `gen_colorwheel`. A chase is represented by the list of scenes it cycles through.
- `usb_dmx.dfy` (`Transmitter`): the `DMXConnection` transmit thread.
  - The serial device is a class that records every operation performed on it: break, write, flush.
  - The inbound queue is the sequence of outcomes of its timed `get()`: a frame, or `queue.Empty`.
  - `Run` is the loop. It is proved to emit exactly `Transmissions(zeros, outcomes)`, one packet per iteration. The lemmas then derive the packet layout, the keep-alive property and the "latest frame wins" property.
- `compudmx.dfy` (`CompuDmx`): the script-style controller, `usb_dmx/compudmx.py`.
  - The global channel list `data` is an `array<int>`.
  - A `chase(scenes)` generator is the class `ChaseGen`. Its cursor `i` follows the generator's own loop, including the reset to 0 that does not yield.
  - Also modelled: `randlights`, the colour and chase tables, the chase-selection part of `repl`, and one clock tick (`doclock`: advance the active chase, then `bytes(data)`).
  - The top-level `compudmx.py` is an older copy of the same script. Its `chase` (lines 31-45), `randlights` (47-55), `repl` (57-77), `colors` (79-94) and `chases` (96-112) match `usb_dmx/compudmx.py` lines 36-54, 56-64, 66-87, 89-104 and 106-124 line for line, apart from comments. The model of the latter covers both.

Behaviours of the code worth noting:

- **Reselecting a chase keeps its position.** In `compudmx.py`, the fixed chases "mayday", "colorwheel" and "blackout" are generator objects created once. Selecting one again continues from where it stopped; only "random" starts a fresh generator. `Console.Select` states this: the cursors of the fixed chases are unchanged.
- **A `Chase` may have no scenes.** It is built without complaint, and the first `next()` raises `StopIteration` (`Chase.Next` returns `Err(ChaseExhausted)`).
- **The error for a colour name depends on the name.** An empty name that is not an alias indexes `value[0]` and raises `IndexError`, not `ValueError`.
- **Channel offsets are only checked at the top.** `Scene` checks only that a colour's last byte falls at or below channel 511. There is no separate [0, 509] range check on the offset.
- **The transmitter's queue wait is 80 µs, not a long poll.** The wait time itself is not modelled; only the outcome of each wait is.

## Model

| member | source | states |
|---|---|---|
| DataClasses.NewBPM | usb_dmx/dataclasses.py:5-21 | succeeds exactly when 30 <= value <= 2400, returning the value unchanged; otherwise fails with the tempo range error |
| DataClasses.NewRGB | usb_dmx/dataclasses.py:27-33 | succeeds exactly for six hex digits; a length other than 6 is the length error; success yields 3 bytes, byte i spelled by digits 2i and 2i+1, high nibble first |
| DataClasses.ToHex | usb_dmx/dataclasses.py:35-36 | hex() of n bytes is 2n hex digits |
| DataClasses.PairRoundTrip | usb_dmx/dataclasses.py:27-36 | a byte decoded from two hex digits prints back as those digits in lower case |
| DataClasses.RGBHexRoundTrip | usb_dmx/dataclasses.py:27-36 | hex() of RGB(s) is s in lower case, for every six-hex-digit s |
| DataClasses.RGBFromOwnHex | usb_dmx/dataclasses.py:27-36 | RGB(c.hex()) == c for every three-byte colour |
| DataClasses.Zeros | usb_dmx/dataclasses.py:43 | the initial frame holds n bytes, all 0 |
| DataClasses.Overwrite | usb_dmx/dataclasses.py:45-47 | the slice assignment replaces exactly the bytes channel .. channel+len-1 with the colour; every other byte is unchanged |
| DataClasses.WriteAll | usb_dmx/dataclasses.py:44-51 | the write loop over a frame returns a 512-byte frame when it succeeds; WriteAllSpec states its full effect |
| DataClasses.SceneOf | usb_dmx/dataclasses.py:39-51 | Scene(*writes) returns a 512-byte frame when it succeeds; SceneOfSpec states its contents and its error |
| DataClasses.WriteAllSpec | usb_dmx/dataclasses.py:42-51 | the write loop fails exactly when some write does not fit; on success the frame keeps 512 bytes, an uncovered byte keeps its old value, and a byte holds the value from the last write covering it |
| DataClasses.WriteAllError | usb_dmx/dataclasses.py:48-51 | the only failure of the write loop is the overflow error |
| DataClasses.SceneOfSpec | usb_dmx/dataclasses.py:39-51 | Scene(*writes) fails, with the overflow error, exactly when a write overflows; otherwise it is 512 bytes, 0 where no write reaches and the last covering write's byte elsewhere |
| DataClasses.SceneEdge | usb_dmx/dataclasses.py:45-51 | a three-byte colour fits at channel 509 and overflows at channel 510 |
| DataClasses.NewScene | usb_dmx/dataclasses.py:42-51 | filling a zeroed 512-byte array in place, write by write, returns exactly the frame (or error) SceneOf specifies |
| DataClasses.CycleTake | usb_dmx/dataclasses.py:54-62 | k calls of next() return k scenes |
| DataClasses.Repeat | usb_dmx/dataclasses.py:54-62 | a list written out `times` times has times * length elements |
| DataClasses.CycleRepeats | usb_dmx/dataclasses.py:54-62 | N * len(scenes) calls of next() return the scenes in order, repeated exactly N times |
| DataClasses.CycleTakeExtend | usb_dmx/dataclasses.py:54-62 | after q full rounds, the next j calls return the first j scenes |
| DataClasses.Chase.constructor | usb_dmx/dataclasses.py:55-56 | a new chase starts at position 0 of its scenes and refuses no scene list |
| DataClasses.Chase.Next | usb_dmx/dataclasses.py:61-62 | next() returns the scene at position taken mod len(scenes), i.e. element `taken` of the endless cycle, and advances by one; on an empty chase it fails with StopIteration |
| ChaseGenerator.AliasTableWellFormed | usb_dmx/chase_generator.py:10-25 | the table has exactly the 14 listed names, and each value is six lower-case hex digits |
| ChaseGenerator.LowerHexIsHex | usb_dmx/chase_generator.py:10-25 | six lower-case hex digits are accepted by RGB and are their own lower-case form |
| ChaseGenerator.AliasScenesResolve | usb_dmx/chase_generator.py:27-36 | every name of a scene list drawn from the alias table resolves to a colour |
| ChaseGenerator.ColorFromAlias | usb_dmx/chase_generator.py:27-36 | a resolved colour is three bytes |
| ChaseGenerator.AliasResolves | usb_dmx/chase_generator.py:29-30 | an alias resolves, and the colour's hex() is exactly its table entry |
| ChaseGenerator.HashLiteralResolves | usb_dmx/chase_generator.py:31-36 | '#' followed by the hex of any colour resolves to that colour |
| ChaseGenerator.UnknownNameRefused | usb_dmx/chase_generator.py:31-35 | a name that is neither an alias nor starts with '#' is refused as unknown; the empty name fails with the IndexError |
| ChaseGenerator.ResolveWrites | usb_dmx/chase_generator.py:44-46 | the zip of channels and resolved colours has min(len(channels), len(scene)) writes; ResolveWritesSpec states which |
| ChaseGenerator.MakeScene | usb_dmx/chase_generator.py:44-46 | one scene of make_chase is a 512-byte frame when it builds; MakeSceneLamps states what each lamp shows |
| ChaseGenerator.MakeChase | usb_dmx/chase_generator.py:40-48 | make_chase yields one 512-byte frame per configured scene; MakeChaseSpec and MakeChaseLamps state their order and contents |
| ChaseGenerator.ResolveWritesSpec | usb_dmx/chase_generator.py:44-46 | zip(channels, scene) resolves exactly when its first min(len) names resolve, giving (channels[i], colour of name i) for each i |
| ChaseGenerator.MakeChaseSpec | usb_dmx/chase_generator.py:40-48 | make_chase succeeds exactly when every scene builds, and then yields those scenes in order |
| ChaseGenerator.FirstTwo | usb_dmx/chase_generator.py:88 | channels[0:2] is the first min(len, 2) channels |
| ChaseGenerator.DefaultChannelsSound | usb_dmx/chase_generator.py:52-53 | the default lamp channels [0, 8] fit the frame and do not overlap |
| ChaseGenerator.ApartWritesShow | usb_dmx/dataclasses.py:42-51 | three-byte writes that fit and do not overlap each show verbatim in the scene, on a zero background |
| ChaseGenerator.MakeSceneLamps | usb_dmx/chase_generator.py:44-46 | with fitting, non-overlapping lamps, each lamp's three bytes are its resolved colour, and every other byte is 0 |
| ChaseGenerator.MakeChaseLamps | usb_dmx/chase_generator.py:40-48 | the same for every scene of a chase: one 512-byte frame per scene, each lamp in its colour |
| ChaseGenerator.Fill | usb_dmx/chase_generator.py:76-77 | [color] * n is n copies of the name |
| ChaseGenerator.GenRandom | usb_dmx/chase_generator.py:57-65 | gen_random(scenes) has `scenes` scenes; GenRandomSpec states their lamps |
| ChaseGenerator.GenRandomSpec | usb_dmx/chase_generator.py:57-65 | a random chase has the requested number of scenes; lamp j of scene i shows the alias drawn for it, whose hex() is the table entry |
| ChaseGenerator.GenIso | usb_dmx/chase_generator.py:67-78 | gen_iso has two scenes; GenIsoSpec and GenIsoDefaultIsDark state their lamps |
| ChaseGenerator.GenIsoSpec | usb_dmx/chase_generator.py:67-78 | two scenes: all lamps in color1, then all lamps in color2 |
| ChaseGenerator.BlackLiteral | usb_dmx/chase_generator.py:69 | '#000000' resolves to the colour [0, 0, 0] |
| ChaseGenerator.DarkSceneIsZeros | usb_dmx/chase_generator.py:44-46 | a scene with every lamp black is 512 zero bytes |
| ChaseGenerator.GenIsoDefaultIsDark | usb_dmx/chase_generator.py:67-78 | with the default second colour, the second scene is all zeros |
| ChaseGenerator.GenBlackout | usb_dmx/chase_generator.py:80-82 | gen_blackout has one scene; GenBlackoutSpec shows it is all zeros |
| ChaseGenerator.GenBlackoutSpec | usb_dmx/chase_generator.py:80-82 | blackout is exactly one scene of 512 zero bytes |
| ChaseGenerator.GenMayday | usb_dmx/chase_generator.py:84-90 | gen_mayday has two scenes; GenMaydaySpec states their colours |
| ChaseGenerator.GenMaydaySpec | usb_dmx/chase_generator.py:84-90 | two scenes; lamp 1 is blue and lamp 2 yellow, then the two swap |
| ChaseGenerator.GenColorwheel | usb_dmx/chase_generator.py:92-103 | gen_colorwheel has twelve scenes; GenColorwheelSpec states how they rotate |
| ChaseGenerator.ColorwheelNamesRotate | usb_dmx/chase_generator.py:97-102 | twelve two-lamp scenes of aliases; the second name of scene k is the first name of scene (k+1) mod 12 |
| ChaseGenerator.RotatingChase | usb_dmx/chase_generator.py:40-48 | for two lamps over scenes linked that way, lamp 2 of scene k shows what lamp 1 shows in the next scene |
| ChaseGenerator.ColorwheelMeetsRotation | usb_dmx/chase_generator.py:92-103 | the colour-wheel table has twelve two-lamp scenes, all names resolve and the scenes link in a cycle |
| ChaseGenerator.GenColorwheelSpec | usb_dmx/chase_generator.py:92-103 | twelve scenes; lamp 2 of scene k shows lamp 1 of scene (k+1) mod 12 |
| Transmitter.Packet | usb_dmx/usb_dmx.py:45-48 | one DMX packet is four operations: a break of at least 68 µs, the bytes 0x01 0x00, the frame verbatim, a flush |
| Transmitter.HeldIsLatestFrame | usb_dmx/usb_dmx.py:35-40 | the held frame is the most recently received one, or 512 zeros while nothing has arrived; a timeout never changes it |
| Transmitter.TransmissionLayout | usb_dmx/usb_dmx.py:36-48 | each iteration emits exactly four operations: break of 68 µs, write 0x01 0x00, write the held frame verbatim, flush |
| Transmitter.KeepAlive | usb_dmx/usb_dmx.py:37-47 | after a timeout, the iteration writes the same frame as the previous one |
| Transmitter.FrameSentAtOnce | usb_dmx/usb_dmx.py:38-47 | a frame that arrives is written in the same iteration |
| Transmitter.SerialPort.constructor | usb_dmx/usb_dmx.py:21-25 | the port is opened with the given settings and nothing yet done on it |
| Transmitter.SerialPort.SendBreak | usb_dmx/usb_dmx.py:45 | send_break appends one break of the given length to the operations |
| Transmitter.SerialPort.Write | usb_dmx/usb_dmx.py:46-47 | write appends the bytes to the operations |
| Transmitter.SerialPort.Flush | usb_dmx/usb_dmx.py:48 | flush appends a flush to the operations |
| Transmitter.DMXConnection.constructor | usb_dmx/usb_dmx.py:20-27 | the port is opened at 250000 baud, 8 data bits, no parity, 2 stop bits; not terminated |
| Transmitter.DMXConnection.Exit | usb_dmx/usb_dmx.py:31-32 | exit() raises the termination flag |
| Transmitter.DMXConnection.Run | usb_dmx/usb_dmx.py:34-48 | run() appends exactly Transmissions(zeros, outcomes) to the port, one packet per iteration, and ends terminated; a flag raised beforehand sends nothing |
| CompuDmx.ColorsAreTriples | usb_dmx/compudmx.py:89-104 | every colour-table entry is three values in 0..255 |
| CompuDmx.Lamps | usb_dmx/compudmx.py:46 | zip(channels, scene) has at most min(2, len(scene)) pairs |
| CompuDmx.Paint | usb_dmx/compudmx.py:46-50 | painting keeps the channel list at 512 entries |
| CompuDmx.ApplyScene | usb_dmx/compudmx.py:46-50 | painting one scene keeps 512 channels; PaintEffect states which channels change and to what |
| CompuDmx.PaintEffect | usb_dmx/compudmx.py:46-50 | after a scene's lamps are painted, each lamp's three channels hold its colour and every other channel holds what it held before |
| CompuDmx.ApplySceneIdempotent | usb_dmx/compudmx.py:36-54 | painting a scene twice equals painting it once, so a one-scene chase like blackout changes nothing after its first step |
| CompuDmx.PaintKeepsBytes | usb_dmx/compudmx.py:28 | painting from the colour table keeps every channel a byte, so bytes(data) cannot fail |
| CompuDmx.PaintScene | usb_dmx/compudmx.py:46-50 | the for loop over zip(channels, scene) leaves `data` equal to ApplyScene of its old contents |
| CompuDmx.ChaseGen.constructor | usb_dmx/compudmx.py:36-41 | a new generator has cursor 0 and has yielded nothing |
| CompuDmx.ChaseGen.CursorIsPosition | usb_dmx/compudmx.py:41-54 | the cursor, wrapped to 0 past the end, is the number of yields mod len(scenes) |
| CompuDmx.ChaseGen.Step | usb_dmx/compudmx.py:33-54 | next(gen) paints scene (yields so far) mod len(scenes) into `data` in place and yields once more |
| CompuDmx.RandLights | usb_dmx/compudmx.py:56-64 | nscenes lists of nlamps names, each a key of `colors`, holding the draws in the order they are made |
| CompuDmx.Console.constructor | usb_dmx/compudmx.py:106-126 | data is 512 zeros; mayday, colorwheel and blackout are each built once, fresh, with cursor 0 and no steps taken; blackout is active |
| CompuDmx.Console.Select | usb_dmx/compudmx.py:66-87 | "mayday"/"colorwheel"/"blackout" reselect the existing generator with its cursor where it was; "random" installs a fresh generator over the drawn scenes (8 scenes of 2 lamps); any other input keeps the active chase; the loop ends on "exit" |
| CompuDmx.Console.Tick | usb_dmx/compudmx.py:24-34 | one clock tick advances the active chase by one step and hands the sender exactly the 512 painted channel values as bytes |

## Left out

- Threads, sleeping, timing and the clock loop (`clock`, `freq`, `time.sleep`) are not modelled. One clock tick is modelled as `Console.Tick`, and a transmitter run as a given sequence of queue outcomes.
- `setbpm` and the integer parsing in `repl` are not modelled. They compute a floating-point period, and an input of 0 would raise an uncaught ZeroDivisionError. The tempo model is the validated `BPM` type.
- The console's `print` and `input` are left out as I/O. `Console.Select` models one round of the loop's chase selection for a given input line.
- The sending device `dmx.DMX_Serial` (`start`, `set_data`, `stop`) is I/O. `Console.Tick` returns the bytes it would be handed.
- `random.choice` and `random.choices` are randomness. The draws are passed in as parameters (`RandLights`, `Console.Select`, `GenRandom`).
- `DummyQueue` (usb_dmx/dataclasses.py:65-81) does nothing and is not modelled.
- `BPM.__repr__` and the `RGB(#...)` wrapper of `RGB.__repr__` are not modelled. `ToHex` models the hex digits.
- DataClasses.NewRGB: refuses every six-character string with a non-hex character. `bytes.fromhex` also skips whitespace between digit pairs, so a string like " ff00 " yields a two-byte colour there. That case is not modelled.
- DataClasses.SceneOf: channels are natural numbers throughout, so the model promises a 512-byte frame only for non-negative channels. That is also the only case in which the source keeps 512 bytes. For a negative channel, usb_dmx/dataclasses.py:45-47 slices with Python's negative indices. With a three-byte colour, channels -512 to -4 overwrite bytes 512+channel to 514+channel. Channels -3, -2 and -1 give an empty slice: for channel -3 it is `[509:0]`. The assignment then inserts the three bytes, and the Scene grows to 515 bytes. From channel -513 down, the slice start is clamped to 0, the slice is shorter than the colour, and the frame grows as well. No shipped caller passes a negative channel: the default lamp channels are [0, 8] (usb_dmx/chase_generator.py:52).
- ChaseGenerator.GenRandom: `scenes` is a natural number; `range` of a negative count gives no scenes. The shape of the draws is a precondition, standing for what `random.choices` returns.
- CompuDmx.ChaseGen.constructor: requires a non-empty scene list. With no scenes, the source generator loops forever without yielding.
- Transmitter.DMXConnection.Run: the concurrent `exit()` is modelled as landing during the iteration that takes the last scripted queue outcome. That iteration still sends its whole packet. The precondition asks for at least one outcome unless the flag is already raised, because the unbounded run of a never-stopped thread cannot be written as a finite trace.
- Transmitter.DMXConnection.constructor: models usb_dmx/usb_dmx.py:20-27 only. `DMXConnection.__init__` never calls `Thread.__init__`, so the assignment `self.daemon = True` at line 29 raises `RuntimeError` ("Thread.__init__() not called") and the source constructor never returns an object. The model's constructor returns the connection that lines 20-27 would have set up. The `threading.Thread` base class itself is not modelled.
- The comment in usb_dmx/usb_dmx.py:16-18 says the break plus the leading zero bits of 0x01 add up to 100 µs. That is electrical timing, which the model does not capture; it records the break as 68 µs.
- The command-line front end (`usb_dmx/cli.py`, `usb_dmx/__main__.py`) is not part of this model. cli.py puts each chase on the `data_queue` of `DataProducer` (usb_dmx/cli.py:57) and stops it by setting its `terminated` flag (usb_dmx/cli.py:63). usb_dmx/dmxctl.py is not part of this model.
