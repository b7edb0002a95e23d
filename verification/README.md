# Replay body engine

A Dafny model of the replay-body engine of a Supreme Commander: Forged Alliance replay parser
(`ReplayBody` in `replay_parser/body.py`). The engine walks a decompressed byte buffer of
back-to-back command frames. Each frame is a type byte, a little-endian 16-bit total length and
`length - 3` payload bytes. The engine decodes the frames that the selection lets through and
keeps session state: the game tick, the current command source (player), each player's last
tick, checksum-based desync detection, captured chat messages and, optionally, the commands of
each tick grouped by player and command.

Modules:

- `Frames` (`frames.dfy`): the byte type, the frame layout, `ReadFrame` and its inverse `EncodeFrame`.
- `Reader` (`reader.dfy`): `ReplayReader`, a bounds-checked read head (`Read(n)`) over an in-memory buffer.
- `Commands` (`commands.dfy`): the decoded command variants the engine looks into, and the decoder table.
- `Sessions` (`sessions.dfy`): the session state as a value, and `Process`, the state update for one decoded command.
- `Stepping` (`stepping.dfy`): `Step`, one iteration of the body generator, and `Run`, a whole pass, with the lemmas about passes.
- `Body` (`body.dfy`): the class `ReplayBody`, whose fields are the session state and whose methods update them in place. Each method is proved to agree with the function it implements (`ProcessCommand` with `Process`, split as `UpdateForType` with `Bookkeep` and `RecordCommand` with `Record`; `Next` with `Step`; `ContinuousParse` with `Run`).

How the model follows the code:

- The generator becomes an explicit step. `Next` returns `Yield(item)`, `End`, `StoppedOnDesync` or
  `Error(e)`, and `ContinuousParse` loops over it. The `StopIteration` raised on a desync ends the
  generator. Since Python 3.7 it reaches the consumer as a `RuntimeError`. The model gives it its own
  outcome, `StoppedOnDesync`. When that happens no desync tick is appended and the previous checksum
  observation is not updated. The reader has already moved past the frame.
- The selection gate (`parse_commands`) controls decoding and all bookkeeping. A frame whose type is
  excluded changes no session state. This follows the code, not the alternative of always running
  bookkeeping.
- The yielded decoded value is the `command_unpacked` field, which is set only when a command is processed.
  A filtered frame therefore yields the previously decoded command again. The field is never initialised in
  the constructor, so a filtered frame before any decoded one raises `AttributeError` at the yield. The model
  keeps the field as an `Option` that starts as `None`, and yielding it while `None` ends the pass with
  `Error(NoDecodedValue)`.
- The state update is chosen by the decoded variant (`Advance`, `SetCommandSource`, ...), where the code
  branches on the command type. The two agree when every decoder in the table returns the variant of its own
  type (see "Left out"). The name under which a command is filed in the per-tick
  buffer (`CommandStateNames[type]`) is represented by the type byte itself.
- `checksum != previous_checksum` with `previous_checksum = None` at the start becomes
  `previousChecksum != Some(checksum)` over an `Option`. So a first report at the initial previous tick
  `-1` counts as a desync, as in the code.
- Error paths: a declared length below 3 is `MalformedFrame`, and a payload past the buffer end is
  `OutOfData`. A selected type without a decoder is `UnknownCommandType`. A decoder that rejects its payload
  gives `DecodeFailed`. A relay message lacking `Sender`, `to` or `text` gives `MissingLuaField`, which is the
  code's `KeyError`. Each of these ends the pass with the session unchanged.

## Model

| member | source | states |
|---|---|---|
| `Frames.U16` | replay_parser/body.py:111-112 | the length field is an unsigned little-endian 16-bit value, at most 65535, whose low and high bytes are the two length bytes |
| `Frames.ReadFrame` | replay_parser/body.py:108-114 | reading at `off` fails with MalformedFrame exactly when the declared length is below 3 and with OutOfData exactly when the payload runs past the buffer; it succeeds exactly when the declared length is at least 3 and the frame fits in the buffer, and then the frame's bytes are exactly the declared length starting at `off`, its type is the first byte and its payload is everything after the 3 header bytes |
| `Frames.EncodeFrame` | replay_parser/body.py:93-105 | a frame is its type byte, two length bytes and the payload, and is 3 bytes longer than the payload |
| `Frames.FrameRoundTrip` | replay_parser/body.py:108-119 | an encoded frame placed anywhere in a buffer reads back with its type, its whole bytes and its payload |
| `Reader.ReplayReader.Read` | replay_parser/body.py:108-114 | a read of `n` bytes succeeds exactly when `n` bytes remain, returns those bytes and advances the offset by `n`; a short read leaves the offset alone |
| `Sessions.Selected` | replay_parser/body.py:173-177 | an empty selection lets every type through; a non-empty one lets through exactly its members |
| `Sessions.FileUnder` | replay_parser/body.py:171 | filing a command under a player and type creates the player's entry when missing, replaces an earlier command of that type, and keeps the player's commands of other types and every other player's entry |
| `Sessions.Process` | replay_parser/body.py:134-171 | processing stops on a desync exactly when stopOnDesync is set and the checksum rule holds; it raises MissingLuaField exactly for a relay message missing a field; on a stop or raise the state is unchanged; otherwise the tick moves by exactly the command's advance (zero for non-Advance), the command becomes the decoded value, a desync tick is appended exactly when the rule holds, desync ticks are append-only, and without body storage the body never grows; only an Advance changes the body, only a SetCommandSource the player, only a CommandSourceTerminated the last ticks, only a VerifyChecksum the previous observation, and only a relay message the messages |
| `Sessions.Bookkeep` | replay_parser/body.py:139-166 | the per-type update stops on a desync exactly when stopOnDesync is set and the checksum rule holds, raises exactly for an incomplete relay message, changes nothing when it stops or raises, moves the tick only by an Advance's delta, appends the current tick to the desyncs exactly when the rule holds, and never grows the body without body storage |
| `Sessions.Record` | replay_parser/body.py:168-171 | recording makes the command the decoded value, files it under the current player and its type when storing (`FileUnder`) and leaves the tick buffer alone otherwise; every other field is unchanged |
| `Sessions.Dispatch` | replay_parser/body.py:121-132 | a type with no decoder raises UnknownCommandType and a rejected payload raises DecodeFailed, both with the state unchanged; otherwise the decoded command is processed |
| `Sessions.AdvanceFlushesTick` | replay_parser/body.py:141-145 | Advance appends the tick buffer to the body only when storing and the buffer is non-empty, empties the buffer (then files the Advance itself when storing) and adds the delta to the tick; it becomes the decoded value, and player, last ticks, desyncs, messages and the previous checksum observation are untouched |
| `Sessions.SetCommandSourceSetsPlayer` | replay_parser/body.py:147-148 | SetCommandSource sets the player id, is filed under the new player when storing, becomes the decoded value, and leaves every other field unchanged |
| `Sessions.TerminationRecordsLastTick` | replay_parser/body.py:150-151 | CommandSourceTerminated sets the current player's last tick to the current tick, is recorded, and leaves every other field unchanged |
| `Sessions.ChecksumObservation` | replay_parser/body.py:153-161 | with stopOnDesync and a desync, processing stops with nothing recorded; otherwise the reported pair becomes the previous observation, and the current game tick is appended to the desync ticks if and only if the reported tick equals the previous one and the checksum differs; apart from the record nothing else changes |
| `Sessions.TwoReportsOneDesync` | replay_parser/body.py:153-161 | two reports for the same tick with different checksums, the first consistent with what came before, record exactly one desync at the game tick of the second |
| `Sessions.RelayMessageCaptured` | replay_parser/body.py:163-166 | a GiveResourcesToPlayer callback with a Msg stores (Sender, to, text) under the current tick; with a field missing it raises; every other callback leaves the messages unchanged; apart from the record no other field changes |
| `Sessions.RelayExample` | replay_parser/body.py:163-166 | Sender "A", Msg {to "B", text "hi"} yields the message ("A", "B", "hi") at the current tick |
| `Sessions.OtherOnlyRecorded` | replay_parser/body.py:139-171 | a command of any type without its own branch changes nothing but the decoded value and, when storing, the tick buffer entry it is filed under |
| `Sessions.CommandFiledUnderPlayer` | replay_parser/body.py:168-171 | with body storage on, a processed command is filed under the player current after its bookkeeping and its type, replacing an earlier one; that player's commands of other types and other players' entries are kept (an Advance starts from an emptied buffer) |
| `Stepping.Gate` | replay_parser/body.py:116-117 | an excluded type changes nothing and proceeds; a selected type without a decoder raises UnknownCommandType; a selected frame that proceeds was decoded and its command became the decoded value |
| `Stepping.Step` | replay_parser/body.py:84-119 | a step ends the pass exactly when fewer than 3 bytes remain, without moving; a yielding step advances the offset by exactly the declared length, yields exactly the bytes consumed and the tick after the frame, and moves the tick only by a selected Advance; a step that does not yield leaves the session unchanged |
| `Stepping.Run` | replay_parser/body.py:71-87 | a pass ends with a non-element outcome, within the buffer, and a clean end leaves fewer than 3 bytes |
| `Stepping.ShortBufferEnds` | replay_parser/body.py:84-87 | fewer than 3 bytes left gives an empty pass that ends cleanly with state and offset unchanged |
| `Stepping.UnselectedFrameSkipsBookkeeping` | replay_parser/body.py:116-119 | an excluded type changes no session state, consumes its frame and yields the previously decoded command, or fails when none was decoded yet |
| `Stepping.SelectedFrameYields` | replay_parser/body.py:84-87 | a selected frame that decodes is processed: when processing proceeds the step yields the tick after it, its type, its bytes and the decoded command and moves to the processed state; a desync stop or raise ends the pass with the state unchanged; the offset moves past the frame |
| `Stepping.UnknownTypeAborts` | replay_parser/body.py:126-129 | a selected type without a decoder aborts with UnknownCommandType, the state unchanged, and nothing yielded from there on |
| `Stepping.MalformedFrameAborts` | replay_parser/body.py:112-114 | a declared length below 3 aborts the pass with MalformedFrame and nothing yielded |
| `Stepping.TruncatedFrameAborts` | replay_parser/body.py:114 | a frame running past the end of the buffer aborts the pass with OutOfData and nothing yielded |
| `Stepping.StepPreserves` | replay_parser/body.py:141-171 | every step keeps the old desync ticks as a prefix, adds none with stopOnDesync, and keeps body and tick buffer empty without body storage |
| `Stepping.StepNeverRewinds` | replay_parser/body.py:141-145 | when every decoder reports non-negative advances, a step never decreases the tick |
| `Stepping.RunConsumedLength` | replay_parser/body.py:85-119 | the yielded frames never reach past where the pass stopped, and a clean end stops right after the last yielded frame |
| `Stepping.RunConsumesFrames` | replay_parser/body.py:85-119 | the yielded frames' bytes, joined in order, are a contiguous slice of the buffer starting at the start offset |
| `Stepping.CleanEndConsumesBuffer` | replay_parser/body.py:85-87 | a pass that ends cleanly has yielded, frame by frame, exactly the buffer from the start offset to where it stopped, with fewer than 3 bytes left after it |
| `Stepping.RunTickIsSumOfAdvances` | replay_parser/body.py:141-145 | the final tick is the initial tick plus the sum of the advances of the commands the pass decoded |
| `Stepping.RunTicksBounded` | replay_parser/body.py:85-87 | with non-negative advances, the final tick is at least the initial one and every yielded tick lies between them |
| `Stepping.RunTicksNonDecreasing` | replay_parser/body.py:85-87 | with non-negative advances, the yielded ticks never decrease |
| `Stepping.RunDesyncTicksAppendOnly` | replay_parser/body.py:153-161 | a pass only appends to the desync ticks |
| `Stepping.RunStopOnDesyncRecordsNone` | replay_parser/body.py:155-159 | with stopOnDesync a pass never records a desync tick |
| `Stepping.RunWithoutStoreBody` | replay_parser/body.py:142-144 | without body storage, body and tick buffer stay empty for a whole pass |
| `Body.ReplayBody.constructor` | replay_parser/body.py:16-50 | a new engine holds its options and the initial session: tick 0, player -1, previous tick -1, no previous checksum, everything else empty |
| `Body.ReplayBody.ProcessCommand` | replay_parser/body.py:134-171 | the in-place update leaves the fields equal to `Process` of the old state, with the same signal |
| `Body.ReplayBody.UpdateForType` | replay_parser/body.py:139-166 | the in-place per-type update leaves the fields equal to `Bookkeep` of the old state, with the same signal |
| `Body.ReplayBody.RecordCommand` | replay_parser/body.py:168-171 | the in-place recording leaves the fields equal to `Record` of the old state |
| `Body.ReplayBody.ParseNextCommand` | replay_parser/body.py:121-132 | the in-place decode-and-process agrees with `Dispatch` |
| `Body.ReplayBody.ParseCommandAndGetData` | replay_parser/body.py:89-119 | reads one frame through the reader; on a framing error it raises with the state unchanged; otherwise it returns the type and the whole frame, advances the reader by the frame's length and decodes only when the type is selected |
| `Body.ReplayBody.Next` | replay_parser/body.py:84-87 | one generator iteration agrees with `Step` in what it emits, the new state and the new offset; a yielding iteration moves the offset forward, and the rest of the pass from the new state continues the pass from the old one |
| `Body.ReplayBody.ContinuousParse` | replay_parser/body.py:71-87 | the loop yields exactly the elements of `Run`, ends with its outcome and leaves its final state and offset |
| `Body.ReplayBody.Parse` | replay_parser/body.py:64-69 | a full pass leaves the state and offset of `Run` and reports how it ended |

## Left out

- The getters `get_body`, `get_messages`, `get_last_players_ticks` and `get_desync_ticks`: the fields `body`, `messages`, `lastPlayersTick` and `desyncTicks` of `ReplayBody` are read directly.
- The optional `data` argument of `continuous_parse`, which replaces the reader's buffer: `replay_parser/reader.py` is not part of this model, so the model starts from the reader as it is.
- `ReplayReader` internals beyond a bounds-checked `read(n)`: what `read` does with a negative count is not visible, so a declared length below 3 is a `MalformedFrame` error raised before the payload read. Where the offset ends up after a failed read is a modelling choice: it stays unchanged.
- The individual payload decoders of `COMMAND_PARSERS` (`replay_parser/commands.py` is not part of this model). They are an abstract table from type to a function from payload to an optional command. Setting up the separate command reader (`set_data_from_bytes`) is folded into passing the payload.
- The constant tables `CommandStates` and `CommandStateNames` (`replay_parser/constants.py` is not part of this model). Type identifiers stay opaque, and a command's name is its type byte.
- The Lua value structure beyond `Sender`, `Msg.to` and `Msg.text`, which are modelled as optional strings. Non-table Lua values are not modelled.
- Generator laziness and the closed state of a generator after it ends: a pass is a loop over an explicit step, and calling `Next` again after an end re-examines the buffer.
- `main.py`: argument parsing, file reading, zstandard decompression, header skipping and the CSV/JSON output with its `tick/10.0` formatting are input/output plumbing.
- Which update a command gets is chosen by its decoded variant, not by its type number. This matches the code only for a well-typed table, where the decoder of the Advance type returns an `Advance`, and so on. The table is unconstrained, and the type numbers are in `replay_parser/constants.py`, which is not part of this model.
- Integer widths of decoded fields (advance, player id, reported tick) are unbounded integers. The decoders are out of scope, so a non-negative advance is a stated hypothesis (`AdvancesNonNegative`), not a fact of the model.
