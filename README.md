# esp32-atlast: a verified model of the command core

esp32-atlast runs the ATLAST Forth interpreter on an ESP32. Commands reach it
from two places: the serial port and a websocket CLI served from the device.
This project models that core in Dafny and proves properties of the model.

- **AtlastTask** (`atlast_task.dfy`): the run-state machine of the interpreter
  task. It holds one shared record: a FIFO queue of commands plus
  `startFlag`, `killFlag` and `isRunning`.
  - The producers (`atlastCommand`) append to it.
  - The worker polls the start flag, drains the queue one command at a time
    and resets the record.
  - `atlastInit` queues the startup script.
  - `atlastKill` cancels cooperatively, or restarts the task.

  Each critical section is one atomic step, written twice: as a pure
  transition on the value `Run`, and as a method of the class `RunState` that
  is proved to perform that transition. The drain-completeness
  (`DrainEvaluatesAll`), FIFO (`RoundsFifo`), start-once (`RoundsFlags`) and
  kill (`KillStopsDrain`, `KillIdle`, `KillRunning`) properties are lemmas
  about the transitions.
- **AtlastTasks** (`atlast_tasks.dfy`): the earlier worker, which runs a file
  line by line. It has a 1000-character code buffer and honours the kill
  flag ("ABORT") between lines.
- **Io** (`io.dfy`): three pieces of the I/O layer.
  - The blocking serial line reader: newline or carriage return, a size
    limit, the rest of the input discarded.
  - The output half of `multiPrintf`.
  - The empty-input guard in front of `atlastCommand`.
- **SerialMain** (`serial_main.dfy`): the main loop's accumulator, which fills
  the 256-byte `inputString` using the `filled` counter.
- **WebServer** (`webserver.dfy`): two parts of `src/webserver.cpp`.
  - The dispatch of received websocket chunks, using the opcodes of section
    5.2 of RFC 6455 and the continuation frames of section 5.4.
  - The outgoing CLI buffer `wsOutString`, filled by `multiPrintf` and drained
    by the sender task. It carries a ghost history. The proofs show that output
    is never reordered, and that everything printed is either still buffered
    or accounted for in the history. Output is lost in two cases: it is
    thrown away while no client is connected, and a buffer too large for the
    4096-byte JSON document is sent without its text. With a client connected
    and the output within the document's room, nothing is lost.
- **FileServer** (`file_server.dfy`): the websocket server library's file
  handling.
  - The seven protected core paths and `removeFile`.
  - The 32-byte `nextPath` buffer, whose leading `/` and final NUL are
    invariants.
  - The upload and delete requests, and the library's own frame dispatch.
- **Prims** (`prims.dfy`): the firmware's ATLAST primitives.
  - Their effect on the data stack (depth, order, the 32-bit conversions).
  - The hardware calls they make.
  - The `espPrims` registration table.

The model replaces the outside world as follows:

- Other tasks' interleavings become oracle parameters:
  - the window of each command's evaluation: the submissions and the
    cooperative kills that land while it evaluates, in their order and of any
    number (`Interleaved`, `Window`);
  - the line before which a kill lands in the file runner.
- The evaluator is a log of the commands handed to `atl_eval`.
- Printed output is a log of messages.
- SPIFFS is a map from path to contents.
- Hardware and clock results are parameters.

## Model

| member | source | states |
|---|---|---|
| AtlastTask.EchoAsWritten | src/atlast-task.cpp:119 | the echo as written fits multiPrintf's 256-byte buffer exactly when the command has at most 252 characters, and is then "> " + command + newline; longer commands overflow the buffer |
| AtlastTask.EchoOverflows | src/atlast-task.cpp:119 | a NUL-free 253-character command, which the 256-byte input buffers can deliver, overflows the echo's buffer |
| AtlastTask.EchoedAll | src/atlast-task.cpp:119 | the echoes of a sequence of commands, one bounded echo per command, in order |
| AtlastTask.EchoedWhole | src/atlast-task.cpp:119 | commands of at most 252 characters are echoed whole |
| AtlastTask.SubmittedAllQueue | src/atlast-task.cpp:114-129 | submissions append at the back in submission order and are echoed (the bounded echo) in that order; the start flag is set only if the worker is idle and is otherwise left as it was; no other field changes |
| AtlastTask.SubmitKeepsFront | src/atlast-task.cpp:83-98 | submissions made while a command evaluates leave the queue's front unchanged, so the command popped afterwards is the one that was evaluated |
| AtlastTask.WindowEffect | src/atlast-task.cpp:114-129 | the submissions and kills that land while a command evaluates, in any order: the submissions join the back of the queue in order and are echoed in order, a start is requested only of an idle worker, each kill of a running worker raises the kill flag and calls the break hook once, and nothing else changes |
| AtlastTask.WindowQueue | src/atlast-task.cpp:114-129 | after a window, the queue is the old queue followed by the window's submissions, the log's echoes gain exactly their bounded echoes, and the start flag is set only if the worker was idle and something was submitted |
| AtlastTask.WindowFlags | src/atlast-task.cpp:178-185 | after a window, the kill flag is raised exactly when the worker runs and the window holds a kill, the break hook is called once per such kill, and the task, its state and the evaluated commands are unchanged |
| AtlastTask.SubmittedEcho | src/atlast-task.cpp:118-121 | one submission extends the output, and its echoes by exactly the command's bounded echo |
| AtlastTask.RoundQueue | src/atlast-task.cpp:77-102 | one drain iteration evaluates exactly the front command and pops exactly it; what was submitted meanwhile joins the back; the kill flag is raised only by a kill that lands while running, wherever in the window it lands, and each such kill calls the break hook once |
| AtlastTask.RoundOutput | src/atlast-task.cpp:83-101 | one drain iteration extends the output with the bounded echoes of what arrived meanwhile, in order, and ends it with the "ok" printed after the pop |
| AtlastTask.RoundsFifo | src/atlast-task.cpp:77-102 | across the drain, the commands evaluated followed by those still queued always equal the initial queue followed by all later submissions, in order |
| AtlastTask.RoundsFlags | src/atlast-task.cpp:77-102 | while draining, the worker keeps running, the start flag is never set by submissions, and the kill flag is exactly whether the last iteration's window held a kill |
| AtlastTask.InvInitial | src/atlast-task.cpp:8 | the initial record satisfies the invariant (a start request only when idle, a kill only when running) |
| AtlastTask.InvSubmittedAll | src/atlast-task.cpp:124-126 | submissions keep the invariant |
| AtlastTask.InvSteps | src/atlast-task.cpp:22-55 | starting, resetting, killing, and initialising an idle worker all keep the invariant |
| AtlastTask.InvRounds | src/atlast-task.cpp:77-102 | the drain keeps the invariant |
| AtlastTask.DrainEvaluatesAll | src/atlast-task.cpp:64-106 | an activation that sees no kill evaluates every queued command and every command submitted during it, in FIFO order, and ends with an empty queue and all flags false |
| AtlastTask.KillStopsDrain | src/atlast-task.cpp:78-80 | after a kill anywhere in an iteration's window, before, between or after its submissions, no further command is evaluated, and the reset empties the queue and clears all three flags |
| AtlastTask.KillIdle | src/atlast-task.cpp:179-185 | a cooperative kill of an idle worker changes nothing |
| AtlastTask.KillRunning | src/atlast-task.cpp:179-185 | a cooperative kill of a running worker sets only the kill flag and calls the break hook once |
| AtlastTask.StaleKillDropsCommand | src/atlast-task.cpp:179-185 | as written, a kill whose isRunning test precedes the worker's reset and whose flag write follows it leaves the kill flag set on an idle worker; the next command submitted is echoed, but its activation stops at once and the reset drops it unevaluated |
| AtlastTask.LockedKillNoStale | src/atlast-task.cpp:179-185 | with the kill under the mutex, before or after the reset, the worker is idle with the kill flag clear, and the next command submitted is evaluated |
| AtlastTask.RestartClean | src/atlast-task.cpp:188-210 | a restart with a task handle leaves the queue as exactly ["quit"], with the start flag set, the kill and running flags false, and one more task created |
| AtlastTask.RestartWithoutTask | src/atlast-task.cpp:188-193 | a restart without a task handle reports the error and resets and respawns nothing |
| AtlastTask.BootQueuesScript | src/atlast-task.cpp:161-167 | atlastInit appends exactly the four bootstrap commands, in order (`file startupfile` first, `startupfile fclose` last), and sets the start flag |
| AtlastTask.RunState.constructor | src/atlast-task.cpp:8-13 | the record starts with an empty queue, all flags false and no task handle |
| AtlastTask.RunState.Command | src/atlast-task.cpp:114-129 | atlastCommand performs the submission transition on the fields, with the bounded echo |
| AtlastTask.RunState.CommandEach | src/atlast-task.cpp:114-129 | a sequence of atlastCommand calls performs the serialised submissions, each with the bounded echo |
| AtlastTask.RunState.StartRun | src/atlast-task.cpp:22-38 | returns true iff the start flag was set; then clears it and sets isRunning; otherwise changes nothing |
| AtlastTask.RunState.ResetRun | src/atlast-task.cpp:45-55 | empties the queue and clears all three flags |
| AtlastTask.RunState.Kill | src/atlast-task.cpp:178-211 | performs the kill transition: the cooperative flag and break, then the restart or the missing-handle error |
| AtlastTask.RunState.Init | src/atlast-task.cpp:150-168 | performs the bootstrap transition |
| AtlastTask.RunState.Drain | src/atlast-task.cpp:77-102 | the drain loop runs iterations on a non-empty queue with no kill, ends with the queue empty or the kill flag set, and its state is that of the iterated rounds |
| AtlastTask.RunState.Interleave | src/atlast-task.cpp:114-129 | the other tasks' atlastCommand and atlastKill(false) calls of one window, performed in order, are that window's transition |
| AtlastTask.RunState.DrainRound | src/atlast-task.cpp:83-101 | one iteration: evaluate the front, let the window's submissions and kills in, in their order, pop, print "ok" |
| AtlastTask.RunState.InterpreterStep | src/atlast-task.cpp:68-106 | one pass of the worker: no start request means no change; otherwise drain and reset, leaving the queue empty and the flags false; without kills, everything queued or submitted is evaluated in order |
| AtlastTasks.FirstLong | src/atlast-tasks.cpp:77-78 | the first line that does not fit the 1000-character buffer: every earlier line fits, and it does not |
| AtlastTasks.EndingMeaning | src/atlast-tasks.cpp:66-93 | the lines before the stopping point all fit; an over-long line ends the run only if no kill came first; an abort happens exactly at the kill point; otherwise the whole file runs |
| AtlastTasks.FileRun.constructor | src/atlast-tasks.cpp:6-11 | the run data starts idle, with a 1000-character code buffer |
| AtlastTasks.FileRun.StartFromFile | src/atlast-tasks.cpp:21-36 | returns true iff the start flag was set; then clears it and sets isRunning; otherwise changes nothing |
| AtlastTasks.FileRun.ResetFromFile | src/atlast-tasks.cpp:43-48 | closes the file and clears the running and kill flags |
| AtlastTasks.FileRun.ReadBytesUntil | src/atlast-tasks.cpp:77 | stores the first min(length, 1000) characters of the line and nothing beyond |
| AtlastTasks.EchoAsWritten | src/atlast-tasks.cpp:83 | the echo as written fits multiPrintf's 256-byte buffer exactly when the line has at most 251 characters, and is then "<> " + line + newline; longer lines overflow the buffer |
| AtlastTasks.EchoOverflows | src/atlast-tasks.cpp:77-83 | a 300-character line fits the 1000-character code buffer, yet its echo overflows multiPrintf's buffer |
| AtlastTasks.FileRun.RunLine | src/atlast-tasks.cpp:76-92 | a line shorter than 1000 characters is echoed (the corrected, bounded echo), evaluated whole (as the C string in the buffer) and followed by "ok"; a longer one prints the runtime error and is not evaluated |
| AtlastTasks.FileRun.RunLines | src/atlast-tasks.cpp:66-93 | every line before the first over-long line or the kill is echoed (bounded), evaluated and acknowledged, in file order; a kill evaluates "ABORT" and stops; an over-long line stops with the error |
| AtlastTasks.FileRun.Step | src/atlast-tasks.cpp:61-98 | with a start request the file runs and the run ends with isRunning, killFlag false and the file closed; without one nothing changes |
| Io.Uart.Read | src/io.cpp:33 | reads the oldest received byte |
| Io.Uart.Discard | src/io.cpp:41-43 | drops all received input |
| Io.Uart.Write | src/io.cpp:72 | appends the text to the serial output |
| Io.FirstTerminator | src/io.cpp:36 | the position of the first newline or carriage return: none before it, and it is one |
| Io.SerialReadLine | src/io.cpp:22-55 | true iff a terminator arrives within the first `limit` bytes; then the buffer holds the bytes before it followed by NUL; otherwise exactly `limit` bytes are stored and no NUL is written; nothing at or past the last written slot changes; the input is left empty |
| Io.MultiPrintf | src/io.cpp:62-80 | the formatted string goes to the serial port and is appended to the websocket buffer; the formatted length is returned |
| Io.IncomingText | src/io.cpp:88-93 | submits the input as a command (echoed with the bounded echo) iff its first character is not NUL; an empty string leaves the run state untouched |
| SerialMain.Completes | src/main.cpp:60-72 | readSerial completes a line iff some input byte is a newline that lands in the buffer after at least one stored byte |
| SerialMain.Consumed | src/main.cpp:59-77 | the bytes read: none once 256 are stored; never more than fit; up to and including the first line-ending newline; otherwise until the input or the buffer runs out; earlier newlines are stored only as the first byte |
| SerialMain.SerialInput.constructor | src/main.cpp:19-22 | the buffer has 256 slots and starts empty |
| SerialMain.SerialInput.StoreByte | src/main.cpp:62-74 | stores one byte at `filled`; a newline after at least one byte becomes NUL and resets `filled` |
| SerialMain.SerialInput.ReadSerial | src/main.cpp:59-77 | bytes are stored at consecutive slots in arrival order; on a completed line its newline slot holds NUL, `filled` is 0 and later input stays unread; otherwise `filled` grows by the bytes read; `filled` never exceeds 256 |
| WebServer.ParseReceived | src/webserver.cpp:80-114 | binary chunks (first or continuation frames) always go to incomingData; JSON only for a single final text frame at index 0 with its whole length, of at most 250 bytes; longer ones are discarded with their length; other text frames are discarded as fragmented; everything else is ignored |
| WebServer.Printed | src/io.cpp:75-77 | the buffer becomes its old text followed by the new text; the history is unchanged |
| WebServer.Ticked | src/webserver.cpp:174-210 | the buffer is always empty afterwards. With a client, non-empty text is sent as one message: carrying the whole text if it fits the JSON document, and without it otherwise. Empty text sends nothing. Without a client the text is thrown away. The history gains exactly the old text |
| WebServer.ReplayConserves | src/webserver.cpp:172-211 | over any interleaving of prints and sender passes, what was sent, lost or thrown away, followed by what is buffered, is exactly the printed text, in order |
| WebServer.ReplayConnected | src/webserver.cpp:174-203 | while a client stays connected nothing is thrown away: every piece taken is non-empty, and is delivered if it fits the document and lost only if it does not |
| WebServer.ReplayBuffered | src/webserver.cpp:190-191 | the buffer never holds more than its initial text plus everything printed since |
| WebServer.ReplayDelivered | src/webserver.cpp:174-203 | while a client stays connected and the total output fits the document's room, every piece taken is delivered whole |
| WebServer.CliBuffer.constructor | src/webserver.cpp:16-18 | wsOutString starts empty |
| WebServer.CliBuffer.Append | src/io.cpp:75-77 | appends to wsOutString |
| WebServer.CliBuffer.SendStep | src/webserver.cpp:174-209 | performs one sender pass; a message is sent iff a client is connected and the buffer is non-empty, and its data is the whole buffer iff that fits the JSON document |
| FileServer.StrNCpy | lib/webserver/webserver.cpp:306 | strncpy writes exactly n characters: the source string cut at n, then NUL padding |
| FileServer.StoredName | lib/webserver/webserver.cpp:306 | the stored upload name is a NUL-free prefix of the name of at most 30 characters, and the whole name iff it has at most 30 |
| FileServer.StrNCpyName | lib/webserver/webserver.cpp:306-309 | the copy is the stored name padded with NULs, and the terminated path holds exactly the stored name |
| FileServer.WarnsAsWritten | lib/webserver/webserver.cpp:302-304 | the truncation check as written (a pointer's size compared with 30) |
| FileServer.TruncationUnreported | lib/webserver/webserver.cpp:301-306 | a 40-character name is truncated, yet the check as written does not warn |
| FileServer.Warns | lib/webserver/webserver.cpp:301-304 | the corrected check warns exactly when the stored name is not the whole name |
| FileServer.LibDispatch | lib/webserver/webserver.cpp:66-85 | the library handles only whole single-frame chunks: JSON text of at most 250 bytes, longer text discarded, binary to incomingData |
| FileServer.DispatchAgrees | lib/webserver/webserver.cpp:66-85 | for whole single-frame messages the library dispatch and parseReceived agree; continuation frames of binary messages reach incomingData only under parseReceived |
| FileServer.RootIsCore | lib/webserver/webserver.cpp:14-24 | "/" is a core path, so data sent before any accepted upload request is refused |
| FileServer.Server.constructor | lib/webserver/webserver.cpp:13-14 | nextPath starts as "/" padded with NULs |
| FileServer.Server.SendAck | lib/webserver/webserver.cpp:196-211 | an acknowledgement is sent only while a client is connected |
| FileServer.Server.RemoveFile | lib/webserver/webserver.cpp:220-232 | false exactly for the seven core paths, which are never removed and get the ILLEGAL message; otherwise true, and the path is absent afterwards |
| FileServer.Server.IncomingData | lib/webserver/webserver.cpp:239-261 | a protected nextPath is cut back to "/" and nothing is written; otherwise the data is stored under nextPath (or the old file is gone if opening fails); the leading "/" and final NUL are kept |
| FileServer.Server.CopyName | lib/webserver/webserver.cpp:306 | writes the strncpy result into indices 1 to 30 of nextPath; index 0 stays "/" and index 31 stays NUL |
| FileServer.Server.Upload | lib/webserver/webserver.cpp:289-310 | more than 128 bytes acks tooLarge and leaves nextPath unchanged; otherwise nextPath becomes "/" plus at most 30 characters of the name, padded with NULs, the ack names the stored name, and a truncated name is reported (with the bounded warning) |
| FileServer.Server.Delete | lib/webserver/webserver.cpp:312-325 | acks "ok" iff the file could be removed (not a core path) and "protected" otherwise |
| Prims.ToLong | src/atlast-prims.c:85-86 | the 32-bit signed value congruent to x modulo 2^32; values in range are unchanged |
| Prims.ToSize | src/atlast-prims.c:151 | the 32-bit size_t congruent to x; values in range are unchanged |
| Prims.ToByte | src/atlast-prims.c:150 | the least byte of x |
| Prims.TruncDiv | src/atlast-prims.c:85 | C division rounds toward zero |
| Prims.TopBytes | src/atlast-prims.c:158-161 | data[i] is the low byte of the i-th item from the top |
| Prims.PushedReversed | src/atlast-prims.c:187-189 | pushing data from the last element to the first leaves data[i] at depth i |
| Prims.ReadThenWrite | src/atlast-prims.c:142-190 | bytes pushed by I2CREAD's loop are popped back by I2CWRITE's loop in the order received, and the stack below is untouched |
| Prims.Forth.PinM | src/atlast-prims.c:16-23 | needs two items, calls pinMode(S1, S0) and pops both; otherwise underflow with nothing changed |
| Prims.Forth.PinW | src/atlast-prims.c:30-34 | needs two items, calls digitalWrite(S1, S0) and pops both; otherwise underflow with nothing changed |
| Prims.Forth.PinR | src/atlast-prims.c:41-45 | needs one item and replaces the top with the read value; the depth is unchanged |
| Prims.Forth.DelayMs | src/atlast-prims.c:54-61 | pops one item and delays only if it is not negative |
| Prims.Forth.PushOne | src/atlast-prims.c:73-74 | pushes one item if there is room; otherwise reports overflow with nothing changed |
| Prims.Forth.UptimeMs | src/atlast-prims.c:71-75 | pushes the 32-bit tick count as a signed long |
| Prims.Forth.UptimeS | src/atlast-prims.c:82-87 | pushes the microsecond timer divided by 10^6, truncated and converted to int32_t |
| Prims.Forth.FsSize | src/atlast-prims.c:94-100 | pushes the total filesystem size |
| Prims.Forth.FsUsed | src/atlast-prims.c:107-113 | pushes the used size |
| Prims.Forth.FsFree | src/atlast-prims.c:120-127 | pushes total minus used as a size_t difference |
| Util.Fitted | src/io.cpp:63-68 | a "%.ns" argument bounded to what the 256-byte buffer leaves beside a format's other characters and the NUL: a prefix of the argument that always fits, and the whole argument exactly when the unbounded "%s" would fit (used for the command echo, the file runner's echo and the truncation warning) |
| Prims.Forth.I2cScan | src/atlast-prims.c:135-137 | leaves the stack untouched |
| Prims.Forth.I2cWrite | src/atlast-prims.c:146-164 | pops address and count; if enough items remain, pops that many, sends their low bytes top first and pushes one result (net depth change -(count+1)); if not, the address and count stay popped |
| Prims.Forth.I2cRead | src/atlast-prims.c:173-190 | pops address and count; if there is room, pushes count bytes with the first received on top; otherwise overflow with the two items popped |
| Prims.Defined | src/atlast-prims.c:239 | the number of definitions before the table's NULL entry |
| Prims.EspPrimsWellFormed | src/atlast-prims.c:225-240 | the table holds 13 definitions, each name prefixed "0", followed by the NULL terminator |

## Left out

- Concurrency: the FreeRTOS mutexes, task creation, suspension and deletion, the volatile kill flag and the delays are not modelled. Each critical section is one atomic step. While a command evaluates, any sequence of submissions and cooperative kills can land, in any order; the oracle is that sequence.
- Other interleavings: producers are interleaved only inside the evaluation window of the drain. Interleavings elsewhere are separate calls to the methods.
- The ATLAST evaluator (`atl_eval`, `atl_break`, `atl_init`, `atl_primdef`) is opaque. Evaluation is a log entry and `atl_break` is a counter.
- The `Sl`/`So` stack checks are defined in `atldef.h`, which is not part of this model. They are modelled as an error outcome that leaves the stack as it is at that point.
- AtlastTask.RunState.Kill: models the whole of `atlastKill` as one critical section, which the source does not make it. The cooperative part tests `isRunning` and sets `killFlag` without the mutex. A kill that lands around the worker's reset can therefore leave `killFlag` set on an idle worker, so the next command is echoed and then dropped unevaluated (see Findings; `StaleKillDropsCommand`). The restart path is modelled as if it held the mutex too: as written, `resetAtlastRun` gives back a mutex it never took, and `"quit"` is pushed without the lock. The invariant `Inv` ("a kill only when running") and `InvSteps` hold for this locked form only.
- AtlastTask.RunState.DrainRound: a restart (`atlastKill(true)`) that lands while a command evaluates is not modelled. It suspends and deletes the worker in the middle of `atl_eval`, possibly while it holds the mutex. Its window holds only submissions and cooperative kills, and restarts are modelled only between the worker's passes (`Kill(true)`, `RestartClean`).
- The outer `while (true)` loops of both workers and of the sender are single passes (`InterpreterStep`, `FileRun.Step`, `CliBuffer.SendStep`).
- AtlastTasks.FileRun.RunLines: the file is a sequence of lines without their newlines, and reading is `readBytesUntil` on one line. The SPIFFS open and file contents are not modelled.
- Io.SerialReadLine: the reader waits forever while no byte is available, so the model requires the input to hold a terminator or at least `limit` bytes. Bytes arriving after the final discard are not distinguished from earlier ones.
- Io.MultiPrintf: varargs formatting is left out. The formatted text is a parameter and must fit the 256-byte buffer, since longer output overflows it. Three callers in the model can format more than the buffer holds: the command echo `"> %s\n"`, the file runner's echo `"<> %s\n"`, and the truncation warning once it fires for a name of more than 203 characters. The model bounds all three with `Util.Fitted` (see Findings, and `FileServer.WarningName`). The other messages it models have bounded arguments.
- Formatting, JSON (de)serialisation, HTTP static serving and mDNS are left out. Handlers receive decoded fields.
- The `cli` and `fileList` branches of `incomingJSON`, and JSON deserialisation errors, are left out.
- The library's `cli` request calls the two-argument `incomingText` from `lib/multi-io/multi-io.cpp`, which is not part of this model. That wrapper uses the length to size its copy, so a command is cut to `sizeof(doc["data"])` bytes. This is the size of the JSON proxy object, not the length of the text.
- FileServer.Server.Delete: for an empty path, `&path[1]` points past the string. The model uses the empty string there.
- FileServer.Server.Upload: the decoded size is taken as a `size_t` value, and a missing name (a NULL pointer) is not modelled.
- Prims.Forth.PinM: the pin and value arguments are recorded as the stack items passed. The callee's parameter conversions are not modelled.
- Prims.Forth.I2cRead: bytes that `readI2C` does not supply are taken as 0, where the source leaves them uninitialised. The variable-length `data` arrays are not bounded by the task's stack.
- Prims.Forth.I2cWrite: the result of `writeI2C` is a parameter.
- `P_parseaccel` is floating-point conversion and printing.
- WebServer.Ticked: the room the 4096-byte JSON document leaves for the text depends on ArduinoJson's internal slot sizes. It is a parameter `room` of `Ticked`, `Replay`, `ReplayConnected`, `ReplayDelivered` and `CliBuffer.SendStep`, and the model does not fix its value. What the library sends when the text does not fit (a message without the text) is modelled only as the text being lost.
- `wsSendText`, the one-shot sender at `src/webserver.cpp:150-163`, is not modelled.
- WLAN provisioning, `loadConfig`, the browser UI, `src/forth-tasks.cpp`, `src/atlast-words.cpp` and the multi-io wrappers are not part of this model.

## Findings

| source | as written | input that shows it | evidently intended | confidence | as-written member | corrected member |
|---|---|---|---|---|---|---|
| lib/webserver/webserver.cpp:302 | `sizeof(fileName) > 30` compares the size of a pointer (4 bytes on the ESP32), so the warning never fires | an upload named with 40 characters: the stored name is cut to 30 and no warning is printed | warn when the name is longer than 30 characters | high (not executed) | FileServer.WarnsAsWritten, FileServer.TruncationUnreported | FileServer.Warns, used by FileServer.Server.Upload, which prints the name bounded by Util.Fitted (FileServer.WarningName) |
| src/atlast-task.cpp:119 | `multiPrintf("> %s\n", command)` formats a command of any length into the 256-byte `vsprintf` buffer (src/io.cpp:63,68), while the 256-byte input buffers deliver commands of more than 252 characters | a 253-character command: the echo is 256 characters plus the NUL, written past the buffer | echo at most what fits, as `"> %.252s\n"` would | high (not executed) | AtlastTask.EchoAsWritten, AtlastTask.EchoOverflows | Util.Fitted, as AtlastTask.EchoCommand, used by AtlastTask.Submitted and so by every submission |
| src/atlast-tasks.cpp:83 | `multiPrintf("<> %s\n", rd.codeBuff)` formats a line of up to 999 characters into the 256-byte `vsprintf` buffer (src/io.cpp:63,68) without a bound | a 300-character line: the echo is 304 characters plus the NUL, written past the buffer | echo at most what fits, as `"<> %.251s\n"` would | high (not executed) | AtlastTasks.EchoAsWritten, AtlastTasks.EchoOverflows | Util.Fitted, as AtlastTasks.EchoLine, used by AtlastTasks.FileRun.RunLine |
| src/atlast-task.cpp:179-185 | the cooperative part of `atlastKill` tests `rd.isRunning` and sets `rd.killFlag` without taking `atlastRunMutex` | a kill from another task whose test sees `isRunning` just before the worker's `resetAtlastRun`, and whose write lands after it; then the command `1 1 +`: it is echoed, but the next activation breaks at once and the reset drops it | take the mutex around the test and the write, so the kill is ordered before or after the reset | medium (not executed) | AtlastTask.KilledAcrossReset, AtlastTask.StaleKillDropsCommand | AtlastTask.Killed, with AtlastTask.LockedKillNoStale and AtlastTask.InvSteps |
