# BSManager device core, modelled in Dafny

BSManager runs on an Orange Pi that drives an ESP32 motor controller over a
serial line and talks to a backend over a websocket. This project models the
command plumbing at the core of that device:

- the colon-delimited line sent to the motor controller (`CMD:MOTOR:DIRECTION:STEPS`);
- the handler that sends such a line and retries until the controller answers `ACK` or `ERR`;
- the session record: a connected flag and a cancellation token that is renewed on reset;
- the websocket listener, which queues decoded commands and stops on `"off"`;
- the two command processors:
  - the first dispatches on the command's `type` tag and answers `"done"`;
  - the second acknowledges commands and, while a client is attached, streams camera frames at most every 500 ms;
- the backend connection retry policy.

Modules, one per source file, with shared support modules:

| module | models |
|---|---|
| `Wrappers`, `Ints` | `Option`/`Result`; the `u8` and `i32` ranges |
| `Seqs` | sequence facts the proofs cite: associativity of concatenation, prefixes and suffixes |
| `Strings` | Rust's `str::trim` (Unicode White_Space), `split(':')`, `format!("{}")` of an integer, `parse::<u8>` |
| `Models` | the `Command` record and `serde_json::Value` as a datatype |
| `Runtime` | the mpsc queue, the `AtomicBool` shutdown flag, the websocket sink, the shared frame slot, tokio's clock |
| `Message` | `src/esp32/message.rs` |
| `Handler` | `src/esp32/handler.rs`, over the contract of `src/esp32/serial.rs` |
| `Session` | `src/backend/session_state.rs` |
| `Listener` | `src/backend/listener.rs` |
| `Processor` | `src/backend/processor.rs` |
| `ProcessorV2` | `src/backend/processor_v2.rs` |
| `Connect` | `src/backend/connect.rs` |

Modelling choices:

- The serial controller is a scripted peer. The script says how each coming write ends and what each coming read yields: a line, a read error, or silence until the 5-second timeout. Once a script is used up, writes succeed and the peer is silent.
- A cancellation token is a generation number. The session keeps the set of cancelled generations.
- JSON decoding is a partial function `string -> Option<Command>`, passed in.
- Base64 encoding is a function `seq<u8> -> string`, passed in.
- Whether the k-th connection handshake succeeds is a function `nat -> bool`, passed in.
- Concurrency becomes one loop turn at a time:
  - a turn of the second processor is an `Event`: how long `select!` waited, the command another task sent meanwhile (if any), and which arm won when both were ready;
  - the queue records whether every sender is gone; only then does `recv` return `None` on an empty queue and the `else` arm's 50 ms sleep run;
  - a millisecond clock stands in for `Instant`, `sleep` and `interval`.

Where the code and its design description disagree, the model follows the code:

- the step count is a `u8`;
- there is no pause between serial retries;
- a failing serial write ends the call at once, with its error;
- a refused queue push is logged and the listener goes on;
- `receive_message` panics on a malformed line rather than returning an error;
- the first processor acknowledges unknown tags;
- commands are dispatched by string tag, with no Move/Zoom mapping to motors.

Three more points:

- `src/backend/models.rs` declares `Command` with `type` only; its other fields are commented out. `Command` here carries the fields `src/backend/processor.rs` reads: `session_id`, `ai_on`, `motor_id`, `steps`, `meta`.
- No code in this model sets `connected` to true.
- The second processor's drain runs only for a backlog found at the top of its loop. With no client attached and an empty queue, the loop waits in `recv` and acknowledges the next command to arrive (see Findings). `ProcessorV2.Step` keeps that behaviour; `ProcessorV2.IntendedStep` is the evident intent.
- As written, `EspMessage::from_string` cannot parse any well-formed line (see Findings). `Message.FromString` models the evident four-field intent.

## Model

| member | source | states |
|---|---|---|
| Strings.TrimStartShape | src/esp32/message.rs:22 | `trim_start` keeps a suffix of the input that is empty or does not start with White_Space, and everything it cuts off is White_Space |
| Strings.TrimEndShape | src/esp32/message.rs:22 | `trim_end` keeps a prefix of the input that is empty or does not end with White_Space, and everything it cuts off is White_Space |
| Strings.TrimIsTrimmed | src/esp32/message.rs:22 | a trimmed string has no White_Space at either end, and trimming it again changes nothing |
| Strings.TrimmedIsFixed | src/esp32/message.rs:22 | a string with no White_Space at either end is its own trim |
| Strings.TrimStartSkipsWhitespace | src/esp32/message.rs:22 | whitespace put in front of a string makes no difference to its start-trim |
| Strings.TrimEndSkipsWhitespace | src/esp32/message.rs:22 | whitespace put after a string makes no difference to its end-trim |
| Strings.TrimSurrounded | src/esp32/message.rs:22 | trimming recovers a trimmed line from any whitespace put around it, such as the serial line terminator |
| Strings.Split | src/esp32/message.rs:22 | `split(':')` yields one more part than there are separators, empty parts kept, and no part contains the separator |
| Strings.SplitSeparatorFree | src/esp32/message.rs:22 | a string without the separator splits into itself alone |
| Strings.SplitAtSeparator | src/esp32/message.rs:22 | splitting `a + sep + b`, with `a` separator-free, gives `a` followed by the parts of `b` |
| Strings.NatToString | src/esp32/message.rs:15 | `{}` of an integer is a non-empty digit string whose decimal value is the integer, with no leading zero unless it is 0 |
| Strings.ParseRendered | src/esp32/message.rs:28 | `parse::<u8>` of the decimal rendering of a `u8` gives that value |
| Strings.ParseRejectsNonDigit | src/esp32/message.rs:28 | a field with a non-digit character, apart from one leading `+`, does not parse |
| Strings.ParseRejectsOverflow | src/esp32/message.rs:30 | a field of digits whose value is 256 or more does not parse |
| Message.SplitLine4 | src/esp32/message.rs:12-13 | four separator-free fields written with `:` between them split back into those four fields |
| Message.SplitLine3 | src/esp32/message.rs:22-23 | three separator-free fields written with `:` between them split back into those three fields |
| Message.ToStringFields | src/esp32/message.rs:11-19 | the line has exactly four fields, in the order cmd, motor, direction, steps; an absent motor or steps field is written `0` |
| Message.ToStringExample | src/esp32/message.rs:11-19 | `{MOVE, 1, FWD, 50}` is written `MOVE:1:FWD:50` |
| Message.FromStringTrims | src/esp32/message.rs:22 | surrounding whitespace, including the newline, never changes the parse |
| Message.FromStringFailsIff | src/esp32/message.rs:21-25 | the parse fails exactly when the trimmed line does not hold three separators |
| Message.ParseLine | src/esp32/message.rs:21-31 | four separator-free fields on a trimmed line give a message; a motor or steps field that is not a `u8` makes only that field absent |
| Message.WireLineIsTrimmed | src/esp32/message.rs:11-19 | the line of a message whose cmd does not start with whitespace neither starts nor ends with whitespace |
| Message.RoundTrip | src/esp32/message.rs:11-32 | parsing the line of a message with separator-free text fields gives the message back, absent numbers as `Some(0)`; with both numbers present it is the same message |
| Message.SentLineParses | src/esp32/message.rs:21-32 | the line with its newline terminator parses to the normalised message: an absent motor or step count comes back as `Some(0)`, everything else as sent |
| Message.AsWrittenRejectsEveryWireLine | src/esp32/message.rs:23-25 | the written three-part guard rejects every line `to_string` produces, which the intended parser accepts |
| Message.AsWrittenCounterexample | src/esp32/message.rs:23-30 | `MOVE:1:FWD:50` is rejected as written and parses to `{MOVE, 1, FWD, 50}` as intended |
| Message.AsWrittenPanicsOnThreeParts | src/esp32/message.rs:23-30 | a clean three-part line passes the written guard and then reads past the end of the parts; the intended parser returns `None` |
| Handler.SerialHandler.Send | src/esp32/serial.rs:15-19 | a successful send writes the message followed by `"\n"`; a failed one writes nothing and returns its error; one write outcome is used up |
| Handler.SerialHandler.ReadLine | src/esp32/handler.rs:21 | one read yields the next scripted line, read error or timeout, and uses it up |
| Handler.EspHandler.constructor | src/esp32/handler.rs:10-12 | a new handler allows 10 attempts |
| Handler.TerminalReplyEndsRetry | src/esp32/handler.rs:17-32 | if attempts before k got non-terminal replies and attempt k gets `ACK` or `ERR`, the call succeeds after exactly k attempts and k writes |
| Handler.WriteFailureEndsRetry | src/esp32/handler.rs:18 | a failing write on attempt k ends the call with that error, with k-1 lines written and no retry |
| Handler.RetriesExhausted | src/esp32/handler.rs:17-46 | with no terminal reply and no failed write, the call writes exactly `max_retries` times and fails with "No ACK received"; with 0 retries it writes nothing |
| Handler.RetryShape | src/esp32/handler.rs:15-47 | every call takes one of those three shapes: attempts stay within the budget, all but the last continued, success iff the last reply was terminal, fewer writes than attempts iff the last write failed |
| Handler.EspHandler.SendWithRetry | src/esp32/handler.rs:15-47 | the result is the protocol's result; every line written is the same text plus `"\n"`; one write outcome is used per attempt and one reply per write |
| Handler.EspHandler.ReceiveMessage | src/esp32/handler.rs:49-52 | one read: a line becomes its parse; a read error is returned as the error |
| Session.SessionState.constructor | src/backend/session_state.rs:9-14 | a new session is not connected, and its token is not cancelled |
| Session.SessionState.Reset | src/backend/session_state.rs:17-21 | afterwards not connected; the previous token is cancelled; the new token is of a strictly later generation, so distinct from all earlier ones, and not cancelled; the invariant is kept |
| Session.ResetTwice | src/backend/session_state.rs:17-21 | two resets leave the session disconnected with two more, distinct, cancelled generations |
| Listener.FirstOff | src/backend/listener.rs:19-23 | finds the first frame that is exactly the text `off`, or the end of the stream |
| Listener.DecodedAppend | src/backend/listener.rs:25-28 | decoded commands keep arrival order: the commands of `a + b` are those of `a` followed by those of `b` |
| Listener.DecodedDropsUndecodable | src/backend/listener.rs:18-32 | non-text frames, stream errors and texts that fail to decode contribute nothing |
| Listener.OffNeverDecoded | src/backend/listener.rs:19-25 | `"off"` is never handed to the decoder: what gets queued does not depend on how `"off"` would decode |
| Listener.FirstOffIgnoresLater | src/backend/listener.rs:17-23 | frames after an `"off"` change nothing about where the listener stops |
| Listener.Forward | src/backend/listener.rs:25-33 | a text that decodes is queued if the receiver is alive; anything else leaves the queue as it was |
| Listener.MessageListener | src/backend/listener.rs:17-35 | consumes frames up to and including the first `"off"`, or all of them; queues the decoded commands before it, in order, unless the receiver is gone; the flag is raised iff an `"off"` came and is never lowered |
| Processor.BranchesInOrder | src/backend/processor.rs:27-65 | the i-th arm taken is the one the i-th command's tag selects |
| Processor.DoneAcksInOrder | src/backend/processor.rs:67-77 | the i-th completion message is that of the i-th command |
| Processor.FirstDisconnectIsFirst | src/backend/processor.rs:57-60 | finds the first `DISCONNECT`, or the end of the queue when there is none |
| Processor.MotorNeedsBothFields | src/backend/processor.rs:28-36 | MOTOR does its work iff both `motor_id` and `steps` are present, and then moves that motor between the two step values |
| Processor.AiNeedsAiOn | src/backend/processor.rs:41-56 | AI-RECOG and AI-TRACK do their work iff `ai_on` is `Some(true)`; absent counts as false |
| Processor.OnlyDisconnectExits | src/backend/processor.rs:57-64 | only the `DISCONNECT` tag takes the exit arm; unknown tags fall through to the acknowledgement |
| Processor.DoneAckFields | src/backend/processor.rs:68-73 | the completion message has status `done` and the command's tag, session id and meta, with `null` for an absent meta |
| Processor.RunFromMatches | src/backend/processor.rs:17-78 | the loop, followed command by command, takes `Received` commands, takes the arms of the `Dispatched` ones, acknowledges the `Acknowledged` ones, and leaves the flag raised iff it was raised or a `DISCONNECT` came |
| Processor.HandleOne | src/backend/processor.rs:27-77 | a command taken with the flag down takes the arm its tag selects; `DISCONNECT` raises the flag, sends nothing and exits; any other tag sends its completion message if the sink is open and goes on |
| Processor.RunShape | src/backend/processor.rs:17-78 | with the flag down, the acknowledged commands are the dispatched ones minus a final `DISCONNECT`; without a `DISCONNECT` all are acknowledged; with the flag up nothing is dispatched and one command is taken |
| Processor.RunTaskProcessor | src/backend/processor.rs:17-80 | the loop ends as `RunFrom` says: the queue loses the commands taken; the arms taken are returned; the sink gains the `done` message of every acknowledged command, in arrival order, even after a refused send; the flag ends as the run leaves it |
| ProcessorV2.Acks | src/backend/processor_v2.rs:73-80 | one ACK per command, in order |
| ProcessorV2.PayloadFields | src/backend/processor_v2.rs:73-99 | the ACK has status `ACK` and the command; the image message has type `ImageCaptured`, the encoded frame as `image_data`, and format `jpeg` |
| ProcessorV2.DrainSendsNothing | src/backend/processor_v2.rs:36-41 | disconnected with commands queued, a turn discards all of them without waiting and changes nothing else; a command arriving meanwhile is left queued |
| ProcessorV2.AckTurn | src/backend/processor_v2.rs:46-51 | a command turn removes only the oldest command (the arrival queued behind the rest) and sends exactly its ACK, or nothing on a closed sink, ignoring the error |
| ProcessorV2.DisconnectedArrivalIsAcked | src/backend/processor_v2.rs:34-51 | with no client attached and an empty open queue, a command that arrives during the wait is acknowledged and the queue is left empty |
| ProcessorV2.DisconnectedQuietTurn | src/backend/processor_v2.rs:46-63 | disconnected on an empty queue with nothing arriving, a turn sends nothing; the clock moves by the wait, plus 50 ms when the queue is closed and the `else` arm runs |
| ProcessorV2.DisconnectedTurn | src/backend/processor_v2.rs:34-63 | disconnected, a backlog goes unsent and the arrival is queued; on an empty queue the arrival is acknowledged and the queue stays empty |
| ProcessorV2.ConnectedCommandTurn | src/backend/processor_v2.rs:46-51 | connected with commands queued and the command arm winning, the oldest is acknowledged and the arrival joins the back |
| ProcessorV2.TickShape | src/backend/processor_v2.rs:54-58 | the tick arm changes only the clock, the attempt time and the outbox, and sends at most the current frame |
| ProcessorV2.StepShape | src/backend/processor_v2.rs:33-64 | every turn keeps the session flag, frame, channel and sink state and keeps last-send time not after now; the outbox only grows, by at most one message; commands leave only from the front, or all at once in a drain |
| ProcessorV2.FrameSendGate | src/backend/processor_v2.rs:54-111 | a non-ACK message goes out only on a tick while connected, for a non-empty frame, at least 500 ms after the last attempt; it carries that frame's encoding and is followed by the 2-second pause |
| ProcessorV2.TickResetsAttemptTime | src/backend/processor_v2.rs:54-58 | an eligible tick resets the last-send time even when the frame is empty, and then sends nothing; an early tick only advances the clock and queues the arrival |
| ProcessorV2.RunShape | src/backend/processor_v2.rs:29-65 | over any run the flags and frame stay, the invariant holds, and the outbox only grows, by at most one message per turn |
| ProcessorV2.WokenAreArrivals | src/backend/processor_v2.rs:36-51 | every command a disconnected run acknowledges is one that arrived during the run |
| ProcessorV2.DisconnectedRunAcksArrivals | src/backend/processor_v2.rs:34-64 | with no client attached the backlog at the top of the loop is discarded unsent and each arrival that finds the queue empty is acknowledged, in order (`WokenBy`); a run whose last turn brings nothing ends with an empty queue |
| ProcessorV2.NoArrivalsNoMessages | src/backend/processor_v2.rs:34-64 | a disconnected run with no arrivals sends nothing, and its queue is empty once a turn has run |
| ProcessorV2.AcksAppend | src/backend/processor_v2.rs:73-80 | the ACKs of two runs of commands are those of the first followed by those of the second |
| ProcessorV2.AcksInQueueOrder | src/backend/processor_v2.rs:46-51 | while connected, n command turns acknowledge the first n commands in queue order; the rest stay queued, followed by the arrivals |
| ProcessorV2.IntendedDisconnectedRunIsSilent | src/backend/processor_v2.rs:36-41 | with the drain as intended, a disconnected run sends nothing whatever arrives, and its queue holds at most the last arrival |
| ProcessorV2.IntendedAgreesWhileConnected | src/backend/processor_v2.rs:46-59 | the intended drain changes nothing while a client is attached |
| ProcessorV2.Processor.constructor | src/backend/processor_v2.rs:25-27 | the processor holds the given queue, sink, session and frame slot |
| ProcessorV2.Processor.SendAck | src/backend/processor_v2.rs:73-80 | appends the ACK for the tag if the sink is open, otherwise ignores the error |
| ProcessorV2.Processor.HandleCommand | src/backend/processor_v2.rs:68-71 | acknowledges the command by its tag |
| ProcessorV2.Processor.SendImageFrame | src/backend/processor_v2.rs:82-111 | does nothing for an empty frame; otherwise sends the encoded frame and sleeps 2 seconds |
| ProcessorV2.Processor.DiscardQueued | src/backend/processor_v2.rs:37-39 | `try_recv` until empty leaves the queue empty and the channel's flags as they were |
| ProcessorV2.Processor.OnTickArm | src/backend/processor_v2.rs:54-58 | the tick arm changes the shared objects and the last-send time as `OnTick` says |
| ProcessorV2.Processor.RunStep | src/backend/processor_v2.rs:33-64 | one turn of `run` changes the shared objects and the last-send time exactly as `Step` says: the drain, or the wait with its arrival followed by the command arm, the tick arm, the `else` arm, or continued waiting |
| ProcessorV2.Processor.Run | src/backend/processor_v2.rs:29-66 | starting with last-send time = now, a run of turns, arrivals included, changes the state as `RunSpec` says |
| Connect.FirstConnectIsFirst | src/backend/connect.rs:13-28 | the attempt found is the earliest within the budget whose URL parses and whose handshake succeeds; none is found iff no attempt succeeds |
| Connect.InvalidUrlNeverConnects | src/backend/connect.rs:16-24 | an unparsable URL fails every attempt; each is retried until the budget runs out |
| Connect.ConnectToBackendWithRetry | src/backend/connect.rs:8-31 | returns the first successful attempt, after one `delay_secs` pause per earlier attempt; otherwise fails with "Could not connect after N retries" after a pause per attempt, the last included |
| Connect.AttemptBudget | src/backend/connect.rs:13 | at most `max_retries` attempts; with 0 the call fails without an attempt |
| Connect.GiveUpExample | src/backend/connect.rs:30 | with a budget of 5, the error reads "Could not connect after 5 retries" and a bad URL always reaches it |

## Left out

- The YOLO detector, camera capture, JPEG encoding, frame sender, TLS connection set-up, process start-up and test programs: src/ai/yolo.rs, src/controllers/*, src/backend/connection.rs, src/real_main.rs, src/main.rs and the *_test.rs files are not part of this model. They are floating-point numerics, foreign libraries and I/O.
- Serial I/O is a script, not bytes. Three consequences:
  - a new `BufReader` per `read_line` can discard buffered bytes, which the model does not show;
  - a read ends at a line or at the timeout;
  - Handler.SerialHandler.Send: a write that fails after the message text but before the `"\n"` shows as no write at all.
- Handler.EspHandler.ReceiveMessage: it requires a parsable line or a read error. `unwrap` panics on a malformed line, and an unbounded read of a silent peer never returns.
- JSON text: `serde_json` serialisation, the key order of the emitted text, and decoding are not modelled. The outbox holds JSON values, and decoding is a parameter.
- Base64 (RFC 4648, section 4) is the parameter `encode`.
- Concurrency is not modelled as such: tasks, `select!` fairness, `RwLock`/`Mutex`, and what a cancelled token does to the camera task. Each loop turn is sequential; the environment may change the shared objects between `RunStep` calls.
- Processor.RunTaskProcessor: the loop sees only the flag as it stood at the start, plus what the loop itself stores. A flag raised by the listener during the run is not modelled.
- Processor.RunTaskProcessor: the loop ends when the queue is empty, which stands for closed. Waiting on an open, empty queue is not modelled.
- The simulated-work sleeps of the first processor are not modelled.
- ProcessorV2.Step: the phase of the 500 ms interval is folded into the event's waiting time; at most one command arrives per turn.
- ProcessorV2.Step: a command sent while the drain loop runs is queued after it; the source's `try_recv` may discard it instead.
- ProcessorV2.Step: a disconnected wait on an open, empty queue in which nothing arrives is a turn that only advances the clock. The source is still in the same `recv`; the two differ only if `connected` changes meanwhile, and no code sets it.
- Queue capacity: a full bounded mpsc channel makes senders wait; the model's queue is unbounded.
- Connect.ConnectToBackendWithRetry: the websocket stream it returns is represented by the number of the attempt that opened it. Sleeping is counted, not performed.
- Console output (`println!`/`eprintln!`) is not modelled.

## Findings

| source | as written | input that shows it | evidently intended | confidence | as-written member | corrected member |
|---|---|---|---|---|---|---|
| src/esp32/message.rs:23-30 | guards on 3 parts, then reads `parts[3]`; assigns `motor` twice and never sets `direction` | `MOVE:1:FWD:50` is rejected; `MOVE:1:FWD` passes the guard and indexes past the end | accept exactly 4 parts: cmd, motor, direction, steps | not executed | Message.AsWrittenCounterexample | Message.RoundTrip |
| src/backend/processor_v2.rs:36-51 | drains only a backlog found at the top of the loop; with an empty queue it waits in `recv` and handles what arrives | `connected` false, empty queue, a `MOVE` command arrives: `{"status":"ACK","command":"MOVE"}` is sent with no client attached | while disconnected, discard every command silently until a new session (the comment at lines 38-40) | not executed | ProcessorV2.DisconnectedArrivalIsAcked | ProcessorV2.IntendedDisconnectedRunIsSilent |
