# monoberry-tester station workflow, modelled in Dafny

monoberry-tester is a production-line test station for a single-board computer.
An operator presses START. The station then:

1. opens the board's UART;
2. reads two data-matrix (QR) codes from a USB barcode scanner, which types like a keyboard;
3. asks a code server for the board's serial number and MAC addresses;
4. waits for the first serial line once the cables are connected;
5. waits for the u-boot prompt.

Each step is reported to the UI twice: as a state change, and as a verdict for one checkpoint (T0 to T4).

This project models that sequencer and the small pieces of logic it relies on:

- `workflow.dfy` (module `Workflow`): class `Workflow` of `monoberrytester/workflow.py`.
  - There is one method per operation (`Start`, `Reset`, `KeyPressed`, the step methods) and one per asynchronous outcome (the `Handle…` methods).
  - The fields are those of the source: `state`, `scannedCodes`, `serialNum` and `macAddresses`.
  - Emitted signals are appended to `events`, and logger calls to `logs`.
  - The two Qt threads are `…ThreadRunning` flags.
  - Registrations with the serial controller are appended to `waiters`.
- `prototype.dfy` (module `Prototype`): the earlier single-file station of `monoberrytester.py`.
  - It has no checkpoint verdicts and no u-boot step.
  - Its reset keeps the serial number and the MACs.
  - Its start raises from any state other than IDLE.
  - Its HTTP client only logs errors.
- `services.dfy` (module `Services`): the scanner key buffer (`ScannerService`) and the server client (`ServerClient`) of `monoberrytester/services.py`.
  - `Feed` is the fold of the key buffer over a stream of key presses.
  - `RequestUrl` is the query URL.
  - `Classify` maps an HTTP reply or an exception to the signal emitted.
- `code_server.dfy` (module `CodeServer`): the openhtf plug's parse `serial, *macs = text.split()`.
- `pystr.dfy` (module `PyStr`): Python's `str.split()` with no separator, over the characters `str.isspace()` accepts, with its algebra (`Split` of a join gives the words back; surrounding whitespace adds no token).
- `workflow_scenarios.dfy` and `prototype_scenarios.dfy`: whole runs of both stations, proved event by event.
- `common.dfy`: `Option`, and the Python exceptions a handler can raise.

How the model represents what the source does:

- A Python exception raised inside a handler is an out-parameter `raised: Option<PyError>`. Examples are `r[0]` of an empty split, or `codes[1]` in `set_codes` with fewer than two codes. The fields are left as they were at the point of the raise.
- A `state_changed` event carries the state that was set, because the UI slot reads `workflow.state` synchronously when it handles the signal.
- The environment is a parameter of the member that sees it:
  - a key press is a `(key, text)` pair;
  - a server reply is a `Services.Reply`;
  - a serial line or error message is a string.

Behaviour of the code worth knowing, which the model follows:

- `HandleSerialLineReceived` (workflow.py:225-230) emits the WAITING_FOR_UBOOT state change *before* the T3 SUCCEEDED verdict. This is the reverse of the verdict-then-state order that `scan_qr_codes`, `fetch_serial_and_macs` and `connect_cables` use (workflow.py:123-125, 131-133, 141-143).
- `HandleSerialErrorOccured` (workflow.py:216-223) moves to FAILED before it emits T0 FAILED.
- A non-200 reply only fails T2 and leaves the state unchanged (workflow.py:197-199). Unlike a server error (workflow.py:201-209), it does not move to FAILED.
- `reset()` of workflow.py stops the serial thread but not the server thread. A reply that arrives after a reset takes IDLE to CONNECTING_CABLES (`WorkflowScenarios.LateReplyAfterReset`).
- The prototype's `reset()` clears only the scanned codes (monoberrytester.py:200-202). It never stops the serial thread, whose run loops until an exception (monoberrytester.py:143-159). So after a reset that no serial failure preceded, such as the reset after DONE, `serial.start()` does nothing: no `connected` arrives and the station waits in CONNECTING_TO_UART (`PrototypeScenarios.RestartAfterDone`).
- The prototype client's request has no timeout (monoberrytester.py:119). While it still runs, `server_client.start()` of a later run does nothing, and its late reply is handled as the reply for the later board.
- `reset()` (workflow.py:91-102) never clears `ScannerService.buffer` (services.py:63-71). Text typed before a failure prefixes the first code of the next run (`WorkflowScenarios.BufferSurvivesReset`).

## Model

| member | source | states |
|---|---|---|
| PyStr.Split | monoberrytester/htf/code_server.py:15 | `text.split()`, also used at monoberrytester/workflow.py:193 and monoberrytester.py:269: every token is a non-empty run of non-whitespace, and there is no token exactly when the text is all whitespace (or empty) |
| PyStr.SplitAroundSpaces | monoberrytester/htf/code_server.py:15 | a run of whitespace of any length separates tokens: splitting `a + ws + b` gives the tokens of `a` followed by those of `b` |
| PyStr.SplitFromShift | monoberrytester/htf/code_server.py:15 | scanning `x + y` from a position inside `y` finds exactly the tokens of `y` from that position: a prefix cannot reach past its end |
| PyStr.SplitFromPrefix | monoberrytester/htf/code_server.py:15 | when what follows `a` starts with whitespace, scanning `a + y` finds the tokens of `a` and then those after `a`: no token straddles the boundary |
| PyStr.SplitAfterSpaces | monoberrytester/htf/code_server.py:15 | leading whitespace yields no empty token |
| PyStr.SplitBeforeSpaces | monoberrytester/htf/code_server.py:15 | trailing whitespace yields no empty token |
| PyStr.SplitWord | monoberrytester/htf/code_server.py:15 | a single whitespace-free token splits to itself |
| PyStr.SplitJoin | monoberrytester/htf/code_server.py:15 | whitespace-free words joined by any non-empty whitespace separator split back to exactly those words, in order |
| CodeServer.GetSerialNumberAndMacs | monoberrytester/htf/code_server.py:15-16 | the unpacking succeeds exactly when the body has a non-whitespace character; then `[serial] + macs` is the body's token list, so there is one MAC fewer than tokens, and all are whitespace-free; otherwise it fails |
| CodeServer.ParseJoined | monoberrytester/htf/code_server.py:15-16 | a serial and MACs joined by whitespace parse back to that serial and those MACs |
| CodeServer.TestServerReply | monoberrytester/services.py:82 | a sample body in the plug's format, the newline-separated body of the Qt client's local `/getserial` test server (with a final newline), parses to serial `S3R14LNUM83R` and five MACs, the count the openhtf phase of monoberrytester/htf/main.py:20 measures |
| Services.ScannerService.constructor | monoberrytester/services.py:61-63 | a new scanner starts with an empty buffer |
| Services.Feed | monoberrytester/services.py:65-71 | repeated `handle_input` over a stream of key presses, as a fold from a given buffer; each code emitted needs a key press of its own (the exact count, contents and leftover buffer are the `Feed…` lemmas below) |
| Services.ScannerService.HandleInput | monoberrytester/services.py:65-71 | Return or Enter emits the buffer, even when it is empty, and sets it to ""; any other key appends its text when that text is non-empty and leaves the buffer alone when it is empty; the step agrees with `Feed` on one key; the prototype scanner (monoberrytester.py:96-101) has the same body |
| Services.FeedAppend | monoberrytester/services.py:65-71 | feeding two key streams one after the other is feeding their concatenation: codes concatenate, the buffer carries over |
| Services.FeedWithoutTerminator | monoberrytester/services.py:70-71 | keys without Return or Enter emit nothing and the buffer becomes the old buffer followed by every typed text |
| Services.FeedCount | monoberrytester/services.py:67-69 | exactly one code is emitted per Return or Enter |
| Services.FeedSegments | monoberrytester/services.py:65-71 | from an empty buffer, for segments without Return or Enter joined by Return or Enter presses (either key, any text, mixed freely), the i-th code is the text of the i-th segment, in order; back-to-back terminators give ""; the text of the last segment stays buffered |
| Services.SplitAtTerminators | monoberrytester/services.py:67 | every key stream is its terminator-free segments joined by its own Return/Enter presses |
| Services.FeedEveryStream | monoberrytester/services.py:65-71 | for every key stream fed from an empty buffer, the codes are exactly the texts typed between consecutive terminators, in order, and the text after the last terminator stays buffered |
| Services.ServerClient.SetCodes | monoberrytester/services.py:96-101 | `qr1` and `qr2` become the first two codes and any further codes are ignored; with fewer than two, IndexError is raised, after `qr1` was set when there is one code; the prototype's `set_codes` (monoberrytester.py:112-114) has the same body |
| Services.RequestUrl | monoberrytester/services.py:105 | the URL is the endpoint, then `/getserial?qr1=`, the first code, `&qr2=` and the second code, each piece verbatim, with nothing escaped |
| Services.ServerClient.constructor | monoberrytester/services.py:89-94 | a new client keeps its endpoint and has neither code set |
| Services.UrlDeterminesCodes | monoberrytester/services.py:105 | when the first code has no '&', equal request URLs mean equal code pairs |
| Services.UrlNotEscaped | monoberrytester/services.py:105 | nothing is escaped: the pairs ("A&qr2=B", "C") and ("A", "B&qr2=C") produce the same URL |
| Services.Classify | monoberrytester/services.py:107-114 | a response becomes `response_received`, with success exactly when the status is 200, and keeps the body text; a RequestException becomes `error_occured` with its message; any other exception is not signalled |
| Services.ServerClient.Run | monoberrytester/services.py:103-114 | a request is made exactly when both codes are set (otherwise the concatenation raises TypeError first); it is `GET endpoint/getserial?qr1=…&qr2=…` with a 10 s timeout; the signal is `Classify` of the reply; the message is logged exactly for a RequestException |
| Workflow.Workflow.constructor | monoberrytester/workflow.py:59-89 | IDLE, no codes, serial or MACs, nothing emitted, logged or registered, both threads stopped |
| Workflow.Workflow.Reset | monoberrytester/workflow.py:91-102 | from any state: IDLE, codes and MACs empty, serial unset, serial thread stopped, the log line and a log re-init, one IDLE state change; a second reset therefore leaves these fields as they are |
| Workflow.Workflow.Start | monoberrytester/workflow.py:104-111 | outside IDLE it only logs the wrong-state line: no field changes and nothing is emitted; from IDLE it emits STARTED, CONNECTING_TO_UART and T0 RUNNING, and starts the serial thread |
| Workflow.Workflow.ConnectToUart | monoberrytester/workflow.py:113-117 | CONNECTING_TO_UART, then T0 RUNNING; the serial thread runs |
| Workflow.Workflow.ScanQrCodes | monoberrytester/workflow.py:119-125 | T0 SUCCEEDED, SCANNING_QR_CODES, T1 RUNNING |
| Workflow.Workflow.FetchSerialAndMacs | monoberrytester/workflow.py:127-137 | T1 SUCCEEDED, FETCHING_SERIAL_AND_MACS, T2 RUNNING; the client gets the first two codes (IndexError with fewer); the server thread is started unless it is already running or the hand-over raised |
| Workflow.Workflow.ConnectCables | monoberrytester/workflow.py:139-144 | T2 SUCCEEDED, CONNECTING_CABLES, T3 RUNNING, and a waiter for any line (the empty substring) calling back the line handler |
| Workflow.Workflow.WaitForUboot | monoberrytester/workflow.py:146-150 | T3 SUCCEEDED and T4 RUNNING, with a waiter for "stop autoboot" that sends "STOP!\r\n" and calls back `done` registered between them; the state and invariant are kept |
| Workflow.Workflow.Done | monoberrytester/workflow.py:152-157 | T4 SUCCEEDED, DONE, then the done log line |
| Workflow.Workflow.KeyPressed | monoberrytester/workflow.py:159-163 | outside SCANNING_QR_CODES nothing at all changes, the scanner included; while scanning, a non-terminator key only grows the scanner buffer, and Return/Enter empties it and hands the buffered code to the scanned-code handler |
| Workflow.Workflow.ChangeState | monoberrytester/workflow.py:165-170 | every change of state is followed by exactly one `state_changed` with its message dictionary; the invariant is kept, except that entering IDLE needs the serial thread stopped first |
| Workflow.Workflow.HandleCodeScanned | monoberrytester/workflow.py:172-184 | the code is appended in arrival order and the whole list is emitted; the first code changes nothing else; the second emits T1 SUCCEEDED, FETCHING_SERIAL_AND_MACS, T2 RUNNING and gives codes[0] and codes[1] to the client; a third or later code logs an error and emits T1 FAILED, with no state change |
| Workflow.Workflow.HandleServerResponse | monoberrytester/workflow.py:186-199 | the server thread stops; on success the serial is the first token and the MACs are the rest (so they agree with `CodeServer.GetSerialNumberAndMacs`), followed by T2 SUCCEEDED, CONNECTING_CABLES, T3 RUNNING and the empty-substring waiter; a body without a token raises IndexError after logging; a failure reply only emits T2 FAILED and keeps the state |
| Workflow.Workflow.HandleServerError | monoberrytester/workflow.py:201-209 | the server thread stops; T2 FAILED is emitted before FAILED with the server status and the error message |
| Workflow.Workflow.HandleSerialConnected | monoberrytester/workflow.py:211-214 | logs the connection and moves on to scanning, with T0 SUCCEEDED, SCANNING_QR_CODES, T1 RUNNING |
| Workflow.Workflow.HandleSerialErrorOccured | monoberrytester/workflow.py:216-223 | logs the error, moves to FAILED with the UART status and the message, then emits T0 FAILED |
| Workflow.Workflow.HandleSerialLineReceived | monoberrytester/workflow.py:225-230 | outside CONNECTING_CABLES nothing changes; otherwise WAITING_FOR_UBOOT, then T3 SUCCEEDED, the u-boot waiter and T4 RUNNING |
| Workflow.Workflow.LogSerial | monoberrytester/workflow.py:232-233 | every serial line is logged as `"S> " + line` with display flag False, and nothing else changes |
| WorkflowScenarios.StartAndScan | monoberrytester/workflow.py:104-137 | start, UART connected, "QR1" and "QR2" scanned: FETCHING_SERIAL_AND_MACS with the codes handed to the client, both threads running, and the eleven events in order |
| WorkflowScenarios.PassingRun | monoberrytester/workflow.py:104-157 | a passing board ends in DONE with its serial and MACs, after exactly the nineteen events in order, with the two waiters registered |
| WorkflowScenarios.TypingACode | monoberrytester/workflow.py:159-163 | keys typed before the UART connects do not reach the scanner; "QR1" typed and ended by Enter while scanning becomes the first scanned code and is emitted |
| WorkflowScenarios.TypedBeforeFailure | monoberrytester/workflow.py:159-163 | a key typed while scanning stays in the scanner buffer when the UART then fails, and the station is FAILED |
| WorkflowScenarios.BufferSurvivesReset | monoberrytester/workflow.py:91-102 | reset does not clear the scanner buffer: "Q" typed before a UART failure survives the reset, and "X" plus Enter in the next run gives the first code "QX" |
| WorkflowScenarios.RetryAfterUartFailure | monoberrytester/workflow.py:216-223 | after a UART failure start is refused, and after a reset start is accepted again |
| WorkflowScenarios.LateReplyAfterReset | monoberrytester/workflow.py:186-196 | a reset keeps the server thread running, and a reply that arrives afterwards takes IDLE to CONNECTING_CABLES with that reply's serial |
| Prototype.ClientRun | monoberrytester.py:116-125 | a request is made exactly when both codes were set (otherwise AttributeError first); it has no timeout; only a response is signalled, with success exactly when the status is 200; every exception is logged and nothing is emitted for it |
| Prototype.ClientRunsCompared | monoberrytester.py:116-125 | the prototype and final clients send the same URL and signal a response alike; a RequestException is signalled only by the final client; any other exception is logged only by the prototype |
| Prototype.Workflow.constructor | monoberrytester.py:171-197 | IDLE with no codes, serial or MACs; nothing emitted or logged; no thread started |
| Prototype.Workflow.Reset | monoberrytester.py:200-202 | IDLE with the codes cleared and one state change; the serial and the MACs are left as they were |
| Prototype.Workflow.Start | monoberrytester.py:205-211 | outside IDLE it raises AttributeError (the log text it names does not exist) and changes nothing; from IDLE it emits STARTED and CONNECTING_TO_UART and calls `serial.start()`, which begins a new serial run only when the serial thread is not still running |
| Prototype.Workflow.ConnectToUart | monoberrytester.py:214-216 | CONNECTING_TO_UART; the serial thread is running afterwards, and its run count grows by one exactly when it was not running before (a start of a running thread does nothing) |
| Prototype.Workflow.ScanQrCodes | monoberrytester.py:219-221 | SCANNING_QR_CODES |
| Prototype.Workflow.FetchSerialAndMacs | monoberrytester.py:225-228 | FETCHING_SERIAL_AND_MACS; the client gets the first two codes (IndexError with fewer) and its thread is started unless the hand-over raised; a new request run begins exactly when no earlier request thread is still running |
| Prototype.Workflow.ConnectCables | monoberrytester.py:231-233 | CONNECTING_CABLES |
| Prototype.Workflow.Done | monoberrytester.py:237-239 | DONE, then the done log line |
| Prototype.Workflow.KeyPressed | monoberrytester.py:243-245 | outside SCANNING_QR_CODES nothing changes; while scanning, keys go to the scanner and a completed code to the scanned-code handler |
| Prototype.Workflow.ChangeState | monoberrytester.py:248-250 | every change of state is followed by one `state_changed` with its message dictionary |
| Prototype.Workflow.HandleScannedCodes | monoberrytester.py:253-263 | the code is appended in arrival order and the list is emitted; the second code moves to FETCHING_SERIAL_AND_MACS and hands codes[0] and codes[1] to the client; a third or later code only logs an error, with no state change |
| Prototype.Workflow.HandleServerResponse | monoberrytester.py:266-274 | on success, the serial is the first token, the MACs are the rest and the state is CONNECTING_CABLES (IndexError for a body without a token); a failure reply is only logged and the state is kept |
| Prototype.Workflow.HandleSerialConnected | monoberrytester.py:276-278 | logs the connection and moves to SCANNING_QR_CODES |
| Prototype.Workflow.HandleSerialFailed | monoberrytester.py:280-285 | logs the error and moves to FAILED with status "Connection to UART failed!" and the error message, from any state |
| Prototype.Workflow.SerialRunEnded | monoberrytester.py:143-159 | the serial thread's run has returned (after an exception, `failed` and `stop()`), so the thread is no longer running |
| Prototype.Workflow.ClientRunEnded | monoberrytester.py:116-125 | the client thread's run has returned after signalling or logging, so the thread is no longer running |
| Prototype.Workflow.HandleSerialReceivedData | monoberrytester.py:287-290 | moves CONNECTING_CABLES straight to DONE (without the done log line); ignored in every other state |
| PrototypeScenarios.StartAndScan | monoberrytester.py:205-263 | start, UART connected, "QR1" and "QR2" scanned: FETCHING_SERIAL_AND_MACS with the codes handed to the client and the six events in order |
| PrototypeScenarios.RequestErrorLeavesFetching | monoberrytester.py:118-125 | a request exception emits nothing, so the station stays in FETCHING_SERIAL_AND_MACS; the scanned-code handler called a third time only logs an error |
| PrototypeScenarios.PassingRun | monoberrytester.py:266-290 | a reply parsed into a serial and a MAC, then serial data, ends the run in DONE |
| PrototypeScenarios.RetryKeepsSerial | monoberrytester.py:200-211 | after a UART failure start raises AttributeError; reset reaches IDLE with no codes but with the old serial and MACs, and start is accepted again; the failed serial thread having ended, the restart begins a second serial run |
| PrototypeScenarios.RestartAfterDone | monoberrytester.py:200-216 | after a passing run, reset and start reach CONNECTING_TO_UART, but the first run's serial thread is still running, so no second serial run begins and no `connected` can follow |

## Left out

- The serial services (`SerialService` in monoberrytester/services.py and in monoberrytester.py) are left out: the pyserial read loop, `msleep` and the thread. Only their outcomes are modelled, as calls of the handlers.
- The Qt thread plumbing (`moveToThread`, `start`, `quit`, `wait`) is modelled as running flags. The prototype also counts how often each thread's run has begun, and a start of a running thread adds nothing. The end of a prototype thread's run is its own event (`SerialRunEnded`, `ClientRunEnded`). Their timing against the handlers is not modelled. Signal delivery across threads and event-loop ordering are not modelled; each signal is handled at once, in emission order.
- `LoggingService` (log file names from the clock, `logging.basicConfig`) is modelled only as the `logs` sequence. The texts of workflow.py's log lines are constants of a `texts` module that is not part of this model, so they are named by `LogMsg` constructors.
- `requests.get` is foreign HTTP. Its result is the `reply` parameter of `Run` and `ClientRun`.
- The code server's HTTP call in code_server.py, which sends URL-encoded `params`, is left out. Only the split of the reply is modelled.
- The `SerialController` is not part of this model, so its matching of waiters against serial lines is left out. Registrations are recorded in `waiters`, where `Reset` leaves them, since the source never clears them. Callbacks are the `OnSerialLineReceived` and `OnDone` tags.
- `server_client.send_qrs()` (workflow.py:135) is not defined by the `ServerClient` of services.py and is not modelled. `FetchSerialAndMacs` goes straight from `set_codes` to starting the thread.
- Two logger calls of workflow.py assume a later logger than the `LoggingService` of services.py:17-50. With that class as shown, both raise. The model records them as log entries and does not raise:
  - `self.logger.reinit()` (workflow.py:97): there is no `reinit`, so `reset()` would raise AttributeError before `serial.stop()` and before the change to IDLE. `Reset` records a `Reinit` entry.
  - `self.logger.info("S> " + data, False)` (workflow.py:233): `info` takes one argument, so the call would raise TypeError. `LogSerial` records `InfoWithFlag(…, false)`. No source file says what the flag means.
- Emitted signals (`events`) and logger calls (`logs`) are two separate sequences, so the order between a log line and a signal is not modelled. An example is workflow.py:175-181, which logs between emits. The order within each sequence is modelled.
- The UI, `Main`, `Texts` and `Styles` (monoberrytester/ui.py, monoberrytester/main.py, monoberrytester/styles.py and the UI part of monoberrytester.py) are widget wiring. Only the `TestState` and checkpoint enums are used, as datatypes.
- monoberrytester/htf/main.py (openhtf phases, temporary files, file polling with `time.sleep`) is left out, except for its expected MAC count in `CodeServer.TestServerReply`.
- Cross-version mismatches are not reconciled; workflow.py is modelled as written. Examples:
  - the checkpoint names;
  - `error_occurred`/`line_received` against `failed`/`received_data`;
  - the constructor arity used in main.py.
- The scanned-code list emitted by `code_scanned` is, in Python, the same list object that later appends mutate. The model emits the list's value at the time of emission.
- What PyQt does after a slot raises is not modelled. The model returns the exception and keeps the state as it was at the raise.
- Workflow.Workflow.Start: the wrong-state log line is `WrongStateToStartFrom(state)`. The spelling of the f-string is not modelled.
- WorkflowScenarios.PassingRun, WorkflowScenarios.LateReplyAfterReset, PrototypeScenarios.PassingRun, PrototypeScenarios.RetryKeepsSerial and PrototypeScenarios.RestartAfterDone take the reply body as a parameter, constrained by its split. The lemmas `WorkflowScenarios.SplitPassingReply` and `WorkflowScenarios.SplitLateReply` show that "SNX MACA MACB" and "SN1 MAC1" meet that constraint.
