/**
 * The test-station sequencer of monoberrytester/workflow.py. Every collaborator
 * outcome (a scanned code, a server reply or error, the serial link connecting
 * or failing, a serial waiter firing) is one method call; what the class emits
 * to the UI is appended to `events`, what it logs to `logs`.
 */
module Workflow {
  import opened Common
  import PyStr
  import Services
  import CodeServer

  datatype State =
    | Idle | Started | ConnectingToUart | ScanningQrCodes | FetchingSerialAndMacs
    | ConnectingCables | WaitingForUboot | Done | Failed

  /** The checkpoints workflow.py reports on. */
  datatype TestKey =
    | T0ConnToUart | T1ScanTwoDmQrCodes | T2FetchSerialAndMacs | T3ReceiveDataViaUart | T4ReceiveUbootPrompt

  /** The verdict of one checkpoint (monoberrytester/ui.py). */
  datatype TestState = Pending | Running | Failed | Succeeded

  /** The two status texts a failure carries. */
  datatype Status = ConnToServerFailed | StatusConnToUartFailed

  /** The dictionary passed with `state_changed`: empty, or `{status, err_msg}`. */
  datatype Msgs = NoMsgs | FailureMsgs(status: Status, errMsg: string)

  /** The three signals: `state_changed`, `code_scanned` and `test_state_changed`. */
  datatype Event =
    | StateChanged(state: State, msgs: Msgs)
    | CodeScanned(codes: seq<string>)
    | TestStateChanged(key: TestKey, verdict: TestState)

  /** What is logged; the texts themselves are constants of a module that is not part of this model. */
  datatype LogMsg =
    | Resetting
    | WrongStateToStartFrom(from: State)
    | FirstCodeScanned(code: string)
    | SecondCodeScanned(code: string)
    | MoreThan2QrScanned
    | ServerResponse(response: string)
    | ServerError(response: string)
    | UartConnected
    | UartFailed(errMsg: string)
    | UartDataReceived
    | InfoDone
    | SerialOutput(line: string)   // "S> " + line

  /**
   * A logger call: `info(text)`, `info(text, flag)`, `error(text)` or
   * `reinit()`. The last two forms are calls of a logger with a wider
   * interface than the `LoggingService` of services.py, whose methods are only
   * `info(text)` and `error(text)`; their effect is not modelled beyond the call.
   */
  datatype LogEntry = Info(msg: LogMsg) | InfoWithFlag(msg: LogMsg, flag: bool) | Error(msg: LogMsg) | Reinit

  /** The workflow methods a serial waiter calls back. */
  datatype Callback = OnSerialLineReceived | OnDone

  /** A registration with the serial controller: wait for a substring, optionally answer it. */
  datatype Waiter =
    | WaitFor(substring: string, callback: Callback)
    | WaitForAndSend(substring: string, send: string, callback: Callback)

  class Workflow {
    var state: State
    var scannedCodes: seq<string>
    var macAddresses: seq<string>
    var serialNum: Option<string>
    /** Everything emitted to the UI, oldest first. */
    var events: seq<Event>
    var logs: seq<LogEntry>
    /** Whether `serial_thread` / `server_thread` is running. */
    var serialThreadRunning: bool
    var serverThreadRunning: bool
    /** Every registration made with the serial controller, oldest first. */
    var waiters: seq<Waiter>
    const scanner: Services.ScannerService
    const serverClient: Services.ServerClient

    /**
     * The serial number and the MACs are set together from one server reply,
     * so both are whitespace-free tokens; the station is idle only with the
     * serial thread stopped.
     */
    ghost predicate Valid()
      reads this
    {
      && (serialNum.None? ==> macAddresses == [])
      && (serialNum.Some? ==> PyStr.IsWord(serialNum.value))
      && (forall i :: 0 <= i < |macAddresses| ==> PyStr.IsWord(macAddresses[i]))
      && (state == Idle ==> !serialThreadRunning)
    }

    constructor (scanner: Services.ScannerService, serverClient: Services.ServerClient)
      ensures Valid()
      ensures this.scanner == scanner && this.serverClient == serverClient
      ensures state == Idle && scannedCodes == [] && macAddresses == [] && serialNum == None
      ensures events == [] && logs == [] && waiters == []
      ensures !serialThreadRunning && !serverThreadRunning
    {
      this.scanner := scanner;
      this.serverClient := serverClient;
      state := Idle;
      scannedCodes, macAddresses, serialNum := [], [], None;
      events, logs, waiters := [], [], [];
      serialThreadRunning, serverThreadRunning := false, false;
    }

    /** Back to IDLE for a retry: clears the run's data and stops the serial thread, from any state. */
    method Reset()
      modifies this`state, this`scannedCodes, this`macAddresses, this`serialNum, this`events, this`logs,
               this`serialThreadRunning
      ensures Valid()
      ensures state == Idle && scannedCodes == [] && macAddresses == [] && serialNum == None
      ensures !serialThreadRunning
      ensures logs == old(logs) + [Info(Resetting), Reinit]
      ensures events == old(events) + [StateChanged(Idle, NoMsgs)]
    {
      logs := logs + [Info(Resetting)];
      scannedCodes := [];
      macAddresses := [];
      serialNum := None;
      logs := logs + [Reinit];
      serialThreadRunning := false;  // serial.stop(), then quit and wait for the thread
      ChangeState(Idle, NoMsgs);
    }

    /** Only IDLE can start a run; from any other state start only logs. */
    method Start()
      requires Valid()
      modifies this`state, this`events, this`logs, this`serialThreadRunning
      ensures Valid()
      ensures old(state) != Idle ==>
                && state == old(state) && events == old(events)
                && serialThreadRunning == old(serialThreadRunning)
                && logs == old(logs) + [Info(WrongStateToStartFrom(old(state)))]
      ensures old(state) == Idle ==>
                && state == ConnectingToUart && serialThreadRunning && logs == old(logs)
                && events == old(events) + [StateChanged(Started, NoMsgs), StateChanged(ConnectingToUart, NoMsgs),
                                            TestStateChanged(T0ConnToUart, Running)]
    {
      if state != Idle {
        logs := logs + [Info(WrongStateToStartFrom(state))];
        return;
      }
      ChangeState(Started, NoMsgs);
      ConnectToUart();
    }

    method ConnectToUart()
      requires Valid()
      modifies this`state, this`events, this`serialThreadRunning
      ensures Valid()
      ensures state == ConnectingToUart && serialThreadRunning
      ensures events == old(events) + [StateChanged(ConnectingToUart, NoMsgs), TestStateChanged(T0ConnToUart, Running)]
    {
      ChangeState(ConnectingToUart, NoMsgs);
      events := events + [TestStateChanged(T0ConnToUart, Running)];
      serialThreadRunning := true;
    }

    method ScanQrCodes()
      requires Valid()
      modifies this`state, this`events
      ensures Valid()
      ensures state == ScanningQrCodes
      ensures events == old(events) + [TestStateChanged(T0ConnToUart, Succeeded), StateChanged(ScanningQrCodes, NoMsgs),
                                       TestStateChanged(T1ScanTwoDmQrCodes, Running)]
    {
      events := events + [TestStateChanged(T0ConnToUart, Succeeded)];
      ChangeState(ScanningQrCodes, NoMsgs);
      events := events + [TestStateChanged(T1ScanTwoDmQrCodes, Running)];
    }

    /**
     * Hands the first two scanned codes to the server client and starts the
     * server thread unless it is running; with fewer than two codes the hand-over
     * raises IndexError and the thread is not started.
     */
    method FetchSerialAndMacs() returns (raised: Option<PyError>)
      requires Valid()
      modifies this`state, this`events, this`serverThreadRunning, serverClient
      ensures Valid()
      ensures state == FetchingSerialAndMacs
      ensures events == old(events) + [TestStateChanged(T1ScanTwoDmQrCodes, Succeeded),
                                       StateChanged(FetchingSerialAndMacs, NoMsgs),
                                       TestStateChanged(T2FetchSerialAndMacs, Running)]
      ensures raised == if |scannedCodes| < 2 then Some(IndexError) else None
      ensures serverClient.qr1 == if |scannedCodes| >= 1 then Some(scannedCodes[0]) else old(serverClient.qr1)
      ensures serverClient.qr2 == if |scannedCodes| >= 2 then Some(scannedCodes[1]) else old(serverClient.qr2)
      ensures serverThreadRunning == (old(serverThreadRunning) || raised.None?)
    {
      events := events + [TestStateChanged(T1ScanTwoDmQrCodes, Succeeded)];
      ChangeState(FetchingSerialAndMacs, NoMsgs);
      events := events + [TestStateChanged(T2FetchSerialAndMacs, Running)];
      raised := serverClient.SetCodes(scannedCodes);
      if raised.Some? {
        return;
      }
      if !serverThreadRunning {
        serverThreadRunning := true;
      }
    }

    /** Asks for the remaining cables and waits for the first serial line (an empty substring matches any line). */
    method ConnectCables()
      requires Valid()
      modifies this`state, this`events, this`waiters
      ensures Valid()
      ensures state == ConnectingCables
      ensures events == old(events) + [TestStateChanged(T2FetchSerialAndMacs, Succeeded),
                                       StateChanged(ConnectingCables, NoMsgs),
                                       TestStateChanged(T3ReceiveDataViaUart, Running)]
      ensures waiters == old(waiters) + [WaitFor("", OnSerialLineReceived)]
    {
      events := events + [TestStateChanged(T2FetchSerialAndMacs, Succeeded)];
      ChangeState(ConnectingCables, NoMsgs);
      events := events + [TestStateChanged(T3ReceiveDataViaUart, Running)];
      waiters := waiters + [WaitFor("", OnSerialLineReceived)];
    }

    /** Waits for the u-boot banner and answers it to stop autoboot; the state is not changed here. */
    method WaitForUboot()
      requires Valid()
      modifies this`events, this`waiters
      ensures Valid()
      ensures events == old(events) + [TestStateChanged(T3ReceiveDataViaUart, Succeeded),
                                       TestStateChanged(T4ReceiveUbootPrompt, Running)]
      ensures waiters == old(waiters) + [WaitForAndSend("stop autoboot", "STOP!\r\n", OnDone)]
    {
      events := events + [TestStateChanged(T3ReceiveDataViaUart, Succeeded)];
      waiters := waiters + [WaitForAndSend("stop autoboot", "STOP!\r\n", OnDone)];
      events := events + [TestStateChanged(T4ReceiveUbootPrompt, Running)];
    }

    /** The u-boot prompt arrived: the last checkpoint succeeded and the run is done. */
    method Done()
      requires Valid()
      modifies this`state, this`events, this`logs
      ensures Valid()
      ensures state == State.Done
      ensures events == old(events) + [TestStateChanged(T4ReceiveUbootPrompt, Succeeded), StateChanged(State.Done, NoMsgs)]
      ensures logs == old(logs) + [Info(InfoDone)]
    {
      events := events + [TestStateChanged(T4ReceiveUbootPrompt, Succeeded)];
      ChangeState(State.Done, NoMsgs);
      logs := logs + [Info(InfoDone)];
    }

    /** Key presses reach the scanner only while scanning QR codes; a completed code is handled at once. */
    method KeyPressed(key: int, text: string)
      requires Valid()
      modifies this`state, this`scannedCodes, this`events, this`logs, this`serverThreadRunning, scanner, serverClient
      ensures Valid()
      ensures old(state) != ScanningQrCodes ==> unchanged(this, scanner, serverClient)
      ensures old(state) == ScanningQrCodes && !Services.IsTerminator(key) ==>
                && unchanged(this, serverClient)
                && scanner.buffer == if text != "" then old(scanner.buffer) + text else old(scanner.buffer)
      ensures old(state) == ScanningQrCodes && Services.IsTerminator(key) ==>
                scanner.buffer == "" && ScannedCodeHandled(old(scanner.buffer))
    {
      if state == ScanningQrCodes {
        var code := scanner.HandleInput(key, text);
        if code.Some? {
          HandleCodeScanned(code.value);
        }
      }
    }

    /**
     * `state_changed` is emitted on every change of state. Entering IDLE keeps
     * the invariant only once the serial thread has stopped, as `Reset` does.
     */
    method ChangeState(s: State, msgs: Msgs)
      modifies this`state, this`events
      ensures state == s && events == old(events) + [StateChanged(s, msgs)]
      ensures old(Valid()) && (s == Idle ==> !serialThreadRunning) ==> Valid()
    {
      state := s;
      events := events + [StateChanged(s, msgs)];
    }

    /**
     * A scanned code is appended in arrival order and the list is emitted. The
     * first code changes nothing else; the second moves on to fetching the
     * serial and MACs with both codes; any further code fails the scan
     * checkpoint, without a change of state.
     */
    twostate predicate ScannedCodeHandled(code: string)
      reads this, serverClient
    {
      var codes := old(scannedCodes) + [code];
      && scannedCodes == codes
      && if |codes| == 1 then
           && state == old(state) && serverThreadRunning == old(serverThreadRunning)
           && serverClient.qr1 == old(serverClient.qr1) && serverClient.qr2 == old(serverClient.qr2)
           && events == old(events) + [CodeScanned(codes)]
           && logs == old(logs) + [Info(FirstCodeScanned(code))]
         else if |codes| == 2 then
           && state == FetchingSerialAndMacs && serverThreadRunning
           && serverClient.qr1 == Some(codes[0]) && serverClient.qr2 == Some(codes[1])
           && events == old(events) + [CodeScanned(codes), TestStateChanged(T1ScanTwoDmQrCodes, Succeeded),
                                       StateChanged(FetchingSerialAndMacs, NoMsgs),
                                       TestStateChanged(T2FetchSerialAndMacs, Running)]
           && logs == old(logs) + [Info(SecondCodeScanned(code))]
         else
           && state == old(state) && serverThreadRunning == old(serverThreadRunning)
           && serverClient.qr1 == old(serverClient.qr1) && serverClient.qr2 == old(serverClient.qr2)
           && events == old(events) + [CodeScanned(codes), TestStateChanged(T1ScanTwoDmQrCodes, TestState.Failed)]
           && logs == old(logs) + [Error(MoreThan2QrScanned)]
    }

    method HandleCodeScanned(code: string)
      requires Valid()
      modifies this`state, this`scannedCodes, this`events, this`logs, this`serverThreadRunning, serverClient
      ensures Valid()
      ensures ScannedCodeHandled(code)
    {
      scannedCodes := scannedCodes + [code];
      events := events + [CodeScanned(scannedCodes)];
      if |scannedCodes| == 1 {
        logs := logs + [Info(FirstCodeScanned(code))];
      } else if |scannedCodes| == 2 {
        logs := logs + [Info(SecondCodeScanned(code))];
        var _ := FetchSerialAndMacs();
      } else {
        logs := logs + [Error(MoreThan2QrScanned)];
        events := events + [TestStateChanged(T1ScanTwoDmQrCodes, TestState.Failed)];
      }
    }

    /**
     * A reply from the server. Success takes the first token of the reply as
     * the serial number and the rest as MACs, as the code server's parse does,
     * and moves on to connecting cables; a reply without any token makes the
     * indexing raise IndexError. A failure reply only fails the fetch
     * checkpoint and leaves the state as it is.
     */
    method HandleServerResponse(success: bool, response: string) returns (raised: Option<PyError>)
      requires Valid()
      modifies this`serverThreadRunning, this`logs, this`serialNum, this`macAddresses, this`state, this`events,
               this`waiters
      ensures Valid()
      ensures !serverThreadRunning
      ensures success ==> logs == old(logs) + [Info(ServerResponse(response))]
      ensures success && PyStr.AllSpace(response) ==>
                && raised == Some(IndexError)
                && CodeServer.GetSerialNumberAndMacs(response).NotEnoughValues?
                && state == old(state) && events == old(events) && waiters == old(waiters)
                && serialNum == old(serialNum) && macAddresses == old(macAddresses)
      ensures success && !PyStr.AllSpace(response) ==>
                && raised == None
                && serialNum.Some? && [serialNum.value] + macAddresses == PyStr.Split(response)
                && CodeServer.GetSerialNumberAndMacs(response)
                   == CodeServer.Parsed(CodeServer.SerialAndMacs(serialNum.value, macAddresses))
                && state == ConnectingCables
                && events == old(events) + [TestStateChanged(T2FetchSerialAndMacs, Succeeded),
                                            StateChanged(ConnectingCables, NoMsgs),
                                            TestStateChanged(T3ReceiveDataViaUart, Running)]
                && waiters == old(waiters) + [WaitFor("", OnSerialLineReceived)]
      ensures !success ==>
                && raised == None
                && logs == old(logs) + [Error(ServerError(response))]
                && events == old(events) + [TestStateChanged(T2FetchSerialAndMacs, TestState.Failed)]
                && state == old(state) && waiters == old(waiters)
                && serialNum == old(serialNum) && macAddresses == old(macAddresses)
    {
      serverThreadRunning := false;  // quit and wait for the server thread
      if success {
        logs := logs + [Info(ServerResponse(response))];
        var r := PyStr.Split(response);
        if |r| == 0 {
          return Some(IndexError);
        }
        serialNum := Some(r[0]);
        macAddresses := r[1..];
        assert [r[0]] + r[1..] == r;
        ConnectCables();
        raised := None;
      } else {
        logs := logs + [Error(ServerError(response))];
        events := events + [TestStateChanged(T2FetchSerialAndMacs, TestState.Failed)];
        raised := None;
      }
    }

    /** A transport error of the server request fails the fetch checkpoint, then the run. */
    method HandleServerError(errMsg: string)
      requires Valid()
      modifies this`serverThreadRunning, this`state, this`events
      ensures Valid()
      ensures !serverThreadRunning && state == State.Failed
      ensures events == old(events) + [TestStateChanged(T2FetchSerialAndMacs, TestState.Failed),
                                       StateChanged(State.Failed, FailureMsgs(ConnToServerFailed, errMsg))]
    {
      serverThreadRunning := false;  // quit and wait for the server thread
      events := events + [TestStateChanged(T2FetchSerialAndMacs, TestState.Failed)];
      ChangeState(State.Failed, FailureMsgs(ConnToServerFailed, errMsg));
    }

    method HandleSerialConnected()
      requires Valid()
      modifies this`logs, this`state, this`events
      ensures Valid()
      ensures logs == old(logs) + [Info(UartConnected)]
      ensures state == ScanningQrCodes
      ensures events == old(events) + [TestStateChanged(T0ConnToUart, Succeeded), StateChanged(ScanningQrCodes, NoMsgs),
                                       TestStateChanged(T1ScanTwoDmQrCodes, Running)]
    {
      logs := logs + [Info(UartConnected)];
      ScanQrCodes();
    }

    /** A serial failure fails the run first and the UART checkpoint after. */
    method HandleSerialErrorOccured(errMsg: string)
      requires Valid()
      modifies this`logs, this`state, this`events
      ensures Valid()
      ensures logs == old(logs) + [Error(UartFailed(errMsg))]
      ensures state == State.Failed
      ensures events == old(events) + [StateChanged(State.Failed, FailureMsgs(StatusConnToUartFailed, errMsg)),
                                       TestStateChanged(T0ConnToUart, TestState.Failed)]
    {
      logs := logs + [Error(UartFailed(errMsg))];
      ChangeState(State.Failed, FailureMsgs(StatusConnToUartFailed, errMsg));
      events := events + [TestStateChanged(T0ConnToUart, TestState.Failed)];
    }

    /**
     * Called back by the first serial line; acts only while connecting cables,
     * and then changes state before reporting the serial checkpoint.
     */
    method HandleSerialLineReceived()
      requires Valid()
      modifies this`logs, this`state, this`events, this`waiters
      ensures Valid()
      ensures old(state) != ConnectingCables ==> unchanged(this)
      ensures old(state) == ConnectingCables ==>
                && logs == old(logs) + [Info(UartDataReceived)]
                && state == WaitingForUboot
                && events == old(events) + [StateChanged(WaitingForUboot, NoMsgs),
                                            TestStateChanged(T3ReceiveDataViaUart, Succeeded),
                                            TestStateChanged(T4ReceiveUbootPrompt, Running)]
                && waiters == old(waiters) + [WaitForAndSend("stop autoboot", "STOP!\r\n", OnDone)]
    {
      if state == ConnectingCables {
        logs := logs + [Info(UartDataReceived)];
        ChangeState(WaitingForUboot, NoMsgs);
        WaitForUboot();
      }
    }

    /** Every serial line is logged, with the logger's display flag False. */
    method LogSerial(data: string)
      requires Valid()
      modifies this`logs
      ensures Valid()
      ensures logs == old(logs) + [InfoWithFlag(SerialOutput(data), false)]
    {
      logs := logs + [InfoWithFlag(SerialOutput(data), false)];
    }
  }
}
