/**
 * The first, single-file version of the station in monoberrytester.py: the
 * same walk from IDLE to DONE, but with no checkpoint verdicts, no u-boot
 * step, and a serial line that ends the run at once. Its scanner and its
 * server client behave like the ones of services.py, which are reused here:
 * the reused client's `endpoint` stands for the global `SERVER_ENDPOINT` the
 * prototype builds its URL from, and its thread body is `ClientRun`.
 */
module Prototype {
  import opened Common
  import PyStr
  import Services

  datatype State =
    | Idle | Started | ConnectingToUart | ScanningQrCodes | FetchingSerialAndMacs
    | ConnectingCables | Done | Failed

  /** The dictionary passed with `state_changed`: empty, or `{status, err_msg}` with the status text itself. */
  datatype Msgs = NoMsgs | FailureMsgs(status: string, errMsg: string)

  /** The two signals: `state_changed` (the UI reads the state as it is handled) and `code_scanned`. */
  datatype Event =
    | StateChanged(state: State, msgs: Msgs)
    | CodeScanned(codes: seq<string>)

  /** A logger call with its text. */
  datatype LogEntry = Info(text: string) | Error(text: string)

  const StatusConnToUartFailed := "Connection to UART failed!"
  const LogUartConnected := "Connected to UART"
  const LogUartFailed := "UART connection FAILED: "
  const LogFirstCodeScanned := "First code scanned: "
  const LogSecondCodeScanned := "Second code scanned: "
  const LogMoreThan2QrScanned := "More than 2 dm qr codes scanned somehow!"
  const LogServerResponse := "Recevied response from server:\n"
  const LogServerError := "Recevied ERROR from server:\n"
  const LogDone := "Done!"
  const LogSerialData := "Serial working. Data was received: "

  /**
   * The thread body of the prototype client, given what `requests.get` does.
   * A code never set is a missing attribute: the URL line raises
   * AttributeError before any request. The request has no timeout, and every
   * exception is only logged, so nothing at all is emitted for it.
   */
  function ClientRun(client: Services.ServerClient, reply: Services.Reply): (r: Services.RunResult)
    reads client
    ensures r.request.Some? <==> client.qr1.Some? && client.qr2.Some?
    ensures r.request.Some? ==>
              && r.request.value == Services.Get(Services.RequestUrl(client.endpoint, client.qr1.value, client.qr2.value), None)
              && (r.emitted.Some? <==> reply.Response?)
              && (r.emitted.Some? ==> r.emitted.value == Services.ResponseReceived(reply.status == 200, reply.text))
              && (r.logged.Some? <==> !reply.Response?)
              && (r.logged.Some? ==> r.logged.value == reply.message)
    ensures r.request.None? ==> r.emitted.None? && r.logged.None?
  {
    if client.qr1.None? || client.qr2.None? then Services.RunResult(None, None, None)
    else
      var request := Services.Get(Services.RequestUrl(client.endpoint, client.qr1.value, client.qr2.value), None);
      match reply
      case Response(status, text) => Services.RunResult(Some(request), Some(Services.ResponseReceived(status == 200, text)), None)
      case RequestException(message) => Services.RunResult(Some(request), None, Some(message))
      case OtherException(message) => Services.RunResult(Some(request), None, Some(message))
  }

  /**
   * The prototype client and the final one ask for the same URL and report a
   * response alike; they differ on errors: the final client signals a request
   * exception (the prototype is silent) and lets any other exception escape
   * (the prototype logs it), and only the final client sets a timeout.
   */
  lemma ClientRunsCompared(client: Services.ServerClient, reply: Services.Reply)
    requires client.qr1.Some? && client.qr2.Some?
    ensures ClientRun(client, reply).request.value.url == client.Run(reply).request.value.url
    ensures ClientRun(client, reply).request.value.timeoutSeconds == None
    ensures client.Run(reply).request.value.timeoutSeconds == Some(Services.RequestTimeoutSeconds)
    ensures reply.Response? ==> ClientRun(client, reply).emitted == client.Run(reply).emitted
    ensures reply.RequestException? ==>
              && ClientRun(client, reply).emitted == None
              && client.Run(reply).emitted == Some(Services.ErrorOccured(reply.message))
              && ClientRun(client, reply).logged == client.Run(reply).logged == Some(reply.message)
    ensures reply.OtherException? ==>
              && ClientRun(client, reply).logged == Some(reply.message)
              && client.Run(reply).logged == None
  {
  }

  class Workflow {
    var state: State
    var scannedCodes: seq<string>
    var serialNum: Option<string>
    var macAddresses: seq<string>
    /** Everything emitted to the UI, oldest first. */
    var events: seq<Event>
    var logs: seq<LogEntry>
    /**
     * Whether the serial thread / the server client thread is running, and how
     * many times its `run` has begun. `QThread.start()` on a running thread does
     * nothing, so a start only counts when the thread was not running.
     */
    var serialRunning: bool
    var serialRuns: nat
    var clientRunning: bool
    var clientRuns: nat
    const scanner: Services.ScannerService
    const serverClient: Services.ServerClient

    /** The serial number and the MACs come from one server reply, so both are whitespace-free tokens. */
    ghost predicate Valid()
      reads this
    {
      && (serialNum.None? ==> macAddresses == [])
      && (serialNum.Some? ==> PyStr.IsWord(serialNum.value))
      && (forall i :: 0 <= i < |macAddresses| ==> PyStr.IsWord(macAddresses[i]))
    }

    constructor (scanner: Services.ScannerService, serverClient: Services.ServerClient)
      ensures Valid()
      ensures this.scanner == scanner && this.serverClient == serverClient
      ensures state == Idle && scannedCodes == [] && serialNum == None && macAddresses == []
      ensures events == [] && logs == []
      ensures !serialRunning && !clientRunning && serialRuns == 0 && clientRuns == 0
    {
      this.scanner := scanner;
      this.serverClient := serverClient;
      state := Idle;
      scannedCodes, serialNum, macAddresses := [], None, [];
      events, logs := [], [];
      serialRunning, clientRunning := false, false;
      serialRuns, clientRuns := 0, 0;
    }

    /** Back to IDLE for a retry; only the scanned codes are cleared, the serial and the MACs stay. */
    method Reset()
      requires Valid()
      modifies this`scannedCodes, this`state, this`events
      ensures Valid()
      ensures state == Idle && scannedCodes == []
      ensures events == old(events) + [StateChanged(Idle, NoMsgs)]
    {
      scannedCodes := [];
      ChangeState(Idle, NoMsgs);
    }

    /**
     * From IDLE a run starts and the serial thread is started, which begins its
     * `run` only when the thread is not still running. From any other
     * state the log line names a text that does not exist, so the call raises
     * AttributeError before it logs anything, and nothing changes.
     */
    method Start() returns (raised: Option<PyError>)
      requires Valid()
      modifies this`state, this`events, this`serialRunning, this`serialRuns
      ensures Valid()
      ensures raised.Some? <==> old(state) != Idle
      ensures raised.Some? ==> raised.value == AttributeError && unchanged(this)
      ensures raised.None? ==>
                && state == ConnectingToUart && serialRunning
                && serialRuns == old(serialRuns) + (if old(serialRunning) then 0 else 1)
                && events == old(events) + [StateChanged(Started, NoMsgs), StateChanged(ConnectingToUart, NoMsgs)]
    {
      if state != Idle {
        return Some(AttributeError);
      }
      ChangeState(Started, NoMsgs);
      ConnectToUart();
      raised := None;
    }

    /**
     * `serial.start()`: the serial thread's `run` (which opens the port and
     * signals `connected`) begins only when the thread is not already running;
     * otherwise the call does nothing and no `connected` follows.
     */
    method ConnectToUart()
      requires Valid()
      modifies this`state, this`events, this`serialRunning, this`serialRuns
      ensures Valid()
      ensures state == ConnectingToUart && serialRunning
      ensures serialRuns == old(serialRuns) + (if old(serialRunning) then 0 else 1)
      ensures events == old(events) + [StateChanged(ConnectingToUart, NoMsgs)]
    {
      ChangeState(ConnectingToUart, NoMsgs);
      if !serialRunning {
        serialRunning, serialRuns := true, serialRuns + 1;
      }
    }

    method ScanQrCodes()
      requires Valid()
      modifies this`state, this`events
      ensures Valid()
      ensures state == ScanningQrCodes
      ensures events == old(events) + [StateChanged(ScanningQrCodes, NoMsgs)]
    {
      ChangeState(ScanningQrCodes, NoMsgs);
    }

    /**
     * Hands the scanned codes to the client and starts its thread; with fewer
     * than two codes the hand-over raises IndexError and the thread is not
     * started. A start while an earlier request's thread still runs does
     * nothing: no new request is made.
     */
    method FetchSerialAndMacs() returns (raised: Option<PyError>)
      requires Valid()
      modifies this`state, this`events, this`clientRunning, this`clientRuns, serverClient
      ensures Valid()
      ensures state == FetchingSerialAndMacs
      ensures events == old(events) + [StateChanged(FetchingSerialAndMacs, NoMsgs)]
      ensures raised == if |scannedCodes| < 2 then Some(IndexError) else None
      ensures serverClient.qr1 == if |scannedCodes| >= 1 then Some(scannedCodes[0]) else old(serverClient.qr1)
      ensures serverClient.qr2 == if |scannedCodes| >= 2 then Some(scannedCodes[1]) else old(serverClient.qr2)
      ensures clientRunning == (old(clientRunning) || raised.None?)
      ensures clientRuns == old(clientRuns) + (if raised.None? && !old(clientRunning) then 1 else 0)
    {
      ChangeState(FetchingSerialAndMacs, NoMsgs);
      raised := serverClient.SetCodes(scannedCodes);
      if raised.None? && !clientRunning {
        clientRunning, clientRuns := true, clientRuns + 1;
      }
    }

    method ConnectCables()
      requires Valid()
      modifies this`state, this`events
      ensures Valid()
      ensures state == ConnectingCables
      ensures events == old(events) + [StateChanged(ConnectingCables, NoMsgs)]
    {
      ChangeState(ConnectingCables, NoMsgs);
    }

    /** The state changes first, the log line follows. */
    method Done()
      requires Valid()
      modifies this`state, this`events, this`logs
      ensures Valid()
      ensures state == State.Done
      ensures events == old(events) + [StateChanged(State.Done, NoMsgs)]
      ensures logs == old(logs) + [Info(LogDone)]
    {
      ChangeState(State.Done, NoMsgs);
      logs := logs + [Info(LogDone)];
    }

    /** Key presses reach the scanner only while scanning QR codes; a completed code is handled at once. */
    method KeyPressed(key: int, text: string)
      requires Valid()
      modifies this`state, this`scannedCodes, this`events, this`logs, this`clientRunning, this`clientRuns, scanner, serverClient
      ensures Valid()
      ensures old(state) != ScanningQrCodes ==> unchanged(this, scanner, serverClient)
      ensures old(state) == ScanningQrCodes && !Services.IsTerminator(key) ==>
                && unchanged(this, serverClient)
                && scanner.buffer == if text != "" then old(scanner.buffer) + text else old(scanner.buffer)
      ensures old(state) == ScanningQrCodes && Services.IsTerminator(key) ==>
                scanner.buffer == "" && ScannedCodeHandled(old(scanner.buffer))
    {
      if state == ScanningQrCodes {
        var code := scanner.HandleInput(key, text);
        if code.Some? {
          HandleScannedCodes(code.value);
        }
      }
    }

    /** `state_changed` is emitted on every change of state; it keeps the invariant. */
    method ChangeState(s: State, msgs: Msgs)
      modifies this`state, this`events
      ensures state == s && events == old(events) + [StateChanged(s, msgs)]
      ensures old(Valid()) ==> Valid()
    {
      state := s;
      events := events + [StateChanged(s, msgs)];
    }

    /**
     * A scanned code is appended in arrival order and the list is emitted. The
     * first code changes nothing else; the second moves on to fetching with
     * both codes; any further code is only logged as an error.
     */
    twostate predicate ScannedCodeHandled(code: string)
      reads this, serverClient
    {
      var codes := old(scannedCodes) + [code];
      && scannedCodes == codes
      && if |codes| == 2 then
           && state == FetchingSerialAndMacs && clientRunning
           && clientRuns == old(clientRuns) + (if old(clientRunning) then 0 else 1)
           && serverClient.qr1 == Some(codes[0]) && serverClient.qr2 == Some(codes[1])
           && events == old(events) + [CodeScanned(codes), StateChanged(FetchingSerialAndMacs, NoMsgs)]
           && logs == old(logs) + [Info(LogSecondCodeScanned + code)]
         else
           && state == old(state) && clientRunning == old(clientRunning) && clientRuns == old(clientRuns)
           && serverClient.qr1 == old(serverClient.qr1) && serverClient.qr2 == old(serverClient.qr2)
           && events == old(events) + [CodeScanned(codes)]
           && logs == old(logs) + [if |codes| == 1 then Info(LogFirstCodeScanned + code) else Error(LogMoreThan2QrScanned)]
    }

    method HandleScannedCodes(code: string)
      requires Valid()
      modifies this`state, this`scannedCodes, this`events, this`logs, this`clientRunning, this`clientRuns, serverClient
      ensures Valid()
      ensures ScannedCodeHandled(code)
    {
      scannedCodes := scannedCodes + [code];
      events := events + [CodeScanned(scannedCodes)];
      if |scannedCodes| == 1 {
        logs := logs + [Info(LogFirstCodeScanned + code)];
      } else if |scannedCodes| == 2 {
        logs := logs + [Info(LogSecondCodeScanned + code)];
        var _ := FetchSerialAndMacs();
      } else {
        logs := logs + [Error(LogMoreThan2QrScanned)];
      }
    }

    /**
     * A reply from the server, in whatever state. Success takes the first token
     * as the serial number and the rest as MACs and moves on to connecting
     * cables; a reply without any token makes the indexing raise IndexError. A
     * failure reply is only logged.
     */
    method HandleServerResponse(success: bool, response: string) returns (raised: Option<PyError>)
      requires Valid()
      modifies this`logs, this`serialNum, this`macAddresses, this`state, this`events
      ensures Valid()
      ensures success ==> logs == old(logs) + [Info(LogServerResponse + response)]
      ensures success && PyStr.AllSpace(response) ==>
                && raised == Some(IndexError)
                && state == old(state) && events == old(events)
                && serialNum == old(serialNum) && macAddresses == old(macAddresses)
      ensures success && !PyStr.AllSpace(response) ==>
                && raised == None
                && serialNum.Some? && [serialNum.value] + macAddresses == PyStr.Split(response)
                && state == ConnectingCables
                && events == old(events) + [StateChanged(ConnectingCables, NoMsgs)]
      ensures !success ==>
                && raised == None
                && logs == old(logs) + [Error(LogServerError + response)]
                && state == old(state) && events == old(events)
                && serialNum == old(serialNum) && macAddresses == old(macAddresses)
    {
      if success {
        logs := logs + [Info(LogServerResponse + response)];
        var r := PyStr.Split(response);
        if |r| == 0 {
          return Some(IndexError);
        }
        serialNum := Some(r[0]);
        macAddresses := r[1..];
        assert [r[0]] + r[1..] == r;
        ConnectCables();
        raised := None;
      } else {
        logs := logs + [Error(LogServerError + response)];
        raised := None;
      }
    }

    method HandleSerialConnected()
      requires Valid()
      modifies this`logs, this`state, this`events
      ensures Valid()
      ensures logs == old(logs) + [Info(LogUartConnected)]
      ensures state == ScanningQrCodes
      ensures events == old(events) + [StateChanged(ScanningQrCodes, NoMsgs)]
    {
      logs := logs + [Info(LogUartConnected)];
      ScanQrCodes();
    }

    /** A serial failure fails the run with the UART status text and the error message, from any state. */
    method HandleSerialFailed(errMsg: string)
      requires Valid()
      modifies this`logs, this`state, this`events
      ensures Valid()
      ensures logs == old(logs) + [Error(LogUartFailed + errMsg)]
      ensures state == State.Failed
      ensures events == old(events) + [StateChanged(State.Failed, FailureMsgs(StatusConnToUartFailed, errMsg))]
    {
      logs := logs + [Error(LogUartFailed + errMsg)];
      ChangeState(State.Failed, FailureMsgs(StatusConnToUartFailed, errMsg));
    }

    /**
     * The serial thread's `run` returns. Once connected it loops until an
     * exception, after which it signals `failed` and stops, so this follows a
     * serial failure; the reset of this station never stops the thread.
     */
    method SerialRunEnded()
      requires Valid()
      modifies this`serialRunning
      ensures Valid()
      ensures !serialRunning
    {
      serialRunning := false;
    }

    /** The client thread's `run` returns, after it signalled a response or logged an exception. */
    method ClientRunEnded()
      requires Valid()
      modifies this`clientRunning
      ensures Valid()
      ensures !clientRunning
    {
      clientRunning := false;
    }

    /**
     * Serial data ends the run while connecting cables, going straight to DONE
     * (without `done`'s log line); in every other state it is ignored.
     */
    method HandleSerialReceivedData(data: string)
      requires Valid()
      modifies this`logs, this`state, this`events
      ensures Valid()
      ensures old(state) != ConnectingCables ==> unchanged(this)
      ensures old(state) == ConnectingCables ==>
                && logs == old(logs) + [Info(LogSerialData + data)]
                && state == State.Done
                && events == old(events) + [StateChanged(State.Done, NoMsgs)]
    {
      if state == ConnectingCables {
        logs := logs + [Info(LogSerialData + data)];
        ChangeState(State.Done, NoMsgs);
      }
    }
  }
}
