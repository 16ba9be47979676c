/** Whole runs of the monoberrytester.py prototype station. */
module PrototypeScenarios {
  import opened Common
  import PyStr
  import Services
  import opened Prototype

  /** A new prototype station started, with the UART connected and "QR1" and "QR2" scanned. */
  method StartAndScan() returns (w: Workflow)
    ensures fresh(w) && fresh(w.scanner) && fresh(w.serverClient) && w.Valid()
    ensures w.serverClient.endpoint == "http://localhost:8000"
    ensures w.state == FetchingSerialAndMacs && w.scannedCodes == ["QR1", "QR2"]
    ensures w.serialRunning && w.serialRuns == 1 && w.clientRunning && w.clientRuns == 1
    ensures w.serverClient.qr1 == Some("QR1") && w.serverClient.qr2 == Some("QR2")
    ensures w.serialNum == None && w.macAddresses == []
    ensures w.events == [StateChanged(Started, NoMsgs), StateChanged(ConnectingToUart, NoMsgs),
                         StateChanged(ScanningQrCodes, NoMsgs), CodeScanned(["QR1"]), CodeScanned(["QR1", "QR2"]),
                         StateChanged(FetchingSerialAndMacs, NoMsgs)]
  {
    var scanner := new Services.ScannerService();
    var client := new Services.ServerClient("http://localhost:8000");
    w := new Workflow(scanner, client);
    var _ := w.Start();
    w.HandleSerialConnected();
    w.HandleScannedCodes("QR1");
    assert w.scannedCodes == ["QR1"];
    w.HandleScannedCodes("QR2");
  }

  /**
   * A request error in the prototype client emits nothing, so the station
   * stays in FETCHING_SERIAL_AND_MACS; the scanned-code handler called a third
   * time only logs an error.
   */
  method RequestErrorLeavesFetching() returns (url: string, emitted: Option<Services.Outcome>, logged: Option<string>,
                                               state: State, codes: seq<string>, lastLog: LogEntry)
    ensures url == Services.RequestUrl("http://localhost:8000", "QR1", "QR2")
    ensures emitted == None && logged == Some("Read timed out")
    ensures state == FetchingSerialAndMacs && codes == ["QR1", "QR2", "QR3"]
    ensures lastLog == Error(LogMoreThan2QrScanned)
  {
    var w := StartAndScan();
    var run := ClientRun(w.serverClient, Services.RequestException("Read timed out"));
    url, emitted, logged := run.request.value.url, run.emitted, run.logged;
    w.HandleScannedCodes("QR3");
    state, codes, lastLog := w.state, w.scannedCodes, w.logs[|w.logs| - 1];
  }

  /**
   * The server answers with a body whose words are "SN1" and "MAC1" (such as
   * "SN1 MAC1"); the first serial data ends the run in DONE.
   */
  method PassingRun(reply: string) returns (state: State, serial: Option<string>, macs: seq<string>,
                                            lastEvents: seq<Event>)
    requires PyStr.Split(reply) == ["SN1", "MAC1"]
    ensures state == State.Done && serial == Some("SN1") && macs == ["MAC1"]
    ensures lastEvents == [StateChanged(ConnectingCables, NoMsgs), StateChanged(State.Done, NoMsgs)]
  {
    var w := StartAndScan();
    var _ := w.HandleServerResponse(true, reply);
    assert [w.serialNum.value] + w.macAddresses == ["SN1", "MAC1"];
    assert w.serialNum.value == ([w.serialNum.value] + w.macAddresses)[0];
    assert w.macAddresses == ([w.serialNum.value] + w.macAddresses)[1..];
    w.HandleSerialReceivedData("U-Boot 2020.01");
    state, serial, macs := w.state, w.serialNum, w.macAddresses;
    lastEvents := w.events[|w.events| - 2..];
  }

  /**
   * After a UART failure with a serial already received, start is refused
   * with AttributeError; reset reaches IDLE again but keeps that serial and
   * its MACs, and a new start is accepted and, the failed serial thread having
   * ended, begins a second serial run.
   */
  method RetryKeepsSerial(reply: string) returns (failedStart: Option<PyError>, failedState: State,
                                                  serialAfterReset: Option<string>, macsAfterReset: seq<string>,
                                                  codesAfterReset: seq<string>, restart: Option<PyError>, state: State,
                                                  serialRuns: nat)
    requires PyStr.Split(reply) == ["SN1", "MAC1"]
    ensures failedStart == Some(AttributeError) && failedState == State.Failed
    ensures serialAfterReset == Some("SN1") && macsAfterReset == ["MAC1"] && codesAfterReset == []
    ensures restart == None && state == ConnectingToUart && serialRuns == 2
  {
    var w := StartAndScan();
    var _ := w.HandleServerResponse(true, reply);
    assert [w.serialNum.value] + w.macAddresses == ["SN1", "MAC1"];
    assert w.serialNum.value == ([w.serialNum.value] + w.macAddresses)[0];
    assert w.macAddresses == ([w.serialNum.value] + w.macAddresses)[1..];
    w.HandleSerialFailed("device disconnected");
    w.SerialRunEnded();
    failedStart := w.Start();
    failedState := w.state;
    w.Reset();
    serialAfterReset, macsAfterReset, codesAfterReset := w.serialNum, w.macAddresses, w.scannedCodes;
    restart := w.Start();
    state, serialRuns := w.state, w.serialRuns;
  }

  /**
   * After a passing run, reset and start again: the serial thread of the first
   * run is still running, so `serial.start()` does nothing, no second serial
   * run begins, and no `connected` can move the station past CONNECTING_TO_UART.
   */
  method RestartAfterDone(reply: string) returns (doneState: State, restart: Option<PyError>, state: State,
                                                  serialRunning: bool, serialRuns: nat)
    requires PyStr.Split(reply) == ["SN1", "MAC1"]
    ensures doneState == State.Done
    ensures restart == None && state == ConnectingToUart && serialRunning && serialRuns == 1
  {
    var w := StartAndScan();
    var _ := w.HandleServerResponse(true, reply);
    w.HandleSerialReceivedData("U-Boot 2020.01");
    doneState := w.state;
    w.Reset();
    restart := w.Start();
    state, serialRunning, serialRuns := w.state, w.serialRunning, w.serialRuns;
  }
}
