/** Whole runs of the workflow.py station, driven the way Qt's signals drive it. */
module WorkflowScenarios {
  import opened Common
  import PyStr
  import Services
  import opened Workflow

  const KeyQ := 0x51
  const KeyR := 0x52
  const Key1 := 0x31
  const KeyX := 0x58

  /** Splitting a reply written as space-separated tokens gives those tokens back. */
  lemma SplitReply(words: seq<string>, body: string)
    requires forall i :: 0 <= i < |words| ==> PyStr.IsWord(words[i])
    requires body == PyStr.Join(" ", words)
    ensures PyStr.Split(body) == words
  {
    assert PyStr.AllSpace(" ");
    PyStr.SplitJoin(" ", words);
  }

  lemma SplitPassingReply()
    ensures PyStr.Split("SNX MACA MACB") == ["SNX", "MACA", "MACB"]
  {
    SplitReply(["SNX", "MACA", "MACB"], "SNX MACA MACB");
  }

  lemma SplitLateReply()
    ensures PyStr.Split("SN1 MAC1") == ["SN1", "MAC1"]
  {
    SplitReply(["SN1", "MAC1"], "SN1 MAC1");
  }

  /** A new station started, with the UART connected and "QR1" and "QR2" scanned. */
  method StartAndScan() returns (w: Workflow)
    ensures fresh(w) && w.Valid()
    ensures w.state == FetchingSerialAndMacs && w.scannedCodes == ["QR1", "QR2"] && w.waiters == []
    ensures w.serverClient.qr1 == Some("QR1") && w.serverClient.qr2 == Some("QR2")
    ensures w.serialThreadRunning && w.serverThreadRunning
    ensures w.events == [StateChanged(Started, NoMsgs), StateChanged(ConnectingToUart, NoMsgs),
                         TestStateChanged(T0ConnToUart, Running),
                         TestStateChanged(T0ConnToUart, Succeeded), StateChanged(ScanningQrCodes, NoMsgs),
                         TestStateChanged(T1ScanTwoDmQrCodes, Running),
                         CodeScanned(["QR1"]), CodeScanned(["QR1", "QR2"]),
                         TestStateChanged(T1ScanTwoDmQrCodes, Succeeded), StateChanged(FetchingSerialAndMacs, NoMsgs),
                         TestStateChanged(T2FetchSerialAndMacs, Running)]
  {
    var scanner := new Services.ScannerService();
    var client := new Services.ServerClient("http://localhost:8000");
    w := new Workflow(scanner, client);
    w.Start();
    w.HandleSerialConnected();
    w.HandleCodeScanned("QR1");
    assert w.scannedCodes == ["QR1"];
    w.HandleCodeScanned("QR2");
  }

  /**
   * One board passing every checkpoint: start, the UART connects, "QR1" and
   * "QR2" are scanned, the server answers with a body whose words are "SNX",
   * "MACA" and "MACB" (such as "SNX MACA MACB", by SplitPassingReply), the
   * first serial line arrives and then the u-boot prompt.
   */
  method PassingRun(reply: string) returns (state: State, serial: Option<string>, macs: seq<string>, codes: seq<string>,
                               events: seq<Event>, waiters: seq<Waiter>)
    requires PyStr.Split(reply) == ["SNX", "MACA", "MACB"]
    ensures state == State.Done && codes == ["QR1", "QR2"]
    ensures serial == Some("SNX") && macs == ["MACA", "MACB"]
    ensures events == [StateChanged(Started, NoMsgs), StateChanged(ConnectingToUart, NoMsgs),
                       TestStateChanged(T0ConnToUart, Running),
                       TestStateChanged(T0ConnToUart, Succeeded), StateChanged(ScanningQrCodes, NoMsgs),
                       TestStateChanged(T1ScanTwoDmQrCodes, Running),
                       CodeScanned(["QR1"]), CodeScanned(["QR1", "QR2"]),
                       TestStateChanged(T1ScanTwoDmQrCodes, Succeeded), StateChanged(FetchingSerialAndMacs, NoMsgs),
                       TestStateChanged(T2FetchSerialAndMacs, Running),
                       TestStateChanged(T2FetchSerialAndMacs, Succeeded), StateChanged(ConnectingCables, NoMsgs),
                       TestStateChanged(T3ReceiveDataViaUart, Running),
                       StateChanged(WaitingForUboot, NoMsgs), TestStateChanged(T3ReceiveDataViaUart, Succeeded),
                       TestStateChanged(T4ReceiveUbootPrompt, Running),
                       TestStateChanged(T4ReceiveUbootPrompt, Succeeded), StateChanged(State.Done, NoMsgs)]
    ensures waiters == [WaitFor("", OnSerialLineReceived), WaitForAndSend("stop autoboot", "STOP!\r\n", OnDone)]
  {
    var w := StartAndScan();
    var _ := w.HandleServerResponse(true, reply);
    assert [w.serialNum.value] + w.macAddresses == ["SNX", "MACA", "MACB"];
    assert w.serialNum.value == ([w.serialNum.value] + w.macAddresses)[0];
    assert w.macAddresses == ([w.serialNum.value] + w.macAddresses)[1..];
    w.HandleSerialLineReceived();
    w.Done();
    state, serial, macs, codes, events, waiters := w.state, w.serialNum, w.macAddresses, w.scannedCodes, w.events, w.waiters;
  }

  /**
   * While scanning, a code typed on the scanner and ended by Return is
   * appended to the scanned codes and emitted; keys before the UART connects
   * do not reach the scanner.
   */
  method TypingACode() returns (ignoredBuffer: string, codes: seq<string>, last: Event, buffer: string)
    ensures ignoredBuffer == ""
    ensures codes == ["QR1"] && last == CodeScanned(["QR1"]) && buffer == ""
  {
    var scanner := new Services.ScannerService();
    var client := new Services.ServerClient("http://localhost:8000");
    var w := new Workflow(scanner, client);
    w.Start();
    w.KeyPressed(KeyQ, "Q");
    ignoredBuffer := scanner.buffer;
    w.HandleSerialConnected();
    w.KeyPressed(KeyQ, "Q");
    w.KeyPressed(KeyR, "R");
    w.KeyPressed(Key1, "1");
    assert scanner.buffer == "QR1";
    w.KeyPressed(Services.KeyEnter, "");
    codes, last, buffer := w.scannedCodes, w.events[|w.events| - 1], scanner.buffer;
  }

  /** A new station started and connected, with "Q" typed while scanning, then a UART failure. */
  method TypedBeforeFailure() returns (w: Workflow)
    ensures fresh(w) && fresh(w.scanner) && fresh(w.serverClient) && w.Valid()
    ensures w.state == State.Failed && w.scanner.buffer == "Q"
  {
    var scanner := new Services.ScannerService();
    var client := new Services.ServerClient("http://localhost:8000");
    w := new Workflow(scanner, client);
    w.Start();
    w.HandleSerialConnected();
    w.KeyPressed(KeyQ, "Q");
    w.HandleSerialErrorOccured("device disconnected");
  }

  /**
   * `reset()` does not clear the scanner's buffer: "Q" typed while scanning,
   * before the UART fails, is still there after the reset, so the next run's
   * first code is "QX" when "X" and Enter are typed.
   */
  method BufferSurvivesReset() returns (bufferAfterReset: string, codes: seq<string>, last: Event)
    ensures bufferAfterReset == "Q"
    ensures codes == ["QX"] && last == CodeScanned(["QX"])
  {
    var w := TypedBeforeFailure();
    w.Reset();
    bufferAfterReset := w.scanner.buffer;
    w.Start();
    w.HandleSerialConnected();
    w.KeyPressed(KeyX, "X");
    assert w.scanner.buffer == "QX";
    w.KeyPressed(Services.KeyEnter, "");
    codes, last := w.scannedCodes, w.events[|w.events| - 1];
  }

  /** After a UART failure, a reset makes the station startable again. */
  method RetryAfterUartFailure() returns (failedState: State, state: State, serialThreadRunning: bool)
    ensures failedState == State.Failed
    ensures state == ConnectingToUart && serialThreadRunning
  {
    var scanner := new Services.ScannerService();
    var client := new Services.ServerClient("http://localhost:8000");
    var w := new Workflow(scanner, client);
    w.Start();
    w.HandleSerialErrorOccured("could not open port");
    failedState := w.state;
    w.Start();
    assert w.state == State.Failed;
    w.Reset();
    w.Start();
    state, serialThreadRunning := w.state, w.serialThreadRunning;
  }

  /**
   * Reset stops the serial thread but not the server thread, and the response
   * handler does not look at the state: a reply that arrives after a reset
   * takes the idle station to connecting cables with that reply's serial
   * (for a body such as "SN1 MAC1", by SplitLateReply).
   */
  method LateReplyAfterReset(reply: string) returns (stateAfterReset: State, serverThreadAfterReset: bool,
                                         state: State, serial: Option<string>)
    requires PyStr.Split(reply) == ["SN1", "MAC1"]
    ensures stateAfterReset == Idle && serverThreadAfterReset
    ensures state == ConnectingCables && serial == Some("SN1")
  {
    var scanner := new Services.ScannerService();
    var client := new Services.ServerClient("http://localhost:8000");
    var w := new Workflow(scanner, client);
    w.Start();
    w.HandleSerialConnected();
    w.HandleCodeScanned("QR1");
    w.HandleCodeScanned("QR2");
    w.Reset();
    stateAfterReset, serverThreadAfterReset := w.state, w.serverThreadRunning;
    var _ := w.HandleServerResponse(true, reply);
    state, serial := w.state, w.serialNum;
  }
}
