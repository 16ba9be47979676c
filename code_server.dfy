/** The openhtf plug's parse of the code server's reply: `serial, *macs = text.split()`. */
module CodeServer {
  import opened PyStr

  datatype SerialAndMacs = SerialAndMacs(serial: string, macs: seq<string>)

  /** The unpacking either succeeds or raises ValueError (not enough values to unpack). */
  datatype Parsed = Parsed(value: SerialAndMacs) | NotEnoughValues

  /** The serial number is the first token of the body and the MACs are the rest, in order. */
  function GetSerialNumberAndMacs(body: string): (r: Parsed)
    ensures r.Parsed? <==> !AllSpace(body)
    ensures r.Parsed? ==> [r.value.serial] + r.value.macs == Split(body)
    ensures r.Parsed? ==> |r.value.macs| == |Split(body)| - 1
    ensures r.Parsed? ==> IsWord(r.value.serial) && forall i :: 0 <= i < |r.value.macs| ==> IsWord(r.value.macs[i])
  {
    var tokens := Split(body);
    if tokens == [] then NotEnoughValues
    else Parsed(SerialAndMacs(tokens[0], tokens[1..]))
  }

  /** A body written as the serial and the MACs joined by whitespace parses back to them. */
  lemma ParseJoined(sep: string, serial: string, macs: seq<string>)
    requires sep != [] && AllSpace(sep)
    requires IsWord(serial) && forall i :: 0 <= i < |macs| ==> IsWord(macs[i])
    ensures GetSerialNumberAndMacs(Join(sep, [serial] + macs)) == Parsed(SerialAndMacs(serial, macs))
  {
    SplitJoin(sep, [serial] + macs);
    assert ([serial] + macs)[1..] == macs;
  }

  const TestSerial := "S3R14LNUM83R"
  const TestMacs := ["02:00:00:00:00:01", "02:00:00:00:00:02", "02:00:00:00:00:03", "02:00:00:00:00:04", "02:00:00:00:00:05"]

  lemma TestTokensAreWords()
    ensures IsWord(TestSerial) && forall i :: 0 <= i < |TestMacs| ==> IsWord(TestMacs[i])
  {
    assert IsWord(TestMacs[0]);
    assert IsWord(TestMacs[1]);
    assert IsWord(TestMacs[2]);
    assert IsWord(TestMacs[3]);
    assert IsWord(TestMacs[4]);
  }

  /**
   * A sample body in the format the plug parses: the body of the Qt client's
   * local `/getserial` test server (services.py:82), one token per line and a
   * final newline, "S3R14LNUM83R\n02:00:00:00:00:01\n...\n02:00:00:00:00:05\n".
   * It is not a recorded reply of the `/serial-macs` endpoint.
   */
  const TestReply := Join("\n", [TestSerial] + TestMacs) + "\n"

  /** The test server's reply parses into its serial and the five MACs the openhtf phase measures. */
  lemma TestServerReply()
    ensures GetSerialNumberAndMacs(TestReply) == Parsed(SerialAndMacs(TestSerial, TestMacs))
    ensures |TestMacs| == 5
  {
    TestTokensAreWords();
    assert AllSpace("\n");
    SplitBeforeSpaces(Join("\n", [TestSerial] + TestMacs), "\n");
    ParseJoined("\n", TestSerial, TestMacs);
  }
}
