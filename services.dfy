/**
 * The collaborators of the workflow that have logic of their own: the
 * barcode-scanner key buffer and the HTTP client that asks the server for a
 * serial number and MAC addresses.
 */
module Services {
  import opened Common

  // ---------------------------------------------------------------------
  // ScannerService: key presses to scanned codes
  // ---------------------------------------------------------------------

  /** Qt.Key_Return and Qt.Key_Enter. */
  const KeyReturn: int := 0x0100_0004
  const KeyEnter: int := 0x0100_0005

  predicate IsTerminator(key: int) {
    key == KeyReturn || key == KeyEnter
  }

  /** One key press: its Qt key code and the text it types (often one character, possibly none). */
  datatype KeyEvent = KeyEvent(key: int, text: string)

  /** The codes a scanner emits and the buffer it is left holding. */
  datatype Scan = Scan(codes: seq<string>, buffer: string)

  /**
   * What a scanner whose buffer holds `buffer` does with `events`, one key at a
   * time; each code needs a key press of its own.
   */
  function Feed(buffer: string, events: seq<KeyEvent>): (r: Scan)
    ensures |r.codes| <= |events|
    decreases |events|
  {
    if events == [] then Scan([], buffer)
    else if IsTerminator(events[0].key) then
      var rest := Feed("", events[1..]);
      Scan([buffer] + rest.codes, rest.buffer)
    else if events[0].text != "" then Feed(buffer + events[0].text, events[1..])
    else Feed(buffer, events[1..])
  }

  class ScannerService {
    var buffer: string

    constructor ()
      ensures buffer == ""
    {
      buffer := "";
    }

    /** Return or Enter emits the buffer (possibly "") and empties it; any other key appends its text. */
    method HandleInput(key: int, text: string) returns (code: Option<string>)
      modifies this
      ensures IsTerminator(key) ==> code == Some(old(buffer)) && buffer == ""
      ensures !IsTerminator(key) && text != "" ==> code == None && buffer == old(buffer) + text
      ensures !IsTerminator(key) && text == "" ==> code == None && buffer == old(buffer)
      ensures Feed(old(buffer), [KeyEvent(key, text)])
              == Scan(if code.Some? then [code.value] else [], buffer)
    {
      if IsTerminator(key) {
        code := Some(buffer);
        buffer := "";
      } else {
        code := None;
        if text != "" {
          buffer := buffer + text;
        }
      }
    }
  }

  predicate NoTerminator(events: seq<KeyEvent>) {
    forall i :: 0 <= i < |events| ==> !IsTerminator(events[i].key)
  }

  /** The concatenated texts of `events`. */
  function TypedText(events: seq<KeyEvent>): (text: string) {
    if events == [] then "" else events[0].text + TypedText(events[1..])
  }

  function CountTerminators(events: seq<KeyEvent>): (n: nat) {
    if events == [] then 0
    else (if IsTerminator(events[0].key) then 1 else 0) + CountTerminators(events[1..])
  }

  /**
   * The segments joined into one stream, segment `j` followed by the key press
   * `enters[j]` (Return or Enter, with any text) for every segment but the last.
   */
  function Terminated(segments: seq<seq<KeyEvent>>, enters: seq<KeyEvent>): (stream: seq<KeyEvent>)
    requires |enters| == |segments| - 1
  {
    if |segments| <= 1 then (if segments == [] then [] else segments[0])
    else segments[0] + [enters[0]] + Terminated(segments[1..], enters[1..])
  }

  /** Feeding two streams one after the other is feeding their concatenation. */
  lemma {:induction false} FeedAppend(buffer: string, xs: seq<KeyEvent>, ys: seq<KeyEvent>)
    ensures Feed(buffer, xs + ys)
            == Scan(Feed(buffer, xs).codes + Feed(Feed(buffer, xs).buffer, ys).codes,
                    Feed(Feed(buffer, xs).buffer, ys).buffer)
    decreases |xs|
  {
    if xs == [] {
      assert xs + ys == ys;
    } else {
      assert (xs + ys)[0] == xs[0];
      assert (xs + ys)[1..] == xs[1..] + ys;
      if IsTerminator(xs[0].key) {
        FeedAppend("", xs[1..], ys);
      } else if xs[0].text != "" {
        FeedAppend(buffer + xs[0].text, xs[1..], ys);
      } else {
        FeedAppend(buffer, xs[1..], ys);
      }
    }
  }

  /** Without Return or Enter nothing is emitted and every text is appended. */
  lemma {:induction false} FeedWithoutTerminator(buffer: string, events: seq<KeyEvent>)
    requires NoTerminator(events)
    ensures Feed(buffer, events) == Scan([], buffer + TypedText(events))
    decreases |events|
  {
    if events == [] {
      assert buffer + "" == buffer;
    } else {
      assert NoTerminator(events[1..]);
      var t := events[0].text;
      assert buffer + t + TypedText(events[1..]) == buffer + (t + TypedText(events[1..]));
      if t != "" {
        FeedWithoutTerminator(buffer + t, events[1..]);
      } else {
        assert t + TypedText(events[1..]) == TypedText(events[1..]);
        FeedWithoutTerminator(buffer, events[1..]);
      }
    }
  }

  /** Exactly one code is emitted per Return or Enter. */
  lemma {:induction false} FeedCount(buffer: string, events: seq<KeyEvent>)
    ensures |Feed(buffer, events).codes| == CountTerminators(events)
    decreases |events|
  {
    if events != [] {
      if IsTerminator(events[0].key) {
        FeedCount("", events[1..]);
      } else if events[0].text != "" {
        FeedCount(buffer + events[0].text, events[1..]);
      } else {
        FeedCount(buffer, events[1..]);
      }
    }
  }

  /**
   * Starting from an empty buffer, the i-th code emitted is the text typed
   * between the (i-1)-th and the i-th Return/Enter, in order (an empty code for
   * two terminators in a row), and the text after the last one stays buffered.
   */
  lemma {:induction false} FeedSegments(segments: seq<seq<KeyEvent>>, enters: seq<KeyEvent>)
    requires |segments| >= 1 && |enters| == |segments| - 1
    requires forall j :: 0 <= j < |enters| ==> IsTerminator(enters[j].key)
    requires forall j :: 0 <= j < |segments| ==> NoTerminator(segments[j])
    ensures |Feed("", Terminated(segments, enters)).codes| == |segments| - 1
    ensures forall i :: 0 <= i < |segments| - 1 ==>
              Feed("", Terminated(segments, enters)).codes[i] == TypedText(segments[i])
    ensures Feed("", Terminated(segments, enters)).buffer == TypedText(segments[|segments| - 1])
    decreases |segments|
  {
    FeedWithoutTerminator("", segments[0]);
    assert "" + TypedText(segments[0]) == TypedText(segments[0]);
    if |segments| > 1 {
      var rest := Terminated(segments[1..], enters[1..]);
      assert Terminated(segments, enters) == segments[0] + ([enters[0]] + rest);
      FeedAppend("", segments[0], [enters[0]] + rest);
      assert ([enters[0]] + rest)[1..] == rest;
      FeedSegments(segments[1..], enters[1..]);
    }
  }

  /**
   * Every key stream is its terminator-free segments joined by its own
   * Return/Enter presses, so `FeedSegments` describes every stream.
   */
  function SplitAtTerminators(events: seq<KeyEvent>): (p: (seq<seq<KeyEvent>>, seq<KeyEvent>))
    ensures |p.0| >= 1 && |p.1| == |p.0| - 1
    ensures forall j :: 0 <= j < |p.1| ==> IsTerminator(p.1[j].key)
    ensures forall j :: 0 <= j < |p.0| ==> NoTerminator(p.0[j])
    ensures Terminated(p.0, p.1) == events
    decreases |events|
  {
    if events == [] then ([[]], [])
    else
      var r := SplitAtTerminators(events[1..]);
      if IsTerminator(events[0].key) then
        assert events == [] + [events[0]] + events[1..];
        ([[]] + r.0, [events[0]] + r.1)
      else
        var segs := [[events[0]] + r.0[0]] + r.0[1..];
        TerminatedConsFirst(events[0], r.0, r.1);
        assert events == [events[0]] + events[1..];
        (segs, r.1)
  }

  /**
   * For any key stream fed from an empty buffer, the codes are the texts of
   * its segments between terminators, in order, and the last segment's text
   * stays buffered.
   */
  lemma FeedEveryStream(events: seq<KeyEvent>)
    ensures var (segments, _) := SplitAtTerminators(events);
            && |Feed("", events).codes| == |segments| - 1
            && (forall i :: 0 <= i < |segments| - 1 ==> Feed("", events).codes[i] == TypedText(segments[i]))
            && Feed("", events).buffer == TypedText(segments[|segments| - 1])
  {
    var (segments, enters) := SplitAtTerminators(events);
    FeedSegments(segments, enters);
  }

  /** Prefixing the first segment with a key press prefixes the joined stream with it. */
  lemma TerminatedConsFirst(e: KeyEvent, segments: seq<seq<KeyEvent>>, enters: seq<KeyEvent>)
    requires |segments| >= 1 && |enters| == |segments| - 1
    ensures Terminated([[e] + segments[0]] + segments[1..], enters) == [e] + Terminated(segments, enters)
  {
    var segs := [[e] + segments[0]] + segments[1..];
    assert segs[0] == [e] + segments[0] && segs[1..] == segments[1..];
    if |segments| > 1 {
      assert Terminated(segs, enters) == segs[0] + [enters[0]] + Terminated(segs[1..], enters[1..]);
    }
  }

  // ---------------------------------------------------------------------
  // ServerClient: the serial-and-MACs request and its outcome
  // ---------------------------------------------------------------------

  /** What `requests.get` does: return a response, or raise. */
  datatype Reply =
    | Response(status: int, text: string)
    | RequestException(message: string)    // requests.RequestException: timeout, refused, DNS
    | OtherException(message: string)      // any other exception

  /** The two signals of the client: `response_received(success, text)` and `error_occured(message)`. */
  datatype Outcome =
    | ResponseReceived(success: bool, text: string)
    | ErrorOccured(message: string)

  /** A GET of `url`, with or without a timeout in seconds. */
  datatype Request = Get(url: string, timeoutSeconds: Option<nat>)

  /** One run of the client thread: the request it issues, the signal it emits, the error line it logs. */
  datatype RunResult = RunResult(request: Option<Request>, emitted: Option<Outcome>, logged: Option<string>)

  const RequestTimeoutSeconds: nat := 10

  /**
   * The query URL: plain concatenation, nothing escaped. It lies under the
   * endpoint, asks for `/getserial?qr1=` followed by the first code, and ends
   * with the second code.
   */
  function RequestUrl(endpoint: string, qr1: string, qr2: string): (url: string)
    ensures |url| == |endpoint| + 15 + |qr1| + 5 + |qr2|
    ensures url[..|endpoint|] == endpoint
    ensures url[|endpoint|..|endpoint| + 15] == "/getserial?qr1="
    ensures url[|endpoint| + 15..|endpoint| + 15 + |qr1|] == qr1
    ensures url[|endpoint| + 15 + |qr1|..|url| - |qr2|] == "&qr2="
    ensures url[|url| - |qr2|..] == qr2
  {
    endpoint + "/getserial?qr1=" + qr1 + "&qr2=" + qr2
  }

  /** Indexing into a slice is indexing into the whole sequence. */
  lemma SliceAt(u: string, i: nat, j: nat, k: nat)
    requires i <= k < j <= |u|
    ensures u[i..j][k - i] == u[k]
  {
  }

  /** Where the shorter first code ends, the other first code holds the '&' of "&qr2=". */
  lemma AmpersandInLongerCode(endpoint: string, a1: string, a2: string, b1: string, b2: string)
    requires RequestUrl(endpoint, a1, a2) == RequestUrl(endpoint, b1, b2)
    ensures |b1| < |a1| ==> a1[|b1|] == '&'
  {
    if |b1| < |a1| {
      var n := |endpoint| + 15;
      var u := RequestUrl(endpoint, a1, a2);
      SliceAt(u, n, n + |a1|, n + |b1|);
      SliceAt(u, n + |b1|, |u| - |b2|, n + |b1|);
    }
  }

  /** A code without '&' can be read back from the URL: then the URL determines both codes. */
  lemma UrlDeterminesCodes(endpoint: string, a1: string, a2: string, b1: string, b2: string)
    requires '&' !in a1 && '&' !in b1
    requires RequestUrl(endpoint, a1, a2) == RequestUrl(endpoint, b1, b2)
    ensures a1 == b1 && a2 == b2
  {
    AmpersandInLongerCode(endpoint, a1, a2, b1, b2);
    AmpersandInLongerCode(endpoint, b1, b2, a1, a2);
    var n := |endpoint| + 15;
    var u := RequestUrl(endpoint, a1, a2);
    assert a1 == u[n..n + |a1|] == b1;
  }

  /** Without escaping, a code holding "&qr2=" makes two different code pairs send the same URL. */
  lemma UrlNotEscaped(endpoint: string)
    ensures RequestUrl(endpoint, "A&qr2=B", "C") == RequestUrl(endpoint, "A", "B&qr2=C")
    ensures ("A&qr2=B", "C") != ("A", "B&qr2=C")
  {
    assert "A&qr2=B" + "&qr2=" + "C" == "A" + "&qr2=" + "B&qr2=C";
    assert RequestUrl(endpoint, "A&qr2=B", "C")
        == endpoint + "/getserial?qr1=" + ("A&qr2=B" + "&qr2=" + "C");
    assert RequestUrl(endpoint, "A", "B&qr2=C")
        == endpoint + "/getserial?qr1=" + ("A" + "&qr2=" + "B&qr2=C");
  }

  /** The signal a reply maps to: status 200 is success, any other status is failure, a request error is an error. */
  function Classify(reply: Reply): (o: Option<Outcome>)
    ensures reply.Response? <==> o.Some? && o.value.ResponseReceived?
    ensures reply.RequestException? <==> o.Some? && o.value.ErrorOccured?
    ensures o.Some? && o.value.ResponseReceived? ==>
              (o.value.success <==> reply.status == 200) && o.value.text == reply.text
    ensures o.Some? && o.value.ErrorOccured? ==> o.value.message == reply.message
  {
    match reply
    case Response(status, text) => Some(ResponseReceived(status == 200, text))
    case RequestException(message) => Some(ErrorOccured(message))
    case OtherException(_) => None
  }

  class ServerClient {
    const endpoint: string
    var qr1: Option<string>
    var qr2: Option<string>

    constructor (endpoint: string)
      ensures this.endpoint == endpoint && qr1 == None && qr2 == None
    {
      this.endpoint := endpoint;
      qr1, qr2 := None, None;
    }

    /** Takes the first two codes and ignores the rest; fewer than two raise IndexError part way. */
    method SetCodes(codes: seq<string>) returns (raised: Option<PyError>)
      modifies this
      ensures raised == if |codes| < 2 then Some(IndexError) else None
      ensures qr1 == if |codes| >= 1 then Some(codes[0]) else old(qr1)
      ensures qr2 == if |codes| >= 2 then Some(codes[1]) else old(qr2)
    {
      if |codes| == 0 {
        return Some(IndexError);
      }
      qr1 := Some(codes[0]);
      if |codes| == 1 {
        return Some(IndexError);
      }
      qr2 := Some(codes[1]);
      raised := None;
    }

    /**
     * The thread body, given what `requests.get` does. With a code unset the
     * URL concatenation raises TypeError before any request; a RequestException
     * is both signalled and logged; any other exception escapes the thread.
     */
    function Run(reply: Reply): (r: RunResult)
      reads this
      ensures r.request.Some? <==> qr1.Some? && qr2.Some?
      ensures r.request.Some? ==>
                r.request.value == Get(RequestUrl(endpoint, qr1.value, qr2.value), Some(RequestTimeoutSeconds))
                && r.emitted == Classify(reply)
                && (r.logged.Some? <==> reply.RequestException?)
                && (r.logged.Some? ==> r.logged.value == reply.message)
      ensures r.request.None? ==> r.emitted.None? && r.logged.None?
    {
      if qr1.None? || qr2.None? then RunResult(None, None, None)
      else
        var request := Get(RequestUrl(endpoint, qr1.value, qr2.value), Some(RequestTimeoutSeconds));
        var logged := if reply.RequestException? then Some(reply.message) else None;
        RunResult(Some(request), Classify(reply), logged)
    }
  }
}
