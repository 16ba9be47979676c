/**
 * Python's `str.split()` with no separator: runs of whitespace separate
 * tokens, and leading, trailing and repeated whitespace yields no empty token.
 */
module PyStr {

  /** The characters `str.isspace()` holds of, which `str.split()` splits on. */
  predicate IsSpace(c: char) {
    || ('\U{9}' <= c <= '\U{D}')      // \t \n \v \f \r
    || ('\U{1C}' <= c <= '\U{20}')    // file, group, record, unit separators, space
    || c == '\U{85}' || c == '\U{A0}' || c == '\U{1680}'
    || ('\U{2000}' <= c <= '\U{200A}')
    || c == '\U{2028}' || c == '\U{2029}' || c == '\U{202F}' || c == '\U{205F}'
    || c == '\U{3000}'
  }

  predicate AllSpace(s: string) {
    forall i :: 0 <= i < |s| ==> IsSpace(s[i])
  }

  /** A token `str.split()` can return: non-empty and free of whitespace. */
  predicate IsWord(w: string) {
    w != [] && forall i :: 0 <= i < |w| ==> !IsSpace(w[i])
  }

  /** The end of the run of whitespace that starts at index `k` of `s`. */
  function SpaceEnd(s: string, k: nat): (e: nat)
    requires k <= |s|
    ensures k <= e <= |s|
    ensures e == |s| || !IsSpace(s[e])
    decreases |s| - k
  {
    if k < |s| && IsSpace(s[k]) then SpaceEnd(s, k + 1) else k
  }

  /** Everything `SpaceEnd` skips is whitespace. */
  lemma {:induction false} SpaceEndRun(s: string, k: nat)
    requires k <= |s|
    ensures forall i :: k <= i < SpaceEnd(s, k) ==> IsSpace(s[i])
    decreases |s| - k
  {
    if k < |s| && IsSpace(s[k]) {
      SpaceEndRun(s, k + 1);
    }
  }

  /** The end of the run of non-whitespace that starts at index `k` of `s`. */
  function WordEnd(s: string, k: nat): (e: nat)
    requires k <= |s|
    ensures k <= e <= |s|
    ensures e == |s| || IsSpace(s[e])
    ensures k < |s| && !IsSpace(s[k]) ==> k < e
    decreases |s| - k
  {
    if k < |s| && !IsSpace(s[k]) then WordEnd(s, k + 1) else k
  }

  /** Everything `WordEnd` passes over is non-whitespace. */
  lemma {:induction false} WordEndRun(s: string, k: nat)
    requires k <= |s|
    ensures forall i :: k <= i < WordEnd(s, k) ==> !IsSpace(s[i])
    decreases |s| - k
  {
    if k < |s| && !IsSpace(s[k]) {
      WordEndRun(s, k + 1);
    }
  }

  /** The tokens of `s[k..]`, found by scanning `s` itself from index `k`. */
  function SplitFrom(s: string, k: nat): (tokens: seq<string>)
    requires k <= |s|
    decreases |s| - k
  {
    var j := SpaceEnd(s, k);
    if j == |s| then []
    else
      var e := WordEnd(s, j);
      [s[j..e]] + SplitFrom(s, e)
  }

  /**
   * `s.split()`: every token is a non-empty run of non-whitespace, and there
   * is none exactly when `s` is all whitespace.
   */
  function Split(s: string): (tokens: seq<string>)
    ensures forall i :: 0 <= i < |tokens| ==> IsWord(tokens[i])
    ensures tokens == [] <==> AllSpace(s)
  {
    SplitFromTokens(s, 0);
    SplitFrom(s, 0)
  }

  /** The tokens `SplitFrom` finds are words, and there is none exactly when the rest of `s` is whitespace. */
  lemma {:induction false} SplitFromTokens(s: string, k: nat)
    requires k <= |s|
    ensures forall i :: 0 <= i < |SplitFrom(s, k)| ==> IsWord(SplitFrom(s, k)[i])
    ensures SplitFrom(s, k) == [] <==> forall i :: k <= i < |s| ==> IsSpace(s[i])
    decreases |s| - k
  {
    var j := SpaceEnd(s, k);
    if j < |s| {
      var e := WordEnd(s, j);
      SpaceEndRun(s, k);
      WordEndRun(s, j);
      SplitFromTokens(s, e);
      assert IsWord(s[j..e]);
      assert !IsSpace(s[j]);
    } else {
      SpaceEndRun(s, k);
    }
  }

  /** `sep.join(words)`. */
  function Join(sep: string, words: seq<string>): (joined: string) {
    if words == [] then ""
    else if |words| == 1 then words[0]
    else words[0] + sep + Join(sep, words[1..])
  }

  lemma SpaceEndShift(x: string, y: string, k: nat)
    requires k <= |y|
    ensures SpaceEnd(x + y, |x| + k) == |x| + SpaceEnd(y, k)
    decreases |y| - k
  {
    if k < |y| {
      assert (x + y)[|x| + k] == y[k];
      if IsSpace(y[k]) {
        SpaceEndShift(x, y, k + 1);
      }
    }
  }

  lemma WordEndShift(x: string, y: string, k: nat)
    requires k <= |y|
    ensures WordEnd(x + y, |x| + k) == |x| + WordEnd(y, k)
    decreases |y| - k
  {
    if k < |y| {
      assert (x + y)[|x| + k] == y[k];
      if !IsSpace(y[k]) {
        WordEndShift(x, y, k + 1);
      }
    }
  }

  lemma SpaceEndSkip(s: string, k: nat, j: nat)
    requires k <= j <= |s|
    requires forall i :: k <= i < j ==> IsSpace(s[i])
    ensures SpaceEnd(s, k) == SpaceEnd(s, j)
    decreases j - k
  {
    if k < j {
      SpaceEndSkip(s, k + 1, j);
    }
  }

  lemma SpaceEndPrefix(x: string, y: string, k: nat)
    requires k <= |x| && SpaceEnd(x, k) < |x|
    ensures SpaceEnd(x + y, k) == SpaceEnd(x, k)
    decreases |x| - k
  {
    assert (x + y)[k] == x[k];
    if IsSpace(x[k]) {
      SpaceEndPrefix(x, y, k + 1);
    }
  }

  lemma WordEndPrefix(x: string, y: string, k: nat)
    requires k <= |x|
    requires WordEnd(x, k) < |x| || (y != [] && IsSpace(y[0]))
    ensures WordEnd(x + y, k) == WordEnd(x, k)
    decreases |x| - k
  {
    if k == |x| {
      assert (x + y)[k] == y[0];
    } else {
      assert (x + y)[k] == x[k];
      if !IsSpace(x[k]) {
        WordEndPrefix(x, y, k + 1);
      }
    }
  }

  /** A slice of `x + y` that lies within `y`. */
  lemma SliceRight(x: string, y: string, i: nat, j: nat)
    requires i <= j <= |y|
    ensures (x + y)[|x| + i..|x| + j] == y[i..j]
  {
    assert forall t :: i <= t < j ==> (x + y)[|x| + t] == y[t];
  }

  /** A slice of `x + y` that lies within `x`. */
  lemma SliceLeft(x: string, y: string, i: nat, j: nat)
    requires i <= j <= |x|
    ensures (x + y)[i..j] == x[i..j]
  {
    assert forall t :: i <= t < j ==> (x + y)[t] == x[t];
  }

  /** One token of the scan: the whitespace of `s` ends at `j` and the token runs from `j` to `e`. */
  lemma SplitFromStep(s: string, k: nat, j: nat, e: nat)
    requires k <= |s| && j == SpaceEnd(s, k) < |s| && e == WordEnd(s, j)
    ensures SplitFrom(s, k) == [s[j..e]] + SplitFrom(s, e)
  {
  }

  /** Skipping whitespace before the scan starts changes nothing. */
  lemma SplitFromSkip(s: string, k: nat, j: nat)
    requires k <= j <= |s|
    requires forall i :: k <= i < j ==> IsSpace(s[i])
    ensures SplitFrom(s, k) == SplitFrom(s, j)
  {
    SpaceEndSkip(s, k, j);
  }

  /** Scanning `x + y` past `x` is scanning `y`. */
  lemma {:induction false} SplitFromShift(x: string, y: string, k: nat)
    requires k <= |y|
    ensures SplitFrom(x + y, |x| + k) == SplitFrom(y, k)
    decreases |y| - k
  {
    SpaceEndShift(x, y, k);
    var j := SpaceEnd(y, k);
    if j < |y| {
      var e := WordEnd(y, j);
      WordEndShift(x, y, j);
      var s := x + y;
      SplitFromStep(s, |x| + k, |x| + j, |x| + e);
      SplitFromStep(y, k, j, e);
      SliceRight(x, y, j, e);
      SplitFromShift(x, y, e);
      var t1, t2 := s[|x| + j..|x| + e], y[j..e];
      var r1, r2 := SplitFrom(s, |x| + e), SplitFrom(y, e);
      assert SplitFrom(s, |x| + k) == [t1] + r1;
      assert SplitFrom(y, k) == [t2] + r2;
      assert t1 == t2 && r1 == r2;
    } else {
      assert SpaceEnd(x + y, |x| + k) == |x + y|;
    }
  }

  /** Scanning `a + y`, where `y` starts with whitespace, finds the tokens of `a` and then those after `a`. */
  lemma {:induction false} SplitFromPrefix(a: string, y: string, k: nat)
    requires k <= |a| && y != [] && IsSpace(y[0])
    ensures SplitFrom(a + y, k) == SplitFrom(a, k) + SplitFrom(a + y, |a|)
    decreases |a| - k
  {
    var s := a + y;
    var j := SpaceEnd(a, k);
    if j == |a| {
      SpaceEndRun(a, k);
      assert forall i :: k <= i < |a| ==> s[i] == a[i];
      SplitFromSkip(s, k, |a|);
    } else {
      SpaceEndPrefix(a, y, k);
      var e := WordEnd(a, j);
      assert s[|a|] == y[0];
      WordEndPrefix(a, y, j);
      SliceLeft(a, y, j, e);
      SplitFromPrefix(a, y, e);
    }
  }

  /** Whitespace in front of a string adds no token. */
  lemma SplitAfterSpaces(x: string, y: string)
    requires AllSpace(x)
    ensures Split(x + y) == Split(y)
  {
    assert forall i :: 0 <= i < |x| ==> (x + y)[i] == x[i];
    SplitFromSkip(x + y, 0, |x|);
    SplitFromShift(x, y, 0);
  }

  /**
   * A non-empty run of whitespace between two strings separates their tokens:
   * with SplitWord and the contract of Split this determines `str.split()` on every string.
   */
  lemma SplitAroundSpaces(a: string, ws: string, b: string)
    requires ws != [] && AllSpace(ws)
    ensures Split(a + ws + b) == Split(a) + Split(b)
  {
    var y := ws + b;
    assert a + ws + b == a + y;
    assert y[0] == ws[0];
    SplitFromPrefix(a, y, 0);
    SplitFromShift(a, y, 0);
    SplitAfterSpaces(ws, b);
  }

  /** A single word splits into itself. */
  lemma SplitWord(w: string)
    requires IsWord(w)
    ensures Split(w) == [w]
  {
    assert SpaceEnd(w, 0) == 0;
    assert WordEnd(w, 0) == |w|;
    assert w[0..|w|] == w;
    assert SplitFrom(w, |w|) == [];
  }

  /** Splitting undoes a join of well-formed tokens with any whitespace separator. */
  lemma {:induction false} SplitJoin(sep: string, words: seq<string>)
    requires sep != [] && AllSpace(sep)
    requires forall i :: 0 <= i < |words| ==> IsWord(words[i])
    ensures Split(Join(sep, words)) == words
    decreases |words|
  {
    if words == [] {
    } else if |words| == 1 {
      SplitWord(words[0]);
    } else {
      SplitWord(words[0]);
      SplitAroundSpaces(words[0], sep, Join(sep, words[1..]));
      SplitJoin(sep, words[1..]);
    }
  }

  /** Trailing whitespace adds no token. */
  lemma SplitBeforeSpaces(x: string, ws: string)
    requires ws != [] && AllSpace(ws)
    ensures Split(x + ws) == Split(x)
  {
    assert x + ws == x + ws + "";
    SplitAroundSpaces(x, ws, "");
  }
}
