/**
 * The string operations of Go's `strings` package that the package relies on:
 * `TrimSpace` (to decide whether captured stderr is blank) and `Join` (for `ArgString`).
 * `SplitOnSpace`, Go's `Split` on a single space, is not used by the package; it is
 * the inverse of `Join` that the round-trip lemmas are stated with.
 */
module Text {

  /** Go's `unicode.IsSpace`: the Latin-1 spaces plus the Unicode White_Space characters. */
  predicate IsSpace(c: char) {
    var n := c as int;
    || (0x09 <= n <= 0x0D) || n == 0x20 || n == 0x85 || n == 0xA0 || n == 0x1680
    || (0x2000 <= n <= 0x200A) || n == 0x2028 || n == 0x2029 || n == 0x202F
    || n == 0x205F || n == 0x3000
  }

  predicate AllSpace(s: string) {
    forall i :: 0 <= i < |s| ==> IsSpace(s[i])
  }

  /** Drops leading white space: the result is a suffix of `s`, and only spaces were dropped. */
  function TrimLeft(s: string): (r: string)
    ensures |r| <= |s| && r == s[|s| - |r|..]
    ensures forall i :: 0 <= i < |s| - |r| ==> IsSpace(s[i])
    ensures r == [] || !IsSpace(r[0])
    decreases |s|
  {
    if |s| > 0 && IsSpace(s[0]) then TrimLeft(s[1..]) else s
  }

  /** Drops trailing white space: the result is a prefix of `s`, and only spaces were dropped. */
  function TrimRight(s: string): (r: string)
    ensures |r| <= |s| && r == s[..|r|]
    ensures forall i :: |r| <= i < |s| ==> IsSpace(s[i])
    ensures r == [] || !IsSpace(r[|r| - 1])
    decreases |s|
  {
    if |s| > 0 && IsSpace(s[|s| - 1]) then TrimRight(s[..|s| - 1]) else s
  }

  /** Go's `strings.TrimSpace`: blank exactly when every character is white space. */
  function TrimSpace(s: string): (r: string)
    ensures r == [] <==> AllSpace(s)
    ensures r != [] ==> !IsSpace(r[0]) && !IsSpace(r[|r| - 1])
    ensures exists a, b :: 0 <= a <= b <= |s| && r == s[a..b]
  {
    var t := TrimLeft(s);
    var r := TrimRight(t);
    assert r != [] ==> r[0] == t[0];
    var a := |s| - |t|;
    assert r == s[a..a + |r|];
    r
  }

  /** Go's `strings.Join`: the pieces in order, the separator only between them. */
  function Join(elems: seq<string>, sep: string): (r: string)
    ensures elems == [] ==> r == ""
    ensures |elems| >= 1 ==> elems[0] <= r
    ensures |elems| >= 1 ==> |r| >= |elems[|elems| - 1]| && r[|r| - |elems[|elems| - 1]|..] == elems[|elems| - 1]
    decreases |elems|
  {
    if |elems| == 0 then ""
    else if |elems| == 1 then elems[0]
    else elems[0] + sep + Join(elems[1..], sep)
  }

  /** Go's `strings.Split(s, " ")`: never empty, and no piece contains the separator. */
  function SplitOnSpace(s: string): (r: seq<string>)
    ensures |r| >= 1
    ensures forall i :: 0 <= i < |r| ==> ' ' !in r[i]
    decreases |s|
  {
    if |s| == 0 then [""]
    else
      var rest := SplitOnSpace(s[1..]);
      if s[0] == ' ' then [""] + rest
      else [[s[0]] + rest[0]] + rest[1..]
  }

  lemma {:induction false} SplitWord(x: string)
    requires ' ' !in x
    ensures SplitOnSpace(x) == [x]
    decreases |x|
  {
    if |x| > 0 {
      assert ' ' !in x[1..];
      SplitWord(x[1..]);
      assert [x[0]] + x[1..] == x;
    }
  }

  lemma {:induction false} SplitWordThenRest(x: string, t: string)
    requires ' ' !in x
    ensures SplitOnSpace(x + " " + t) == [x] + SplitOnSpace(t)
    decreases |x|
  {
    var s := x + " " + t;
    if |x| == 0 {
      assert s[0] == ' ' && s[1..] == t;
    } else {
      assert ' ' !in x[1..];
      SplitWordThenRest(x[1..], t);
      assert s[0] == x[0] && s[1..] == x[1..] + " " + t;
      assert [x[0]] + x[1..] == x;
    }
  }

  /** Joining with a space and splitting on it gives the pieces back when none holds a space. */
  lemma {:induction false} JoinSplitRoundTrip(elems: seq<string>)
    requires |elems| >= 1
    requires forall i :: 0 <= i < |elems| ==> ' ' !in elems[i]
    ensures SplitOnSpace(Join(elems, " ")) == elems
    decreases |elems|
  {
    if |elems| == 1 {
      SplitWord(elems[0]);
    } else {
      JoinSplitRoundTrip(elems[1..]);
      SplitWordThenRest(elems[0], Join(elems[1..], " "));
      assert [elems[0]] + elems[1..] == elems;
    }
  }
}
