/** String helpers the components rely on: `String.prototype.trim` and the
    comparison `localeCompare`, which is stood in for by the lexicographic
    order on character codes. Both are total and transitive, which is all the
    sorting proofs use; the stand-in does not collate like a browser locale
    (it puts "Zara" before "amit", and tells apart texts a locale treats as
    equal). */
module Text {

  /** The characters `trim` removes: white space and line terminators. */
  predicate IsSpace(c: char) {
    c == ' ' || c == '\t' || c == '\n' || c == '\r' || c == '\U{000B}' || c == '\U{000C}'
    || c == '\U{00A0}' || c == '\U{1680}' || ('\U{2000}' <= c <= '\U{200A}')
    || c == '\U{2028}' || c == '\U{2029}' || c == '\U{202F}' || c == '\U{205F}'
    || c == '\U{3000}' || c == '\U{FEFF}'
  }

  predicate AllSpace(s: string) {
    forall i :: 0 <= i < |s| ==> IsSpace(s[i])
  }

  function TrimStart(s: string): (r: string)
    ensures |r| <= |s| && r == s[|s| - |r|..]
    ensures AllSpace(s[..|s| - |r|])
    ensures |r| > 0 ==> !IsSpace(r[0])
  {
    if |s| > 0 && IsSpace(s[0]) then
      var t := s[1..];
      var r := TrimStart(t);
      assert s[|s| - |r|..] == t[|t| - |r|..];
      var skipped := s[..|s| - |r|];
      assert AllSpace(skipped) by {
        forall i | 0 <= i < |skipped| ensures IsSpace(skipped[i]) {
          if i > 0 {
            assert skipped[i] == t[..|t| - |r|][i - 1];
          }
        }
      }
      r
    else s
  }

  function TrimEnd(s: string): (r: string)
    ensures |r| <= |s| && r == s[..|r|]
    ensures AllSpace(s[|r|..])
    ensures |r| > 0 ==> !IsSpace(r[|r| - 1])
  {
    if |s| > 0 && IsSpace(s[|s| - 1]) then
      var r := TrimEnd(s[..|s| - 1]);
      assert s[|r|..] == s[..|s| - 1][|r|..] + [s[|s| - 1]];
      r
    else s
  }

  /** `r` starts `s[k..]`, and everything of `s` before and after it is
      white space. */
  ghost predicate MiddleOf(s: string, r: string, k: int) {
    0 <= k <= |s| - |r| && r == s[k..][..|r|] && AllSpace(s[..k]) && AllSpace(s[k..][|r|..])
  }

  /** `s.trim()`: the longest middle part of `s` that neither starts nor ends
      with white space. */
  function Trim(s: string): (r: string)
    ensures |r| <= |s|
    ensures exists k :: MiddleOf(s, r, k)
    ensures |r| > 0 ==> !IsSpace(r[0]) && !IsSpace(r[|r| - 1])
  {
    TrimMiddle(s);
    TrimEnd(TrimStart(s))
  }

  /** Trimming the front and then the back leaves a middle part of `s`. */
  lemma TrimMiddle(s: string)
    ensures MiddleOf(s, TrimEnd(TrimStart(s)), |s| - |TrimStart(s)|)
  {
    var t := TrimStart(s);
    var k := |s| - |t|;
    assert t == s[k..];
    var r := TrimEnd(t);
    assert r == s[k..][..|r|];
    assert AllSpace(s[k..][|r|..]);
  }

  /** What the handlers' `!x.trim()` test rejects: the text is blank, that is
      empty or made only of white space. */
  lemma {:induction false} TrimBlank(s: string)
    ensures Trim(s) == "" <==> AllSpace(s)
  {
    var t := TrimStart(s);
    var k := |s| - |t|;
    if Trim(s) == "" {
      assert AllSpace(t[0..]) && t[0..] == t;
      forall i | 0 <= i < |s| ensures IsSpace(s[i]) {
        assert s[i] == s[..k][i];
      }
    }
  }

  /** Trimming keeps a text that has no white space at either end. */
  lemma TrimKeepsTrimmed(s: string)
    requires |s| > 0 ==> !IsSpace(s[0]) && !IsSpace(s[|s| - 1])
    ensures Trim(s) == s
  {
  }

  /** `a.localeCompare(b)`: negative, zero or positive. */
  function LexCompare(a: string, b: string): (r: int)
    ensures -1 <= r <= 1
  {
    if a == [] then (if b == [] then 0 else -1)
    else if b == [] then 1
    else if a[0] < b[0] then -1
    else if a[0] > b[0] then 1
    else LexCompare(a[1..], b[1..])
  }

  lemma {:induction false} LexCompareFlip(a: string, b: string)
    ensures LexCompare(b, a) == -LexCompare(a, b)
  {
    if a != [] && b != [] && a[0] == b[0] {
      LexCompareFlip(a[1..], b[1..]);
    }
  }

  lemma {:induction false} LexCompareTrans(a: string, b: string, c: string)
    requires LexCompare(a, b) <= 0 && LexCompare(b, c) <= 0
    ensures LexCompare(a, c) <= 0
  {
    if a != [] && b != [] && c != [] && a[0] == b[0] == c[0] {
      LexCompareTrans(a[1..], b[1..], c[1..]);
    }
  }
}
