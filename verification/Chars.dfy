/** Character classes and the text operations of the Python scripts. */
module Chars {

  /** The characters that Python's `str.isspace` and the regular expression `\s` accept. */
  predicate IsSpace(c: char) {
    || '\t' <= c <= '\r'
    || '\U{1c}' <= c <= ' '
    || c == '\U{85}' || c == '\U{a0}' || c == '\U{1680}'
    || '\U{2000}' <= c <= '\U{200a}'
    || c == '\U{2028}' || c == '\U{2029}' || c == '\U{202f}' || c == '\U{205f}' || c == '\U{3000}'
  }

  /** `s.lstrip` and `s.rstrip` over a class of characters. */
  function StripLeft(s: string, p: char -> bool): string {
    if s != "" && p(s[0]) then StripLeft(s[1..], p) else s
  }

  function StripRight(s: string, p: char -> bool): string {
    if s != "" && p(s[|s| - 1]) then StripRight(s[..|s| - 1], p) else s
  }

  function Strip(s: string, p: char -> bool): string {
    StripRight(StripLeft(s, p), p)
  }

  predicate Stripped(s: string, p: char -> bool) {
    s != "" ==> !p(s[0]) && !p(s[|s| - 1])
  }

  lemma {:induction false} StripLeftIsSuffix(s: string, p: char -> bool)
    ensures var r := StripLeft(s, p);
            && |r| <= |s| && r == s[|s| - |r|..]
            && (forall j :: 0 <= j < |s| - |r| ==> p(s[j]))
            && (r != "" ==> !p(r[0]))
            && (s != "" && !p(s[|s| - 1]) ==> r != "")
  {
    if s != "" && p(s[0]) {
      StripLeftIsSuffix(s[1..], p);
    }
  }

  lemma {:induction false} StripRightIsPrefix(s: string, p: char -> bool)
    ensures var r := StripRight(s, p);
            && |r| <= |s| && r == s[..|r|]
            && (forall j :: |r| <= j < |s| ==> p(s[j]))
            && (r != "" ==> !p(r[|r| - 1]))
            && (s != "" && !p(s[0]) ==> r != "")
  {
    if s != "" && p(s[|s| - 1]) {
      StripRightIsPrefix(s[..|s| - 1], p);
    }
  }

  /** Stripping cuts out the slice whose ends are not in the class; all it drops is in the class. */
  lemma StripIsSlice(s: string, p: char -> bool) returns (i: nat)
    ensures var r := Strip(s, p); i + |r| <= |s| && r == s[i..i + |r|] && Stripped(r, p)
    ensures forall j :: 0 <= j < i || i + |Strip(s, p)| <= j < |s| ==> p(s[j])
    ensures s != "" && (!p(s[0]) || !p(s[|s| - 1])) ==> Strip(s, p) != ""
  {
    StripLeftIsSuffix(s, p);
    StripRightIsPrefix(StripLeft(s, p), p);
    i := |s| - |StripLeft(s, p)|;
    if s != "" && !p(s[0]) {
      assert StripLeft(s, p) == s;
    }
  }

  /** Whatever of the class is put around a stripped text comes off again. */
  lemma StripAround(left: string, s: string, right: string, p: char -> bool)
    requires s != "" && Stripped(s, p)
    requires (forall c :: c in left ==> p(c)) && (forall c :: c in right ==> p(c))
    ensures Strip(left + s + right, p) == s
  {
    assert left + s + right == left + (s + right);
    StripLeftOff(left, s + right, p);
    StripRightOff(s, right, p);
  }

  lemma {:induction false} StripLeftOff(left: string, s: string, p: char -> bool)
    requires s != "" && !p(s[0]) && forall c :: c in left ==> p(c)
    ensures StripLeft(left + s, p) == s
  {
    if left == "" {
      assert left + s == s;
    } else {
      assert (left + s)[1..] == left[1..] + s;
      StripLeftOff(left[1..], s, p);
    }
  }

  lemma {:induction false} StripRightOff(s: string, right: string, p: char -> bool)
    requires s != "" && !p(s[|s| - 1]) && forall c :: c in right ==> p(c)
    ensures StripRight(s + right, p) == s
  {
    if right == "" {
      assert s + right == s;
    } else {
      var n := |right| - 1;
      assert (s + right)[..|s + right| - 1] == s + right[..n];
      StripRightOff(s, right[..n], p);
    }
  }

  lemma StripNothing(s: string, p: char -> bool)
    requires Stripped(s, p)
    ensures Strip(s, p) == s
  {
  }

  lemma SliceOfSlice(s: string, i: nat, n: nat, m: nat, k: nat, l: nat)
    requires i + n <= |s| && m <= n && k + l <= m
    ensures s[i..i + n][..m][k..k + l] == s[i + k..i + k + l]
  {
    var t := s[i..i + n][..m];
    assert t == s[i..i + m];
    var a, b := t[k..k + l], s[i + k..i + k + l];
    forall q | 0 <= q < l ensures a[q] == b[q] {
      assert t[k + q] == s[i + (k + q)];
    }
  }
}
