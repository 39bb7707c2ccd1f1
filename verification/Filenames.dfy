/** The two filename normalisers, of the download script and of the search script. */
module Filenames {
  import opened Prelude
  import opened Chars

  const MAX_LEN := 150
  const UNNAMED := "unnamed_workflow"
  const INVALID := "invalid_name"

  /** The characters stripped at both ends. */
  predicate Edge(c: char) { c == '.' || c == '_' || c == ' ' }

  predicate Slash(c: char) { c == '/' || c == '\\' }

  /** The characters the download version removes. */
  predicate Removed(c: char) {
    c in "<>:\"|?*" || c < ' '
  }

  /** The characters of which the download version keeps one underscore per run. */
  predicate Separator(c: char) { IsSpace(c) || c == '.' || c == '_' }

  /** The characters the search version replaces one by one. */
  predicate Replaced(c: char) { c in "\\/*?:\"<>|" }

  function Substitute(s: string, p: char -> bool, c: char): string {
    if s == "" then "" else [if p(s[0]) then c else s[0]] + Substitute(s[1..], p, c)
  }

  function Delete(s: string, p: char -> bool): string {
    if s == "" then "" else (if p(s[0]) then "" else [s[0]]) + Delete(s[1..], p)
  }

  /** Replaces every maximal run of characters in the class by one underscore. */
  function Collapse(s: string, p: char -> bool): string
    decreases |s|
  {
    if s == "" then ""
    else if p(s[0]) then "_" + Collapse(AfterRun(s, p), p)
    else [s[0]] + Collapse(s[1..], p)
  }

  function AfterRun(s: string, p: char -> bool): (r: string)
    ensures |r| <= |s| && (s != "" && p(s[0]) ==> |r| < |s|)
    ensures r != "" ==> !p(r[0])
  {
    if s != "" && p(s[0]) then AfterRun(s[1..], p) else s
  }

  /** Strips, limits the length and strips again, and names what is left empty. */
  function Finish(s: string): string {
    var stripped := Strip(s, Edge);
    var short := if |stripped| > MAX_LEN then Strip(stripped[..MAX_LEN], Edge) else stripped;
    if short == "" then UNNAMED else short
  }

  /** `sanitize_filename` of the download script; a name that is no string is replaced. */
  function DownloadName(name: Option<string>): string {
    var s := if name.Some? then name.value else INVALID;
    Finish(Collapse(Delete(Substitute(s, Slash, '_'), Removed), Separator))
  }

  /** `sanitize_filename` of the search script. */
  function SearchName(name: Option<string>): string {
    var s := if name.Some? then name.value else INVALID;
    Finish(Collapse(Substitute(s, Replaced, '_'), IsSpace))
  }

  // ---------- What a finished name looks like ----------

  ghost predicate Trimmed(s: string) {
    s != "" && |s| <= MAX_LEN && Stripped(s, Edge)
  }

  /** No removed or replaced character, no separator but single underscores. */
  ghost predicate CleanText(s: string) {
    && (forall i :: 0 <= i < |s| ==> !Removed(s[i]) && !Replaced(s[i]) && (Separator(s[i]) ==> s[i] == '_'))
    && (forall i :: 0 <= i < |s| - 1 ==> s[i] != '_' || s[i + 1] != '_')
  }

  ghost predicate SearchText(s: string) {
    forall i :: 0 <= i < |s| ==> !Replaced(s[i]) && !IsSpace(s[i])
  }

  lemma CleanSlice(s: string, i: nat, j: nat)
    requires CleanText(s) && i <= j <= |s|
    ensures CleanText(s[i..j])
  {
    var t := s[i..j];
    forall k | 0 <= k < |t| - 1 ensures t[k] != '_' || t[k + 1] != '_' {
      assert t[k] == s[i + k] && t[k + 1] == s[i + k + 1];
    }
  }

  /** Finishing yields a trimmed name that is a slice of the text, or the default name. */
  lemma FinishIsSlice(s: string) returns (i: nat, j: nat)
    ensures i <= j <= |s|
    ensures Trimmed(Finish(s)) && (Finish(s) == s[i..j] || Finish(s) == UNNAMED)
  {
    i := StripIsSlice(s, Edge);
    var t := Strip(s, Edge);
    j := i + |t|;
    if |t| > MAX_LEN {
      var k := StripIsSlice(t[..MAX_LEN], Edge);
      var u := Strip(t[..MAX_LEN], Edge);
      SliceOfSlice(s, i, |t|, MAX_LEN, k, |u|);
      i, j := i + k, i + k + |u|;
    }
  }

  lemma FinishTrimmed(s: string)
    requires Trimmed(s)
    ensures Finish(s) == s
  {
    StripNothing(s, Edge);
  }

  // ---------- The download version ----------

  lemma {:induction false} DeleteCleans(s: string)
    ensures forall c :: c in Delete(Substitute(s, Slash, '_'), Removed) ==> !Removed(c) && !Slash(c)
  {
    if s != "" {
      DeleteCleans(s[1..]);
    }
  }

  lemma AfterRunIsSuffix(s: string, p: char -> bool)
    ensures var r := AfterRun(s, p); forall c :: c in r ==> c in s
  {
  }

  lemma {:induction false} CollapseCleans(s: string)
    requires forall c :: c in s ==> !Removed(c) && !Slash(c)
    ensures CleanText(Collapse(s, Separator))
    ensures s != "" && !Separator(s[0]) ==> Collapse(s, Separator) != "" && Collapse(s, Separator)[0] == s[0]
    decreases |s|
  {
    if s != "" {
      if Separator(s[0]) {
        var t := AfterRun(s, Separator);
        forall c | c in t ensures !Removed(c) && !Slash(c) {
          AfterRunIsSuffix(s, Separator);
          assert c in s;
        }
        CollapseCleans(t);
      } else {
        CollapseCleans(s[1..]);
      }
    }
  }

  lemma UnnamedIsClean()
    ensures CleanText(UNNAMED) && Trimmed(UNNAMED)
  {
    assert |UNNAMED| == 16;
  }

  /** The download version yields a non-empty clean name of at most 150 characters, for every input. */
  lemma DownloadNameIsClean(name: Option<string>)
    ensures Trimmed(DownloadName(name)) && CleanText(DownloadName(name))
  {
    var s := if name.Some? then name.value else INVALID;
    var d := Delete(Substitute(s, Slash, '_'), Removed);
    DeleteCleans(s);
    CollapseCleans(d);
    var i, j := FinishIsSlice(Collapse(d, Separator));
    CleanSlice(Collapse(d, Separator), i, j);
    UnnamedIsClean();
  }

  lemma {:induction false} SubstituteNothing(s: string, p: char -> bool, c: char)
    requires forall i :: 0 <= i < |s| ==> !p(s[i])
    ensures Substitute(s, p, c) == s
  {
    if s != "" {
      SubstituteNothing(s[1..], p, c);
    }
  }

  lemma {:induction false} DeleteNothing(s: string, p: char -> bool)
    requires forall i :: 0 <= i < |s| ==> !p(s[i])
    ensures Delete(s, p) == s
  {
    if s != "" {
      DeleteNothing(s[1..], p);
    }
  }

  /** Single underscores are all that is left to collapse, so collapsing changes nothing. */
  lemma {:induction false} CollapseNothing(s: string, p: char -> bool)
    requires forall i :: 0 <= i < |s| && p(s[i]) ==> s[i] == '_'
    requires forall i :: 0 <= i < |s| - 1 ==> !p(s[i]) || !p(s[i + 1])
    ensures Collapse(s, p) == s
  {
    if s != "" {
      var t := s[1..];
      assert forall i :: 0 <= i < |t| ==> t[i] == s[i + 1];
      CollapseNothing(t, p);
      if p(s[0]) {
        assert t != "" ==> !p(s[0 + 1]);
        assert AfterRun(s, p) == AfterRun(t, p) == t;
      }
    }
  }

  lemma CleanNamesAreKept(s: string)
    requires Trimmed(s) && CleanText(s)
    ensures DownloadName(Some(s)) == s && SearchName(Some(s)) == s
  {
    SubstituteNothing(s, Slash, '_');
    DeleteNothing(s, Removed);
    CollapseNothing(s, Separator);
    SubstituteNothing(s, Replaced, '_');
    CollapseNothing(s, IsSpace);
    FinishTrimmed(s);
  }

  /** The download version is idempotent, and the search version leaves its names alone. */
  lemma DownloadNamesAreFixed(name: Option<string>)
    ensures DownloadName(Some(DownloadName(name))) == DownloadName(name)
    ensures SearchName(Some(DownloadName(name))) == DownloadName(name)
  {
    DownloadNameIsClean(name);
    CleanNamesAreKept(DownloadName(name));
  }

  // ---------- The search version ----------

  lemma {:induction false} SubstituteRemoves(s: string)
    ensures forall c :: c in Substitute(s, Replaced, '_') ==> !Replaced(c)
  {
    if s != "" {
      SubstituteRemoves(s[1..]);
    }
  }

  lemma {:induction false} CollapseSpaces(s: string)
    requires forall c :: c in s ==> !Replaced(c)
    ensures SearchText(Collapse(s, IsSpace))
    decreases |s|
  {
    if s != "" {
      if IsSpace(s[0]) {
        AfterRunIsSuffix(s, IsSpace);
        CollapseSpaces(AfterRun(s, IsSpace));
      } else {
        CollapseSpaces(s[1..]);
      }
    }
  }

  /** The search version yields a trimmed name without its forbidden characters and white space. */
  lemma SearchNameIsTrimmed(name: Option<string>)
    ensures Trimmed(SearchName(name)) && SearchText(SearchName(name))
  {
    var s := Substitute(if name.Some? then name.value else INVALID, Replaced, '_');
    SubstituteRemoves(if name.Some? then name.value else INVALID);
    CollapseSpaces(s);
    SearchTextSlices(Collapse(s, IsSpace));
  }

  lemma SearchTextSlices(s: string)
    requires SearchText(s)
    ensures Trimmed(Finish(s)) && SearchText(Finish(s))
  {
    var i, j := FinishIsSlice(s);
    UnnamedIsClean();
    if Finish(s) == s[i..j] {
      assert forall k :: 0 <= k < |s[i..j]| ==> s[i..j][k] == s[i + k];
    }
  }

  lemma SearchNamesAreFixed(name: Option<string>)
    ensures SearchName(Some(SearchName(name))) == SearchName(name)
  {
    var s := SearchName(name);
    SearchNameIsTrimmed(name);
    SubstituteNothing(s, Replaced, '_');
    CollapseNothing(s, IsSpace);
    FinishTrimmed(s);
  }

  // ---------- What is left of the input ----------

  /** The characters that finishing takes off the ends. */
  predicate AtEnd(c: char) {
    c == '.' || c == '_' || c == ' '
  }

  /**
   Finishing drops only dots, underscores and blanks at the ends, all of them, and limits the length to 150; a
   text of nothing else gets the default name.
   */
  lemma FinishDrops(s: string) returns (i: nat, j: nat, h: nat)
    ensures i <= h <= j <= |s|
    ensures forall k :: 0 <= k < i || j <= k < |s| ==> AtEnd(s[k])
    ensures i < j ==> !AtEnd(s[i]) && !AtEnd(s[j - 1])
    ensures i == j ==> Finish(s) == "unnamed_workflow"
    ensures i < j ==> i < h && Finish(s) == s[i..h]
    ensures j - i <= 150 ==> h == j
    ensures j - i > 150 ==> h <= i + 150 && !AtEnd(s[h - 1]) && forall k :: h <= k < i + 150 ==> AtEnd(s[k])
  {
    i, j := StrippedEnds(s);
    h := j;
    if j - i > 150 {
      h := CutDrops(s, i, s[i..j]);
    }
  }

  lemma StrippedEnds(s: string) returns (i: nat, j: nat)
    ensures i <= j <= |s| && Strip(s, Edge) == s[i..j]
    ensures forall k :: 0 <= k < i || j <= k < |s| ==> AtEnd(s[k])
    ensures i < j ==> !AtEnd(s[i]) && !AtEnd(s[j - 1])
  {
    i := StripIsSlice(s, Edge);
    j := i + |Strip(s, Edge)|;
    assert i < j ==> s[i..j][0] == s[i] && s[i..j][j - i - 1] == s[j - 1];
  }

  lemma CutDrops(s: string, i: nat, t: string) returns (h: nat)
    requires i + |t| <= |s| && t == s[i..i + |t|] && |t| > 150 && !Edge(t[0])
    ensures i < h <= i + 150 && Strip(t[..150], Edge) == s[i..h]
    ensures !AtEnd(s[h - 1]) && forall k :: h <= k < i + 150 ==> AtEnd(s[k])
  {
    var u := t[..150];
    var k := StripIsSlice(u, Edge);
    assert u[0] == t[0] && !Edge(u[0]);
    h := i + |Strip(u, Edge)|;
    SliceOfSlice(s, i, |t|, 150, 0, |Strip(u, Edge)|);
    assert forall q :: 0 <= q < 150 ==> u[q] == s[i + q];
  }

  /**
   The download version read off the input from left to right: characters that are invalid go, and the others
   stay, with one underscore where slashes, dots, underscores or white space stood between two of them.
   */
  function Words(s: string, gap: bool): string {
    if s == "" then ""
    else if s[0] in "<>:\"|?*" || s[0] < ' ' then Words(s[1..], gap)
    else if s[0] in "/\\._" || IsSpace(s[0]) then Words(s[1..], true)
    else (if gap then "_" else "") + [s[0]] + Words(s[1..], false)
  }

  /** Without an underscore in front. */
  function NameText(s: string): string {
    var w := Words(s, false);
    if w != "" && w[0] == '_' then w[1..] else w
  }

  /** The same for a text in which only separators are left to collapse. */
  function Joined(d: string, gap: bool): string {
    if d == "" then ""
    else if Separator(d[0]) then Joined(d[1..], true)
    else (if gap then "_" else "") + [d[0]] + Joined(d[1..], false)
  }

  lemma {:induction false} WordsAreJoined(s: string, gap: bool)
    ensures Words(s, gap) == Joined(Delete(Substitute(s, Slash, '_'), Removed), gap)
  {
    if s != "" {
      var c := if Slash(s[0]) then '_' else s[0];
      var d := Substitute(s[1..], Slash, '_');
      assert Substitute(s, Slash, '_') == [c] + d;
      DeleteFirst(c, d);
      WordsAreJoined(s[1..], if Removed(s[0]) then gap else Separator(c));
      JoinedFirst(c, Delete(d, Removed), gap);
      CharClasses(s[0]);
      assert "" + Delete(d, Removed) == Delete(d, Removed);
    }
  }

  lemma CharClasses(c: char)
    ensures c in "<>:\"|?*" || c < ' ' <==> Removed(c)
    ensures c in "/\\._" || IsSpace(c) <==> Slash(c) || Separator(c)
    ensures !Removed('_') && Separator('_') && (Slash(c) ==> !Removed(c))
  {
    var breaks := "/\\._";
    assert breaks[0] == '/' && breaks[1] == '\\' && breaks[2] == '.' && breaks[3] == '_';
  }

  lemma DeleteFirst(c: char, s: string)
    ensures Delete([c] + s, Removed) == (if Removed(c) then "" else [c]) + Delete(s, Removed)
  {
    assert ([c] + s)[1..] == s;
  }

  lemma JoinedFirst(c: char, d: string, gap: bool)
    ensures Joined([c] + d, gap)
         == if Separator(c) then Joined(d, true) else (if gap then "_" else "") + [c] + Joined(d, false)
  {
    assert ([c] + d)[1..] == d;
  }

  lemma {:induction false} GapAfterRun(d: string)
    ensures var rest := AfterRun(d, Separator);
            Joined(d, true) == if rest == "" then "" else "_" + Joined(rest, false)
  {
    if d != "" && Separator(d[0]) {
      GapAfterRun(d[1..]);
    }
  }

  lemma StripRightFirst(c: char, s: string, p: char -> bool)
    requires StripRight(s, p) != ""
    ensures StripRight([c] + s, p) == [c] + StripRight(s, p)
    decreases |s|
  {
    if p(s[|s| - 1]) {
      assert ([c] + s)[..|s|] == [c] + s[..|s| - 1];
      StripRightFirst(c, s[..|s| - 1], p);
    }
  }

  lemma StripRightEmpty(c: char, s: string, p: char -> bool)
    requires StripRight(s, p) == ""
    ensures StripRight([c] + s, p) == if p(c) then "" else [c]
    decreases |s|
  {
    if s == "" {
      assert [c] + s == [c] && [c][..0] == "";
    } else {
      assert ([c] + s)[..|s|] == [c] + s[..|s| - 1];
      StripRightEmpty(c, s[..|s| - 1], p);
    }
  }

  /** Collapsing and stripping at the right is joining. */
  lemma {:induction false} CollapseJoins(d: string)
    ensures StripRight(Collapse(d, Separator), Edge) == Joined(d, false)
    ensures d != "" && !Separator(d[0]) ==> StripRight(Collapse(d, Separator), Edge) != ""
    decreases |d|
  {
    if d == "" {
    } else if Separator(d[0]) {
      CollapseJoins(AfterRun(d, Separator));
      RunJoins(d);
    } else {
      CollapseJoins(d[1..]);
      StripRightOrdinary(d[0], Collapse(d[1..], Separator));
    }
  }

  lemma StripRightOrdinary(c: char, back: string)
    requires !Edge(c)
    ensures StripRight([c] + back, Edge) == [c] + StripRight(back, Edge)
  {
    if StripRight(back, Edge) == "" {
      StripRightEmpty(c, back, Edge);
    } else {
      StripRightFirst(c, back, Edge);
    }
  }

  lemma RunJoins(d: string)
    requires d != "" && Separator(d[0])
    requires var rest := AfterRun(d, Separator);
             && StripRight(Collapse(rest, Separator), Edge) == Joined(rest, false)
             && (rest != "" ==> Joined(rest, false) != "")
    ensures StripRight(Collapse(d, Separator), Edge) == Joined(d, false)
  {
    var rest := AfterRun(d, Separator);
    GapAfterRun(d[1..]);
    assert Collapse(d, Separator) == ['_'] + Collapse(rest, Separator);
    if rest == "" {
      StripRightEmpty('_', "", Edge);
    } else {
      StripRightFirst('_', Collapse(rest, Separator), Edge);
    }
  }

  /** Stripped on both sides, the collapsed text is the name read off the input. */
  lemma StrippedIsNameText(s: string)
    ensures Strip(Collapse(Delete(Substitute(s, Slash, '_'), Removed), Separator), Edge) == NameText(s)
  {
    var d := Delete(Substitute(s, Slash, '_'), Removed);
    WordsAreJoined(s, false);
    if d != "" && Separator(d[0]) {
      var rest := AfterRun(d, Separator);
      GapAfterRun(d[1..]);
      CollapseJoins(rest);
      StripLeadingGap(d);
      FirstIsOrdinary(rest);
    } else {
      CollapseJoins(d);
      FirstIsOrdinary(d);
    }
  }

  lemma FirstIsOrdinary(d: string)
    requires d != "" ==> !Separator(d[0])
    ensures d != "" ==> Joined(d, false) != "" && Joined(d, false)[0] == d[0]
    ensures d == "" ==> Joined(d, false) == ""
    ensures StripLeft(Collapse(d, Separator), Edge) == Collapse(d, Separator)
  {
    if d != "" {
      assert Joined(d, false) == [d[0]] + Joined(d[1..], false);
      assert Collapse(d, Separator) == [d[0]] + Collapse(d[1..], Separator);
    }
  }

  lemma StripLeadingGap(d: string)
    requires d != "" && Separator(d[0])
    ensures StripLeft(Collapse(d, Separator), Edge) == Collapse(AfterRun(d, Separator), Separator)
  {
    var rest := Collapse(AfterRun(d, Separator), Separator);
    assert Collapse(d, Separator) == ['_'] + rest && (['_'] + rest)[1..] == rest;
  }

  /**
   The download version, exactly: the name read off the input, cut to 150 characters and without the underscore
   the cut may end with; the default name if nothing is left.
   */
  lemma DownloadNameIs(s: string)
    ensures var t := NameText(s);
            DownloadName(Some(s))
            == if t == "" then "unnamed_workflow"
               else if |t| <= 150 then t
               else if t[149] == '_' then t[..149]
               else t[..150]
  {
    var t := NameText(s);
    StrippedIsNameText(s);
    if |t| > 150 {
      CutName(s, t);
    }
  }

  lemma CutName(s: string, t: string)
    requires t == NameText(s) && |t| > 150
    ensures Strip(t[..150], Edge) == if t[149] == '_' then t[..149] else t[..150]
    ensures Strip(t[..150], Edge) != ""
  {
    var d := Delete(Substitute(s, Slash, '_'), Removed);
    StrippedIsNameText(s);
    DeleteCleans(s);
    CollapseCleans(d);
    var i := StripIsSlice(Collapse(d, Separator), Edge);
    CleanSlice(Collapse(d, Separator), i, i + |t|);
    var u := t[..150];
    assert !Edge(u[0]) && u[149] == t[149] && u[148] == t[148];
    assert u[..149] == t[..149];
    assert t[148] != '_' || t[148 + 1] != '_';
    if t[149] == '_' {
      assert StripRight(u, Edge) == StripRight(t[..149], Edge);
    }
  }

  lemma NonStrings()
    ensures DownloadName(None) == "invalid_name" && SearchName(None) == "invalid_name"
  {
    InvalidIsClean();
    CleanNamesAreKept(INVALID);
    assert DownloadName(None) == DownloadName(Some(INVALID)) && SearchName(None) == SearchName(Some(INVALID));
  }

  lemma InvalidIsClean()
    ensures CleanText(INVALID) && Trimmed(INVALID) && INVALID == "invalid_name"
  {
    assert |INVALID| == 12;
  }

  /** The search version read off the input: one underscore for each forbidden character and each run of white space. */
  function Spelled(s: string, inRun: bool): string {
    if s == "" then ""
    else if IsSpace(s[0]) then (if inRun then "" else "_") + Spelled(s[1..], true)
    else [if s[0] in "\\/*?:\"<>|" then '_' else s[0]] + Spelled(s[1..], false)
  }

  lemma {:induction false} SpelledInRun(s: string)
    ensures Spelled(s, true) == Spelled(AfterRun(s, IsSpace), false)
  {
    if s != "" && IsSpace(s[0]) {
      SpelledInRun(s[1..]);
      assert "" + Spelled(s[1..], true) == Spelled(s[1..], true);
    }
  }

  lemma {:induction false} SubstitutedRun(s: string)
    ensures AfterRun(Substitute(s, Replaced, '_'), IsSpace) == Substitute(AfterRun(s, IsSpace), Replaced, '_')
  {
    if s != "" {
      var c := if Replaced(s[0]) then '_' else s[0];
      assert Substitute(s, Replaced, '_') == [c] + Substitute(s[1..], Replaced, '_');
      assert ([c] + Substitute(s[1..], Replaced, '_'))[1..] == Substitute(s[1..], Replaced, '_');
      ReplacedIsNoSpace(s[0]);
      SubstitutedRun(s[1..]);
    }
  }

  lemma ReplacedIsNoSpace(c: char)
    ensures !IsSpace('_') && (IsSpace(c) ==> !Replaced(c))
  {
    var all := "\\/*?:\"<>|";
    assert all == ['\\', '/', '*', '?', ':', '"', '<', '>', '|'];
  }

  lemma {:induction false} SpelledIsCollapsed(s: string)
    ensures Collapse(Substitute(s, Replaced, '_'), IsSpace) == Spelled(s, false)
    decreases |s|
  {
    if s != "" {
      var c, t := if Replaced(s[0]) then '_' else s[0], Substitute(s[1..], Replaced, '_');
      assert Substitute(s, Replaced, '_') == [c] + t && ([c] + t)[1..] == t;
      ReplacedIsNoSpace(s[0]);
      if IsSpace(s[0]) {
        SubstitutedRun(s);
        SpelledInRun(s[1..]);
        SpelledIsCollapsed(AfterRun(s, IsSpace));
      } else {
        SpelledIsCollapsed(s[1..]);
      }
    }
  }

  /** The search version, exactly: that text, finished as `FinishDrops` says. */
  lemma SearchNameIs(s: string)
    ensures SearchName(Some(s)) == Finish(Spelled(s, false))
  {
    SpelledIsCollapsed(s);
  }
}
