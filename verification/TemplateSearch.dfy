/** The search script: a page loop that filters the list, the parser of the user's selection, and
 the selection itself. */
module TemplateSearch {
  import opened Prelude
  import opened Paging
  import opened Chars

  /** An entry of the list; any of its keys may be missing. */
  datatype Template = Template(id: Option<nat>, name: Option<string>, description: Option<string>)

  datatype Match = Match(id: Option<nat>, name: string)

  /** A page, an exception, `workflows` of the wrong type, or no `workflows` at all, which reads as an empty page. */
  datatype Fetch = Answer | Failed | NotAList | NoKey

  const UNNAMED := "Unnamed Workflow"

  /** `word in text`: the word is a prefix of some suffix. */
  predicate Contains(text: string, word: string) {
    word <= text || (text != "" && Contains(text[1..], word))
  }

  function Text(t: Template, lower: string -> string): string {
    lower(if t.name.Some? then t.name.value else "") + " " +
    lower(if t.description.Some? then t.description.value else "")
  }

  predicate Matches(t: Template, keywords: seq<string>, lower: string -> string) {
    forall w :: w in keywords ==> Contains(Text(t, lower), w)
  }

  ghost predicate OccursAt(text: string, word: string, i: nat) {
    i + |word| <= |text| && text[i..i + |word|] == word
  }

  /** A word is in a text if it stands somewhere in it. */
  lemma {:induction false} ContainsAt(text: string, word: string)
    ensures Contains(text, word) <==> exists i :: OccursAt(text, word, i)
  {
    if word <= text {
      assert OccursAt(text, word, 0);
    } else {
      if text != "" {
        ContainsAt(text[1..], word);
      }
      if i: nat :| OccursAt(text, word, i) {
        assert i > 0;
        assert OccursAt(text[1..], word, i - 1);
      }
      if text != "" && Contains(text[1..], word) {
        var i: nat :| OccursAt(text[1..], word, i);
        assert text[i + 1..i + 1 + |word|] == text[1..][i..i + |word|];
        assert OccursAt(text, word, i + 1);
      }
    }
  }

  /** An entry matches if every keyword stands in its lowered name and description; a missing one counts as empty. */
  lemma MatchesIff(t: Template, keywords: seq<string>, lower: string -> string)
    ensures var name := if t.name == None then "" else t.name.value;
            var description := if t.description == None then "" else t.description.value;
            Matches(t, keywords, lower)
            <==> forall w :: w in keywords ==> exists i :: OccursAt(lower(name) + " " + lower(description), w, i)
  {
    var name := if t.name == None then "" else t.name.value;
    var description := if t.description == None then "" else t.description.value;
    var text := lower(name) + " " + lower(description);
    assert Text(t, lower) == text;
    forall w | w in keywords ensures Contains(text, w) <==> exists i :: OccursAt(text, w, i) {
      ContainsAt(text, w);
    }
  }

  lemma ShownFields(t: Template)
    ensures Shown(t).id == t.id
    ensures Shown(t).name == if t.name == None then "Unnamed Workflow" else t.name.value
  {
  }

  function Shown(t: Template): Match {
    Match(t.id, if t.name.Some? then t.name.value else UNNAMED)
  }

  /** The matching entries in the order of the list. */
  function Matching(ts: seq<Template>, keywords: seq<string>, lower: string -> string): seq<Match> {
    if ts == [] then []
    else
      Matching(ts[..|ts| - 1], keywords, lower)
      + (if Matches(ts[|ts| - 1], keywords, lower) then [Shown(ts[|ts| - 1])] else [])
  }

  /** The positions of the matching entries. */
  function Hits(ts: seq<Template>, keywords: seq<string>, lower: string -> string): seq<nat> {
    if ts == [] then []
    else
      Hits(ts[..|ts| - 1], keywords, lower)
      + (if Matches(ts[|ts| - 1], keywords, lower) then [|ts| - 1] else [])
  }

  /** `Matching` is the order-preserving filter: it shows exactly the matching positions, in increasing order. */
  lemma {:induction false} MatchingFilters(ts: seq<Template>, keywords: seq<string>, lower: string -> string)
    ensures var hs, ms := Hits(ts, keywords, lower), Matching(ts, keywords, lower);
            && |ms| == |hs|
            && (forall k :: 0 <= k < |hs| ==> hs[k] < |ts| && ms[k] == Shown(ts[hs[k]]))
            && (forall j, k :: 0 <= j < k < |hs| ==> hs[j] < hs[k])
            && (forall i :: 0 <= i < |ts| ==> (i in hs <==> Matches(ts[i], keywords, lower)))
  {
    if ts != [] {
      var n := |ts| - 1;
      MatchingFilters(ts[..n], keywords, lower);
      var hs := Hits(ts, keywords, lower);
      var before := Hits(ts[..n], keywords, lower);
      forall i | 0 <= i < |ts| ensures i in hs <==> Matches(ts[i], keywords, lower) {
        if i < n {
          assert ts[..n][i] == ts[i];
        } else {
          assert n !in before;
        }
      }
    }
  }

  // ---------- The page loop ----------

  /** The first fetch from `n` to `last` that does not bring a page; `last + 1` if all do. */
  function FirstBad(answers: nat -> Fetch, n: nat, last: nat): (b: nat)
    requires n <= last + 1
    ensures n <= b <= last + 1
    ensures b <= last ==> answers(b) != Answer
    ensures forall m :: n <= m < b ==> answers(m) == Answer
    decreases last + 1 - n
  {
    if n > last || answers(n) != Answer then n else FirstBad(answers, n + 1, last)
  }

  method FindMatchingTemplates(
      items: seq<Template>, perPage: nat, answers: nat -> Fetch, keywords: seq<string>, lower: string -> string)
    returns (found: seq<Match>, processed: nat, fetches: nat)
    requires perPage >= 1
    ensures processed <= |items|
    ensures found == Matching(items[..processed], keywords, lower)
    ensures var last := |items| / perPage;
            var bad := FirstBad(answers, 0, last);
            if bad > last then fetches == last + 1 && processed == |items|
            else fetches == bad + 1 && processed == bad * perPage
  {
    ghost var last := |items| / perPage;
    found, processed, fetches := [], 0, 0;
    var page := 1;
    while true
      invariant page == fetches + 1 <= last + 1
      invariant processed == Before(|items|, perPage, page) == fetches * perPage
      invariant found == Matching(items[..processed], keywords, lower)
      invariant FirstBad(answers, 0, last) == FirstBad(answers, fetches, last)
      decreases last + 1 - page
    {
      PageSizes(|items|, perPage, page);
      BeforeNext(|items|, perPage, page);
      var fetched := answers(fetches);
      fetches := fetches + 1;
      if fetched != Answer {
        break;
      }
      var workflows := Page(items, perPage, page);
      if workflows == [] {
        break;
      }
      found, processed := FilterPage(items, workflows, keywords, lower, found, processed);
      if |workflows| < perPage {
        break;
      }
      page := page + 1;
    }
  }

  lemma MatchingStep(items: seq<Template>, n: nat, keywords: seq<string>, lower: string -> string)
    requires n < |items|
    ensures Matching(items[..n + 1], keywords, lower)
         == Matching(items[..n], keywords, lower) +
            (if Matches(items[n], keywords, lower) then [Shown(items[n])] else [])
  {
    assert items[..n + 1][..n] == items[..n];
  }

  /** The loop over the entries of one page, which lie in the list from position `start` on. */
  method FilterPage(
      ghost items: seq<Template>, page: seq<Template>, keywords: seq<string>, lower: string -> string,
      before: seq<Match>, start: nat)
    returns (found: seq<Match>, processed: nat)
    requires start + |page| <= |items| && page == items[start..start + |page|]
    requires before == Matching(items[..start], keywords, lower)
    ensures processed == start + |page|
    ensures found == Matching(items[..processed], keywords, lower)
  {
    found, processed := before, start;
    for i := 0 to |page|
      invariant processed == start + i
      invariant found == Matching(items[..processed], keywords, lower)
    {
      MatchingStep(items, processed, keywords, lower);
      assert page[i] == items[processed];
      processed := processed + 1;
      if Matches(page[i], keywords, lower) {
        found := found + [Shown(page[i])];
      }
    }
  }

  /**
   Without errors the search fetches floor(T / P) + 1 pages and filters the whole list; otherwise it stops
   at the first fetch without a page and keeps the filter of the pages before it.
   */
  lemma WholeListIffNoError(total: nat, perPage: nat, answers: nat -> Fetch)
    requires perPage >= 1
    ensures var last := total / perPage;
            && (FirstBad(answers, 0, last) > last <==> forall n :: 0 <= n <= last ==> answers(n) == Answer)
            && (FirstBad(answers, 0, last) <= last ==> FirstBad(answers, 0, last) * perPage <= total)
  {
    var last := total / perPage;
    var bad := FirstBad(answers, 0, last);
    if bad <= last {
      Monotone(bad, last, perPage);
      assert last * perPage <= total;
    }
  }

  // ---------- Parsing a selection ----------

  /** `s.split(',')`. */
  function Split(s: string): (parts: seq<string>)
    ensures |parts| >= 1
  {
    if s == "" then [""]
    else
      var rest := Split(s[1..]);
      if s[0] == ',' then [""] + rest else [[s[0]] + rest[0]] + rest[1..]
  }

  function Join(parts: seq<string>): string
    requires |parts| >= 1
  {
    if |parts| == 1 then parts[0] else parts[0] + "," + Join(parts[1..])
  }

  /** Splitting loses nothing and leaves no comma in a part. */
  lemma {:induction false} SplitJoins(s: string)
    ensures Join(Split(s)) == s
    ensures forall k :: 0 <= k < |Split(s)| ==> ',' !in Split(s)[k]
  {
    if s != "" {
      SplitJoins(s[1..]);
      var rest := Split(s[1..]);
      if s[0] == ',' {
        assert ([""] + rest)[1..] == rest;
      } else {
        var parts := [[s[0]] + rest[0]] + rest[1..];
        assert parts[1..] == rest[1..];
        assert s == [s[0]] + s[1..];
      }
    }
  }

  lemma {:induction false} SplitConcat(a: string, b: string)
    ensures Split(a + "," + b) == Split(a) + Split(b)
  {
    if a == "" {
      assert "" + "," + b == [','] + b;
      SplitCons(',', b);
    } else {
      var rest := a[1..] + "," + b;
      assert a + "," + b == [a[0]] + rest && a == [a[0]] + a[1..];
      SplitConcat(a[1..], b);
      SplitCons(a[0], rest);
      SplitCons(a[0], a[1..]);
      FirstPartGrows(a[0], Split(a[1..]), Split(b));
    }
  }

  lemma FirstPartGrows(c: char, parts: seq<string>, more: seq<string>)
    requires |parts| >= 1
    ensures [[c] + (parts + more)[0]] + (parts + more)[1..] == ([[c] + parts[0]] + parts[1..]) + more
    ensures [""] + (parts + more) == ([""] + parts) + more
  {
    assert (parts + more)[1..] == parts[1..] + more;
  }

  lemma SplitCons(c: char, s: string)
    ensures Split([c] + s) == if c == ',' then [""] + Split(s) else [[c] + Split(s)[0]] + Split(s)[1..]
  {
    assert ([c] + s)[1..] == s;
  }

  /** The position of the first dash, or the length. */
  function Dash(s: string): (i: nat)
    ensures i <= |s|
    ensures i < |s| ==> s[i] == '-'
    ensures forall j :: 0 <= j < i ==> s[j] != '-'
  {
    if s == "" || s[0] == '-' then 0 else 1 + Dash(s[1..])
  }

  /** `range(start, end + 1)` as a set. */
  function Range(start: int, end: int): (r: set<int>)
    ensures forall n :: n in r <==> start <= n <= end
    decreases end - start
  {
    if start > end then {} else {start} + Range(start + 1, end)
  }

  /** The bounds a part gives, of a range or of a single number; `toInt` is Python's `int`, `None` a `ValueError`. */
  function Bounds(part: string, toInt: string -> Option<int>): Option<(int, int)> {
    var p := Strip(part, IsSpace);
    var i := Dash(p);
    var low := if i < |p| then toInt(Strip(p[..i], IsSpace)) else toInt(p);
    var high := if i < |p| then toInt(Strip(p[i + 1..], IsSpace)) else toInt(p);
    if p == "" || low.None? || high.None? then None else Some((low.value, high.value))
  }

  /** The numbers of one part: those between its bounds, if the bounds themselves are in range and in order. */
  function PartNumbers(part: string, max: int, toInt: string -> Option<int>): (r: set<int>)
    ensures forall n :: n in r <==>
              var b := Bounds(part, toInt);
              b.Some? && 1 <= b.value.0 <= n <= b.value.1 <= max
  {
    var b := Bounds(part, toInt);
    if b.Some? && 1 <= b.value.0 && b.value.1 <= max then Range(b.value.0, b.value.1) else {}
  }

  function Union(parts: seq<string>, max: int, toInt: string -> Option<int>): set<int> {
    if parts == [] then {} else Union(parts[..|parts| - 1], max, toInt) + PartNumbers(parts[|parts| - 1], max, toInt)
  }

  function Selection(s: string, max: int, toInt: string -> Option<int>): set<int> {
    Union(Split(s), max, toInt)
  }

  /** What the loop does with one part. */
  method ParsePart(text: string, max: int, toInt: string -> Option<int>) returns (selected: set<int>)
    ensures selected == PartNumbers(text, max, toInt)
  {
    selected := {};
    var part := Strip(text, IsSpace);
    var dash := Dash(part);
    if part != "" {
      if dash < |part| {
        var start, end := toInt(Strip(part[..dash], IsSpace)), toInt(Strip(part[dash + 1..], IsSpace));
        if start.Some? && end.Some? {
          if !(start.value < 1 || end.value > max || start.value > end.value) {
            selected := Range(start.value, end.value);
          }
        }
      } else {
        var index := toInt(part);
        if index.Some? && 1 <= index.value <= max {
          selected := {index.value};
        }
      }
    }
  }

  method ParseSelection(selection: string, max: int, toInt: string -> Option<int>) returns (selected: set<int>)
    ensures selected == Selection(selection, max, toInt)
  {
    selected := {};
    if selection == "" {
      EmptySelection(max, toInt);
      return;
    }
    var parts := Split(selection);
    for k := 0 to |parts|
      invariant selected == Union(parts[..k], max, toInt)
    {
      UnionStep(parts, k, max, toInt);
      var numbers := ParsePart(parts[k], max, toInt);
      selected := selected + numbers;
    }
    assert parts[..|parts|] == parts;
  }

  lemma UnionStep(parts: seq<string>, k: nat, max: int, toInt: string -> Option<int>)
    requires k < |parts|
    ensures Union(parts[..k + 1], max, toInt) == Union(parts[..k], max, toInt) + PartNumbers(parts[k], max, toInt)
  {
    assert parts[..k + 1][..k] == parts[..k];
  }

  lemma EmptySelection(max: int, toInt: string -> Option<int>)
    ensures Selection("", max, toInt) == {}
  {
    assert Split("") == [""];
    var none: seq<string> := [];
    assert Union(none, max, toInt) == {} && [""][..0] == none;
    StripNothing("", IsSpace);
  }

  /** Some part names the number. */
  ghost predicate Named(parts: seq<string>, max: int, toInt: string -> Option<int>, n: int) {
    exists k :: 0 <= k < |parts| && n in PartNumbers(parts[k], max, toInt)
  }

  lemma NamedExtends(parts: seq<string>, part: string, max: int, toInt: string -> Option<int>, n: int)
    ensures Named(parts + [part], max, toInt, n) <==> Named(parts, max, toInt, n) || n in PartNumbers(part, max, toInt)
  {
    var more := parts + [part];
    if Named(parts, max, toInt, n) {
      var k :| 0 <= k < |parts| && n in PartNumbers(parts[k], max, toInt);
      assert more[k] == parts[k];
    }
    if n in PartNumbers(part, max, toInt) {
      assert more[|parts|] == part;
    }
  }

  /** A number is selected exactly when some part names it, and every selected number is in range. */
  lemma {:induction false} UnionOfParts(parts: seq<string>, max: int, toInt: string -> Option<int>, n: int)
    ensures n in Union(parts, max, toInt) <==> Named(parts, max, toInt, n)
    ensures n in Union(parts, max, toInt) ==> 1 <= n <= max
  {
    if parts != [] {
      var l := |parts| - 1;
      UnionOfParts(parts[..l], max, toInt, n);
      NamedExtends(parts[..l], parts[l], max, toInt, n);
      assert parts[..l] + [parts[l]] == parts;
      PartInRange(parts[l], max, toInt, n);
    }
  }

  lemma PartInRange(part: string, max: int, toInt: string -> Option<int>, n: int)
    ensures n in PartNumbers(part, max, toInt) ==> 1 <= n <= max
  {
  }

  lemma {:induction false} UnionConcat(a: seq<string>, b: seq<string>, max: int, toInt: string -> Option<int>)
    ensures Union(a + b, max, toInt) == Union(a, max, toInt) + Union(b, max, toInt)
  {
    if b == [] {
      assert a + b == a;
    } else {
      var l := |b| - 1;
      UnionConcat(a, b[..l], max, toInt);
      assert (a + b)[..|a + b| - 1] == a + b[..l];
    }
  }

  /** Selections can be parsed piecewise. */
  lemma SelectionConcat(a: string, b: string, max: int, toInt: string -> Option<int>)
    ensures Selection(a + "," + b, max, toInt) == Selection(a, max, toInt) + Selection(b, max, toInt)
  {
    SplitConcat(a, b);
    UnionConcat(Split(a), Split(b), max, toInt);
  }

  /** The range "1-n" selects everything. */
  lemma WholeRange(digits: string, n: int, toInt: string -> Option<int>)
    requires n >= 1 && toInt("1") == Some(1) && toInt(digits) == Some(n)
    requires digits != "" && forall c :: c in digits ==> c != ',' && !IsSpace(c)
    ensures Selection("1-" + digits, n, toInt) == Range(1, n)
  {
    var s := "1-" + digits;
    assert forall c :: c in s ==> c == '1' || c == '-' || c in digits;
    NoComma(s);
    StripNothing(s, IsSpace);
    StripNothing(digits, IsSpace);
    StripNothing("1", IsSpace);
    assert s[0] == '1' && s[1] == '-';
    assert Dash(s) == 1;
    assert s[..1] == "1" && s[2..] == digits;
    var none: seq<string> := [];
    assert Union(none, n, toInt) == {} && [s][..0] == none;
    assert Union([s], n, toInt) == PartNumbers(s, n, toInt);
  }

  // ---------- What single parts select ----------

  lemma OnePart(s: string, max: int, toInt: string -> Option<int>)
    requires ',' !in s
    ensures Selection(s, max, toInt) == PartNumbers(s, max, toInt)
  {
    NoComma(s);
    var none: seq<string> := [];
    assert Union(none, max, toInt) == {} && [s][..0] == none;
  }

  ghost predicate Blank(s: string) {
    forall c :: c in s ==> IsSpace(c)
  }

  /** Not empty, and without white space at the ends or a comma. */
  ghost predicate Token(s: string) {
    s != "" && Stripped(s, IsSpace) && ',' !in s
  }

  lemma {:induction false} DashAfter(front: string, back: string)
    requires '-' !in front
    ensures Dash(front + "-" + back) == |front|
    ensures Dash(front) == |front|
  {
    if front == "" {
      assert ("" + "-" + back)[0] == '-';
    } else {
      assert (front + "-" + back)[1..] == front[1..] + "-" + back;
      DashAfter(front[1..], back);
    }
  }

  /** A number, with or without blanks around it, selects itself if it is in range; anything else selects nothing. */
  lemma SingleNumber(left: string, digits: string, right: string, max: int, toInt: string -> Option<int>)
    requires Blank(left) && Blank(right) && Token(digits) && '-' !in digits
    ensures Selection(left + digits + right, max, toInt)
         == if toInt(digits).Some? && 1 <= toInt(digits).value <= max then {toInt(digits).value} else {}
  {
    var s := left + digits + right;
    assert forall c :: c in s ==> c in left || c in digits || c in right;
    OnePart(s, max, toInt);
    StripAround(left, digits, right, IsSpace);
    DashAfter(digits, "");
    assert Dash(digits) == |digits|;
  }

  /** Two numbers around a dash, blanks or not, select those from the one to the other if both are in range. */
  lemma NumberRange(
      left: string, low: string, mid: string, mid': string, high: string, right: string, max: int,
      toInt: string -> Option<int>, n: int)
    requires Blank(left) && Blank(mid) && Blank(mid') && Blank(right) && Token(low) && '-' !in low && Token(high)
    ensures n in Selection(left + (low + mid + "-" + mid' + high) + right, max, toInt)
       <==> toInt(low).Some? && toInt(high).Some? && 1 <= toInt(low).value <= n <= toInt(high).value <= max
  {
    var s := left + (low + mid + "-" + mid' + high) + right;
    assert forall c :: c in s ==> c in left || c in low || c in mid || c == '-' || c in mid' || c in high || c in right;
    OnePart(s, max, toInt);
    RangeBounds(left, low, mid, mid', high, right, toInt);
  }

  lemma RangeBounds(
      left: string, low: string, mid: string, mid': string, high: string, right: string, toInt: string -> Option<int>)
    requires Blank(left) && Blank(mid) && Blank(mid') && Blank(right) && Token(low) && '-' !in low && Token(high)
    ensures Bounds(left + (low + mid + "-" + mid' + high) + right, toInt)
         == if toInt(low).Some? && toInt(high).Some? then Some((toInt(low).value, toInt(high).value)) else None
  {
    var p := low + mid + "-" + mid' + high;
    RangeEnds(low, mid, mid', high);
    StripAround(left, p, right, IsSpace);
    StripOneSide(low, mid, mid', high);
    BoundsOfStripped(left + p + right, p, low + mid, mid' + high, low, high, toInt);
  }

  lemma StripOneSide(low: string, mid: string, mid': string, high: string)
    requires Blank(mid) && Blank(mid') && Token(low) && Token(high)
    ensures Strip(low + mid, IsSpace) == low && Strip(mid' + high, IsSpace) == high
  {
    StripAround("", low, mid, IsSpace);
    StripAround(mid', high, "", IsSpace);
    assert "" + low + mid == low + mid && mid' + high + "" == mid' + high;
  }

  lemma BoundsOfStripped(
      s: string, p: string, front: string, back: string, low: string, high: string, toInt: string -> Option<int>)
    requires Strip(s, IsSpace) == p && p != "" && Dash(p) == |front| < |p|
    requires p[..|front|] == front && p[|front| + 1..] == back
    requires Strip(front, IsSpace) == low && Strip(back, IsSpace) == high
    ensures Bounds(s, toInt)
         == if toInt(low).Some? && toInt(high).Some? then Some((toInt(low).value, toInt(high).value)) else None
  {
  }

  lemma RangeEnds(low: string, mid: string, mid': string, high: string)
    requires Blank(mid) && Token(low) && '-' !in low && Token(high)
    ensures var p := low + mid + "-" + mid' + high;
            && p != "" && Stripped(p, IsSpace) && Dash(p) == |low + mid|
            && p[..|low + mid|] == low + mid && p[|low + mid| + 1..] == mid' + high
  {
    var p := low + mid + "-" + mid' + high;
    assert forall c :: c in low + mid ==> c in low || c in mid;
    assert p == (low + mid) + "-" + (mid' + high);
    DashAfter(low + mid, mid' + high);
    assert p[0] == low[0] && p[|p| - 1] == high[|high| - 1];
  }

  /** Two numbers in range select exactly those two. */
  lemma TwoNumbers(a: string, b: string, max: int, toInt: string -> Option<int>)
    requires Token(a) && '-' !in a && Token(b) && '-' !in b
    requires toInt(a).Some? && toInt(b).Some? && 1 <= toInt(a).value <= max && 1 <= toInt(b).value <= max
    ensures Selection(a + "," + b, max, toInt) == {toInt(a).value, toInt(b).value}
  {
    SelectionConcat(a, b, max, toInt);
    SingleNumber("", a, "", max, toInt);
    SingleNumber("", b, "", max, toInt);
    assert "" + a + "" == a && "" + b + "" == b;
  }

  /** Calling the selection off chooses nothing. */
  lemma NoneChoosesNothing(matches: seq<Match>, inputs: seq<string>, toInt: string -> Option<int>, chosen: seq<Match>)
    requires inputs != [] && inputs[0] == "none" && Picks(matches, Final(inputs, |matches|, toInt), chosen)
    ensures chosen == []
  {
    NothingAscending(|matches|);
  }

  lemma {:induction false} NothingAscending(max: nat)
    ensures Ascending({}, max) == []
  {
    if max > 0 {
      NothingAscending(max - 1);
    }
  }

  lemma {:induction false} NoComma(s: string)
    requires ',' !in s
    ensures Split(s) == [s]
  {
    if s != "" {
      NoComma(s[1..]);
      assert [s[0]] + s[1..] == s;
    }
  }

  // ---------- From the selection to the templates ----------

  /** `sorted(list(selected))`: the selected numbers up to `max`, ascending. */
  function Ascending(selected: set<int>, max: nat): seq<int> {
    if max == 0 then [] else Ascending(selected, max - 1) + (if max in selected then [max] else [])
  }

  lemma {:induction false} AscendingSorts(selected: set<int>, max: nat)
    ensures var a := Ascending(selected, max);
            && (forall i :: 0 <= i < |a| ==> 1 <= a[i] <= max && a[i] in selected)
            && (forall i, j :: 0 <= i < j < |a| ==> a[i] < a[j])
            && (forall n :: n in selected && 1 <= n <= max ==> n in a)
  {
    if max > 0 {
      AscendingSorts(selected, max - 1);
      forall n | n in selected && 1 <= n <= max ensures n in Ascending(selected, max) {
        if n < max {
          assert n in Ascending(selected, max - 1);
        }
      }
    }
  }

  /** What one input, stripped and in lower case, selects. */
  function Chosen(input: string, max: int, toInt: string -> Option<int>): set<int> {
    if input == "none" then {} else if input == "all" then Range(1, max) else Selection(input, max, toInt)
  }

  /** The prompt is repeated until the selection is called off or is not empty. */
  predicate Accepted(input: string, max: int, toInt: string -> Option<int>) {
    input == "none" || input == "all" || Selection(input, max, toInt) != {}
  }

  /** The first accepted input, or the number of inputs. */
  function FirstAccepted(inputs: seq<string>, max: int, toInt: string -> Option<int>): (k: nat)
    ensures k <= |inputs|
    ensures k < |inputs| ==> Accepted(inputs[k], max, toInt)
    ensures forall j :: 0 <= j < k ==> !Accepted(inputs[j], max, toInt)
  {
    if inputs == [] || Accepted(inputs[0], max, toInt) then 0 else 1 + FirstAccepted(inputs[1..], max, toInt)
  }

  function Final(inputs: seq<string>, max: int, toInt: string -> Option<int>): set<int> {
    var k := FirstAccepted(inputs, max, toInt);
    if k < |inputs| then Chosen(inputs[k], max, toInt) else {}
  }

  lemma FinalInRange(inputs: seq<string>, max: int, toInt: string -> Option<int>)
    ensures forall n :: n in Final(inputs, max, toInt) ==> 1 <= n <= max
  {
    var k := FirstAccepted(inputs, max, toInt);
    forall n | n in Final(inputs, max, toInt) ensures 1 <= n <= max {
      UnionOfParts(Split(inputs[k]), max, toInt, n);
    }
  }

  /** An input that is reached decides if it is accepted; otherwise the next one is reached. */
  lemma InputReached(inputs: seq<string>, k: nat, max: int, toInt: string -> Option<int>)
    requires k < |inputs| && k <= FirstAccepted(inputs, max, toInt)
    ensures if Accepted(inputs[k], max, toInt) then Final(inputs, max, toInt) == Chosen(inputs[k], max, toInt)
            else k + 1 <= FirstAccepted(inputs, max, toInt)
  {
  }

  /** The loop around the prompt; it ends with an accepted input, or when there are no more. */
  method SelectIndices(inputs: seq<string>, max: int, toInt: string -> Option<int>) returns (selected: set<int>)
    ensures selected == Final(inputs, max, toInt)
  {
    selected := {};
    var k := 0;
    while k < |inputs|
      invariant k <= |inputs| && k <= FirstAccepted(inputs, max, toInt)
      invariant selected == {}
    {
      InputReached(inputs, k, max, toInt);
      if inputs[k] == "none" {
        return;
      } else if inputs[k] == "all" {
        selected := Range(1, max);
        return;
      }
      selected := ParseSelection(inputs[k], max, toInt);
      if selected != {} {
        return;
      }
      k := k + 1;
    }
  }

  /** The list comprehension over the sorted indices; every access is in bounds. */
  method Pick(matches: seq<Match>, selected: set<int>) returns (chosen: seq<Match>)
    requires forall n :: n in selected ==> 1 <= n <= |matches|
    ensures Picks(matches, selected, chosen)
  {
    var order := Ascending(selected, |matches|);
    AscendingSorts(selected, |matches|);
    assert order == Ascending(selected, |matches|);
    chosen := [];
    for k := 0 to |order|
      invariant |chosen| == k
      invariant forall i :: 0 <= i < k ==> chosen[i] == matches[order[i] - 1]
    {
      chosen := chosen + [matches[order[k] - 1]];
    }
  }

  /** The chosen templates are the selected matches, each once, in the order of the matches. */
  ghost predicate Picks(matches: seq<Match>, selected: set<int>, chosen: seq<Match>) {
    var order := Ascending(selected, |matches|);
    && |chosen| == |order|
    && (forall i :: 0 <= i < |order| ==> 1 <= order[i] <= |matches| && chosen[i] == matches[order[i] - 1])
    && (forall i, j :: 0 <= i < j < |order| ==> order[i] < order[j])
    && (forall n :: n in selected <==> n in order)
  }

  /** From the user's inputs to the templates to download. */
  method Choose(matches: seq<Match>, inputs: seq<string>, toInt: string -> Option<int>) returns (chosen: seq<Match>)
    ensures Picks(matches, Final(inputs, |matches|, toInt), chosen)
  {
    var selected := SelectIndices(inputs, |matches|, toInt);
    FinalInRange(inputs, |matches|, toInt);
    chosen := Pick(matches, selected);
  }

  /** "all" chooses every match, as does the range over all of them. */
  lemma AllChoosesAll(
        matches: seq<Match>, inputs: seq<string>, digits: string, toInt: string -> Option<int>, chosen: seq<Match>)
    requires matches != [] && toInt("1") == Some(1) && toInt(digits) == Some(|matches|)
    requires digits != "" && forall c :: c in digits ==> c != ',' && !IsSpace(c)
    requires |inputs| == 1 && (inputs[0] == "all" || inputs[0] == "1-" + digits)
    requires Picks(matches, Final(inputs, |matches|, toInt), chosen)
    ensures chosen == matches
  {
    WholeRange(digits, |matches|, toInt);
    assert 1 in Range(1, |matches|);
    assert Final(inputs, |matches|, toInt) == Range(1, |matches|);
    AscendingAll(|matches|, |matches|);
  }

  lemma {:induction false} AscendingAll(n: nat, max: nat)
    requires n <= max
    ensures |Ascending(Range(1, max), n)| == n
    ensures forall i :: 0 <= i < n ==> Ascending(Range(1, max), n)[i] == i + 1
  {
    if n > 0 {
      AscendingAll(n - 1, max);
    }
  }
}
