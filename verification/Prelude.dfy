/** Datatypes and sequence helpers shared by the other modules. */
module Prelude {

  datatype Option<+T> = None | Some(value: T)

  /** The elements of `s` that are not in `gone`, in their order. */
  ghost function Without<T(!new)>(s: seq<T>, gone: set<T>): seq<T> {
    if s == [] then []
    else (if s[0] in gone then [] else [s[0]]) + Without(s[1..], gone)
  }

  lemma WithoutConcat<T(!new)>(a: seq<T>, b: seq<T>, gone: set<T>)
    ensures Without(a + b, gone) == Without(a, gone) + Without(b, gone)
  {
    if a == [] {
      assert a + b == b;
    } else {
      assert (a + b)[1..] == a[1..] + b;
      WithoutConcat(a[1..], b, gone);
    }
  }

  lemma WithoutNone<T(!new)>(s: seq<T>, gone: set<T>)
    requires forall x :: x in s ==> x !in gone
    ensures Without(s, gone) == s
  {
    if s != [] {
      WithoutNone(s[1..], gone);
    }
  }

  lemma WithoutTwice<T(!new)>(s: seq<T>, a: set<T>, b: set<T>)
    ensures Without(Without(s, a), b) == Without(s, a + b)
  {
    if s != [] {
      WithoutTwice(s[1..], a, b);
      WithoutConcat(if s[0] in a then [] else [s[0]], Without(s[1..], a), b);
    }
  }

  ghost predicate Distinct<T(!new)>(s: seq<T>) {
    forall i, j :: 0 <= i < j < |s| ==> s[i] != s[j]
  }

  lemma WithoutDistinct<T(!new)>(s: seq<T>, gone: set<T>)
    requires Distinct(s)
    ensures Distinct(Without(s, gone))
  {
    if s != [] {
      WithoutDistinct(s[1..], gone);
      WithoutMembers(s[1..], gone, s[0]);
      assert s[0] !in s[1..];
    }
  }

  /** Removing one occurrence from a repeat-free sequence. */
  lemma SpliceOut<T(!new)>(front: seq<T>, x: T, back: seq<T>)
    requires x !in front && x !in back
    ensures Without(front + [x] + back, {x}) == front + back
  {
    assert Without([x], {x}) == [];
    WithoutNone(front, {x});
    WithoutNone(back, {x});
    WithoutConcat(front, [x], {x});
    assert Without(front + [x], {x}) == front;
    WithoutConcat(front + [x], back, {x});
  }

  lemma WithoutMembers<T(!new)>(s: seq<T>, gone: set<T>, x: T)
    ensures x in Without(s, gone) <==> x in s && x !in gone
  {
  }

  lemma DistinctAround<T(!new)>(front: seq<T>, x: T, back: seq<T>)
    requires Distinct(front + [x] + back)
    ensures x !in front && x !in back
  {
    var all := front + [x] + back;
    assert all[|front|] == x;
    assert forall k :: 0 <= k < |front| ==> all[k] == front[k];
    assert forall k :: 0 <= k < |back| ==> all[|front| + 1 + k] == back[k];
  }

  lemma PrefixGrows<T(!new)>(s: seq<T>, i: nat)
    requires i < |s|
    ensures s[..i + 1] == s[..i] + [s[i]]
    ensures forall x :: x in s[..i + 1] <==> x in s[..i] || x == s[i]
  {
  }

  lemma DistinctAppend<T(!new)>(s: seq<T>, x: T)
    requires Distinct(s) && x !in s
    ensures Distinct(s + [x])
  {
  }
}
