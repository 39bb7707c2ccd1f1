/**
 `getParentTypes` collects the ancestors of a credential type by pushing them onto the very array of parents
 that it iterates over, and returns that array. The registry of parents is a graph; the lemmas say that
 growing it this way never changes who is an ancestor of whom.
 */
module CredentialTypes {
  import opened Prelude

  type Registry = map<string, seq<string>>

  function Parents(reg: Registry, t: string): seq<string> {
    if t in reg then reg[t] else []
  }

  ghost predicate IsPath(reg: Registry, p: seq<string>) {
    |p| >= 2 && forall i :: 0 <= i < |p| - 1 ==> p[i + 1] in Parents(reg, p[i])
  }

  ghost predicate Joins(reg: Registry, p: seq<string>, t: string, a: string) {
    IsPath(reg, p) && p[0] == t && p[|p| - 1] == a
  }

  /** `a` is reached from `t` by one or more steps to a parent. */
  ghost predicate Ancestor(reg: Registry, t: string, a: string) {
    exists p :: Joins(reg, p, t, a)
  }

  ghost predicate Acyclic(reg: Registry) {
    forall t :: !Ancestor(reg, t, t)
  }

  lemma ParentIsAncestor(reg: Registry, t: string, a: string)
    requires a in Parents(reg, t)
    ensures Ancestor(reg, t, a)
  {
    assert Joins(reg, [t, a], t, a);
  }

  lemma AncestorTransitive(reg: Registry, t: string, u: string, a: string)
    requires Ancestor(reg, t, u) && Ancestor(reg, u, a)
    ensures Ancestor(reg, t, a)
  {
    var p :| Joins(reg, p, t, u);
    var q :| Joins(reg, q, u, a);
    var r := p + q[1..];
    forall i | 0 <= i < |r| - 1 ensures r[i + 1] in Parents(reg, r[i]) {
      if i >= |p| - 1 {
        assert r[i] == q[i - (|p| - 1)] && r[i + 1] == q[i + 1 - (|p| - 1)];
      }
    }
    assert Joins(reg, r, t, a);
  }

  lemma TailIsPath(reg: Registry, p: seq<string>)
    requires IsPath(reg, p) && |p| > 2
    ensures IsPath(reg, p[1..]) && p[1] in Parents(reg, p[0])
  {
    var q := p[1..];
    forall i | 0 <= i < |q| - 1 ensures q[i + 1] in Parents(reg, q[i]) {
      assert q[i] == p[i + 1] && q[i + 1] == p[i + 1 + 1];
    }
    assert p[0 + 1] in Parents(reg, p[0]);
  }

  /** An ancestor is a parent or an ancestor of a parent. */
  lemma FirstStep(reg: Registry, t: string, a: string) returns (u: string)
    requires Ancestor(reg, t, a)
    ensures u in Parents(reg, t) && (u == a || Ancestor(reg, u, a))
  {
    var p :| Joins(reg, p, t, a);
    u := p[1];
    if |p| > 2 {
      TailIsPath(reg, p);
      assert Joins(reg, p[1..], u, a);
    }
  }

  // ---------- Growing ----------

  /** Lists only grew at their end, and only by ancestors. */
  ghost predicate Grown(reg: Registry, grown: Registry) {
    && grown.Keys == reg.Keys
    && forall t :: t in reg ==> reg[t] <= grown[t] && forall a :: a in grown[t] ==> Ancestor(reg, t, a)
  }

  lemma {:induction false} PathInGrown(reg: Registry, grown: Registry, p: seq<string>)
    requires Grown(reg, grown) && IsPath(grown, p)
    ensures Ancestor(reg, p[0], p[|p| - 1])
    decreases |p|
  {
    if |p| > 2 {
      var q := p[1..];
      TailIsPath(grown, p);
      PathInGrown(reg, grown, q);
      assert p[0 + 1] in Parents(grown, p[0]);
      AncestorTransitive(reg, p[0], p[1], p[|p| - 1]);
    } else {
      assert p[0 + 1] in Parents(grown, p[0]);
    }
  }

  /** Growing keeps the ancestors of every type; in particular an acyclic registry stays acyclic. */
  lemma GrowingKeepsAncestors(reg: Registry, grown: Registry, t: string, a: string)
    requires Grown(reg, grown)
    ensures Ancestor(grown, t, a) <==> Ancestor(reg, t, a)
  {
    if Ancestor(reg, t, a) {
      var p :| Joins(reg, p, t, a);
      forall i | 0 <= i < |p| - 1 ensures p[i + 1] in Parents(grown, p[i]) {
        assert p[i + 1] in Parents(reg, p[i]);
        assert reg[p[i]] <= grown[p[i]];
      }
      assert Joins(grown, p, t, a);
    }
    if Ancestor(grown, t, a) {
      var p :| Joins(grown, p, t, a);
      PathInGrown(reg, grown, p);
    }
  }

  lemma UnchangedIsGrown(reg: Registry)
    ensures Grown(reg, reg)
  {
    forall t, a | t in reg && a in reg[t] ensures Ancestor(reg, t, a) {
      ParentIsAncestor(reg, t, a);
    }
  }

  lemma GrownTwice(reg: Registry, mid: Registry, grown: Registry)
    requires Grown(reg, mid) && Grown(mid, grown)
    ensures Grown(reg, grown)
  {
    forall t, a | t in reg && a in grown[t] ensures Ancestor(reg, t, a) {
      GrowingKeepsAncestors(reg, mid, t, a);
    }
  }

  /** However many calls grow the registry, in whatever order, the ancestors stay those of the first one. */
  lemma {:induction false} AnyCallsKeepAncestors(regs: seq<Registry>, t: string, a: string)
    requires regs != [] && forall i :: 0 <= i < |regs| - 1 ==> Grown(regs[i], regs[i + 1])
    ensures Ancestor(regs[|regs| - 1], t, a) <==> Ancestor(regs[0], t, a)
    decreases |regs|
  {
    if |regs| > 1 {
      var rest := regs[1..];
      forall i | 0 <= i < |rest| - 1 ensures Grown(rest[i], rest[i + 1]) {
        assert Grown(regs[i + 1], regs[i + 1 + 1]);
      }
      AnyCallsKeepAncestors(rest, t, a);
      assert Grown(regs[0], regs[0 + 1]);
      GrowingKeepsAncestors(regs[0], regs[1], t, a);
    }
  }

  // ---------- Rank ----------

  ghost function Names(reg: Registry): set<string> {
    set t, i | t in reg && 0 <= i < |reg[t]| :: reg[t][i]
  }

  /** The ancestors of a type; a finite set, whose size bounds the recursion. */
  ghost function Ancestors(reg: Registry, t: string): set<string> {
    set a | a in Names(reg) && Ancestor(reg, t, a)
  }

  lemma AncestorsComplete(reg: Registry, t: string, a: string)
    ensures a in Ancestors(reg, t) <==> Ancestor(reg, t, a)
  {
    if Ancestor(reg, t, a) {
      var p :| Joins(reg, p, t, a);
      var n := |p| - 2;
      assert p[n + 1] in Parents(reg, p[n]);
      var i :| 0 <= i < |reg[p[n]]| && reg[p[n]][i] == a;
      assert a in Names(reg);
    }
  }

  lemma RankDecreases(reg: Registry, cur: Registry, t: string, p: string)
    requires Acyclic(reg) && Grown(reg, cur) && p in Parents(reg, t)
    ensures |Ancestors(cur, p)| < |Ancestors(reg, t)|
  {
    ParentIsAncestor(reg, t, p);
    AncestorsComplete(reg, t, p);
    AncestorsComplete(reg, p, p);
    forall a ensures a in Ancestors(cur, p) <==> a in Ancestors(reg, p) {
      AncestorsComplete(cur, p, a);
      AncestorsComplete(reg, p, a);
      GrowingKeepsAncestors(reg, cur, p, a);
    }
    assert Ancestors(cur, p) == Ancestors(reg, p);
    forall a | a in Ancestors(reg, p) ensures a in Ancestors(reg, t) {
      AncestorsComplete(reg, p, a);
      AncestorTransitive(reg, t, p, a);
      AncestorsComplete(reg, t, a);
    }
    SmallerSet(Ancestors(reg, p), Ancestors(reg, t), p);
  }

  lemma SmallerSet(a: set<string>, b: set<string>, x: string)
    requires a <= b && x in b && x !in a
    ensures |a| < |b|
  {
    assert |b - a| + |a| == |b| by {
      assert b == (b - a) + a;
    }
    assert x in b - a;
  }

  // ---------- One round, and the end, of the loop ----------

  lemma PushKeepsGrown(before: Registry, start: Registry, called: Registry, t: string, p: string, pushed: seq<string>)
    requires Grown(before, start) && Grown(start, called) && p in Parents(before, t) && t in called
    requires forall a :: a in pushed <==> Ancestor(start, p, a)
    ensures Grown(before, called[t := called[t] + pushed])
    ensures forall a :: a in pushed <==> Ancestor(before, p, a)
    ensures pushed == [] <==> Parents(before, p) == []
  {
    GrownTwice(before, start, called);
    ParentIsAncestor(before, t, p);
    forall a ensures a in pushed <==> Ancestor(before, p, a) {
      GrowingKeepsAncestors(before, start, p, a);
    }
    forall a | a in pushed ensures Ancestor(before, t, a) {
      AncestorTransitive(before, t, p, a);
    }
    if pushed != [] {
      var u := FirstStep(before, p, pushed[0]);
    } else if Parents(before, p) != [] {
      ParentIsAncestor(before, p, Parents(before, p)[0]);
    }
  }

  lemma AllCollected(before: Registry, t: string, items: seq<string>, grown: Registry)
    requires Acyclic(before) && Grown(before, grown) && items == Parents(grown, t)
    requires Parents(before, t) <= items
    requires forall p, a :: p in Parents(before, t) && Ancestor(before, p, a) ==> a in items
    ensures Acyclic(grown)
    ensures forall a :: a in items <==> Ancestor(before, t, a)
  {
    forall u ensures !Ancestor(grown, u, u) {
      GrowingKeepsAncestors(before, grown, u, u);
    }
    forall a | Ancestor(before, t, a) ensures a in items {
      var u := FirstStep(before, t, a);
    }
  }

  // ---------- What the rounds push ----------

  function Flat(lists: seq<seq<string>>): seq<string> {
    if lists == [] then [] else Flat(lists[..|lists| - 1]) + lists[|lists| - 1]
  }

  lemma FlatExtends(lists: seq<seq<string>>, list: seq<string>)
    ensures Flat(lists + [list]) == Flat(lists) + list
  {
    assert (lists + [list])[..|lists|] == lists;
  }

  lemma {:induction false} FlatMembers(lists: seq<seq<string>>, a: string)
    ensures a in Flat(lists) <==> exists j :: 0 <= j < |lists| && a in lists[j]
  {
    if lists != [] {
      var n := |lists| - 1;
      FlatMembers(lists[..n], a);
      assert lists == lists[..n] + [lists[n]];
    }
  }

  lemma {:induction false} FlatEmpty(lists: seq<seq<string>>)
    ensures Flat(lists) == [] <==> forall j :: 0 <= j < |lists| ==> lists[j] == []
  {
    if lists != [] {
      var n := |lists| - 1;
      FlatEmpty(lists[..n]);
      assert forall j :: 0 <= j < n ==> lists[..n][j] == lists[j];
    }
  }

  /** One list for each of the first parents, in their order: exactly the ancestors of that parent. */
  ghost predicate Pushed(reg: Registry, parents: seq<string>, lists: seq<seq<string>>) {
    && |lists| <= |parents|
    && forall j :: 0 <= j < |lists| ==> PushedFor(reg, parents[j], lists[j])
  }

  ghost predicate PushedFor(reg: Registry, p: string, list: seq<string>) {
    && (forall a :: a in list <==> Ancestor(reg, p, a))
    && (list == [] <==> Parents(reg, p) == [])
  }

  /** The list is that of the parents, followed by one list for each of the first `n`. */
  ghost predicate InRounds(reg: Registry, t: string, items: seq<string>, n: nat) {
    exists lists :: |lists| == n && Pushed(reg, Parents(reg, t), lists) && items == Parents(reg, t) + Flat(lists)
  }

  lemma NoRounds(reg: Registry, t: string)
    ensures InRounds(reg, t, Parents(reg, t), 0)
  {
    var none: seq<seq<string>> := [];
    assert Parents(reg, t) + Flat(none) == Parents(reg, t);
    assert Pushed(reg, Parents(reg, t), none);
  }

  lemma NextRound(reg: Registry, t: string, items: seq<string>, n: nat, list: seq<string>)
    requires InRounds(reg, t, items, n) && n < |Parents(reg, t)| && PushedFor(reg, Parents(reg, t)[n], list)
    ensures InRounds(reg, t, items + list, n + 1)
  {
    var lists :| |lists| == n && Pushed(reg, Parents(reg, t), lists) && items == Parents(reg, t) + Flat(lists);
    FlatExtends(lists, list);
    PushedExtends(reg, Parents(reg, t), lists, list);
    Associates(Parents(reg, t), Flat(lists), list);
    assert |lists + [list]| == n + 1;
  }

  lemma PushedExtends(reg: Registry, parents: seq<string>, lists: seq<seq<string>>, list: seq<string>)
    requires Pushed(reg, parents, lists) && |lists| < |parents| && PushedFor(reg, parents[|lists|], list)
    ensures Pushed(reg, parents, lists + [list])
  {
    var more := lists + [list];
    forall j | 0 <= j < |more| ensures PushedFor(reg, parents[j], more[j]) {
      assert j < |lists| ==> more[j] == lists[j];
    }
  }

  lemma Associates(a: seq<string>, b: seq<string>, c: seq<string>)
    ensures (a + b) + c == a + (b + c)
  {
  }

  lemma RoundsCollect(before: Registry, t: string, items: seq<string>, grown: Registry)
    requires Acyclic(before) && Grown(before, grown) && items == Parents(grown, t)
    requires InRounds(before, t, items, |Parents(before, t)|)
    ensures Acyclic(grown)
    ensures forall a :: a in items <==> Ancestor(before, t, a)
    ensures items == Parents(before, t) <==> forall p :: p in Parents(before, t) ==> Parents(before, p) == []
  {
    var parents := Parents(before, t);
    var lists :| |lists| == |parents| && Pushed(before, parents, lists) && items == parents + Flat(lists);
    AncestorsPushed(before, parents, lists);
    AllCollected(before, t, items, grown);
    NothingPushedIff(before, parents, lists);
    LongerIff(parents, Flat(lists));
  }

  lemma AncestorsPushed(reg: Registry, parents: seq<string>, lists: seq<seq<string>>)
    requires |lists| == |parents| && Pushed(reg, parents, lists)
    ensures forall p, a :: p in parents && Ancestor(reg, p, a) ==> a in Flat(lists)
  {
    forall p, a | p in parents && Ancestor(reg, p, a) ensures a in Flat(lists) {
      var j :| 0 <= j < |parents| && parents[j] == p;
      assert PushedFor(reg, parents[j], lists[j]);
      FlatMembers(lists, a);
    }
  }

  lemma NothingPushedIff(reg: Registry, parents: seq<string>, lists: seq<seq<string>>)
    requires |lists| == |parents| && Pushed(reg, parents, lists)
    ensures Flat(lists) == [] <==> forall p :: p in parents ==> Parents(reg, p) == []
  {
    FlatEmpty(lists);
    assert forall j :: 0 <= j < |lists| ==> PushedFor(reg, parents[j], lists[j]);
  }

  lemma LongerIff(a: seq<string>, b: seq<string>)
    ensures a + b == a <==> b == []
  {
    assert |a + b| == |a| + |b|;
  }

  // ---------- The class ----------

  /** A JavaScript array. */
  class StringArray {
    var items: seq<string>

    constructor (items: seq<string>)
      ensures this.items == items
    {
      this.items := items;
    }
  }

  class CredentialTypeService {
    // The `extends` array of every known type that has one.
    const known: map<string, StringArray>

    ghost predicate Valid() {
      forall t, u :: t in known && u in known && t != u ==> known[t] != known[u]
    }

    ghost function Lists(): set<StringArray> {
      set t | t in known :: known[t]
    }

    ghost function Reg(): Registry
      reads Lists()
    {
      map t | t in known :: known[t].items
    }

    /** Types that are neither `t` nor one of its ancestors keep their lists. */
    ghost predicate Spares(before: Registry, t: string)
      reads Lists()
    {
      forall u :: u in known && u in before && u != t && !Ancestor(before, t, u) ==> known[u].items == before[u]
    }

    /**
     Returns the live list of the type, or a fresh one when it has none. The list then holds exactly the
     ancestors the type had before the call. It got longer unless none of its types had parents; since
     repeated calls find it longer already, its repetitions grow with every call.
     */
    method GetParentTypes(typeName: string) returns (extendsArr: StringArray)
      requires Valid() && Acyclic(Reg())
      modifies Lists()
      ensures Grown(old(Reg()), Reg()) && Acyclic(Reg()) && Spares(old(Reg()), typeName)
      ensures if typeName in known then extendsArr == known[typeName] else fresh(extendsArr)
      ensures extendsArr.items == Parents(Reg(), typeName)
      ensures InRounds(old(Reg()), typeName, extendsArr.items, |Parents(old(Reg()), typeName)|)
      ensures forall a :: a in extendsArr.items <==> Ancestor(old(Reg()), typeName, a)
      ensures extendsArr.items == Parents(old(Reg()), typeName)
         <==> forall p :: p in Parents(old(Reg()), typeName) ==> Parents(old(Reg()), p) == []
      decreases |Ancestors(Reg(), typeName)|, 2
    {
      ghost var before := Reg();
      UnchangedIsGrown(before);
      if typeName in known {
        extendsArr := known[typeName];
      } else {
        extendsArr := new StringArray([]);
      }
      if |extendsArr.items| != 0 {
        ForEachParent(extendsArr, typeName);
      } else {
        NoRounds(before, typeName);
      }
      RoundsCollect(before, typeName, extendsArr.items, Reg());
    }

    /** The loop; its length is read once, at the start. */
    method ForEachParent(extendsArr: StringArray, ghost typeName: string)
      requires Valid() && Acyclic(Reg()) && typeName in known && extendsArr == known[typeName]
      modifies Lists()
      ensures Grown(old(Reg()), Reg()) && Spares(old(Reg()), typeName)
      ensures InRounds(old(Reg()), typeName, extendsArr.items, |Parents(old(Reg()), typeName)|)
      decreases |Ancestors(Reg(), typeName)|, 1
    {
      ghost var before := Reg();
      UnchangedIsGrown(before);
      NoRounds(before, typeName);
      var length := |extendsArr.items|;
      for i := 0 to length
        invariant Grown(before, Reg()) && Spares(before, typeName)
        invariant InRounds(before, typeName, extendsArr.items, i)
      {
        assert extendsArr.items[i] == Parents(before, typeName)[i];
        PushParentTypes(extendsArr, extendsArr.items[i], typeName, before, i);
      }
    }

    /** The callback of `forEach`: pushes the ancestors of one parent onto the list being iterated. */
    method PushParentTypes(
        extendsArr: StringArray, ty: string, ghost typeName: string, ghost before: Registry, ghost i: nat)
      requires Valid() && typeName in known && extendsArr == known[typeName]
      requires Acyclic(before) && Grown(before, Reg()) && Spares(before, typeName)
      requires i < |Parents(before, typeName)| && ty == Parents(before, typeName)[i]
      requires InRounds(before, typeName, extendsArr.items, i)
      modifies Lists()
      ensures Grown(before, Reg()) && Spares(before, typeName)
      ensures InRounds(before, typeName, extendsArr.items, i + 1)
      ensures extendsArr.items == old(extendsArr.items) + Parents(Reg(), ty)
      ensures PushedFor(before, ty, Parents(Reg(), ty))
      decreases |Ancestors(before, typeName)|, 0
    {
      ghost var start := Reg();
      Round(before, typeName, ty);
      var pushed := GetParentTypes(ty);
      ghost var called := Reg();
      RoundSpares(before, start, typeName, ty);
      assert extendsArr.items == start[typeName];
      extendsArr.items := extendsArr.items + pushed.items;
      RegisteredAfter(called, typeName, called[typeName] + pushed.items);
      PushKeepsGrown(before, start, called, typeName, ty, pushed.items);
      NextRound(before, typeName, start[typeName], i, pushed.items);
    }

    lemma RegisteredAfter(called: Registry, t: string, items: seq<string>)
      requires called.Keys == known.Keys && t in known && known[t].items == items
      requires forall u :: u in known && u != t ==> known[u].items == called[u]
      ensures Reg() == called[t := items]
    {
    }

    /** What a recursive call leaves alone, the caller's list included. */
    lemma RoundSpares(before: Registry, start: Registry, t: string, p: string)
      requires Acyclic(before) && Grown(before, start) && p in Parents(before, t) && Spares(start, p)
      requires start.Keys == known.Keys
      ensures forall u :: u in known && (u == t || !Ancestor(before, t, u)) ==> known[u].items == start[u]
    {
      ParentIsAncestor(before, t, p);
      forall u | u in known && (u == t || !Ancestor(before, t, u)) ensures known[u].items == start[u] {
        GrowingKeepsAncestors(before, start, p, u);
        if Ancestor(before, p, u) {
          AncestorTransitive(before, t, p, u);
        }
      }
    }

    lemma Round(before: Registry, t: string, p: string)
      requires Acyclic(before) && Grown(before, Reg()) && p in Parents(before, t)
      ensures Acyclic(Reg())
      ensures |Ancestors(Reg(), p)| < |Ancestors(before, t)|
      ensures t != p && !Ancestor(Reg(), p, t)
    {
      RankDecreases(before, Reg(), t, p);
      ParentIsAncestor(before, t, p);
      GrowingKeepsAncestors(before, Reg(), p, t);
      if Ancestor(before, p, t) {
        AncestorTransitive(before, t, p, t);
      }
      forall u ensures !Ancestor(Reg(), u, u) {
        GrowingKeepsAncestors(before, Reg(), u, u);
      }
    }
  }
}
