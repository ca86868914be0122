/**
 The order in which the modules of a package are published: every module after the modules
 of the package it depends on.  The sort is a depth-first search; it ends because the
 dependency relation has no cycle.
 */
module ModuleOrder {
  type Code(==)

  type Id(==, !new)

  datatype Module = Module(code: Code, deps: seq<Id>)

  type Package = map<Id, Module>

  // ---------------------------------------------------------------- dependency paths

  /** `a` depends directly on `b`, and both are in the package. */
  predicate Uses(pkg: Package, a: Id, b: Id) {
    a in pkg && b in pkg && b in pkg[a].deps
  }

  predicate IsPath(pkg: Package, p: seq<Id>) {
    && |p| > 0 && p[0] in pkg
    && forall i :: 0 <= i < |p| - 1 ==> Uses(pkg, p[i], p[i + 1])
  }

  ghost predicate Reaches(pkg: Package, a: Id, b: Id) {
    exists p :: IsPath(pkg, p) && p[0] == a && p[|p| - 1] == b
  }

  /** No module depends on itself, directly or through others. */
  ghost predicate Acyclic(pkg: Package) {
    forall p :: IsPath(pkg, p) && |p| > 1 ==> p[0] != p[|p| - 1]
  }

  lemma ReachesSelf(pkg: Package, a: Id)
    requires a in pkg
    ensures Reaches(pkg, a, a)
  {
    assert IsPath(pkg, [a]);
  }

  lemma ReachesThrough(pkg: Package, a: Id, b: Id, c: Id)
    requires Uses(pkg, a, b) && Reaches(pkg, b, c)
    ensures Reaches(pkg, a, c)
    ensures Acyclic(pkg) ==> c != a
  {
    var p :| IsPath(pkg, p) && p[0] == b && p[|p| - 1] == c;
    var q := [a] + p;
    assert IsPath(pkg, q) by {
      forall i | 0 <= i < |q| - 1 ensures Uses(pkg, q[i], q[i + 1]) {
        if i > 0 { assert Uses(pkg, p[i - 1], p[i]); }
      }
    }
    assert q[0] == a && q[|q| - 1] == c;
  }

  ghost function ReachSet(pkg: Package, a: Id): set<Id> {
    set x | x in pkg && Reaches(pkg, a, x)
  }

  /** What a dependency reaches is less than what its user reaches. */
  lemma ReachShrinks(pkg: Package, a: Id, b: Id)
    requires Acyclic(pkg) && Uses(pkg, a, b)
    ensures ReachSet(pkg, b) < ReachSet(pkg, a)
  {
    forall x | x in ReachSet(pkg, b) ensures x in ReachSet(pkg, a) && x != a { ReachesThrough(pkg, a, b, x); }
    ReachesSelf(pkg, a);
    assert a in ReachSet(pkg, a);
  }

  // ---------------------------------------------------------------- orders

  predicate NoDuplicates(s: seq<Id>) {
    forall i, j :: 0 <= i < j < |s| ==> s[i] != s[j]
  }

  /** Modules of the package, each once, each after everything it uses. */
  ghost predicate Ordered(pkg: Package, order: seq<Id>) {
    && NoDuplicates(order)
    && (forall i :: 0 <= i < |order| ==> order[i] in pkg)
    && (forall i, d :: 0 <= i < |order| && Uses(pkg, order[i], d) ==> d in order[..i])
  }

  lemma OrderedPush(pkg: Package, order: seq<Id>, id: Id)
    requires Ordered(pkg, order) && id in pkg && id !in order && forall d :: Uses(pkg, id, d) ==> d in order
    ensures Ordered(pkg, order + [id])
  {
    var o := order + [id];
    forall i, d | 0 <= i < |o| && Uses(pkg, o[i], d) ensures d in o[..i] {
      if i < |order| { assert o[..i] == order[..i]; } else { assert o[..i] == order; }
    }
  }

  class Sorter {
    const pkg: Package
    var order: seq<Id>

    constructor (pkg: Package)
      ensures this.pkg == pkg && order == []
    {
      this.pkg := pkg;
      order := [];
    }

    /** sort_by_deps: append `id` after all it uses, unless it is there already. */
    method SortByDeps(id: Id)
      requires Acyclic(pkg) && Ordered(pkg, order) && id in pkg
      modifies this
      ensures Ordered(pkg, order) && old(order) <= order && id in order
      ensures forall x :: x in order && x !in old(order) ==> Reaches(pkg, id, x)
      decreases ReachSet(pkg, id)
    {
      ReachesSelf(pkg, id);
      if id in order { return; }
      var deps := pkg[id].deps;
      ghost var before := order;
      var k := 0;
      while k < |deps|
        invariant 0 <= k <= |deps| && Ordered(pkg, order) && before <= order
        invariant forall d :: d in deps[..k] && d in pkg ==> d in order
        invariant forall x :: x in order && x !in before ==> Reaches(pkg, id, x) && x != id
      {
        var dep := deps[k];
        if dep in pkg {
          assert Uses(pkg, id, dep);
          ReachShrinks(pkg, id, dep);
          ghost var mid := order;
          SortByDeps(dep);
          forall x | x in order && x !in before ensures Reaches(pkg, id, x) && x != id {
            if x !in mid { ReachesThrough(pkg, id, dep, x); }
          }
        }
        k := k + 1;
      }
      assert id !in order;
      OrderedPush(pkg, order, id);
      order := order + [id];
    }
  }

  /** sorted_code_and_modules: all modules of the package in publishing order. */
  method SortedModules(pkg: Package) returns (result: seq<Module>, order: seq<Id>)
    requires Acyclic(pkg)
    ensures Ordered(pkg, order) && (forall id :: id in order <==> id in pkg)
    ensures |result| == |order| == |pkg| && forall i :: 0 <= i < |order| ==> result[i] == pkg[order[i]]
  {
    var sorter := new Sorter(pkg);
    var todo := pkg.Keys;
    while todo != {}
      invariant todo <= pkg.Keys && Ordered(pkg, sorter.order) && sorter.pkg == pkg
      invariant forall id :: id in pkg && id !in todo ==> id in sorter.order
      decreases |todo|
    {
      var id :| id in todo;
      sorter.SortByDeps(id);
      todo := todo - {id};
    }
    order := sorter.order;
    result := TakeInOrder(pkg, sorter.order);
    CountDistinct(order, pkg.Keys);
  }

  /** Take the modules out of the map one by one; none is missing when its turn comes. */
  method TakeInOrder(pkg: Package, ids: seq<Id>) returns (result: seq<Module>)
    requires NoDuplicates(ids) && forall i :: 0 <= i < |ids| ==> ids[i] in pkg
    ensures |result| == |ids| && forall i :: 0 <= i < |ids| ==> result[i] == pkg[ids[i]]
  {
    var rest := pkg;
    result := [];
    for i := 0 to |ids|
      invariant |result| == i && forall j :: 0 <= j < i ==> result[j] == pkg[ids[j]]
      invariant forall j :: i <= j < |ids| ==> ids[j] in rest && rest[ids[j]] == pkg[ids[j]]
    {
      result := result + [rest[ids[i]]];
      rest := rest - {ids[i]};
    }
  }

  lemma SamePosition(s: seq<Id>, i: nat, j: nat)
    requires NoDuplicates(s) && i < |s| && j < |s| && s[i] == s[j]
    ensures i == j
  {}

  /** Along a dependency path, positions in an order go down. */
  lemma {:induction false} PathDescends(pkg: Package, order: seq<Id>, p: seq<Id>, a: nat, b: nat)
    requires Ordered(pkg, order) && IsPath(pkg, p) && |p| > 1
    requires a < |order| && order[a] == p[0] && b < |order| && order[b] == p[|p| - 1]
    ensures b < a
    decreases |p|
  {
    assert Uses(pkg, order[a], p[1]);
    var i :| 0 <= i < a && order[i] == p[1];
    if |p| > 2 {
      var q := p[1..];
      assert IsPath(pkg, q) by {
        forall k | 0 <= k < |q| - 1 ensures Uses(pkg, q[k], q[k + 1]) { assert Uses(pkg, p[k + 1], p[k + 1 + 1]); }
      }
      PathDescends(pkg, order, q, i, b);
    } else {
      SamePosition(order, i, b);
    }
  }

  /** A package has a publishing order only if no module depends on itself. */
  lemma OrderNeedsAcyclic(pkg: Package, order: seq<Id>)
    requires Ordered(pkg, order) && forall id :: id in pkg ==> id in order
    ensures Acyclic(pkg)
  {
    forall p | IsPath(pkg, p) && |p| > 1 ensures p[0] != p[|p| - 1] {
      if p[0] == p[|p| - 1] {
        var a :| 0 <= a < |order| && order[a] == p[0];
        PathDescends(pkg, order, p, a, a);
      }
    }
  }

  lemma {:induction false} CountDistinct(s: seq<Id>, keys: set<Id>)
    requires NoDuplicates(s) && forall x :: x in s <==> x in keys
    ensures |s| == |keys|
  {
    if s != [] {
      var n := |s| - 1;
      assert s == s[..n] + [s[n]];
      assert s[n] !in s[..n];
      CountDistinct(s[..n], keys - {s[n]});
    }
  }
}
