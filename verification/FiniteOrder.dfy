// Acceptance of a finite protocol package depends on the order of its rules
// (runtime/src/protocol_finite.cpp): the disjointness test is not symmetric. Here is exactly
// when the order matters.
module FiniteOrder {
  import opened Common
  import opened Wire
  import opened FiniteRules

  // Both guards are negations, and one negates the other.
  predicate Lopsided(a: Guard, b: Guard)
    requires GuardOK(a, 8) && GuardOK(b, 8)
  {
    a.kind.Not? && b.kind.Not? && (a.operands[0] == b || b.operands[0] == a)
  }

  lemma {:induction false} NotInside(a: Guard, b: Guard)
    requires GuardOK(a, 8) && GuardOK(b, 8) && a.kind.Not? && b.kind.Not?
    ensures !(a.operands[0] == b && b.operands[0] == a)
    decreases a
  {
    if a.operands[0] == b && b.operands[0] == a {
      NotInside(b, a);
    }
  }

  lemma DisjointSymmetric(a: Guard, b: Guard)
    requires GuardOK(a, 8) && GuardOK(b, 8)
    ensures (Disjoint(a, b) <==> Disjoint(b, a)) <==> !Lopsided(a, b)
  {
    if a.kind.Not? {
      GuardEqualExact(a.operands[0], b);
      GuardEqualExact(b, a.operands[0]);
    }
    if b.kind.Not? {
      GuardEqualExact(a, b.operands[0]);
      GuardEqualExact(b.operands[0], a);
    }
    if a.kind.Not? && b.kind.Not? {
      NotInside(a, b);
    }
  }

  predicate Ranked(a: Rule, b: Rule) {
    a.priority.Some? && b.priority.Some? && a.priority != b.priority
  }

  // The two rules may not change places: they answer the same call with the same reply, no
  // priorities tell them apart, and their guards are lopsided.
  predicate OrderMatters(a: Rule, b: Rule)
    requires GuardOK(a.guard, 8) && GuardOK(b.guard, 8)
  {
    SameCall(a, b) && a.sync == b.sync && a.returned == b.returned && !Ranked(a, b) && Lopsided(a.guard, b.guard)
  }

  lemma PairReversed(a: Rule, b: Rule)
    requires GuardOK(a.guard, 8) && GuardOK(b.guard, 8) && PairOK(a, b)
    ensures PairOK(b, a) <==> !OrderMatters(a, b)
  {
    GuardEqualExact(a.callGuard, b.callGuard);
    GuardEqualExact(b.callGuard, a.callGuard);
    DisjointSymmetric(a.guard, b.guard);
  }

  // --------------------------------------------------------------------------------
  // Packages.

  // A way to list n things: `f[i]` is the old place of what now stands at i.
  ghost predicate Permutation(f: seq<nat>, n: nat) {
    |f| == n && Distinct(f) && forall i :: 0 <= i < n ==> f[i] < n
  }

  function Reordered(p: Package, f: seq<nat>): Package
    requires forall i :: 0 <= i < |f| ==> f[i] < |p.rules|
  {
    p.(rules := seq(|f|, i requires 0 <= i < |f| => p.rules[f[i]]))
  }

  // Some two rules that may not change places have done so.
  ghost predicate Upset(p: Package, f: seq<nat>)
    requires Permutation(f, |p.rules|) && PackageOK(p)
  {
    exists i, j :: 0 <= j < i < |f| && f[i] < f[j] && OrderMatters(p.rules[f[j]], p.rules[f[i]])
  }

  lemma OnePair(p: Package, f: seq<nat>, i: nat, j: nat)
    requires PackageOK(p) && Permutation(f, |p.rules|) && j < i < |f|
    ensures GuardOK(p.rules[f[i]].guard, 8) && GuardOK(p.rules[f[j]].guard, 8)
    ensures PairOK(p.rules[f[i]], p.rules[f[j]]) <==> !(f[i] < f[j] && OrderMatters(p.rules[f[j]], p.rules[f[i]]))
  {
    assert RuleOK(p, p.rules[f[i]]) && RuleOK(p, p.rules[f[j]]);
    if f[j] < f[i] {
      assert PairOK(p.rules[f[i]], p.rules[f[j]]);
    } else {
      PairReversed(p.rules[f[j]], p.rules[f[i]]);
    }
  }

  lemma SameTable(p: Package, q: Package, r: Rule)
    requires q == p.(rules := q.rules) && p.rules != [] && q.rules != []
    ensures (TableOK(p) ==> TableOK(q)) && (RuleOK(p, r) <==> RuleOK(q, r))
  {
  }

  // Exactly when acceptance survives a reordering.
  lemma AcceptedReordered(p: Package, f: seq<nat>)
    requires PackageOK(p) && Permutation(f, |p.rules|)
    ensures PackageOK(Reordered(p, f)) <==> !Upset(p, f)
  {
    var q := Reordered(p, f);
    forall i | 0 <= i < |f| ensures RuleOK(q, q.rules[i]) {
      SameTable(p, q, p.rules[f[i]]);
    }
    SameTable(p, q, p.rules[0]);
    forall i, j | 0 <= j < i < |f|
      ensures PairOK(q.rules[i], q.rules[j]) <==> !(f[i] < f[j] && OrderMatters(p.rules[f[j]], p.rules[f[i]]))
    {
      OnePair(p, f, i, j);
    }
  }

  function Backwards(n: nat): seq<nat> {
    seq(n, i requires 0 <= i < n => n - 1 - i)
  }

  // No two rules of the table forbid each other's place.
  ghost predicate OrderFree(p: Package)
    requires PackageOK(p)
  {
    forall i, j :: 0 <= j < i < |p.rules| ==> !OrderMatters(p.rules[j], p.rules[i])
  }

  // A package is accepted in every order exactly when it has no such two rules, and then
  // listing it backwards shows it.
  lemma AcceptedInEveryOrder(p: Package)
    requires PackageOK(p)
    ensures OrderFree(p) <==> forall f :: Permutation(f, |p.rules|) ==> PackageOK(Reordered(p, f))
    ensures Permutation(Backwards(|p.rules|), |p.rules|)
    ensures OrderFree(p) <==> PackageOK(Reordered(p, Backwards(|p.rules|)))
  {
    BackwardsTells(p);
    if OrderFree(p) {
      forall f | Permutation(f, |p.rules|) ensures PackageOK(Reordered(p, f)) {
        FreeAccepted(p, f);
      }
    }
  }

  lemma FreeAccepted(p: Package, f: seq<nat>)
    requires PackageOK(p) && OrderFree(p) && Permutation(f, |p.rules|)
    ensures PackageOK(Reordered(p, f))
  {
    AcceptedReordered(p, f);
    NeverUpset(p, f);
  }

  lemma BackwardsTells(p: Package)
    requires PackageOK(p)
    ensures Permutation(Backwards(|p.rules|), |p.rules|)
    ensures OrderFree(p) <==> PackageOK(Reordered(p, Backwards(|p.rules|)))
  {
    var n := |p.rules|;
    var b := Backwards(n);
    assert Permutation(b, n);
    if OrderFree(p) {
      FreeAccepted(p, b);
    } else {
      var i, j :| 0 <= j < i < n && OrderMatters(p.rules[j], p.rules[i]);
      AcceptedReordered(p, b);
      Swapped(p, j, i);
      assert b[n - 1 - i] == i && b[n - 1 - j] == j;
      assert Upset(p, b);
    }
  }

  lemma Swapped(p: Package, j: nat, i: nat)
    requires PackageOK(p) && j < i < |p.rules|
    ensures OrderMatters(p.rules[j], p.rules[i]) <==> OrderMatters(p.rules[i], p.rules[j])
  {
    assert RuleOK(p, p.rules[j]) && RuleOK(p, p.rules[i]);
  }

  lemma NeverUpset(p: Package, f: seq<nat>)
    requires PackageOK(p) && OrderFree(p) && Permutation(f, |p.rules|)
    ensures !Upset(p, f)
  {
    forall i, j | 0 <= j < i < |f| && f[i] < f[j] ensures !OrderMatters(p.rules[f[j]], p.rules[f[i]]) {
      Swapped(p, f[i], f[j]);
    }
  }

  // --------------------------------------------------------------------------------
  // A package accepted in one order and refused in the other.

  function Plain(): Guard {
    Guard(Always, 0, 0, [])
  }

  function Negated(g: Guard): Guard {
    Guard(Not, 0, 0, [g])
  }

  function Example(first: Guard, second: Guard): Package {
    Package("p", "1", [("request", Forward)], ["idle", "done"], 0, [1], [], [ExampleRule(first), ExampleRule(second)])
  }

  function ExampleRule(g: Guard): Rule {
    Rule(0, Forward, 0, Accepted, None, g, None, [], [], [], 0, Plain())
  }

  lemma NegatedOK(g: Guard, fields: nat)
    requires GuardOK(g, fields)
    ensures GuardOK(Negated(g), fields)
  {
  }

  lemma ExampleParts(first: Guard, second: Guard)
    requires GuardOK(first, 8) && GuardOK(second, 8)
    ensures PackageOK(Example(first, second)) <==> Disjoint(second, first)
  {
    var p := Example(first, second);
    assert RuleOK(p, p.rules[0]) && RuleOK(p, p.rules[1]);
    GuardEqualExact(Plain(), Plain());
    assert PackageOK(p) <==> PairOK(p.rules[1], p.rules[0]);
  }

  lemma OrderDecides()
    ensures var g := Negated(Plain());
            && PackageOK(Example(g, Negated(g))) && !PackageOK(Example(Negated(g), g))
            && Reordered(Example(g, Negated(g)), [1, 0]) == Example(Negated(g), g)
  {
    var g := Negated(Plain());
    NegatedOK(Plain(), 8);
    NegatedOK(g, 8);
    ExampleParts(g, Negated(g));
    ExampleParts(Negated(g), g);
    GuardEqualExact(Negated(g).operands[0], g);
    GuardEqualExact(g.operands[0], Negated(g));
  }

  lemma ExampleFits(first: Guard, second: Guard)
    requires Shallow(first, 1) && Shallow(second, 1) && Nodes(first) <= 3 && Nodes(second) <= 3
    ensures Affordable(Example(first, second))
  {
    var p := Example(first, second);
    var a, b := p.rules[0], p.rules[1];
    assert Nodes(Plain()) == 1;
    assert RuleCost(a) <= 5 && RuleCost(b) <= 5;
    assert RuleFits(a) && RuleFits(b);
    assert PairWork(p.rules, 1, 1) == PairWork(p.rules, 1, 0) + 1 + RuleCost(b) + RuleCost(a);
    assert TableWork(p.rules, 1) == TableWork(p.rules, 0) + RuleCost(a) + PairWork(p.rules, 0, 0);
    assert TableWork(p.rules, 2) == TableWork(p.rules, 1) + RuleCost(b) + PairWork(p.rules, 1, 1);
  }

  lemma NegatedFits(g: Guard, depth: nat)
    requires Shallow(g, depth + 1) && depth <= MAX_GUARD_DEPTH
    ensures Shallow(Negated(g), depth) && Nodes(Negated(g)) == Nodes(g) + 1
  {
    var n := Negated(g);
    assert NodesFrom(n, 0) == Nodes(n.operands[0]) + NodesFrom(n, 1);
  }

  // The validator accepts the package in one order and refuses it in the other.
  method ValidatedBothWays() returns (one: Option<Error>, other: Option<Error>)
    ensures one.None? && other.Some? && other != Some(Capacity)
  {
    var g := Negated(Plain());
    OrderDecides();
    NegatedFits(Plain(), 1);
    NegatedFits(Plain(), 2);
    NegatedFits(g, 1);
    ExampleFits(g, Negated(g));
    ExampleFits(Negated(g), g);
    one := ValidatePackage(Example(g, Negated(g)));
    other := ValidatePackage(Example(Negated(g), g));
  }
}
