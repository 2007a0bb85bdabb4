// Control-flow facts used by the ExecIR validator: reachability of every block and
// segment dominance (runtime/src/exec_ir.cpp, the `reached` and `dom` loops).
//
// A program runs in segments. A segment starts at a root (the entry block or the
// target of a Suspend) and never passes through another root without restarting the
// dominance information, so a root is dominated by itself alone.
module Dominance {

  datatype Graph = Graph(nodes: set<nat>, pred: map<nat, set<nat>>, roots: set<nat>) {
    function Pred(b: nat): set<nat> {
      if b in pred then pred[b] else {}
    }

    ghost predicate Valid() {
      roots <= nodes && forall b :: b in nodes ==> Pred(b) <= nodes
    }

    // A path from a root to `b` that meets no further root.
    ghost predicate SegmentPath(path: seq<nat>, b: nat) {
      && |path| > 0
      && path[0] in roots
      && path[|path| - 1] == b
      && forall i {:trigger path[i]} :: 0 < i < |path| ==> path[i] in nodes - roots && path[i - 1] in Pred(path[i])
    }

    // The blocks met by every segment path to `b`.
    ghost function Dominators(b: nat): set<nat> {
      set x | x in nodes && forall path :: SegmentPath(path, b) ==> x in path
    }

    // Any path from `from` to `b`, through roots or not.
    ghost predicate Path(from: nat, path: seq<nat>, b: nat) {
      && |path| > 0
      && path[0] == from
      && path[|path| - 1] == b
      && forall i {:trigger path[i]} :: 0 < i < |path| ==> path[i] in nodes && path[i - 1] in Pred(path[i])
    }
  }

  // --------------------------------------------------------------------------------
  // Reachability.

  // Some path leads from `entry` to `b`.
  ghost predicate Reachable(g: Graph, entry: nat, b: nat) {
    exists path :: g.Path(entry, path, b)
  }

  lemma ReachOne(g: Graph, entry: nat, parent: nat, b: nat)
    requires Reachable(g, entry, parent) && parent in g.Pred(b) && b in g.nodes
    ensures Reachable(g, entry, b)
  {
    var path :| g.Path(entry, path, parent);
    assert g.Path(entry, path + [b], b);
  }

  // One sweep over the blocks.
  method Sweep(g: Graph, entry: nat, order: seq<nat>, before: set<nat>) returns (reached: set<nat>, changed: bool)
    requires before <= g.nodes && forall b :: b in before ==> Reachable(g, entry, b)
    requires forall j :: 0 <= j < |order| ==> order[j] in g.nodes
    ensures before <= reached <= g.nodes && forall b :: b in reached ==> Reachable(g, entry, b)
    ensures if changed then before < reached else reached == before
    ensures !changed ==> forall j :: 0 <= j < |order| ==> order[j] in reached || g.Pred(order[j]) !! reached
  {
    reached, changed := before, false;
    for k := 0 to |order|
      invariant before <= reached <= g.nodes && forall b :: b in reached ==> Reachable(g, entry, b)
      invariant if changed then before < reached else reached == before
      invariant !changed ==> forall j :: 0 <= j < k ==> order[j] in reached || g.Pred(order[j]) !! reached
    {
      var b := order[k];
      if b !in reached && !(g.Pred(b) !! reached) {
        ghost var parent :| parent in g.Pred(b) && parent in reached;
        ReachOne(g, entry, parent, b);
        reached := reached + {b};
        changed := true;
      }
    }
  }

  method Reach(g: Graph, entry: nat, order: seq<nat>) returns (reached: set<nat>)
    requires g.Valid() && entry in g.nodes
    requires g.nodes == set i | 0 <= i < |order| :: order[i]
    ensures forall b :: b in reached <==> exists path :: g.Path(entry, path, b)
  {
    reached := {entry};
    assert g.Path(entry, [entry], entry);
    var changed := true;
    while changed
      invariant entry in reached && reached <= g.nodes
      invariant forall b :: b in reached ==> Reachable(g, entry, b)
      invariant !changed ==> forall b :: b in g.nodes ==> b in reached || g.Pred(b) !! reached
      decreases g.nodes - reached, changed
    {
      reached, changed := Sweep(g, entry, order, reached);
    }
    forall b, path | g.Path(entry, path, b) ensures b in reached {
      ClosedUnderPaths(g, entry, reached, path, b);
    }
  }

  lemma {:induction false} ClosedUnderPaths(g: Graph, entry: nat, s: set<nat>, path: seq<nat>, b: nat)
    requires g.Path(entry, path, b) && entry in s
    requires forall c :: c in g.nodes ==> c in s || g.Pred(c) !! s
    ensures b in s
    decreases |path|
  {
    if |path| > 1 {
      var prefix := path[..|path| - 1];
      assert g.Path(entry, prefix, prefix[|prefix| - 1]);
      ClosedUnderPaths(g, entry, s, prefix, prefix[|prefix| - 1]);
      assert path[|path| - 2] in g.Pred(path[|path| - 1]);
    }
  }

  // Every block reachable from a root lies on a segment path: cut any path at its last root.
  lemma {:induction false} LastRoot(g: Graph, entry: nat, path: seq<nat>, b: nat) returns (segment: seq<nat>)
    requires entry in g.roots && g.Path(entry, path, b)
    ensures g.SegmentPath(segment, b)
    decreases |path|
  {
    if b in g.roots {
      segment := [b];
    } else {
      var prefix := path[..|path| - 1];
      var parent := prefix[|prefix| - 1];
      assert g.Path(entry, prefix, parent);
      var shorter := LastRoot(g, entry, prefix, parent);
      segment := shorter + [b];
      assert path[|path| - 2] in g.Pred(path[|path| - 1]);
    }
  }

  // --------------------------------------------------------------------------------
  // The dominance fixpoint.

  type Doms = map<nat, set<nat>>

  ghost predicate DomsOver(g: Graph, dom: Doms) {
    dom.Keys == g.nodes && forall b :: b in dom ==> dom[b] <= g.nodes
  }

  // The equation the loop solves at one non-root block.
  ghost function Meet(g: Graph, dom: Doms, b: nat): set<nat>
    requires g.Valid() && DomsOver(g, dom) && b in g.nodes
  {
    (set x | x in g.nodes && forall q :: q in g.Pred(b) ==> x in dom[q]) + {b}
  }

  // Never below the true dominators, never increased by another round.
  ghost predicate Approximates(g: Graph, dom: Doms) {
    && g.Valid()
    && DomsOver(g, dom)
    && (forall r :: r in g.roots ==> dom[r] == {r})
    && (forall b {:trigger g.Dominators(b)} :: b in g.nodes ==> g.Dominators(b) <= dom[b])
    && (forall b {:trigger Meet(g, dom, b)} :: b in g.nodes - g.roots ==> Meet(g, dom, b) <= dom[b])
  }

  ghost predicate Settled(g: Graph, dom: Doms, b: nat)
    requires g.Valid() && DomsOver(g, dom) && b in g.nodes
  {
    b in g.roots || dom[b] == Meet(g, dom, b)
  }

  lemma RootDominators(g: Graph, r: nat)
    requires g.Valid() && r in g.roots
    ensures g.Dominators(r) == {r}
  {
    assert g.SegmentPath([r], r);
    forall path | g.SegmentPath(path, r) ensures r in path {
      assert path[|path| - 1] == r;
    }
  }

  // A dominator of `b` other than `b` dominates every predecessor of `b`.
  lemma DominatorsStep(g: Graph, dom: Doms, b: nat)
    requires Approximates(g, dom) && b in g.nodes - g.roots
    ensures g.Dominators(b) <= Meet(g, dom, b)
  {
    forall x, q | x in g.Dominators(b) && x != b && q in g.Pred(b) ensures x in dom[q] {
      forall path | g.SegmentPath(path, q) ensures x in path {
        assert g.SegmentPath(path + [b], b);
        assert x in path + [b];
      }
      assert x in g.Dominators(q);
    }
  }

  lemma UpdateKeepsApproximation(g: Graph, dom: Doms, b: nat)
    requires Approximates(g, dom) && b in g.nodes - g.roots
    ensures Approximates(g, dom[b := Meet(g, dom, b)])
  {
    DominatorsStep(g, dom, b);
    var next := dom[b := Meet(g, dom, b)];
    forall c | c in g.nodes - g.roots ensures Meet(g, next, c) <= next[c] {
      assert Meet(g, next, c) <= Meet(g, dom, c);
    }
  }

  ghost predicate Fixpoint(g: Graph, dom: Doms) {
    && g.Valid()
    && DomsOver(g, dom)
    && (forall r :: r in g.roots ==> dom[r] == {r})
    && (forall b {:trigger Settled(g, dom, b)} :: b in g.nodes ==> Settled(g, dom, b))
  }

  // At a fixpoint nothing but a true dominator is left.
  lemma {:induction false} FixpointOnPath(g: Graph, dom: Doms, path: seq<nat>, b: nat, x: nat)
    requires Fixpoint(g, dom)
    requires g.SegmentPath(path, b) && b in g.nodes && x in dom[b]
    ensures x in path
    decreases |path|
  {
    assert path[|path| - 1] == b;
    if |path| > 1 && x != b {
      var prefix := path[..|path| - 1];
      var parent := prefix[|prefix| - 1];
      assert parent in g.Pred(b) && b !in g.roots;
      assert Settled(g, dom, b);
      assert x in dom[parent];
      assert g.SegmentPath(prefix, parent);
      FixpointOnPath(g, dom, prefix, parent, x);
    }
  }

  // Sets that lose nothing along an edge and rely on nothing at a root.
  ghost predicate Claims(g: Graph, dom: Doms) {
    && (forall b :: b in g.nodes ==> b in dom)
    && (forall r :: r in g.roots && r in g.nodes ==> dom[r] <= {r})
    && (forall t, q {:trigger q in g.Pred(t)} :: t in g.nodes - g.roots && q in g.Pred(t) && q in g.nodes ==> dom[t] <= dom[q] + {t})
  }

  // Whatever such sets claim to dominate a block lies on every segment path to it.
  lemma {:induction false} ClaimOnPath(g: Graph, dom: Doms, path: seq<nat>, b: nat, x: nat)
    requires g.Valid() && Claims(g, dom) && g.SegmentPath(path, b) && b in g.nodes && x in dom[b]
    ensures x in path
    decreases |path|
  {
    assert path[|path| - 1] == b;
    if |path| > 1 && x != b {
      var prefix := path[..|path| - 1];
      var parent := prefix[|prefix| - 1];
      assert parent in g.Pred(b) && b !in g.roots;
      assert g.SegmentPath(prefix, parent);
      ClaimOnPath(g, dom, prefix, parent, x);
    }
  }

  ghost predicate Exact(g: Graph, dom: Doms) {
    dom.Keys == g.nodes && forall b :: b in g.nodes ==> dom[b] == g.Dominators(b)
  }

  lemma FixpointExact(g: Graph, dom: Doms, order: seq<nat>)
    requires Approximates(g, dom)
    requires g.nodes == set i | 0 <= i < |order| :: order[i]
    requires forall j :: 0 <= j < |order| ==> Settled(g, dom, order[j])
    ensures Exact(g, dom)
  {
    assert Fixpoint(g, dom);
    forall b, x | b in g.nodes && x in dom[b] ensures x in g.Dominators(b) {
      forall path | g.SegmentPath(path, b) ensures x in path {
        FixpointOnPath(g, dom, path, b, x);
      }
    }
  }

  // Total size of the sets, the measure that bounds the number of rounds.
  ghost function Total(dom: Doms, order: seq<nat>): nat
    requires forall i :: 0 <= i < |order| ==> order[i] in dom
  {
    if order == [] then 0 else |dom[order[0]]| + Total(dom, order[1..])
  }

  lemma {:induction false} TotalDrops(dom: Doms, order: seq<nat>, b: nat, s: set<nat>)
    requires forall i :: 0 <= i < |order| ==> order[i] in dom
    requires b in dom && s <= dom[b]
    ensures Total(dom[b := s], order) <= Total(dom, order)
    ensures b in order && s < dom[b] ==> Total(dom[b := s], order) < Total(dom, order)
  {
    if order != [] {
      TotalDrops(dom, order[1..], b, s);
      SubsetSize(s, dom[b]);
    }
  }

  lemma {:induction false} SubsetSize(a: set<nat>, b: set<nat>)
    requires a <= b
    ensures |a| <= |b|
    ensures a < b ==> |a| < |b|
  {
    if a != {} {
      var x :| x in a;
      SubsetSize(a - {x}, b - {x});
    } else if b != {} {
      var x :| x in b;
      assert |b| == |b - {x}| + 1;
    }
  }

  // The intersection over the predecessors, charged against the validation budget.
  method MeetPredecessors(g: Graph, dom: Doms, b: nat, work0: nat, maxWork: nat)
    returns (ok: bool, next: set<nat>, work: nat)
    requires g.Valid() && DomsOver(g, dom) && b in g.nodes
    requires work0 <= maxWork
    ensures ok ==> next == Meet(g, dom, b) && work0 <= work <= maxWork
  {
    next, work, ok := g.nodes, work0, true;
    var todo := g.Pred(b);
    while todo != {}
      invariant todo <= g.Pred(b)
      invariant next == set x | x in g.nodes && forall q :: q in g.Pred(b) - todo ==> x in dom[q]
      invariant work0 <= work <= maxWork
      decreases todo
    {
      var parent :| parent in todo;
      if work + |next| > maxWork {
        ok := false;
        return;
      }
      work := work + |next|;
      next := next * dom[parent];
      todo := todo - {parent};
    }
    next := next + {b};
  }

  function InitialDoms(g: Graph): Doms {
    map b | b in g.nodes :: if b in g.roots then {b} else g.nodes
  }

  lemma InitialApproximates(g: Graph)
    requires g.Valid()
    ensures Approximates(g, InitialDoms(g))
  {
    forall r | r in g.roots ensures g.Dominators(r) == {r} {
      RootDominators(g, r);
    }
  }

  // One block of one round: the set it should have, and whether that shrinks it.
  method Improve(g: Graph, dom: Doms, id: nat, ghost order: seq<nat>, work0: nat, maxWork: nat)
    returns (ok: bool, s: set<nat>, shrunk: bool, work: nat)
    requires Approximates(g, dom) && id in g.nodes && work0 <= maxWork
    requires id in order && forall i :: 0 <= i < |order| ==> order[i] in g.nodes
    ensures ok ==> work <= maxWork
    ensures ok && !shrunk ==> Settled(g, dom, id)
    ensures ok && shrunk ==> Approximates(g, dom[id := s]) && Total(dom[id := s], order) < Total(dom, order)
  {
    ok, s, shrunk, work := true, {}, false, work0;
    if id !in g.roots {
      ok, s, work := MeetPredecessors(g, dom, id, work0, maxWork);
      if ok && s != dom[id] {
        UpdateKeepsApproximation(g, dom, id);
        TotalDrops(dom, order, id, s);
        shrunk := true;
      }
    }
  }

  // One round over all blocks.
  method Round(g: Graph, dom: Doms, order: seq<nat>, work0: nat, maxWork: nat)
    returns (ok: bool, next: Doms, changed: bool, work: nat)
    requires Approximates(g, dom) && work0 <= maxWork
    requires forall i :: 0 <= i < |order| ==> order[i] in g.nodes
    ensures ok ==> Approximates(g, next) && work <= maxWork
    ensures ok ==> Total(next, order) <= Total(dom, order)
    ensures ok && changed ==> Total(next, order) < Total(dom, order)
    ensures ok && !changed ==> forall j :: 0 <= j < |order| ==> Settled(g, next, order[j])
  {
    ok, next, changed, work := true, dom, false, work0;
    for k := 0 to |order|
      invariant Approximates(g, next) && work <= maxWork
      invariant Total(next, order) <= Total(dom, order)
      invariant changed ==> Total(next, order) < Total(dom, order)
      invariant !changed ==> forall j :: 0 <= j < k ==> Settled(g, next, order[j])
    {
      var s, shrunk;
      ok, s, shrunk, work := Improve(g, next, order[k], order, work, maxWork);
      if !ok {
        return;
      }
      if shrunk {
        next, changed := next[order[k] := s], true;
      }
    }
  }

  // The dominance loop: whenever it ends within its budget the result is exact.
  method ComputeDominators(g: Graph, order: seq<nat>, work0: nat, maxWork: nat)
    returns (ok: bool, dom: Doms, work: nat)
    requires g.Valid()
    requires g.nodes == set i | 0 <= i < |order| :: order[i]
    requires work0 <= maxWork
    ensures ok ==> Exact(g, dom)
    ensures ok ==> work <= maxWork
  {
    ok, work, dom := true, work0, InitialDoms(g);
    InitialApproximates(g);
    var changed := true;
    while changed
      invariant Approximates(g, dom) && work <= maxWork
      invariant !changed ==> forall j :: 0 <= j < |order| ==> Settled(g, dom, order[j])
      decreases Total(dom, order), changed
    {
      ok, dom, changed, work := Round(g, dom, order, work, maxWork);
      if !ok {
        return;
      }
    }
    FixpointExact(g, dom, order);
  }
}
