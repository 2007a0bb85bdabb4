// Whole runs of the scope store: the tree, and what cancellation freezes for ever.
module ScopeRuns {
  import opened Common
  import opened CancelScope
  import opened ScopeTree

  // An open scope has an open parent, and a scope with a plan is not open.
  ghost predicate OpenDown(s: Store) {
    forall i :: 0 < i < |s.records| && s.records[i].used && s.records[i].state.Open? ==>
      Get(s, s.records[i].parent).Ok? && s.records[s.records[i].parent.slot].state.Open?
  }

  ghost predicate PlansShut(s: Store) {
    forall i :: 0 <= i < |s.records| && s.records[i].used && s.records[i].plan.Some? ==> !s.records[i].state.Open?
  }

  ghost predicate ChildrenBelow(s: Store) {
    forall i, n :: 0 <= i < |s.records| && 0 <= n < |s.records[i].entries| && s.records[i].entries[n].kind.ChildScope? ==>
      s.records[i].entries[n].handle.slot != 0
  }

  ghost predicate Inv(s: Store) {
    TreeOK(s) && NamesOK(s) && OpenDown(s) && PlansShut(s) && ChildrenBelow(s)
  }

  lemma InitInv(domain: nat, store: nat, scopes: nat, entryLimit: nat, actionLimit: nat)
    requires scopes > 0
    ensures Inv(NewStore(domain, store, scopes, entryLimit, actionLimit))
  {
    var s := NewStore(domain, store, scopes, entryLimit, actionLimit);
    assert Rooted(s, 0, 0);
  }

  // --------------------------------------------------------------------------------
  // Changing what a scope owns.

  ghost predicate SmallKinds(es: seq<Owned>) {
    forall n :: 0 <= n < |es| && es[n].kind.ChildScope? ==> es[n].handle.slot != 0
  }

  lemma EntriesInv(s: Store, i: nat, es: seq<Owned>, t: Store)
    requires Inv(s) && i < |s.records| && SmallKinds(es) && t == SetEntries(s, i, es)
    ensures Inv(t)
  {
    LinksTree(s, t);
  }

  lemma OwnKinds(s: Store, i: nat)
    requires ChildrenBelow(s) && i < |s.records|
    ensures SmallKinds(s.records[i].entries)
  {
  }

  lemma LessKinds(es: seq<Owned>, fs: seq<Owned>)
    requires SmallKinds(es) && forall x :: x in fs ==> x in es
    ensures SmallKinds(fs)
  {
    forall n | 0 <= n < |fs| && fs[n].kind.ChildScope? ensures fs[n].handle.slot != 0 {
      assert fs[n] in es;
    }
  }

  lemma NotFrozenOpen(s: Store, h: Handle)
    requires !Frozen(s, h)
    ensures Get(s, h).Ok? && s.records[h.slot].state.Open?
  {
  }

  lemma CreateInv(s: Store, parent: Handle)
    requires Inv(s)
    ensures Inv(Create(s, parent).0)
  {
    var (t, r) := Create(s, parent);
    if r.Ok? {
      var i, p := r.value.slot, parent.slot;
      NotFrozenOpen(s, parent);
      LeafTree(s, i, parent);
      LeafInv(s, i, parent);
      var s1 := NewChild(s, i, parent);
      OwnKinds(s1, p);
      EntriesInv(s1, p, s1.records[p].entries + [Owned(r.value, ChildScope, false)], t);
    }
  }

  lemma LeafInv(s: Store, i: nat, parent: Handle)
    requires Inv(s) && 0 < i < |s.records| && !s.records[i].used && Get(s, parent).Ok? && s.records[parent.slot].state.Open?
    requires TreeOK(NewChild(s, i, parent))
    ensures Inv(NewChild(s, i, parent))
  {
    var t := NewChild(s, i, parent);
    forall j | 0 < j < |t.records| && t.records[j].used && t.records[j].state.Open?
      ensures Get(t, t.records[j].parent).Ok? && t.records[t.records[j].parent.slot].state.Open?
    {
      if j != i {
        assert Get(s, s.records[j].parent).Ok?;
      }
    }
  }

  lemma MoveInv(s: Store, a: nat, b: nat, n: nat)
    requires Inv(s) && a < |s.records| && b < |s.records| && n < |s.records[a].entries|
    ensures Inv(Move(s, a, b, n))
  {
    var es := s.records[a].entries;
    OwnKinds(s, a);
    OwnKinds(s, b);
    var s1 := SetEntries(s, b, s.records[b].entries + [es[n]]);
    EntriesInv(s, b, s.records[b].entries + [es[n]], s1);
    LessKinds(es, es[..n] + es[n + 1..]);
    EntriesInv(s1, a, es[..n] + es[n + 1..], Move(s, a, b, n));
  }

  lemma ReparentInv(s: Store, c: Handle, to: Handle)
    requires Inv(s) && Get(s, c).Ok? && c.slot != 0 && !Frozen(s, to) && !Inside(s, to, c)
    ensures Inv(Reparent(s, c.slot, to))
  {
    NotFrozenOpen(s, to);
    MovedTree(s, c, to);
    var t := Reparent(s, c.slot, to);
    forall j | 0 < j < |t.records| && t.records[j].used && t.records[j].state.Open?
      ensures Get(t, t.records[j].parent).Ok? && t.records[t.records[j].parent.slot].state.Open?
    {
      if j != c.slot {
        assert Get(s, s.records[j].parent).Ok?;
      }
    }
  }

  lemma TransferMoves(s: Store, x: Handle, from: Handle, to: Handle, observed: bool, t: Store)
    requires t == Transfer(s, x, from, to, observed).0 && t != s
    ensures from.slot < |s.records| && to.slot < |s.records| && Find(s.records[from.slot].entries, x).Some?
    ensures var n := Find(s.records[from.slot].entries, x).value;
            if s.records[from.slot].entries[n].kind.ChildScope? then
              Get(s, x).Ok? && !Frozen(s, to) && !Inside(s, to, x) && s.records[from.slot].entries[n].handle == x
              && t == Move(Reparent(s, x.slot, to), from.slot, to.slot, n)
            else t == Move(s, from.slot, to.slot, n)
  {
  }

  lemma TransferInv(s: Store, x: Handle, from: Handle, to: Handle, observed: bool)
    requires Inv(s)
    ensures Inv(Transfer(s, x, from, to, observed).0)
  {
    var t := Transfer(s, x, from, to, observed).0;
    if t != s {
      TransferMoves(s, x, from, to, observed, t);
      var a, n := from.slot, Find(s.records[from.slot].entries, x).value;
      if s.records[a].entries[n].kind.ChildScope? {
        OwnKinds(s, a);
        ReparentInv(s, x, to);
        MoveInv(Reparent(s, x.slot, to), a, to.slot, n);
      } else {
        MoveInv(s, a, to.slot, n);
      }
    }
  }

  lemma AttachInv(s: Store, x: Owned, h: Handle)
    requires Inv(s)
    ensures Inv(Attach(s, x, h).0)
  {
    if Attach(s, x, h).1.Ok? {
      OwnKinds(s, h.slot);
      EntriesInv(s, h.slot, s.records[h.slot].entries + [x], Attach(s, x, h).0);
    }
  }

  lemma ReplaceInv(s: Store, was: Handle, x: Owned, scope: Handle)
    requires Inv(s)
    ensures Inv(ReplaceOwned(s, was, x, scope).0)
  {
    if ReplaceOwned(s, was, x, scope).1.Ok? {
      var es := s.records[scope.slot].entries;
      OwnKinds(s, scope.slot);
      EntriesInv(s, scope.slot, es[Find(es, was).value := x], ReplaceOwned(s, was, x, scope).0);
    }
  }

  lemma DetachInv(s: Store, x: Handle, scope: Handle)
    requires Inv(s)
    ensures Inv(DetachCompleted(s, x, scope).0)
  {
    if DetachCompleted(s, x, scope).1.Ok? {
      var es := s.records[scope.slot].entries;
      var n := Find(es, x).value;
      OwnKinds(s, scope.slot);
      LessKinds(es, es[..n] + es[n + 1..]);
      EntriesInv(s, scope.slot, es[..n] + es[n + 1..], DetachCompleted(s, x, scope).0);
    }
  }

  lemma ApplyInv(s: Store, h: Handle, id: nat, executed: bool)
    requires Inv(s)
    ensures Inv(Apply(s, h, id, executed).0)
  {
    var t := Apply(s, h, id, executed).0;
    if t != s {
      var r := s.records[h.slot];
      var x := r.plan.value.actions[FindAction(r.plan.value.actions, id).value].owned.handle;
      ShrunkInv(s, h.slot, x, t.records[h.slot], t);
    }
  }

  // A scope with a plan loses entries and does not open again.
  lemma ShrunkInv(s: Store, i: nat, x: Handle, r: Record, t: Store)
    requires Inv(s) && i < |s.records| && s.records[i].plan.Some? && s.records[i].used && t == SetRecord(s, i, r)
    requires r.used && r.generation == s.records[i].generation && r.parent == s.records[i].parent
    requires r.entries == Without(s.records[i].entries, x) && (r.state == s.records[i].state || r.state.Cancelled?)
    ensures Inv(t)
  {
    OwnKinds(s, i);
    LessKinds(s.records[i].entries, r.entries);
    LinksTree(s, t);
  }

  lemma CloseInv(s: Store, h: Handle, observed: bool)
    requires Inv(s)
    ensures Inv(CloseScope(s, h, observed).0)
  {
    var (t, r) := CloseScope(s, h, observed);
    if r.Ok? {
      var i, parent := h.slot, s.records[h.slot].parent;
      var s1 := s;
      if Get(s, parent).Ok? {
        var es := Without(s.records[parent.slot].entries, h);
        OwnKinds(s, parent.slot);
        LessKinds(s.records[parent.slot].entries, es);
        s1 := SetEntries(s, parent.slot, es);
        EntriesInv(s, parent.slot, es, s1);
      }
      ChildSame(s, s1, h);
      DropInv(s1, h, t.records[i]);
    }
  }

  lemma ChildSame(s: Store, t: Store, h: Handle)
    requires SameLinks(s, t) && !HasChild(s, h)
    ensures !HasChild(t, h)
  {
  }

  lemma DropInv(s: Store, h: Handle, r: Record)
    requires Inv(s) && Get(s, h).Ok? && h.slot != 0 && !HasChild(s, h)
    requires !r.used && r.generation <= s.next && SmallKinds(r.entries)
    ensures Inv(SetRecord(s, h.slot, r))
  {
    DroppedTree(s, h, r);
    var t := SetRecord(s, h.slot, r);
    forall j | 0 < j < |t.records| && t.records[j].used && t.records[j].state.Open?
      ensures Get(t, t.records[j].parent).Ok? && t.records[t.records[j].parent.slot].state.Open?
    {
      assert s.records[j].parent != h;
    }
  }

  // --------------------------------------------------------------------------------
  // Cancellation.

  // A child of a scope of the closure is inside it as well.
  lemma ChildInside(s: Store, h: Handle, j: nat)
    requires TreeOK(s) && 0 < j < |s.records| && s.records[j].used && Inside(s, s.records[j].parent, h)
    ensures Inside(s, ScopeHandle(s, j), h)
  {
    var x := ScopeHandle(s, j);
    assert InsideWalk(s, x, h, |s.records| + 1);
    InsideExact(s, x, h);
  }

  lemma CancelledOpen(s: Store, h: Handle, reason: string)
    requires Inv(s)
    ensures OpenDown(CancelAll(s, h, reason))
  {
    var t := CancelAll(s, h, reason);
    forall j | 0 < j < |t.records| && t.records[j].used && t.records[j].state.Open?
      ensures Get(t, t.records[j].parent).Ok? && t.records[t.records[j].parent.slot].state.Open?
    {
      var p := s.records[j].parent;
      assert Get(s, p).Ok? && s.records[p.slot].state.Open?;
      if InClosure(s, h, p.slot) {
        ChildInside(s, h, j);
      }
    }
  }

  lemma CancelInv(s: Store, h: Handle, reason: string)
    requires Inv(s)
    ensures Inv(Cancel(s, h, reason).0)
  {
    var t := Cancel(s, h, reason).0;
    if t != s {
      LinksTree(s, t);
      CancelledOpen(s, h, reason);
    }
  }

  // Everything inside a scope that is not open is not open either.
  lemma {:induction false} ShutBelow(s: Store, y: Handle, h: Handle, n: nat)
    requires Inv(s) && InsideWalk(s, y, h, n) && Get(s, y).Ok? && Get(s, h).Ok? && !s.records[h.slot].state.Open?
    ensures !s.records[y.slot].state.Open?
    decreases n
  {
    if y != h {
      var p := s.records[y.slot].parent;
      assert HasRoot(s, y.slot);
      var k: nat :| Rooted(s, y.slot, k);
      ShutBelow(s, p, h, n - 1);
    }
  }

  // --------------------------------------------------------------------------------
  // Runs.

  datatype Command =
    | DoCreate(parent: Handle)
    | DoAttach(x: Owned, h: Handle)
    | DoTransfer(o: Handle, from: Handle, to: Handle, observed: bool)
    | DoReplace(was: Handle, x: Owned, h: Handle)
    | DoDetach(o: Handle, h: Handle)
    | DoCancel(h: Handle, reason: string)
    | DoApply(h: Handle, id: nat, executed: bool)
    | DoClose(h: Handle, observed: bool)

  function Step(s: Store, c: Command): Store {
    match c
    case DoCreate(p) => Create(s, p).0
    case DoAttach(x, h) => Attach(s, x, h).0
    case DoTransfer(o, from, to, observed) => Transfer(s, o, from, to, observed).0
    case DoReplace(was, x, h) => ReplaceOwned(s, was, x, h).0
    case DoDetach(o, h) => DetachCompleted(s, o, h).0
    case DoCancel(h, reason) => Cancel(s, h, reason).0
    case DoApply(h, id, executed) => Apply(s, h, id, executed).0
    case DoClose(h, observed) => CloseScope(s, h, observed).0
  }

  lemma StepInv(s: Store, c: Command)
    requires Inv(s)
    ensures Inv(Step(s, c))
  {
    match c
    case DoCreate(p) => CreateInv(s, p);
    case DoAttach(x, h) => AttachInv(s, x, h);
    case DoTransfer(o, from, to, observed) => TransferInv(s, o, from, to, observed);
    case DoReplace(was, x, h) => ReplaceInv(s, was, x, h);
    case DoDetach(o, h) => DetachInv(s, o, h);
    case DoCancel(h, reason) => CancelInv(s, h, reason);
    case DoApply(h, id, executed) => ApplyInv(s, h, id, executed);
    case DoClose(h, observed) => CloseInv(s, h, observed);
  }

  function Run(s: Store, cs: seq<Command>): Store
    decreases |cs|
  {
    if cs == [] then s else Run(Step(s, cs[0]), cs[1..])
  }

  lemma {:induction false} RunInv(s: Store, cs: seq<Command>)
    requires Inv(s)
    ensures Inv(Run(s, cs))
    decreases |cs|
  {
    if cs != [] {
      StepInv(s, cs[0]);
      RunInv(Step(s, cs[0]), cs[1..]);
    }
  }

  // In every reachable state the live scopes form a tree with root slot 0, and the bounded
  // walks decide ancestry and freezing exactly.
  lemma ScopesFormTree(domain: nat, store: nat, scopes: nat, entryLimit: nat, actionLimit: nat, cs: seq<Command>, h: Handle, a: Handle)
    requires scopes > 0
    ensures var s := Run(NewStore(domain, store, scopes, entryLimit, actionLimit), cs);
            && TreeOK(s)
            && (Inside(s, h, a) <==> Above(s, h, a))
            && (Frozen(s, h) <==> Get(s, h).Err? || exists b :: ShutAncestor(s, h, b))
  {
    var s0 := NewStore(domain, store, scopes, entryLimit, actionLimit);
    InitInv(domain, store, scopes, entryLimit, actionLimit);
    RunInv(s0, cs);
    InsideExact(Run(s0, cs), h, a);
    FrozenExact(Run(s0, cs), h);
  }

  // --------------------------------------------------------------------------------
  // Cancellation is for ever.

  // The handle names no open scope and never will.
  ghost predicate Shut(s: Store, x: Handle) {
    x.generation < s.next && (Get(s, x).Err? || !s.records[x.slot].state.Open?)
  }

  // What one step may do to a slot: reuse it under a new name, or keep or leave the open state.
  ghost predicate NoReopening(s: Store, t: Store) {
    && |t.records| == |s.records| && t.domain == s.domain && t.store == s.store && s.next <= t.next
    && forall i :: 0 <= i < |s.records| && t.records[i].used && t.records[i].state.Open? ==>
         || (s.records[i].used && s.records[i].state.Open? && t.records[i].generation == s.records[i].generation)
         || s.next <= t.records[i].generation
  }

  lemma CreateOpens(s: Store, parent: Handle)
    ensures NoReopening(s, Create(s, parent).0)
  {
  }

  lemma MovesOpen(s: Store, x: Handle, from: Handle, to: Handle, observed: bool)
    ensures NoReopening(s, Transfer(s, x, from, to, observed).0)
  {
  }

  lemma StepOpens(s: Store, c: Command)
    ensures NoReopening(s, Step(s, c))
  {
    match c
    case DoCreate(p) => CreateOpens(s, p);
    case DoTransfer(o, from, to, observed) => MovesOpen(s, o, from, to, observed);
    case _ =>
  }

  lemma {:induction false} ShutForEver(s: Store, cs: seq<Command>, x: Handle)
    requires Shut(s, x)
    ensures Shut(Run(s, cs), x)
    decreases |cs|
  {
    if cs != [] {
      StepOpens(s, cs[0]);
      ShutForEver(Step(s, cs[0]), cs[1..], x);
    }
  }

  // None of the calls that could add to a scope succeeds.
  ghost predicate Sealed(s: Store, x: Handle) {
    && Create(s, x).1.Err?
    && (forall o :: Attach(s, o, x).1.Err?)
    && (forall o, from, b :: Transfer(s, o, from, x, b).1.Err?)
    && (forall o, to, b :: Transfer(s, o, x, to, b).1.Err?)
    && (forall o, y :: ReplaceOwned(s, o, y, x).1.Err?)
  }

  lemma FrozenSealed(s: Store, x: Handle)
    requires Frozen(s, x)
    ensures Sealed(s, x)
  {
  }

  lemma ShutSealed(s: Store, x: Handle)
    requires Shut(s, x)
    ensures Sealed(s, x)
  {
    FrozenSealed(s, x);
  }

  // After a successful cancellation, no scope that was inside the cancelled one, and none
  // that is inside it at any later time, ever accepts a new child, entry, transfer or
  // replacement again.
  lemma CancelFreezes(s: Store, h: Handle, reason: string, cs: seq<Command>, x: Handle)
    requires Inv(s) && Cancel(s, h, reason).1.Ok?
    ensures var t := Run(Cancel(s, h, reason).0, cs);
            (Get(s, x).Ok? && Inside(s, x, h)) || (Get(t, x).Ok? && Inside(t, x, h)) ==> Sealed(t, x)
  {
    var s1 := Cancel(s, h, reason).0;
    CancelInv(s, h, reason);
    CancelShuts(s, h, reason, h);
    ShutForEver(s1, cs, h);
    RunInv(s1, cs);
    var t := Run(s1, cs);
    if Get(t, x).Ok? && Inside(t, x, h) {
      InsideLive(t, x, h);
      ShutBelow(t, x, h, |t.records|);
      FrozenSealed(t, x);
    } else if Get(s, x).Ok? && Inside(s, x, h) {
      CancelShuts(s, h, reason, x);
      ShutForEver(s1, cs, x);
      ShutSealed(t, x);
    }
  }

  lemma {:induction false} WalkLive(s: Store, y: Handle, h: Handle, n: nat)
    requires TreeOK(s) && InsideWalk(s, y, h, n) && Get(s, y).Ok?
    ensures Get(s, h).Ok?
    decreases n
  {
    if y != h {
      assert HasRoot(s, y.slot);
      var k: nat :| Rooted(s, y.slot, k);
      WalkLive(s, s.records[y.slot].parent, h, n - 1);
    }
  }

  lemma InsideLive(s: Store, y: Handle, h: Handle)
    requires TreeOK(s) && Inside(s, y, h) && Get(s, y).Ok?
    ensures Get(s, h).Ok?
  {
    WalkLive(s, y, h, |s.records|);
  }

  lemma CancelShuts(s: Store, h: Handle, reason: string, x: Handle)
    requires Inv(s) && Cancel(s, h, reason).1.Ok? && Get(s, x).Ok? && Inside(s, x, h)
    ensures Shut(Cancel(s, h, reason).0, x)
  {
    if s.records[h.slot].plan.Some? {
      ShutBelow(s, x, h, |s.records|);
    } else {
      assert InClosure(s, h, x.slot) || !s.records[x.slot].state.Open?;
    }
  }

  // --------------------------------------------------------------------------------
  // Plans.

  // A first cancellation gives each entry of each open scope inside exactly one action, in
  // the entry's own position, under an identifier that no other action has.
  lemma OneActionEach(s: Store, h: Handle, reason: string, i: nat)
    requires Inv(s) && Get(s, h).Ok? && s.records[h.slot].plan.None? && Cancel(s, h, reason).1.Ok?
    requires i < |s.records| && InClosure(s, h, i)
    ensures var r := Cancel(s, h, reason).0.records[i];
            && r.entries == s.records[i].entries && r.plan.Some? && |r.plan.value.actions| == |r.entries|
            && (forall n :: 0 <= n < |r.entries| ==>
                  && r.plan.value.actions[n].owned == r.entries[n] && !r.plan.value.actions[n].applied
                  && r.plan.value.actions[n].kind == ActionFor(r.entries[n])
                  && s.sequence < r.plan.value.actions[n].id <= Cancel(s, h, reason).0.sequence)
  {
    LoadGrows(s, h, i + 1, |s.records|);
  }

  lemma IdentifiersDiffer(s: Store, h: Handle, reason: string, i: nat, m: nat, j: nat, n: nat)
    requires i < |s.records| && j < |s.records| && InClosure(s, h, i) && InClosure(s, h, j) && (i != j || m != n)
    requires m < |s.records[i].entries| && n < |s.records[j].entries|
    ensures var t := CancelAll(s, h, reason);
            t.records[i].plan.value.actions[m].id != t.records[j].plan.value.actions[n].id
  {
    if i < j {
      LoadGrows(s, h, i + 1, j);
    } else if j < i {
      LoadGrows(s, h, j + 1, i);
    }
  }

  // The same actions, some more of them applied.
  ghost predicate SamePlan(p: Plan, q: Plan) {
    && q.scope == p.scope && q.reason == p.reason && |q.actions| == |p.actions|
    && forall n :: 0 <= n < |p.actions| ==>
         q.actions[n] == p.actions[n].(applied := q.actions[n].applied) && (p.actions[n].applied ==> q.actions[n].applied)
  }

  ghost predicate KeepsPlan(s: Store, t: Store, i: nat) {
    && i < |s.records| && i < |t.records| && s.records[i].plan.Some? && t.records[i].plan.Some?
    && SamePlan(s.records[i].plan.value, t.records[i].plan.value)
  }

  lemma CreatePlan(s: Store, parent: Handle, i: nat)
    requires i < |s.records| && s.records[i].used && s.records[i].plan.Some?
    ensures KeepsPlan(s, Create(s, parent).0, i)
  {
  }

  lemma TransferPlan(s: Store, x: Handle, from: Handle, to: Handle, observed: bool, i: nat)
    requires i < |s.records| && s.records[i].plan.Some?
    ensures KeepsPlan(s, Transfer(s, x, from, to, observed).0, i)
  {
  }

  lemma CancelPlan(s: Store, h: Handle, reason: string, i: nat)
    requires PlansShut(s) && i < |s.records| && s.records[i].used && s.records[i].plan.Some?
    ensures KeepsPlan(s, Cancel(s, h, reason).0, i)
  {
  }

  lemma ApplyPlan(s: Store, h: Handle, id: nat, executed: bool, i: nat)
    requires i < |s.records| && s.records[i].plan.Some?
    ensures KeepsPlan(s, Apply(s, h, id, executed).0, i)
  {
  }

  lemma ClosePlan(s: Store, h: Handle, observed: bool, i: nat)
    requires i < |s.records| && s.records[i].plan.Some?
    ensures KeepsPlan(s, CloseScope(s, h, observed).0, i)
  {
  }

  lemma StepPlan(s: Store, c: Command, i: nat)
    requires PlansShut(s) && i < |s.records| && s.records[i].used && s.records[i].plan.Some?
    ensures KeepsPlan(s, Step(s, c), i)
  {
    match c
    case DoCreate(p) => CreatePlan(s, p, i);
    case DoTransfer(o, from, to, observed) => TransferPlan(s, o, from, to, observed, i);
    case DoCancel(h, reason) => CancelPlan(s, h, reason, i);
    case DoApply(h, id, executed) => ApplyPlan(s, h, id, executed, i);
    case DoClose(h, observed) => ClosePlan(s, h, observed, i);
    case DoAttach(_, _) =>
    case DoReplace(_, _, _) =>
    case DoDetach(_, _) =>
  }

  // A name that was handed out earlier does not come back to life.
  ghost predicate NoRevival(s: Store, t: Store) {
    && |t.records| == |s.records| && t.domain == s.domain && t.store == s.store && s.next <= t.next
    && forall i :: 0 <= i < |s.records| && t.records[i].used ==>
         (s.records[i].used && t.records[i].generation == s.records[i].generation) || s.next <= t.records[i].generation
  }

  lemma CreateRevives(s: Store, parent: Handle)
    ensures NoRevival(s, Create(s, parent).0)
  {
  }

  lemma MovesRevive(s: Store, x: Handle, from: Handle, to: Handle, observed: bool)
    ensures NoRevival(s, Transfer(s, x, from, to, observed).0)
  {
  }

  lemma StepRevives(s: Store, c: Command)
    ensures NoRevival(s, Step(s, c))
  {
    match c
    case DoCreate(p) => CreateRevives(s, p);
    case DoTransfer(o, from, to, observed) => MovesRevive(s, o, from, to, observed);
    case _ =>
  }

  lemma {:induction false} RunRevives(s: Store, cs: seq<Command>, h: Handle)
    requires h.generation < s.next && Get(Run(s, cs), h).Ok?
    ensures Get(s, h).Ok?
    decreases |cs|
  {
    if cs != [] {
      StepRevives(s, cs[0]);
      RunRevives(Step(s, cs[0]), cs[1..], h);
    }
  }

  // As long as the scope lives, its plan keeps the same actions, and an action that was
  // applied stays applied, so its executor is not asked again.
  lemma {:induction false} PlanKept(s: Store, cs: seq<Command>, h: Handle)
    requires Inv(s) && Get(s, h).Ok? && s.records[h.slot].plan.Some? && Get(Run(s, cs), h).Ok?
    ensures KeepsPlan(s, Run(s, cs), h.slot)
    decreases |cs|
  {
    if cs != [] {
      StepInv(s, cs[0]);
      StepPlan(s, cs[0], h.slot);
      StepRevives(s, cs[0]);
      RunRevives(Step(s, cs[0]), cs[1..], h);
      PlanKept(Step(s, cs[0]), cs[1..], h);
    }
  }
}
