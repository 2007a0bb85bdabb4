// Advancing managed access: the loop terminates, advancing in two steps is advancing in
// one, an operation ends once, and only a successful write changes a buffer.
module ManagedRuns {
  import opened Common
  import opened Managed

  // An operation pins its buffer from admission until it lets go of it.
  ghost predicate OpOK(o: Option<Op>) {
    o.Some? ==> (o.value.pin.Some? ==> o.value.admitted) && (o.value.admitted && !o.value.terminal ==> o.value.pin.Some?)
  }

  ghost predicate OpsOK(m: Manager) {
    forall i :: 0 <= i < |m.ops| ==> OpOK(m.ops[i])
  }

  // --------------------------------------------------------------------------------
  // Termination.

  lemma {:induction false} LeftMonotone(a: seq<Option<Op>>, b: seq<Option<Op>>)
    requires |a| == |b| && forall i :: 0 <= i < |a| ==> Left(b[i]) <= Left(a[i])
    ensures LeftOps(b) <= LeftOps(a)
  {
    if a != [] {
      LeftMonotone(a[..|a| - 1], b[..|b| - 1]);
    }
  }

  lemma {:induction false} LeftStrict(a: seq<Option<Op>>, b: seq<Option<Op>>, k: nat)
    requires |a| == |b| && k < |a| && Left(b[k]) < Left(a[k]) && forall i :: 0 <= i < |a| ==> Left(b[i]) <= Left(a[i])
    ensures LeftOps(b) < LeftOps(a)
  {
    if k == |a| - 1 {
      LeftMonotone(a[..|a| - 1], b[..|b| - 1]);
    } else {
      LeftStrict(a[..|a| - 1], b[..|b| - 1], k);
    }
  }

  // The operation ended where it stood.
  predicate JustEnded(o: Option<Op>, p: Option<Op>) {
    && o.Some? && p.Some? && !o.value.terminal && p.value.terminal
    && p.value == o.value.(terminal := true, settled := p.value.settled, outcome := p.value.outcome, input := p.value.input)
  }

  lemma EndFacts(host: Host, m: Manager, i: nat, f: Failure, settled: bool)
    requires i < |m.ops| && m.ops[i].Some?
    ensures var r := End(host, m, i, f, settled).0;
            && r == m.(ops := r.ops, published := r.published) && r.ops == m.ops[i := r.ops[i]]
            && (r.ops[i] == m.ops[i] || JustEnded(m.ops[i], r.ops[i]))
  {
  }

  // What an invalidation does to each operation.
  lemma {:induction false} EndHitFacts(host: Host, m: Manager, c: Change, drains: bool, n: nat)
    requires n <= |m.ops|
    ensures var r := EndHit(host, m, c, drains, n).0;
            && r == m.(ops := r.ops, published := r.published)
            && forall i :: 0 <= i < |m.ops| ==> r.ops[i] == m.ops[i] || JustEnded(m.ops[i], r.ops[i])
  {
    if n > 0 {
      EndHitFacts(host, m, c, drains, n - 1);
    }
  }

  lemma {:induction false} EndSomeFacts(host: Host, m: Manager, f: Failure, which: Op -> bool, n: nat)
    requires n <= |m.ops|
    ensures var r := EndSome(host, m, f, which, n).0;
            && r == m.(ops := r.ops, published := r.published)
            && forall i :: 0 <= i < |m.ops| ==> r.ops[i] == m.ops[i] || JustEnded(m.ops[i], r.ops[i])
  {
    if n > 0 {
      EndSomeFacts(host, m, f, which, n - 1);
      var m1 := EndSome(host, m, f, which, n - 1).0;
      if m1.ops[n - 1].Some? {
        EndFacts(host, m1, n - 1, f, false);
      }
    }
  }

  lemma ApplyShrinks(host: Host, m: Manager, c: Change)
    requires OpsOK(m)
    ensures var t := Apply(host, m, c).0; OpsOK(t) && LeftOps(t.ops) <= LeftOps(m.ops) && t.changes == m.changes
  {
    EndHitFacts(host, LeasesHit(m, c), c, Drains(m, c), |m.ops|);
    var t := Apply(host, m, c).0;
    forall i | 0 <= i < |t.ops| ensures OpOK(t.ops[i]) && Left(t.ops[i]) <= Left(m.ops[i]) {
      assert OpOK(m.ops[i]);
    }
    LeftMonotone(m.ops, t.ops);
  }

  // One operation moved on, others were at most collected.
  ghost predicate Moved(m: Manager, t: Manager, k: nat) {
    && |t.ops| == |m.ops| && k < |m.ops| && t.changes == m.changes && OpOK(t.ops[k]) && Left(t.ops[k]) < Left(m.ops[k])
    && forall i :: 0 <= i < |m.ops| && i != k ==> t.ops[i] == m.ops[i] || t.ops[i] == CollectOp(m.ops[i])
  }

  lemma MovedShrinks(m: Manager, t: Manager, k: nat)
    requires OpsOK(m) && Moved(m, t, k)
    ensures OpsOK(t) && Measure(t) < Measure(m)
  {
    forall i | 0 <= i < |t.ops| ensures OpOK(t.ops[i]) && Left(t.ops[i]) <= Left(m.ops[i]) {
      assert OpOK(m.ops[i]);
    }
    LeftStrict(m.ops, t.ops, k);
  }

  lemma AdmitMoves(host: Host, m: Manager, i: nat)
    requires OpsOK(m) && i < |m.ops| && m.ops[i].Some? && !m.ops[i].value.admitted && m.ops[i].value.Waiting() && AdmitOp(host, m, i).1
    ensures Moved(m, AdmitOp(host, m, i).0, i)
  {
    assert OpOK(m.ops[i]);
  }

  lemma FinishMoves(host: Host, m: Manager, i: nat)
    requires OpsOK(m) && i < |m.ops| && m.ops[i].Some? && m.ops[i].value.admitted && m.ops[i].value.Waiting() && FinishOp(host, m, i).1
    ensures Moved(m, FinishOp(host, m, i).0, i)
  {
    assert OpOK(m.ops[i]);
  }

  lemma ProcessShrinks(host: Host, m: Manager, until: nat, k: Key)
    requires OpsOK(m) && Next(m, until) == Some(k) && Process(host, m, k).1
    ensures OpsOK(Process(host, m, k).0) && Measure(Process(host, m, k).0) < Measure(m)
  {
    NextFacts(m, until);
    var m1 := m.(now := k.time, turn := k.sequence);
    if k.kind == 1 {
      ApplyShrinks(host, m1.(changes := m.changes[..k.index] + m.changes[k.index + 1..]), m.changes[k.index]);
    } else if m.ops[k.index].value.admitted {
      FinishMoves(host, m1, k.index);
      MovedShrinks(m1, FinishOp(host, m1, k.index).0, k.index);
    } else {
      AdmitMoves(host, m1, k.index);
      MovedShrinks(m1, AdmitOp(host, m1, k.index).0, k.index);
    }
  }

  // --------------------------------------------------------------------------------
  // The loop.

  // Processes whatever is due by `until`, earliest first. The measure makes it terminate; a
  // turn that fails ends it, and what was done until then stays.
  ghost function Loop(host: Host, m: Manager, until: nat): (Manager, bool)
    requires OpsOK(m)
    decreases Measure(m)
  {
    match Next(m, until)
    case None => (m, true)
    case Some(k) =>
      var (m', ok) := Process(host, m, k);
      if !ok then (m', false)
      else
        ProcessShrinks(host, m, until, k);
        Loop(host, m', until)
  }

  ghost function Advance(host: Host, m: Manager, until: nat): (Manager, bool)
    requires OpsOK(m)
  {
    if until < m.now then (m, false)
    else
      var (m', ok) := Loop(host, m, until);
      if ok then (Collect(m'.(now := until)), true) else (m', false)
  }

  // The loop as it runs.
  method AdvanceLoop(host: Host, m0: Manager, until: nat) returns (m: Manager, ok: bool)
    requires OpsOK(m0)
    ensures (m, ok) == Advance(host, m0, until)
  {
    m := m0;
    if until < m0.now {
      return m, false;
    }
    var next := FindNext(m, until);
    while next.Some?
      invariant OpsOK(m) && Loop(host, m, until) == Loop(host, m0, until) && next == Next(m, until)
      decreases Measure(m)
    {
      var (after, fine) := Process(host, m, next.value);
      if !fine {
        return after, false;
      }
      ProcessShrinks(host, m, until, next.value);
      m := after;
      next := FindNext(m, until);
    }
    m := Collect(m.(now := until));
    ok := true;
  }

  // What is next by an early time is also next by a later one.
  lemma NextExtends(m: Manager, t1: nat, t2: nat)
    requires t1 <= t2 && Next(m, t1).Some?
    ensures Next(m, t2) == Next(m, t1)
  {
    NextFacts(m, t1);
    var k := Next(m, t1).value;
    forall c | Candidate(m, t2, c) ensures !c.Less(k) {
      assert c.time <= t1 ==> Candidate(m, t1, c);
    }
    NextUnique(m, t2, k);
  }

  lemma {:induction false} LoopComposes(host: Host, m: Manager, t1: nat, t2: nat)
    requires OpsOK(m) && t1 <= t2
    ensures Loop(host, m, t1).1 ==> OpsOK(Loop(host, m, t1).0) && Loop(host, Loop(host, m, t1).0, t2) == Loop(host, m, t2)
    ensures !Loop(host, m, t1).1 ==> Loop(host, m, t2) == Loop(host, m, t1)
    decreases Measure(m)
  {
    var k := Next(m, t1);
    if k.Some? {
      NextExtends(m, t1, t2);
      if Process(host, m, k.value).1 {
        ProcessShrinks(host, m, t1, k.value);
        LoopComposes(host, Process(host, m, k.value).0, t1, t2);
      }
    }
  }

  // --------------------------------------------------------------------------------
  // Collecting early, or a clock that stands elsewhere, makes no difference.

  predicate Alike(o: Option<Op>, p: Option<Op>) {
    p == o || (p.None? && o.Some? && o.value.Collectible())
  }

  ghost predicate Sim(x: Manager, y: Manager) {
    && y == x.(ops := y.ops, now := y.now) && |y.ops| == |x.ops|
    && forall i :: 0 <= i < |x.ops| ==> Alike(x.ops[i], y.ops[i])
  }

  lemma SimOK(x: Manager, y: Manager)
    requires OpsOK(x) && Sim(x, y)
    ensures OpsOK(y)
  {
    forall i | 0 <= i < |y.ops| ensures OpOK(y.ops[i]) {
      assert OpOK(x.ops[i]) && Alike(x.ops[i], y.ops[i]);
    }
  }

  lemma SimNext(x: Manager, y: Manager, until: nat)
    requires Sim(x, y)
    ensures Next(x, until) == Next(y, until)
  {
    forall c ensures Candidate(x, until, c) <==> Candidate(y, until, c) {
      if c.kind == 0 && c.index < |x.ops| {
        assert Alike(x.ops[c.index], y.ops[c.index]);
      }
    }
    NextFacts(x, until);
    NextFacts(y, until);
    if Next(x, until).Some? {
      assert IsNext(y, until, Next(x, until).value);
      NextUnique(y, until, Next(x, until).value);
    }
  }

  lemma SimCollect(x: Manager, y: Manager)
    requires Sim(x, y)
    ensures Sim(Collect(x), Collect(y)) && Collect(x).ops == Collect(y).ops
  {
    forall i | 0 <= i < |x.ops| ensures CollectOp(x.ops[i]) == CollectOp(y.ops[i]) {
      assert Alike(x.ops[i], y.ops[i]);
    }
  }

  // The same happened on both sides, clock included.
  ghost predicate Same(x: (Manager, bool), y: (Manager, bool)) {
    Sim(x.0, y.0) && x.0.now == y.0.now && x.1 == y.1
  }

  lemma SimEnd(host: Host, x: Manager, y: Manager, i: nat, f: Failure, settled: bool)
    requires Sim(x, y) && x.now == y.now && i < |x.ops| && x.ops[i].Some? && y.ops[i] == x.ops[i]
    ensures Same(End(host, x, i, f, settled), End(host, y, i, f, settled))
    ensures End(host, x, i, f, settled).0.ops[i] == End(host, y, i, f, settled).0.ops[i]
  {
    SimEnded(x, y, i, f, [], None, settled);
  }

  lemma SimEnded(x: Manager, y: Manager, i: nat, f: Failure, data: seq<int>, effect: Option<Effect>, settled: bool)
    requires Sim(x, y) && x.now == y.now && i < |x.ops| && x.ops[i].Some? && y.ops[i] == x.ops[i]
    ensures Sim(Ended(x, i, f, data, effect, settled), Ended(y, i, f, data, effect, settled))
  {
    var a, b := Ended(x, i, f, data, effect, settled), Ended(y, i, f, data, effect, settled);
    forall j | 0 <= j < |a.ops| ensures Alike(a.ops[j], b.ops[j]) {
      assert Alike(x.ops[j], y.ops[j]);
    }
  }

  lemma {:induction false} SimEndHit(host: Host, x: Manager, y: Manager, c: Change, drains: bool, n: nat)
    requires Sim(x, y) && x.now == y.now && n <= |x.ops|
    ensures Same(EndHit(host, x, c, drains, n), EndHit(host, y, c, drains, n))
  {
    if n > 0 {
      SimEndHit(host, x, y, c, drains, n - 1);
      SimHitMore(host, x, y, c, drains, n, EndHit(host, x, c, drains, n - 1), EndHit(host, y, c, drains, n - 1));
    }
  }

  lemma SimHitMore(host: Host, x: Manager, y: Manager, c: Change, drains: bool, n: nat, a: (Manager, bool), b: (Manager, bool))
    requires 0 < n <= |x.ops| && |y.ops| == |x.ops| && Same(a, b)
    requires a == EndHit(host, x, c, drains, n - 1) && b == EndHit(host, y, c, drains, n - 1)
    ensures Same(EndHit(host, x, c, drains, n), EndHit(host, y, c, drains, n))
  {
    SimHitOne(host, a, b, c, drains, n - 1);
    EndHitMore(host, x, c, drains, n);
    EndHitMore(host, y, c, drains, n);
  }

  lemma EndHitMore(host: Host, x: Manager, c: Change, drains: bool, n: nat)
    requires 0 < n <= |x.ops|
    ensures EndHit(host, x, c, drains, n) == HitOne(host, EndHit(host, x, c, drains, n - 1), c, drains, n - 1)
  {
  }

  // One more operation is looked at.
  function HitOne(host: Host, r: (Manager, bool), c: Change, drains: bool, i: nat): (Manager, bool)
    requires i < |r.0.ops|
  {
    var o := r.0.ops[i];
    if r.1 && o.Some? && !o.value.terminal && Hit(o.value, c) && (!o.value.admitted || !drains) then End(host, r.0, i, Invalidated, false) else r
  }

  lemma SimHitOne(host: Host, x: (Manager, bool), y: (Manager, bool), c: Change, drains: bool, i: nat)
    requires Same(x, y) && i < |x.0.ops|
    ensures Same(HitOne(host, x, c, drains, i), HitOne(host, y, c, drains, i))
  {
    assert Alike(x.0.ops[i], y.0.ops[i]);
    if x.0.ops[i].Some? && !x.0.ops[i].value.terminal {
      SimEnd(host, x.0, y.0, i, Invalidated, false);
    }
  }

  lemma SimApply(host: Host, x: Manager, y: Manager, c: Change)
    requires Sim(x, y) && x.now == y.now
    ensures Same(Apply(host, x, c), Apply(host, y, c))
  {
    var x1, y1 := LeasesHit(x, c), LeasesHit(y, c);
    assert x1.leases == y1.leases;
    assert Sim(x1, y1);
    SimEndHit(host, x1, y1, c, Drains(x, c), |x1.ops|);
    SimCollect(EndHit(host, x1, c, Drains(x, c), |x1.ops|).0, EndHit(host, y1, c, Drains(y, c), |y1.ops|).0);
  }

  // Replacing the same operation on both sides.
  lemma SimSet(x: Manager, y: Manager, i: nat, o: Option<Op>, a: Manager, b: Manager)
    requires Sim(x, y) && i < |x.ops| && a.ops == x.ops[i := o] && b.ops == y.ops[i := o] && b == a.(ops := b.ops)
    ensures Sim(a, b)
  {
    forall j | 0 <= j < |a.ops| ensures Alike(a.ops[j], b.ops[j]) {
      assert Alike(x.ops[j], y.ops[j]);
    }
  }

  lemma SimAdmit(host: Host, x: Manager, y: Manager, i: nat)
    requires Sim(x, y) && x.now == y.now && i < |x.ops| && x.ops[i].Some? && y.ops[i] == x.ops[i]
    ensures Same(AdmitOp(host, x, i), AdmitOp(host, y, i))
  {
    var o := x.ops[i].value;
    assert LeaseValid(x, o.lease) == LeaseValid(y, o.lease);
    SimEnd(host, x, y, i, Invalidated, false);
    SimEnd(host, x, y, i, ServiceFailure, false);
    if LeaseValid(x, o.lease) && o.region in x.regions && host.service(o.region, o.write, o.count).Some? {
      var finish := Reserve(host, x, o, host.service(o.region, o.write, o.count).value);
      if finish.Some? {
        SimAdmitted(x, y, i, Some(AdmittedOp(o, x.regions[o.region], finish.value)), if x.bound then x.free else finish.value);
      }
    }
  }

  lemma SimAdmitted(x: Manager, y: Manager, i: nat, o: Option<Op>, free: nat)
    requires Sim(x, y) && i < |x.ops|
    ensures Sim(Collect(x.(free := free, ops := x.ops[i := o])), Collect(y.(free := free, ops := y.ops[i := o])))
  {
    var a, b := x.(free := free, ops := x.ops[i := o]), y.(free := free, ops := y.ops[i := o]);
    forall j | 0 <= j < |a.ops| ensures Alike(a.ops[j], b.ops[j]) {
      assert Alike(x.ops[j], y.ops[j]);
    }
    SimCollect(a, b);
  }

  lemma SimUnpin(host: Host, x: Manager, y: Manager, i: nat)
    requires Sim(x, y) && x.now == y.now && i < |x.ops| && x.ops[i].Some? && y.ops[i] == x.ops[i]
    ensures Same(Unpin(host, x, i), Unpin(host, y, i))
  {
    var o := Some(x.ops[i].value.(settled := true, pin := None, input := []));
    var a, b := x.(ops := x.ops[i := o]), y.(ops := y.ops[i := o]);
    SimSet(x, y, i, o, a, b);
    SimCollect(a, b);
  }

  lemma SimTransferred(x: Manager, y: Manager, i: nat)
    requires Sim(x, y) && x.now == y.now && i < |x.ops| && x.ops[i].Some? && y.ops[i] == x.ops[i] && InBounds(x, x.ops[i].value)
    ensures Sim(Transferred(x, i), Transferred(y, i)) && Transferred(x, i).now == Transferred(y, i).now
    ensures Transferred(x, i).ops[i].Some? && Transferred(x, i).ops[i] == Transferred(y, i).ops[i]
  {
    var o := x.ops[i].value;
    var buf := x.buffers[o.pin.value];
    if o.write {
      var bs := x.buffers[o.pin.value := Patch(buf, o.offset, o.input)];
      assert Sim(x.(buffers := bs), y.(buffers := bs));
      SimEnded(x.(buffers := bs), y.(buffers := bs), i, NoFailure, [], Some(Effect(o.pin.value, o.offset, o.input)), x.bound);
    } else {
      SimEnded(x, y, i, NoFailure, buf[o.offset..o.offset + o.count], None, x.bound);
    }
  }

  lemma SimTransfer(host: Host, x: Manager, y: Manager, i: nat)
    requires Sim(x, y) && x.now == y.now && i < |x.ops| && x.ops[i].Some? && y.ops[i] == x.ops[i] && InBounds(x, x.ops[i].value)
    ensures Same(Transfer(host, x, i), Transfer(host, y, i))
    ensures Transfer(host, x, i).0.ops[i].Some? && Transfer(host, x, i).0.ops[i] == Transfer(host, y, i).0.ops[i]
  {
    SimEnd(host, x, y, i, Cancelled, true);
    SimTransferred(x, y, i);
  }

  lemma SimFinish(host: Host, x: Manager, y: Manager, i: nat)
    requires Sim(x, y) && x.now == y.now && i < |x.ops| && x.ops[i].Some? && y.ops[i] == x.ops[i]
    ensures Same(FinishOp(host, x, i), FinishOp(host, y, i))
  {
    var o := x.ops[i].value;
    if o.terminal {
      SimUnpin(host, x, y, i);
    } else if InBounds(x, o) {
      SimTransfer(host, x, y, i);
      SimUnpin(host, Transfer(host, x, i).0, Transfer(host, y, i).0, i);
    }
  }

  lemma SimProcess(host: Host, x: Manager, y: Manager, until: nat, k: Key)
    requires Sim(x, y) && Next(x, until) == Some(k)
    ensures Same(Process(host, x, k), Process(host, y, k))
  {
    NextFacts(x, until);
    var x1, y1 := x.(now := k.time, turn := k.sequence), y.(now := k.time, turn := k.sequence);
    assert Sim(x1, y1);
    if k.kind == 1 {
      var cs := x.changes[..k.index] + x.changes[k.index + 1..];
      assert Sim(x1.(changes := cs), y1.(changes := cs));
      SimApply(host, x1.(changes := cs), y1.(changes := cs), x.changes[k.index]);
    } else {
      assert Alike(x.ops[k.index], y.ops[k.index]);
      SimAdmit(host, x1, y1, k.index);
      SimFinish(host, x1, y1, k.index);
    }
  }

  lemma {:induction false} SimLoop(host: Host, x: Manager, y: Manager, until: nat)
    requires OpsOK(x) && OpsOK(y) && Sim(x, y)
    ensures var a, b := Loop(host, x, until), Loop(host, y, until);
            Sim(a.0, b.0) && a.1 == b.1 && (!a.1 ==> a.0.now == b.0.now)
    decreases Measure(x)
  {
    SimNext(x, y, until);
    var k := Next(x, until);
    if k.Some? {
      SimProcess(host, x, y, until, k.value);
      if Process(host, x, k.value).1 {
        ProcessShrinks(host, x, until, k.value);
        ProcessShrinks(host, y, until, k.value);
        SimLoop(host, Process(host, x, k.value).0, Process(host, y, k.value).0, until);
      }
    }
  }

  // Advancing to t1 and then to t2 leaves exactly what advancing straight to t2 leaves:
  // operations, leases, published results, buffers and clock. If the second part fails, so
  // does the direct advance at the same point, and the two differ only in finished operations
  // that were collected at t1. If the first part fails, the direct advance is that failure.
  lemma AdvanceComposes(host: Host, m: Manager, t1: nat, t2: nat)
    requires OpsOK(m) && m.now <= t1 <= t2
    ensures var (y, ok) := Advance(host, m, t1);
            if ok then OpsOK(y) && Agree(Advance(host, m, t2), Advance(host, y, t2)) else Advance(host, m, t2) == (y, false)
  {
    LoopComposes(host, m, t1, t2);
    var (y, ok) := Advance(host, m, t1);
    if ok {
      var x := Loop(host, m, t1).0;
      assert Sim(x, y);
      SimOK(x, y);
      SimLoop(host, x, y, t2);
      SimCollect(Loop(host, x, t2).0, Loop(host, y, t2).0);
    }
  }

  ghost predicate Agree(x: (Manager, bool), y: (Manager, bool)) {
    if x.1 then y == x else !y.1 && Sim(x.0, y.0) && x.0.now == y.0.now
  }
}
