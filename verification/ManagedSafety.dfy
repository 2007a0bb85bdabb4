// Over all runs of a managed access manager, whatever its hosts answer and wherever an advance
// fails: every operation ends once, and the contents of a buffer are those of the writes that
// ended successfully.
module ManagedSafety {
  import opened Common
  import opened Managed
  import opened ManagedRuns
  import opened ManagedRanges

  // --------------------------------------------------------------------------------
  // The invariant.

  // The slot names its operation, and an operation has a published outcome exactly when it ended.
  ghost predicate SlotOK(m: Manager, i: nat)
    requires i < |m.ops| && i < |m.generations|
  {
    m.ops[i].Some? ==>
      && m.ops[i].value.handle.slot == i && m.ops[i].value.handle.generation <= m.generations[i]
      && (if m.ops[i].value.terminal then m.ops[i].value.outcome.Some? && m.ops[i].value.outcome.value in m.published
                                          && m.ops[i].value.outcome.value.handle == m.ops[i].value.handle
          else forall n :: 0 <= n < |m.published| ==> m.published[n].handle != m.ops[i].value.handle)
  }

  ghost predicate PublishedOK(m: Manager) {
    && (forall n :: 0 <= n < |m.published| ==>
          m.published[n].handle.slot < |m.generations| && m.published[n].handle.generation <= m.generations[m.published[n].handle.slot])
    && (forall a, b :: 0 <= a < b < |m.published| ==> m.published[a].handle != m.published[b].handle)
    && (forall n :: 0 <= n < |m.published| && m.published[n].effect.Some? ==> m.published[n].failure.NoFailure?)
  }

  ghost predicate EndsOK(m: Manager) {
    && |m.generations| == |m.ops|
    && OpsOK(m)
    && (forall i :: 0 <= i < |m.ops| ==> SlotOK(m, i))
    && PublishedOK(m)
  }

  ghost predicate Inv(m: Manager) {
    EndsOK(m) && RangesOK(m)
  }

  lemma NewManagerInv(domain: nat, store: nat, ops: nat, leases: nat)
    ensures Inv(NewManager(domain, store, ops, leases))
  {
  }

  // --------------------------------------------------------------------------------
  // Ending.

  lemma EndedOK(m: Manager, i: nat, f: Failure, data: seq<int>, effect: Option<Effect>, settled: bool)
    requires EndsOK(m) && i < |m.ops| && m.ops[i].Some? && !m.ops[i].value.terminal && (effect.Some? ==> f.NoFailure?)
    ensures EndsOK(Ended(m, i, f, data, effect, settled))
  {
    var t := Ended(m, i, f, data, effect, settled);
    assert SlotOK(m, i) && OpOK(m.ops[i]);
    var x := t.ops[i].value.outcome.value;
    assert t.published[|m.published|] == x;
    forall j | 0 <= j < |t.ops| ensures SlotOK(t, j) && OpOK(t.ops[j]) {
      assert SlotOK(m, j) && OpOK(m.ops[j]);
    }
  }

  lemma EndOK(host: Host, m: Manager, i: nat, f: Failure, settled: bool)
    requires EndsOK(m) && i < |m.ops| && m.ops[i].Some?
    ensures EndsOK(End(host, m, i, f, settled).0)
  {
    if !m.ops[i].value.terminal {
      EndedOK(m, i, f, [], None, settled);
    }
  }

  // Operations that vanish, or change nothing that the invariant speaks of.
  lemma ThinOK(m: Manager, t: Manager)
    requires EndsOK(m) && |t.ops| == |m.ops| && t.published == m.published && t.generations == m.generations
    requires forall i :: 0 <= i < |m.ops| ==>
               || t.ops[i] == m.ops[i] || t.ops[i].None?
               || (m.ops[i].Some? && t.ops[i].Some? && OpOK(t.ops[i]) && t.ops[i].value.handle == m.ops[i].value.handle
                   && t.ops[i].value.terminal == m.ops[i].value.terminal && t.ops[i].value.outcome == m.ops[i].value.outcome)
    ensures EndsOK(t)
  {
    forall i | 0 <= i < |t.ops| ensures SlotOK(t, i) && OpOK(t.ops[i]) {
      assert SlotOK(m, i) && OpOK(m.ops[i]);
    }
  }

  lemma {:induction false} EndHitOK(host: Host, m: Manager, c: Change, drains: bool, n: nat)
    requires EndsOK(m) && n <= |m.ops|
    ensures EndsOK(EndHit(host, m, c, drains, n).0)
  {
    if n > 0 {
      EndHitOK(host, m, c, drains, n - 1);
      var m1 := EndHit(host, m, c, drains, n - 1).0;
      if m1.ops[n - 1].Some? {
        EndOK(host, m1, n - 1, Invalidated, false);
      }
    }
  }

  lemma {:induction false} EndSomeOK(host: Host, m: Manager, f: Failure, which: Op -> bool, n: nat)
    requires EndsOK(m) && n <= |m.ops|
    ensures EndsOK(EndSome(host, m, f, which, n).0)
  {
    if n > 0 {
      EndSomeOK(host, m, f, which, n - 1);
      var m1 := EndSome(host, m, f, which, n - 1).0;
      if m1.ops[n - 1].Some? {
        EndOK(host, m1, n - 1, f, false);
      }
    }
  }

  lemma ApplyOK(host: Host, m: Manager, c: Change)
    requires EndsOK(m)
    ensures EndsOK(Apply(host, m, c).0)
  {
    var m1 := LeasesHit(m, c);
    ThinOK(m, m1);
    EndHitOK(host, m1, c, Drains(m, c), |m1.ops|);
    var m2 := EndHit(host, m1, c, Drains(m, c), |m1.ops|).0;
    ThinOK(m2, Collect(m2));
  }

  // --------------------------------------------------------------------------------
  // One turn of the loop.

  lemma AdmitOK(host: Host, m: Manager, i: nat)
    requires EndsOK(m) && i < |m.ops| && m.ops[i].Some? && !m.ops[i].value.admitted
    ensures EndsOK(AdmitOp(host, m, i).0)
  {
    assert OpOK(m.ops[i]);
    EndOK(host, m, i, Invalidated, false);
    EndOK(host, m, i, ServiceFailure, false);
    var o := m.ops[i].value;
    if LeaseValid(m, o.lease) && o.region in m.regions && host.service(o.region, o.write, o.count).Some? {
      var finish := Reserve(host, m, o, host.service(o.region, o.write, o.count).value);
      if finish.Some? {
        OneThinOK(m, AdmitOp(host, m, i).0, i);
      }
    }
  }

  lemma OneThinOK(m: Manager, t: Manager, i: nat)
    requires EndsOK(m) && i < |m.ops| && m.ops[i].Some? && |t.ops| == |m.ops| && t.published == m.published && t.generations == m.generations
    requires forall j :: 0 <= j < |m.ops| && j != i ==> t.ops[j] == m.ops[j] || t.ops[j].None?
    requires t.ops[i].None? || t.ops[i] == m.ops[i]
             || (t.ops[i].Some? && OpOK(t.ops[i]) && t.ops[i].value.handle == m.ops[i].value.handle
                 && t.ops[i].value.terminal == m.ops[i].value.terminal && t.ops[i].value.outcome == m.ops[i].value.outcome)
    ensures EndsOK(t)
  {
    ThinOK(m, t);
  }

  lemma UnpinOK(host: Host, m: Manager, i: nat)
    requires EndsOK(m) && i < |m.ops| && m.ops[i].Some? && m.ops[i].value.terminal
    ensures EndsOK(Unpin(host, m, i).0)
  {
    assert OpOK(m.ops[i]);
    OneThinOK(m, Unpin(host, m, i).0, i);
  }

  lemma TransferOK(host: Host, m: Manager, i: nat)
    requires EndsOK(m) && i < |m.ops| && m.ops[i].Some? && InBounds(m, m.ops[i].value) && !m.ops[i].value.terminal
    ensures EndsOK(Transfer(host, m, i).0)
  {
    var o := m.ops[i].value;
    var buf := m.buffers[o.pin.value];
    EndOK(host, m, i, Cancelled, true);
    if o.write {
      var m1 := m.(buffers := m.buffers[o.pin.value := Patch(buf, o.offset, o.input)]);
      ThinOK(m, m1);
      EndedOK(m1, i, NoFailure, [], Some(Effect(o.pin.value, o.offset, o.input)), m.bound);
    } else {
      EndedOK(m, i, NoFailure, buf[o.offset..o.offset + o.count], None, m.bound);
    }
  }

  lemma FinishOK(host: Host, m: Manager, i: nat)
    requires EndsOK(m) && i < |m.ops| && m.ops[i].Some?
    ensures EndsOK(FinishOp(host, m, i).0)
  {
    var o := m.ops[i].value;
    if o.terminal {
      UnpinOK(host, m, i);
    } else if InBounds(m, o) {
      TransferOK(host, m, i);
      var (m1, ok) := Transfer(host, m, i);
      if ok {
        UnpinOK(host, m1, i);
      }
    }
  }

  lemma ProcessOK(host: Host, m: Manager, k: Key)
    requires EndsOK(m)
    ensures EndsOK(Process(host, m, k).0)
  {
    var m1 := m.(now := k.time, turn := k.sequence);
    ThinOK(m, m1);
    if k.kind == 1 {
      if k.index < |m.changes| {
        var m2 := m1.(changes := m.changes[..k.index] + m.changes[k.index + 1..]);
        ThinOK(m1, m2);
        ApplyOK(host, m2, m.changes[k.index]);
      }
    } else if k.index < |m.ops| && m.ops[k.index].Some? {
      if m.ops[k.index].value.admitted {
        FinishOK(host, m1, k.index);
      } else {
        AdmitOK(host, m1, k.index);
      }
    }
  }

  lemma ProcessInv(host: Host, m: Manager, until: nat, k: Key)
    requires Inv(m) && Next(m, until) == Some(k)
    ensures Inv(Process(host, m, k).0)
  {
    ProcessOK(host, m, k);
    ProcessRanges(host, m, until, k);
  }

  lemma {:induction false} LoopInv(host: Host, m: Manager, until: nat)
    requires Inv(m)
    ensures Inv(Loop(host, m, until).0)
    decreases Measure(m)
  {
    var k := Next(m, until);
    if k.Some? {
      ProcessInv(host, m, until, k.value);
      if Process(host, m, k.value).1 {
        ProcessShrinks(host, m, until, k.value);
        LoopInv(host, Process(host, m, k.value).0, until);
      }
    }
  }

  lemma AdvanceInv(host: Host, m: Manager, until: nat)
    requires Inv(m)
    ensures Inv(Advance(host, m, until).0)
  {
    LoopInv(host, m, until);
    var (m1, ok) := Loop(host, m, until);
    if until >= m.now && ok {
      var m2 := m1.(now := until);
      ThinOK(m1, Collect(m2));
      OpsRanges(m1, Collect(m2));
    }
  }

  // --------------------------------------------------------------------------------
  // An advance fails only because a host made it fail.

  ghost predicate Obliging(host: Host) {
    && (forall h, t :: host.complete(h, t).Wanted?)
    && (forall h, t :: host.publish(h, t) && host.disown(h, t))
  }

  lemma {:induction false} EndHitSucceeds(host: Host, m: Manager, c: Change, drains: bool, n: nat)
    requires Obliging(host) && n <= |m.ops|
    ensures EndHit(host, m, c, drains, n).1
  {
    if n > 0 {
      EndHitSucceeds(host, m, c, drains, n - 1);
    }
  }

  lemma {:induction false} LoopSucceeds(host: Host, m: Manager, until: nat)
    requires Inv(m) && Obliging(host)
    ensures Loop(host, m, until).1
    decreases Measure(m)
  {
    var next := Next(m, until);
    if next.Some? {
      var k := next.value;
      ProcessSucceeds(host, m, until, k);
      ProcessInv(host, m, until, k);
      ProcessShrinks(host, m, until, k);
      LoopSucceeds(host, Process(host, m, k).0, until);
    }
  }

  lemma ProcessSucceeds(host: Host, m: Manager, until: nat, k: Key)
    requires Inv(m) && Obliging(host) && Next(m, until) == Some(k)
    ensures Process(host, m, k).1
  {
    NextFacts(m, until);
    var m1 := m.(now := k.time, turn := k.sequence);
    if k.kind == 1 {
      var m2 := m1.(changes := m.changes[..k.index] + m.changes[k.index + 1..]);
      EndHitSucceeds(host, LeasesHit(m2, m.changes[k.index]), m.changes[k.index], Drains(m2, m.changes[k.index]), |m.ops|);
    } else {
      var o := m.ops[k.index].value;
      if o.admitted && !o.terminal {
        PinnedInBounds(m, k.index);
        assert InBounds(m1, o);
      }
    }
  }

  // In particular the integrity check on the pinned buffer never does.
  lemma AdvanceSucceeds(host: Host, m: Manager, until: nat)
    requires Inv(m) && Obliging(host) && m.now <= until
    ensures Advance(host, m, until).1
  {
    LoopSucceeds(host, m, until);
  }

  // --------------------------------------------------------------------------------
  // Runs.

  // Each call comes with the answers it gets.
  datatype Command =
    | DoAllocate(data: seq<int>)
    | DoAddRegion(id: nat, region: Region)
    | DoBind
    | DoRequest(id: nat, start: nat, end: nat, owner: nat)
    | DoBegin(r: Request)
    | DoCancel(host: Host, h: Handle, failure: Failure)
    | DoReset(host: Host)
    | DoReleaseLease(host: Host, h: Handle)
    | DoReleaseResult(h: Handle)
    | DoInvalidate(c: Change)
    | DoReplace(host: Host, id: nat, buffer: nat, version: nat)
    | DoAdvance(host: Host, until: nat)

  ghost function Step(m: Manager, c: Command): Manager
    requires OpsOK(m)
  {
    match c
    case DoAllocate(data) => Allocate(m, data)
    case DoAddRegion(id, r) => AddRegion(m, id, r)
    case DoBind => BindResource(m)
    case DoRequest(id, start, end, owner) => RequestLease(m, id, start, end, owner)
    case DoBegin(r) => Begin(m, r)
    case DoCancel(host, h, f) => Cancel(host, m, h, f)
    case DoReset(host) => ResetAll(host, m)
    case DoReleaseLease(host, h) => ReleaseLease(host, m, h)
    case DoReleaseResult(h) => ReleaseResult(m, h)
    case DoInvalidate(x) => Invalidate(m, x)
    case DoReplace(host, id, buffer, version) => ReplaceBacking(host, m, id, buffer, version)
    case DoAdvance(host, until) => Advance(host, m, until).0
  }

  lemma BeginOK(m: Manager, r: Request)
    requires EndsOK(m)
    ensures EndsOK(Begin(m, r))
  {
    var t := Begin(m, r);
    if t != m {
      var i := FreeSlot(m.ops, m.generations, 0).value;
      var h := t.ops[i].value.handle;
      forall n | 0 <= n < |t.published| ensures t.published[n].handle != h && t.published[n].handle.generation <= t.generations[t.published[n].handle.slot] {
      }
      forall j | 0 <= j < |t.ops| ensures SlotOK(t, j) && OpOK(t.ops[j]) {
        assert SlotOK(m, j) && OpOK(m.ops[j]);
      }
    }
  }

  lemma ResetOK(host: Host, m: Manager)
    requires EndsOK(m)
    ensures EndsOK(ResetAll(host, m))
  {
    var m1 := LeasesShut(m);
    ThinOK(m, m1);
    EndSomeOK(host, m1, WasReset, Unended(), |m1.ops|);
    var m2 := EndSome(host, m1, WasReset, Unended(), |m1.ops|).0;
    ThinOK(m2, Collect(m2));
  }

  lemma ReleaseLeaseOK(host: Host, m: Manager, h: Handle)
    requires EndsOK(m)
    ensures EndsOK(ReleaseLease(host, m, h))
  {
    if h.slot < |m.leases| && m.leases[h.slot].Some? && m.leases[h.slot].value.handle == h {
      EndSomeOK(host, m, Invalidated, UnderLease(h), |m.ops|);
      var m1 := EndSome(host, m, Invalidated, UnderLease(h), |m.ops|).0;
      ThinOK(m1, Collect(m1.(leases := m1.leases[h.slot := None])));
    }
  }

  lemma ReplaceOK(host: Host, m: Manager, id: nat, buffer: nat, version: nat)
    requires EndsOK(m)
    ensures EndsOK(ReplaceBacking(host, m, id, buffer, version))
  {
    var t := ReplaceBacking(host, m, id, buffer, version);
    if t != m {
      var x := Change(id, m.regions[id].start, m.regions[id].end, 0, m.now);
      ApplyOK(host, m, x);
      ThinOK(Apply(host, m, x).0, t);
    }
  }

  lemma StepOK(m: Manager, c: Command)
    requires EndsOK(m) && !c.DoAdvance?
    ensures EndsOK(Step(m, c))
  {
    match c
    case DoBegin(r) => BeginOK(m, r);
    case DoCancel(host, h, f) =>
      if Find(m, h).Some? {
        EndOK(host, m, h.slot, f, false);
        ThinOK(End(host, m, h.slot, f, false).0, Collect(End(host, m, h.slot, f, false).0));
      }
    case DoReset(host) => ResetOK(host, m);
    case DoReleaseLease(host, h) => ReleaseLeaseOK(host, m, h);
    case DoReleaseResult(h) =>
      if Find(m, h).Some? {
        assert OpOK(m.ops[h.slot]);
        OneThinOK(m, ReleaseResult(m, h), h.slot);
      }
    case DoReplace(host, id, buffer, version) => ReplaceOK(host, m, id, buffer, version);
    case DoAllocate(data) => ThinOK(m, Allocate(m, data));
    case DoAddRegion(id, r) => ThinOK(m, AddRegion(m, id, r));
    case DoBind => ThinOK(m, BindResource(m));
    case DoRequest(id, start, end, owner) => ThinOK(m, RequestLease(m, id, start, end, owner));
    case DoInvalidate(x) => ThinOK(m, Invalidate(m, x));
  }

  lemma StepInv(m: Manager, c: Command)
    requires Inv(m)
    ensures Inv(Step(m, c))
  {
    if c.DoAdvance? {
      AdvanceInv(c.host, m, c.until);
    } else {
      StepOK(m, c);
      StepRanges(m, c);
    }
  }

  lemma StepRanges(m: Manager, c: Command)
    requires Inv(m) && !c.DoAdvance?
    ensures RangesOK(Step(m, c))
  {
    match c
    case DoAllocate(data) => AllocateRanges(m, data);
    case DoAddRegion(id, r) => AddRegionRanges(m, id, r);
    case DoBind => OpsRanges(m, BindResource(m));
    case DoRequest(id, start, end, owner) => RequestLeaseRanges(m, id, start, end, owner);
    case DoBegin(r) => BeginRanges(m, r);
    case DoCancel(host, h, f) => CancelRanges(host, m, h, f);
    case DoReset(host) => ResetRanges(host, m);
    case DoReleaseLease(host, h) => ReleaseLeaseRanges(host, m, h);
    case DoReleaseResult(h) => ReleaseResultRanges(m, h);
    case DoInvalidate(x) => InvalidateRanges(m, x);
    case DoReplace(host, id, buffer, version) => ReplaceRanges(host, m, id, buffer, version);
  }

  ghost function Run(m: Manager, cs: seq<Command>): (t: Manager)
    requires Inv(m)
    ensures Inv(t)
    decreases |cs|
  {
    if cs == [] then m
    else
      StepInv(m, cs[0]);
      Run(Step(m, cs[0]), cs[1..])
  }

  // Whatever is called and wherever it fails, every operation ends at most once, and the
  // slot of an operation that has ended holds the outcome that was published.
  lemma EndsOnce(domain: nat, store: nat, ops: nat, leases: nat, cs: seq<Command>)
    ensures Inv(NewManager(domain, store, ops, leases))
    ensures var t := Run(NewManager(domain, store, ops, leases), cs);
            && (forall a, b :: 0 <= a < b < |t.published| ==> t.published[a].handle != t.published[b].handle)
            && (forall i :: 0 <= i < |t.ops| && t.ops[i].Some? && t.ops[i].value.terminal ==>
                  t.ops[i].value.outcome.Some? && t.ops[i].value.outcome.value in t.published)
  {
    NewManagerInv(domain, store, ops, leases);
    var t := Run(NewManager(domain, store, ops, leases), cs);
    forall i | 0 <= i < |t.ops| && t.ops[i].Some? && t.ops[i].value.terminal
      ensures t.ops[i].value.outcome.Some? && t.ops[i].value.outcome.value in t.published
    {
      assert SlotOK(t, i);
    }
  }

  // --------------------------------------------------------------------------------
  // Buffers.

  // What an outcome does to buffer `b`.
  function Applied(b: nat, buf: seq<int>, x: Outcome): seq<int> {
    if x.effect.Some? && x.effect.value.buffer == b && x.effect.value.offset + |x.effect.value.bytes| <= |buf|
    then Patch(buf, x.effect.value.offset, x.effect.value.bytes) else buf
  }

  function Replay(b: nat, buf: seq<int>, xs: seq<Outcome>): seq<int> {
    if xs == [] then buf else Applied(b, Replay(b, buf, xs[..|xs| - 1]), xs[|xs| - 1])
  }

  lemma {:induction false} ReplayAppend(b: nat, buf: seq<int>, xs: seq<Outcome>, ys: seq<Outcome>)
    ensures Replay(b, buf, xs + ys) == Replay(b, Replay(b, buf, xs), ys)
    decreases |ys|
  {
    if ys == [] {
      assert xs + ys == xs;
    } else {
      var init := ys[..|ys| - 1];
      assert (xs + ys)[..|xs + ys| - 1] == xs + init;
      ReplayAppend(b, buf, xs, init);
    }
  }

  // What was published since explains every buffer byte for byte.
  ghost predicate Explains(m: Manager, t: Manager) {
    && m.published <= t.published && |m.buffers| <= |t.buffers|
    && forall b :: 0 <= b < |m.buffers| ==> t.buffers[b] == Replay(b, m.buffers[b], t.published[|m.published|..])
  }

  lemma ExplainsTwice(m: Manager, t: Manager, u: Manager)
    requires Explains(m, t) && Explains(t, u)
    ensures Explains(m, u)
  {
    var xs, ys := t.published[|m.published|..], u.published[|t.published|..];
    assert u.published[|m.published|..] == xs + ys;
    forall b | 0 <= b < |m.buffers| ensures u.buffers[b] == Replay(b, m.buffers[b], xs + ys) {
      ReplayAppend(b, m.buffers[b], xs, ys);
    }
  }

  lemma ExplainsQuiet(m: Manager, t: Manager)
    requires t.published == m.published && m.buffers <= t.buffers
    ensures Explains(m, t)
  {
  }

  lemma ExplainsOne(m: Manager, t: Manager, x: Outcome)
    requires t.published == m.published + [x] && |t.buffers| == |m.buffers|
    requires forall b :: 0 <= b < |m.buffers| ==> t.buffers[b] == Applied(b, m.buffers[b], x)
    ensures Explains(m, t)
  {
    assert t.published[|m.published|..] == [x];
    forall b | 0 <= b < |m.buffers| ensures t.buffers[b] == Replay(b, m.buffers[b], [x]) {
      assert [x][..0] == [];
      assert Replay(b, m.buffers[b], [x]) == Applied(b, Replay(b, m.buffers[b], []), x);
    }
  }

  lemma EndExplains(host: Host, m: Manager, i: nat, f: Failure, settled: bool)
    requires i < |m.ops| && m.ops[i].Some?
    ensures Explains(m, End(host, m, i, f, settled).0)
  {
    var t := End(host, m, i, f, settled).0;
    if t.published == m.published {
      ExplainsQuiet(m, t);
    } else {
      ExplainsOne(m, t, t.published[|m.published|]);
    }
  }

  lemma {:induction false} EndHitExplains(host: Host, m: Manager, c: Change, drains: bool, n: nat)
    requires n <= |m.ops|
    ensures Explains(m, EndHit(host, m, c, drains, n).0)
  {
    if n == 0 {
      ExplainsQuiet(m, m);
    } else {
      EndHitExplains(host, m, c, drains, n - 1);
      var m1 := EndHit(host, m, c, drains, n - 1).0;
      if m1.ops[n - 1].Some? {
        EndExplains(host, m1, n - 1, Invalidated, false);
        ExplainsTwice(m, m1, End(host, m1, n - 1, Invalidated, false).0);
      }
    }
  }

  lemma {:induction false} EndSomeExplains(host: Host, m: Manager, f: Failure, which: Op -> bool, n: nat)
    requires n <= |m.ops|
    ensures Explains(m, EndSome(host, m, f, which, n).0)
  {
    if n == 0 {
      ExplainsQuiet(m, m);
    } else {
      EndSomeExplains(host, m, f, which, n - 1);
      var m1 := EndSome(host, m, f, which, n - 1).0;
      if m1.ops[n - 1].Some? {
        EndExplains(host, m1, n - 1, f, false);
        ExplainsTwice(m, m1, End(host, m1, n - 1, f, false).0);
      }
    }
  }

  // Nothing but published outcomes and buffers matters.
  lemma ExplainsAlike(m: Manager, t: Manager, m': Manager, t': Manager)
    requires Explains(m, t) && m'.published == m.published && m'.buffers == m.buffers && t'.published == t.published && t'.buffers == t.buffers
    ensures Explains(m', t')
  {
  }

  lemma ApplyExplains(host: Host, m: Manager, c: Change)
    ensures Explains(m, Apply(host, m, c).0)
  {
    var m1 := LeasesHit(m, c);
    EndHitExplains(host, m1, c, Drains(m, c), |m.ops|);
    ExplainsAlike(m1, EndHit(host, m1, c, Drains(m, c), |m.ops|).0, m, Apply(host, m, c).0);
  }

  lemma TransferExplains(host: Host, m: Manager, i: nat)
    requires i < |m.ops| && m.ops[i].Some? && InBounds(m, m.ops[i].value)
    ensures Explains(m, Transfer(host, m, i).0)
  {
    EndExplains(host, m, i, Cancelled, true);
    ExplainsQuiet(m, m);
    var t := Transferred(m, i);
    ExplainsOne(m, t, t.published[|m.published|]);
  }

  lemma FinishExplains(host: Host, m: Manager, i: nat)
    requires i < |m.ops| && m.ops[i].Some?
    ensures Explains(m, FinishOp(host, m, i).0)
  {
    var o := m.ops[i].value;
    if o.terminal || !InBounds(m, o) {
      ExplainsQuiet(m, FinishOp(host, m, i).0);
    } else {
      TransferExplains(host, m, i);
      ExplainsAlike(m, Transfer(host, m, i).0, m, FinishOp(host, m, i).0);
    }
  }

  lemma ProcessExplains(host: Host, m: Manager, k: Key)
    ensures Explains(m, Process(host, m, k).0)
  {
    var m1 := m.(now := k.time, turn := k.sequence);
    var t := Process(host, m, k).0;
    if k.kind == 1 && k.index < |m.changes| {
      var m2 := m1.(changes := m.changes[..k.index] + m.changes[k.index + 1..]);
      ApplyExplains(host, m2, m.changes[k.index]);
      ExplainsAlike(m2, t, m, t);
    } else if k.kind != 1 && k.index < |m.ops| && m.ops[k.index].Some? {
      if m.ops[k.index].value.admitted {
        FinishExplains(host, m1, k.index);
        ExplainsAlike(m1, t, m, t);
      } else {
        AdmitExplains(host, m1, k.index);
        ExplainsAlike(m1, t, m, t);
      }
    } else {
      ExplainsQuiet(m, t);
    }
  }

  lemma AdmitExplains(host: Host, m: Manager, i: nat)
    requires i < |m.ops| && m.ops[i].Some?
    ensures Explains(m, AdmitOp(host, m, i).0)
  {
    EndExplains(host, m, i, Invalidated, false);
    EndExplains(host, m, i, ServiceFailure, false);
    var t := AdmitOp(host, m, i).0;
    if t.published == m.published {
      ExplainsQuiet(m, t);
    }
  }

  lemma {:induction false} LoopExplains(host: Host, m: Manager, until: nat)
    requires OpsOK(m)
    ensures Explains(m, Loop(host, m, until).0)
    decreases Measure(m)
  {
    var k := Next(m, until);
    if k.Some? {
      ProcessExplains(host, m, k.value);
      if Process(host, m, k.value).1 {
        ProcessShrinks(host, m, until, k.value);
        LoopExplains(host, Process(host, m, k.value).0, until);
        ExplainsTwice(m, Process(host, m, k.value).0, Loop(host, m, until).0);
      }
    } else {
      ExplainsQuiet(m, m);
    }
  }

  lemma ResetExplains(host: Host, m: Manager)
    ensures Explains(m, ResetAll(host, m))
  {
    EndSomeExplains(host, LeasesShut(m), WasReset, Unended(), |m.ops|);
    ExplainsAlike(LeasesShut(m), EndSome(host, LeasesShut(m), WasReset, Unended(), |m.ops|).0, m, ResetAll(host, m));
  }

  lemma ReleaseLeaseExplains(host: Host, m: Manager, h: Handle)
    ensures Explains(m, ReleaseLease(host, m, h))
  {
    ExplainsQuiet(m, m);
    if h.slot < |m.leases| && m.leases[h.slot].Some? && m.leases[h.slot].value.handle == h {
      EndSomeExplains(host, m, Invalidated, UnderLease(h), |m.ops|);
      ExplainsAlike(m, EndSome(host, m, Invalidated, UnderLease(h), |m.ops|).0, m, ReleaseLease(host, m, h));
    }
  }

  lemma ReplaceExplains(host: Host, m: Manager, id: nat, buffer: nat, version: nat)
    ensures Explains(m, ReplaceBacking(host, m, id, buffer, version))
  {
    ExplainsQuiet(m, m);
    var t := ReplaceBacking(host, m, id, buffer, version);
    if t != m {
      var x := Change(id, m.regions[id].start, m.regions[id].end, 0, m.now);
      ApplyExplains(host, m, x);
      ExplainsAlike(m, Apply(host, m, x).0, m, t);
    }
  }

  lemma StepExplains(m: Manager, c: Command)
    requires Inv(m)
    ensures Explains(m, Step(m, c))
  {
    match c
    case DoReset(host) => ResetExplains(host, m);
    case DoReleaseLease(host, h) => ReleaseLeaseExplains(host, m, h);
    case DoCancel(host, h, f) =>
      ExplainsQuiet(m, m);
      if Find(m, h).Some? {
        EndExplains(host, m, h.slot, f, false);
        ExplainsAlike(m, End(host, m, h.slot, f, false).0, m, Collect(End(host, m, h.slot, f, false).0));
      }
    case DoReplace(host, id, buffer, version) => ReplaceExplains(host, m, id, buffer, version);
    case DoAdvance(host, until) =>
      LoopExplains(host, m, until);
      ExplainsQuiet(m, m);
      if m.now <= until {
        ExplainsAlike(m, Loop(host, m, until).0, m, Step(m, c));
      }
    case _ => ExplainsQuiet(m, Step(m, c));
  }

  lemma {:induction false} RunExplains(m: Manager, cs: seq<Command>)
    requires Inv(m)
    ensures Explains(m, Run(m, cs))
    decreases |cs|
  {
    if cs == [] {
      ExplainsQuiet(m, m);
    } else {
      StepExplains(m, cs[0]);
      StepInv(m, cs[0]);
      RunExplains(Step(m, cs[0]), cs[1..]);
      ExplainsTwice(m, Step(m, cs[0]), Run(m, cs));
    }
  }

  // From any reachable manager on, a buffer holds exactly what the successful writes put
  // there, in the order of their outcomes. An operation that ends invalidated, cancelled
  // (also by the external resource at its very finish), reset or without service has no
  // effect, so it never changed a buffer.
  lemma FailedNeverWrites(domain: nat, store: nat, ops: nat, leases: nat, before: seq<Command>, after: seq<Command>)
    ensures Inv(NewManager(domain, store, ops, leases))
    ensures var m := Run(NewManager(domain, store, ops, leases), before);
            var t := Run(m, after);
            && Explains(m, t)
            && forall n :: 0 <= n < |t.published| && !t.published[n].failure.NoFailure? ==> t.published[n].effect.None?
  {
    NewManagerInv(domain, store, ops, leases);
    RunExplains(Run(NewManager(domain, store, ops, leases), before), after);
  }

  // No call other than an advance touches an existing buffer.
  lemma QuietCalls(m: Manager, c: Command)
    requires Inv(m) && !c.DoAdvance?
    ensures m.buffers <= Step(m, c).buffers
  {
    match c
    case DoReset(host) => ResetRanges(host, m);
    case DoReleaseLease(host, h) => ReleaseLeaseRanges(host, m, h);
    case DoReplace(host, id, buffer, version) =>
      if id in m.regions {
        ApplyRanges(host, m, Change(id, m.regions[id].start, m.regions[id].end, 0, m.now));
      }
    case _ =>
  }
}
