// Every access stays inside its buffer: regions fit their buffers, leases their regions and
// operations their leases, whatever is called (runtime/src/managed.cpp).
module ManagedRanges {
  import opened Common
  import opened Managed
  import opened ManagedRuns

  ghost predicate RegionOK(m: Manager, r: Region) {
    r.start <= r.end && r.backing < |m.buffers| && |m.buffers[r.backing]| == r.end - r.start + 1
  }

  ghost predicate LeaseOK(m: Manager, l: Lease) {
    l.region in m.regions && m.regions[l.region].start <= l.start <= l.end <= m.regions[l.region].end
  }

  // The range lies in the region, input and pinned buffer have the right size.
  ghost predicate RangeOK(m: Manager, o: Op) {
    && o.region in m.regions && m.regions[o.region].start <= o.address && o.count > 0 && o.address + o.count - 1 <= m.regions[o.region].end
    && (o.write && !o.terminal ==> |o.input| == o.count)
    && (o.pin.Some? ==>
          && o.offset == o.address - m.regions[o.region].start
          && o.pin.value < |m.buffers| && |m.buffers[o.pin.value]| == m.regions[o.region].end - m.regions[o.region].start + 1)
  }

  ghost predicate RangesOK(m: Manager) {
    && (forall r :: r in m.regions ==> RegionOK(m, m.regions[r]))
    && (forall i :: 0 <= i < |m.leases| && m.leases[i].Some? ==> LeaseOK(m, m.leases[i].value))
    && (forall i :: 0 <= i < |m.ops| && m.ops[i].Some? ==> RangeOK(m, m.ops[i].value))
    && (forall i :: 0 <= i < |m.changes| ==> m.changes[i].region in m.regions)
  }

  // Regions keep their extent and buffers their size; more of both may come.
  ghost predicate Extends(m: Manager, t: Manager) {
    && |m.buffers| <= |t.buffers| && (forall b :: 0 <= b < |m.buffers| ==> |t.buffers[b]| == |m.buffers[b]|)
    && (forall r :: r in m.regions ==> r in t.regions && t.regions[r].start == m.regions[r].start && t.regions[r].end == m.regions[r].end)
  }

  // The operation is gone, or asks for the same bytes of the same buffer.
  ghost predicate Stays(o: Option<Op>, p: Option<Op>) {
    p.Some? ==>
      && o.Some? && p.value.region == o.value.region && p.value.address == o.value.address && p.value.count == o.value.count
      && p.value.write == o.value.write && (p.value.terminal || (p.value.input == o.value.input && !o.value.terminal))
      && (p.value.pin.None? || (p.value.pin == o.value.pin && p.value.offset == o.value.offset))
  }

  ghost predicate LeaseStays(o: Option<Lease>, p: Option<Lease>) {
    p.Some? ==> o.Some? && p.value.region == o.value.region && p.value.start == o.value.start && p.value.end == o.value.end
  }

  lemma ThinRanges(m: Manager, t: Manager)
    requires RangesOK(m) && Extends(m, t) && |t.ops| == |m.ops| && |t.leases| == |m.leases|
    requires forall r :: r in t.regions ==> RegionOK(t, t.regions[r])
    requires forall i :: 0 <= i < |m.ops| ==> Stays(m.ops[i], t.ops[i])
    requires forall i :: 0 <= i < |m.leases| ==> LeaseStays(m.leases[i], t.leases[i])
    requires forall i :: 0 <= i < |t.changes| ==> t.changes[i].region in m.regions
    ensures RangesOK(t)
  {
    forall i | 0 <= i < |t.ops| && t.ops[i].Some? ensures RangeOK(t, t.ops[i].value) {
      assert Stays(m.ops[i], t.ops[i]) && RangeOK(m, m.ops[i].value);
    }
    forall i | 0 <= i < |t.leases| && t.leases[i].Some? ensures LeaseOK(t, t.leases[i].value) {
      assert LeaseStays(m.leases[i], t.leases[i]) && LeaseOK(m, m.leases[i].value);
    }
  }

  // Only operations changed.
  lemma OpsRanges(m: Manager, t: Manager)
    requires RangesOK(m) && |t.ops| == |m.ops| && t.regions == m.regions && t.buffers == m.buffers && t.leases == m.leases && t.changes == m.changes
    requires forall i :: 0 <= i < |m.ops| ==> Stays(m.ops[i], t.ops[i])
    ensures RangesOK(t)
  {
    forall r | r in t.regions ensures RegionOK(t, t.regions[r]) {
      assert RegionOK(m, m.regions[r]);
    }
    ThinRanges(m, t);
  }

  // --------------------------------------------------------------------------------
  // The range check at the end of an operation never fails.

  lemma PinnedInBounds(m: Manager, i: nat)
    requires OpsOK(m) && RangesOK(m) && i < |m.ops| && m.ops[i].Some? && m.ops[i].value.admitted && !m.ops[i].value.terminal
    ensures InBounds(m, m.ops[i].value)
  {
    assert OpOK(m.ops[i]) && RangeOK(m, m.ops[i].value);
  }

  lemma EndRanges(host: Host, m: Manager, i: nat, f: Failure, settled: bool)
    requires RangesOK(m) && i < |m.ops| && m.ops[i].Some?
    ensures RangesOK(End(host, m, i, f, settled).0)
  {
    OpsRanges(m, End(host, m, i, f, settled).0);
  }

  lemma LeasesHitRanges(m: Manager, c: Change)
    requires RangesOK(m)
    ensures RangesOK(LeasesHit(m, c))
  {
    var t := LeasesHit(m, c);
    forall r | r in t.regions ensures RegionOK(t, t.regions[r]) {
      assert RegionOK(m, m.regions[r]);
    }
    ThinRanges(m, t);
  }

  lemma ApplyRanges(host: Host, m: Manager, c: Change)
    requires RangesOK(m)
    ensures RangesOK(Apply(host, m, c).0)
    ensures Apply(host, m, c).0.regions == m.regions && Apply(host, m, c).0.buffers == m.buffers
  {
    var m1 := LeasesHit(m, c);
    LeasesHitRanges(m, c);
    EndHitFacts(host, m1, c, Drains(m, c), |m.ops|);
    OpsRanges(m1, Apply(host, m, c).0);
  }

  lemma AdmitRanges(host: Host, m: Manager, i: nat)
    requires RangesOK(m) && i < |m.ops| && m.ops[i].Some? && !m.ops[i].value.terminal
    ensures RangesOK(AdmitOp(host, m, i).0)
  {
    var o := m.ops[i].value;
    EndRanges(host, m, i, Invalidated, false);
    EndRanges(host, m, i, ServiceFailure, false);
    if LeaseValid(m, o.lease) && o.region in m.regions && host.service(o.region, o.write, o.count).Some? {
      var finish := Reserve(host, m, o, host.service(o.region, o.write, o.count).value);
      if finish.Some? {
        AdmittedRanges(m, i, AdmitOp(host, m, i).0, finish.value);
      }
    }
  }

  lemma AdmittedRanges(m: Manager, i: nat, t: Manager, finish: nat)
    requires RangesOK(m) && i < |m.ops| && m.ops[i].Some? && !m.ops[i].value.terminal && m.ops[i].value.region in m.regions
    requires t == Collect(m.(free := t.free, ops := m.ops[i := Some(AdmittedOp(m.ops[i].value, m.regions[m.ops[i].value.region], finish))]))
    ensures RangesOK(t)
  {
    var o := m.ops[i].value;
    assert RangeOK(m, o) && RegionOK(m, m.regions[o.region]);
    assert RangeOK(m, AdmittedOp(o, m.regions[o.region], finish));
    forall j | 0 <= j < |t.ops| && t.ops[j].Some? ensures RangeOK(t, t.ops[j].value) {
      assert j != i ==> RangeOK(m, m.ops[j].value);
    }
    forall r | r in t.regions ensures RegionOK(t, t.regions[r]) {
      assert RegionOK(m, m.regions[r]);
    }
    forall j | 0 <= j < |t.leases| && t.leases[j].Some? ensures LeaseOK(t, t.leases[j].value) {
      assert LeaseOK(m, m.leases[j].value);
    }
  }

  lemma UnpinRanges(host: Host, m: Manager, i: nat)
    requires RangesOK(m) && i < |m.ops| && m.ops[i].Some? && m.ops[i].value.terminal
    ensures RangesOK(Unpin(host, m, i).0)
  {
    OpsRanges(m, Unpin(host, m, i).0);
  }

  lemma TransferRanges(host: Host, m: Manager, i: nat)
    requires RangesOK(m) && i < |m.ops| && m.ops[i].Some? && InBounds(m, m.ops[i].value) && !m.ops[i].value.terminal
    ensures RangesOK(Transfer(host, m, i).0)
  {
    EndRanges(host, m, i, Cancelled, true);
    var t := Transferred(m, i);
    forall r | r in t.regions ensures RegionOK(t, t.regions[r]) {
      assert RegionOK(m, m.regions[r]);
    }
    ThinRanges(m, t);
  }

  lemma FinishRanges(host: Host, m: Manager, i: nat)
    requires RangesOK(m) && i < |m.ops| && m.ops[i].Some?
    ensures RangesOK(FinishOp(host, m, i).0)
  {
    var o := m.ops[i].value;
    if o.terminal {
      UnpinRanges(host, m, i);
    } else if InBounds(m, o) {
      TransferRanges(host, m, i);
      var (m1, ok) := Transfer(host, m, i);
      if ok {
        UnpinRanges(host, m1, i);
      }
    }
  }

  lemma ProcessRanges(host: Host, m: Manager, until: nat, k: Key)
    requires RangesOK(m) && OpsOK(m) && Next(m, until) == Some(k)
    ensures RangesOK(Process(host, m, k).0)
  {
    NextFacts(m, until);
    var m1 := m.(now := k.time, turn := k.sequence);
    OpsRanges(m, m1);
    if k.kind == 1 {
      var m2 := m1.(changes := m.changes[..k.index] + m.changes[k.index + 1..]);
      forall r | r in m2.regions ensures RegionOK(m2, m2.regions[r]) {
        assert RegionOK(m, m.regions[r]);
      }
      ThinRanges(m1, m2);
      ApplyRanges(host, m2, m.changes[k.index]);
    } else if m.ops[k.index].value.admitted {
      FinishRanges(host, m1, k.index);
    } else {
      assert OpOK(m.ops[k.index]);
      AdmitRanges(host, m1, k.index);
    }
  }

  // --------------------------------------------------------------------------------
  // The other calls.

  lemma BeginRanges(m: Manager, r: Request)
    requires RangesOK(m)
    ensures RangesOK(Begin(m, r))
  {
    var t := Begin(m, r);
    if t != m {
      assert LeaseOK(m, m.leases[r.lease.slot].value);
      forall j | 0 <= j < |t.ops| && t.ops[j].Some? ensures RangeOK(t, t.ops[j].value) {
        assert m.ops[j].Some? ==> RangeOK(m, m.ops[j].value);
      }
      forall x | x in t.regions ensures RegionOK(t, t.regions[x]) {
        assert RegionOK(m, m.regions[x]);
      }
      forall j | 0 <= j < |t.leases| && t.leases[j].Some? ensures LeaseOK(t, t.leases[j].value) {
        assert LeaseOK(m, m.leases[j].value);
      }
    }
  }

  // More leases, regions or buffers.
  lemma MoreRanges(m: Manager, t: Manager)
    requires RangesOK(m) && Extends(m, t) && t.ops == m.ops && t.changes == m.changes
    requires forall r :: r in t.regions ==> RegionOK(t, t.regions[r])
    requires forall i :: 0 <= i < |t.leases| && t.leases[i].Some? ==> (i < |m.leases| && t.leases[i] == m.leases[i]) || LeaseOK(t, t.leases[i].value)
    ensures RangesOK(t)
  {
    forall i | 0 <= i < |t.ops| && t.ops[i].Some? ensures RangeOK(t, t.ops[i].value) {
      assert RangeOK(m, m.ops[i].value);
    }
    forall i | 0 <= i < |t.leases| && t.leases[i].Some? ensures LeaseOK(t, t.leases[i].value) {
      if i < |m.leases| && t.leases[i] == m.leases[i] {
        assert LeaseOK(m, m.leases[i].value);
      }
    }
  }

  lemma RequestLeaseRanges(m: Manager, region: nat, start: nat, end: nat, owner: nat)
    requires RangesOK(m)
    ensures RangesOK(RequestLease(m, region, start, end, owner))
  {
    var t := RequestLease(m, region, start, end, owner);
    forall x | x in m.regions ensures RegionOK(t, t.regions[x]) {
      assert RegionOK(m, m.regions[x]);
    }
    MoreRanges(m, t);
  }

  lemma AllocateRanges(m: Manager, data: seq<int>)
    requires RangesOK(m)
    ensures RangesOK(Allocate(m, data))
  {
    var t := Allocate(m, data);
    forall x | x in m.regions ensures RegionOK(t, t.regions[x]) {
      assert RegionOK(m, m.regions[x]);
    }
    MoreRanges(m, t);
  }

  lemma AddRegionRanges(m: Manager, id: nat, r: Region)
    requires RangesOK(m)
    ensures RangesOK(AddRegion(m, id, r))
  {
    var t := AddRegion(m, id, r);
    forall x | x in m.regions ensures RegionOK(t, t.regions[x]) {
      assert RegionOK(m, m.regions[x]);
    }
    MoreRanges(m, t);
  }

  lemma ReplaceRanges(host: Host, m: Manager, region: nat, buffer: nat, version: nat)
    requires RangesOK(m)
    ensures RangesOK(ReplaceBacking(host, m, region, buffer, version))
  {
    var t := ReplaceBacking(host, m, region, buffer, version);
    if t != m {
      var r := m.regions[region];
      var (m1, ok) := Apply(host, m, Change(region, r.start, r.end, 0, m.now));
      ApplyRanges(host, m, Change(region, r.start, r.end, 0, m.now));
      assert RegionOK(m, r);
      forall x | x in t.regions ensures RegionOK(t, t.regions[x]) {
        assert RegionOK(m, m.regions[x]);
      }
      MoreRanges(m1, t);
    }
  }

  lemma ResetRanges(host: Host, m: Manager)
    requires RangesOK(m)
    ensures RangesOK(ResetAll(host, m)) && ResetAll(host, m).buffers == m.buffers
  {
    var m1 := LeasesShut(m);
    forall r | r in m1.regions ensures RegionOK(m1, m1.regions[r]) {
      assert RegionOK(m, m.regions[r]);
    }
    ThinRanges(m, m1);
    EndSomeFacts(host, m1, WasReset, Unended(), |m1.ops|);
    OpsRanges(m1, ResetAll(host, m));
  }

  lemma ReleaseLeaseRanges(host: Host, m: Manager, h: Handle)
    requires RangesOK(m)
    ensures RangesOK(ReleaseLease(host, m, h)) && ReleaseLease(host, m, h).buffers == m.buffers
  {
    if h.slot < |m.leases| && m.leases[h.slot].Some? && m.leases[h.slot].value.handle == h {
      var (m1, ok) := EndSome(host, m, Invalidated, UnderLease(h), |m.ops|);
      EndSomeFacts(host, m, Invalidated, UnderLease(h), |m.ops|);
      OpsRanges(m, m1);
      var m2 := m1.(leases := m1.leases[h.slot := None]);
      forall r | r in m2.regions ensures RegionOK(m2, m2.regions[r]) {
        assert RegionOK(m, m.regions[r]);
      }
      MoreRanges(m1, m2);
      OpsRanges(m2, Collect(m2));
    }
  }

  lemma CancelRanges(host: Host, m: Manager, h: Handle, f: Failure)
    requires RangesOK(m)
    ensures RangesOK(Cancel(host, m, h, f))
  {
    if Find(m, h).Some? {
      EndRanges(host, m, h.slot, f, false);
      OpsRanges(End(host, m, h.slot, f, false).0, Collect(End(host, m, h.slot, f, false).0));
    }
  }

  lemma ReleaseResultRanges(m: Manager, h: Handle)
    requires RangesOK(m)
    ensures RangesOK(ReleaseResult(m, h))
  {
    OpsRanges(m, ReleaseResult(m, h));
  }

  lemma InvalidateRanges(m: Manager, c: Change)
    requires RangesOK(m)
    ensures RangesOK(Invalidate(m, c))
  {
    var t := Invalidate(m, c);
    forall r | r in t.regions ensures RegionOK(t, t.regions[r]) {
      assert RegionOK(m, m.regions[r]);
    }
    ThinRanges(m, t);
  }
}
