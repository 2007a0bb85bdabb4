// Whole runs of the drain store: cohorts, receipts and epochs.
module DrainRuns {
  import opened Common
  import opened Drain
  import opened HandleOrder

  // --------------------------------------------------------------------------------
  // The invariant.

  // The record fits its instance's epoch; a deferred root sits behind a barrier.
  ghost predicate Placed(s: Store, r: Record) {
    && r.instance in s.instances
    && r.epoch <= s.instances[r.instance].epoch
    && (r.deferred ==> s.instances[r.instance].Draining() && r.epoch == s.instances[r.instance].epoch)
  }

  // Its receipt was issued by this store, and says complete only if the record is.
  ghost predicate Receipts(s: Store, r: Record) {
    && (r.receipt.Some? ==> r.cancelled && r.finished && r.receipt.value.generation < s.nextReceipt)
    && (r.released ==> r.receipt.Some?)
    && (OwesReceipt(r) ==> r.receipt.value in s.receipts && (s.receipts[r.receipt.value].complete ==> r.Complete()))
  }

  ghost predicate RecordsOK(s: Store) {
    forall h :: h in s.records ==> Placed(s, s.records[h]) && Receipts(s, s.records[h])
  }

  ghost predicate OwnReceipts(s: Store) {
    forall h, k {:trigger s.records[h], s.records[k]} ::
      h in s.records && k in s.records && s.records[h].receipt.Some? && s.records[h].receipt == s.records[k].receipt ==> h == k
  }

  ghost predicate Owner(s: Store, q: Handle, h: Handle) {
    h in s.records && s.records[h].receipt == Some(q) && !s.records[h].released
  }

  // Every receipt that can be inspected belongs to a responsibility.
  ghost predicate ClaimedOK(s: Store) {
    forall q :: q in s.receipts ==> exists h :: Owner(s, q, h)
  }

  // While a reset drains, its cohort is exactly the responsibilities of the old epoch.
  ghost predicate InstanceOK(s: Store, id: nat, v: Instance)
    requires id in s.instances
  {
    if v.Draining() then v.reset.value.oldEpoch == v.epoch && v.reset.value.nextEpoch == v.epoch + 1 && v.cohort == Cohort(s, id)
    else v.cohort == {}
  }

  ghost predicate InstancesOK(s: Store) {
    forall id :: id in s.instances ==> InstanceOK(s, id, s.instances[id])
  }

  ghost predicate Inv(s: Store) {
    RecordsOK(s) && OwnReceipts(s) && ClaimedOK(s) && InstancesOK(s)
  }

  // --------------------------------------------------------------------------------
  // Changing one record.

  ghost predicate SamePlace(r: Record, r': Record) {
    r'.instance == r.instance && r'.epoch == r.epoch && r'.deferred == r.deferred
  }

  lemma SameCohorts(s: Store, t: Store)
    requires InstancesOK(s) && t.instances == s.instances && t.records.Keys == s.records.Keys
    requires forall h :: h in s.records ==> SamePlace(s.records[h], t.records[h])
    ensures InstancesOK(t)
  {
    forall id | id in t.instances ensures InstanceOK(t, id, t.instances[id]) {
      assert InstanceOK(s, id, s.instances[id]);
      assert Cohort(t, id) == Cohort(s, id);
    }
  }

  ghost predicate KeepsReceipt(r: Record, r': Record) {
    r'.receipt == r.receipt && r'.released == r.released && (r.receipt.Some? ==> r'.cancelled && r'.finished)
  }

  lemma UpdateInv(s: Store, h: Handle, r: Record, t: Store)
    requires Inv(s) && h in s.records && SamePlace(s.records[h], r) && KeepsReceipt(s.records[h], r)
    requires s.records[h].Complete() ==> r.Complete()
    requires t == SetRecord(s, h, r)
    ensures Inv(t)
  {
    forall k | k in t.records ensures Placed(t, t.records[k]) && Receipts(t, t.records[k]) {
      assert Placed(s, s.records[k]) && Receipts(s, s.records[k]);
    }
    UpdateRest(s, h, r, t);
  }

  lemma UpdateRest(s: Store, h: Handle, r: Record, t: Store)
    requires OwnReceipts(s) && ClaimedOK(s) && InstancesOK(s)
    requires h in s.records && SamePlace(s.records[h], r) && KeepsReceipt(s.records[h], r)
    requires t.records == s.records[h := r] && t.instances == s.instances && t.receipts.Keys == s.receipts.Keys
    ensures OwnReceipts(t) && ClaimedOK(t) && InstancesOK(t)
  {
    SameCohorts(s, t);
    forall q | q in t.receipts ensures exists k :: Owner(t, q, k) {
      var k :| Owner(s, q, k);
      assert Owner(t, q, k);
    }
    forall a, b | a in t.records && b in t.records && t.records[a].receipt.Some? && t.records[a].receipt == t.records[b].receipt ensures a == b {
      assert s.records[a].receipt == s.records[b].receipt;
    }
  }

  lemma RefreshedInv(s: Store, h: Handle, r: Record, t: Store)
    requires Inv(s) && h in s.records && SamePlace(s.records[h], r) && KeepsReceipt(s.records[h], r)
    requires t == Refresh(SetRecord(s, h, r), h)
    ensures Inv(t)
  {
    assert Receipts(s, s.records[h]);
    forall k | k in t.records ensures Placed(t, t.records[k]) && Receipts(t, t.records[k]) {
      assert Placed(s, s.records[k]) && Receipts(s, s.records[k]);
      if k != h && s.records[k].receipt.Some? && s.records[h].receipt.Some? {
        assert s.records[k].receipt != s.records[h].receipt;
      }
    }
    assert t.receipts.Keys == s.receipts.Keys;
    UpdateRest(s, h, r, t);
  }

  // --------------------------------------------------------------------------------
  // Forgetting records.

  lemma ForgetInv(s: Store, t: Store)
    requires Inv(s) && t == s.(records := t.records)
    requires forall h :: h in t.records ==> h in s.records && t.records[h] == s.records[h]
    requires forall h :: h in s.records && h !in t.records ==> !OwesReceipt(s.records[h]) && !InCohort(s, h)
    ensures Inv(t)
  {
    forall h | h in t.records ensures Placed(t, t.records[h]) && Receipts(t, t.records[h]) {
      assert Placed(s, s.records[h]) && Receipts(s, s.records[h]);
    }
    forall q | q in t.receipts ensures exists k :: Owner(t, q, k) {
      var k :| Owner(s, q, k);
      assert Owner(t, q, k);
    }
    forall id | id in t.instances ensures InstanceOK(t, id, t.instances[id]) {
      assert InstanceOK(s, id, s.instances[id]);
      if s.instances[id].Draining() {
        assert forall h :: h in Cohort(s, id) ==> InCohort(s, h);
        assert Cohort(t, id) == Cohort(s, id);
      }
    }
  }

  lemma CollectInv(s: Store)
    requires Inv(s)
    ensures Inv(Collect(s))
  {
    ForgetInv(s, Collect(s));
  }

  // --------------------------------------------------------------------------------
  // Responsibilities arrive.

  // A responsibility joins the store, and the cohort exactly when its instance drains.
  function Added(s: Store, h: Handle, r: Record, join: bool): Store
    requires r.instance in s.instances
  {
    var v := s.instances[r.instance];
    if join then SetInstance(SetRecord(s, h, r), r.instance, v.(cohort := v.cohort + {h})) else SetRecord(s, h, r)
  }

  lemma AddedCohorts(s: Store, h: Handle, r: Record, join: bool, t: Store)
    requires InstancesOK(s) && h !in s.records && r.instance in s.instances && t == Added(s, h, r, join)
    requires r.epoch == s.instances[r.instance].epoch && (join <==> s.instances[r.instance].Draining() && !r.deferred)
    ensures InstancesOK(t)
  {
    forall id | id in t.instances ensures InstanceOK(t, id, t.instances[id]) {
      assert InstanceOK(s, id, s.instances[id]);
      if t.instances[id].Draining() {
        assert Cohort(t, id) == if id == r.instance && join then Cohort(s, id) + {h} else Cohort(s, id);
      }
    }
  }

  lemma AddRecordInv(s: Store, h: Handle, r: Record, join: bool, t: Store)
    requires Inv(s) && h !in s.records && Placed(s, r) && r.receipt.None? && !r.released && t == Added(s, h, r, join)
    requires r.epoch == s.instances[r.instance].epoch && (join <==> s.instances[r.instance].Draining() && !r.deferred)
    ensures Inv(t)
  {
    AddedCohorts(s, h, r, join, t);
    forall k | k in t.records ensures Placed(t, t.records[k]) && Receipts(t, t.records[k]) {
      if k != h {
        assert Placed(s, s.records[k]) && Receipts(s, s.records[k]);
      }
    }
    forall q | q in t.receipts ensures exists k :: Owner(t, q, k) {
      var k :| Owner(s, q, k);
      assert Owner(t, q, k);
    }
  }

  lemma RegisterInv(s: Store, h: Handle, id: nat, epoch: nat, hops: seq<DrainHop>, finished: bool, cancelled: bool,
                    parent: Option<Handle>, claimed: bool)
    requires Inv(s)
    ensures Inv(Register(s, h, id, epoch, hops, finished, cancelled, parent, claimed).0)
  {
    var (t, r) := Register(s, h, id, epoch, hops, finished, cancelled, parent, claimed);
    if r.Ok? {
      var v := s.instances[id];
      assert InstanceOK(s, id, v);
      AddRecordInv(s, h, NewRecord(id, epoch, parent, hops, finished, cancelled, false),
                   parent.Some? && parent.value in v.cohort, t);
    }
  }

  lemma DeferInv(s: Store, h: Handle, id: nat, hops: seq<DrainHop>, finished: bool, cancelled: bool, claimed: bool)
    requires Inv(s)
    ensures Inv(DeferRoot(s, h, id, hops, finished, cancelled, claimed).0)
  {
    var (t, r) := DeferRoot(s, h, id, hops, finished, cancelled, claimed);
    if r.Ok? {
      AddRecordInv(s, h, NewRecord(id, s.instances[id].epoch, None, hops, finished, cancelled, true), false, t);
    }
  }

  lemma AddInstanceInv(s: Store, id: nat)
    requires Inv(s)
    ensures Inv(AddInstance(s, id).0)
  {
    var t := AddInstance(s, id).0;
    if t != s {
      forall h | h in t.records ensures Placed(t, t.records[h]) && Receipts(t, t.records[h]) {
        assert Placed(s, s.records[h]) && Receipts(s, s.records[h]);
      }
      forall q | q in t.receipts ensures exists k :: Owner(t, q, k) {
        var k :| Owner(s, q, k);
        assert Owner(t, q, k);
      }
      forall x | x in t.instances ensures InstanceOK(t, x, t.instances[x]) {
        if x != id {
          assert InstanceOK(s, x, s.instances[x]);
          assert Cohort(t, x) == Cohort(s, x);
        }
      }
    }
  }

  // --------------------------------------------------------------------------------
  // Hops progress.

  lemma AddHopInv(s: Store, h: Handle, hop: DrainHop)
    requires Inv(s)
    ensures Inv(AddHop(s, h, hop).0)
  {
    var t := AddHop(s, h, hop).0;
    if t != s {
      var r := s.records[h].(hops := s.records[h].hops + [hop]);
      assert Receipts(s, s.records[h]);
      FreshHopsInv(s, h, r, t);
    }
  }

  // A record without a receipt may become incomplete again.
  lemma FreshHopsInv(s: Store, h: Handle, r: Record, t: Store)
    requires Inv(s) && h in s.records && SamePlace(s.records[h], r) && KeepsReceipt(s.records[h], r) && r.receipt.None?
    requires t == SetRecord(s, h, r)
    ensures Inv(t)
  {
    forall k | k in t.records ensures Placed(t, t.records[k]) && Receipts(t, t.records[k]) {
      assert Placed(s, s.records[k]) && Receipts(s, s.records[k]);
    }
    UpdateRest(s, h, r, t);
  }

  lemma DropHopInv(s: Store, h: Handle, hop: Handle, unstarted: bool)
    requires Inv(s)
    ensures Inv(DropHop(s, h, hop, unstarted).0)
  {
    var (t, r) := DropHop(s, h, hop, unstarted);
    if r.Ok? {
      assert Receipts(s, s.records[h]);
      UpdateInv(s, h, t.records[h], t);
    }
  }

  lemma SetHopInv(s: Store, h: Handle, hop: DrainHop)
    requires Inv(s)
    ensures Inv(SetHop(s, h, hop).0)
  {
    if SetHop(s, h, hop).1.Ok? {
      var r := s.records[h];
      assert Receipts(s, r);
      var r' := r.(hops := r.hops[FindHop(r.hops, hop.hop).value := hop]);
      RefreshedInv(s, h, r', Refresh(SetRecord(s, h, r'), h));
      CollectInv(Refresh(SetRecord(s, h, r'), h));
    }
  }

  lemma FinishInv(s: Store, h: Handle)
    requires Inv(s)
    ensures Inv(FinishLocal(s, h).0)
  {
    if h in s.records {
      var r' := s.records[h].(finished := true);
      assert Receipts(s, s.records[h]);
      RefreshedInv(s, h, r', Refresh(SetRecord(s, h, r'), h));
      CollectInv(Refresh(SetRecord(s, h, r'), h));
    }
  }

  lemma RetireInv(s: Store, h: Handle)
    requires Inv(s)
    ensures Inv(Retire(s, h).0)
  {
    var (t, r) := Retire(s, h);
    if r.Ok? {
      assert Receipts(s, s.records[h]);
      if InCohort(s, h) {
        UpdateInv(s, h, t.records[h], t);
      } else {
        ForgetInv(s, t);
      }
    }
  }

  lemma {:induction false} ObserveInv(s: Store, order: seq<Handle>, hop: Handle, terminal: bool, pin: bool)
    requires Inv(s)
    ensures Inv(ObserveAll(s, order, hop, terminal, pin))
    decreases |order|
  {
    if order != [] {
      var h := order[0];
      if h in s.records && HasHop(s.records[h].hops, hop) {
        var r := ObserveRecord(s.records[h], hop, terminal, pin);
        var t := Refresh(SetRecord(s, h, r), h);
        assert Receipts(s, s.records[h]);
        RefreshedInv(s, h, r, t);
        ObserveInv(t, order[1..], hop, terminal, pin);
      } else {
        ObserveInv(s, order[1..], hop, terminal, pin);
      }
    }
  }

  lemma {:induction false} ConsumeInv(s: Store, order: seq<Handle>, hop: Handle)
    requires Inv(s)
    ensures Inv(ConsumeAll(s, order, hop).0)
    decreases |order|
  {
    if order != [] {
      var h := order[0];
      if h !in s.records {
        ConsumeInv(s, order[1..], hop);
      } else {
        var (hops, fine) := ConsumeHops(s.records[h].hops, 0, hop);
        var first := FindHop(s.records[h].hops, hop);
        var r := s.records[h].(hops := hops);
        var t := s;
        if first.Some? && s.records[h].hops[first.value].terminal {
          t := Refresh(SetRecord(s, h, r), h);
          assert Receipts(s, s.records[h]);
          RefreshedInv(s, h, r, t);
        }
        if fine {
          ConsumeInv(t, order[1..], hop);
        }
      }
    }
  }

  // --------------------------------------------------------------------------------
  // Cancellation and receipts.

  lemma ReceiptFresh(s: Store, h: Handle)
    requires RecordsOK(s) && ClaimedOK(s)
    ensures ReceiptHandle(s, h) !in s.receipts
    ensures forall k :: k in s.records ==> s.records[k].receipt != Some(ReceiptHandle(s, h))
  {
    var q := ReceiptHandle(s, h);
    forall k | k in s.records ensures s.records[k].receipt != Some(q) {
      assert Receipts(s, s.records[k]);
    }
    forall x | x in s.receipts ensures x != q {
      var k :| Owner(s, x, k);
    }
  }

  lemma ReceiptedOwners(s: Store, h: Handle, reason: CancelReason, t: Store)
    requires RecordsOK(s) && OwnReceipts(s) && ClaimedOK(s) && h in s.records && s.records[h].receipt.None? && t == Receipted(s, h, reason)
    ensures OwnReceipts(t) && ClaimedOK(t)
  {
    var q := ReceiptHandle(s, h);
    ReceiptFresh(s, h);
    assert Receipts(s, s.records[h]);
    forall x | x in t.receipts ensures exists k :: Owner(t, x, k) {
      if x == q {
        assert Owner(t, q, h);
      } else {
        var k :| Owner(s, x, k);
        assert Owner(t, x, k);
      }
    }
    forall a, b | a in t.records && b in t.records && t.records[a].receipt.Some? && t.records[a].receipt == t.records[b].receipt ensures a == b {
      assert a != h && b != h ==> s.records[a].receipt == s.records[b].receipt;
    }
  }

  lemma ReceiptedInv(s: Store, h: Handle, reason: CancelReason, t: Store)
    requires Inv(s) && h in s.records && s.records[h].receipt.None? && t == Receipted(s, h, reason)
    ensures Inv(t)
  {
    ReceiptedOwners(s, h, reason, t);
    ReceiptedRecords(s, h, reason, t);
    ReceiptedPlaces(s, h, reason, t);
    SameCohorts(s, t);
  }

  lemma ReceiptedPlaces(s: Store, h: Handle, reason: CancelReason, t: Store)
    requires h in s.records && t == Receipted(s, h, reason)
    ensures t.instances == s.instances && t.records.Keys == s.records.Keys
    ensures forall k :: k in s.records ==> SamePlace(s.records[k], t.records[k])
  {
  }

  lemma ReceiptedRecords(s: Store, h: Handle, reason: CancelReason, t: Store)
    requires RecordsOK(s) && ClaimedOK(s) && h in s.records && s.records[h].receipt.None? && t == Receipted(s, h, reason)
    ensures RecordsOK(t)
  {
    ReceiptFresh(s, h);
    forall k | k in t.records ensures Placed(t, t.records[k]) && Receipts(t, t.records[k]) {
      assert Placed(s, s.records[k]) && Receipts(s, s.records[k]);
    }
  }

  lemma CancelInv(s: Store, h: Handle, reason: CancelReason)
    requires Inv(s)
    ensures Inv(CancelLocal(s, h, reason).0)
  {
    var (t, r) := CancelLocal(s, h, reason);
    if h in s.records && s.records[h].receipt.None? {
      if s.records[h].hops == [] {
        var r' := s.records[h].(cancelled := true, finished := true);
        UpdateInv(s, h, r', SetRecord(s, h, r'));
        CollectInv(SetRecord(s, h, r'));
      } else if s.nextReceipt != MAX64 {
        var s1 := Receipted(s, h, reason);
        ReceiptedInv(s, h, reason, s1);
        assert SetRecord(s1, h, s1.records[h]) == s1;
        RefreshedInv(s1, h, s1.records[h], t);
      }
    }
  }

  lemma ReleaseInv(s: Store, q: Handle)
    requires Inv(s)
    ensures Inv(ReleaseReceipt(s, q).0)
  {
    if q in s.receipts {
      var t := s.(records := map h | h in s.records :: if s.records[h].receipt == Some(q) then s.records[h].(released := true) else s.records[h],
                  receipts := s.receipts - {q});
      SameCohorts(s, t);
      ReleasedRecords(s, q, t);
      ReleasedOwners(s, q, t);
      CollectInv(t);
    }
  }

  ghost predicate Released(s: Store, q: Handle, t: Store) {
    && t == s.(records := t.records, receipts := s.receipts - {q}) && t.records.Keys == s.records.Keys
    && forall h :: h in s.records ==>
         t.records[h] == if s.records[h].receipt == Some(q) then s.records[h].(released := true) else s.records[h]
  }

  lemma ReleasedRecords(s: Store, q: Handle, t: Store)
    requires RecordsOK(s) && Released(s, q, t)
    ensures RecordsOK(t)
  {
    forall k | k in t.records ensures Placed(t, t.records[k]) && Receipts(t, t.records[k]) {
      assert Placed(s, s.records[k]) && Receipts(s, s.records[k]);
    }
  }

  lemma ReleasedOwners(s: Store, q: Handle, t: Store)
    requires OwnReceipts(s) && ClaimedOK(s) && Released(s, q, t)
    ensures OwnReceipts(t) && ClaimedOK(t)
  {
    forall x | x in t.receipts ensures exists k :: Owner(t, x, k) {
      var k :| Owner(s, x, k);
      assert Owner(t, x, k);
    }
    forall a, b | a in t.records && b in t.records && t.records[a].receipt.Some? && t.records[a].receipt == t.records[b].receipt ensures a == b {
      assert s.records[a].receipt == s.records[b].receipt;
    }
  }

  // --------------------------------------------------------------------------------
  // Resets.

  lemma BarrierInv(s: Store, id: nat, policy: Policy)
    requires Inv(s) && id in s.instances
    ensures Inv(Barrier(s, id, policy))
  {
    var t := Barrier(s, id, policy);
    forall h | h in t.records ensures Placed(t, t.records[h]) && Receipts(t, t.records[h]) {
      assert Placed(s, s.records[h]) && Receipts(s, s.records[h]);
    }
    forall q | q in t.receipts ensures exists k :: Owner(t, q, k) {
      var k :| Owner(s, q, k);
      assert Owner(t, q, k);
    }
    forall x | x in t.instances ensures InstanceOK(t, x, t.instances[x]) {
      assert InstanceOK(s, x, s.instances[x]);
      assert Cohort(t, x) == Cohort(s, x);
    }
  }

  // Everything of the instance enters the new epoch at once: nothing stays deferred.
  function Opened(s: Store, id: nat, epoch: nat): Store
    requires id in s.instances && s.instances[id].reset.Some?
  {
    Admit(SetInstance(s, id, Instance(epoch, Some(s.instances[id].reset.value.(draining := false)), {})), id, epoch)
  }

  lemma OpenedRecords(s: Store, id: nat, epoch: nat, t: Store)
    requires RecordsOK(s) && id in s.instances && s.instances[id].reset.Some? && s.instances[id].epoch <= epoch && t == Opened(s, id, epoch)
    ensures RecordsOK(t)
  {
    forall h | h in t.records ensures Placed(t, t.records[h]) && Receipts(t, t.records[h]) {
      assert Placed(s, s.records[h]) && Receipts(s, s.records[h]);
    }
  }

  lemma OpenedInv(s: Store, id: nat, epoch: nat, t: Store)
    requires Inv(s) && id in s.instances && s.instances[id].reset.Some? && s.instances[id].epoch <= epoch && t == Opened(s, id, epoch)
    ensures Inv(t)
  {
    OpenedRecords(s, id, epoch, t);
    forall q | q in t.receipts ensures exists k :: Owner(t, q, k) {
      var k :| Owner(s, q, k);
      assert Owner(t, q, k);
    }
    forall a, b | a in t.records && b in t.records && t.records[a].receipt.Some? && t.records[a].receipt == t.records[b].receipt ensures a == b {
      assert s.records[a].receipt == s.records[b].receipt;
    }
    forall x | x in t.instances ensures InstanceOK(t, x, t.instances[x]) {
      if x != id {
        assert InstanceOK(s, x, s.instances[x]);
        assert Cohort(t, x) == Cohort(s, x);
      }
    }
  }

  lemma AppliedInv(s: Store, id: nat, epoch: nat)
    requires Inv(s) && id in s.instances && s.instances[id].reset.Some? && s.instances[id].epoch <= epoch
    ensures Inv(Applied(s, id, epoch))
  {
    OpenedInv(s, id, epoch, Opened(s, id, epoch));
    CollectInv(Opened(s, id, epoch));
  }

  lemma AdvanceInv(s: Store, id: nat)
    requires Inv(s)
    ensures Inv(Advance(s, id).0)
  {
    if id in s.instances && s.instances[id].Draining() {
      assert InstanceOK(s, id, s.instances[id]);
      AppliedInv(s, id, s.instances[id].reset.value.nextEpoch);
    }
  }

  ghost predicate Incomplete(s: Store, id: nat, h: Handle) {
    OfEpoch(s, id, h) && !s.records[h].Complete()
  }

  // A draining reset takes effect exactly when every responsibility of the old epoch that
  // was not deferred is complete.
  lemma AppliedExactly(s: Store, id: nat)
    requires Inv(s) && id in s.instances && s.instances[id].Draining()
    ensures var t := Advance(s, id).0;
            && id in t.instances
            && (!t.instances[id].Draining() <==> !exists h :: Incomplete(s, id, h))
            && (t.instances[id].Draining() ==> t == s)
            && (!t.instances[id].Draining() ==> t.instances[id].epoch == s.instances[id].epoch + 1)
  {
    assert InstanceOK(s, id, s.instances[id]);
    var v := s.instances[id];
    if exists h | h in v.cohort :: h in s.records && !s.records[h].Complete() {
      var h :| h in v.cohort && h in s.records && !s.records[h].Complete();
      assert Incomplete(s, id, h);
    } else {
      assert forall h :: OfEpoch(s, id, h) ==> h in v.cohort;
    }
  }

  // Nothing keeps the responsibility once it is no longer deferred.
  predicate Spent(r: Record) {
    && r.finished && (forall i :: 0 <= i < |r.hops| ==> r.hops[i].Done())
    && !OwesReceipt(r) && !(r.cancelled && r.receipt.None? && !r.retiring)
  }

  ghost predicate Deferred(s: Store, id: nat, h: Handle) {
    h in s.records && s.records[h].instance == id && s.records[h].deferred
  }

  // The root belongs to the new epoch, unless it was already spent and has been reclaimed.
  ghost predicate Entered(s: Store, t: Store, id: nat, h: Handle)
    requires h in s.records && id in s.instances
  {
    && (h in t.records <==> !Spent(s.records[h]))
    && (h in t.records ==> t.records[h] == s.records[h].(deferred := false, epoch := s.instances[id].epoch + 1))
  }

  lemma AppliedEnters(s: Store, id: nat, h: Handle)
    requires Inv(s) && Deferred(s, id, h) && id in s.instances && s.instances[id].reset.Some?
    ensures Entered(s, Applied(s, id, s.instances[id].epoch + 1), id, h)
  {
    var s1 := Opened(s, id, s.instances[id].epoch + 1);
    assert s1.records[h] == s.records[h].(deferred := false, epoch := s.instances[id].epoch + 1);
    forall x | x in s1.instances ensures h !in s1.instances[x].cohort {
      assert InstanceOK(s, x, s.instances[x]);
    }
    assert !InCohort(s1, h);
    assert Reclaimable(s1, h) <==> Spent(s.records[h]);
  }

  // Cancelling others leaves a deferred root alone.
  lemma {:induction false} CancelSpares(s: Store, order: seq<Handle>, id: nat, h: Handle)
    requires Deferred(s, id, h) && h !in order
    ensures var t := CancelEach(s, order).0; h in t.records && t.records[h] == s.records[h]
    decreases |order|
  {
    if order != [] {
      var (s1, r) := CancelLocal(s, order[0], ByReset);
      assert order[0] != h;
      assert h in s1.records && s1.records[h] == s.records[h];
      if r.Ok? {
        CancelSpares(s1, order[1..], id, h);
      }
    }
  }

  // --------------------------------------------------------------------------------
  // An abort cannot fail half way.

  // What a cancellation leaves for the next one.
  lemma CancelKeeps(s: Store, id: nat, h: Handle, k: Handle)
    requires Inv(s) && id in s.instances && s.instances[id].Draining() && h in s.instances[id].cohort && h in s.records
    requires k in s.instances[id].cohort && k in s.records
    ensures var t := CancelLocal(s, h, ByReset).0;
            t.instances == s.instances && k in t.records && (k != h ==> t.records[k] == s.records[k])
  {
    assert InCohort(s, k);
    if s.records[h].receipt.None? && s.records[h].hops == [] {
      var s1 := SetRecord(s, h, s.records[h].(cancelled := true, finished := true));
      assert InCohort(s1, k);
    }
  }

  // How many members of the list still need a receipt.
  ghost function Owing(s: Store, order: seq<Handle>): nat
    requires forall h :: h in order ==> h in s.records
  {
    if order == [] then 0
    else (if s.records[order[0]].receipt.None? && s.records[order[0]].hops != [] then 1 else 0) + Owing(s, order[1..])
  }

  lemma {:induction false} OwingSame(s: Store, t: Store, order: seq<Handle>)
    requires forall h :: h in order ==> h in s.records && h in t.records && t.records[h] == s.records[h]
    ensures Owing(t, order) == Owing(s, order)
  {
    if order != [] {
      OwingSame(s, t, order[1..]);
    }
  }

  lemma {:induction false} OwingBound(s: Store, id: nat, order: seq<Handle>)
    requires forall h :: h in order ==> h in s.records && s.records[h].instance == id
    requires forall i, j :: 0 <= i < j < |order| ==> order[i] != order[j]
    ensures Owing(s, order) <= |Needing(s, id) * (set h | h in order)|
  {
    if order != [] {
      OwingBound(s, id, order[1..]);
      var rest, all := Needing(s, id) * (set h | h in order[1..]), Needing(s, id) * (set h | h in order);
      if order[0] in Needing(s, id) {
        assert all == rest + {order[0]};
      } else {
        assert all == rest;
      }
    }
  }

  lemma CancelCost(s: Store, h: Handle)
    requires h in s.records && (s.records[h].receipt.None? && s.records[h].hops != [] ==> s.nextReceipt < MAX64)
    ensures var (t, r) := CancelLocal(s, h, ByReset);
            r.Ok? && t.nextReceipt == s.nextReceipt + if s.records[h].receipt.None? && s.records[h].hops != [] then 1 else 0
  {
  }

  lemma {:induction false} CancelEachWorks(s: Store, id: nat, order: seq<Handle>)
    requires Inv(s) && id in s.instances && s.instances[id].Draining()
    requires forall h :: h in order ==> h in s.instances[id].cohort && h in s.records
    requires forall i, j :: 0 <= i < j < |order| ==> order[i] != order[j]
    requires s.nextReceipt + Owing(s, order) <= MAX64
    ensures CancelEach(s, order).1 && Inv(CancelEach(s, order).0) && CancelEach(s, order).0.instances == s.instances
    ensures var t := CancelEach(s, order).0;
            forall h :: h in s.instances[id].cohort && h in s.records ==> h in t.records && (if h in order then t.records[h].cancelled else t.records[h] == s.records[h])
    decreases |order|
  {
    if order != [] {
      var h := order[0];
      CancelCost(s, h);
      CancelInv(s, h, ByReset);
      var t := CancelLocal(s, h, ByReset).0;
      forall k | k in s.instances[id].cohort && k in s.records ensures t.instances == s.instances && k in t.records && (k != h ==> t.records[k] == s.records[k]) {
        CancelKeeps(s, id, h, k);
      }
      OwingSame(s, t, order[1..]);
      CancelEachWorks(t, id, order[1..]);
      CancelMarks(s, id, h);
      assert h !in order[1..];
    }
  }

  lemma CancelMarks(s: Store, id: nat, h: Handle)
    requires Inv(s) && id in s.instances && s.instances[id].Draining() && h in s.instances[id].cohort && h in s.records
    requires CancelLocal(s, h, ByReset).1.Ok?
    ensures var t := CancelLocal(s, h, ByReset).0; h in t.records && t.records[h].cancelled
  {
    CancelKeeps(s, id, h, h);
    assert Receipts(s, s.records[h]);
  }

  // The cancellations of an abort all succeed.
  lemma AbortCancels(s: Store, id: nat)
    requires Inv(s) && id in s.instances
    requires |Needing(s, id)| <= MAX64 - s.nextReceipt
    ensures var s1 := Barrier(s, id, AbortLocalAndDrain);
            var (s2, fine) := CancelEach(s1, Walk(Cohort(s, id)));
            && fine && Inv(s2) && s2.instances == s1.instances
            && forall h :: h in Cohort(s, id) ==> h in s2.records && s2.records[h].cancelled
  {
    var s1, order := Barrier(s, id, AbortLocalAndDrain), Walk(Cohort(s, id));
    WalkDistinct(Cohort(s, id));
    BarrierInv(s, id, AbortLocalAndDrain);
    forall h | h in order ensures h in s1.instances[id].cohort && h in s1.records && s1.records[h].instance == id {
    }
    OwingBound(s1, id, order);
    assert Needing(s1, id) == Needing(s, id);
    SubsetSize(Needing(s1, id) * (set h | h in order), Needing(s1, id));
    CancelEachWorks(s1, id, order);
  }

  lemma AppliedKeeps(s: Store, id: nat, epoch: nat, h: Handle)
    requires id in s.instances && s.instances[id].reset.Some? && h in Applied(s, id, epoch).records
    ensures h in s.records && Applied(s, id, epoch).records[h].cancelled == s.records[h].cancelled
  {
  }

  // An abort is allowed to start.
  predicate MayAbort(s: Store, id: nat) {
    id in s.instances && s.instances[id].epoch != MAX64 && s.nextReset != MAX64 && |Needing(s, id)| <= MAX64 - s.nextReceipt
  }

  // The cohort has been cancelled; the reset has yet to take effect.
  function Aborted(s: Store, id: nat): (Store, bool)
    requires id in s.instances
  {
    CancelEach(Barrier(s, id, AbortLocalAndDrain), Walk(Cohort(s, id)))
  }

  lemma AbortShape(s: Store, id: nat, s2: Store)
    requires MayAbort(s, id) && Aborted(s, id) == (s2, true) && id in s2.instances && s2.instances[id].reset.Some?
    ensures DoReset(s, id, AbortLocalAndDrain)
            == (Applied(s2, id, s.instances[id].epoch + 1), Ok(s2.instances[id].reset.value.(draining := false)))
  {
  }

  lemma AbortLeft(s: Store, id: nat, s2: Store)
    requires Inv(s) && MayAbort(s, id) && s2 == Aborted(s, id).0
    ensures Aborted(s, id).1 && Inv(s2) && id in s2.instances && s2.instances[id].epoch == s.instances[id].epoch && s2.instances[id].reset.Some?
    ensures forall h :: h in Cohort(s, id) ==> h in s2.records && s2.records[h].cancelled
  {
    AbortCancels(s, id);
  }

  lemma AppliedCancelled(s2: Store, id: nat, epoch: nat, x: set<Handle>)
    requires id in s2.instances && s2.instances[id].reset.Some?
    requires forall h :: h in x ==> h in s2.records && s2.records[h].cancelled
    ensures var t := Applied(s2, id, epoch); forall h :: h in x && h in t.records ==> t.records[h].cancelled
  {
    var t := Applied(s2, id, epoch);
    forall h | h in x && h in t.records ensures t.records[h].cancelled {
      AppliedKeeps(s2, id, epoch, h);
    }
  }

  // Once the receipt count was checked, every member of the cohort is still there when its
  // turn comes, every receipt can be allocated, and the reset takes effect.
  lemma AbortCannotFail(s: Store, id: nat)
    requires Inv(s) && MayAbort(s, id)
    ensures var (t, r) := DoReset(s, id, AbortLocalAndDrain);
            && Inv(t) && r.Ok? && !r.value.draining && id in t.instances
            && t.instances[id].epoch == s.instances[id].epoch + 1 && !t.instances[id].Draining() && t.instances[id].cohort == {}
            && forall h :: h in Cohort(s, id) && h in t.records ==> t.records[h].cancelled
  {
    var s2, epoch := Aborted(s, id).0, s.instances[id].epoch + 1;
    AbortLeft(s, id, s2);
    AbortShape(s, id, s2);
    AppliedInv(s2, id, epoch);
    AppliedInstance(s2, id, epoch);
    AppliedCancelled(s2, id, epoch, Cohort(s, id));
  }

  lemma AppliedInstance(s: Store, id: nat, epoch: nat)
    requires id in s.instances && s.instances[id].reset.Some?
    ensures var t := Applied(s, id, epoch);
            id in t.instances && t.instances[id].epoch == epoch && !t.instances[id].Draining() && t.instances[id].cohort == {}
  {
  }

  lemma DeferredAdvance(s: Store, id: nat, h: Handle)
    requires Inv(s) && id in s.instances && s.instances[id].Draining() && Deferred(s, id, h)
    ensures var t := Advance(s, id).0; id in t.instances && (t.instances[id].Draining() || Entered(s, t, id, h))
  {
    assert InstanceOK(s, id, s.instances[id]);
    AppliedEnters(s, id, h);
  }

  lemma AbortSpares(s: Store, id: nat, h: Handle, s2: Store)
    requires id in s.instances && Deferred(s, id, h) && s2 == Aborted(s, id).0
    ensures h in s2.records && s2.records[h] == s.records[h]
  {
    CancelSpares(Barrier(s, id, AbortLocalAndDrain), Walk(Cohort(s, id)), id, h);
  }

  lemma SameEntry(s: Store, s2: Store, t: Store, id: nat, h: Handle)
    requires h in s.records && h in s2.records && s2.records[h] == s.records[h] && id in s.instances && id in s2.instances
    requires s2.instances[id].epoch == s.instances[id].epoch && Entered(s2, t, id, h)
    ensures Entered(s, t, id, h)
  {
  }

  lemma DeferredAbort(s: Store, id: nat, h: Handle)
    requires Inv(s) && MayAbort(s, id) && Deferred(s, id, h)
    ensures Entered(s, DoReset(s, id, AbortLocalAndDrain).0, id, h)
  {
    var s2 := Aborted(s, id).0;
    AbortLeft(s, id, s2);
    AbortShape(s, id, s2);
    AbortSpares(s, id, h, s2);
    SpareEnters(s, s2, id, h);
  }

  lemma SpareEnters(s: Store, s2: Store, id: nat, h: Handle)
    requires Inv(s2) && Deferred(s, id, h) && id in s.instances && id in s2.instances && s2.instances[id].reset.Some?
    requires h in s2.records && s2.records[h] == s.records[h] && s2.instances[id].epoch == s.instances[id].epoch
    ensures Entered(s, Applied(s2, id, s.instances[id].epoch + 1), id, h)
  {
    AppliedEnters(s2, id, h);
    SameEntry(s, s2, Applied(s2, id, s.instances[id].epoch + 1), id, h);
  }

  // Deferred roots enter the new epoch, whichever way the reset takes effect.
  lemma DeferredEnter(s: Store, id: nat, h: Handle)
    requires Inv(s) && id in s.instances && s.instances[id].Draining() && Deferred(s, id, h)
    ensures var t := Advance(s, id).0; id in t.instances && (t.instances[id].Draining() || Entered(s, t, id, h))
    ensures DoReset(s, id, AbortLocalAndDrain).1.Err? || Entered(s, DoReset(s, id, AbortLocalAndDrain).0, id, h)
  {
    DeferredAdvance(s, id, h);
    if MayAbort(s, id) {
      DeferredAbort(s, id, h);
    }
  }

  lemma {:induction false} SubsetSize(a: set<Handle>, b: set<Handle>)
    requires a <= b
    ensures |a| <= |b|
    decreases |a|
  {
    if h :| h in a {
      SubsetSize(a - {h}, b - {h});
    }
  }

  // --------------------------------------------------------------------------------
  // Runs.

  datatype Command =
    | AddTheInstance(id: nat)
    | RegisterIt(h: Handle, id: nat, epoch: nat, hops: seq<DrainHop>, finished: bool, cancelled: bool, parent: Option<Handle>, claimed: bool)
    | DeferIt(h: Handle, id: nat, hops: seq<DrainHop>, finished: bool, cancelled: bool, claimed: bool)
    | AddTheHop(h: Handle, hop: DrainHop)
    | DropTheHop(h: Handle, x: Handle, unstarted: bool)
    | SetTheHop(h: Handle, hop: DrainHop)
    | Finish(h: Handle)
    | RetireIt(h: Handle)
    | Watch(x: Handle, terminal: bool, pin: bool)
    | Consume(x: Handle)
    | CancelIt(h: Handle, reason: CancelReason)
    | Release(q: Handle)
    | ResetIt(id: nat, policy: Policy)
    | AdvanceIt(id: nat)

  function Step(s: Store, c: Command): Store {
    match c
    case AddTheInstance(id) => AddInstance(s, id).0
    case RegisterIt(h, id, epoch, hops, f, x, p, y) => Register(s, h, id, epoch, hops, f, x, p, y).0
    case DeferIt(h, id, hops, f, x, y) => DeferRoot(s, h, id, hops, f, x, y).0
    case AddTheHop(h, hop) => AddHop(s, h, hop).0
    case DropTheHop(h, x, u) => DropHop(s, h, x, u).0
    case SetTheHop(h, hop) => SetHop(s, h, hop).0
    case Finish(h) => FinishLocal(s, h).0
    case RetireIt(h) => Retire(s, h).0
    case Watch(x, terminal, pin) => ObserveWire(s, x, terminal, pin)
    case Consume(x) => ConsumeTerminal(s, x).0
    case CancelIt(h, reason) => CancelLocal(s, h, reason).0
    case Release(q) => ReleaseReceipt(s, q).0
    case ResetIt(id, policy) => DoReset(s, id, policy).0
    case AdvanceIt(id) => Advance(s, id).0
  }

  lemma ResetInv(s: Store, id: nat, policy: Policy)
    requires Inv(s)
    ensures Inv(DoReset(s, id, policy).0)
  {
    if id in s.instances {
      BarrierInv(s, id, policy);
      if policy.DrainThenReset? {
        AdvanceInv(Barrier(s, id, policy), id);
      } else if MayAbort(s, id) {
        AbortCannotFail(s, id);
      }
    }
  }

  lemma StepInv(s: Store, c: Command)
    requires Inv(s)
    ensures Inv(Step(s, c))
  {
    match c
    case AddTheInstance(id) => AddInstanceInv(s, id);
    case RegisterIt(h, id, epoch, hops, f, x, p, y) => RegisterInv(s, h, id, epoch, hops, f, x, p, y);
    case DeferIt(h, id, hops, f, x, y) => DeferInv(s, h, id, hops, f, x, y);
    case AddTheHop(h, hop) => AddHopInv(s, h, hop);
    case DropTheHop(h, x, u) => DropHopInv(s, h, x, u);
    case SetTheHop(h, hop) => SetHopInv(s, h, hop);
    case Finish(h) => FinishInv(s, h);
    case RetireIt(h) => RetireInv(s, h);
    case Watch(x, terminal, pin) =>
      ObserveInv(s, Walk(s.records.Keys), x, terminal, pin);
      CollectInv(ObserveAll(s, Walk(s.records.Keys), x, terminal, pin));
    case Consume(x) =>
      ConsumeInv(s, Walk(s.records.Keys), x);
      CollectInv(ConsumeAll(s, Walk(s.records.Keys), x).0);
    case CancelIt(h, reason) => CancelInv(s, h, reason);
    case Release(q) => ReleaseInv(s, q);
    case ResetIt(id, policy) => ResetInv(s, id, policy);
    case AdvanceIt(id) => AdvanceInv(s, id);
  }

  // --------------------------------------------------------------------------------
  // Epochs.

  ghost predicate EpochsGrow(s: Store, t: Store) {
    forall id :: id in s.instances ==> id in t.instances && s.instances[id].epoch <= t.instances[id].epoch
  }

  lemma {:induction false} ObserveInstances(s: Store, order: seq<Handle>, hop: Handle, terminal: bool, pin: bool)
    ensures ObserveAll(s, order, hop, terminal, pin).instances == s.instances
    decreases |order|
  {
    if order != [] {
      var h := order[0];
      ObserveInstances(if h in s.records && HasHop(s.records[h].hops, hop)
                       then Refresh(SetRecord(s, h, ObserveRecord(s.records[h], hop, terminal, pin)), h) else s, order[1..], hop, terminal, pin);
    }
  }

  lemma {:induction false} ConsumeInstances(s: Store, order: seq<Handle>, hop: Handle)
    ensures ConsumeAll(s, order, hop).0.instances == s.instances
    decreases |order|
  {
    if order != [] {
      var h := order[0];
      if h !in s.records {
        ConsumeInstances(s, order[1..], hop);
      } else {
        var first := FindHop(s.records[h].hops, hop);
        ConsumeInstances(if first.Some? && s.records[h].hops[first.value].terminal
                         then Refresh(SetRecord(s, h, s.records[h].(hops := ConsumeHops(s.records[h].hops, 0, hop).0)), h) else s, order[1..], hop);
      }
    }
  }

  // Only a reset touches the epoch and the reset of an instance that exists.
  lemma OtherInstances(s: Store, c: Command)
    requires !c.ResetIt? && !c.AdvanceIt?
    ensures var t := Step(s, c);
            forall id :: id in s.instances ==>
              id in t.instances && t.instances[id].epoch == s.instances[id].epoch && t.instances[id].reset == s.instances[id].reset
  {
    match c
    case Watch(x, terminal, pin) => ObserveInstances(s, Walk(s.records.Keys), x, terminal, pin);
    case Consume(x) => ConsumeInstances(s, Walk(s.records.Keys), x);
    case _ =>
  }

  lemma AdvanceEpochs(s: Store, id: nat)
    requires Inv(s)
    ensures EpochsGrow(s, Advance(s, id).0)
  {
    if id in s.instances {
      assert InstanceOK(s, id, s.instances[id]);
    }
  }

  lemma ResetEpochs(s: Store, id: nat, policy: Policy)
    requires Inv(s)
    ensures EpochsGrow(s, DoReset(s, id, policy).0)
  {
    if id in s.instances {
      var s1 := Barrier(s, id, policy);
      BarrierInv(s, id, policy);
      if policy.DrainThenReset? {
        AdvanceEpochs(s1, id);
      } else if MayAbort(s, id) {
        var s2 := Aborted(s, id).0;
        AbortLeft(s, id, s2);
        AbortShape(s, id, s2);
        AbortCancels(s, id);
      }
    }
  }

  lemma StepEpochs(s: Store, c: Command)
    requires Inv(s)
    ensures EpochsGrow(s, Step(s, c))
  {
    if c.ResetIt? {
      ResetEpochs(s, c.id, c.policy);
    } else if c.AdvanceIt? {
      AdvanceEpochs(s, c.id);
    } else {
      OtherInstances(s, c);
    }
  }

  ghost predicate NewlyApplied(s: Store, t: Store, id: nat) {
    && id in s.instances && id in t.instances && t.instances[id].reset != s.instances[id].reset
    && t.instances[id].reset.Some? && !t.instances[id].reset.value.draining && t.instances[id].reset.value.policy.DrainThenReset?
  }

  // In any run, whichever call makes a drain-then-reset take effect, every responsibility
  // of the old epoch that was not deferred is complete at that moment.
  lemma NoEarlyReset(s: Store, c: Command, id: nat)
    requires Inv(s) && NewlyApplied(s, Step(s, c), id)
    ensures OnTime(s, Step(s, c), id)
  {
    if c.ResetIt? {
      ResetCase(s, c.id, c.policy, id, Step(s, c));
    } else if c.AdvanceIt? {
      AdvanceCase(s, c.id, id, Step(s, c));
    } else {
      OtherCase(s, c, id, Step(s, c));
    }
  }

  // The old epoch is complete and the new one begins.
  ghost predicate OnTime(s: Store, t: Store, id: nat) {
    && id in s.instances && id in t.instances && t.instances[id].epoch == s.instances[id].epoch + 1
    && !exists h :: Incomplete(s, id, h)
  }

  lemma OtherCase(s: Store, c: Command, id: nat, t: Store)
    requires !c.ResetIt? && !c.AdvanceIt? && t == Step(s, c)
    ensures !NewlyApplied(s, t, id)
  {
    OtherInstances(s, c);
  }

  lemma AdvanceCase(s: Store, x: nat, id: nat, t: Store)
    requires Inv(s) && t == Advance(s, x).0 && NewlyApplied(s, t, id)
    ensures OnTime(s, t, id)
  {
    assert x == id && s.instances[id].Draining();
    AppliedExactly(s, id);
  }

  lemma ResetCase(s: Store, x: nat, policy: Policy, id: nat, t: Store)
    requires Inv(s) && t == DoReset(s, x, policy).0 && NewlyApplied(s, t, id)
    ensures OnTime(s, t, id)
  {
    if policy.AbortLocalAndDrain? {
      AbortCase(s, x, id, t);
    } else {
      DrainCase(s, x, id, t);
    }
  }

  lemma DrainCase(s: Store, x: nat, id: nat, t: Store)
    requires Inv(s) && t == DoReset(s, x, DrainThenReset).0 && NewlyApplied(s, t, id)
    ensures OnTime(s, t, id)
  {
    var s1 := Barrier(s, x, DrainThenReset);
    BarrierInv(s, x, DrainThenReset);
    assert x == id;
    AppliedExactly(s1, id);
    forall h ensures Incomplete(s1, id, h) <==> Incomplete(s, id, h) {
    }
  }

  // An abort is no drain-then-reset.
  lemma AbortCase(s: Store, x: nat, id: nat, t: Store)
    requires Inv(s) && t == DoReset(s, x, AbortLocalAndDrain).0
    ensures !NewlyApplied(s, t, id)
  {
    if MayAbort(s, x) {
      var s2 := Aborted(s, x).0;
      AbortLeft(s, x, s2);
      AbortShape(s, x, s2);
      AbortCancels(s, x);
    }
  }

  function Run(s: Store, cs: seq<Command>): Store
    decreases |cs|
  {
    if cs == [] then s else Run(Step(s, cs[0]), cs[1..])
  }

  lemma {:induction false} RunInv(s: Store, cs: seq<Command>)
    requires Inv(s)
    ensures Inv(Run(s, cs)) && EpochsGrow(s, Run(s, cs))
    decreases |cs|
  {
    if cs != [] {
      StepInv(s, cs[0]);
      StepEpochs(s, cs[0]);
      RunInv(Step(s, cs[0]), cs[1..]);
    }
  }

  // Every reachable state: the cohort of a draining reset is exact, deferred roots exist
  // only behind a barrier, and a receipt that reports completion belongs to a complete
  // responsibility.
  lemma DrainSafety(domain: nat, store: nat, capacity: nat, hopLimit: nat, instanceLimit: nat, cs: seq<Command>)
    ensures var s := Run(NewStore(domain, store, capacity, hopLimit, instanceLimit), cs);
            && (forall id :: id in s.instances && s.instances[id].Draining() ==> s.instances[id].cohort == Cohort(s, id))
            && (forall h :: h in s.records && s.records[h].deferred ==>
                  s.records[h].instance in s.instances && s.instances[s.records[h].instance].Draining())
            && (forall q :: q in s.receipts && s.receipts[q].complete ==> exists h :: Owner(s, q, h) && s.records[h].Complete())
  {
    var s0 := NewStore(domain, store, capacity, hopLimit, instanceLimit);
    RunInv(s0, cs);
    var s := Run(s0, cs);
    forall id | id in s.instances && s.instances[id].Draining() ensures s.instances[id].cohort == Cohort(s, id) {
      assert InstanceOK(s, id, s.instances[id]);
    }
    forall q | q in s.receipts && s.receipts[q].complete ensures exists h :: Owner(s, q, h) && s.records[h].Complete() {
      var h :| Owner(s, q, h);
      assert Receipts(s, s.records[h]);
    }
    forall h | h in s.records && s.records[h].deferred ensures s.records[h].instance in s.instances && s.instances[s.records[h].instance].Draining() {
      assert Placed(s, s.records[h]);
    }
  }
}
