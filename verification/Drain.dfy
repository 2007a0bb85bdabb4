// Drain and reset (runtime/src/drain.cpp): responsibilities that outlive local code, the
// receipts handed out for them, and resets that wait for a cohort of them.
module Drain {
  import opened Common
  import opened HandleOrder

  datatype DrainHop = DrainHop(hop: Handle, terminal: bool, consumed: bool, returned: bool, pinned: bool) {
    predicate Done() {
      terminal && consumed && returned && !pinned
    }
  }

  datatype CancelReason = Timeout | User | ByReset | ParentCancelled

  datatype Record = Record(
    instance: nat, epoch: nat, parent: Option<Handle>, hops: seq<DrainHop>, finished: bool, cancelled: bool,
    receipt: Option<Handle>, reason: CancelReason, released: bool, deferred: bool, retiring: bool) {

    predicate Complete() {
      !deferred && finished && forall i :: 0 <= i < |hops| ==> hops[i].Done()
    }
  }

  datatype Status = Status(complete: bool, hops: seq<DrainHop>, reason: CancelReason)

  datatype Policy = DrainThenReset | AbortLocalAndDrain

  datatype Reset = Reset(id: nat, policy: Policy, oldEpoch: nat, nextEpoch: nat, draining: bool)

  datatype Instance = Instance(epoch: nat, reset: Option<Reset>, cohort: set<Handle>) {
    predicate Draining() {
      reset.Some? && reset.value.draining
    }
  }

  datatype Store = Store(
    domain: nat, store: nat, capacity: nat, hopLimit: nat, instanceLimit: nat, nextReceipt: nat, nextReset: nat,
    records: map<Handle, Record>, instances: map<nat, Instance>, receipts: map<Handle, Status>)

  datatype Error =
    | StaleHandle | WrongDomain | WrongOwner | InvalidState | InvalidArgument | Duplicate | Capacity | Overflow | NotReady | WasCancelled

  function NewStore(domain: nat, store: nat, capacity: nat, hopLimit: nat, instanceLimit: nat): Store {
    Store(domain, store, capacity, hopLimit, instanceLimit, 1, 1, map[], map[], map[])
  }

  // --------------------------------------------------------------------------------
  // Bookkeeping.

  function SetRecord(s: Store, h: Handle, r: Record): Store {
    s.(records := s.records[h := r])
  }

  function SetInstance(s: Store, id: nat, v: Instance): Store {
    s.(instances := s.instances[id := v])
  }

  predicate OwesReceipt(r: Record) {
    r.receipt.Some? && !r.released
  }

  // Brings the receipt of `h` up to date.
  function Refresh(s: Store, h: Handle): (t: Store)
    requires h in s.records
    ensures t.records == s.records && t.instances == s.instances && t.nextReceipt == s.nextReceipt
  {
    var r := s.records[h];
    if OwesReceipt(r) && r.receipt.value in s.receipts
    then s.(receipts := s.receipts[r.receipt.value := s.receipts[r.receipt.value].(complete := r.Complete(), hops := r.hops)])
    else s
  }

  predicate InCohort(s: Store, h: Handle) {
    exists id | id in s.instances :: h in s.instances[id].cohort
  }

  // Complete, unclaimed, and not held by a reset or by an unretired cancellation.
  predicate Reclaimable(s: Store, h: Handle)
    requires h in s.records
  {
    var r := s.records[h];
    r.Complete() && !OwesReceipt(r) && !InCohort(s, h) && !(r.cancelled && r.receipt.None? && !r.retiring)
  }

  function Collect(s: Store): Store {
    s.(records := map h | h in s.records && !Reclaimable(s, h) :: s.records[h])
  }

  // --------------------------------------------------------------------------------
  // Responsibilities.

  function AddInstance(s: Store, id: nat): (Store, Result<(), Error>) {
    if id in s.instances then (s, Ok(()))
    else if |s.instances| >= s.instanceLimit then (s, Err(Capacity))
    else (SetInstance(s, id, Instance(0, None, {})), Ok(()))
  }

  function NewRecord(id: nat, epoch: nat, parent: Option<Handle>, hops: seq<DrainHop>, finished: bool, cancelled: bool, deferred: bool): Record {
    Record(id, epoch, parent, hops, finished, cancelled, None, User, false, deferred, false)
  }

  // `claimed` is a parent the caller wrote into the responsibility itself.
  function Register(s: Store, h: Handle, id: nat, epoch: nat, hops: seq<DrainHop>, finished: bool, cancelled: bool,
                    parent: Option<Handle>, claimed: bool): (Store, Result<(), Error>)
  {
    if h.domain != s.domain then (s, Err(WrongDomain))
    else if id !in s.instances then (s, Err(InvalidArgument))
    else if h in s.records then (s, Err(Duplicate))
    else if |s.records| >= s.capacity || |hops| > s.hopLimit then (s, Err(Capacity))
    else
      var v := s.instances[id];
      if epoch != v.epoch then (s, Err(StaleHandle))
      else if parent.Some? && !GoodParent(s, h, id, parent.value) then (s, Err(WrongOwner))
      else if parent.None? && claimed then (s, Err(WrongOwner))
      else
        var inherited := parent.Some? && parent.value in v.cohort;
        if v.Draining() && !inherited then (s, Err(NotReady))
        else
          var s1 := SetRecord(s, h, NewRecord(id, epoch, parent, hops, finished, cancelled, false));
          (if inherited then SetInstance(s1, id, v.(cohort := v.cohort + {h})) else s1, Ok(()))
  }

  predicate GoodParent(s: Store, h: Handle, id: nat, p: Handle) {
    p in s.records && !s.records[p].cancelled && !s.records[p].finished && s.records[p].instance == id && p.owner == h.owner
  }

  // A root that arrives behind the barrier waits for the next epoch.
  function DeferRoot(s: Store, h: Handle, id: nat, hops: seq<DrainHop>, finished: bool, cancelled: bool, claimed: bool): (Store, Result<(), Error>) {
    if id !in s.instances || !s.instances[id].Draining() then (s, Err(InvalidState))
    else if h.domain != s.domain || claimed then (s, Err(WrongOwner))
    else if h in s.records then (s, Err(Duplicate))
    else if |s.records| >= s.capacity || |hops| > s.hopLimit then (s, Err(Capacity))
    else (SetRecord(s, h, NewRecord(id, s.instances[id].epoch, None, hops, finished, cancelled, true)), Ok(()))
  }

  predicate HasHop(hops: seq<DrainHop>, hop: Handle) {
    exists i :: 0 <= i < |hops| && hops[i].hop == hop
  }

  function FindHop(hops: seq<DrainHop>, hop: Handle): (r: Option<nat>)
    ensures r.Some? ==> r.value < |hops| && hops[r.value].hop == hop
  {
    if hops == [] then None
    else
      var rest := FindHop(hops[..|hops| - 1], hop);
      if rest.Some? then rest else if hops[|hops| - 1].hop == hop then Some(|hops| - 1) else None
  }

  function AddHop(s: Store, h: Handle, hop: DrainHop): (Store, Result<(), Error>) {
    if h !in s.records then (s, Err(StaleHandle))
    else
      var r := s.records[h];
      if HasHop(r.hops, hop.hop) then (s, Ok(()))
      else if |r.hops| >= s.hopLimit then (s, Err(Capacity))
      else if r.cancelled then (s, Err(WasCancelled))
      else (SetRecord(s, h, r.(hops := r.hops + [hop])), Ok(()))
  }

  // `unstarted` is the wire ledger's word that the hop made no call.
  function DropHop(s: Store, h: Handle, hop: Handle, unstarted: bool): (Store, Result<(), Error>) {
    if !unstarted then (s, Err(InvalidState))
    else if h !in s.records then (s, Err(StaleHandle))
    else
      var r := s.records[h];
      match FindHop(r.hops, hop)
      case None => (s, Err(StaleHandle))
      case Some(i) => (SetRecord(s, h, r.(hops := r.hops[..i] + r.hops[i + 1..])), Ok(()))
  }

  predicate Regresses(p: DrainHop, q: DrainHop) {
    (p.terminal && !q.terminal) || (p.consumed && !q.consumed) || (p.returned && !q.returned) || (!p.pinned && q.pinned)
  }

  function SetHop(s: Store, h: Handle, hop: DrainHop): (Store, Result<(), Error>) {
    if h !in s.records then (s, Err(StaleHandle))
    else
      var r := s.records[h];
      match FindHop(r.hops, hop.hop)
      case None => (s, Err(WrongOwner))
      case Some(i) =>
        if Regresses(r.hops[i], hop) then (s, Err(InvalidState))
        else (Collect(Refresh(SetRecord(s, h, r.(hops := r.hops[i := hop])), h)), Ok(()))
  }

  function FinishLocal(s: Store, h: Handle): (Store, Result<(), Error>) {
    if h !in s.records then (s, Err(StaleHandle))
    else (Collect(Refresh(SetRecord(s, h, s.records[h].(finished := true)), h)), Ok(()))
  }

  function Retire(s: Store, h: Handle): (Store, Result<(), Error>) {
    if h !in s.records then (s, Err(StaleHandle))
    else
      var r := s.records[h];
      if !r.Complete() || OwesReceipt(r) then (s, Err(NotReady))
      else if InCohort(s, h) then (SetRecord(s, h, r.(retiring := true)), Ok(()))
      else (s.(records := s.records - {h}), Ok(()))
  }

  // --------------------------------------------------------------------------------
  // The wire reports progress of a hop, whoever is responsible for it.

  function Observe(p: DrainHop, hop: Handle, terminal: bool, pin: bool): DrainHop {
    if p.hop != hop then p
    else p.(terminal := p.terminal || terminal, pinned := pin, returned := p.returned || (terminal && !pin))
  }

  function ObserveRecord(r: Record, hop: Handle, terminal: bool, pin: bool): Record {
    r.(hops := seq(|r.hops|, i requires 0 <= i < |r.hops| => Observe(r.hops[i], hop, terminal, pin)))
  }

  // Visits the records in the order of `order`.
  function ObserveAll(s: Store, order: seq<Handle>, hop: Handle, terminal: bool, pin: bool): Store
    decreases |order|
  {
    if order == [] then s
    else
      var h := order[0];
      ObserveAll(
        if h in s.records && HasHop(s.records[h].hops, hop)
        then Refresh(SetRecord(s, h, ObserveRecord(s.records[h], hop, terminal, pin)), h) else s,
        order[1..], hop, terminal, pin)
  }

  function ObserveWire(s: Store, hop: Handle, terminal: bool, pin: bool): Store {
    Collect(ObserveAll(s, Walk(s.records.Keys), hop, terminal, pin))
  }

  // Marks the hop's timing as consumed, position by position, up to one that is not terminal.
  function ConsumeHops(hops: seq<DrainHop>, i: nat, hop: Handle): (r: (seq<DrainHop>, bool))
    requires i <= |hops|
    ensures |r.0| == |hops| && forall k :: 0 <= k < |hops| ==> r.0[k] == hops[k] || r.0[k] == hops[k].(consumed := true)
    decreases |hops| - i
  {
    if i == |hops| then (hops, true)
    else if hops[i].hop != hop then ConsumeHops(hops, i + 1, hop)
    else if !hops[i].terminal then (hops, false)
    else ConsumeHops(hops[i := hops[i].(consumed := true)], i + 1, hop)
  }

  function ConsumeAll(s: Store, order: seq<Handle>, hop: Handle): (Store, bool)
    decreases |order|
  {
    if order == [] then (s, true)
    else
      var h := order[0];
      if h !in s.records then ConsumeAll(s, order[1..], hop)
      else
        var (hops, fine) := ConsumeHops(s.records[h].hops, 0, hop);
        var first := FindHop(s.records[h].hops, hop);
        var s' := if first.Some? && s.records[h].hops[first.value].terminal
                  then Refresh(SetRecord(s, h, s.records[h].(hops := hops)), h) else s;
        if fine then ConsumeAll(s', order[1..], hop) else (s', false)
  }

  function ConsumeTerminal(s: Store, hop: Handle): (Store, Result<(), Error>) {
    var (s', fine) := ConsumeAll(s, Walk(s.records.Keys), hop);
    if fine then (Collect(s'), Ok(())) else (s', Err(InvalidState))
  }

  // --------------------------------------------------------------------------------
  // Cancellation and receipts.

  function ReceiptHandle(s: Store, h: Handle): Handle {
    Handle(KDrain, s.domain, s.store, if s.capacity > 0 then s.nextReceipt % s.capacity else 0, s.nextReceipt, h.owner)
  }

  function CancelLocal(s: Store, h: Handle, reason: CancelReason): (Store, Result<Option<Handle>, Error>) {
    if h !in s.records then (s, Err(StaleHandle))
    else
      var r := s.records[h];
      if r.receipt.Some? then (s, Ok(if r.released then None else r.receipt))
      else if r.hops == [] then (Collect(SetRecord(s, h, r.(cancelled := true, finished := true))), Ok(None))
      else if s.nextReceipt == MAX64 then (s, Err(Overflow))
      else (Refresh(Receipted(s, h, reason), h), Ok(Some(ReceiptHandle(s, h))))
  }

  function Receipted(s: Store, h: Handle, reason: CancelReason): Store
    requires h in s.records
  {
    var r, q := s.records[h], ReceiptHandle(s, h);
    s.(nextReceipt := s.nextReceipt + 1,
       records := s.records[h := r.(cancelled := true, finished := true, receipt := Some(q), reason := reason)],
       receipts := s.receipts[q := Status(false, r.hops, reason)])
  }

  function ReleaseReceipt(s: Store, q: Handle): (Store, Result<(), Error>) {
    if q !in s.receipts then (s, Err(StaleHandle))
    else
      (Collect(s.(records := map h | h in s.records :: if s.records[h].receipt == Some(q) then s.records[h].(released := true) else s.records[h],
                  receipts := s.receipts - {q})), Ok(()))
  }

  // --------------------------------------------------------------------------------
  // Resets.

  ghost predicate OfEpoch(s: Store, id: nat, h: Handle) {
    h in s.records && id in s.instances && s.records[h].instance == id && s.records[h].epoch == s.instances[id].epoch && !s.records[h].deferred
  }

  function Cohort(s: Store, id: nat): set<Handle>
    requires id in s.instances
  {
    set h | h in s.records && s.records[h].instance == id && s.records[h].epoch == s.instances[id].epoch && !s.records[h].deferred
  }

  // The responsibilities that may still need a receipt.
  function Needing(s: Store, id: nat): set<Handle> {
    set h | h in s.records && s.records[h].instance == id && s.records[h].receipt.None? && s.records[h].hops != []
  }

  // Deferred roots of the instance enter its epoch.
  function Admit(s: Store, id: nat, epoch: nat): Store {
    s.(records := map h | h in s.records ::
      if s.records[h].instance == id && s.records[h].deferred then s.records[h].(deferred := false, epoch := epoch) else s.records[h])
  }

  // The reset takes effect.
  function Applied(s: Store, id: nat, epoch: nat): Store
    requires id in s.instances && s.instances[id].reset.Some?
  {
    var v := s.instances[id];
    Collect(Admit(SetInstance(s, id, Instance(epoch, Some(v.reset.value.(draining := false)), {})), id, epoch))
  }

  function Advance(s: Store, id: nat): (Store, Result<Reset, Error>) {
    if id !in s.instances || s.instances[id].reset.None? then (s, Err(InvalidState))
    else
      var v := s.instances[id];
      if !v.Draining() then (s, Ok(v.reset.value))
      else if exists h | h in v.cohort :: h in s.records && !s.records[h].Complete() then (s, Ok(v.reset.value))
      else (Applied(s, id, v.reset.value.nextEpoch), Ok(v.reset.value.(draining := false)))
  }

  // Cancels the cohort one by one; stops at the first refusal.
  function CancelEach(s: Store, order: seq<Handle>): (Store, bool)
    decreases |order|
  {
    if order == [] then (s, true)
    else
      var (s', r) := CancelLocal(s, order[0], ByReset);
      if r.Err? then (s', false) else CancelEach(s', order[1..])
  }

  function Barrier(s: Store, id: nat, policy: Policy): Store
    requires id in s.instances
  {
    var v := s.instances[id];
    SetInstance(s, id, Instance(v.epoch, Some(Reset(s.nextReset, policy, v.epoch, v.epoch + 1, true)), Cohort(s, id))).(nextReset := s.nextReset + 1)
  }

  function DoReset(s: Store, id: nat, policy: Policy): (Store, Result<Reset, Error>) {
    if id !in s.instances then (s, Err(InvalidArgument))
    else
      var v := s.instances[id];
      if v.Draining() && policy.DrainThenReset? then (s, Ok(v.reset.value))
      else if v.epoch == MAX64 || s.nextReset == MAX64 then (s, Err(Overflow))
      else if policy.AbortLocalAndDrain? && |Needing(s, id)| > MAX64 - s.nextReceipt then (s, Err(Overflow))
      else
        var s1 := Barrier(s, id, policy);
        if policy.DrainThenReset? then Advance(s1, id)
        else
          var (s2, fine) := CancelEach(s1, Walk(Cohort(s, id)));
          if !fine || id !in s2.instances || s2.instances[id].reset.None? then (s2, Err(StaleHandle))
          else (Applied(s2, id, v.epoch + 1), Ok(s2.instances[id].reset.value.(draining := false)))
  }
}
