// Managed access (runtime/src/managed.cpp): timed reads and writes of shared buffers under
// leases that can be invalidated, driven by advancing the clock.
module Managed {
  import opened Common

  datatype Failure = NoFailure | Invalidated | Cancelled | WasReset | ServiceFailure

  datatype Lease = Lease(handle: Handle, region: nat, start: nat, end: nat, valid: bool)

  // Bytes that reached a buffer.
  datatype Effect = Effect(buffer: nat, offset: nat, bytes: seq<int>)

  // What the operation ended with: the bytes a read observed, or what a write did.
  datatype Outcome = Outcome(handle: Handle, failure: Failure, data: seq<int>, effect: Option<Effect>, time: nat, turn: nat)

  datatype Op = Op(
    handle: Handle, lease: Handle, region: nat, write: bool, address: nat, count: nat, input: seq<int>, arrival: nat, sequence: nat,
    admitted: bool, terminal: bool, released: bool, settled: bool, pin: Option<nat>, offset: nat, finish: nat, outcome: Option<Outcome>) {

    // The next moment at which the operation needs attention.
    function Time(): nat {
      if admitted then finish else arrival
    }
    predicate Waiting() {
      !terminal || pin.Some?
    }
    predicate Collectible() {
      terminal && pin.None? && released
    }
  }

  datatype Change = Change(region: nat, start: nat, end: nat, sequence: nat, time: nat)

  // `drains` lets operations in flight finish when their range is invalidated; `backing`
  // names a buffer, which several regions may share.
  datatype Region = Region(start: nat, end: nat, drains: bool, backing: nat, version: nat)

  // `free` is when the manager's own service resource becomes idle; `bound` says that an
  // external resource takes its place.
  datatype Manager = Manager(
    domain: nat, store: nat, now: nat, turn: nat, ops: seq<Option<Op>>, leases: seq<Option<Lease>>, changes: seq<Change>,
    regions: map<nat, Region>, buffers: seq<seq<int>>, free: nat, bound: bool, published: seq<Outcome>,
    generations: seq<nat>, leaseGenerations: seq<nat>, sequence: nat)

  function NewManager(domain: nat, store: nat, ops: nat, leases: nat): Manager {
    Manager(domain, store, 0, 0, seq(ops, _ => None), seq(leases, _ => None), [], map[], [], 0, false, [],
            seq(ops, _ => 0), seq(leases, _ => 0), 0)
  }

  // Whether the operation is still wanted when the external resource completes it.
  datatype Answer = Refused | Wanted(still: bool)

  // Everything the manager asks others, by operation and time: the service cost of a region,
  // the external resource, and the result store that publishes an outcome and lets go of it.
  datatype Host = Host(
    service: (nat, bool, nat) -> Option<nat>,
    reserve: (Handle, nat, nat) -> Option<nat>,
    complete: (Handle, nat) -> Answer,
    publish: (Handle, nat) -> bool,
    disown: (Handle, nat) -> bool)

  // --------------------------------------------------------------------------------
  // What happens next.

  datatype Key = Key(time: nat, sequence: nat, kind: nat, index: nat) {
    predicate Less(o: Key) {
      || time < o.time
      || (time == o.time && sequence < o.sequence)
      || (time == o.time && sequence == o.sequence && kind < o.kind)
      || (time == o.time && sequence == o.sequence && kind == o.kind && index < o.index)
    }
  }

  function OpKey(m: Manager, i: nat): Key
    requires i < |m.ops| && m.ops[i].Some?
  {
    Key(m.ops[i].value.Time(), m.ops[i].value.sequence, 0, i)
  }

  function ChangeKey(m: Manager, i: nat): Key
    requires i < |m.changes|
  {
    Key(m.changes[i].time, m.changes[i].sequence, 1, i)
  }

  predicate Candidate(m: Manager, until: nat, k: Key) {
    && k.time <= until
    && (|| (k.kind == 0 && k.index < |m.ops| && m.ops[k.index].Some? && m.ops[k.index].value.Waiting() && k == OpKey(m, k.index))
        || (k.kind == 1 && k.index < |m.changes| && k == ChangeKey(m, k.index)))
  }

  function Better(best: Option<Key>, k: Key): Option<Key> {
    if best.None? || k.Less(best.value) then Some(k) else best
  }

  // The earliest among the first `n` operations.
  function NextOp(m: Manager, until: nat, n: nat): Option<Key>
    requires n <= |m.ops|
  {
    if n == 0 then None
    else
      var best := NextOp(m, until, n - 1);
      if m.ops[n - 1].Some? && m.ops[n - 1].value.Waiting() && m.ops[n - 1].value.Time() <= until
      then Better(best, OpKey(m, n - 1)) else best
  }

  // And among the first `n` scheduled changes as well.
  function NextChange(m: Manager, until: nat, n: nat): Option<Key>
    requires n <= |m.changes|
  {
    if n == 0 then NextOp(m, until, |m.ops|)
    else
      var best := NextChange(m, until, n - 1);
      if m.changes[n - 1].time <= until then Better(best, ChangeKey(m, n - 1)) else best
  }

  function Next(m: Manager, until: nat): Option<Key> {
    NextChange(m, until, |m.changes|)
  }

  // The search as the loops that perform it.
  method FindNext(m: Manager, until: nat) returns (best: Option<Key>)
    ensures best == Next(m, until)
  {
    best := None;
    for i := 0 to |m.ops|
      invariant best == NextOp(m, until, i)
    {
      if m.ops[i].Some? && m.ops[i].value.Waiting() {
        var k := OpKey(m, i);
        if k.time <= until && (best.None? || k.Less(best.value)) {
          best := Some(k);
        }
      }
    }
    for i := 0 to |m.changes|
      invariant best == NextChange(m, until, i)
    {
      var k := ChangeKey(m, i);
      if k.time <= until && (best.None? || k.Less(best.value)) {
        best := Some(k);
      }
    }
  }

  ghost predicate IsNext(m: Manager, until: nat, k: Key) {
    Candidate(m, until, k) && forall c :: Candidate(m, until, c) ==> !c.Less(k)
  }

  lemma {:induction false} NextOpFacts(m: Manager, until: nat, n: nat)
    requires n <= |m.ops|
    ensures var best := NextOp(m, until, n);
            && (best.Some? ==> Candidate(m, until, best.value) && best.value.kind == 0 && best.value.index < n)
            && forall c :: Candidate(m, until, c) && c.kind == 0 && c.index < n ==> best.Some? && !c.Less(best.value)
  {
    if n > 0 {
      NextOpFacts(m, until, n - 1);
    }
  }

  lemma {:induction false} NextChangeFacts(m: Manager, until: nat, n: nat)
    requires n <= |m.changes|
    ensures var best := NextChange(m, until, n);
            && (best.Some? ==> Candidate(m, until, best.value))
            && forall c :: Candidate(m, until, c) && (c.kind == 0 || c.index < n) ==> best.Some? && !c.Less(best.value)
  {
    if n == 0 {
      NextOpFacts(m, until, |m.ops|);
    } else {
      NextChangeFacts(m, until, n - 1);
    }
  }

  // The search finds a least candidate, or there is none.
  lemma NextFacts(m: Manager, until: nat)
    ensures Next(m, until).Some? ==> IsNext(m, until, Next(m, until).value)
    ensures Next(m, until).None? ==> forall c :: !Candidate(m, until, c)
  {
    NextChangeFacts(m, until, |m.changes|);
  }

  lemma NextUnique(m: Manager, until: nat, k: Key)
    requires IsNext(m, until, k)
    ensures Next(m, until) == Some(k)
  {
    NextFacts(m, until);
    var b := Next(m, until).value;
    assert !k.Less(b) && !b.Less(k);
  }

  // --------------------------------------------------------------------------------
  // Processing.

  // The operation has ended.
  function Ended(m: Manager, i: nat, failure: Failure, data: seq<int>, effect: Option<Effect>, settled: bool): Manager
    requires i < |m.ops| && m.ops[i].Some?
  {
    var o := m.ops[i].value;
    var x := Outcome(o.handle, failure, data, effect, m.now, m.turn);
    m.(ops := m.ops[i := Some(o.(terminal := true, settled := settled, outcome := Some(x), input := if failure.NoFailure? then o.input else []))],
       published := m.published + [x])
  }

  // Ends the operation without touching a buffer; false when a step on the way fails.
  function End(host: Host, m: Manager, i: nat, failure: Failure, settled: bool): (r: (Manager, bool))
    requires i < |m.ops| && m.ops[i].Some?
    ensures |r.0.ops| == |m.ops|
  {
    var o := m.ops[i].value;
    if o.terminal then (m, true)
    else if !host.publish(o.handle, m.now) then (m, false)
    else (Ended(m, i, failure, [], None, settled), host.disown(o.handle, m.now))
  }

  function CollectOp(o: Option<Op>): Option<Op> {
    if o.Some? && o.value.Collectible() then None else o
  }

  function Collect(m: Manager): Manager {
    m.(ops := seq(|m.ops|, i requires 0 <= i < |m.ops| => CollectOp(m.ops[i])))
  }

  predicate Hit(o: Op, c: Change) {
    o.region == c.region && o.address <= c.end && c.start <= o.address + o.count - 1
  }

  // Ends the operations among the first `n` that the change hits and that may not finish.
  function EndHit(host: Host, m: Manager, c: Change, drains: bool, n: nat): (r: (Manager, bool))
    requires n <= |m.ops|
    ensures |r.0.ops| == |m.ops|
  {
    if n == 0 then (m, true)
    else
      var (m1, ok) := EndHit(host, m, c, drains, n - 1);
      var o := m1.ops[n - 1];
      if ok && o.Some? && !o.value.terminal && Hit(o.value, c) && (!o.value.admitted || !drains) then End(host, m1, n - 1, Invalidated, false)
      else (m1, ok)
  }

  function InvalidateLease(l: Option<Lease>, c: Change): Option<Lease> {
    if l.Some? && l.value.region == c.region && l.value.start <= c.end && c.start <= l.value.end then Some(l.value.(valid := false)) else l
  }

  function LeasesHit(m: Manager, c: Change): Manager {
    m.(leases := seq(|m.leases|, i requires 0 <= i < |m.leases| => InvalidateLease(m.leases[i], c)))
  }

  function Drains(m: Manager, c: Change): bool {
    c.region in m.regions && m.regions[c.region].drains
  }

  function Apply(host: Host, m: Manager, c: Change): (Manager, bool) {
    var (m1, ok) := EndHit(host, LeasesHit(m, c), c, Drains(m, c), |m.ops|);
    if ok then (Collect(m1), true) else (m1, false)
  }

  predicate LeaseValid(m: Manager, h: Handle) {
    h.slot < |m.leases| && m.leases[h.slot].Some? && m.leases[h.slot].value.handle == h && m.leases[h.slot].value.valid
  }

  // When the service of a new operation ends, by the manager's own resource or the external one.
  function Reserve(host: Host, m: Manager, o: Op, cost: nat): Option<nat> {
    var start := if m.free <= m.now then m.now else m.free;
    if m.bound then host.reserve(o.handle, m.now, cost)
    else if start + cost > MAX64 then None
    else Some(start + cost)
  }

  // An arrived operation is admitted, or ends at once.
  function AdmitOp(host: Host, m: Manager, i: nat): (Manager, bool)
    requires i < |m.ops| && m.ops[i].Some?
  {
    var o := m.ops[i].value;
    if !LeaseValid(m, o.lease) || o.region !in m.regions then End(host, m, i, Invalidated, false)
    else
      match host.service(o.region, o.write, o.count)
      case None => End(host, m, i, ServiceFailure, false)
      case Some(cost) =>
        match Reserve(host, m, o, cost)
        case None => End(host, m, i, ServiceFailure, false)
        case Some(finish) =>
          (Collect(m.(free := if m.bound then m.free else finish, ops := m.ops[i := Some(AdmittedOp(o, m.regions[o.region], finish))])), true)
  }

  // The operation pins the region's buffer until `finish`.
  function AdmittedOp(o: Op, r: Region, finish: nat): Op {
    o.(pin := Some(r.backing), offset := if r.start <= o.address then o.address - r.start else 0, finish := finish, admitted := true)
  }

  predicate InBounds(m: Manager, o: Op) {
    o.pin.Some? && o.pin.value < |m.buffers| && o.offset + o.count <= |m.buffers[o.pin.value]| && (o.write ==> |o.input| == o.count)
  }

  function Patch(b: seq<int>, offset: nat, data: seq<int>): seq<int>
    requires offset + |data| <= |b|
  {
    b[..offset] + data + b[offset + |data|..]
  }

  // A write reaches the buffer, or a read takes its bytes.
  function Transferred(m: Manager, i: nat): Manager
    requires i < |m.ops| && m.ops[i].Some? && InBounds(m, m.ops[i].value)
  {
    var o := m.ops[i].value;
    var b := m.buffers[o.pin.value];
    if o.write then
      Ended(m.(buffers := m.buffers[o.pin.value := Patch(b, o.offset, o.input)]), i, NoFailure, [],
            Some(Effect(o.pin.value, o.offset, o.input)), m.bound)
    else Ended(m, i, NoFailure, b[o.offset..o.offset + o.count], None, m.bound)
  }

  // The external resource has the last word on whether the operation still counts.
  function Transfer(host: Host, m: Manager, i: nat): (r: (Manager, bool))
    requires i < |m.ops| && m.ops[i].Some? && InBounds(m, m.ops[i].value)
    ensures |r.0.ops| == |m.ops|
  {
    var o := m.ops[i].value;
    var answer := if m.bound then host.complete(o.handle, m.now) else Wanted(true);
    if answer.Refused? then (m, false)
    else if !answer.still then End(host, m, i, Cancelled, true)
    else if !host.publish(o.handle, m.now) then (m, false)
    else (Transferred(m, i), host.disown(o.handle, m.now))
  }

  // An ended operation lets go of its buffer. One that failed and has not been settled with
  // the external resource is settled now.
  function Unpin(host: Host, m: Manager, i: nat): (Manager, bool)
    requires i < |m.ops|
  {
    if m.ops[i].None? then (m, true)
    else
      var o := m.ops[i].value;
      if m.bound && !o.settled && o.outcome.Some? && !o.outcome.value.failure.NoFailure? && host.complete(o.handle, m.now).Refused? then (m, false)
      else (Collect(m.(ops := m.ops[i := Some(o.(settled := true, pin := None, input := []))])), true)
  }

  // An admitted operation finishes; one that ended meanwhile only lets go of its buffer.
  function FinishOp(host: Host, m: Manager, i: nat): (Manager, bool)
    requires i < |m.ops| && m.ops[i].Some?
  {
    var o := m.ops[i].value;
    if o.terminal then Unpin(host, m, i)
    else if !InBounds(m, o) then (m, false)
    else
      var (m1, ok) := Transfer(host, m, i);
      if ok then Unpin(host, m1, i) else (m1, false)
  }

  // One turn of the loop, with what it left behind when it fails.
  function Process(host: Host, m0: Manager, k: Key): (Manager, bool) {
    var m := m0.(now := k.time, turn := k.sequence);
    if k.kind == 1 then
      if k.index < |m.changes| then
        Apply(host, m.(changes := m.changes[..k.index] + m.changes[k.index + 1..]), m.changes[k.index])
      else (m, false)
    else if k.index >= |m.ops| || m.ops[k.index].None? then (m, false)
    else if m.ops[k.index].value.admitted then FinishOp(host, m, k.index)
    else AdmitOp(host, m, k.index)
  }

  // --------------------------------------------------------------------------------
  // Termination: every turn brings some operation or change nearer to its end.

  function Left(o: Option<Op>): nat {
    if o.None? then 0 else if o.value.terminal then (if o.value.pin.Some? then 1 else 0) else if o.value.admitted then 2 else 3
  }

  function LeftOps(ops: seq<Option<Op>>): nat {
    if ops == [] then 0 else LeftOps(ops[..|ops| - 1]) + Left(ops[|ops| - 1])
  }

  function Measure(m: Manager): nat {
    LeftOps(m.ops) + |m.changes|
  }

  // --------------------------------------------------------------------------------
  // The other calls.

  datatype Request = Request(lease: Handle, write: bool, address: nat, count: nat, input: seq<int>, arrival: nat)

  predicate Acceptable(m: Manager, r: Request) {
    && LeaseValid(m, r.lease)
    && m.now <= r.arrival
    && r.count > 0
    && var l := m.leases[r.lease.slot].value;
       && l.start <= r.address && r.address + r.count - 1 <= l.end
       && |r.input| == (if r.write then r.count else 0)
  }

  // The first slot that is free and whose generation is not exhausted.
  function FreeSlot<T>(slots: seq<Option<T>>, generations: seq<nat>, k: nat): (r: Option<nat>)
    requires k <= |slots|
    ensures r.Some? ==> k <= r.value < |slots| && r.value < |generations| && slots[r.value].None? && generations[r.value] < MAX64
    ensures r.None? ==> forall i :: k <= i < |slots| && i < |generations| ==> slots[i].Some? || generations[i] >= MAX64
    decreases |slots| - k
  {
    if k == |slots| then None
    else if k < |generations| && slots[k].None? && generations[k] < MAX64 then Some(k)
    else FreeSlot(slots, generations, k + 1)
  }

  function Begin(m: Manager, r: Request): Manager {
    match FreeSlot(m.ops, m.generations, 0)
    case None => m
    case Some(i) =>
      if !Acceptable(m, r) || m.sequence >= MAX64 then m
      else
        var h := Handle(KAccess, m.domain, m.store, i, m.generations[i] + 1, r.lease.owner);
        var o := Op(h, r.lease, m.leases[r.lease.slot].value.region, r.write, r.address, r.count, r.input, r.arrival, m.sequence + 1,
                    false, false, false, false, None, 0, 0, None);
        m.(ops := m.ops[i := Some(o)], generations := m.generations[i := m.generations[i] + 1], sequence := m.sequence + 1)
  }

  // A lease on part of a region.
  function RequestLease(m: Manager, region: nat, start: nat, end: nat, owner: nat): Manager {
    if region !in m.regions || end < start || start < m.regions[region].start || end > m.regions[region].end then m
    else
      match FreeSlot(m.leases, m.leaseGenerations, 0)
      case None => m
      case Some(i) =>
        var h := Handle(KLease, m.domain, m.store, i, m.leaseGenerations[i] + 1, owner);
        m.(leases := m.leases[i := Some(Lease(h, region, start, end, true))],
           leaseGenerations := m.leaseGenerations[i := m.leaseGenerations[i] + 1])
  }

  // The host makes a buffer that regions can be backed by.
  function Allocate(m: Manager, data: seq<int>): Manager {
    m.(buffers := m.buffers + [data])
  }

  function AddRegion(m: Manager, id: nat, r: Region): Manager {
    if id in m.regions || r.end < r.start || r.version == 0 || r.backing >= |m.buffers| || |m.buffers[r.backing]| != r.end - r.start + 1 then m
    else m.(regions := m.regions[id := r])
  }

  // Only while no operation exists.
  function BindResource(m: Manager): Manager {
    if exists i :: 0 <= i < |m.ops| && m.ops[i].Some? then m else m.(bound := true)
  }

  function Find(m: Manager, h: Handle): Option<nat> {
    if h.slot < |m.ops| && m.ops[h.slot].Some? && m.ops[h.slot].value.handle == h then Some(h.slot) else None
  }

  function Cancel(host: Host, m: Manager, h: Handle, failure: Failure): Manager {
    if Find(m, h).None? || !(failure.Cancelled? || failure.WasReset?) then m else Collect(End(host, m, h.slot, failure, false).0)
  }

  // Ends every operation among the first `n` for which `which` holds.
  function EndSome(host: Host, m: Manager, failure: Failure, which: Op -> bool, n: nat): (r: (Manager, bool))
    requires n <= |m.ops|
    ensures |r.0.ops| == |m.ops| && r.0.leases == m.leases
  {
    if n == 0 then (m, true)
    else
      var (m1, ok) := EndSome(host, m, failure, which, n - 1);
      if ok && m1.ops[n - 1].Some? && which(m1.ops[n - 1].value) then End(host, m1, n - 1, failure, false) else (m1, ok)
  }

  function Unended(): Op -> bool {
    (o: Op) => !o.terminal
  }

  function UnderLease(h: Handle): Op -> bool {
    (o: Op) => o.lease == h && !o.admitted && !o.terminal
  }

  function LeasesShut(m: Manager): Manager {
    m.(leases := seq(|m.leases|, i requires 0 <= i < |m.leases| =>
      if m.leases[i].Some? then Some(m.leases[i].value.(valid := false)) else None))
  }

  function ResetAll(host: Host, m: Manager): Manager {
    var (m1, ok) := EndSome(host, LeasesShut(m), WasReset, Unended(), |m.ops|);
    if ok then Collect(m1) else m1
  }

  function ReleaseLease(host: Host, m: Manager, h: Handle): Manager {
    if h.slot >= |m.leases| || m.leases[h.slot].None? || m.leases[h.slot].value.handle != h then m
    else
      var (m1, ok) := EndSome(host, m, Invalidated, UnderLease(h), |m.ops|);
      if ok then Collect(m1.(leases := m1.leases[h.slot := None])) else m1
  }

  function ReleaseResult(m: Manager, h: Handle): Manager {
    if Find(m, h).None? then m else Collect(m.(ops := m.ops[h.slot := Some(m.ops[h.slot].value.(released := true))]))
  }

  function Invalidate(m: Manager, c: Change): Manager {
    if c.region !in m.regions || c.end < c.start || c.time < m.now || m.sequence >= MAX64 then m
    else m.(changes := m.changes + [c.(sequence := m.sequence + 1)], sequence := m.sequence + 1)
  }

  // The region gets another buffer of the same size; whoever pinned the old one keeps it.
  function ReplaceBacking(host: Host, m: Manager, region: nat, buffer: nat, version: nat): Manager {
    if region !in m.regions || m.regions[region].backing >= |m.buffers| || buffer >= |m.buffers|
       || |m.buffers[buffer]| != |m.buffers[m.regions[region].backing]| || version <= m.regions[region].version then m
    else
      var r := m.regions[region];
      var (m1, ok) := Apply(host, m, Change(region, r.start, r.end, 0, m.now));
      if ok then m1.(regions := m1.regions[region := r.(backing := buffer, version := version)]) else m1
  }
}
