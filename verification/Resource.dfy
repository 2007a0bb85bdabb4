// Timed resources (stdlib/src/resource.cpp): serial, multi-channel and pipelined resources
// that hand out reservations in arrival order.
module Resource {
  import opened Common

  datatype Kind = Serial | Multi | Pipeline

  datatype Spec = Spec(kind: Kind, capacity: nat, slots: nat, interval: nat)

  // A reservation as it was granted.
  datatype Booking = Booking(earliest: nat, start: nat, finish: nat, channel: nat)

  datatype Slot = Slot(used: bool, generation: nat, owner: nat, start: nat, finish: nat, channel: nat, cancelled: bool)

  datatype Error = TimeRegression | Capacity | Overflow | StaleHandle | NotReady | InvalidArgument | WrongOwner

  datatype Grant = Grant(slot: nat, generation: nat, start: nat, finish: nat, waited: nat, channel: nat)

  datatype CancelDisposition = AlreadySettled | AlreadyCancelled | CancellationDeferred | CancelledRetained | CancelledUnpublished

  // What the resource's cell holds.
  datatype State = State(nextIssue: nat, lastStart: nat, lastArrival: nat, channels: seq<nat>, slots: seq<Slot>)

  // --------------------------------------------------------------------------------
  // The schedule a sequence of reservations forms.

  predicate SpecOK(spec: Spec) {
    spec.capacity > 0 && spec.slots > 0 && (spec.kind.Serial? ==> spec.capacity == 1)
  }

  // Initiations of a pipeline keep their distance.
  function Spacing(spec: Spec): nat {
    if spec.kind.Pipeline? then spec.interval else 0
  }

  ghost predicate NoOverlap(bs: seq<Booking>) {
    forall i, j :: 0 <= i < j < |bs| && bs[i].channel == bs[j].channel ==> bs[i].finish <= bs[j].start
  }

  ghost predicate InOrder(spec: Spec, bs: seq<Booking>) {
    forall i, j :: 0 <= i < j < |bs| ==> bs[i].start + Spacing(spec) <= bs[j].start
  }

  ghost predicate InRange(spec: Spec, bs: seq<Booking>) {
    forall i :: 0 <= i < |bs| ==> bs[i].channel < spec.capacity && bs[i].earliest <= bs[i].start <= bs[i].finish
  }

  // A channel is free from tick `t` on.
  ghost predicate FreeFrom(bs: seq<Booking>, channel: nat, t: nat) {
    forall i :: 0 <= i < |bs| && bs[i].channel == channel ==> bs[i].finish <= t
  }

  // The rules allow a start at `t`: not before the caller asked, not before an earlier
  // reservation, far enough from it in a pipeline, and on some channel that is free.
  ghost predicate Allowed(spec: Spec, bs: seq<Booking>, earliest: nat, t: nat) {
    && earliest <= t
    && (forall i :: 0 <= i < |bs| ==> bs[i].start + Spacing(spec) <= t)
    && exists c :: 0 <= c < spec.capacity && FreeFrom(bs, c, t)
  }

  // The start is the least one the rules allow.
  ghost predicate Earliest(spec: Spec, bs: seq<Booking>, b: Booking) {
    Allowed(spec, bs, b.earliest, b.start) && forall t: nat :: Allowed(spec, bs, b.earliest, t) ==> b.start <= t
  }

  ghost predicate EachEarliest(spec: Spec, bs: seq<Booking>) {
    forall n :: 0 <= n < |bs| ==> Earliest(spec, bs[..n], bs[n])
  }

  ghost predicate Schedule(spec: Spec, bs: seq<Booking>) {
    InRange(spec, bs) && NoOverlap(bs) && InOrder(spec, bs) && EachEarliest(spec, bs)
  }

  // The counters agree with the reservations.
  ghost predicate Tracks(spec: Spec, bs: seq<Booking>, channels: seq<nat>, lastStart: nat, nextIssue: nat) {
    && |channels| == spec.capacity
    && (forall c :: 0 <= c < |channels| ==> FreeFrom(bs, c, channels[c]))
    && (forall c :: 0 <= c < |channels| ==> channels[c] == 0 || Busiest(bs, c, channels[c]))
    && (if bs == [] then lastStart == 0 && nextIssue == 0
        else lastStart == bs[|bs| - 1].start && nextIssue == lastStart + Spacing(spec))
  }

  ghost predicate Busiest(bs: seq<Booking>, c: nat, t: nat) {
    exists i :: 0 <= i < |bs| && bs[i].channel == c && bs[i].finish == t
  }

  // The start the implementation computes from its counters.
  function Start(spec: Spec, earliest: nat, lastStart: nat, nextIssue: nat, channel: nat): nat {
    var a := if earliest <= lastStart then lastStart else earliest;
    var b := if a <= channel then channel else a;
    if spec.kind.Pipeline? && b <= nextIssue then nextIssue else b
  }

  ghost predicate LeastChannel(channels: seq<nat>, c: nat) {
    c < |channels| && forall k :: 0 <= k < |channels| ==> channels[c] <= channels[k]
  }

  lemma StartIsEarliest(spec: Spec, bs: seq<Booking>, channels: seq<nat>, lastStart: nat, nextIssue: nat, earliest: nat, c: nat, b: Booking)
    requires Schedule(spec, bs) && Tracks(spec, bs, channels, lastStart, nextIssue) && LeastChannel(channels, c)
    requires b.earliest == earliest && b.channel == c && b.start == Start(spec, earliest, lastStart, nextIssue, channels[c])
    ensures Earliest(spec, bs, b)
  {
    assert FreeFrom(bs, c, b.start);
    forall t: nat | Allowed(spec, bs, earliest, t) ensures b.start <= t {
      var k :| 0 <= k < spec.capacity && FreeFrom(bs, k, t);
      assert channels[c] <= channels[k] <= t;
      if bs != [] {
        assert bs[|bs| - 1].start + Spacing(spec) <= t;
      }
    }
  }

  lemma ExtendSchedule(spec: Spec, bs: seq<Booking>, b: Booking)
    requires Schedule(spec, bs) && Earliest(spec, bs, b) && FreeFrom(bs, b.channel, b.start) && b.channel < spec.capacity && b.start <= b.finish
    ensures Schedule(spec, bs + [b])
  {
    var all := bs + [b];
    forall n | 0 <= n < |all| ensures Earliest(spec, all[..n], all[n]) {
      assert all[..n] == bs[..n];
      assert bs[..|bs|] == bs;
    }
  }

  lemma ExtendTracks(spec: Spec, bs: seq<Booking>, channels: seq<nat>, lastStart: nat, nextIssue: nat, b: Booking)
    requires Tracks(spec, bs, channels, lastStart, nextIssue) && b.channel < |channels|
    requires channels[b.channel] <= b.finish
    ensures Tracks(spec, bs + [b], channels[b.channel := b.finish], b.start, b.start + Spacing(spec))
  {
    var all, ch := bs + [b], channels[b.channel := b.finish];
    forall k | 0 <= k < |ch| ensures FreeFrom(all, k, ch[k]) && (ch[k] == 0 || Busiest(all, k, ch[k])) {
      assert FreeFrom(bs, k, channels[k]);
      if k == b.channel {
        assert all[|bs|] == b;
      } else if channels[k] != 0 {
        var i :| 0 <= i < |bs| && bs[i].channel == k && bs[i].finish == channels[k];
        assert all[i] == bs[i];
      }
    }
  }

  lemma Extend(spec: Spec, bs: seq<Booking>, channels: seq<nat>, lastStart: nat, nextIssue: nat, c: nat, b: Booking)
    requires Schedule(spec, bs) && Tracks(spec, bs, channels, lastStart, nextIssue) && LeastChannel(channels, c)
    requires b.channel == c && b.start == Start(spec, b.earliest, lastStart, nextIssue, channels[c]) && b.start <= b.finish
    ensures Schedule(spec, bs + [b])
    ensures Tracks(spec, bs + [b], channels[c := b.finish], b.start, b.start + Spacing(spec))
  {
    StartIsEarliest(spec, bs, channels, lastStart, nextIssue, b.earliest, c, b);
    assert FreeFrom(bs, c, channels[c]);
    ExtendSchedule(spec, bs, b);
    ExtendTracks(spec, bs, channels, lastStart, nextIssue, b);
  }

  // --------------------------------------------------------------------------------
  // What a schedule means at one moment.

  ghost function InService(bs: seq<Booking>, t: nat): set<nat> {
    set i: nat | i < |bs| && bs[i].start <= t < bs[i].finish
  }

  lemma {:induction false} OnePerChannel(bs: seq<Booking>, x: set<nat>, capacity: nat)
    requires forall i :: i in x ==> i < |bs| && bs[i].channel < capacity
    requires forall i, j :: i in x && j in x && bs[i].channel == bs[j].channel ==> i == j
    ensures |x| <= capacity
    decreases capacity
  {
    if capacity == 0 {
      assert x == {};
    } else if i :| i in x && bs[i].channel == capacity - 1 {
      OnePerChannel(bs, x - {i}, capacity - 1);
    } else {
      OnePerChannel(bs, x, capacity - 1);
    }
  }

  // At any tick at most as many reservations are in service as there are channels.
  lemma WithinCapacity(spec: Spec, bs: seq<Booking>, t: nat)
    requires Schedule(spec, bs)
    ensures |InService(bs, t)| <= spec.capacity
  {
    var x := InService(bs, t);
    forall i, j | i in x && j in x && bs[i].channel == bs[j].channel ensures i == j {
    }
    OnePerChannel(bs, x, spec.capacity);
  }

  // A slot in use stands for one of the reservations granted.
  ghost predicate Booked(s: Slot, bs: seq<Booking>) {
    exists n :: 0 <= n < |bs| && bs[n].start == s.start && bs[n].finish == s.finish && bs[n].channel == s.channel
  }

  ghost predicate SlotsBooked(slots: seq<Slot>, bs: seq<Booking>) {
    forall i :: 0 <= i < |slots| && slots[i].used ==> Booked(slots[i], bs)
  }

  lemma BookOne(slots: seq<Slot>, bs: seq<Booking>, b: Booking, i: nat, s: Slot)
    requires SlotsBooked(slots, bs) && i < |slots| && s.start == b.start && s.finish == b.finish && s.channel == b.channel
    ensures SlotsBooked(slots[i := s], bs + [b])
  {
    var all, after := bs + [b], slots[i := s];
    forall k | 0 <= k < |after| && after[k].used ensures Booked(after[k], all) {
      if k == i {
        assert all[|bs|] == b;
      } else {
        var n :| 0 <= n < |bs| && bs[n].start == slots[k].start && bs[n].finish == slots[k].finish && bs[n].channel == slots[k].channel;
        assert all[n] == bs[n];
      }
    }
  }

  // --------------------------------------------------------------------------------
  // The operations on the contents of the cell.

  // The first slot that is free and whose generation is not exhausted.
  function FindFree(slots: seq<Slot>, i: nat): (r: Option<nat>)
    requires i <= |slots|
    ensures r.Some? ==> i <= r.value < |slots| && !slots[r.value].used && slots[r.value].generation != MAX64
    ensures r.None? ==> forall k :: i <= k < |slots| ==> slots[k].used || slots[k].generation == MAX64
    decreases |slots| - i
  {
    if i == |slots| then None
    else if !slots[i].used && slots[i].generation != MAX64 then Some(i)
    else FindFree(slots, i + 1)
  }

  // The first of the channels that become free first, among the first `n`.
  function FirstLeast(channels: seq<nat>, n: nat): (c: nat)
    requires 0 < n <= |channels|
    ensures c < n && forall k :: 0 <= k < n ==> channels[c] <= channels[k]
  {
    if n == 1 then 0
    else
      var c := FirstLeast(channels, n - 1);
      if channels[n - 1] < channels[c] then n - 1 else c
  }

  // `now` is the arrival time of the calling transaction.
  function Reserving(spec: Spec, s: State, now: nat, owner: nat, earliest: nat, duration: nat): (State, Result<Grant, Error>)
    requires s.channels != []
  {
    if earliest < now || now < s.lastArrival then (s, Err(TimeRegression))
    else
      match FindFree(s.slots, 0)
      case None => (s, Err(Capacity))
      case Some(i) =>
        var c := FirstLeast(s.channels, |s.channels|);
        var start := Start(spec, earliest, s.lastStart, s.nextIssue, s.channels[c]);
        if start + duration > MAX64 || start + Spacing(spec) > MAX64 then (s, Err(Overflow))
        else
          var x := Slot(true, s.slots[i].generation + 1, owner, start, start + duration, c, false);
          (WithBooking(spec, s, now, i, x), Ok(Grant(i, x.generation, start, x.finish, start - earliest, c)))
  }

  // The state with a reservation written into slot `i`.
  function WithBooking(spec: Spec, s: State, now: nat, i: nat, x: Slot): State
    requires i < |s.slots| && x.channel < |s.channels|
  {
    State(x.start + Spacing(spec), x.start, now, s.channels[x.channel := x.finish], s.slots[i := x])
  }

  predicate Names(slots: seq<Slot>, slot: nat, generation: nat, owner: nat) {
    slot < |slots| && slots[slot].generation == generation && slots[slot].owner == owner
  }

  function Completing(s: State, now: nat, slot: nat, generation: nat, owner: nat): (State, Result<bool, Error>) {
    if !Names(s.slots, slot, generation, owner) then (s, Err(StaleHandle))
    else if !s.slots[slot].used then (s, Ok(false))
    else if now < s.slots[slot].finish then (s, Err(NotReady))
    else (s.(slots := s.slots[slot := s.slots[slot].(used := false)]), Ok(!s.slots[slot].cancelled))
  }

  // The reservation was there before the transaction began.
  predicate Published(committed: State, slot: nat, generation: nat, owner: nat) {
    Names(committed.slots, slot, generation, owner) && committed.slots[slot].used
  }

  datatype Counters = Counters(nextIssue: nat, lastStart: nat, channels: seq<nat>)

  function Max(a: nat, b: nat): nat {
    if a <= b then b else a
  }

  // One reservation in use counts towards the counters.
  function Raised(spec: Spec, c: Counters, x: Slot): (r: Counters)
    ensures |r.channels| == |c.channels|
  {
    if !x.used || x.channel >= |c.channels| then c
    else
      Counters(Max(c.nextIssue, x.start + Spacing(spec)), Max(c.lastStart, x.start),
               c.channels[x.channel := Max(c.channels[x.channel], x.finish)])
  }

  function RaisedBy(spec: Spec, c: Counters, slots: seq<Slot>): (r: Counters)
    ensures |r.channels| == |c.channels|
  {
    if slots == [] then c else Raised(spec, RaisedBy(spec, c, slots[..|slots| - 1]), slots[|slots| - 1])
  }

  // A reservation of the same transaction is withdrawn: the counters go back to the
  // committed ones, raised by the reservations still in use.
  function Withdrawn(spec: Spec, committed: State, s: State, slot: nat): State
    requires slot < |s.slots|
  {
    var slots := s.slots[slot := s.slots[slot].(used := false, cancelled := true)];
    var c := RaisedBy(spec, Counters(committed.nextIssue, committed.lastStart, committed.channels), slots);
    State(c.nextIssue, c.lastStart, s.lastArrival, c.channels, slots)
  }

  function Cancelling(spec: Spec, committed: State, s: State, now: nat, slot: nat, generation: nat, owner: nat): (State, Result<CancelDisposition, Error>) {
    if !Names(s.slots, slot, generation, owner) then (s, Err(StaleHandle))
    else if !s.slots[slot].used then (s, Ok(AlreadySettled))
    else if s.slots[slot].cancelled then (s, Ok(AlreadyCancelled))
    else if Published(committed, slot, generation, owner) then
      (s.(slots := s.slots[slot := s.slots[slot].(cancelled := true)]),
       Ok(if s.slots[slot].start <= now then CancellationDeferred else CancelledRetained))
    else if exists i :: 0 <= i < |s.slots| && i != slot && s.slots[i].used && s.slots[i].start + Spacing(spec) > MAX64 then (s, Err(Overflow))
    else (Withdrawn(spec, committed, s, slot), Ok(CancelledUnpublished))
  }

  // --------------------------------------------------------------------------------
  // The resource.

  // The contents of the cell stand for the reservations granted so far.
  ghost predicate Sound(spec: Spec, s: State, bs: seq<Booking>) {
    && SpecOK(spec)
    && |s.slots| == spec.slots
    && Schedule(spec, bs)
    && Tracks(spec, bs, s.channels, s.lastStart, s.nextIssue)
    && SlotsBooked(s.slots, bs)
  }

  // The reservation that a grant stands for.
  function BookingOf(earliest: nat, g: Grant): Booking {
    Booking(earliest, g.start, g.finish, g.channel)
  }

  lemma BookingSound(spec: Spec, s: State, bs: seq<Booking>, now: nat, i: nat, x: Slot, earliest: nat)
    requires Sound(spec, s, bs) && i < |s.slots| && LeastChannel(s.channels, x.channel) && x.start <= x.finish
    requires x.start == Start(spec, earliest, s.lastStart, s.nextIssue, s.channels[x.channel])
    ensures var b := Booking(earliest, x.start, x.finish, x.channel);
            Sound(spec, WithBooking(spec, s, now, i, x), bs + [b]) && Earliest(spec, bs, b)
  {
    var b := Booking(earliest, x.start, x.finish, x.channel);
    StartIsEarliest(spec, bs, s.channels, s.lastStart, s.nextIssue, earliest, x.channel, b);
    Extend(spec, bs, s.channels, s.lastStart, s.nextIssue, x.channel, b);
    BookOne(s.slots, bs, b, i, x);
  }

  // A grant extends the schedule by one reservation at the earliest allowed start; a refusal
  // changes nothing.
  lemma ReservingSound(spec: Spec, s: State, bs: seq<Booking>, now: nat, owner: nat, earliest: nat, duration: nat)
    requires Sound(spec, s, bs)
    ensures var (t, r) := Reserving(spec, s, now, owner, earliest, duration);
            if r.Err? then t == s
            else
              && Sound(spec, t, bs + [BookingOf(earliest, r.value)]) && Earliest(spec, bs, BookingOf(earliest, r.value))
              && r.value.finish == r.value.start + duration && r.value.waited == r.value.start - earliest
  {
    var (t, r) := Reserving(spec, s, now, owner, earliest, duration);
    if r.Ok? {
      BookingSound(spec, s, bs, now, r.value.slot, t.slots[r.value.slot], earliest);
    }
  }

  class Resource {
    const spec: Spec
    var nextIssue: nat
    var lastStart: nat
    var lastArrival: nat
    var channels: seq<nat>
    var slots: seq<Slot>
    ghost var granted: seq<Booking>

    ghost predicate Valid()
      reads this
    {
      Sound(spec, View(), granted)
    }

    constructor (spec: Spec)
      requires SpecOK(spec)
      ensures Valid() && granted == [] && this.spec == spec
    {
      this.spec := spec;
      nextIssue, lastStart, lastArrival := 0, 0, 0;
      channels := seq(spec.capacity, _ => 0);
      slots := seq(spec.slots, _ => Slot(false, 0, 0, 0, 0, 0, false));
      granted := [];
    }

    function View(): State
      reads this
    {
      State(nextIssue, lastStart, lastArrival, channels, slots)
    }

    method FreeSlot() returns (slot: nat)
      ensures slot == if FindFree(slots, 0).Some? then FindFree(slots, 0).value else |slots|
    {
      slot := 0;
      while slot < |slots| && (slots[slot].used || slots[slot].generation == MAX64)
        invariant slot <= |slots| && FindFree(slots, 0) == FindFree(slots, slot)
      {
        slot := slot + 1;
      }
    }

    // The channel that becomes free first.
    method FirstFree() returns (c: nat)
      requires |channels| > 0
      ensures c == FirstLeast(channels, |channels|)
    {
      c := 0;
      for i := 1 to |channels|
        invariant c == FirstLeast(channels, i)
      {
        if channels[i] < channels[c] {
          c := i;
        }
      }
    }

    // Does to the fields what the operation does to their value, refusals included. A grant
    // extends the schedule by one reservation at the earliest allowed start.
    method Reserve(now: nat, owner: nat, earliest: nat, duration: nat) returns (r: Result<Grant, Error>)
      requires Valid()
      modifies this
      ensures Valid()
      ensures (View(), r) == Reserving(spec, old(View()), now, owner, earliest, duration)
      ensures granted == if r.Ok? then old(granted) + [BookingOf(earliest, r.value)] else old(granted)
    {
      ReservingSound(spec, View(), granted, now, owner, earliest, duration);
      r := Update(now, owner, earliest, duration);
      if r.Ok? {
        granted := granted + [BookingOf(earliest, r.value)];
      }
    }

    method Update(now: nat, owner: nat, earliest: nat, duration: nat) returns (r: Result<Grant, Error>)
      requires channels != []
      modifies this`slots, this`channels, this`nextIssue, this`lastStart, this`lastArrival
      ensures (View(), r) == Reserving(spec, old(View()), now, owner, earliest, duration)
    {
      if earliest < now {
        return Err(TimeRegression);
      }
      if now < lastArrival {
        return Err(TimeRegression);
      }
      var slot := FreeSlot();
      if slot == |slots| {
        return Err(Capacity);
      }
      var c := FirstFree();
      var start := Start(spec, earliest, lastStart, nextIssue, channels[c]);
      var finish := start + duration;
      if finish > MAX64 {
        return Err(Overflow);
      }
      if start + Spacing(spec) > MAX64 {
        return Err(Overflow);
      }
      var generation := slots[slot].generation + 1;
      r := Ok(Grant(slot, generation, start, finish, start - earliest, c));
      slots := slots[slot := Slot(true, generation, owner, start, finish, c, false)];
      channels := channels[c := finish];
      nextIssue, lastStart, lastArrival := start + Spacing(spec), start, now;
    }

    // Completing frees the bookkeeping slot and never changes the schedule; it reports
    // whether the reservation had not been cancelled.
    method Complete(now: nat, slot: nat, generation: nat, owner: nat) returns (r: Result<bool, Error>)
      requires Valid()
      modifies this`slots
      ensures Valid()
      ensures (View(), r) == Completing(old(View()), now, slot, generation, owner)
    {
      if slot >= |slots| || slots[slot].generation != generation || slots[slot].owner != owner {
        return Err(StaleHandle);
      }
      if !slots[slot].used {
        return Ok(false);
      }
      if now < slots[slot].finish {
        return Err(NotReady);
      }
      var business := !slots[slot].cancelled;
      slots := slots[slot := slots[slot].(used := false)];
      return Ok(business);
    }

    // Cancelling a published reservation keeps its place in the schedule. One made in the
    // same transaction, since `committed`, is withdrawn and the counters are computed anew.
    method CancelPending(committed: State, now: nat, slot: nat, generation: nat, owner: nat) returns (r: Result<CancelDisposition, Error>)
      requires Valid()
      modifies this`slots, this`channels, this`nextIssue, this`lastStart
      ensures (View(), r) == Cancelling(spec, committed, old(View()), now, slot, generation, owner)
      ensures r != Ok(CancelledUnpublished) ==> Valid()
    {
      if slot >= |slots| || slots[slot].generation != generation || slots[slot].owner != owner {
        return Err(StaleHandle);
      }
      if !slots[slot].used {
        return Ok(AlreadySettled);
      }
      if slots[slot].cancelled {
        return Ok(AlreadyCancelled);
      }
      var deferred := slots[slot].start <= now;
      if Published(committed, slot, generation, owner) {
        slots := slots[slot := slots[slot].(cancelled := true)];
        return Ok(if deferred then CancellationDeferred else CancelledRetained);
      }
      var over := Overflows(slot);
      if over {
        return Err(Overflow);
      }
      slots := slots[slot := slots[slot].(used := false, cancelled := true)];
      Recount(Counters(committed.nextIssue, committed.lastStart, committed.channels));
      return Ok(CancelledUnpublished);
    }

    method Overflows(slot: nat) returns (over: bool)
      ensures over <==> exists i :: 0 <= i < |slots| && i != slot && slots[i].used && slots[i].start + Spacing(spec) > MAX64
    {
      for i := 0 to |slots|
        invariant forall k :: 0 <= k < i && k != slot && slots[k].used ==> slots[k].start + Spacing(spec) <= MAX64
      {
        if i != slot && slots[i].used && slots[i].start + Spacing(spec) > MAX64 {
          return true;
        }
      }
      return false;
    }

    // The loop over the records.
    method Recount(start: Counters)
      modifies this`channels, this`nextIssue, this`lastStart
      ensures Counters(nextIssue, lastStart, channels) == RaisedBy(spec, start, slots)
    {
      nextIssue, lastStart, channels := start.nextIssue, start.lastStart, start.channels;
      assert slots[..0] == [];
      for i := 0 to |slots|
        invariant Counters(nextIssue, lastStart, channels) == RaisedBy(spec, start, slots[..i])
      {
        assert slots[..i + 1][..i] == slots[..i];
        var x := slots[i];
        if x.used && x.channel < |channels| {
          channels := channels[x.channel := Max(channels[x.channel], x.finish)];
          lastStart := Max(lastStart, x.start);
          nextIssue := Max(nextIssue, x.start + Spacing(spec));
        }
      }
      assert slots[..|slots|] == slots;
    }
  }
}
