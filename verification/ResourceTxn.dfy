// One transaction on a timed resource (stdlib/src/resource.cpp): what is left of the schedule
// when reservations are made, completed and withdrawn again before anything is published.
module ResourceTxn {
  import opened Common
  import opened Resource

  // A reservation of the transaction, by the ticket it was given.
  datatype Entry = Entry(slot: nat, generation: nat, owner: nat, booking: Booking)

  datatype Op =
    | DoReserve(owner: nat, earliest: nat, duration: nat)
    | DoComplete(slot: nat, generation: nat, owner: nat)
    | DoCancel(slot: nat, generation: nat, owner: nat)

  // The state the transaction has staged, and its reservations that were not withdrawn.
  datatype Staged = Staged(state: State, live: seq<Entry>)

  function Without(live: seq<Entry>, slot: nat, generation: nat): (r: seq<Entry>)
    ensures forall e :: e in r <==> e in live && !(e.slot == slot && e.generation == generation)
  {
    if live == [] then []
    else
      var last := |live| - 1;
      assert live == live[..last] + [live[last]];
      var rest := Without(live[..last], slot, generation);
      if live[last].slot == slot && live[last].generation == generation then rest else rest + [live[last]]
  }

  // All calls of a transaction happen at its time `now`.
  function Step(spec: Spec, committed: State, now: nat, t: Staged, op: Op): Staged
    requires t.state.channels != []
  {
    match op
    case DoReserve(owner, earliest, duration) =>
      var (s, r) := Reserving(spec, t.state, now, owner, earliest, duration);
      (match r
       case Err(_) => Staged(s, t.live)
       case Ok(g) => Staged(s, t.live + [Entry(g.slot, g.generation, owner, BookingOf(earliest, g))]))
    case DoComplete(slot, generation, owner) => t.(state := Completing(t.state, now, slot, generation, owner).0)
    case DoCancel(slot, generation, owner) =>
      var (s, r) := Cancelling(spec, committed, t.state, now, slot, generation, owner);
      Staged(s, if r == Ok(CancelledUnpublished) then Without(t.live, slot, generation) else t.live)
  }

  // --------------------------------------------------------------------------------
  // What holds throughout.

  ghost predicate InUse(s: State, e: Entry) {
    && Names(s.slots, e.slot, e.generation, e.owner) && s.slots[e.slot].used
    && s.slots[e.slot].start == e.booking.start && s.slots[e.slot].finish == e.booking.finish && s.slots[e.slot].channel == e.booking.channel
  }

  // Reserved and completed at one moment, which takes a reservation of no length.
  predicate Settled(now: nat, e: Entry) {
    e.booking.start == now && e.booking.finish == now
  }

  ghost predicate EntryOK(s: State, now: nat, e: Entry) {
    && e.booking.channel < |s.channels| && now <= e.booking.start <= e.booking.finish
    && e.slot < |s.slots| && e.generation <= s.slots[e.slot].generation
    && (InUse(s, e) || Settled(now, e))
  }

  // A reservation that starts from now on cannot get in the way of `b`.
  ghost predicate Behind(s: State, now: nat, b: Booking) {
    b.channel < |s.channels| && b.finish <= Max(now, s.channels[b.channel]) && b.start <= Max(now, s.lastStart)
  }

  ghost predicate Spaced(spec: Spec, s: State, b: Booking) {
    b.start + Spacing(spec) <= s.nextIssue
  }

  // The staged counters are not behind the committed ones.
  ghost predicate Ahead(c: State, s: State) {
    && |s.channels| == |c.channels| > 0 && |s.slots| == |c.slots| && c.nextIssue <= s.nextIssue && c.lastStart <= s.lastStart
    && forall k :: 0 <= k < |c.channels| ==> c.channels[k] <= s.channels[k]
  }

  // Without a pipeline the next issue is no later than the last start.
  ghost predicate Level(spec: Spec, s: State) {
    !spec.kind.Pipeline? ==> s.nextIssue <= s.lastStart
  }

  ghost predicate TxnOK(spec: Spec, c: State, now: nat, t: Staged) {
    && Ahead(c, t.state) && Level(spec, c) && Level(spec, t.state)
    && (forall i :: 0 <= i < |t.state.slots| && t.state.slots[i].used ==> t.state.slots[i].channel < |c.channels|)
    && (forall e :: e in t.live ==> EntryOK(t.state, now, e) && Behind(t.state, now, e.booking))
  }

  // --------------------------------------------------------------------------------
  // Counting anew.

  lemma {:induction false} RaisedExact(spec: Spec, c: Counters, slots: seq<Slot>, y: nat)
    requires forall i :: 0 <= i < |slots| && slots[i].used ==> slots[i].channel < |c.channels|
    ensures var r := RaisedBy(spec, c, slots);
            && (y <= r.nextIssue <==> y <= c.nextIssue || exists i :: 0 <= i < |slots| && slots[i].used && y <= slots[i].start + Spacing(spec))
            && (!spec.kind.Pipeline? && c.nextIssue <= c.lastStart ==> r.nextIssue <= r.lastStart)
            && c.lastStart <= r.lastStart && (forall i :: 0 <= i < |slots| && slots[i].used ==> slots[i].start <= r.lastStart)
            && (forall k :: 0 <= k < |c.channels| ==> c.channels[k] <= r.channels[k])
            && (forall i :: 0 <= i < |slots| && slots[i].used ==> slots[i].finish <= r.channels[slots[i].channel])
  {
    if slots != [] {
      var last := |slots| - 1;
      var rest := slots[..last];
      RaisedExact(spec, c, rest, y);
      assert forall i :: 0 <= i < last ==> rest[i] == slots[i];
      var before := RaisedBy(spec, c, rest);
      assert RaisedBy(spec, c, slots) == Raised(spec, before, slots[last]);
      if exists i :: 0 <= i < |slots| && slots[i].used && y <= slots[i].start + Spacing(spec) {
        var i :| 0 <= i < |slots| && slots[i].used && y <= slots[i].start + Spacing(spec);
        assert i < last ==> rest[i] == slots[i];
      }
    }
  }

  // --------------------------------------------------------------------------------
  // Reserving and completing.

  lemma ReserveOK(spec: Spec, c: State, now: nat, t: Staged, op: Op)
    requires TxnOK(spec, c, now, t) && op.DoReserve?
    ensures TxnOK(spec, c, now, Step(spec, c, now, t, op))
    ensures forall b :: Spaced(spec, t.state, b) ==> Spaced(spec, Step(spec, c, now, t, op).state, b)
  {
    var t' := Step(spec, c, now, t, op);
    var r := Reserving(spec, t.state, now, op.owner, op.earliest, op.duration).1;
    if r.Ok? {
      var g := r.value;
      forall e | e in t'.live ensures EntryOK(t'.state, now, e) && Behind(t'.state, now, e.booking) {
        if e in t.live {
          assert EntryOK(t.state, now, e) && Behind(t.state, now, e.booking);
        }
      }
    }
  }

  lemma CompleteOK(spec: Spec, c: State, now: nat, t: Staged, op: Op)
    requires TxnOK(spec, c, now, t) && op.DoComplete?
    ensures TxnOK(spec, c, now, Step(spec, c, now, t, op))
    ensures forall b :: Spaced(spec, t.state, b) ==> Spaced(spec, Step(spec, c, now, t, op).state, b)
  {
    var t' := Step(spec, c, now, t, op);
    forall e | e in t'.live ensures EntryOK(t'.state, now, e) && Behind(t'.state, now, e.booking) {
      assert EntryOK(t.state, now, e) && Behind(t.state, now, e.booking);
    }
  }

  // --------------------------------------------------------------------------------
  // Withdrawing.

  lemma WithdrawOK(spec: Spec, c: State, now: nat, t: Staged, slot: nat, generation: nat, owner: nat)
    requires TxnOK(spec, c, now, t) && Names(t.state.slots, slot, generation, owner)
    ensures TxnOK(spec, c, now, Staged(Withdrawn(spec, c, t.state, slot), Without(t.live, slot, generation)))
  {
    var s, s' := t.state, Withdrawn(spec, c, t.state, slot);
    RaisedExact(spec, Counters(c.nextIssue, c.lastStart, c.channels), s'.slots, c.nextIssue);
    forall e | e in Without(t.live, slot, generation) ensures EntryOK(s', now, e) && Behind(s', now, e.booking) {
      assert EntryOK(s, now, e) && Behind(s, now, e.booking);
      if InUse(s, e) {
        assert e.slot != slot;
        assert s'.slots[e.slot] == s.slots[e.slot];
      }
    }
  }

  // Someone reserved and completed at this very moment, and neither the committed counters
  // nor a reservation still in use remember it.
  ghost predicate Forgotten(spec: Spec, c: State, now: nat, t: Staged, slot: nat, generation: nat) {
    && (exists e :: e in t.live && !(e.slot == slot && e.generation == generation) && !InUse(t.state, e))
    && c.nextIssue < now + Spacing(spec)
    && forall i :: 0 <= i < |t.state.slots| && i != slot && t.state.slots[i].used ==> t.state.slots[i].start < now
  }

  // Exactly when withdrawing keeps every other reservation of the transaction at its distance
  // from later ones.
  lemma WithdrawSpaced(spec: Spec, c: State, now: nat, t: Staged, slot: nat, generation: nat, owner: nat)
    requires TxnOK(spec, c, now, t) && Names(t.state.slots, slot, generation, owner)
    ensures (forall e :: e in Without(t.live, slot, generation) ==> Spaced(spec, Withdrawn(spec, c, t.state, slot), e.booking))
            <==> !Forgotten(spec, c, now, t, slot, generation)
  {
    var s, s' := t.state, Withdrawn(spec, c, t.state, slot);
    forall e | e in Without(t.live, slot, generation)
      ensures !Spaced(spec, s', e.booking) ==> Forgotten(spec, c, now, t, slot, generation)
      ensures !InUse(s, e) && Forgotten(spec, c, now, t, slot, generation) ==> !Spaced(spec, s', e.booking)
    {
      RaisedExact(spec, Counters(c.nextIssue, c.lastStart, c.channels), s'.slots, e.booking.start + Spacing(spec));
      assert EntryOK(s, now, e);
      if InUse(s, e) {
        assert e.slot != slot;
        assert s'.slots[e.slot] == s.slots[e.slot];
      } else if !Spaced(spec, s', e.booking) {
        forall i | 0 <= i < |s.slots| && i != slot && s.slots[i].used ensures s.slots[i].start < now {
          assert s'.slots[i] == s.slots[i];
        }
      } else if e.booking.start + Spacing(spec) > c.nextIssue {
        var i :| 0 <= i < |s'.slots| && s'.slots[i].used && e.booking.start + Spacing(spec) <= s'.slots[i].start + Spacing(spec);
        assert i != slot && s.slots[i].used;
      }
    }
  }

  lemma CancelOK(spec: Spec, c: State, now: nat, t: Staged, op: Op)
    requires TxnOK(spec, c, now, t) && op.DoCancel?
    ensures TxnOK(spec, c, now, Step(spec, c, now, t, op))
  {
    var (s, r) := Cancelling(spec, c, t.state, now, op.slot, op.generation, op.owner);
    if r == Ok(CancelledUnpublished) {
      WithdrawOK(spec, c, now, t, op.slot, op.generation, op.owner);
    } else {
      forall e | e in t.live ensures EntryOK(s, now, e) && Behind(s, now, e.booking) {
        assert EntryOK(t.state, now, e) && Behind(t.state, now, e.booking);
      }
    }
  }

  // --------------------------------------------------------------------------------
  // Whole transactions.

  lemma StepOK(spec: Spec, c: State, now: nat, t: Staged, op: Op)
    requires TxnOK(spec, c, now, t)
    ensures TxnOK(spec, c, now, Step(spec, c, now, t, op))
  {
    match op
    case DoReserve(_, _, _) => ReserveOK(spec, c, now, t, op);
    case DoComplete(_, _, _) => CompleteOK(spec, c, now, t, op);
    case DoCancel(_, _, _) => CancelOK(spec, c, now, t, op);
  }

  ghost function Run(spec: Spec, c: State, now: nat, t: Staged, ops: seq<Op>): (u: Staged)
    requires TxnOK(spec, c, now, t)
    ensures TxnOK(spec, c, now, u)
    decreases |ops|
  {
    if ops == [] then t
    else
      StepOK(spec, c, now, t, ops[0]);
      Run(spec, c, now, Step(spec, c, now, t, ops[0]), ops[1..])
  }

  lemma SoundStart(spec: Spec, c: State, bs: seq<Booking>, now: nat)
    requires Sound(spec, c, bs)
    ensures TxnOK(spec, c, now, Staged(c, []))
  {
    forall i | 0 <= i < |c.slots| && c.slots[i].used ensures c.slots[i].channel < |c.channels| {
      assert Booked(c.slots[i], bs);
    }
  }

  // Whatever a transaction does to a sound resource, a reservation granted afterwards never
  // overlaps one of its reservations on a channel and never starts before one; and towards
  // everything granted before the transaction it keeps all the rules, distance included.
  lemma TransactionSafe(spec: Spec, c: State, bs: seq<Booking>, now: nat, ops: seq<Op>, owner: nat, earliest: nat, duration: nat)
    requires Sound(spec, c, bs)
    ensures TxnOK(spec, c, now, Staged(c, []))
    ensures var u := Run(spec, c, now, Staged(c, []), ops);
            var r := Reserving(spec, u.state, now, owner, earliest, duration).1;
            r.Ok? ==>
              && (forall e :: e in u.live ==>
                    e.booking.start <= r.value.start && (e.booking.channel == r.value.channel ==> e.booking.finish <= r.value.start))
              && (forall i :: 0 <= i < |bs| ==>
                    bs[i].start + Spacing(spec) <= r.value.start && (bs[i].channel == r.value.channel ==> bs[i].finish <= r.value.start))
  {
    SoundStart(spec, c, bs, now);
    var u := Run(spec, c, now, Staged(c, []), ops);
    var r := Reserving(spec, u.state, now, owner, earliest, duration).1;
    if r.Ok? {
      forall e | e in u.live
        ensures e.booking.start <= r.value.start && (e.booking.channel == r.value.channel ==> e.booking.finish <= r.value.start)
      {
        GrantBehind(spec, u.state, now, e.booking, owner, earliest, duration);
      }
      forall i | 0 <= i < |bs|
        ensures bs[i].start + Spacing(spec) <= r.value.start && (bs[i].channel == r.value.channel ==> bs[i].finish <= r.value.start)
      {
        GrantAfter(spec, c, bs, u.state, i, now, owner, earliest, duration);
      }
    }
  }

  lemma GrantBehind(spec: Spec, s: State, now: nat, b: Booking, owner: nat, earliest: nat, duration: nat)
    requires s.channels != [] && Behind(s, now, b)
    ensures var r := Reserving(spec, s, now, owner, earliest, duration).1;
            r.Ok? ==> b.start <= r.value.start && (b.channel == r.value.channel ==> b.finish <= r.value.start)
  {
  }

  lemma GrantAfter(spec: Spec, c: State, bs: seq<Booking>, s: State, i: nat, now: nat, owner: nat, earliest: nat, duration: nat)
    requires Sound(spec, c, bs) && Ahead(c, s) && i < |bs|
    ensures var r := Reserving(spec, s, now, owner, earliest, duration).1;
            r.Ok? ==> bs[i].start + Spacing(spec) <= r.value.start && (bs[i].channel == r.value.channel ==> bs[i].finish <= r.value.start)
  {
    assert FreeFrom(bs, bs[i].channel, c.channels[bs[i].channel]);
    assert i < |bs| - 1 ==> bs[i].start + Spacing(spec) <= bs[|bs| - 1].start;
  }

  // The distance between starts of a pipeline can be lost: reserve for no time and complete,
  // reserve again, take that back, and the next reservation starts together with the first.
  lemma SpacingLost(spec: Spec, c: State)
    requires spec == Spec(Pipeline, 1, 2, 5)
    requires c == State(0, 0, 0, [0], [Slot(false, 0, 0, 0, 0, 0, false), Slot(false, 0, 0, 0, 0, 0, false)])
    ensures TxnOK(spec, c, 0, Staged(c, []))
    ensures var t := Run(spec, c, 0, Staged(c, []), [DoReserve(0, 0, 0), DoComplete(0, 1, 0), DoReserve(0, 0, 1), DoCancel(0, 2, 0)]);
            && t.live == [Entry(0, 1, 0, Booking(0, 0, 0, 0))]
            && Reserving(spec, t.state, 0, 0, 0, 1).1 == Ok(Grant(0, 3, 0, 1, 0, 0))
  {
    var blank := Slot(false, 0, 0, 0, 0, 0, false);
    var t0 := Staged(c, []);
    var ops := [DoReserve(0, 0, 0), DoComplete(0, 1, 0), DoReserve(0, 0, 1), DoCancel(0, 2, 0)];
    var a, b := Entry(0, 1, 0, Booking(0, 0, 0, 0)), Entry(0, 2, 0, Booking(0, 5, 6, 0));
    var t1 := Staged(State(5, 0, 0, [0], [Slot(true, 1, 0, 0, 0, 0, false), blank]), [a]);
    var t2 := t1.(state := t1.state.(slots := [Slot(false, 1, 0, 0, 0, 0, false), blank]));
    var t3 := Staged(State(10, 5, 0, [6], [Slot(true, 2, 0, 5, 6, 0, false), blank]), [a, b]);
    assert Step(spec, c, 0, t0, ops[0]) == t1;
    assert Step(spec, c, 0, t1, ops[1]) == t2;
    assert Step(spec, c, 0, t2, ops[2]) == t3;
    var t4 := Staged(State(0, 0, 0, [0], [Slot(false, 2, 0, 5, 6, 0, true), blank]), [a]);
    LastStep(spec, c, t3, t4, a, b);
    StepOK(spec, c, 0, t0, ops[0]);
    StepOK(spec, c, 0, t1, ops[1]);
    StepOK(spec, c, 0, t2, ops[2]);
    StepOK(spec, c, 0, t3, ops[3]);
    assert ops[1..][0] == ops[1] && ops[1..][1..][0] == ops[2] && ops[1..][1..][1..][0] == ops[3] && ops[1..][1..][1..][1..] == [];
    assert Run(spec, c, 0, t0, ops) == Run(spec, c, 0, t1, ops[1..]) == Run(spec, c, 0, t2, ops[1..][1..])
        == Run(spec, c, 0, t3, ops[1..][1..][1..]) == t4;
  }

  lemma LastStep(spec: Spec, c: State, t3: Staged, t4: Staged, a: Entry, b: Entry)
    requires spec == Spec(Pipeline, 1, 2, 5)
    requires c == State(0, 0, 0, [0], [Slot(false, 0, 0, 0, 0, 0, false), Slot(false, 0, 0, 0, 0, 0, false)])
    requires a.slot == 0 && a.generation == 1 && b.slot == 0 && b.generation == 2
    requires t3 == Staged(State(10, 5, 0, [6], [Slot(true, 2, 0, 5, 6, 0, false), c.slots[1]]), [a, b])
    requires t4 == Staged(State(0, 0, 0, [0], [Slot(false, 2, 0, 5, 6, 0, true), c.slots[1]]), [a])
    ensures Step(spec, c, 0, t3, DoCancel(0, 2, 0)) == t4
  {
    var slots := t4.state.slots;
    var zero := Counters(0, 0, [0]);
    assert slots[..1] == [slots[0]] && slots[..1][..0] == [];
    assert RaisedBy(spec, zero, slots[..1]) == Raised(spec, RaisedBy(spec, zero, slots[..1][..0]), slots[0]) == zero;
    assert RaisedBy(spec, zero, slots) == Raised(spec, RaisedBy(spec, zero, slots[..1]), slots[1]) == zero;
    assert t3.state.slots[0 := t3.state.slots[0].(used := false, cancelled := true)] == slots;
    assert [a, b][..1] == [a] && [a][..0] == [];
    assert Without([a], 0, 2) == [a];
    assert Without([a, b], 0, 2) == [a];
  }
}
