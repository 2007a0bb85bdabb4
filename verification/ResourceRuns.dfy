// A timed resource over many transactions (stdlib/src/resource.cpp), with reservations
// completed, cancelled and withdrawn, and transactions committed or given up.
module ResourceRuns {
  import opened Common
  import opened Resource
  import opened ResourceTxn

  // Reservations in the order in which they were granted: starts never decrease, and on one
  // channel each begins when the one before has finished.
  ghost predicate InTurn(bs: seq<Booking>) {
    forall i, j :: 0 <= i < j < |bs| ==> bs[i].start <= bs[j].start && (bs[i].channel == bs[j].channel ==> bs[i].finish <= bs[j].start)
  }

  ghost predicate AllBehind(s: State, bs: seq<Booking>) {
    forall i :: 0 <= i < |bs| ==> bs[i].earliest <= bs[i].start <= bs[i].finish && Behind(s, s.lastArrival, bs[i])
  }

  function Bookings(live: seq<Entry>): (r: seq<Booking>)
    ensures |r| == |live| && forall i :: 0 <= i < |live| ==> r[i] == live[i].booking
  {
    seq(|live|, i requires 0 <= i < |live| => live[i].booking)
  }

  // Between transactions.
  ghost predicate Steady(spec: Spec, c: State, bs: seq<Booking>) {
    && c.channels != [] && Level(spec, c) && (forall i :: 0 <= i < |c.slots| && c.slots[i].used ==> c.slots[i].channel < |c.channels|)
    && AllBehind(c, bs) && InTurn(bs)
  }

  // Within one: `bs` was granted before, `t.live` since.
  ghost predicate Going(spec: Spec, c: State, bs: seq<Booking>, now: nat, t: Staged) {
    && TxnOK(spec, c, now, t) && c.lastArrival <= t.state.lastArrival && (t.live != [] ==> t.state.lastArrival == now)
    && AllBehind(t.state, bs + Bookings(t.live)) && InTurn(bs + Bookings(t.live))
  }

  lemma Begins(spec: Spec, c: State, bs: seq<Booking>, now: nat)
    requires Steady(spec, c, bs)
    ensures Going(spec, c, bs, now, Staged(c, []))
  {
    assert bs + Bookings([]) == bs;
  }

  // --------------------------------------------------------------------------------
  // One call.

  lemma Granted(spec: Spec, s: State, bs: seq<Booking>, now: nat, owner: nat, earliest: nat, duration: nat)
    requires s.channels != [] && AllBehind(s, bs) && InTurn(bs) && Reserving(spec, s, now, owner, earliest, duration).1.Ok?
    ensures var (s', r) := Reserving(spec, s, now, owner, earliest, duration);
            s'.lastArrival == now && AllBehind(s', bs + [BookingOf(earliest, r.value)]) && InTurn(bs + [BookingOf(earliest, r.value)])
  {
    var (s', r) := Reserving(spec, s, now, owner, earliest, duration);
    var b := BookingOf(earliest, r.value);
    forall i | 0 <= i < |bs|
      ensures bs[i].start <= b.start && (bs[i].channel == b.channel ==> bs[i].finish <= b.start) && Behind(s', s'.lastArrival, bs[i])
    {
      assert Behind(s, s.lastArrival, bs[i]);
    }
  }

  lemma ReserveGoes(spec: Spec, c: State, bs: seq<Booking>, now: nat, t: Staged, op: Op)
    requires Going(spec, c, bs, now, t) && op.DoReserve?
    ensures Going(spec, c, bs, now, Step(spec, c, now, t, op))
  {
    ReserveOK(spec, c, now, t, op);
    var t' := Step(spec, c, now, t, op);
    var r := Reserving(spec, t.state, now, op.owner, op.earliest, op.duration).1;
    if r.Ok? {
      Granted(spec, t.state, bs + Bookings(t.live), now, op.owner, op.earliest, op.duration);
      assert bs + Bookings(t'.live) == bs + Bookings(t.live) + [BookingOf(op.earliest, r.value)];
    }
  }

  // Only slots changed.
  lemma SlotsGo(spec: Spec, c: State, bs: seq<Booking>, now: nat, t: Staged, t': Staged)
    requires Going(spec, c, bs, now, t) && TxnOK(spec, c, now, t') && t' == t.(state := t.state.(slots := t'.state.slots))
    ensures Going(spec, c, bs, now, t')
  {
    var all := bs + Bookings(t.live);
    forall i | 0 <= i < |all| ensures Behind(t'.state, t'.state.lastArrival, all[i]) {
      assert Behind(t.state, t.state.lastArrival, all[i]);
    }
  }

  lemma {:induction false} WithoutInTurn(bs: seq<Booking>, live: seq<Entry>, slot: nat, generation: nat)
    requires InTurn(bs + Bookings(live))
    ensures InTurn(bs + Bookings(Without(live, slot, generation)))
    ensures forall b :: b in Bookings(Without(live, slot, generation)) ==> b in Bookings(live)
    decreases |live|
  {
    if live != [] {
      var last := |live| - 1;
      var rest, x := live[..last], live[last];
      assert live == rest + [x];
      assert bs + Bookings(live) == bs + Bookings(rest) + [x.booking];
      InTurnPrefix(bs + Bookings(rest), x.booking);
      WithoutInTurn(bs, rest, slot, generation);
      var kept := Without(rest, slot, generation);
      if !(x.slot == slot && x.generation == generation) {
        assert bs + Bookings(kept + [x]) == bs + Bookings(kept) + [x.booking];
        InTurnLast(bs, Bookings(rest), Bookings(kept), x.booking);
      }
    }
  }

  lemma InTurnPrefix(bs: seq<Booking>, b: Booking)
    requires InTurn(bs + [b])
    ensures InTurn(bs) && forall k :: k in bs ==> Before(k, b)
  {
    var all := bs + [b];
    forall i, j | 0 <= i < j < |bs| ensures bs[i].start <= bs[j].start && (bs[i].channel == bs[j].channel ==> bs[i].finish <= bs[j].start) {
      assert all[i] == bs[i] && all[j] == bs[j];
    }
    forall k | k in bs ensures Before(k, b) {
      var i :| 0 <= i < |bs| && bs[i] == k;
      assert all[i] == k && all[|bs|] == b;
    }
  }

  ghost predicate Before(k: Booking, b: Booking) {
    k.start <= b.start && (k.channel == b.channel ==> k.finish <= b.start)
  }

  lemma InTurnLast(bs: seq<Booking>, rest: seq<Booking>, kept: seq<Booking>, b: Booking)
    requires InTurn(bs + kept) && (forall k :: k in kept ==> k in rest) && (forall k :: k in bs + rest ==> Before(k, b))
    ensures InTurn(bs + kept + [b])
  {
    var all := bs + kept;
    forall i | 0 <= i < |all| ensures Before(all[i], b) {
      assert all[i] in bs + rest;
    }
  }

  lemma CancelGoes(spec: Spec, c: State, bs: seq<Booking>, now: nat, t: Staged, op: Op)
    requires Going(spec, c, bs, now, t) && op.DoCancel? && AllBehind(c, bs)
    ensures Going(spec, c, bs, now, Step(spec, c, now, t, op))
  {
    CancelOK(spec, c, now, t, op);
    var t' := Step(spec, c, now, t, op);
    if Cancelling(spec, c, t.state, now, op.slot, op.generation, op.owner).1 == Ok(CancelledUnpublished) {
      WithoutInTurn(bs, t.live, op.slot, op.generation);
      WithdrawBehind(spec, c, bs, now, t, t');
    } else {
      SlotsGo(spec, c, bs, now, t, t');
    }
  }

  // What was granted before stays behind the committed counters, and those of the
  // transaction stay behind its own.
  lemma WithdrawBehind(spec: Spec, c: State, bs: seq<Booking>, now: nat, t: Staged, t': Staged)
    requires Going(spec, c, bs, now, t) && TxnOK(spec, c, now, t') && AllBehind(c, bs) && t'.state.lastArrival == t.state.lastArrival
    requires forall e :: e in t'.live ==> e in t.live
    requires forall b :: b in Bookings(t'.live) ==> b in Bookings(t.live)
    ensures AllBehind(t'.state, bs + Bookings(t'.live)) && (t'.live != [] ==> t'.state.lastArrival == now)
  {
    assert t'.live != [] ==> t'.live[0] in t.live;
    var all := bs + Bookings(t'.live);
    forall i | 0 <= i < |all|
      ensures all[i].earliest <= all[i].start <= all[i].finish && Behind(t'.state, t'.state.lastArrival, all[i])
    {
      if i < |bs| {
        assert all[i] == bs[i] && Behind(c, c.lastArrival, bs[i]);
      } else {
        var e := t'.live[i - |bs|];
        assert e in t'.live && all[i] == e.booking;
        assert all[i] in Bookings(t'.live);
        var j :| 0 <= j < |Bookings(t.live)| && Bookings(t.live)[j] == all[i];
        assert (bs + Bookings(t.live))[|bs| + j] == all[i];
      }
    }
  }

  lemma StepGoes(spec: Spec, c: State, bs: seq<Booking>, now: nat, t: Staged, op: Op)
    requires Going(spec, c, bs, now, t) && AllBehind(c, bs)
    ensures Going(spec, c, bs, now, Step(spec, c, now, t, op))
  {
    match op
    case DoReserve(_, _, _) => ReserveGoes(spec, c, bs, now, t, op);
    case DoComplete(_, _, _) =>
      CompleteOK(spec, c, now, t, op);
      SlotsGo(spec, c, bs, now, t, Step(spec, c, now, t, op));
    case DoCancel(_, _, _) => CancelGoes(spec, c, bs, now, t, op);
  }

  lemma {:induction false} RunGoes(spec: Spec, c: State, bs: seq<Booking>, now: nat, t: Staged, ops: seq<Op>)
    requires Going(spec, c, bs, now, t) && AllBehind(c, bs)
    ensures Going(spec, c, bs, now, Run(spec, c, now, t, ops))
    decreases |ops|
  {
    if ops != [] {
      StepGoes(spec, c, bs, now, t, ops[0]);
      RunGoes(spec, c, bs, now, Step(spec, c, now, t, ops[0]), ops[1..]);
    }
  }

  // --------------------------------------------------------------------------------
  // Transactions, one after the other.

  datatype Txn = Txn(now: nat, ops: seq<Op>, commits: bool)

  lemma Committed(spec: Spec, c: State, bs: seq<Booking>, x: Txn)
    requires Steady(spec, c, bs)
    ensures TxnOK(spec, c, x.now, Staged(c, []))
    ensures var t := Run(spec, c, x.now, Staged(c, []), x.ops); Steady(spec, t.state, bs + Bookings(t.live))
  {
    Begins(spec, c, bs, x.now);
    RunGoes(spec, c, bs, x.now, Staged(c, []), x.ops);
  }

  // The committed state and all reservations granted and not withdrawn, after each
  // transaction committed or was given up.
  ghost function RunAll(spec: Spec, c: State, bs: seq<Booking>, xs: seq<Txn>): (r: (State, seq<Booking>))
    requires Steady(spec, c, bs)
    ensures Steady(spec, r.0, r.1)
    decreases |xs|
  {
    if xs == [] then (c, bs)
    else
      Committed(spec, c, bs, xs[0]);
      var t := Run(spec, c, xs[0].now, Staged(c, []), xs[0].ops);
      if xs[0].commits then RunAll(spec, t.state, bs + Bookings(t.live), xs[1..]) else RunAll(spec, c, bs, xs[1..])
  }

  function NewState(spec: Spec): State {
    State(0, 0, 0, seq(spec.capacity, _ => 0), seq(spec.slots, _ => Slot(false, 0, 0, 0, 0, 0, false)))
  }

  // Whatever transactions do, withdrawals and completions included: reservations on one
  // channel never overlap, starts never decrease, and at no tick are more reservations in
  // service than there are channels.
  lemma ManyTransactions(spec: Spec, xs: seq<Txn>, tick: nat)
    requires SpecOK(spec)
    ensures Steady(spec, NewState(spec), [])
    ensures var bs := RunAll(spec, NewState(spec), [], xs).1;
            InTurn(bs) && NoOverlap(bs) && |InService(bs, tick)| <= |RunAll(spec, NewState(spec), [], xs).0.channels|
    ensures |RunAll(spec, NewState(spec), [], xs).0.channels| == spec.capacity
  {
    var c := NewState(spec);
    SameChannels(spec, c, [], xs);
    var (s, bs) := RunAll(spec, c, [], xs);
    var x := InService(bs, tick);
    forall i | i in x ensures bs[i].channel < |s.channels| {
      assert Behind(s, s.lastArrival, bs[i]);
    }
    OnePerChannel(bs, x, |s.channels|);
  }

  lemma {:induction false} SameChannels(spec: Spec, c: State, bs: seq<Booking>, xs: seq<Txn>)
    requires Steady(spec, c, bs)
    ensures |RunAll(spec, c, bs, xs).0.channels| == |c.channels|
    decreases |xs|
  {
    if xs != [] {
      Committed(spec, c, bs, xs[0]);
      var t := Run(spec, c, xs[0].now, Staged(c, []), xs[0].ops);
      if xs[0].commits {
        SameChannels(spec, t.state, bs + Bookings(t.live), xs[1..]);
      } else {
        SameChannels(spec, c, bs, xs[1..]);
      }
    }
  }
}
