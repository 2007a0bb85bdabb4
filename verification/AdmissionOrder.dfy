// Responses of an in-order admission store leave in request order (runtime/src/admission.cpp).
module AdmissionOrder {
  import opened Common
  import opened Admission
  import opened AdmissionRuns

  // Hops keep their place, and new ones come last.
  ghost predicate HopsAge(s: Store, t: Store) {
    && t.order == s.order && s.sequence <= t.sequence
    && forall h {:trigger t.hops[h]} :: h in t.hops ==>
         || s.sequence <= t.hops[h].sequence < t.sequence
         || (h in s.hops && Ages(s.hops[h], t.hops[h]))
  }

  ghost predicate Ages(x: Hop, y: Hop) {
    y.connection == x.connection && y.sequence == x.sequence && (x.wireTerminal ==> y.wireTerminal)
  }

  lemma SameHopsAge(s: Store, t: Store)
    requires t.hops == s.hops && t.order == s.order && s.sequence <= t.sequence
    ensures HopsAge(s, t)
  {
  }

  lemma OneHopAges(s: Store, t: Store, h: Handle)
    requires h in t.hops && t.hops == s.hops[h := t.hops[h]] && t.order == s.order && s.sequence <= t.sequence
    requires s.sequence <= t.hops[h].sequence < t.sequence || (h in s.hops && Ages(s.hops[h], t.hops[h]))
    ensures HopsAge(s, t)
  {
  }

  lemma InitiatorAges(s: Store, c: nat, x: nat, g: nat, o: nat, i: nat)
    ensures HopsAge(s, CreateInitiator(s, c, x, g, o, i).0)
  {
    var (t, r) := CreateInitiator(s, c, x, g, o, i);
    if r.Ok? {
      OneHopAges(s, t, r.value);
    } else {
      SameHopsAge(s, t);
    }
  }

  lemma AdmitAges(s: Store, c: nat, x: nat, g: nat, o: nat, i: nat, d: bool, free: bool)
    ensures HopsAge(s, Admit(s, c, x, g, o, i, d, free).0)
  {
    AdmitShape(s, c, x, g, o, i, d, free);
    var (t, r) := Admit(s, c, x, g, o, i, d, free);
    if r.Ok? {
      OneHopAges(s, t, r.value);
    } else {
      SameHopsAge(s, t);
    }
  }

  lemma CreateHopAges(s: Store, h: Handle, c: nat, x: nat, g: nat)
    ensures HopsAge(s, CreateHop(s, h, c, x, g).0)
  {
    var (t, r) := CreateHop(s, h, c, x, g);
    if r.Ok? {
      OneHopAges(s, t, r.value);
    } else {
      SameHopsAge(s, t);
    }
  }

  lemma PromoteAges(s: Store, c: nat)
    ensures HopsAge(s, Promote(s, c).0)
  {
    var (t, r) := Promote(s, c);
    if r.Ok? && r.value.Some? {
      OneHopAges(s, t, r.value.value);
    } else {
      SameHopsAge(s, t);
    }
  }

  lemma EndAges(s: Store, c: Command)
    requires c.DoWireTerminal? || c.DoSemanticTerminal? || c.DoSync? || c.DoQueue?
    ensures HopsAge(s, Step(s, c))
  {
    if c.h in s.hops {
      OneHopAges(s, Step(s, c), c.h);
    } else {
      SameHopsAge(s, Step(s, c));
    }
  }

  lemma ResponseAges(s: Store, c: Command)
    requires c.DoCancelPermit? || c.DoResponseSent? || c.DoRetire?
    ensures HopsAge(s, Step(s, c))
  {
  }

  lemma AskAges(s: Store, t: Handle, c: nat)
    ensures match AskGate(s, t, c)
            case Err((s1, _)) => s1.order == s.order && s.sequence <= s1.sequence
            case Ok((s1, _)) => s1.order == s.order && s.sequence <= s1.sequence
  {
  }

  lemma LaneAges(s: Store, c: nat, free: bool, ready: ReadyKey)
    ensures UpdateLane(s, c, free, ready).0.order == s.order && UpdateLane(s, c, free, ready).0.sequence == s.sequence
  {
  }

  lemma RequestAges(s: Store, t: Handle, c: nat, ready: ReadyKey)
    ensures var u := RequestGate(s, t, c, ready).0; u.order == s.order && s.sequence <= u.sequence
  {
    AskAges(s, t, c);
    if AskGate(s, t, c).Ok? {
      var s1 := AskGate(s, t, c).value.0;
      LaneAges(s1, c, c !in s1.busy, ready);
    }
  }

  lemma CancelAges(s: Store, h: Handle, permit: bool, ready: ReadyKey)
    ensures var u := CancelGate(s, h, permit, ready).0; u.order == s.order && s.sequence <= u.sequence
  {
    if h in s.gates {
      LaneAges(Dropped(s, h), s.gates[h].connection, s.gates[h].connection !in s.busy, ready);
    }
  }

  lemma GateAges(s: Store, c: Command)
    requires IsGateCommand(c)
    ensures HopsAge(s, Step(s, c))
  {
    GateCommandServices(s, c);
    match c {
      case DoLane(k, free, ready) => LaneAges(s, k, free, ready);
      case DoRequest(t, k, ready) => RequestAges(s, t, k, ready);
      case DoCancelGate(h, permit, ready) => CancelAges(s, h, permit, ready);
      case DoConsume(_) =>
      case DoSent(_) =>
      case DoRetireTicket(_) =>
    }
    SameHopsAge(s, Step(s, c));
  }

  lemma ArrivalAges(s: Store, c: Command)
    requires c.DoCreateInitiator? || c.DoAdmit? || c.DoPromote? || c.DoCreateHop?
    ensures HopsAge(s, Step(s, c))
  {
    match c
    case DoCreateInitiator(k, x, g, o, i) => InitiatorAges(s, k, x, g, o, i);
    case DoAdmit(k, x, g, o, i, d, free) => AdmitAges(s, k, x, g, o, i, d, free);
    case DoPromote(k) => PromoteAges(s, k);
    case DoCreateHop(h, k, x, g) => CreateHopAges(s, h, k, x, g);
  }

  lemma SelectAges(s: Store, c: Command)
    requires c.DoSelect?
    ensures HopsAge(s, Step(s, c))
  {
    SelectShape(s, c.c, c.free);
    SameHopsAge(s, Step(s, c));
  }

  lemma StepAges(s: Store, c: Command)
    ensures HopsAge(s, Step(s, c))
  {
    if IsGateCommand(c) {
      GateAges(s, c);
    } else if c.DoCreateInitiator? || c.DoAdmit? || c.DoPromote? || c.DoCreateHop? {
      ArrivalAges(s, c);
    } else if c.DoSelect? {
      SelectAges(s, c);
    } else if c.DoCancelPermit? || c.DoResponseSent? || c.DoRetire? {
      ResponseAges(s, c);
    } else {
      EndAges(s, c);
    }
  }

  // The response permit a call hands out: the connection and the place of the hop in the
  // order of arrival.
  ghost function Permit(s: Store, c: Command): seq<Turn> {
    match c
    case DoSelect(k, free) =>
      (match (SelectResponse(s, k, free).1, Choice(s.(revision := s.revision + 1), k))
       case (Ok(Some(_)), Some(h)) => [Turn(k, s.hops[h].sequence)]
       case _ => [])
    case _ => []
  }

  // Permits of a connection follow the order of arrival, and no hop still on the wire
  // arrived before one of them.
  ghost predicate PermitsOK(s: Store, permits: seq<Turn>) {
    && (forall m, n :: 0 <= m < n < |permits| && permits[m].connection == permits[n].connection ==> permits[m].sequence <= permits[n].sequence)
    && (forall m :: 0 <= m < |permits| ==> permits[m].sequence < s.sequence)
    && (forall m, h :: 0 <= m < |permits| && OnWire(s.hops, permits[m].connection, h) ==> permits[m].sequence <= s.hops[h].sequence)
    && (forall h :: h in s.hops ==> s.hops[h].sequence < s.sequence)
  }

  lemma AgedPermits(s: Store, t: Store, permits: seq<Turn>)
    requires PermitsOK(s, permits) && HopsAge(s, t)
    ensures PermitsOK(t, permits)
  {
    forall m, h | 0 <= m < |permits| && OnWire(t.hops, permits[m].connection, h) ensures permits[m].sequence <= t.hops[h].sequence {
      if t.hops[h].sequence < s.sequence {
        assert OnWire(s.hops, permits[m].connection, h);
      }
    }
  }

  lemma PermitNext(s: Store, c: nat, permits: seq<Turn>)
    requires PermitsOK(s, permits) && s.order.InOrder? && Choice(s, c).Some?
    ensures PermitsOK(s, permits + [Turn(c, s.hops[Choice(s, c).value].sequence)])
  {
    ChoiceRight(s, c);
    var h := Choice(s, c).value;
    assert FirstOpen(s, c) == Some(h);
  }

  lemma SelectPermits(s: Store, k: nat, free: bool, permits: seq<Turn>)
    requires PermitsOK(s, permits) && s.order.InOrder?
    ensures PermitsOK(s, permits + Permit(s, DoSelect(k, free)))
  {
    assert permits + [] == permits;
    if Permit(s, DoSelect(k, free)) != [] {
      var s1 := s.(revision := s.revision + 1);
      SameHopsAge(s, s1);
      AgedPermits(s, s1, permits);
      PermitNext(s1, k, permits);
      SameHopsAge(s1, s);
      AgedPermits(s1, s, permits + Permit(s, DoSelect(k, free)));
    }
  }

  lemma StepPermits(s: Store, c: Command, permits: seq<Turn>)
    requires PermitsOK(s, permits) && s.order.InOrder?
    ensures PermitsOK(Step(s, c), permits + Permit(s, c)) && Step(s, c).order.InOrder?
  {
    assert permits + [] == permits;
    StepAges(s, c);
    if c.DoSelect? {
      SelectPermits(s, c.c, c.free, permits);
    }
    AgedPermits(s, Step(s, c), permits + Permit(s, c));
  }

  ghost function PermitsOf(s: Store, cs: seq<Command>): seq<Turn>
    decreases |cs|
  {
    if cs == [] then [] else Permit(s, cs[0]) + PermitsOf(Step(s, cs[0]), cs[1..])
  }

  lemma Associate(a: seq<Turn>, b: seq<Turn>, c: seq<Turn>)
    ensures a + b + c == a + (b + c)
  {
  }

  lemma {:induction false} RunPermits(s: Store, turns: seq<Turn>, cs: seq<Command>, permits: seq<Turn>)
    requires PermitsOK(s, permits) && s.order.InOrder?
    ensures PermitsOK(Run(s, turns, cs).0, permits + PermitsOf(s, cs))
    decreases |cs|
  {
    if cs == [] {
      assert permits + [] == permits;
    } else {
      StepPermits(s, cs[0], permits);
      RunPermits(Step(s, cs[0]), Record(s, turns, cs[0]), cs[1..], permits + Permit(s, cs[0]));
      Associate(permits, Permit(s, cs[0]), PermitsOf(Step(s, cs[0]), cs[1..]));
    }
  }

  // Over every run of an in-order store the responses of a connection are permitted in the
  // order in which their hops arrived.
  lemma RespondInOrder(domain: nat, store: nat, limits: Limits, cs: seq<Command>, m: nat, n: nat)
    ensures var permits := PermitsOf(NewStore(domain, store, limits, InOrder), cs);
            m < n < |permits| && permits[m].connection == permits[n].connection ==> permits[m].sequence <= permits[n].sequence
  {
    var s := NewStore(domain, store, limits, InOrder);
    RunPermits(s, [], cs, []);
    assert [] + PermitsOf(s, cs) == PermitsOf(s, cs);
  }

  // --------------------------------------------------------------------------------
  // The turns of a run are the grants it makes.

  ghost predicate NewlyGranted(s: Store, t: Store, g: Handle) {
    g in t.gates && t.gates[g].state.Granted? && !(g in s.gates && s.gates[g].state.Granted?)
  }

  // At most one ticket was granted, and it is the one recorded.
  ghost predicate Exactly(s: Store, t: Store, turns: seq<Turn>) {
    && (forall g :: NewlyGranted(s, t, g) ==> turns == [Turn(t.gates[g].connection, t.gates[g].sequence)])
    && (turns != [] ==> exists g :: NewlyGranted(s, t, g))
  }

  lemma LaneRecords(s: Store, c: nat, free: bool, ready: ReadyKey)
    ensures Exactly(s, UpdateLane(s, c, free, ready).0, LaneTurns(s, c, free))
  {
    var t := UpdateLane(s, c, free, ready).0;
    if s.revision <= LAST_REVISION {
      SameLook(s, s.(revision := s.revision + 1, busy := if free then s.busy - {c} else s.busy + {c}), c);
      if LaneTurns(s, c, free) != [] {
        assert NewlyGranted(s, t, LookAt(s, c).next.value);
      }
    }
  }

  // Before the look at the lane nobody was granted anything.
  lemma SameRecords(s: Store, s1: Store, t: Store, turns: seq<Turn>)
    requires Exactly(s1, t, turns)
    requires forall g :: NewlyGranted(s, t, g) <==> NewlyGranted(s1, t, g)
    ensures Exactly(s, t, turns)
  {
    if turns != [] {
      var g :| NewlyGranted(s1, t, g);
      assert NewlyGranted(s, t, g);
    }
  }

  lemma RequestRecords(s: Store, x: Handle, c: nat, ready: ReadyKey, turns: seq<Turn>)
    requires GatesOK(s, turns)
    ensures Recorded(s, DoRequest(x, c, ready), turns)
  {
    AskOK(s, x, c, turns);
    if AskGate(s, x, c).Ok? {
      var s1 := AskGate(s, x, c).value.0;
      var free := c !in s1.busy;
      AskedRecords(s, s1, AskGate(s, x, c).value.1, c, free, ready);
      assert (turns + LaneTurns(s1, c, free))[|turns|..] == LaneTurns(s1, c, free);
    }
  }

  lemma AskedRecords(s: Store, s1: Store, g: Handle, c: nat, free: bool, ready: ReadyKey)
    requires g !in s.gates && g in s1.gates && s1.gates == s.gates[g := s1.gates[g]] && s1.gates[g].state.GatePending?
    ensures Exactly(s, UpdateLane(s1, c, free, ready).0, LaneTurns(s1, c, free))
  {
    LaneRecords(s1, c, free, ready);
    SameRecords(s, s1, UpdateLane(s1, c, free, ready).0, LaneTurns(s1, c, free));
  }

  lemma CancelRecords(s: Store, h: Handle, permit: bool, ready: ReadyKey, turns: seq<Turn>)
    ensures Recorded(s, DoCancelGate(h, permit, ready), turns)
  {
    if Cancels(s, h, permit) {
      var s1, c := Dropped(s, h), s.gates[h].connection;
      var free := c !in s.busy;
      LaneRecords(s1, c, free, ready);
      SameRecords(s, s1, CancelGate(s, h, permit, ready).0, LaneTurns(s1, c, free));
      assert (turns + LaneTurns(s1, c, free))[|turns|..] == LaneTurns(s1, c, free);
    }
  }

  // The call recorded exactly the tickets it granted.
  ghost predicate Recorded(s: Store, c: Command, turns: seq<Turn>) {
    turns <= Record(s, turns, c) && Exactly(s, Step(s, c), Record(s, turns, c)[|turns|..])
  }

  lemma QuietRecords(s: Store, c: Command, turns: seq<Turn>)
    requires c.DoConsume? || c.DoSent? || c.DoRetireTicket?
    ensures Recorded(s, c, turns)
  {
  }

  lemma LaneStepRecords(s: Store, c: Command, turns: seq<Turn>)
    requires c.DoLane?
    ensures Recorded(s, c, turns)
  {
    LaneRecords(s, c.c, c.free, c.ready);
    assert (turns + LaneTurns(s, c.c, c.free))[|turns|..] == LaneTurns(s, c.c, c.free);
  }

  lemma HopRecords(s: Store, c: Command, turns: seq<Turn>)
    requires !IsGateCommand(c)
    ensures Recorded(s, c, turns)
  {
    HopCommandGates(s, c);
  }

  // A step grants a ticket exactly when it records a turn, and the turn is that ticket's.
  lemma StepRecords(s: Store, c: Command, turns: seq<Turn>)
    requires GatesOK(s, turns)
    ensures Recorded(s, c, turns)
  {
    if !IsGateCommand(c) {
      HopRecords(s, c, turns);
    } else if c.DoLane? {
      LaneStepRecords(s, c, turns);
    } else if c.DoRequest? {
      RequestRecords(s, c.t, c.c, c.ready, turns);
    } else if c.DoCancelGate? {
      CancelRecords(s, c.h, c.permit, c.ready, turns);
    } else {
      QuietRecords(s, c, turns);
    }
  }
}
