// Whole runs of an engine with an accepted finite package.
module FiniteRuns {
  import opened Common
  import opened Wire
  import opened FiniteRules
  import opened FiniteEngine

  datatype Command =
    | DoCreate(connection: nat, transport: nat, transportGeneration: nat, owner: nat)
    | DoBind(h: Handle, connection: nat, transport: nat, transportGeneration: nat)
    | DoRetire(h: Handle)
    | DoDiscard(h: Handle)
    | DoBegin(h: Handle, c: WireCall)
    | DoEnd(t: Handle, r: WireReturn)
    | DoFail(t: Handle)

  function Step(p: Package, e: Engine, c: Command): Engine
    requires Usable(p) && TicketsReady(p, e)
  {
    match c
    case DoCreate(x, y, z, o) => CreateLedger(e, x, y, z, o).0
    case DoBind(h, x, y, z) => BindLedger(e, h, x, y, z).0
    case DoRetire(h) => RetireLedger(e, h).0
    case DoDiscard(h) => DiscardLedger(e, h).0
    case DoBegin(h, x) => BeginCall(p, e, h, x).0
    case DoEnd(t, r) => EndCall(p, e, t, r).0
    case DoFail(t) => FailCall(e, t).0
  }

  function Record(p: Package, e: Engine, g: Log, c: Command): Log
    requires Usable(p) && TicketsReady(p, e)
  {
    match c
    case DoCreate(x, y, z, o) => (match CreateLedger(e, x, y, z, o).1 case Ok(h) => Started(g, h) case Err(_) => g)
    case DoBind(h, x, y, z) => if BindLedger(e, h, x, y, z).1.Ok? then Started(g, h) else g
    case DoRetire(h) => if RetireLedger(e, h).1.Ok? then Ended(g, h) else g
    case DoDiscard(h) => if DiscardLedger(e, h).1.Ok? then Ended(g, h) else g
    case DoEnd(t, r) => RecordEnd(p, e, g, t, r)
    case _ => g
  }

  lemma CreateInv(p: Package, e: Engine, g: Log, x: nat, y: nat, z: nat, o: nat)
    requires Inv(p, e, g) && CreateLedger(e, x, y, z, o).1.Ok?
    ensures Inv(p, CreateLedger(e, x, y, z, o).0, Started(g, CreateLedger(e, x, y, z, o).1.value))
  {
    var (e', r) := CreateLedger(e, x, y, z, o);
    assert r.value in e.ledgers ==> NameOK(e, r.value, e.ledgers[r.value]);
    AddInv(p, e, g, r.value, x, y, e');
  }

  lemma StepInv(p: Package, e: Engine, g: Log, c: Command)
    requires Usable(p) && Inv(p, e, g) && TicketsReady(p, e)
    ensures Inv(p, Step(p, e, c), Record(p, e, g, c)) && TicketsReady(p, Step(p, e, c))
  {
    StepKeeps(p, e, g, c);
    Ready(p, Step(p, e, c), Record(p, e, g, c));
  }

  lemma StepKeeps(p: Package, e: Engine, g: Log, c: Command)
    requires Usable(p) && Inv(p, e, g) && TicketsReady(p, e)
    ensures Inv(p, Step(p, e, c), Record(p, e, g, c))
  {
    match c
    case DoBegin(h, x) => BeginInv(p, e, g, h, x);
    case DoEnd(t, r) => EndInv(p, e, g, t, r);
    case DoFail(t) =>
      if FailCall(e, t).1.Ok? {
        FaultInv(p, e, g, t, FailCall(e, t).0);
      }
    case DoCreate(x, y, z, o) =>
      if CreateLedger(e, x, y, z, o).1.Ok? {
        CreateInv(p, e, g, x, y, z, o);
      }
    case DoBind(h, x, y, z) => BindInv(p, e, g, h, x, y, z);
    case DoRetire(h) => RetireInv(p, e, g, h);
    case DoDiscard(h) => DiscardInv(p, e, g, h);
  }

  lemma BindInv(p: Package, e: Engine, g: Log, h: Handle, x: nat, y: nat, z: nat)
    requires Inv(p, e, g)
    ensures var (e', r) := BindLedger(e, h, x, y, z); Inv(p, e', if r.Ok? then Started(g, h) else g)
  {
    if BindLedger(e, h, x, y, z).1.Ok? {
      AddInv(p, e, g, h, x, y, BindLedger(e, h, x, y, z).0);
    }
  }

  lemma RetireInv(p: Package, e: Engine, g: Log, h: Handle)
    requires Inv(p, e, g)
    ensures var (e', r) := RetireLedger(e, h); Inv(p, e', if r.Ok? then Ended(g, h) else g)
  {
    if RetireLedger(e, h).1.Ok? {
      RemoveInv(p, e, g, h, RetireLedger(e, h).0);
    }
  }

  lemma DiscardInv(p: Package, e: Engine, g: Log, h: Handle)
    requires Inv(p, e, g)
    ensures var (e', r) := DiscardLedger(e, h); Inv(p, e', if r.Ok? then Ended(g, h) else g)
  {
    if DiscardLedger(e, h).1.Ok? {
      RemoveInv(p, e, g, h, DiscardLedger(e, h).0);
    }
  }

  // The invariant makes every step defined, so a run goes through all of its commands.
  ghost function Run(p: Package, e: Engine, g: Log, cs: seq<Command>): (r: (Engine, Log))
    requires Usable(p) && Inv(p, e, g)
    ensures Inv(p, r.0, r.1)
    decreases |cs|
  {
    if cs == [] then (e, g)
    else
      Ready(p, e, g);
      StepInv(p, e, g, cs[0]);
      Run(p, Step(p, e, cs[0]), Record(p, e, g, cs[0]), cs[1..])
  }

  lemma InitInv(p: Package, e: Engine)
    requires e.ledgers == map[] && e.tickets == map[] && e.lanes == map[]
    ensures Inv(p, e, NO_LOG)
  {
  }

  lemma AcceptedUsable(p: Package)
    requires PackageOK(p)
    ensures Usable(p)
  {
    AcceptedIsDeterministic(p);
  }

  // Whatever calls, returns and failures an accepted package sees: no lane is held by
  // more hops than its capacity, a lane is held only by an open hop of its connection,
  // a closed hop holds none, and milestones come at non-decreasing times.
  lemma FiniteProtocol(p: Package, domain: nat, store: nat, limits: Limits, cs: seq<Command>)
    requires PackageOK(p)
    ensures Usable(p) && Inv(p, NewEngine(domain, store, limits, {}, p.initial), NO_LOG)
    ensures var (e, g) := Run(p, NewEngine(domain, store, limits, {}, p.initial), NO_LOG, cs);
            && (forall key :: key in e.lanes ==> key.1 < |p.lanes| && |e.lanes[key]| <= p.lanes[key.1])
            && (forall key, h {:trigger Held(e.lanes, key, h)} :: Held(e.lanes, key, h) ==>
                  h in e.ledgers && e.ledgers[h].connection == key.0 && !e.ledgers[h].state.Terminal?)
            && (forall h :: h in e.ledgers && e.ledgers[h].state.Terminal? ==> e.ledgers[h].protocolState in p.terminal)
            && g.live.Keys == e.ledgers.Keys
            && (forall h :: h in e.ledgers ==> InTimeOrder(g.live[h]))
            && (forall i :: 0 <= i < |g.past| ==> InTimeOrder(g.past[i]))
  {
    AcceptedUsable(p);
    var e0 := NewEngine(domain, store, limits, {}, p.initial);
    InitInv(p, e0);
    var (e, g) := Run(p, e0, NO_LOG, cs);
    forall h | h in e.ledgers ensures InTimeOrder(g.live[h]) {
      assert TimesUpTo(g.live[h], e.ledgers[h].lastTiming);
    }
  }

  // --------------------------------------------------------------------------------
  // The order of the table does not matter.

  // The same engine up to the table position remembered by each ticket.
  ghost predicate Alike(e: Engine, e': Engine) {
    && e' == e.(tickets := e'.tickets)
    && e.tickets.Keys == e'.tickets.Keys
    && forall t :: t in e.tickets ==> e'.tickets[t] == e.tickets[t].(rule := e'.tickets[t].rule)
  }

  ghost predicate Reordered(p: Package, p': Package) {
    p' == p.(rules := p'.rules) && SameRules(p.rules, p'.rules)
  }

  lemma ReorderedUsable(p: Package, p': Package)
    requires Usable(p) && Reordered(p, p')
    ensures Usable(p')
  {
    forall a | a in p'.rules ensures a in p.rules {
    }
    forall i | 0 <= i < |p'.rules| ensures RuleOK(p', p'.rules[i]) {
      assert p'.rules[i] in p.rules;
      assert RuleOK(p, p'.rules[i]);
    }
  }

  lemma AdmitAlike(e: Engine, e': Engine, h: Handle, c: WireCall)
    requires Alike(e, e')
    ensures Admit(e, h, c) == Admit(e', h, c)
  {
    if ReverseCall(e, c) {
      var t :| t in e.tickets && e.tickets[t].call.connection == c.connection && e.tickets[t].call.flow != c.flow;
      assert t in e'.tickets && e'.tickets[t].call == e.tickets[t].call;
    }
    if ReverseCall(e', c) {
      var t :| t in e'.tickets && e'.tickets[t].call.connection == c.connection && e'.tickets[t].call.flow != c.flow;
      assert t in e.tickets && e'.tickets[t].call == e.tickets[t].call;
    }
    assert |e.tickets| == |e.tickets.Keys| == |e'.tickets.Keys| == |e'.tickets|;
  }

  // Plans agree up to the position of the rule.
  lemma PlanBeginAlike(p: Package, p': Package, e: Engine, e': Engine, h: Handle, c: WireCall)
    requires Usable(p) && Usable(p') && Deterministic(p.rules) && Reordered(p, p') && Alike(e, e')
    ensures match PlanBegin(p, e, h, c)
            case Err(x) => PlanBegin(p', e', h, c) == Err(x)
            case Ok(b) => PlanBegin(p', e', h, c).Ok? && PlanBegin(p', e', h, c).value == b.(rule := PlanBegin(p', e', h, c).value.rule)
  {
    AdmitAlike(e, e', h, c);
    if Admit(e, h, c).Ok? {
      OfferOrderFree(p.rules, p'.rules, e.ledgers[h].protocolState, c);
    }
  }

  lemma BegunAlike(e: Engine, e': Engine, h: Handle, c: WireCall, b: BeginPlan, b': BeginPlan)
    requires Alike(e, e') && h in e.ledgers && b' == b.(rule := b'.rule)
    ensures Alike(Begun(e, h, c, b), Begun(e', h, c, b'))
  {
  }

  lemma BeginAlike(p: Package, p': Package, e: Engine, e': Engine, h: Handle, c: WireCall)
    requires Usable(p) && Usable(p') && Deterministic(p.rules) && Reordered(p, p') && Alike(e, e')
    ensures Alike(BeginCall(p, e, h, c).0, BeginCall(p', e', h, c).0)
    ensures BeginCall(p, e, h, c).1 == BeginCall(p', e', h, c).1
  {
    PlanBeginAlike(p, p', e, e', h, c);
    var b, b' := PlanBegin(p, e, h, c), PlanBegin(p', e', h, c);
    if b.Ok? {
      BegunAlike(e, e', h, c, b.value, b'.value);
    }
  }

  lemma FaultAlike(e: Engine, e': Engine, t: Handle)
    requires Alike(e, e') && t in e.tickets && e.tickets[t].hop in e.ledgers
    ensures e'.tickets[t].hop in e'.ledgers && Alike(Fault(e, t), Fault(e', t))
  {
  }

  lemma PlanReturnAlike(p: Package, p': Package, pre: nat, lanes: Lanes, l: Ledger, q: Pending, q': Pending, r: WireReturn)
    requires Usable(p) && Usable(p') && Deterministic(p.rules) && Reordered(p, p') && q' == q.(rule := q'.rule)
    ensures PlanReturn(p, pre, lanes, l, q, r) == PlanReturn(p', pre, lanes, l, q', r)
  {
    AnswerOrderFree(p.rules, p'.rules, pre, q.call, r);
  }

  lemma PlanEndAlike(p: Package, p': Package, e: Engine, e': Engine, g: Log, t: Handle, r: WireReturn)
    requires Usable(p) && Usable(p') && Deterministic(p.rules) && Reordered(p, p') && Alike(e, e')
    requires CallsOK(p, e, g) && CallsOK(p', e', g) && TicketsReady(p, e) && TicketsReady(p', e')
    ensures PlanEnd(p, e, t, r) == PlanEnd(p', e', t, r)
  {
    if t in e.tickets {
      var q, q' := e.tickets[t], e'.tickets[t];
      assert CallOK(p, e, g, q) && CallOK(p', e', g, q');
      PlanReturnAlike(p, p', p.rules[q.rule].pre, e.lanes, e.ledgers[q.hop], q, q', r);
    }
  }

  lemma AnsweredAlike(e: Engine, e': Engine, t: Handle, r: WireReturn, a: EndPlan)
    requires Alike(e, e') && a.Accept? && t in e.tickets && e.tickets[t].hop in e.ledgers
    ensures e'.tickets[t].hop in e'.ledgers && Alike(Answered(e, t, r, a), Answered(e', t, r, a))
  {
  }

  lemma EndAlike(p: Package, p': Package, e: Engine, e': Engine, g: Log, t: Handle, r: WireReturn)
    requires Usable(p) && Usable(p') && Deterministic(p.rules) && Reordered(p, p') && Alike(e, e')
    requires CallsOK(p, e, g) && CallsOK(p', e', g) && TicketsReady(p, e) && TicketsReady(p', e')
    ensures Alike(EndCall(p, e, t, r).0, EndCall(p', e', t, r).0)
    ensures EndCall(p, e, t, r).1 == EndCall(p', e', t, r).1
  {
    PlanEndAlike(p, p', e, e', g, t, r);
    CarryAlike(e, e', t, r, PlanEnd(p, e, t, r));
  }

  lemma CarryAlike(e: Engine, e': Engine, t: Handle, r: WireReturn, a: EndPlan)
    requires Alike(e, e') && (a.Refuse? || (t in e.tickets && e.tickets[t].hop in e.ledgers))
    ensures a.Refuse? || (t in e'.tickets && e'.tickets[t].hop in e'.ledgers)
    ensures Alike(Carry(e, t, r, a).0, Carry(e', t, r, a).0) && Carry(e, t, r, a).1 == Carry(e', t, r, a).1
  {
    if a.Accept? {
      AnsweredAlike(e, e', t, r, a);
    } else if a.Blame? {
      FaultAlike(e, e', t);
    }
  }

  lemma CreateAlike(e: Engine, e': Engine, x: nat, y: nat, z: nat, o: nat)
    requires Alike(e, e')
    ensures Alike(CreateLedger(e, x, y, z, o).0, CreateLedger(e', x, y, z, o).0)
    ensures CreateLedger(e, x, y, z, o).1 == CreateLedger(e', x, y, z, o).1
  {
  }

  lemma BindAlike(e: Engine, e': Engine, h: Handle, x: nat, y: nat, z: nat)
    requires Alike(e, e')
    ensures Alike(BindLedger(e, h, x, y, z).0, BindLedger(e', h, x, y, z).0)
    ensures BindLedger(e, h, x, y, z).1 == BindLedger(e', h, x, y, z).1
  {
    assert e'.ledgers == e.ledgers && Bound(e, x, y) == Bound(e', x, y);
  }

  lemma DropAlike(e: Engine, e': Engine, h: Handle)
    requires Alike(e, e')
    ensures Alike(RetireLedger(e, h).0, RetireLedger(e', h).0) && RetireLedger(e, h).1 == RetireLedger(e', h).1
    ensures Alike(DiscardLedger(e, h).0, DiscardLedger(e', h).0) && DiscardLedger(e, h).1 == DiscardLedger(e', h).1
  {
  }

  lemma FailAlike(e: Engine, e': Engine, t: Handle)
    requires Alike(e, e') && (t in e.tickets ==> e.tickets[t].hop in e.ledgers)
    ensures t in e'.tickets ==> e'.tickets[t].hop in e'.ledgers
    ensures Alike(FailCall(e, t).0, FailCall(e', t).0)
  {
    if t in e.tickets {
      FaultAlike(e, e', t);
    }
  }

  lemma StepAlike(p: Package, p': Package, e: Engine, e': Engine, g: Log, c: Command)
    requires Usable(p) && Usable(p') && Deterministic(p.rules) && Reordered(p, p') && Alike(e, e')
    requires CallsOK(p, e, g) && CallsOK(p', e', g) && TicketsReady(p, e) && TicketsReady(p', e')
    ensures Alike(Step(p, e, c), Step(p', e', c)) && Record(p, e, g, c) == Record(p', e', g, c)
  {
    match c
    case DoBegin(h, x) => BeginAlike(p, p', e, e', h, x);
    case DoEnd(t, r) => EndAlike(p, p', e, e', g, t, r);
    case DoFail(t) => FailAlike(e, e', t);
    case DoCreate(x, y, z, o) => CreateAlike(e, e', x, y, z, o);
    case DoBind(h, x, y, z) => BindAlike(e, e', h, x, y, z);
    case DoRetire(h) => DropAlike(e, e', h);
    case DoDiscard(h) => DropAlike(e, e', h);
  }

  // Two packages that list the same rules in different orders drive the engine through
  // the same states and report the same milestones, whatever the run.
  lemma {:induction false} OrderFree(p: Package, p': Package, e: Engine, e': Engine, g: Log, cs: seq<Command>)
    requires Usable(p) && Usable(p') && Deterministic(p.rules) && Reordered(p, p') && Alike(e, e') && Inv(p, e, g) && Inv(p', e', g)
    ensures Alike(Run(p, e, g, cs).0, Run(p', e', g, cs).0) && Run(p, e, g, cs).1 == Run(p', e', g, cs).1
    decreases |cs|
  {
    if cs != [] {
      Ready(p, e, g);
      Ready(p', e', g);
      StepInv(p, e, g, cs[0]);
      StepInv(p', e', g, cs[0]);
      StepAlike(p, p', e, e', g, cs[0]);
      OrderFree(p, p', Step(p, e, cs[0]), Step(p', e', cs[0]), Record(p, e, g, cs[0]), cs[1..]);
    }
  }

  // In particular from a new engine with an accepted package, even though the reordered
  // table itself might not be accepted.
  lemma TableOrderIrrelevant(p: Package, p': Package, domain: nat, store: nat, limits: Limits, cs: seq<Command>)
    requires PackageOK(p) && Reordered(p, p')
    ensures Usable(p) && Usable(p')
    ensures var e := NewEngine(domain, store, limits, {}, p.initial); Inv(p, e, NO_LOG) && Inv(p', e, NO_LOG)
    ensures var e := NewEngine(domain, store, limits, {}, p.initial);
            Alike(Run(p, e, NO_LOG, cs).0, Run(p', e, NO_LOG, cs).0) && Run(p, e, NO_LOG, cs).1 == Run(p', e, NO_LOG, cs).1
  {
    AcceptedIsDeterministic(p);
    ReorderedUsable(p, p');
    var e := NewEngine(domain, store, limits, {}, p.initial);
    InitInv(p, e);
    InitInv(p', e);
    OrderFree(p, p', e, e, NO_LOG, cs);
  }
}
