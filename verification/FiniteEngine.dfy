// The engine with a finite protocol package installed (runtime/src/protocol.cpp and
// runtime/src/protocol_finite.cpp): calls and returns run the actions of the chosen rule.
module FiniteEngine {
  import opened Common
  import opened Wire
  import opened FiniteRules

  type Lanes = map<(nat, nat), set<Handle>>

  // What the actions of a rule work on.
  datatype Track = Track(state: WireState, lanes: Lanes, milestones: seq<Milestone>)

  function Owners(lanes: Lanes, key: (nat, nat)): set<Handle> {
    if key in lanes then lanes[key] else {}
  }

  predicate Held(lanes: Lanes, key: (nat, nat), h: Handle) {
    h in Owners(lanes, key)
  }

  function Act(caps: seq<nat>, a: Action, h: Handle, c: WireCall, r: Option<WireReturn>, time: nat, k: Track): Result<Track, Error>
    requires UsesLane(a) ==> a.lane < |caps|
  {
    var key := (c.connection, a.lane);
    match a.kind
    case OpenHop => Ok(k.(state := Request))
    case AcquireLane =>
      var owners := Owners(k.lanes, key);
      if h in owners || |owners| >= caps[a.lane] then Err(ProtocolViolation)
      else Ok(k.(lanes := k.lanes[key := owners + {h}]))
    case ReleaseLane =>
      if !Held(k.lanes, key, h) then Err(ProtocolViolation)
      else
        var left := k.lanes[key] - {h};
        Ok(k.(lanes := if left == {} then k.lanes - {key} else k.lanes[key := left]))
    case MarkReleased =>
      Ok(k.(milestones := k.milestones + [Milestone(KReleased, time, r.Some?, None)], state := RequestReleased))
    case MarkReady =>
      if r.Some? && r.value.sync.Accepted? then Err(ProtocolViolation)
      else
        var response := if r.Some? then r.value.response else Some(ResponseSnapshot(c.status, c.length));
        if response.None? || response.value.status.Incomplete? then Err(ProtocolViolation)
        else Ok(k.(milestones := k.milestones + [Milestone(KReady, time, r.Some?, response)], state := Response))
    case CloseHop =>
      Ok(k.(milestones := k.milestones + [Milestone(KTerminal, time, false, None)], state := Terminal))
    case TraceTag => Ok(k)
  }

  function ActAll(caps: seq<nat>, actions: seq<Action>, h: Handle, c: WireCall, r: Option<WireReturn>, time: nat, k: Track): Result<Track, Error>
    requires LanesBound(caps, actions)
  {
    if actions == [] then Ok(k)
    else
      match ActAll(caps, actions[..|actions| - 1], h, c, r, time, k)
      case Err(e) => Err(e)
      case Ok(k') => Act(caps, actions[|actions| - 1], h, c, r, time, k')
  }

  predicate Leaks(lanes: Lanes, connection: nat, h: Handle) {
    exists key | key in lanes :: key.0 == connection && h in lanes[key]
  }

  function RunActions(caps: seq<nat>, actions: seq<Action>, h: Handle, c: WireCall, r: Option<WireReturn>, time: nat, k: Track): Result<Track, Error>
    requires LanesBound(caps, actions)
  {
    match ActAll(caps, actions, h, c, r, time, k)
    case Err(e) => Err(e)
    case Ok(k') =>
      if Closes(actions) && (!k'.state.Terminal? || Leaks(k'.lanes, c.connection, h)) then Err(ProtocolViolation) else Ok(k')
  }

  // The action loop, updating state, lanes and milestones step by step.
  method FiniteActions(caps: seq<nat>, actions: seq<Action>, h: Handle, c: WireCall, r: Option<WireReturn>, time: nat, start: Track)
    returns (out: Result<Track, Error>)
    requires LanesBound(caps, actions)
    ensures out == RunActions(caps, actions, h, c, r, time, start)
  {
    var k, close := start, false;
    for i := 0 to |actions|
      invariant ActAll(caps, actions[..i], h, c, r, time, start) == Ok(k)
      invariant close <==> Closes(actions[..i])
    {
      assert actions[..i + 1][..i] == actions[..i];
      var step := Act(caps, actions[i], h, c, r, time, k);
      if step.Err? {
        ErrSticks(caps, actions, i + 1, h, c, r, time, start);
        return Err(step.error);
      }
      k := step.value;
      ClosesAppend(actions, i);
      if actions[i].kind.CloseHop? {
        close := true;
      }
    }
    assert actions[..|actions|] == actions;
    if close && !k.state.Terminal? {
      return Err(ProtocolViolation);
    }
    if close && Leaks(k.lanes, c.connection, h) {
      return Err(ProtocolViolation);
    }
    return Ok(k);
  }

  lemma ClosesAppend(actions: seq<Action>, i: nat)
    requires i < |actions|
    ensures Closes(actions[..i + 1]) <==> Closes(actions[..i]) || actions[i].kind.CloseHop?
  {
    var a, b := actions[..i], actions[..i + 1];
    if j :| 0 <= j < |a| && a[j].kind.CloseHop? {
      assert b[j].kind.CloseHop?;
    }
    if actions[i].kind.CloseHop? {
      assert b[i].kind.CloseHop?;
    }
    if j :| 0 <= j < |b| && b[j].kind.CloseHop? {
      assert j < i ==> a[j].kind.CloseHop?;
    }
  }

  lemma {:induction false} ErrSticks(caps: seq<nat>, actions: seq<Action>, n: nat, h: Handle, c: WireCall, r: Option<WireReturn>,
                                     time: nat, k: Track)
    requires n <= |actions| && LanesBound(caps, actions) && ActAll(caps, actions[..n], h, c, r, time, k).Err?
    ensures ActAll(caps, actions, h, c, r, time, k) == ActAll(caps, actions[..n], h, c, r, time, k)
    decreases |actions| - n
  {
    if n == |actions| {
      assert actions[..n] == actions;
    } else {
      assert actions[..n + 1][..n] == actions[..n];
      ErrSticks(caps, actions, n + 1, h, c, r, time, k);
    }
  }

  // --------------------------------------------------------------------------------
  // Calls and returns.

  predicate EntryBlocked(p: Package, lanes: Lanes, entry: seq<nat>, connection: nat, h: Handle)
    requires forall i :: 0 <= i < |entry| ==> entry[i] < |p.lanes|
  {
    exists i :: 0 <= i < |entry| && (connection, entry[i]) in lanes
      && (|lanes[(connection, entry[i])]| >= p.lanes[entry[i]] || h in lanes[(connection, entry[i])])
  }

  // What the engine needs of its table.
  ghost predicate Usable(p: Package) {
    && (forall a :: a in p.rules ==> GuardOK(a.guard, 8) && GuardOK(a.callGuard, 8))
    && (forall i :: 0 <= i < |p.rules| ==> RuleOK(p, p.rules[i]))
  }

  // What an admitted call will do: its time, its rule, and the effect of the rule's actions.
  datatype BeginPlan = BeginPlan(input: nat, rule: nat, track: Track)

  function PlanBegin(p: Package, e: Engine, h: Handle, c: WireCall): Result<BeginPlan, Error>
    requires Usable(p)
  {
    match Admit(e, h, c)
    case Err(x) => Err(x)
    case Ok(input) =>
      var l := e.ledgers[h];
      match FindOffer(p.rules, 0, l.protocolState, c)
      case None => Err(ProtocolViolation)
      case Some(i) =>
        var rule := p.rules[i];
        if EntryBlocked(p, e.lanes, rule.entryLanes, c.connection, h) then Err(ProtocolViolation)
        else
          match RunActions(p.lanes, rule.callActions, h, c, None, input, Track(l.state, e.lanes, []))
          case Err(x) => Err(x)
          case Ok(k) => if e.generation == MAX64 then Err(Overflow) else Ok(BeginPlan(input, i, k))
  }

  function Begun(e: Engine, h: Handle, c: WireCall, b: BeginPlan): Engine
    requires h in e.ledgers
  {
    var l := e.ledgers[h];
    OpenCall(e, h, l.(state := b.track.state, lastTiming := b.input),
             Pending(h, c, l.state, b.input, false, false, b.rule, b.track.milestones)).(lanes := b.track.lanes)
  }

  function BeginCall(p: Package, e: Engine, h: Handle, c: WireCall): (Engine, Result<Handle, Error>)
    requires Usable(p)
  {
    match PlanBegin(p, e, h, c)
    case Err(x) => (e, Err(x))
    case Ok(b) => (Begun(e, h, c, b), Ok(Ticket(e, h)))
  }

  // The rule chosen when the call began still exists.
  ghost predicate TicketsReady(p: Package, e: Engine) {
    forall t :: t in e.tickets ==> e.tickets[t].hop in e.ledgers && e.tickets[t].rule < |p.rules|
  }

  // A return is refused without effect, blamed on the caller, or accepted.
  datatype EndPlan = Refuse(error: Error) | Blame(error: Error) | Accept(time: nat, rule: Rule, track: Track)

  // The judgement of a return, from the ledger and the call alone.
  function PlanReturn(p: Package, pre: nat, lanes: Lanes, l: Ledger, q: Pending, r: WireReturn): EndPlan
    requires Usable(p)
  {
    if l.faulted then Refuse(InvalidState)
    else if r.sync.Unknown? then Blame(ProtocolViolation)
    else
      match ReturnTime(l, q, r)
      case Err(x) => Blame(x)
      case Ok(time) =>
        match FindAnswer(p.rules, pre, q.call, r)
        case None => Blame(ProtocolViolation)
        case Some(rule) =>
          match RunActions(p.lanes, rule.returnActions, q.hop, q.call, Some(r), time, Track(l.state, lanes, q.draft))
          case Err(x) => Blame(x)
          case Ok(k) => Accept(time, rule, k)
  }

  function PlanEnd(p: Package, e: Engine, t: Handle, r: WireReturn): EndPlan
    requires Usable(p) && TicketsReady(p, e)
  {
    if t !in e.tickets then Refuse(StaleHandle)
    else
      var q := e.tickets[t];
      PlanReturn(p, p.rules[q.rule].pre, e.lanes, e.ledgers[q.hop], q, r)
  }

  function Settle(l: Ledger, r: WireReturn, a: EndPlan): Ledger
    requires a.Accept?
  {
    l.(state := a.track.state, protocolState := a.rule.post, lastTiming := if r.sync.Accepted? then l.lastTiming else a.time)
  }

  function Answered(e: Engine, t: Handle, r: WireReturn, a: EndPlan): Engine
    requires a.Accept? && t in e.tickets && e.tickets[t].hop in e.ledgers
  {
    var h := e.tickets[t].hop;
    CloseCall(e, t, h, Settle(e.ledgers[h], r, a)).(lanes := a.track.lanes)
  }

  function Carry(e: Engine, t: Handle, r: WireReturn, a: EndPlan): (Engine, Result<Exchange, Error>)
    requires a.Refuse? || (t in e.tickets && e.tickets[t].hop in e.ledgers)
  {
    match a
    case Refuse(x) => (e, Err(x))
    case Blame(x) => (Fault(e, t), Err(x))
    case Accept(_, _, k) => (Answered(e, t, r, a), Ok(Exchange(e.tickets[t].hop, k.state, k.milestones, false)))
  }

  function EndCall(p: Package, e: Engine, t: Handle, r: WireReturn): (Engine, Result<Exchange, Error>)
    requires Usable(p) && TicketsReady(p, e)
  {
    Carry(e, t, r, PlanEnd(p, e, t, r))
  }

  // --------------------------------------------------------------------------------
  // What actions do to lanes.

  ghost predicate WithinCapacity(caps: seq<nat>, lanes: Lanes) {
    forall key :: key in lanes ==> key.1 < |caps| && |lanes[key]| <= caps[key.1]
  }

  // Only `h` gained or lost anything, and only on its connection.
  ghost predicate OnlyFor(h: Handle, connection: nat, lanes: Lanes, lanes': Lanes) {
    forall key, x {:trigger Held(lanes', key, x)} :: Held(lanes', key, x) ==> Held(lanes, key, x) || (x == h && key.0 == connection)
  }

  lemma ActLanes(caps: seq<nat>, a: Action, h: Handle, c: WireCall, r: Option<WireReturn>, time: nat, k: Track)
    requires (UsesLane(a) ==> a.lane < |caps|) && WithinCapacity(caps, k.lanes)
    requires Act(caps, a, h, c, r, time, k).Ok?
    ensures var k' := Act(caps, a, h, c, r, time, k).value;
            WithinCapacity(caps, k'.lanes) && OnlyFor(h, c.connection, k.lanes, k'.lanes)
  {
    var k' := Act(caps, a, h, c, r, time, k).value;
    var key := (c.connection, a.lane);
    if a.kind.ReleaseLane? {
      assert k.lanes[key] == (k.lanes[key] - {h}) + {h};
    }
  }

  lemma {:induction false} ActAllLanes(caps: seq<nat>, actions: seq<Action>, h: Handle, c: WireCall, r: Option<WireReturn>,
                                       time: nat, k: Track)
    requires LanesBound(caps, actions) && WithinCapacity(caps, k.lanes)
    requires ActAll(caps, actions, h, c, r, time, k).Ok?
    ensures var k' := ActAll(caps, actions, h, c, r, time, k).value;
            WithinCapacity(caps, k'.lanes) && OnlyFor(h, c.connection, k.lanes, k'.lanes)
  {
    if actions != [] {
      var last := |actions| - 1;
      ActAllLanes(caps, actions[..last], h, c, r, time, k);
      var k1 := ActAll(caps, actions[..last], h, c, r, time, k).value;
      ActLanes(caps, actions[last], h, c, r, time, k1);
      var k2 := ActAll(caps, actions, h, c, r, time, k).value;
      forall key, x | Held(k2.lanes, key, x) ensures Held(k.lanes, key, x) || (x == h && key.0 == c.connection) {
        assert Held(k1.lanes, key, x) || (x == h && key.0 == c.connection);
      }
    }
  }

  // Milestones are added in order, at the time of the exchange.
  lemma {:induction false} ActAllTimes(caps: seq<nat>, actions: seq<Action>, h: Handle, c: WireCall, r: Option<WireReturn>,
                                       time: nat, k: Track, past: seq<Milestone>)
    requires LanesBound(caps, actions) && ActAll(caps, actions, h, c, r, time, k).Ok?
    requires TimesUpTo(past + k.milestones, time)
    ensures TimesUpTo(past + ActAll(caps, actions, h, c, r, time, k).value.milestones, time)
  {
    if actions != [] {
      var last := |actions| - 1;
      ActAllTimes(caps, actions[..last], h, c, r, time, k, past);
      var k1, k2 := ActAll(caps, actions[..last], h, c, r, time, k).value, ActAll(caps, actions, h, c, r, time, k).value;
      if |k2.milestones| > |k1.milestones| {
        var m := k2.milestones[|k1.milestones|];
        assert past + k2.milestones == (past + k1.milestones) + [m] && m.time == time;
      }
    }
  }

  // Only closing the hop leads to the terminal state.
  lemma {:induction false} ActAllTerminal(caps: seq<nat>, actions: seq<Action>, h: Handle, c: WireCall, r: Option<WireReturn>,
                                          time: nat, k: Track)
    requires LanesBound(caps, actions) && ActAll(caps, actions, h, c, r, time, k).Ok?
    requires !Closes(actions) && !k.state.Terminal?
    ensures !ActAll(caps, actions, h, c, r, time, k).value.state.Terminal?
  {
    if actions != [] {
      var last := |actions| - 1;
      assert actions[..last + 1] == actions;
      ClosesAppend(actions, last);
      ActAllTerminal(caps, actions[..last], h, c, r, time, k);
    }
  }

  // --------------------------------------------------------------------------------
  // The invariant.

  // Lanes are held by hops that are open and have made a call on that connection.
  ghost predicate Owned(e: Engine) {
    forall key, h {:trigger Held(e.lanes, key, h)} :: Held(e.lanes, key, h) ==>
      h in e.ledgers && e.ledgers[h].connection == key.0 && !e.ledgers[h].state.Terminal? && e.ledgers[h].ordinal > 0
  }

  // A closed hop rests in a terminal state of the table.
  ghost predicate ClosedOK(p: Package, e: Engine) {
    forall h :: h in e.ledgers && e.ledgers[h].state.Terminal? ==> e.ledgers[h].protocolState in p.terminal && !e.ledgers[h].pending
  }

  ghost predicate CallOK(p: Package, e: Engine, g: Log, q: Pending) {
    && q.hop in e.ledgers && q.hop in g.live && q.rule < |p.rules| && !q.ignored
    && p.rules[q.rule].pre == e.ledgers[q.hop].protocolState
    && p.rules[q.rule].flow == q.call.flow && p.rules[q.rule].phase == q.call.phase
    && TimesUpTo(g.live[q.hop] + q.draft, e.ledgers[q.hop].lastTiming)
  }

  ghost predicate CallsOK(p: Package, e: Engine, g: Log) {
    forall t :: t in e.tickets ==> CallOK(p, e, g, e.tickets[t])
  }

  ghost predicate Inv(p: Package, e: Engine, g: Log) {
    Core(e, g) && Owned(e) && WithinCapacity(p.lanes, e.lanes) && ClosedOK(p, e) && CallsOK(p, e, g)
  }

  lemma BegunInv(p: Package, e: Engine, g: Log, h: Handle, c: WireCall, b: BeginPlan, e': Engine)
    requires Usable(p) && Inv(p, e, g) && PlanBegin(p, e, h, c) == Ok(b) && h in e.ledgers && e' == Begun(e, h, c, b)
    ensures Inv(p, e', g)
  {
    var l, k := e.ledgers[h], b.track;
    var rule, l', q := p.rules[b.rule], l.(state := k.state, lastTiming := b.input),
                       Pending(h, c, l.state, b.input, false, false, b.rule, k.milestones);
    var start := Track(l.state, e.lanes, []);
    assert RuleOK(p, rule);
    OpenCore(e, g, h, l', q, e');
    assert g.live[h] + [] == g.live[h];
    ActAllLanes(p.lanes, rule.callActions, h, c, None, b.input, start);
    ActAllTimes(p.lanes, rule.callActions, h, c, None, b.input, start, g.live[h]);
    ActAllTerminal(p.lanes, rule.callActions, h, c, None, b.input, start);
    BegunRest(p, e, g, h, l', q, e');
  }

  lemma BegunRest(p: Package, e: Engine, g: Log, h: Handle, l: Ledger, q: Pending, e': Engine)
    requires TicketsOK(e) && Owned(e) && ClosedOK(p, e) && CallsOK(p, e, g) && h in e.ledgers && h in g.live && !e.ledgers[h].pending
    requires l.connection == e.ledgers[h].connection && l.protocolState == e.ledgers[h].protocolState && !l.state.Terminal?
    requires q.hop == h && !q.ignored && q.rule < |p.rules| && p.rules[q.rule].pre == l.protocolState
    requires p.rules[q.rule].flow == q.call.flow && p.rules[q.rule].phase == q.call.phase
    requires TimesUpTo(g.live[h] + q.draft, l.lastTiming) && OnlyFor(h, l.connection, e.lanes, e'.lanes)
    requires e' == OpenCall(e, h, l, q).(lanes := e'.lanes)
    ensures Owned(e') && ClosedOK(p, e') && CallsOK(p, e', g)
  {
    forall t | t in e'.tickets ensures CallOK(p, e', g, e'.tickets[t]) {
      if t != Ticket(e, h) {
        assert CallOK(p, e, g, e.tickets[t]) && TicketOK(e, t, e.tickets[t]);
      }
    }
    forall key, x | Held(e'.lanes, key, x)
      ensures x in e'.ledgers && e'.ledgers[x].connection == key.0 && !e'.ledgers[x].state.Terminal? && e'.ledgers[x].ordinal > 0
    {
      assert x != h ==> Held(e.lanes, key, x);
      assert x == h && key.0 != l.connection ==> Held(e.lanes, key, x);
    }
  }

  lemma BeginInv(p: Package, e: Engine, g: Log, h: Handle, c: WireCall)
    requires Usable(p) && Inv(p, e, g)
    ensures Inv(p, BeginCall(p, e, h, c).0, g)
  {
    var b := PlanBegin(p, e, h, c);
    if b.Ok? {
      BegunInv(p, e, g, h, c, b.value, BeginCall(p, e, h, c).0);
    }
  }

  lemma FaultInv(p: Package, e: Engine, g: Log, t: Handle, e': Engine)
    requires Inv(p, e, g) && t in e.tickets && e.tickets[t].hop in e.ledgers && e' == Fault(e, t)
    ensures Inv(p, e', g)
  {
    assert TicketOK(e, t, e.tickets[t]);
    FaultCore(e, g, t, e');
    forall u | u in e'.tickets ensures CallOK(p, e', g, e'.tickets[u]) {
      assert CallOK(p, e, g, e.tickets[u]);
    }
  }

  lemma EndedRest(p: Package, e: Engine, g: Log, t: Handle, h: Handle, l: Ledger, ms: seq<Milestone>, e': Engine)
    requires TicketsOK(e) && Owned(e) && ClosedOK(p, e) && CallsOK(p, e, g) && t in e.tickets && h == e.tickets[t].hop && h in e.ledgers
    requires l.connection == e.ledgers[h].connection && l.ordinal == e.ledgers[h].ordinal > 0
    requires l.state.Terminal? ==> l.protocolState in p.terminal && !Leaks(e'.lanes, l.connection, h)
    requires OnlyFor(h, l.connection, e.lanes, e'.lanes)
    requires e' == CloseCall(e, t, h, l).(lanes := e'.lanes)
    ensures Owned(e') && ClosedOK(p, e') && CallsOK(p, e', Append(g, h, ms))
  {
    forall u | u in e'.tickets ensures CallOK(p, e', Append(g, h, ms), e'.tickets[u]) {
      assert CallOK(p, e, g, e.tickets[u]);
      assert e.tickets[u].hop != h;
    }
    forall key, x | Held(e'.lanes, key, x)
      ensures x in e'.ledgers && e'.ledgers[x].connection == key.0 && !e'.ledgers[x].state.Terminal? && e'.ledgers[x].ordinal > 0
    {
      assert Held(e.lanes, key, x) || (x == h && key.0 == l.connection);
      assert x == h ==> key.0 == l.connection;
    }
  }

  // What an accepted return did to the lanes, the milestones and the state.
  lemma AcceptFacts(p: Package, pre: nat, lanes: Lanes, l: Ledger, q: Pending, r: WireReturn, past: seq<Milestone>)
    requires Usable(p) && WithinCapacity(p.lanes, lanes) && PlanReturn(p, pre, lanes, l, q, r).Accept?
    requires !q.ignored && q.input == l.lastTiming && TimesUpTo(past + q.draft, l.lastTiming) && !l.state.Terminal?
    ensures var a := PlanReturn(p, pre, lanes, l, q, r);
            && WithinCapacity(p.lanes, a.track.lanes) && OnlyFor(q.hop, q.call.connection, lanes, a.track.lanes)
            && TimesUpTo(past + a.track.milestones, Settle(l, r, a).lastTiming)
            && (a.track.state.Terminal? ==> a.rule.post in p.terminal && !Leaks(a.track.lanes, q.call.connection, q.hop))
  {
    var a, start := PlanReturn(p, pre, lanes, l, q, r), Track(l.state, lanes, q.draft);
    assert RuleOK(p, a.rule);
    ActAllLanes(p.lanes, a.rule.returnActions, q.hop, q.call, Some(r), a.time, start);
    ActAllTimes(p.lanes, a.rule.returnActions, q.hop, q.call, Some(r), a.time, start, past);
    if !Closes(a.rule.returnActions) {
      ActAllTerminal(p.lanes, a.rule.returnActions, q.hop, q.call, Some(r), a.time, start);
    }
  }

  lemma EndedInv(p: Package, e: Engine, g: Log, t: Handle, r: WireReturn, a: EndPlan, e': Engine)
    requires Usable(p) && Inv(p, e, g) && TicketsReady(p, e)
    requires a.Accept? && PlanEnd(p, e, t, r) == a && e' == Answered(e, t, r, a)
    ensures Inv(p, e', Append(g, e.tickets[t].hop, a.track.milestones))
  {
    var q := e.tickets[t];
    var h := q.hop;
    var l := e.ledgers[h];
    assert TicketOK(e, t, q) && CallOK(p, e, g, q) && NameOK(e, h, l);
    AcceptFacts(p, p.rules[q.rule].pre, e.lanes, l, q, r, g.live[h]);
    CloseCore(e, g, t, h, Settle(l, r, a), a.track.milestones, e');
    EndedRest(p, e, g, t, h, Settle(l, r, a), a.track.milestones, e');
  }

  function RecordEnd(p: Package, e: Engine, g: Log, t: Handle, r: WireReturn): Log
    requires Usable(p) && TicketsReady(p, e)
  {
    match EndCall(p, e, t, r).1
    case Err(_) => g
    case Ok(x) => Append(g, x.hop, x.milestones)
  }

  lemma Ready(p: Package, e: Engine, g: Log)
    requires Inv(p, e, g)
    ensures TicketsReady(p, e)
  {
    forall t | t in e.tickets ensures e.tickets[t].hop in e.ledgers && e.tickets[t].rule < |p.rules| {
      assert CallOK(p, e, g, e.tickets[t]);
    }
  }

  lemma EndInv(p: Package, e: Engine, g: Log, t: Handle, r: WireReturn)
    requires Usable(p) && Inv(p, e, g) && TicketsReady(p, e)
    ensures Inv(p, EndCall(p, e, t, r).0, RecordEnd(p, e, g, t, r))
  {
    var a := PlanEnd(p, e, t, r);
    if a.Accept? {
      EndedInv(p, e, g, t, r, a, EndCall(p, e, t, r).0);
    } else if a.Blame? {
      FaultInv(p, e, g, t, EndCall(p, e, t, r).0);
    }
  }

  // --------------------------------------------------------------------------------
  // Ledgers come and go.

  lemma AddInv(p: Package, e: Engine, g: Log, h: Handle, connection: nat, transport: nat, e': Engine)
    requires Inv(p, e, g) && h !in e.ledgers && h.kind.KHop? && h.generation < e'.generation && e.generation <= e'.generation
    requires e' == e.(generation := e'.generation, ledgers := e.ledgers[h := FreshLedger(e, connection, transport)])
    ensures Inv(p, e', Started(g, h))
  {
    AddCore(e, g, h, connection, transport, e');
    forall t | t in e'.tickets ensures CallOK(p, e', Started(g, h), e'.tickets[t]) {
      assert CallOK(p, e, g, e.tickets[t]);
    }
    assert Owned(e');
  }

  // A ledger can be dropped only when it holds nothing.
  lemma RemoveInv(p: Package, e: Engine, g: Log, h: Handle, e': Engine)
    requires Inv(p, e, g) && h in e.ledgers && !e.ledgers[h].pending && (e.ledgers[h].ordinal == 0 || e.ledgers[h].state.Terminal?)
    requires e' == e.(ledgers := e.ledgers - {h})
    ensures Inv(p, e', Ended(g, h))
  {
    RemoveCore(e, g, h, e');
    forall t | t in e'.tickets ensures CallOK(p, e', Ended(g, h), e'.tickets[t]) {
      assert CallOK(p, e, g, e.tickets[t]) && TicketOK(e, t, e.tickets[t]);
    }
    assert Owned(e');
  }
}
