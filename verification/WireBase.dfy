// The base protocol of section 15.2 of IEEE Std 1666-2011 as the engine runs it when no
// rule table is installed (runtime/src/protocol.cpp): four phases, one request lane and one
// response lane per connection, and shortcuts taken on the return path.
module WireBase {
  import opened Common
  import opened Wire

  // --------------------------------------------------------------------------------
  // Calls.

  // The state a call leads to, when its predecessor, direction and lane allow it.
  function NextState(e: Engine, l: Ledger, c: WireCall): Result<WireState, Error> {
    if c.phase == BEGIN_REQ then
      if !c.flow.Forward? || !l.state.Idle? || c.connection in e.requests then Err(ProtocolViolation) else Ok(Request)
    else if c.phase == END_REQ then
      if !c.flow.Backward? || !l.state.Request? then Err(ProtocolViolation) else Ok(RequestReleased)
    else if c.phase == BEGIN_RESP then
      if !c.flow.Backward? || !(l.state.Request? || l.state.RequestReleased?) || c.connection in e.responses || c.status.Incomplete?
      then Err(ProtocolViolation)
      else if l.command.Read? && c.status.Okay? && c.length != l.length then Err(ProtocolViolation)
      else Ok(Response)
    else if c.phase == END_RESP then
      if !c.flow.Forward? || !l.state.Response? then Err(ProtocolViolation) else Ok(Terminal)
    else Err(ProtocolViolation)
  }

  function Release(lanes: map<nat, Handle>, c: nat, h: Handle): map<nat, Handle> {
    if c in lanes && lanes[c] == h then lanes - {c} else lanes
  }

  // The ledger after a phase was accepted at time `input`.
  function Entered(l: Ledger, c: WireCall, next: WireState, input: nat): Ledger {
    var l' := l.(state := next, lastTiming := input);
    if c.phase == BEGIN_REQ then l'.(command := c.command, length := c.length) else l'
  }

  function EnterLanes(e: Engine, h: Handle, c: WireCall): (r: Engine)
    ensures r.ledgers == e.ledgers && r.tickets == e.tickets && r.generation == e.generation
  {
    if c.phase == BEGIN_REQ then e.(requests := e.requests[c.connection := h])
    else if c.phase == END_REQ then e.(requests := Release(e.requests, c.connection, h))
    else if c.phase == BEGIN_RESP then
      e.(requests := Release(e.requests, c.connection, h), responses := e.responses[c.connection := h])
    else e.(responses := Release(e.responses, c.connection, h))
  }

  function BeginCall(e: Engine, h: Handle, c: WireCall): (Engine, Result<Handle, Error>) {
    match Admit(e, h, c)
    case Err(x) => (e, Err(x))
    case Ok(input) =>
      var l := e.ledgers[h];
      if c.phase in e.ignorable then
        if e.generation == MAX64 then (e, Err(Overflow))
        else (OpenCall(e, h, l, Pending(h, c, l.state, input, true, false, 0, [])), Ok(Ticket(e, h)))
      else
        match NextState(e, l, c)
        case Err(x) => (e, Err(x))
        case Ok(next) =>
          if e.generation == MAX64 then (e, Err(Overflow))
          else
            (EnterLanes(OpenCall(e, h, Entered(l, c, next, input), Pending(h, c, l.state, input, false, false, 0, [])), h, c),
             Ok(Ticket(e, h)))
  }

  // What a return means for its call.
  datatype Verdict = Verdict(release: bool, shortcut: bool, terminal: bool)

  function Judge(e: Engine, l: Ledger, p: Pending, r: WireReturn): Result<Verdict, Error> {
    var phase := p.call.phase;
    if phase == BEGIN_REQ then
      if r.sync.Updated? && (r.phase.None? || (r.phase.value != END_REQ && r.phase.value != BEGIN_RESP)) then Err(ProtocolViolation)
      else
        var shortcut := r.sync.Completed? || (r.sync.Updated? && r.phase == Some(BEGIN_RESP));
        if shortcut && (r.response.None? || r.response.value.status.Incomplete?) then Err(ProtocolViolation)
        else if shortcut && l.command.Read? && r.response.value.status.Okay? && r.response.value.length != l.length
        then Err(ProtocolViolation)
        else if shortcut && p.call.connection in e.responses then Err(ProtocolViolation)
        else Ok(Verdict(!r.sync.Accepted?, shortcut, r.sync.Completed?))
    else if phase == END_REQ then
      if r.sync.Accepted? then Ok(Verdict(false, false, false)) else Err(ProtocolViolation)
    else if phase == BEGIN_RESP then
      if r.sync.Updated? && r.phase != Some(END_RESP) then Err(ProtocolViolation)
      else Ok(Verdict(false, false, !r.sync.Accepted?))
    else if phase == END_RESP then
      if r.sync.Updated? then Err(ProtocolViolation) else Ok(Verdict(false, false, true))
    else Err(ProtocolViolation)
  }

  // The milestones a return reports.
  function Reported(p: Pending, r: WireReturn, v: Verdict, time: nat): seq<Milestone> {
    (if p.call.phase == END_REQ then [Milestone(KReleased, p.input, false, None)] else [])
    + (if p.call.phase == BEGIN_RESP && p.pre.Request? then [Milestone(KReleased, p.input, true, None)] else [])
    + (if p.call.phase == BEGIN_RESP
       then [Milestone(KReady, p.input, false, Some(ResponseSnapshot(p.call.status, p.call.length)))] else [])
    + (if v.release then [Milestone(KReleased, time, v.shortcut, None)] else [])
    + (if v.shortcut then [Milestone(KReady, time, true, r.response)] else [])
    + (if v.terminal then [Milestone(KTerminal, time, false, None)] else [])
  }

  function Settle(l: Ledger, r: WireReturn, v: Verdict, time: nat): Ledger {
    var next := if v.terminal then Terminal else if v.shortcut then Response else if v.release then RequestReleased else l.state;
    l.(state := next, lastTiming := if r.sync.Accepted? then l.lastTiming else time)
  }

  function SettleLanes(e: Engine, h: Handle, c: nat, v: Verdict): Engine {
    var requests := if v.release || v.terminal then Release(e.requests, c, h) else e.requests;
    var responses := if v.shortcut then e.responses[c := h] else e.responses;
    e.(requests := requests, responses := if v.terminal then Release(responses, c, h) else responses)
  }

  function EndCall(e: Engine, t: Handle, r: WireReturn): (Engine, Result<Exchange, Error>)
    requires t in e.tickets ==> e.tickets[t].hop in e.ledgers
  {
    if t !in e.tickets then (e, Err(StaleHandle))
    else
      var p := e.tickets[t];
      var l := e.ledgers[p.hop];
      if l.faulted then (e, Err(InvalidState))
      else if r.sync.Unknown? then (Fault(e, t), Err(ProtocolViolation))
      else if p.ignored then
        if !r.sync.Accepted? then (Fault(e, t), Err(ProtocolViolation))
        else (CloseCall(e, t, p.hop, l), Ok(Exchange(p.hop, l.state, [], true)))
      else
        match ReturnTime(l, p, r)
        case Err(x) => (Fault(e, t), Err(x))
        case Ok(time) =>
          match Judge(e, l, p, r)
          case Err(x) => (Fault(e, t), Err(x))
          case Ok(v) =>
            var l' := Settle(l, r, v, time);
            (SettleLanes(CloseCall(e, t, p.hop, l'), p.hop, p.call.connection, v),
             Ok(Exchange(p.hop, l'.state, Reported(p, r, v, time), false)))
  }

  // --------------------------------------------------------------------------------
  // The invariant.

  // The milestones a ledger has behind it when it rests in a state.
  function Expected(s: WireState): seq<MilestoneKind> {
    match s
    case Idle => []
    case Request => []
    case RequestReleased => [KReleased]
    case Response => [KReleased, KReady]
    case Terminal => [KReleased, KReady, KTerminal]
  }

  function Kinds(ms: seq<Milestone>): (r: seq<MilestoneKind>)
    ensures |r| == |ms|
  {
    seq(|ms|, i requires 0 <= i < |ms| => ms[i].kind)
  }

  // A response is complete, and a successful read carries all requested bytes.
  predicate ResponseOK(l: Ledger, s: ResponseSnapshot) {
    !s.status.Incomplete? && (l.command.Read? && s.status.Okay? ==> s.length == l.length)
  }

  ghost predicate ResponsesOK(l: Ledger, ms: seq<Milestone>) {
    forall i :: 0 <= i < |ms| && ms[i].kind.KReady? ==> ms[i].response.Some? && ResponseOK(l, ms[i].response.value)
  }

  ghost predicate Prefix(ms: seq<Milestone>) {
    Kinds(ms) <= [KReleased, KReady, KTerminal]
  }

  // The states a call in progress may be between.
  predicate Between(pre: WireState, phase: nat, now: WireState) {
    || (phase == BEGIN_REQ && pre.Idle? && now.Request?)
    || (phase == END_REQ && pre.Request? && now.RequestReleased?)
    || (phase == BEGIN_RESP && (pre.Request? || pre.RequestReleased?) && now.Response?)
    || (phase == END_RESP && pre.Response? && now.Terminal?)
  }

  ghost predicate InCall(l: Ledger, p: Pending, ms: seq<Milestone>) {
    && Kinds(ms) == Expected(p.pre)
    && (if p.ignored then p.pre == l.state else Between(p.pre, p.call.phase, l.state))
    && (!p.ignored && p.call.phase == BEGIN_RESP ==> ResponseOK(l, ResponseSnapshot(p.call.status, p.call.length)))
  }

  ghost predicate RequestLanes(e: Engine) {
    && (forall c :: c in e.requests ==>
          e.requests[c] in e.ledgers && e.ledgers[e.requests[c]].state.Request? && e.ledgers[e.requests[c]].connection == c)
    && (forall h :: h in e.ledgers && e.ledgers[h].state.Request? ==>
          e.ledgers[h].connection in e.requests && e.requests[e.ledgers[h].connection] == h)
  }

  ghost predicate ResponseLanes(e: Engine) {
    && (forall c :: c in e.responses ==>
          e.responses[c] in e.ledgers && e.ledgers[e.responses[c]].state.Response? && e.ledgers[e.responses[c]].connection == c)
    && (forall h :: h in e.ledgers && e.ledgers[h].state.Response? ==>
          e.ledgers[h].connection in e.responses && e.responses[e.ledgers[h].connection] == h)
  }

  ghost predicate LiveOK(l: Ledger, ms: seq<Milestone>) {
    Prefix(ms) && ResponsesOK(l, ms) && (!l.pending ==> Kinds(ms) == Expected(l.state))
  }

  ghost predicate LivesOK(e: Engine, g: Log) {
    g.live.Keys == e.ledgers.Keys && forall h :: h in e.ledgers ==> LiveOK(e.ledgers[h], g.live[h])
  }

  ghost predicate CallOK(e: Engine, g: Log, p: Pending) {
    p.hop in e.ledgers && p.hop in g.live && InCall(e.ledgers[p.hop], p, g.live[p.hop])
  }

  ghost predicate CallsOK(e: Engine, g: Log) {
    forall t :: t in e.tickets ==> CallOK(e, g, e.tickets[t])
  }

  // A retired ledger either never started or went all the way.
  ghost predicate PastOK(g: Log) {
    forall i :: 0 <= i < |g.past| ==> Kinds(g.past[i]) == [] || Kinds(g.past[i]) == [KReleased, KReady, KTerminal]
  }

  ghost predicate Inv(e: Engine, g: Log) {
    && Core(e, g)
    && (forall x :: x in e.ignorable ==> x > 4)
    && RequestLanes(e)
    && ResponseLanes(e)
    && LivesOK(e, g)
    && CallsOK(e, g)
    && PastOK(g)
  }

  // --------------------------------------------------------------------------------
  // Lanes follow states.

  ghost predicate OneLedger(e: Engine, e': Engine, h: Handle) {
    && h in e.ledgers && h in e'.ledgers
    && e'.ledgers == e.ledgers[h := e'.ledgers[h]]
    && e'.ledgers[h].connection == e.ledgers[h].connection
  }

  lemma RequestsFollow(e: Engine, e': Engine, h: Handle)
    requires RequestLanes(e) && OneLedger(e, e', h)
    requires var c, was, now := e.ledgers[h].connection, e.ledgers[h].state, e'.ledgers[h].state;
             || (was.Request? == now.Request? && e'.requests == e.requests)
             || (!was.Request? && now.Request? && c !in e.requests && e'.requests == e.requests[c := h])
             || (!now.Request? && e'.requests == Release(e.requests, c, h))
    ensures RequestLanes(e')
  {
  }

  lemma ResponsesFollow(e: Engine, e': Engine, h: Handle)
    requires ResponseLanes(e) && OneLedger(e, e', h)
    requires var c, was, now := e.ledgers[h].connection, e.ledgers[h].state, e'.ledgers[h].state;
             || (was.Response? == now.Response? && e'.responses == e.responses)
             || (!was.Response? && now.Response? && c !in e.responses && e'.responses == e.responses[c := h])
             || (!now.Response? && e'.responses == Release(e.responses, c, h))
    ensures ResponseLanes(e')
  {
  }

  // --------------------------------------------------------------------------------
  // Preservation.

  lemma OpenLives(e: Engine, g: Log, h: Handle, l: Ledger, p: Pending, e': Engine)
    requires TicketsOK(e) && LivesOK(e, g) && CallsOK(e, g) && h in e.ledgers && !e.ledgers[h].pending
    requires p.hop == h && InCall(l, p, g.live[h]) && ResponsesOK(l, g.live[h])
    requires e'.tickets == OpenCall(e, h, l, p).tickets && e'.ledgers == OpenCall(e, h, l, p).ledgers
    ensures LivesOK(e', g) && CallsOK(e', g)
  {
    forall t | t in e'.tickets ensures CallOK(e', g, e'.tickets[t]) {
      if t != Ticket(e, h) {
        assert CallOK(e, g, e.tickets[t]) && TicketOK(e, t, e.tickets[t]);
      }
    }
    forall k | k in e'.ledgers ensures LiveOK(e'.ledgers[k], g.live[k]) {
      assert LiveOK(e.ledgers[k], g.live[k]);
    }
  }

  lemma NextFacts(e: Engine, l: Ledger, c: WireCall)
    requires NextState(e, l, c).Ok?
    ensures Between(l.state, c.phase, NextState(e, l, c).value)
    ensures c.phase == BEGIN_REQ ==> c.connection !in e.requests
    ensures c.phase == BEGIN_RESP ==> c.connection !in e.responses && ResponseOK(l, ResponseSnapshot(c.status, c.length))
  {
  }

  lemma EnteredLanes(e: Engine, h: Handle, c: WireCall, next: WireState, e1: Engine, e': Engine)
    requires RequestLanes(e) && ResponseLanes(e) && OneLedger(e, e1, h)
    requires e1.requests == e.requests && e1.responses == e.responses && e1.ledgers[h].state == next
    requires Between(e.ledgers[h].state, c.phase, next) && e.ledgers[h].connection == c.connection
    requires c.phase == BEGIN_REQ ==> c.connection !in e.requests
    requires c.phase == BEGIN_RESP ==> c.connection !in e.responses
    requires e' == EnterLanes(e1, h, c)
    ensures RequestLanes(e') && ResponseLanes(e')
  {
    RequestsFollow(e, e', h);
    ResponsesFollow(e, e', h);
  }

  lemma BeginInv(e: Engine, g: Log, h: Handle, c: WireCall)
    requires Inv(e, g)
    ensures Inv(BeginCall(e, h, c).0, g)
  {
    var e' := BeginCall(e, h, c).0;
    if e' != e {
      var l, input := e.ledgers[h], Admit(e, h, c).value;
      if c.phase in e.ignorable {
        IgnoredInv(e, g, h, l, Pending(h, c, l.state, input, true, false, 0, []), e');
      } else {
        var next := NextState(e, l, c).value;
        NextFacts(e, l, c);
        PhaseInv(e, g, h, c, next, input, e');
      }
    }
  }

  lemma IgnoredInv(e: Engine, g: Log, h: Handle, l: Ledger, p: Pending, e': Engine)
    requires Inv(e, g) && h in e.ledgers && l == e.ledgers[h] && !l.pending
    requires p.hop == h && p.ignored && !p.failed && p.pre == l.state && p.call.connection == l.connection
    requires e' == OpenCall(e, h, l, p)
    ensures Inv(e', g)
  {
    OpenCore(e, g, h, l, p, e');
    OpenLives(e, g, h, l, p, e');
    RequestsFollow(e, e', h);
    ResponsesFollow(e, e', h);
  }

  lemma PhaseInv(e: Engine, g: Log, h: Handle, c: WireCall, next: WireState, input: nat, e': Engine)
    requires Inv(e, g) && h in e.ledgers && !e.ledgers[h].pending && e.ledgers[h].connection == c.connection
    requires e.ledgers[h].lastTiming <= input && Between(e.ledgers[h].state, c.phase, next)
    requires c.phase == BEGIN_REQ ==> c.connection !in e.requests
    requires c.phase == BEGIN_RESP ==>
               c.connection !in e.responses && ResponseOK(e.ledgers[h], ResponseSnapshot(c.status, c.length))
    requires var l := e.ledgers[h];
             e' == EnterLanes(OpenCall(e, h, Entered(l, c, next, input), Pending(h, c, l.state, input, false, false, 0, [])), h, c)
    ensures Inv(e', g)
  {
    var l := e.ledgers[h];
    var l', p := Entered(l, c, next, input), Pending(h, c, l.state, input, false, false, 0, []);
    var e1 := OpenCall(e, h, l', p);
    OpenCore(e, g, h, l', p, e');
    OpenLives(e, g, h, l', p, e');
    EnteredLanes(e, h, c, next, e1, e');
  }

  lemma FaultLives(e: Engine, g: Log, t: Handle, e': Engine)
    requires LivesOK(e, g) && CallsOK(e, g) && t in e.tickets && e.tickets[t].hop in e.ledgers && e' == Fault(e, t)
    ensures LivesOK(e', g) && CallsOK(e', g)
  {
    forall u | u in e'.tickets ensures CallOK(e', g, e'.tickets[u]) {
      assert CallOK(e, g, e.tickets[u]);
    }
    forall k | k in e'.ledgers ensures LiveOK(e'.ledgers[k], g.live[k]) {
      assert LiveOK(e.ledgers[k], g.live[k]);
    }
  }

  lemma FaultInv(e: Engine, g: Log, t: Handle, e': Engine)
    requires Inv(e, g) && t in e.tickets && e.tickets[t].hop in e.ledgers && e' == Fault(e, t)
    ensures Inv(e', g)
  {
    assert TicketOK(e, t, e.tickets[t]);
    FaultCore(e, g, t, e');
    FaultLives(e, g, t, e');
    RequestsFollow(e, e', e.tickets[t].hop);
    ResponsesFollow(e, e', e.tickets[t].hop);
  }

  lemma CloseLives(e: Engine, g: Log, t: Handle, h: Handle, l: Ledger, ms: seq<Milestone>, e': Engine)
    requires OneCallEach(e) && LivesOK(e, g) && CallsOK(e, g) && t in e.tickets && h == e.tickets[t].hop && h in e.ledgers
    requires Kinds(g.live[h] + ms) == Expected(l.state) && ResponsesOK(l, g.live[h] + ms)
    requires e'.tickets == e.tickets - {t} && e'.ledgers == e.ledgers[h := l.(pending := false)]
    ensures LivesOK(e', Append(g, h, ms)) && CallsOK(e', Append(g, h, ms))
  {
    var g' := Append(g, h, ms);
    forall u | u in e'.tickets ensures CallOK(e', g', e'.tickets[u]) {
      assert CallOK(e, g, e.tickets[u]);
      assert e.tickets[u].hop != h;
    }
    forall k | k in e'.ledgers ensures LiveOK(e'.ledgers[k], g'.live[k]) {
      assert k != h ==> LiveOK(e.ledgers[k], g.live[k]);
    }
  }

  // A return adds exactly the milestones between the state before the call and the
  // state after it.
  lemma ReportedKinds(e: Engine, l: Ledger, p: Pending, r: WireReturn, ms: seq<Milestone>, time: nat)
    requires InCall(l, p, ms) && !p.ignored && !r.sync.Unknown? && Judge(e, l, p, r).Ok?
    ensures var v := Judge(e, l, p, r).value; Kinds(ms + Reported(p, r, v, time)) == Expected(Settle(l, r, v, time).state)
  {
    var v := Judge(e, l, p, r).value;
    var out := Reported(p, r, v, time);
    assert Kinds(ms + out) == Kinds(ms) + Kinds(out);
    if p.call.phase == BEGIN_RESP && p.pre.Request? {
      assert Kinds(out) == [KReleased, KReady] + (if v.terminal then [KTerminal] else []);
    }
  }

  lemma ReportedTimes(p: Pending, r: WireReturn, v: Verdict, time: nat, ms: seq<Milestone>)
    requires TimesUpTo(ms, p.input) && p.input <= time && (p.call.phase == END_REQ || p.call.phase == BEGIN_RESP ==> !v.release && !v.shortcut)
    requires v.shortcut ==> v.release
    ensures TimesUpTo(ms + Reported(p, r, v, time), time)
    ensures !v.release && !v.shortcut && !v.terminal ==> TimesUpTo(ms + Reported(p, r, v, time), p.input)
  {
    var out := Reported(p, r, v, time);
    assert forall i :: 0 <= i < |out| ==> p.input <= out[i].time <= time;
  }

  lemma ReportedResponses(e: Engine, l: Ledger, p: Pending, r: WireReturn, time: nat, ms: seq<Milestone>)
    requires InCall(l, p, ms) && !p.ignored && Judge(e, l, p, r).Ok? && ResponsesOK(l, ms)
    ensures ResponsesOK(l, ms + Reported(p, r, Judge(e, l, p, r).value, time))
  {
  }

  lemma SettledLanes(e: Engine, h: Handle, p: Pending, r: WireReturn, v: Verdict, time: nat, e1: Engine, e': Engine)
    requires RequestLanes(e) && ResponseLanes(e) && h in e.ledgers && !p.ignored
    requires Between(p.pre, p.call.phase, e.ledgers[h].state) && Judge(e, e.ledgers[h], p, r) == Ok(v)
    requires e.ledgers[h].connection == p.call.connection
    requires OneLedger(e, e1, h) && e1.requests == e.requests && e1.responses == e.responses
    requires e1.ledgers[h].state == Settle(e.ledgers[h], r, v, time).state
    requires e' == SettleLanes(e1, h, p.call.connection, v)
    ensures RequestLanes(e') && ResponseLanes(e')
  {
    RequestsFollow(e, e', h);
    var c := p.call.connection;
    if v.shortcut && v.terminal {
      assert Release(e.responses[c := h], c, h) == e.responses;
    }
    ResponsesFollow(e, e', h);
  }

  lemma ClosedInv(e: Engine, g: Log, t: Handle, h: Handle, l: Ledger, ms: seq<Milestone>, e': Engine)
    requires Inv(e, g) && t in e.tickets && h == e.tickets[t].hop && h in e.ledgers
    requires l.connection == e.ledgers[h].connection && l.ordinal == e.ledgers[h].ordinal
    requires TimesUpTo(g.live[h] + ms, l.lastTiming)
    requires Kinds(g.live[h] + ms) == Expected(l.state) && ResponsesOK(l, g.live[h] + ms)
    requires RequestLanes(e') && ResponseLanes(e')
    requires e'.generation == e.generation && e'.tickets == e.tickets - {t} && e'.ignorable == e.ignorable
    requires e'.ledgers == e.ledgers[h := l.(pending := false)]
    ensures Inv(e', Append(g, h, ms))
  {
    CloseCore(e, g, t, h, l, ms, e');
    CloseLives(e, g, t, h, l, ms, e');
  }

  // What a judged return adds to the ledger's milestones.
  lemma ReturnFacts(e: Engine, l: Ledger, p: Pending, r: WireReturn, v: Verdict, time: nat, ms: seq<Milestone>)
    requires InCall(l, p, ms) && LiveOK(l, ms) && TimesUpTo(ms, l.lastTiming) && l.lastTiming == p.input
    requires !p.ignored && !r.sync.Unknown?
    requires ReturnTime(l, p, r) == Ok(time) && Judge(e, l, p, r) == Ok(v)
    ensures var l', out := Settle(l, r, v, time), Reported(p, r, v, time);
            TimesUpTo(ms + out, l'.lastTiming) && Kinds(ms + out) == Expected(l'.state) && ResponsesOK(l', ms + out)
  {
    ReportedKinds(e, l, p, r, ms, time);
    ReportedTimes(p, r, v, time, ms);
    ReportedResponses(e, l, p, r, time, ms);
  }

  lemma ReturnInv(e: Engine, g: Log, t: Handle, r: WireReturn, v: Verdict, time: nat, e': Engine)
    requires Inv(e, g) && t in e.tickets && !e.tickets[t].ignored && !r.sync.Unknown?
    requires var p := e.tickets[t];
             && p.hop in e.ledgers
             && var l := e.ledgers[p.hop];
             && ReturnTime(l, p, r) == Ok(time) && Judge(e, l, p, r) == Ok(v)
             && e' == SettleLanes(CloseCall(e, t, p.hop, Settle(l, r, v, time)), p.hop, p.call.connection, v)
    ensures Inv(e', Append(g, e.tickets[t].hop, Reported(e.tickets[t], r, v, time)))
  {
    var p := e.tickets[t];
    var h := p.hop;
    var l := e.ledgers[h];
    assert TicketOK(e, t, p) && CallOK(e, g, p) && LiveOK(l, g.live[h]);
    ReturnFacts(e, l, p, r, v, time, g.live[h]);
    SettledLanes(e, h, p, r, v, time, CloseCall(e, t, h, Settle(l, r, v, time)), e');
    ClosedInv(e, g, t, h, Settle(l, r, v, time), Reported(p, r, v, time), e');
  }

  function RecordEnd(e: Engine, g: Log, t: Handle, r: WireReturn): Log
    requires t in e.tickets ==> e.tickets[t].hop in e.ledgers
  {
    match EndCall(e, t, r).1
    case Err(_) => g
    case Ok(x) => Append(g, x.hop, x.milestones)
  }

  lemma EndInv(e: Engine, g: Log, t: Handle, r: WireReturn)
    requires Inv(e, g)
    ensures Inv(EndCall(e, t, r).0, RecordEnd(e, g, t, r))
  {
    var (e', x) := EndCall(e, t, r);
    if x.Ok? {
      var p := e.tickets[t];
      var l := e.ledgers[p.hop];
      if p.ignored {
        assert g.live[p.hop] + [] == g.live[p.hop];
        assert TicketOK(e, t, p) && CallOK(e, g, p) && LiveOK(l, g.live[p.hop]);
        RequestsFollow(e, e', p.hop);
        ResponsesFollow(e, e', p.hop);
        ClosedInv(e, g, t, p.hop, l, [], e');
      } else {
        ReturnInv(e, g, t, r, Judge(e, l, p, r).value, ReturnTime(l, p, r).value, e');
      }
    } else if e' != e {
      FaultInv(e, g, t, e');
    }
  }

  // --------------------------------------------------------------------------------
  // Ledgers come and go.

  lemma AddInv(e: Engine, g: Log, h: Handle, connection: nat, transport: nat, e': Engine)
    requires Inv(e, g) && h !in e.ledgers && h.kind.KHop? && h.generation < e'.generation && e.generation <= e'.generation
    requires e' == e.(generation := e'.generation, ledgers := e.ledgers[h := FreshLedger(e, connection, transport)])
    ensures Inv(e', Started(g, h))
  {
    AddCore(e, g, h, connection, transport, e');
    AddLives(e, g, h, connection, transport, e');
    AddLanes(e, h, connection, transport, e');
  }

  lemma AddLanes(e: Engine, h: Handle, connection: nat, transport: nat, e': Engine)
    requires RequestLanes(e) && ResponseLanes(e) && h !in e.ledgers
    requires e'.ledgers == e.ledgers[h := FreshLedger(e, connection, transport)]
    requires e'.requests == e.requests && e'.responses == e.responses
    ensures RequestLanes(e') && ResponseLanes(e')
  {
  }

  lemma AddLives(e: Engine, g: Log, h: Handle, connection: nat, transport: nat, e': Engine)
    requires LivesOK(e, g) && CallsOK(e, g) && h !in e.ledgers
    requires e'.tickets == e.tickets && e'.ledgers == e.ledgers[h := FreshLedger(e, connection, transport)]
    ensures LivesOK(e', Started(g, h)) && CallsOK(e', Started(g, h))
  {
    var g' := Started(g, h);
    assert Kinds([]) == [];
    forall t | t in e'.tickets ensures CallOK(e', g', e'.tickets[t]) {
      assert CallOK(e, g, e.tickets[t]);
    }
    forall k | k in e'.ledgers ensures LiveOK(e'.ledgers[k], g'.live[k]) {
      assert k != h ==> LiveOK(e.ledgers[k], g.live[k]);
    }
  }

  lemma RemoveInv(e: Engine, g: Log, h: Handle, e': Engine)
    requires Inv(e, g) && h in e.ledgers && !e.ledgers[h].pending && (e.ledgers[h].state.Idle? || e.ledgers[h].state.Terminal?)
    requires e' == e.(ledgers := e.ledgers - {h})
    ensures Inv(e', Ended(g, h))
  {
    RemoveCore(e, g, h, e');
    RemoveLanes(e, h, e');
    RemoveLives(e, g, h, e');
  }

  lemma RemoveLives(e: Engine, g: Log, h: Handle, e': Engine)
    requires TicketsOK(e) && LivesOK(e, g) && CallsOK(e, g) && PastOK(g)
    requires h in e.ledgers && !e.ledgers[h].pending && (e.ledgers[h].state.Idle? || e.ledgers[h].state.Terminal?)
    requires e' == e.(ledgers := e.ledgers - {h})
    ensures LivesOK(e', Ended(g, h)) && CallsOK(e', Ended(g, h)) && PastOK(Ended(g, h))
  {
    var g' := Ended(g, h);
    forall t | t in e'.tickets ensures CallOK(e', g', e'.tickets[t]) {
      assert CallOK(e, g, e.tickets[t]) && TicketOK(e, t, e.tickets[t]);
    }
    forall k | k in e'.ledgers ensures LiveOK(e'.ledgers[k], g'.live[k]) {
      assert LiveOK(e.ledgers[k], g.live[k]);
    }
    assert LiveOK(e.ledgers[h], g.live[h]);
  }

  lemma RemoveLanes(e: Engine, h: Handle, e': Engine)
    requires RequestLanes(e) && ResponseLanes(e) && h in e.ledgers && (e.ledgers[h].state.Idle? || e.ledgers[h].state.Terminal?)
    requires e' == e.(ledgers := e.ledgers - {h})
    ensures RequestLanes(e') && ResponseLanes(e')
  {
  }

  // --------------------------------------------------------------------------------
  // Runs.

  datatype Command =
    | DoCreate(connection: nat, transport: nat, transportGeneration: nat, owner: nat)
    | DoBind(h: Handle, connection: nat, transport: nat, transportGeneration: nat)
    | DoRetire(h: Handle)
    | DoDiscard(h: Handle)
    | DoAllow(phase: nat)
    | DoBegin(h: Handle, c: WireCall)
    | DoEnd(t: Handle, r: WireReturn)
    | DoFail(t: Handle)

  ghost predicate HopsLive(e: Engine) {
    forall t :: t in e.tickets ==> e.tickets[t].hop in e.ledgers
  }

  function Step(e: Engine, c: Command): Engine
    requires HopsLive(e)
  {
    match c
    case DoCreate(x, y, z, o) => CreateLedger(e, x, y, z, o).0
    case DoBind(h, x, y, z) => BindLedger(e, h, x, y, z).0
    case DoRetire(h) => RetireLedger(e, h).0
    case DoDiscard(h) => DiscardLedger(e, h).0
    case DoAllow(p) => if p <= 4 then e else e.(ignorable := e.ignorable + {p})
    case DoBegin(h, x) => BeginCall(e, h, x).0
    case DoEnd(t, r) => EndCall(e, t, r).0
    case DoFail(t) => FailCall(e, t).0
  }

  function Record(e: Engine, g: Log, c: Command): Log
    requires HopsLive(e)
  {
    match c
    case DoCreate(x, y, z, o) => (match CreateLedger(e, x, y, z, o).1 case Ok(h) => Started(g, h) case Err(_) => g)
    case DoBind(h, x, y, z) => if BindLedger(e, h, x, y, z).1.Ok? then Started(g, h) else g
    case DoRetire(h) => if RetireLedger(e, h).1.Ok? then Ended(g, h) else g
    case DoDiscard(h) => if DiscardLedger(e, h).1.Ok? then Ended(g, h) else g
    case DoEnd(t, r) => RecordEnd(e, g, t, r)
    case _ => g
  }

  lemma StepInv(e: Engine, g: Log, c: Command)
    requires Inv(e, g)
    ensures Inv(Step(e, c), Record(e, g, c))
  {
    match c
    case DoBegin(h, x) => BeginInv(e, g, h, x);
    case DoEnd(t, r) => EndInv(e, g, t, r);
    case DoFail(t) =>
      if FailCall(e, t).1.Ok? {
        FaultInv(e, g, t, FailCall(e, t).0);
      }
    case DoCreate(x, y, z, o) => CreateInv(e, g, x, y, z, o);
    case DoBind(h, x, y, z) => BindInv(e, g, h, x, y, z);
    case DoRetire(h) =>
      if RetireLedger(e, h).1.Ok? {
        RemoveInv(e, g, h, Step(e, c));
      }
    case DoDiscard(h) =>
      if DiscardLedger(e, h).1.Ok? {
        RemoveInv(e, g, h, Step(e, c));
      }
    case DoAllow(p) =>
      if p > 4 {
        AllowInv(e, g, p);
      }
  }

  lemma CreateInv(e: Engine, g: Log, x: nat, y: nat, z: nat, o: nat)
    requires Inv(e, g)
    ensures Inv(Step(e, DoCreate(x, y, z, o)), Record(e, g, DoCreate(x, y, z, o)))
  {
    var (e', r) := CreateLedger(e, x, y, z, o);
    if r.Ok? {
      assert r.value in e.ledgers ==> NameOK(e, r.value, e.ledgers[r.value]);
      AddInv(e, g, r.value, x, y, e');
    }
  }

  lemma BindInv(e: Engine, g: Log, h: Handle, x: nat, y: nat, z: nat)
    requires Inv(e, g)
    ensures Inv(Step(e, DoBind(h, x, y, z)), Record(e, g, DoBind(h, x, y, z)))
  {
    if BindLedger(e, h, x, y, z).1.Ok? {
      AddInv(e, g, h, x, y, BindLedger(e, h, x, y, z).0);
    }
  }

  lemma AllowInv(e: Engine, g: Log, p: nat)
    requires Inv(e, g) && p > 4
    ensures Inv(e.(ignorable := e.ignorable + {p}), g)
  {
    var e' := e.(ignorable := e.ignorable + {p});
    forall t | t in e'.tickets ensures TicketOK(e', t, e'.tickets[t]) && CallOK(e', g, e'.tickets[t]) {
      assert TicketOK(e, t, e.tickets[t]) && CallOK(e, g, e.tickets[t]);
    }
    forall k | k in e'.ledgers ensures NameOK(e', k, e'.ledgers[k]) && LiveOK(e'.ledgers[k], g.live[k]) {
      assert NameOK(e, k, e.ledgers[k]);
    }
  }

  // The invariant makes every step defined, so a run goes through all of its commands.
  ghost function Run(e: Engine, g: Log, cs: seq<Command>): (r: (Engine, Log))
    requires Inv(e, g)
    ensures Inv(r.0, r.1)
    decreases |cs|
  {
    if cs == [] then (e, g)
    else
      StepInv(e, g, cs[0]);
      Run(Step(e, cs[0]), Record(e, g, cs[0]), cs[1..])
  }

  ghost predicate HoldsRequest(e: Engine, c: nat, h: Handle) {
    c in e.requests && e.requests[c] == h
  }

  ghost predicate HoldsResponse(e: Engine, c: nat, h: Handle) {
    c in e.responses && e.responses[c] == h
  }

  ghost predicate InState(e: Engine, c: nat, h: Handle, s: WireState) {
    h in e.ledgers && e.ledgers[h].connection == c && e.ledgers[h].state == s
  }

  // Every interleaving of calls and returns, on any number of connections and ledgers:
  // a lane is held exactly by the ledger in the matching state, and the milestones of a
  // ledger's whole life are a prefix of request released, response ready, terminal, at
  // non-decreasing times; a ledger that was retired has either none of them or all.
  lemma BaseProtocol(domain: nat, store: nat, limits: Limits, cs: seq<Command>)
    ensures Inv(NewEngine(domain, store, limits, {}, 0), NO_LOG)
    ensures var (e, g) := Run(NewEngine(domain, store, limits, {}, 0), NO_LOG, cs);
            && (forall c, h :: HoldsRequest(e, c, h) <==> InState(e, c, h, Request))
            && (forall c, h :: HoldsResponse(e, c, h) <==> InState(e, c, h, Response))
            && g.live.Keys == e.ledgers.Keys
            && (forall h :: h in e.ledgers ==>
                  Prefix(g.live[h]) && InTimeOrder(g.live[h]) && ResponsesOK(e.ledgers[h], g.live[h])
                  && (!e.ledgers[h].pending ==> Kinds(g.live[h]) == Expected(e.ledgers[h].state)))
            && (forall i :: 0 <= i < |g.past| ==>
                  InTimeOrder(g.past[i]) && (Kinds(g.past[i]) == [] || Kinds(g.past[i]) == [KReleased, KReady, KTerminal]))
  {
    var (e, g) := Run(NewEngine(domain, store, limits, {}, 0), NO_LOG, cs);
    forall h | h in e.ledgers
      ensures Prefix(g.live[h]) && InTimeOrder(g.live[h]) && ResponsesOK(e.ledgers[h], g.live[h])
              && (!e.ledgers[h].pending ==> Kinds(g.live[h]) == Expected(e.ledgers[h].state))
    {
      assert LiveOK(e.ledgers[h], g.live[h]);
    }
  }

  lemma FaultedBegin(e: Engine, h: Handle, k: Handle, c: WireCall)
    requires h in e.ledgers && e.ledgers[h].faulted
    ensures var e' := BeginCall(e, k, c).0; h in e'.ledgers && e'.ledgers[h] == e.ledgers[h]
  {
    BeginTouches(e, k, c);
  }

  lemma BeginTouches(e: Engine, k: Handle, c: WireCall)
    ensures var e' := BeginCall(e, k, c).0;
            e' == e || (Admit(e, k, c).Ok? && k in e'.ledgers && e'.ledgers == e.ledgers[k := e'.ledgers[k]])
  {
  }

  lemma FaultedEnd(e: Engine, g: Log, h: Handle, t: Handle, r: WireReturn)
    requires h in e.ledgers && e.ledgers[h].faulted && h in g.live && (t in e.tickets ==> e.tickets[t].hop in e.ledgers)
    ensures var e' := EndCall(e, t, r).0; h in e'.ledgers && e'.ledgers[h] == e.ledgers[h]
    ensures var g' := RecordEnd(e, g, t, r); h in g'.live && g'.live[h] == g.live[h]
  {
  }

  lemma FaultedStep(e: Engine, g: Log, c: Command, h: Handle)
    requires HopsLive(e) && NamesOK(e) && h in e.ledgers && e.ledgers[h].faulted && h in g.live
    ensures var e' := Step(e, c); h in e'.ledgers && e'.ledgers[h] == e.ledgers[h]
    ensures var g' := Record(e, g, c); h in g'.live && g'.live[h] == g.live[h]
  {
    match c
    case DoBegin(k, x) => FaultedBegin(e, h, k, x);
    case DoEnd(t, r) => FaultedEnd(e, g, h, t, r);
    case DoCreate(x, y, z, o) => FaultedCreate(e, g, h, x, y, z, o);
    case DoBind(_, _, _, _) =>
    case DoRetire(_) =>
    case DoDiscard(_) =>
    case DoAllow(_) =>
    case DoFail(_) =>
  }

  lemma FaultedCreate(e: Engine, g: Log, h: Handle, x: nat, y: nat, z: nat, o: nat)
    requires HopsLive(e) && NamesOK(e) && h in e.ledgers && h in g.live
    ensures var e' := Step(e, DoCreate(x, y, z, o)); h in e'.ledgers && e'.ledgers[h] == e.ledgers[h]
    ensures var g' := Record(e, g, DoCreate(x, y, z, o)); h in g'.live && g'.live[h] == g.live[h]
  {
    assert NameOK(e, h, e.ledgers[h]);
  }

  // A refused return freezes its ledger for ever: no later call, return or retirement
  // changes it or adds a milestone, so it keeps the lane it held.
  lemma {:induction false} FaultedForEver(e: Engine, g: Log, cs: seq<Command>, h: Handle)
    requires Inv(e, g) && h in e.ledgers && e.ledgers[h].faulted
    ensures var (e', g') := Run(e, g, cs);
            Inv(e', g') && h in e'.ledgers && e'.ledgers[h] == e.ledgers[h] && h in g'.live && g'.live[h] == g.live[h]
    decreases |cs|
  {
    if cs != [] {
      StepInv(e, g, cs[0]);
      FaultedStep(e, g, cs[0], h);
      FaultedForEver(Step(e, cs[0]), Record(e, g, cs[0]), cs[1..], h);
    }
  }
}
