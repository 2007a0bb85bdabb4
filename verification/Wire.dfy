// Wire ledgers and call tickets (runtime/src/protocol.cpp), shared by the base protocol
// and the finite rule tables. A ledger is one hop's local record of a transport; between
// `begin_call` and `end_call` a ticket stands for the call in progress.
module Wire {
  import opened Common

  datatype WireState = Idle | Request | RequestReleased | Response | Terminal

  datatype Flow = Forward | Backward

  // `Unknown` stands for a value outside the enumeration, which `end_call` refuses.
  datatype Sync = Accepted | Updated | Completed | Unknown

  datatype Command = Read | Write | Ignore

  datatype Status = Incomplete | Okay | Failure(code: nat)

  datatype ResponseSnapshot = ResponseSnapshot(status: Status, length: nat)

  datatype MilestoneKind = KReleased | KReady | KTerminal

  datatype Milestone = Milestone(kind: MilestoneKind, time: nat, implicit: bool, response: Option<ResponseSnapshot>)

  const BEGIN_REQ := 1
  const END_REQ := 2
  const BEGIN_RESP := 3
  const END_RESP := 4

  datatype WireCall = WireCall(
    id: nat, connection: nat, transport: nat, flow: Flow, phase: nat, time: nat, delay: nat,
    command: Command, address: nat, status: Status, length: nat)

  datatype WireReturn = WireReturn(sync: Sync, phase: Option<nat>, delay: nat, response: Option<ResponseSnapshot>)

  datatype Ledger = Ledger(
    connection: nat, transport: nat, state: WireState, lastTiming: nat, faulted: bool, pending: bool,
    ordinal: nat, protocolState: nat, calls: set<nat>, command: Command, length: nat)

  datatype Pending = Pending(
    hop: Handle, call: WireCall, pre: WireState, input: nat, ignored: bool, failed: bool,
    rule: nat, draft: seq<Milestone>)

  datatype Limits = Limits(ledgers: nat, tickets: nat, history: nat)

  datatype Engine = Engine(
    domain: nat, store: nat, limits: Limits, generation: nat,
    ledgers: map<Handle, Ledger>, tickets: map<Handle, Pending>,
    requests: map<nat, Handle>, responses: map<nat, Handle>, ignorable: set<nat>,
    initial: nat, lanes: map<(nat, nat), set<Handle>>)

  datatype Error =
    | StaleHandle | WrongOwner | InvalidState | InvalidArgument | ProtocolViolation | Duplicate
    | Capacity | Overflow | TimeRegression | Unsupported

  function NewEngine(domain: nat, store: nat, limits: Limits, ignorable: set<nat>, initial: nat): Engine {
    Engine(domain, store, limits, 1, map[], map[], map[], map[], ignorable, initial, map[])
  }

  function AddTime(a: nat, b: nat): Result<nat, Error> {
    if a + b > MAX64 then Err(Overflow) else Ok(a + b)
  }

  // --------------------------------------------------------------------------------
  // Ledgers.

  predicate Bound(e: Engine, connection: nat, transport: nat) {
    exists h | h in e.ledgers :: e.ledgers[h].connection == connection && e.ledgers[h].transport == transport
  }

  function FreshLedger(e: Engine, connection: nat, transport: nat): Ledger {
    Ledger(connection, transport, Idle, 0, false, false, 0, e.initial, {}, Ignore, 0)
  }

  function CreateLedger(e: Engine, connection: nat, transport: nat, transportGeneration: nat, owner: nat): (Engine, Result<Handle, Error>) {
    if transportGeneration == 0 then (e, Err(InvalidArgument))
    else if Bound(e, connection, transport) then (e, Err(Duplicate))
    else if |e.ledgers| >= e.limits.ledgers then (e, Err(Capacity))
    else if e.generation == MAX64 then (e, Err(Overflow))
    else
      var h := Handle(KHop, e.domain, e.store, 0, e.generation, owner);
      (e.(generation := e.generation + 1, ledgers := e.ledgers[h := FreshLedger(e, connection, transport)]), Ok(h))
  }

  // Adopts a hop named elsewhere.
  function BindLedger(e: Engine, h: Handle, connection: nat, transport: nat, transportGeneration: nat): (Engine, Result<(), Error>) {
    if !h.kind.KHop? || h.domain != e.domain || h.generation == 0 || transportGeneration == 0 then (e, Err(WrongOwner))
    else if h.generation >= MAX64 then (e, Err(Overflow))
    else if h in e.ledgers then (e, Err(Duplicate))
    else if Bound(e, connection, transport) then (e, Err(Duplicate))
    else if |e.ledgers| >= e.limits.ledgers then (e, Err(Capacity))
    else
      (e.(generation := if e.generation <= h.generation then h.generation + 1 else e.generation,
          ledgers := e.ledgers[h := FreshLedger(e, connection, transport)]), Ok(()))
  }

  function RetireLedger(e: Engine, h: Handle): (Engine, Result<(), Error>) {
    if h !in e.ledgers then (e, Err(StaleHandle))
    else
      var l := e.ledgers[h];
      if l.pending || l.faulted || !l.state.Terminal? then (e, Err(InvalidState))
      else (e.(ledgers := e.ledgers - {h}), Ok(()))
  }

  function DiscardLedger(e: Engine, h: Handle): (Engine, Result<(), Error>) {
    if h !in e.ledgers then (e, Err(StaleHandle))
    else
      var l := e.ledgers[h];
      if l.pending || l.faulted || l.ordinal != 0 || !l.state.Idle? then (e, Err(InvalidState))
      else (e.(ledgers := e.ledgers - {h}), Ok(()))
  }

  // --------------------------------------------------------------------------------
  // Calls.

  predicate ReverseCall(e: Engine, c: WireCall) {
    exists t | t in e.tickets :: e.tickets[t].call.connection == c.connection && e.tickets[t].call.flow != c.flow
  }

  // The admission checks every call passes; the result is the call's annotated time.
  function Admit(e: Engine, h: Handle, c: WireCall): (r: Result<nat, Error>)
    ensures r.Ok? ==> h in e.ledgers && !e.ledgers[h].pending && !e.ledgers[h].faulted
    ensures r.Ok? ==> e.ledgers[h].connection == c.connection && e.ledgers[h].lastTiming <= r.value
  {
    if h !in e.ledgers then Err(StaleHandle)
    else
      var l := e.ledgers[h];
      if l.connection != c.connection || l.transport != c.transport then Err(WrongOwner)
      else if l.faulted || l.pending then Err(InvalidState)
      else if ReverseCall(e, c) then Err(ProtocolViolation)
      else if c.id in l.calls then Err(Duplicate)
      else if |e.tickets| >= e.limits.tickets || |l.calls| >= e.limits.history then Err(Capacity)
      else
        match AddTime(c.time, c.delay)
        case Err(x) => Err(x)
        case Ok(input) => if input < l.lastTiming then Err(TimeRegression) else Ok(input)
  }

  function Ticket(e: Engine, h: Handle): Handle {
    Handle(KGateTicket, e.domain, e.store, 0, e.generation, h.owner)
  }

  // The bookkeeping of an accepted call: ticket, call id and ledger.
  function OpenCall(e: Engine, h: Handle, l: Ledger, p: Pending): Engine {
    e.(generation := e.generation + 1,
       tickets := e.tickets[Ticket(e, h) := p],
       ledgers := e.ledgers[h := l.(calls := l.calls + {p.call.id}, pending := true, ordinal := l.ordinal + 1)])
  }

  function CloseCall(e: Engine, t: Handle, h: Handle, l: Ledger): Engine {
    e.(tickets := e.tickets - {t}, ledgers := e.ledgers[h := l.(pending := false)])
  }

  // A refused return keeps the ticket and freezes the ledger.
  function Fault(e: Engine, t: Handle): Engine
    requires t in e.tickets && e.tickets[t].hop in e.ledgers
  {
    var p := e.tickets[t];
    e.(tickets := e.tickets[t := p.(failed := true)], ledgers := e.ledgers[p.hop := e.ledgers[p.hop].(faulted := true)])
  }

  function FailCall(e: Engine, t: Handle): (Engine, Result<(), Error>)
    requires t in e.tickets ==> e.tickets[t].hop in e.ledgers
  {
    if t !in e.tickets then (e, Err(StaleHandle))
    else if e.tickets[t].failed then (e, Err(InvalidState))
    else (Fault(e, t), Ok(()))
  }

  // The annotated time of a return.
  function ReturnTime(l: Ledger, p: Pending, r: WireReturn): Result<nat, Error> {
    if r.sync.Accepted? then Ok(p.input)
    else
      match AddTime(p.call.time, r.delay)
      case Err(x) => Err(x)
      case Ok(time) => if time < l.lastTiming then Err(TimeRegression) else Ok(time)
  }

  datatype Exchange = Exchange(hop: Handle, next: WireState, milestones: seq<Milestone>, ignored: bool)

  // --------------------------------------------------------------------------------
  // What every engine keeps, whatever the rules.

  ghost predicate InTimeOrder(ms: seq<Milestone>) {
    forall i, j :: 0 <= i < j < |ms| ==> ms[i].time <= ms[j].time
  }

  ghost predicate TimesUpTo(ms: seq<Milestone>, bound: nat) {
    InTimeOrder(ms) && forall i :: 0 <= i < |ms| ==> ms[i].time <= bound
  }

  // The milestones of live ledgers, and of those already retired.
  datatype Log = Log(live: map<Handle, seq<Milestone>>, past: seq<seq<Milestone>>)

  const NO_LOG := Log(map[], [])

  // A ticket belongs to a live ledger with a call in progress.
  ghost predicate TicketOK(e: Engine, t: Handle, p: Pending) {
    && t.generation < e.generation
    && p.hop in e.ledgers
    && var l := e.ledgers[p.hop];
       && l.pending
       && l.connection == p.call.connection
       && (!p.ignored ==> l.lastTiming == p.input)
       && (p.failed ==> l.faulted)
  }

  ghost predicate TicketsOK(e: Engine) {
    && (forall t :: t in e.tickets ==> TicketOK(e, t, e.tickets[t]))
    && OneCallEach(e)
  }

  ghost predicate OneCallEach(e: Engine) {
    forall t, u {:trigger e.tickets[t], e.tickets[u]} :: t in e.tickets && u in e.tickets && e.tickets[t].hop == e.tickets[u].hop ==> t == u
  }

  ghost predicate NameOK(e: Engine, h: Handle, l: Ledger) {
    h.kind.KHop? && h.generation < e.generation && (l.ordinal == 0 ==> l.state.Idle? && !l.pending)
  }

  ghost predicate NamesOK(e: Engine) {
    forall h :: h in e.ledgers ==> NameOK(e, h, e.ledgers[h])
  }

  ghost predicate LogOK(e: Engine, g: Log) {
    && g.live.Keys == e.ledgers.Keys
    && (forall h :: h in e.ledgers ==> TimesUpTo(g.live[h], e.ledgers[h].lastTiming))
    && (forall i :: 0 <= i < |g.past| ==> InTimeOrder(g.past[i]))
  }

  ghost predicate Core(e: Engine, g: Log) {
    TicketsOK(e) && NamesOK(e) && LogOK(e, g)
  }

  // --------------------------------------------------------------------------------
  // The bookkeeping keeps the core, one ledger at a time.

  lemma OpenCore(e: Engine, g: Log, h: Handle, l: Ledger, p: Pending, e': Engine)
    requires Core(e, g) && h in e.ledgers && !e.ledgers[h].pending
    requires l.connection == e.ledgers[h].connection == p.call.connection && l.lastTiming >= e.ledgers[h].lastTiming
    requires p.hop == h && !p.failed && (!p.ignored ==> p.input == l.lastTiming)
    requires e'.generation == e.generation + 1 && e'.tickets == OpenCall(e, h, l, p).tickets && e'.ledgers == OpenCall(e, h, l, p).ledgers
    ensures Core(e', g)
  {
    forall t | t in e'.tickets ensures TicketOK(e', t, e'.tickets[t]) {
      assert t != Ticket(e, h) ==> TicketOK(e, t, e.tickets[t]);
    }
    assert OneCallEach(e') by {
      forall t | t in e.tickets ensures e.tickets[t].hop != h {
        assert TicketOK(e, t, e.tickets[t]);
      }
    }
    forall k | k in e'.ledgers ensures NameOK(e', k, e'.ledgers[k]) {
      assert NameOK(e, k, e.ledgers[k]);
    }
  }

  lemma FaultCore(e: Engine, g: Log, t: Handle, e': Engine)
    requires Core(e, g) && t in e.tickets && TicketOK(e, t, e.tickets[t]) && e' == Fault(e, t)
    ensures Core(e', g)
  {
    forall u | u in e'.tickets ensures TicketOK(e', u, e'.tickets[u]) {
      assert TicketOK(e, u, e.tickets[u]);
    }
    forall u, w | u in e'.tickets && w in e'.tickets && e'.tickets[u].hop == e'.tickets[w].hop ensures u == w {
      assert e.tickets[u].hop == e.tickets[w].hop;
    }
    forall k | k in e'.ledgers ensures NameOK(e', k, e'.ledgers[k]) {
      assert NameOK(e, k, e.ledgers[k]);
    }
  }

  function Append(g: Log, h: Handle, ms: seq<Milestone>): Log {
    g.(live := g.live[h := (if h in g.live then g.live[h] else []) + ms])
  }

  lemma CloseCore(e: Engine, g: Log, t: Handle, h: Handle, l: Ledger, ms: seq<Milestone>, e': Engine)
    requires Core(e, g) && t in e.tickets && h == e.tickets[t].hop && h in e.ledgers
    requires l.connection == e.ledgers[h].connection && l.ordinal == e.ledgers[h].ordinal
    requires TimesUpTo(g.live[h] + ms, l.lastTiming)
    requires e'.generation == e.generation && e'.tickets == e.tickets - {t}
    requires e'.ledgers == e.ledgers[h := l.(pending := false)]
    ensures Core(e', Append(g, h, ms))
  {
    assert TicketOK(e, t, e.tickets[t]) && NameOK(e, h, e.ledgers[h]);
    forall u | u in e'.tickets ensures TicketOK(e', u, e'.tickets[u]) {
      assert TicketOK(e, u, e.tickets[u]);
      assert e.tickets[u].hop != h;
    }
    forall u, w | u in e'.tickets && w in e'.tickets && e'.tickets[u].hop == e'.tickets[w].hop ensures u == w {
      assert e.tickets[u].hop == e.tickets[w].hop;
    }
    forall k | k in e'.ledgers ensures NameOK(e', k, e'.ledgers[k]) {
      assert NameOK(e, k, e.ledgers[k]);
    }
  }

  function Started(g: Log, h: Handle): Log {
    g.(live := g.live[h := []])
  }

  function Ended(g: Log, h: Handle): Log {
    if h in g.live then Log(g.live - {h}, g.past + [g.live[h]]) else g
  }

  lemma AddCore(e: Engine, g: Log, h: Handle, connection: nat, transport: nat, e': Engine)
    requires Core(e, g) && h !in e.ledgers && h.kind.KHop? && h.generation < e'.generation && e.generation <= e'.generation
    requires e'.tickets == e.tickets && e'.ledgers == e.ledgers[h := FreshLedger(e, connection, transport)]
    ensures Core(e', Started(g, h))
  {
    forall u | u in e'.tickets ensures TicketOK(e', u, e'.tickets[u]) {
      assert TicketOK(e, u, e.tickets[u]);
    }
    assert OneCallEach(e');
    forall k | k in e'.ledgers ensures NameOK(e', k, e'.ledgers[k]) {
      assert k != h ==> NameOK(e, k, e.ledgers[k]);
    }
  }

  lemma RemoveCore(e: Engine, g: Log, h: Handle, e': Engine)
    requires Core(e, g) && h in e.ledgers && !e.ledgers[h].pending && e' == e.(ledgers := e.ledgers - {h})
    ensures Core(e', Ended(g, h))
  {
    forall u | u in e'.tickets ensures TicketOK(e', u, e'.tickets[u]) {
      assert TicketOK(e, u, e.tickets[u]);
    }
    assert OneCallEach(e');
    forall k | k in e'.ledgers ensures NameOK(e', k, e'.ledgers[k]) {
      assert NameOK(e, k, e.ledgers[k]);
    }
    assert TimesUpTo(g.live[h], e.ledgers[h].lastTiming);
  }
}
