// Runs of a new admission store that end with a free lane, a waiting ticket and no holder
// (runtime/src/admission.cpp).
module AdmissionStrands {
  import opened Common
  import opened Admission
  import opened AdmissionRuns

  // The state of a run, without its history.
  function After(s: Store, cs: seq<Command>): Store
    decreases |cs|
  {
    if cs == [] then s else After(Step(s, cs[0]), cs[1..])
  }

  lemma {:induction false} AfterIsRun(s: Store, turns: seq<Turn>, cs: seq<Command>)
    ensures Run(s, turns, cs).0 == After(s, cs)
    decreases |cs|
  {
    if cs != [] {
      AfterIsRun(Step(s, cs[0]), Record(s, turns, cs[0]), cs[1..]);
    }
  }

  lemma {:induction false} AfterAppend(s: Store, a: seq<Command>, b: seq<Command>)
    ensures After(s, a + b) == After(After(s, a), b)
    decreases |a|
  {
    if a == [] {
      assert a + b == b;
    } else {
      assert (a + b)[0] == a[0] && (a + b)[1..] == a[1..] + b;
      AfterAppend(Step(s, a[0]), a[1..], b);
    }
  }

  lemma AfterOneMore(s: Store, a: seq<Command>, c: Command)
    ensures After(s, a + [c]) == Step(After(s, a), c)
  {
    AfterAppend(s, a, [c]);
    var t := After(s, a);
    assert After(t, [c]) == After(Step(t, c), [c][1..]);
  }

  // --------------------------------------------------------------------------------
  // Using up revisions.

  // No ticket has generation 0, so this only counts a revision.
  function IdleCall(): Command {
    DoConsume(Handle(KGateTicket, 0, 0, 0, 0, 0))
  }

  function Idle(n: nat): seq<Command> {
    if n == 0 then [] else [IdleCall()] + Idle(n - 1)
  }

  lemma {:induction false} AfterIdle(s: Store, n: nat)
    requires IdleCall().h !in s.gates && s.revision + n <= LAST_REVISION + 1
    ensures After(s, Idle(n)) == s.(revision := s.revision + n)
    decreases n
  {
    if n > 0 {
      var t := s.(revision := s.revision + 1);
      assert Idle(n)[0] == IdleCall() && Idle(n)[1..] == Idle(n - 1);
      assert Step(s, IdleCall()) == t;
      AfterIdle(t, n - 1);
    }
  }

  // --------------------------------------------------------------------------------
  // Two transactions that may ask for the lane of connection 0.

  function Txn(s: Store, generation: nat): Handle {
    Handle(KTransaction, s.domain, s.store, 0, generation, 0)
  }

  function Ticket(s: Store, generation: nat): Handle {
    Handle(KGateTicket, s.domain, s.store, 0, generation, 0)
  }

  predicate Roomy(l: Limits) {
    l.transactions >= 2 && l.hops >= 2 && l.gates >= 2
  }

  function Open(transport: nat): Command {
    DoCreateInitiator(0, transport, 1, 0, 0)
  }

  // The hop that opening adds.
  function Opened(s: Store, transport: nat): Store {
    s.(revision := s.revision + 1, generation := s.generation + 2, sequence := s.sequence + 1,
       hops := s.hops[Handle(KHop, s.domain, s.store, 0, s.generation + 1, 0) :=
                        Hop(Txn(s, s.generation), 0, transport, 0, false, false, false, false, s.sequence, false)])
  }

  lemma OpenStep(s: Store, transport: nat)
    requires s.revision < LAST_REVISION && s.generation < 9 && s.sequence < 9 && !Clashes(s, 0, transport)
    requires |Txns(s)| < s.limits.transactions && |s.hops| < s.limits.hops
    ensures Step(s, Open(transport)) == Opened(s, transport)
  {
    var s1 := s.(revision := s.revision + 1);
    assert Txns(s1) == Txns(s);
    assert Clashes(s1, 0, transport) == Clashes(s, 0, transport);
  }

  ghost predicate Prepared(s: Store) {
    && s.gates == map[] && s.busy == {} && s.generation == 5 && s.sequence == 2 && s.limits.gates >= 2
    && ValidTxn(s, Txn(s, 1)) && ValidTxn(s, Txn(s, 3))
  }

  lemma Preparing(s: Store)
    requires s == NewStore(s.domain, s.store, s.limits, s.order) && Roomy(s.limits)
    ensures Prepared(After(s, [Open(0), Open(1)])) && After(s, [Open(0), Open(1)]).revision == 2
    ensures After(s, [Open(0), Open(1)]).domain == s.domain && After(s, [Open(0), Open(1)]).store == s.store
  {
    assert Txns(s) == {};
    OpenStep(s, 0);
    var s1 := Opened(s, 0);
    FirstTxns(s, s1);
    OpenStep(s1, 1);
    var s2 := Opened(s1, 1);
    assert [Open(0), Open(1)][1..] == [Open(1)] && [Open(1)][1..] == [];
    assert After(s, [Open(0), Open(1)]) == After(s1, [Open(1)]) == s2;
    PreparedTxns(s, s2);
  }

  lemma FirstTxns(s: Store, s1: Store)
    requires s.hops == map[] && s1 == Opened(s, 0)
    ensures |Txns(s1)| == 1 && |s1.hops| == 1 && !Clashes(s1, 0, 1)
  {
    assert Txns(s1) == {Txn(s, s.generation)};
  }

  lemma PreparedTxns(s: Store, s2: Store)
    requires s.hops == map[] && s.generation == 1 && s2 == Opened(Opened(s, 0), 1)
    ensures ValidTxn(s2, Txn(s2, 1)) && ValidTxn(s2, Txn(s2, 3))
  {
    var h1, h2 := Handle(KHop, s.domain, s.store, 0, 2, 0), Handle(KHop, s.domain, s.store, 0, 4, 0);
    assert h1 in s2.hops && s2.hops[h1].txn == Txn(s2, 1);
    assert h2 in s2.hops && s2.hops[h2].txn == Txn(s2, 3);
  }

  // Opening, then idling.
  function Prelude(n: nat): seq<Command> {
    [Open(0), Open(1)] + Idle(n)
  }

  lemma AfterPrelude(s: Store, n: nat)
    requires s == NewStore(s.domain, s.store, s.limits, s.order) && Roomy(s.limits) && n + 2 <= LAST_REVISION
    ensures Prepared(After(s, Prelude(n))) && After(s, Prelude(n)).revision == n + 2
    ensures After(s, Prelude(n)).domain == s.domain && After(s, Prelude(n)).store == s.store
  {
    Preparing(s);
    AfterAppend(s, [Open(0), Open(1)], Idle(n));
    var t := After(s, [Open(0), Open(1)]);
    AfterIdle(t, n);
    var u := t.(revision := t.revision + n);
    forall g | ValidTxn(t, g) ensures ValidTxn(u, g) {
      var h :| h in t.hops && t.hops[h].txn == g;
      assert u.hops[h].txn == g;
    }
  }

  // --------------------------------------------------------------------------------
  // request_request_gate.

  lemma AskFirst(s: Store, t: Handle)
    requires s.gates == map[] && ValidTxn(s, t) && s.limits.gates > 0 && s.revision <= LAST_REVISION && s.generation < 9 && s.sequence < 9
    ensures AskGate(s, t, 0).Ok?
  {
    var s1 := s.(revision := s.revision + 1);
    assert GatesOf(s1, 0) == {};
    var h :| h in s.hops && s.hops[h].txn == t;
    assert s1.hops[h].txn == t;
  }

  // A transaction asks for the free lane of a connection where nobody waits, and waits there.
  lemma RequestStrands(s: Store, n: nat)
    requires s == NewStore(s.domain, s.store, s.limits, s.order) && Roomy(s.limits) && n == LAST_REVISION - 2
    ensures var last := DoRequest(Txn(s, 1), 0, ReadyKey(0, 0));
            FreeServed(After(s, Prelude(n))) && !FreeServed(After(s, Prelude(n) + [last]))
  {
    var t, last := After(s, Prelude(n)), DoRequest(Txn(s, 1), 0, ReadyKey(0, 0));
    AfterPrelude(s, n);
    AskFirst(t, Txn(s, 1));
    AskMore(s, t, Prelude(n), last.t, 0, last.ready, RequestGate(t, last.t, 0, last.ready).0);
    RequestServed(t, last.t, 0, last.ready, []);
  }

  // --------------------------------------------------------------------------------
  // cancel_request_gate and cancel_request_permit.

  function Ask(s: Store, generation: nat): Command {
    DoRequest(Txn(s, generation), 0, ReadyKey(0, 0))
  }

  // The first request is granted at once.
  lemma FirstGranted(s: Store)
    requires Prepared(s) && s.revision < LAST_REVISION
    ensures var t := Step(s, Ask(s, 1));
            && t.gates == map[Ticket(s, 5) := Gate(Txn(s, 1), 0, Granted, ReadyKey(0, 0), 2)]
            && t == s.(revision := s.revision + 2, generation := 6, sequence := 3, gates := t.gates)
  {
    AskFirst(s, Txn(s, 1));
    var g := Ticket(s, 5);
    var x := Gate(Txn(s, 1), 0, GatePending, ReadyKey(0, 0), 2);
    var s1 := s.(revision := s.revision + 1, generation := 6, sequence := 3, gates := s.gates[g := x]);
    assert AskGate(s, Txn(s, 1), 0) == Ok((s1, g));
    var s2 := s1.(revision := s.revision + 2);
    assert s1.busy - {0} == {};
    assert s2.gates[g].state.GatePending?;
    assert LookAt(s2, 0) == Vacant(Some(g));
  }

  // The second one waits.
  lemma SecondWaits(s: Store)
    requires s.generation == 6 && s.sequence == 3 && s.revision < LAST_REVISION && s.limits.gates >= 2 && s.busy == {} && ValidTxn(s, Txn(s, 3))
    requires s.gates == map[Ticket(s, 5) := Gate(Txn(s, 1), 0, Granted, ReadyKey(0, 0), 2)]
    ensures Step(s, Ask(s, 3)) ==
              s.(revision := s.revision + 2, generation := 7, sequence := 4,
                 gates := s.gates[Ticket(s, 6) := Gate(Txn(s, 3), 0, GatePending, ReadyKey(0, 0), 3)])
  {
    var g := Ticket(s, 6);
    var x := Gate(Txn(s, 3), 0, GatePending, ReadyKey(0, 0), 3);
    var s0 := s.(revision := s.revision + 1);
    AskSecond(s, s0);
    var s1 := s0.(generation := 7, sequence := 4, gates := s.gates[g := x]);
    assert AskGate(s, Txn(s, 3), 0) == Ok((s1, g));
    var s2 := s1.(revision := s.revision + 2);
    assert s1.busy - {0} == {};
    assert s2.gates[Ticket(s, 5)].Holds();
    assert HasHolder(s2, 0);
  }

  lemma AskSecond(s: Store, s0: Store)
    requires s0 == s.(revision := s.revision + 1) && ValidTxn(s, Txn(s, 3))
    requires s.gates == map[Ticket(s, 5) := Gate(Txn(s, 1), 0, Granted, ReadyKey(0, 0), 2)]
    ensures ValidTxn(s0, Txn(s, 3)) && !AlreadyAsked(s0, Txn(s, 3), 0) && |GatesOf(s0, 0)| == 1
  {
    var h :| h in s.hops && s.hops[h].txn == Txn(s, 3);
    assert s0.hops[h].txn == Txn(s, 3);
    assert GatesOf(s0, 0) == {Ticket(s, 5)};
  }

  // One ticket holds the free lane of connection 0 and the other waits for it.
  ghost predicate Contended(s: Store, state: GateState) {
    && s.busy == {} && s.gates.Keys == {Ticket(s, 5), Ticket(s, 6)}
    && s.gates[Ticket(s, 5)].connection == 0 && s.gates[Ticket(s, 5)].state == state
    && s.gates[Ticket(s, 6)].connection == 0 && s.gates[Ticket(s, 6)].state.GatePending?
  }

  function Contest(s: Store, n: nat): seq<Command> {
    Prelude(n) + [Ask(s, 1)] + [Ask(s, 3)]
  }

  lemma AfterContest(s: Store, n: nat)
    requires s == NewStore(s.domain, s.store, s.limits, s.order) && Roomy(s.limits) && n + 6 <= LAST_REVISION
    ensures var t := After(s, Contest(s, n));
            Contended(t, Granted) && t.revision == n + 6 && t.domain == s.domain && t.store == s.store
  {
    AfterPrelude(s, n);
    var p := After(s, Prelude(n));
    AfterOneMore(s, Prelude(n), Ask(s, 1));
    FirstGranted(p);
    var q := Step(p, Ask(s, 1));
    TxnKept(p, q, Txn(s, 3));
    AfterOneMore(s, Prelude(n) + [Ask(s, 1)], Ask(s, 3));
    SecondWaits(q);
  }

  lemma TxnKept(s: Store, t: Store, x: Handle)
    requires ValidTxn(s, x) && t.hops == s.hops
    ensures ValidTxn(t, x)
  {
    var h :| h in s.hops && s.hops[h].txn == x;
    assert t.hops[h].txn == x;
  }

  lemma ContendedServed(s: Store, state: GateState)
    requires Contended(s, state) && (state.Granted? || state.Consumed?)
    ensures FreeServed(s)
  {
    assert s.gates[Ticket(s, 5)].Holds();
    assert HasHolder(s, 0);
    forall c, g | Waits(s, c, g) ensures c == 0 {
    }
  }

  // The holder gives up its ticket, and the other one keeps waiting on the free lane.
  lemma CancelGateStrands(s: Store, n: nat)
    requires s == NewStore(s.domain, s.store, s.limits, s.order) && Roomy(s.limits) && n == LAST_REVISION - 6
    ensures var last := DoCancelGate(Ticket(s, 5), false, ReadyKey(0, 0));
            FreeServed(After(s, Contest(s, n))) && !FreeServed(After(s, Contest(s, n) + [last]))
  {
    AfterContest(s, n);
    Strand(s, Contest(s, n), false);
  }

  // So does a holder that already drew its permit.
  lemma CancelPermitStrands(s: Store, n: nat)
    requires s == NewStore(s.domain, s.store, s.limits, s.order) && Roomy(s.limits) && n == LAST_REVISION - 7
    ensures var cs, last := Contest(s, n) + [DoConsume(Ticket(s, 5))], DoCancelGate(Ticket(s, 5), true, ReadyKey(0, 0));
            FreeServed(After(s, cs)) && !FreeServed(After(s, cs + [last]))
  {
    AfterContest(s, n);
    var cs := Contest(s, n) + [DoConsume(Ticket(s, 5))];
    AfterOneMore(s, Contest(s, n), DoConsume(Ticket(s, 5)));
    ConsumeContended(After(s, Contest(s, n)));
    Strand(s, cs, true);
  }

  lemma ConsumeContended(s: Store)
    requires Contended(s, Granted) && s.revision < LAST_REVISION
    ensures var t := Step(s, DoConsume(Ticket(s, 5)));
            Contended(t, Consumed) && t.revision == s.revision + 1 && t.domain == s.domain && t.store == s.store
  {
  }

  lemma StrandAt(s: Store, permit: bool, turns: seq<Turn>)
    requires GatesOK(s, turns) && s.revision == LAST_REVISION && Contended(s, if permit then Consumed else Granted)
    ensures FreeServed(s) && !FreeServed(Step(s, DoCancelGate(Ticket(s, 5), permit, ReadyKey(0, 0))))
  {
    ContendedServed(s, if permit then Consumed else Granted);
    assert Waits(s, 0, Ticket(s, 6));
    CancelServed(s, Ticket(s, 5), permit, ReadyKey(0, 0), turns);
  }

  lemma Strand(s: Store, cs: seq<Command>, permit: bool)
    requires s == NewStore(s.domain, s.store, s.limits, s.order)
    requires var t := After(s, cs);
             t.revision == LAST_REVISION && Contended(t, if permit then Consumed else Granted) && t.domain == s.domain && t.store == s.store
    ensures FreeServed(After(s, cs)) && !FreeServed(After(s, cs + [DoCancelGate(Ticket(s, 5), permit, ReadyKey(0, 0))]))
  {
    var t, g := After(s, cs), Ticket(s, 5);
    RunOK(s, [], cs);
    AfterIsRun(s, [], cs);
    AfterOneMore(s, cs, DoCancelGate(g, permit, ReadyKey(0, 0)));
    StrandAt(t, permit, Run(s, [], cs).1);
  }

  // --------------------------------------------------------------------------------
  // try_request_permit.

  // Nobody is in the way, and the revision the call counts is not the last.
  predicate Goes(s: Store, t: Handle, c: nat) {
    s.revision <= LAST_REVISION && ValidTxn(s.(revision := s.revision + 1), t) && c !in s.busy && !Contested(s, c)
  }

  // Asking and drawing in one go.
  function Drawn(s: Store, t: Handle, c: nat, ready: ReadyKey): Store {
    var (s', r) := RequestGate(s, t, c, ready);
    if r.Ok? then ConsumeGate(s', r.value).0 else s'
  }

  lemma TryShape(s: Store, t: Handle, c: nat, ready: ReadyKey)
    ensures var s1 := s.(revision := s.revision + 1);
            TryPermit(s, t, c, ready).0 ==
            if Goes(s, t, c) then Drawn(s1, t, c, ready) else if s.revision <= LAST_REVISION then s1 else s
  {
    assert Contested(s.(revision := s.revision + 1), c) == Contested(s, c);
  }

  // It counts a revision, then asks and draws: a run of calls already modelled.
  function TryCalls(s: Store, t: Handle, c: nat, ready: ReadyKey): seq<Command> {
    var idle := DoConsume(Ticket(s, s.generation));
    if !Goes(s, t, c) then [idle]
    else
      match RequestGate(s.(revision := s.revision + 1), t, c, ready).1
      case Err(_) => [idle] + [DoRequest(t, c, ready)]
      case Ok(g) => [idle] + [DoRequest(t, c, ready)] + [DoConsume(g)]
  }

  lemma TryIsRun(s: Store, t: Handle, c: nat, ready: ReadyKey, turns: seq<Turn>)
    requires GatesOK(s, turns)
    ensures After(s, TryCalls(s, t, c, ready)) == TryPermit(s, t, c, ready).0
  {
    var h := Ticket(s, s.generation);
    assert h in s.gates ==> GateOK(s, h, s.gates[h]);
    CountOne(s, h);
    TryShape(s, t, c, ready);
    if Goes(s, t, c) {
      AskAndDraw(s, s.(revision := s.revision + 1), [DoConsume(h)], t, c, ready);
    }
  }

  lemma CountOne(s: Store, h: Handle)
    requires h !in s.gates
    ensures After(s, [DoConsume(h)]) == if s.revision <= LAST_REVISION then s.(revision := s.revision + 1) else s
  {
    AfterOneMore(s, [], DoConsume(h));
    assert [] + [DoConsume(h)] == [DoConsume(h)];
  }

  lemma AskAndDraw(s: Store, s1: Store, before: seq<Command>, t: Handle, c: nat, ready: ReadyKey)
    requires After(s, before) == s1
    ensures var r := RequestGate(s1, t, c, ready).1;
            var asked := before + [DoRequest(t, c, ready)];
            After(s, if r.Ok? then asked + [DoConsume(r.value)] else asked) == Drawn(s1, t, c, ready)
  {
    var (u, r) := RequestGate(s1, t, c, ready);
    AskMore(s, s1, before, t, c, ready, u);
    if r.Ok? {
      ConsumeMore(s, u, before + [DoRequest(t, c, ready)], r.value);
    }
  }

  lemma AskMore(s: Store, s1: Store, before: seq<Command>, t: Handle, c: nat, ready: ReadyKey, u: Store)
    requires After(s, before) == s1 && u == RequestGate(s1, t, c, ready).0
    ensures After(s, before + [DoRequest(t, c, ready)]) == u
  {
    AfterOneMore(s, before, DoRequest(t, c, ready));
  }

  lemma ConsumeMore(s: Store, s1: Store, before: seq<Command>, g: Handle)
    requires After(s, before) == s1
    ensures After(s, before + [DoConsume(g)]) == ConsumeGate(s1, g).0
  {
    AfterOneMore(s, before, DoConsume(g));
  }

  lemma LastRequest(s: Store, t: Handle, c: nat, ready: ReadyKey)
    requires s.revision == LAST_REVISION
    ensures RequestGate(s, t, c, ready).0.revision > LAST_REVISION
  {
  }

  lemma DrawnServed(s: Store, t: Handle, c: nat, ready: ReadyKey, turns: seq<Turn>)
    requires GatesOK(s, turns) && FreeServed(s)
    ensures FreeServed(Drawn(s, t, c, ready)) <==> !Strands(s, DoRequest(t, c, ready))
  {
    var (u, r) := RequestGate(s, t, c, ready);
    RequestServed(s, t, c, ready, turns);
    if r.Ok? {
      if FreeServed(u) {
        ConsumeServed(u, r.value);
      } else {
        LastRequest(s, t, c, ready);
      }
    }
  }

  // It strands a ticket exactly one revision before the last, where the request inside it does.
  lemma TryServed(s: Store, t: Handle, c: nat, ready: ReadyKey, turns: seq<Turn>)
    requires GatesOK(s, turns) && FreeServed(s)
    ensures FreeServed(TryPermit(s, t, c, ready).0) <==>
              !(s.revision == LAST_REVISION - 1 && c !in s.busy && !Contested(s, c) && AskGate(s.(revision := s.revision + 1), t, c).Ok?)
  {
    var s1 := s.(revision := s.revision + 1);
    SameGatesOK(s, s1, turns);
    TryShape(s, t, c, ready);
    if Goes(s, t, c) {
      DrawnServed(s1, t, c, ready, turns);
      assert !HasHolder(s1, c);
    }
  }
}
