// Admission (runtime/src/admission.cpp): hops and their service, queued responses, and the
// gate tickets that order requests on a connection's lane.
module Admission {
  import opened Common
  import opened HandleOrder

  datatype Hop = Hop(
    txn: Handle, connection: nat, transport: nat, inTime: nat, wireTerminal: bool, semanticTerminal: bool,
    pending: bool, servicing: bool, sequence: nat, deferred: bool)

  datatype Response = Response(ready: ReadyKey, permit: Option<Handle>, sent: bool)

  datatype GateState = GatePending | Granted | Consumed | GateCancelled | Sent

  datatype Gate = Gate(txn: Handle, connection: nat, state: GateState, ready: ReadyKey, sequence: nat) {
    // Someone may use the lane next.
    predicate Holds() {
      state.Granted? || state.Consumed?
    }
    predicate Live() {
      state.GatePending? || Holds()
    }
  }

  datatype ResponseOrder = InOrder | ReadyOrder

  datatype Limits = Limits(transactions: nat, hops: nat, services: nat, responses: nat, gates: nat)

  datatype Store = Store(
    domain: nat, store: nat, limits: Limits, order: ResponseOrder, generation: nat, sequence: nat, active: int, reserved: int,
    hops: map<Handle, Hop>, gates: map<Handle, Gate>, responses: map<Handle, Response>, busy: set<nat>, revision: nat)

  datatype Error =
    | Overflow | InvalidArgument | ProtocolViolation | Capacity | Duplicate | StaleHandle | InvalidState | NotReady
    | TimeRegression | WrongOwner

  function NewStore(domain: nat, store: nat, limits: Limits, order: ResponseOrder): Store {
    Store(domain, store, limits, order, 1, 0, 0, 0, map[], map[], map[], {}, 0)
  }

  const LAST_REVISION: int := MAX64 - 32

  // Every mutation counts one revision.
  function Touch(s: Store): (r: Result<Store, Error>)
    ensures r.Ok? <==> s.revision <= LAST_REVISION
    ensures r.Ok? ==> r.value == s.(revision := s.revision + 1)
  {
    if s.revision > LAST_REVISION then Err(Overflow) else Ok(s.(revision := s.revision + 1))
  }

  function Fresh(s: Store, kind: HandleKind, owner: nat): Result<(Store, Handle), Error> {
    if s.generation >= MAX64 || s.sequence >= MAX64 then Err(Overflow)
    else Ok((s.(generation := s.generation + 1), Handle(kind, s.domain, s.store, 0, s.generation, owner)))
  }

  function Txns(s: Store): set<Handle> {
    set h | h in s.hops :: s.hops[h].txn
  }

  predicate ValidTxn(s: Store, t: Handle) {
    exists h | h in s.hops :: s.hops[h].txn == t
  }

  // --------------------------------------------------------------------------------
  // Hops and services.

  predicate Clashes(s: Store, connection: nat, transport: nat) {
    exists h | h in s.hops :: s.hops[h].connection == connection && s.hops[h].transport == transport
  }

  predicate Occupied(s: Store, connection: nat, transport: nat) {
    exists h | h in s.hops :: s.hops[h].connection == connection && (s.hops[h].pending || s.hops[h].transport == transport)
  }

  function AddHop(s: Store, h: Handle, x: Hop): Store {
    s.(hops := s.hops[h := x], sequence := s.sequence + 1)
  }

  function CreateInitiator(s0: Store, connection: nat, transport: nat, generation: nat, owner: nat, inTime: nat): (Store, Result<Handle, Error>) {
    match Touch(s0)
    case Err(e) => (s0, Err(e))
    case Ok(s) =>
      if generation == 0 then (s, Err(InvalidArgument))
      else if Clashes(s, connection, transport) then (s, Err(Duplicate))
      else if |Txns(s)| >= s.limits.transactions || |s.hops| >= s.limits.hops then (s, Err(Capacity))
      else
        match Fresh(s, KTransaction, owner)
        case Err(e) => (s, Err(e))
        case Ok((s1, t)) =>
          match Fresh(s1, KHop, owner)
          case Err(e) => (s1, Err(e))
          case Ok((s2, h)) =>
            (AddHop(s2, h, Hop(t, connection, transport, inTime, false, false, false, false, s.sequence, false)), Ok(h))
  }

  function Admit(s0: Store, connection: nat, transport: nat, generation: nat, owner: nat, inTime: nat, deferred: bool, laneFree: bool): (Store, Result<Handle, Error>) {
    match Touch(s0)
    case Err(e) => (s0, Err(e))
    case Ok(s) =>
      if !laneFree then (s, Err(ProtocolViolation))
      else if s.limits.services == 0 || generation == 0 then (s, Err(InvalidArgument))
      else if Occupied(s, connection, transport) then (s, Err(ProtocolViolation))
      else if |Txns(s)| >= s.limits.transactions || |s.hops| >= s.limits.hops then (s, Err(Capacity))
      else
        var service := !deferred && s.active < s.limits.services && s.reserved < s.limits.responses;
        match Fresh(s, KTransaction, owner)
        case Err(e) => (s, Err(e))
        case Ok((s1, t)) =>
          match Fresh(s1, KHop, owner)
          case Err(e) => (s1, Err(e))
          case Ok((s2, h)) =>
            var s3 := AddHop(s2, h, Hop(t, connection, transport, inTime, false, false, !service, service, s.sequence, deferred));
            (if service then s3.(active := s.active + 1, reserved := s.reserved + 1) else s3, Ok(h))
  }

  // The first pending hop of the connection that the walk meets.
  function FirstPending(hops: map<Handle, Hop>, walk: seq<Handle>, connection: nat): (r: Option<Handle>)
    requires forall h :: h in walk ==> h in hops
    ensures r.None? ==> forall h :: h in walk && hops[h].connection == connection ==> !hops[h].pending
    ensures r.Some? ==> r.value in walk && hops[r.value].connection == connection && hops[r.value].pending
  {
    if walk == [] then None
    else if hops[walk[0]].connection == connection && hops[walk[0]].pending then Some(walk[0])
    else FirstPending(hops, walk[1..], connection)
  }

  function PendingHop(s: Store, connection: nat): (r: Option<Handle>)
    ensures match r
            case None => forall h :: h in s.hops && s.hops[h].connection == connection ==> !s.hops[h].pending
            case Some(h) => h in s.hops && s.hops[h].connection == connection && s.hops[h].pending
  {
    FirstPending(s.hops, Walk(s.hops.Keys), connection)
  }

  function Promote(s0: Store, connection: nat): (Store, Result<Option<Handle>, Error>) {
    match Touch(s0)
    case Err(e) => (s0, Err(e))
    case Ok(s) =>
      if s.active >= s.limits.services || s.reserved >= s.limits.responses then (s, Ok(None))
      else
        match PendingHop(s, connection)
        case None => (s, Ok(None))
        case Some(h) =>
          if s.hops[h].deferred then (s, Err(NotReady))
          else
            (s.(hops := s.hops[h := s.hops[h].(pending := false, servicing := true)],
                active := s.active + 1, reserved := s.reserved + 1), Ok(Some(h)))
  }

  function CreateHop(s0: Store, t: Handle, connection: nat, transport: nat, generation: nat): (Store, Result<Handle, Error>) {
    match Touch(s0)
    case Err(e) => (s0, Err(e))
    case Ok(s) =>
      if !ValidTxn(s, t) then (s, Err(StaleHandle))
      else if generation == 0 then (s, Err(InvalidArgument))
      else if |s.hops| >= s.limits.hops then (s, Err(Capacity))
      else if Clashes(s, connection, transport) then (s, Err(Duplicate))
      else
        match Fresh(s, KHop, t.owner)
        case Err(e) => (s, Err(e))
        case Ok((s1, h)) => (AddHop(s1, h, Hop(t, connection, transport, 0, false, false, false, false, s.sequence, false)), Ok(h))
  }

  function QueueResponse(s0: Store, txn: Handle, h: Handle, ready: ReadyKey, incomplete: bool): (Store, Result<(), Error>) {
    match Touch(s0)
    case Err(e) => (s0, Err(e))
    case Ok(s) =>
      if h !in s.hops || s.hops[h].txn != txn then (s, Err(StaleHandle))
      else if !s.hops[h].servicing || h in s.responses then (s, Err(InvalidState))
      else if ready.time < s.hops[h].inTime then (s, Err(TimeRegression))
      else if incomplete then (s, Err(InvalidArgument))
      else
        (s.(responses := s.responses[h := Response(ready, None, false)],
            hops := s.hops[h := s.hops[h].(servicing := false)], active := s.active - 1), Ok(()))
  }

  // The hop of least sequence on the connection that is not terminal on the wire.
  function Earliest(hops: map<Handle, Hop>, walk: seq<Handle>, connection: nat, best: Option<Handle>): (r: Option<Handle>)
    requires forall h :: h in walk ==> h in hops
    requires best.Some? ==> best.value in hops
    ensures r.Some? ==> r.value in hops && (r == best || (r.value in walk && OnWire(hops, connection, r.value)))
    ensures best.Some? ==> r.Some? && hops[r.value].sequence <= hops[best.value].sequence
    ensures forall h :: h in walk && OnWire(hops, connection, h) ==> r.Some? && hops[r.value].sequence <= hops[h].sequence
  {
    if walk == [] then best
    else if OnWire(hops, connection, walk[0]) && (best.None? || hops[walk[0]].sequence < hops[best.value].sequence)
    then Earliest(hops, walk[1..], connection, Some(walk[0]))
    else Earliest(hops, walk[1..], connection, best)
  }

  predicate OnWire(hops: map<Handle, Hop>, connection: nat, h: Handle) {
    h in hops && hops[h].connection == connection && !hops[h].wireTerminal
  }

  // The hop's response may go out on the connection.
  predicate Ready(s: Store, connection: nat, h: Handle) {
    h in s.responses && h in s.hops && s.hops[h].connection == connection && !s.responses[h].sent
  }

  // Ready first, and among equals the earlier hop.
  predicate Ahead(s: Store, a: Handle, b: Handle)
    requires a in s.responses && a in s.hops && b in s.responses && b in s.hops
  {
    || s.responses[a].ready.Less(s.responses[b].ready)
    || (s.responses[a].ready == s.responses[b].ready && s.hops[a].sequence < s.hops[b].sequence)
  }

  // The hop's response replaces the choice made so far.
  predicate Preferred(s: Store, connection: nat, first: Option<Handle>, choice: Option<Handle>, h: Handle)
    requires choice.Some? ==> Ready(s, connection, choice.value)
  {
    Ready(s, connection, h) && if s.order.InOrder? then first == Some(h) else choice.None? || Ahead(s, h, choice.value)
  }

  // What the loop over the responses selects.
  function Choose(s: Store, connection: nat, walk: seq<Handle>, first: Option<Handle>, choice: Option<Handle>): (r: Option<Handle>)
    requires choice.Some? ==> Ready(s, connection, choice.value)
    ensures r.Some? ==> Ready(s, connection, r.value) && (r == choice || r.value in walk)
  {
    if walk == [] then choice
    else Choose(s, connection, walk[1..], first, if Preferred(s, connection, first, choice, walk[0]) then Some(walk[0]) else choice)
  }

  function FirstOpen(s: Store, connection: nat): Option<Handle> {
    Earliest(s.hops, Walk(s.hops.Keys), connection, None)
  }

  function Choice(s: Store, connection: nat): (r: Option<Handle>)
    ensures r.Some? ==> Ready(s, connection, r.value)
  {
    Choose(s, connection, Walk(s.responses.Keys), FirstOpen(s, connection), None)
  }

  // In order, only the earliest open hop may respond; otherwise nobody is passed over by
  // someone it is ahead of.
  lemma {:induction false} ChooseRight(s: Store, connection: nat, walk: seq<Handle>, first: Option<Handle>, choice: Option<Handle>)
    requires choice.Some? ==> Ready(s, connection, choice.value)
    requires s.order.InOrder? && choice.Some? ==> choice == first
    ensures var r := Choose(s, connection, walk, first, choice);
            if s.order.InOrder? then
              r.Some? ==> r == first
            else
              && (choice.Some? ==> r.Some? && !Ahead(s, choice.value, r.value))
              && (forall h :: h in walk && Ready(s, connection, h) ==> r.Some? && !Ahead(s, h, r.value))
    ensures s.order.InOrder? && first.Some? && (first == choice || (first.value in walk && Ready(s, connection, first.value))) ==>
              Choose(s, connection, walk, first, choice) == first
  {
    if walk != [] {
      assert walk == [walk[0]] + walk[1..];
      ChooseRight(s, connection, walk[1..], first, choice);
      if Ready(s, connection, walk[0]) && (s.order.InOrder? ==> first == Some(walk[0])) {
        ChooseRight(s, connection, walk[1..], first, Some(walk[0]));
      }
    }
  }

  // Whose response goes out next: in order, that of the earliest hop still on the wire, once
  // it is there; otherwise one that nobody is ahead of.
  lemma ChoiceRight(s: Store, connection: nat)
    ensures var r := Choice(s, connection);
            if s.order.InOrder? then
              forall h :: r == Some(h) <==>
                Ready(s, connection, h) && FirstOpen(s, connection) == Some(h)
            else
              && (r.None? <==> forall h :: h in s.responses ==> !Ready(s, connection, h))
              && (r.Some? ==> forall h :: Ready(s, connection, h) ==> !Ahead(s, h, r.value))
    ensures var f := FirstOpen(s, connection);
            && (f.None? <==> forall h :: h in s.hops ==> !OnWire(s.hops, connection, h))
            && (f.Some? ==> OnWire(s.hops, connection, f.value))
            && (f.Some? ==> forall h :: OnWire(s.hops, connection, h) ==> s.hops[f.value].sequence <= s.hops[h].sequence)
  {
    ChooseRight(s, connection, Walk(s.responses.Keys), FirstOpen(s, connection), None);
  }

  function SelectResponse(s0: Store, connection: nat, laneFree: bool): (Store, Result<Option<Handle>, Error>) {
    match Touch(s0)
    case Err(e) => (s0, Err(e))
    case Ok(s) =>
      if !laneFree || Outstanding(s, connection) then (s, Ok(None))
      else GivePermit(s, Choice(s, connection))
  }

  function GivePermit(s: Store, choice: Option<Handle>): (Store, Result<Option<Handle>, Error>)
    requires choice.Some? ==> choice.value in s.responses
  {
    match choice
    case None => (s, Ok(None))
    case Some(h) =>
      match Fresh(s, KResourceTicket, h.owner)
      case Err(e) => (s, Err(e))
      case Ok((s1, p)) => (s1.(responses := s1.responses[h := s1.responses[h].(permit := Some(p))]), Ok(Some(p)))
  }

  // A response of the connection is already permitted or sent.
  predicate Outstanding(s: Store, connection: nat) {
    exists h | h in s.responses :: h in s.hops && s.hops[h].connection == connection && (s.responses[h].permit.Some? || s.responses[h].sent)
  }

  function CancelResponsePermit(s0: Store, h: Handle, p: Handle): (Store, Result<(), Error>) {
    match Touch(s0)
    case Err(e) => (s0, Err(e))
    case Ok(s) =>
      if h !in s.responses || s.responses[h].permit != Some(p) then (s, Err(StaleHandle))
      else if s.responses[h].sent then (s, Err(InvalidState))
      else (s.(responses := s.responses[h := s.responses[h].(permit := None)]), Ok(()))
  }

  function ResponseSent(s0: Store, h: Handle, p: Handle): (Store, Result<(), Error>) {
    match Touch(s0)
    case Err(e) => (s0, Err(e))
    case Ok(s) =>
      if h !in s.responses || s.responses[h].permit != Some(p) then (s, Err(StaleHandle))
      else if s.responses[h].sent then (s, Err(Duplicate))
      else (s.(responses := s.responses[h := s.responses[h].(sent := true)]), Ok(()))
  }

  // The hop's wire work is over; its response, if any, gives its place back.
  function Ended(s: Store, h: Handle, semantic: bool): Store
    requires h in s.hops
  {
    var x := s.hops[h].(wireTerminal := true, semanticTerminal := s.hops[h].semanticTerminal || semantic);
    var s1 := s.(hops := s.hops[h := x]);
    if h in s.responses then s1.(responses := s.responses - {h}, reserved := s.reserved - 1) else s1
  }

  // `proven` is the protocol engine's word that the hop is terminal.
  function MarkWireTerminal(s0: Store, h: Handle, proven: bool): (Store, Result<(), Error>) {
    match Touch(s0)
    case Err(e) => (s0, Err(e))
    case Ok(s) =>
      if h !in s.hops then (s, Err(StaleHandle))
      else if !proven then (s, Err(WrongOwner))
      else if s.hops[h].wireTerminal then (s, Err(Duplicate))
      else if s.hops[h].pending || s.hops[h].servicing then (s, Err(InvalidState))
      else (Ended(s, h, false), Ok(()))
  }

  function MarkSemanticTerminal(s0: Store, h: Handle, time: nat): (Store, Result<(), Error>) {
    match Touch(s0)
    case Err(e) => (s0, Err(e))
    case Ok(s) =>
      if h !in s.hops then (s, Err(StaleHandle))
      else if !s.hops[h].wireTerminal || time < s.hops[h].inTime then (s, Err(InvalidState))
      else if s.hops[h].semanticTerminal then (s, Err(Duplicate))
      else (s.(hops := s.hops[h := s.hops[h].(semanticTerminal := true)]), Ok(()))
  }

  function SyncTerminal(s0: Store, h: Handle, matches: bool): (Store, Result<(), Error>) {
    match Touch(s0)
    case Err(e) => (s0, Err(e))
    case Ok(s) =>
      if h !in s.hops then (s, Err(StaleHandle))
      else if !matches then (s, Err(InvalidState))
      else if s.hops[h].pending || s.hops[h].servicing then (s, Err(InvalidState))
      else if s.hops[h].semanticTerminal then (s, Err(Duplicate))
      else (Ended(s, h, true), Ok(()))
  }

  predicate OwnsGate(s: Store, t: Handle) {
    exists g | g in s.gates :: s.gates[g].txn == t
  }

  // `unstarted` retires a hop that never entered the wire; otherwise it must be finished.
  function Retire(s0: Store, h: Handle, unstarted: bool): (Store, Result<(), Error>) {
    match Touch(s0)
    case Err(e) => (s0, Err(e))
    case Ok(s) =>
      if h !in s.hops then (s, Err(StaleHandle))
      else
        var x := s.hops[h];
        if unstarted && (x.servicing || x.pending || h in s.responses) then (s, Err(InvalidState))
        else if !unstarted && (!x.wireTerminal || !x.semanticTerminal) then (s, Err(InvalidState))
        else if OwnsGate(s, x.txn) then (s, Err(InvalidState))
        else (s.(hops := s.hops - {h}), Ok(()))
  }

  // --------------------------------------------------------------------------------
  // Request gates.

  predicate HasHolder(s: Store, connection: nat) {
    exists g | g in s.gates :: s.gates[g].connection == connection && s.gates[g].Holds()
  }

  // `next` waits longest on the connection, or nobody waits.
  ghost predicate IsNext(s: Store, connection: nat, next: Option<Handle>) {
    match next
    case None => forall g :: g in s.gates && s.gates[g].connection == connection ==> !s.gates[g].state.GatePending?
    case Some(h) =>
      && h in s.gates && s.gates[h].connection == connection && s.gates[h].state.GatePending?
      && forall g :: g in s.gates && s.gates[g].connection == connection && s.gates[g].state.GatePending? ==>
           s.gates[h].sequence <= s.gates[g].sequence
  }

  function SetGate(s: Store, g: Handle, state: GateState): Store
    requires g in s.gates
  {
    s.(gates := s.gates[g := s.gates[g].(state := state)])
  }

  // What the search over the tickets of a connection comes to: the lane is held, or the
  // ticket that waits longest, if any.
  datatype Look = Held | Vacant(next: Option<Handle>)

  function Scan(gates: map<Handle, Gate>, walk: seq<Handle>, connection: nat, best: Option<Handle>): Look
    requires forall g :: g in walk ==> g in gates
    requires best.Some? ==> best.value in gates
  {
    if walk == [] then Vacant(best)
    else
      var x := gates[walk[0]];
      if x.connection != connection then Scan(gates, walk[1..], connection, best)
      else if x.Holds() then Held
      else if x.state.GatePending? && (best.None? || x.sequence < gates[best.value].sequence)
      then Scan(gates, walk[1..], connection, Some(walk[0]))
      else Scan(gates, walk[1..], connection, best)
  }

  // The search is right: it stops at a holder, and otherwise names the longest waiter.
  lemma {:induction false} ScanRight(gates: map<Handle, Gate>, walk: seq<Handle>, connection: nat, best: Option<Handle>)
    requires forall g :: g in walk ==> g in gates
    requires best.Some? ==> best.value in gates
    ensures Scan(gates, walk, connection, best).Held? <==> exists g :: g in walk && gates[g].connection == connection && gates[g].Holds()
    ensures match Scan(gates, walk, connection, best)
            case Held => true
            case Vacant(None) => best.None? && forall g :: g in walk && gates[g].connection == connection ==> !gates[g].state.GatePending?
            case Vacant(Some(h)) =>
              && h in gates && (best == Some(h) || (h in walk && gates[h].connection == connection && gates[h].state.GatePending?))
              && (best.Some? ==> gates[h].sequence <= gates[best.value].sequence)
              && forall g :: g in walk && gates[g].connection == connection && gates[g].state.GatePending? ==> gates[h].sequence <= gates[g].sequence
  {
    if walk != [] {
      var x := gates[walk[0]];
      assert walk == [walk[0]] + walk[1..];
      ScanRight(gates, walk[1..], connection, best);
      ScanRight(gates, walk[1..], connection, Some(walk[0]));
    }
  }

  function LookAt(s: Store, connection: nat): (r: Look)
    ensures r.Held? <==> HasHolder(s, connection)
    ensures r.Vacant? ==> IsNext(s, connection, r.next)
  {
    ScanRight(s.gates, Walk(s.gates.Keys), connection, None);
    Scan(s.gates, Walk(s.gates.Keys), connection, None)
  }

  // The lane changes hands: with no holder, the longest waiter gets it.
  function UpdateLane(s0: Store, connection: nat, free: bool, ready: ReadyKey): (Store, Result<(), Error>) {
    match Touch(s0)
    case Err(e) => (s0, Err(e))
    case Ok(s1) =>
      var s := s1.(busy := if free then s1.busy - {connection} else s1.busy + {connection});
      if !free then (s, Ok(()))
      else
        match LookAt(s, connection)
        case Held => (s, Ok(()))
        case Vacant(None) => (s, Ok(()))
        case Vacant(Some(g)) => (s.(gates := s.gates[g := s.gates[g].(state := Granted, ready := ready)]), Ok(()))
  }

  predicate AlreadyAsked(s: Store, t: Handle, connection: nat) {
    exists g | g in s.gates :: s.gates[g].connection == connection && s.gates[g].txn == t && s.gates[g].Live()
  }

  function GatesOf(s: Store, connection: nat): set<Handle> {
    set g | g in s.gates && s.gates[g].connection == connection
  }

  // A new ticket, before the lane is looked at.
  function Ticketed(s: Store, t: Handle, connection: nat, g: Handle): Store {
    s.(gates := s.gates[g := Gate(t, connection, GatePending, ReadyKey(0, 0), s.sequence)], sequence := s.sequence + 1)
  }

  function AskGate(s0: Store, t: Handle, connection: nat): Result<(Store, Handle), (Store, Error)> {
    match Touch(s0)
    case Err(e) => Err((s0, e))
    case Ok(s) =>
      if !ValidTxn(s, t) then Err((s, StaleHandle))
      else if AlreadyAsked(s, t, connection) then Err((s, Duplicate))
      else if |GatesOf(s, connection)| >= s.limits.gates then Err((s, Capacity))
      else
        match Fresh(s, KGateTicket, t.owner)
        case Err(e) => Err((s, e))
        case Ok((s1, g)) => Ok((Ticketed(s1, t, connection, g), g))
  }

  // The lane is looked at once more; a failure of that second step is not reported.
  function RequestGate(s0: Store, t: Handle, connection: nat, ready: ReadyKey): (Store, Result<Handle, Error>) {
    match AskGate(s0, t, connection)
    case Err((s, e)) => (s, Err(e))
    case Ok((s, g)) => (UpdateLane(s, connection, connection !in s.busy, ready).0, Ok(g))
  }

  function ConsumeGate(s0: Store, g: Handle): (Store, Result<(), Error>) {
    match Touch(s0)
    case Err(e) => (s0, Err(e))
    case Ok(s) =>
      if g !in s.gates then (s, Err(StaleHandle))
      else if !s.gates[g].state.Granted? then (s, Err(NotReady))
      else (SetGate(s, g, Consumed), Ok(()))
  }

  predicate Contested(s: Store, connection: nat) {
    exists g | g in s.gates :: s.gates[g].connection == connection && s.gates[g].Live()
  }

  // Asks for the lane and draws the permit at once, if nobody is in the way.
  function TryPermit(s0: Store, t: Handle, connection: nat, ready: ReadyKey): (Store, Result<Option<Handle>, Error>) {
    match Touch(s0)
    case Err(e) => (s0, Err(e))
    case Ok(s) =>
      if !ValidTxn(s, t) then (s, Err(StaleHandle))
      else if connection in s.busy || Contested(s, connection) then (s, Ok(None))
      else
        var (s1, ticket) := RequestGate(s, t, connection, ready);
        match ticket
        case Err(e) => (s1, Err(e))
        case Ok(g) =>
          var (s2, r) := ConsumeGate(s1, g);
          match r
          case Err(e) => (s2, Err(e))
          case Ok(_) => (s2, Ok(Some(g)))
  }

  // Gives up a ticket, or with `permit` a permit already drawn from it.
  function CancelGate(s0: Store, g: Handle, permit: bool, ready: ReadyKey): (Store, Result<(), Error>) {
    match Touch(s0)
    case Err(e) => (s0, Err(e))
    case Ok(s) =>
      if g !in s.gates then (s, Err(StaleHandle))
      else
        var st := s.gates[g].state;
        if permit && st.GateCancelled? then (s, Ok(()))
        else if permit && !st.Consumed? then (s, Err(InvalidState))
        else if !permit && (st.Consumed? || st.Sent?) then (s, Err(InvalidState))
        else
          var s1 := SetGate(s, g, GateCancelled);
          UpdateLane(s1, s.gates[g].connection, s.gates[g].connection !in s.busy, ready)
  }

  function RequestSent(s0: Store, g: Handle): (Store, Result<(), Error>) {
    match Touch(s0)
    case Err(e) => (s0, Err(e))
    case Ok(s) =>
      if g !in s.gates then (s, Err(StaleHandle))
      else if !s.gates[g].state.Consumed? then (s, Err(InvalidState))
      else (SetGate(s, g, Sent).(busy := s.busy + {s.gates[g].connection}), Ok(()))
  }

  function RetireTicket(s0: Store, g: Handle): (Store, Result<(), Error>) {
    match Touch(s0)
    case Err(e) => (s0, Err(e))
    case Ok(s) =>
      if g !in s.gates then (s, Err(StaleHandle))
      else if !s.gates[g].state.Sent? && !s.gates[g].state.GateCancelled? then (s, Err(InvalidState))
      else (s.(gates := s.gates - {g}), Ok(()))
  }

  // --------------------------------------------------------------------------------
  // The loops.

  method SearchPending(s: Store, connection: nat) returns (r: Option<Handle>)
    ensures r == PendingHop(s, connection)
  {
    r := PendingAmong(s.hops, Walk(s.hops.Keys), connection);
  }

  method PendingAmong(hops: map<Handle, Hop>, walk: seq<Handle>, connection: nat) returns (r: Option<Handle>)
    requires forall h :: h in walk ==> h in hops
    ensures r == FirstPending(hops, walk, connection)
  {
    var i := 0;
    assert walk[0..] == walk;
    while i < |walk|
      invariant 0 <= i <= |walk|
      invariant FirstPending(hops, walk, connection) == FirstPending(hops, walk[i..], connection)
    {
      if hops[walk[i]].connection == connection && hops[walk[i]].pending {
        return Some(walk[i]);
      }
      i := i + 1;
    }
    return None;
  }

  method SearchLane(s: Store, connection: nat) returns (r: Look)
    ensures r == LookAt(s, connection)
  {
    r := LaneAmong(s.gates, Walk(s.gates.Keys), connection);
  }

  method LaneAmong(gates: map<Handle, Gate>, walk: seq<Handle>, connection: nat) returns (r: Look)
    requires forall g :: g in walk ==> g in gates
    ensures r == Scan(gates, walk, connection, None)
  {
    var next: Option<Handle> := None;
    var i := 0;
    assert walk[0..] == walk;
    while i < |walk|
      invariant 0 <= i <= |walk| && (next.Some? ==> next.value in gates)
      invariant Scan(gates, walk, connection, None) == Scan(gates, walk[i..], connection, next)
    {
      var x := gates[walk[i]];
      if x.connection == connection {
        if x.Holds() {
          return Held;
        }
        if x.state.GatePending? && (next.None? || x.sequence < gates[next.value].sequence) {
          next := Some(walk[i]);
        }
      }
      i := i + 1;
    }
    return Vacant(next);
  }

  method SearchEarliest(s: Store, connection: nat) returns (first: Option<Handle>)
    ensures first == FirstOpen(s, connection)
  {
    first := EarliestAmong(s.hops, Walk(s.hops.Keys), connection);
  }

  method EarliestAmong(hops: map<Handle, Hop>, walk: seq<Handle>, connection: nat) returns (first: Option<Handle>)
    requires forall h :: h in walk ==> h in hops
    ensures first == Earliest(hops, walk, connection, None)
  {
    var i := 0;
    first := None;
    assert walk[0..] == walk;
    while i < |walk|
      invariant 0 <= i <= |walk| && (first.Some? ==> first.value in hops)
      invariant Earliest(hops, walk, connection, None) == Earliest(hops, walk[i..], connection, first)
    {
      if OnWire(hops, connection, walk[i]) && (first.None? || hops[walk[i]].sequence < hops[first.value].sequence) {
        first := Some(walk[i]);
      }
      i := i + 1;
    }
  }

  method SearchResponse(s: Store, connection: nat) returns (choice: Option<Handle>)
    ensures choice == Choice(s, connection)
  {
    var first := SearchEarliest(s, connection);
    choice := SearchAmong(s, connection, Walk(s.responses.Keys), first);
  }

  method SearchAmong(s: Store, connection: nat, walk: seq<Handle>, first: Option<Handle>) returns (choice: Option<Handle>)
    ensures choice == Choose(s, connection, walk, first, None)
  {
    var i := 0;
    choice := None;
    assert walk[0..] == walk;
    while i < |walk|
      invariant 0 <= i <= |walk| && (choice.Some? ==> Ready(s, connection, choice.value))
      invariant Choose(s, connection, walk, first, None) == Choose(s, connection, walk[i..], first, choice)
    {
      if Preferred(s, connection, first, choice, walk[i]) {
        choice := Some(walk[i]);
      }
      i := i + 1;
    }
  }
}
