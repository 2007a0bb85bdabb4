// Transactions over cells, event queues and prepared participants
// (runtime/src/event_txn.cpp): everything is staged first, and `commit` validates all of
// it before it changes anything.
module EventTxn {
  import opened Common
  import opened EventQueue

  // A value is a byte string or anything else; `size` is its measured footprint.
  datatype CellValue = Blob(data: seq<nat>, size: nat) | Other(x: int, size: nat)

  datatype Cell = Cell(value: CellValue, version: nat, epoch: nat, stableBytes: bool, epochIndependent: bool)

  datatype Write = Write(cell: nat, version: nat, value: CellValue)

  // What the transaction knows about a participant: whether it currently validates, the
  // bytes it now needs and the bytes reserved for it.
  datatype Participant = Participant(id: nat, valid: bool, needs: nat, reserved: nat)

  datatype World = World(cells: seq<Cell>, queues: seq<Queue>, applied: seq<nat>)

  datatype Budget = Budget(writes: nat, actions: nat, events: nat, bytes: nat)

  datatype Txn = Txn(
    epoch: nat, budget: Budget,
    writes: seq<Write>, actions: seq<int>, events: seq<(nat, Handle)>, cancels: seq<(nat, Handle)>,
    participants: seq<Participant>, bytes: nat, closed: bool, committed: bool)

  datatype TxnError = Closed | WrongEpoch | VersionConflict | VersionExhausted | StableShape | NoCapacity
    | ParticipantGrew | ParticipantRefused | BadSavepoint | InQueue(e: EventQueue.Error) | NoSuchTarget

  function NewTxn(epoch: nat, budget: Budget): Txn {
    Txn(epoch, budget, [], [], [], [], [], 0, false, false)
  }

  // --------------------------------------------------------------------------------
  // Staging.

  function FindWrite(writes: seq<Write>, c: nat): (r: Option<nat>)
    ensures r.Some? ==> r.value < |writes| && writes[r.value].cell == c
    ensures r.None? ==> forall i :: 0 <= i < |writes| ==> writes[i].cell != c
  {
    if writes == [] then None
    else
      var last := |writes| - 1;
      var rest := FindWrite(writes[..last], c);
      if rest.Some? then rest
      else if writes[last].cell == c then Some(last)
      else
        assert forall i :: 0 <= i < last ==> writes[..last][i] == writes[i];
        None
  }

  predicate EpochOK(cell: Cell, epoch: nat) {
    cell.epochIndependent || cell.epoch == epoch
  }

  predicate ShapeOK(cell: Cell, v: CellValue) {
    cell.stableBytes ==> cell.value.Blob? && v.Blob? && |cell.value.data| == |v.data|
  }

  function Read(w: World, t: Txn, c: nat): Result<CellValue, TxnError> {
    if t.closed then Err(Closed)
    else if c >= |w.cells| then Err(NoSuchTarget)
    else if !EpochOK(w.cells[c], t.epoch) then Err(WrongEpoch)
    else
      var i := FindWrite(t.writes, c);
      Ok(if i.Some? then t.writes[i.value].value else w.cells[c].value)
  }

  function WriteBytes(writes: seq<Write>): nat {
    if writes == [] then 0 else WriteBytes(writes[..|writes| - 1]) + writes[|writes| - 1].value.size
  }

  ghost predicate DistinctCells(writes: seq<Write>) {
    forall i, j :: 0 <= i < j < |writes| ==> writes[i].cell != writes[j].cell
  }

  ghost predicate DistinctEvents(events: seq<(nat, Handle)>) {
    forall i, j :: 0 <= i < j < |events| ==> events[i] != events[j]
  }

  // Generations never run backwards, so an older token differs from a newer one.
  ghost predicate Issued(w: World, events: seq<(nat, Handle)>) {
    forall i :: 0 <= i < |events| ==>
      && events[i].0 < |w.queues|
      && events[i].1.slot < |w.queues[events[i].0].slots|
      && events[i].1.generation <= w.queues[events[i].0].slots[events[i].1.slot].generation
  }

  // The staged effects are consistent with each other.
  ghost predicate TxnOK(w: World, t: Txn) {
    && DistinctCells(t.writes)
    && (forall i :: 0 <= i < |t.writes| ==> t.writes[i].cell < |w.cells|)
    && DistinctEvents(t.events)
    && Issued(w, t.events)
    && (forall i :: 0 <= i < |t.cancels| ==> t.cancels[i].0 < |w.queues|)
    && WriteBytes(t.writes) <= t.bytes <= t.budget.bytes
    && (t.committed ==> t.closed)
  }

  function Buffer(w: World, t: Txn, c: nat, v: CellValue): (r: Result<Txn, TxnError>) {
    if t.closed then Err(Closed)
    else if c >= |w.cells| then Err(NoSuchTarget)
    else if !EpochOK(w.cells[c], t.epoch) then Err(WrongEpoch)
    else
      var i := FindWrite(t.writes, c);
      var prior := if i.Some? then t.writes[i.value].value.size else 0;
      if v.size + t.bytes > t.budget.bytes + prior then Err(NoCapacity)
      else if !ShapeOK(w.cells[c], v) then Err(StableShape)
      else if i.Some? then
        Ok(t.(writes := t.writes[i.value := t.writes[i.value].(value := v)],
              bytes := if prior <= t.bytes then t.bytes - prior + v.size else v.size))
      else if |t.writes| == t.budget.writes then Err(NoCapacity)
      else Ok(t.(writes := t.writes + [Write(c, w.cells[c].version, v)], bytes := t.bytes + v.size))
  }

  function StageAction(t: Txn, action: int, cost: nat): Result<Txn, TxnError> {
    if t.closed then Err(Closed)
    else if |t.actions| == t.budget.actions || t.bytes + cost > t.budget.bytes then Err(NoCapacity)
    else Ok(t.(actions := t.actions + [action], bytes := t.bytes + cost))
  }

  // Reserves a queue slot at once; the event enters the queue at commit.
  function StageEvent(w: World, t: Txn, k: nat, e: EventDraft): (World, Result<(Txn, Handle), TxnError>) {
    if t.closed then (w, Err(Closed))
    else if k >= |w.queues| then (w, Err(NoSuchTarget))
    else if |t.events| == t.budget.events || t.bytes + e.bytes > t.budget.bytes then (w, Err(NoCapacity))
    else
      var (q, r) := Prepare(w.queues[k], e);
      var w' := w.(queues := w.queues[k := q]);
      match r
      case Err(err) => (w', Err(InQueue(err)))
      case Ok(h) => (w', Ok((t.(events := t.events + [(k, h)], bytes := t.bytes + e.bytes), h)))
  }

  function StageCancel(w: World, t: Txn, k: nat, h: Handle): Result<Txn, TxnError> {
    if t.closed then Err(Closed)
    else if k >= |w.queues| then Err(NoSuchTarget)
    else if |t.cancels| == t.budget.events then Err(NoCapacity)
    else if (k, h) !in t.events && ValidateCancel(w.queues[k], h).Err? then Err(InQueue(ValidateCancel(w.queues[k], h).error))
    else Ok(t.(cancels := t.cancels + [(k, h)]))
  }

  function StageParticipant(t: Txn, p: Participant): Result<Txn, TxnError> {
    if t.closed then Err(Closed)
    else if |t.participants| == t.budget.writes || t.bytes + p.needs > t.budget.bytes then Err(NoCapacity)
    else if !p.valid then Err(ParticipantRefused)
    else Ok(t.(participants := t.participants + [p.(reserved := p.needs)], bytes := t.bytes + p.needs))
  }

  // --------------------------------------------------------------------------------
  // Savepoints.

  datatype Savepoint = Savepoint(
    writes: seq<Write>, reserved: seq<nat>, bytes: nat, actions: nat, events: nat, cancels: nat)

  function Checkpoint(t: Txn): Savepoint {
    Savepoint(t.writes, seq(|t.participants|, i requires 0 <= i < |t.participants| => t.participants[i].reserved),
              t.bytes, |t.actions|, |t.events|, |t.cancels|)
  }

  // Dropping a staged event gives its reservation back.
  function AbandonAll(queues: seq<Queue>, events: seq<(nat, Handle)>): (r: seq<Queue>)
    ensures |r| == |queues|
    decreases |events|
  {
    if events == [] then queues
    else
      var (k, h) := events[0];
      AbandonAll(if k < |queues| then queues[k := Abandon(queues[k], h)] else queues, events[1..])
  }

  function Rollback(w: World, t: Txn, s: Savepoint): (World, Result<Txn, TxnError>) {
    if t.closed || s.actions > |t.actions| || s.events > |t.events| || s.cancels > |t.cancels| || |s.reserved| > |t.participants|
    then (w, Err(BadSavepoint))
    else
      (w.(queues := AbandonAll(w.queues, t.events[s.events..])),
       Ok(t.(writes := s.writes, bytes := s.bytes,
             participants := seq(|s.reserved|, i requires 0 <= i < |s.reserved| => t.participants[i].(reserved := s.reserved[i])),
             actions := t.actions[..s.actions], events := t.events[..s.events], cancels := t.cancels[..s.cancels])))
  }

  // Gives everything up; a transaction that is already closed stays as it is.
  function Discard(w: World, t: Txn): (World, Txn) {
    if t.closed then (w, t)
    else (w.(queues := AbandonAll(w.queues, t.events)), t.(writes := [], actions := [], events := [], cancels := [], participants := [], closed := true))
  }

  datatype Stage =
    | DoBuffer(c: nat, v: CellValue)
    | DoAction(action: int, cost: nat)
    | DoEvent(k: nat, e: EventDraft)
    | DoCancelEvent(k: nat, h: Handle)
    | DoParticipant(p: Participant)

  // One staging call; a refused call leaves the transaction as it was.
  function StageOne(w: World, t: Txn, s: Stage): (World, Txn) {
    match s
    case DoBuffer(c, v) => (w, match Buffer(w, t, c, v) case Ok(t') => t' case Err(_) => t)
    case DoAction(a, cost) => (w, match StageAction(t, a, cost) case Ok(t') => t' case Err(_) => t)
    case DoEvent(k, e) =>
      var (w', r) := StageEvent(w, t, k, e);
      (w', match r case Ok((t', _)) => t' case Err(_) => t)
    case DoCancelEvent(k, h) => (w, match StageCancel(w, t, k, h) case Ok(t') => t' case Err(_) => t)
    case DoParticipant(p) => (w, match StageParticipant(t, p) case Ok(t') => t' case Err(_) => t)
  }

  function StageAll(w: World, t: Txn, ss: seq<Stage>): (World, Txn)
    decreases |ss|
  {
    if ss == [] then (w, t)
    else
      var (w', t') := StageOne(w, t, ss[0]);
      StageAll(w', t', ss[1..])
  }

  // --------------------------------------------------------------------------------
  // Commit.

  datatype Status =
    | Committed
    | Rejected(error: TxnError)
    | Terminated      // the implementation would end the program here

  function CheckWrite(w: World, x: Write, epoch: nat): Option<TxnError>
    requires x.cell < |w.cells|
  {
    var cell := w.cells[x.cell];
    if cell.version != x.version || !EpochOK(cell, epoch) then Some(VersionConflict)
    else if x.version == MAX64 then Some(VersionExhausted)
    else if !ShapeOK(cell, x.value) then Some(StableShape)
    else None
  }

  function ApplyWrite(cells: seq<Cell>, x: Write): (r: seq<Cell>)
    requires x.cell < |cells|
    ensures |r| == |cells|
  {
    cells[x.cell := cells[x.cell].(value := x.value, version := cells[x.cell].version + 1)]
  }

  // --------------------------------------------------------------------------------
  // What a commit leaves behind, stated on the world before it.

  // The staged events of queue `k` have entered it.
  function EnqueuedBy(q: Queue, k: nat, events: seq<(nat, Handle)>): (r: Queue)
    ensures |r.slots| == |q.slots|
  {
    q.(slots := seq(|q.slots|, i requires 0 <= i < |q.slots| =>
      if (k, Token(q, i)) in events then q.slots[i].(state := Queued) else q.slots[i]))
  }

  // The waiting events named by the cancels of queue `k` are cancelled.
  function CancelledBy(q: Queue, k: nat, cancels: seq<(nat, Handle)>): (r: Queue)
    ensures |r.slots| == |q.slots|
  {
    q.(slots := seq(|q.slots|, i requires 0 <= i < |q.slots| =>
      if (k, Token(q, i)) in cancels && q.slots[i].Waiting() then q.slots[i].(cancelled := true) else q.slots[i]))
  }

  function WrittenBy(cells: seq<Cell>, writes: seq<Write>): (r: seq<Cell>)
    requires forall i :: 0 <= i < |writes| ==> writes[i].cell < |cells|
    ensures |r| == |cells|
  {
    seq(|cells|, c requires 0 <= c < |cells| =>
      var i := FindWrite(writes, c);
      if i.Some? then cells[c].(value := writes[i.value].value, version := cells[c].version + 1) else cells[c])
  }

  function Ids(ps: seq<Participant>): seq<nat> {
    seq(|ps|, i requires 0 <= i < |ps| => ps[i].id)
  }

  // Every staged effect applied exactly once, and nothing else changed.
  ghost predicate AllApplied(w: World, t: Txn, w': World)
    requires forall i :: 0 <= i < |t.writes| ==> t.writes[i].cell < |w.cells|
  {
    && w'.cells == WrittenBy(w.cells, t.writes)
    && |w'.queues| == |w.queues|
    && (forall k :: 0 <= k < |w.queues| ==> w'.queues[k] == CancelledBy(EnqueuedBy(w.queues[k], k, t.events), k, t.cancels))
    && w'.applied == w.applied + Ids(t.participants)
  }

  // The world that has it all.
  function CommittedWorld(w: World, t: Txn): World
    requires forall i :: 0 <= i < |t.writes| ==> t.writes[i].cell < |w.cells|
  {
    World(WrittenBy(w.cells, t.writes),
          seq(|w.queues|, k requires 0 <= k < |w.queues| => CancelledBy(EnqueuedBy(w.queues[k], k, t.events), k, t.cancels)),
          w.applied + Ids(t.participants))
  }

  lemma AppliedOnce(w: World, t: Txn, w': World)
    requires (forall i :: 0 <= i < |t.writes| ==> t.writes[i].cell < |w.cells|) && AllApplied(w, t, w')
    ensures w' == CommittedWorld(w, t)
  {
    assert w'.queues == CommittedWorld(w, t).queues;
  }

  // --------------------------------------------------------------------------------
  // The validation pass.

  ghost predicate WritesValid(w: World, writes: seq<Write>, epoch: nat) {
    forall i :: 0 <= i < |writes| ==> writes[i].cell < |w.cells| && CheckWrite(w, writes[i], epoch).None?
  }

  ghost predicate EventsValid(w: World, events: seq<(nat, Handle)>) {
    forall i :: 0 <= i < |events| ==> events[i].0 < |w.queues| && Preflight(w.queues[events[i].0], events[i].1).Ok?
  }

  ghost predicate CancelsValid(w: World, t: Txn) {
    forall i :: 0 <= i < |t.cancels| ==>
      && t.cancels[i].0 < |w.queues|
      && (t.cancels[i] in t.events || ValidateCancel(w.queues[t.cancels[i].0], t.cancels[i].1).Ok?)
  }

  ghost predicate ParticipantsValid(ps: seq<Participant>) {
    forall i :: 0 <= i < |ps| ==> ps[i].valid && ps[i].needs <= ps[i].reserved
  }

  // Nothing staged has been overtaken since it was staged.
  ghost predicate Admissible(w: World, t: Txn, epoch: nat) {
    && !t.closed
    && epoch == t.epoch
    && WritesValid(w, t.writes, epoch)
    && EventsValid(w, t.events)
    && CancelsValid(w, t)
    && ParticipantsValid(t.participants)
  }

  // Changes nothing; reports the first objection.
  method ValidateAll(w: World, t: Txn, epoch: nat) returns (objection: Option<TxnError>)
    requires TxnOK(w, t)
    ensures objection.None? <==> Admissible(w, t, epoch)
  {
    if t.closed {
      return Some(Closed);
    }
    if epoch != t.epoch {
      return Some(WrongEpoch);
    }
    for i := 0 to |t.writes|
      invariant forall j :: 0 <= j < i ==> CheckWrite(w, t.writes[j], epoch).None?
    {
      var bad := CheckWrite(w, t.writes[i], epoch);
      if bad.Some? {
        return bad;
      }
    }
    for i := 0 to |t.events|
      invariant forall j :: 0 <= j < i ==> Preflight(w.queues[t.events[j].0], t.events[j].1).Ok?
    {
      var r := Preflight(w.queues[t.events[i].0], t.events[i].1);
      if r.Err? {
        return Some(InQueue(r.error));
      }
    }
    for i := 0 to |t.cancels|
      invariant forall j :: 0 <= j < i ==>
                  t.cancels[j] in t.events || ValidateCancel(w.queues[t.cancels[j].0], t.cancels[j].1).Ok?
    {
      if t.cancels[i] !in t.events {
        var r := ValidateCancel(w.queues[t.cancels[i].0], t.cancels[i].1);
        if r.Err? {
          return Some(InQueue(r.error));
        }
      }
    }
    for i := 0 to |t.participants|
      invariant forall j :: 0 <= j < i ==> t.participants[j].valid && t.participants[j].needs <= t.participants[j].reserved
    {
      if t.participants[i].needs > t.participants[i].reserved {
        return Some(ParticipantGrew);
      }
      if !t.participants[i].valid {
        return Some(ParticipantRefused);
      }
    }
    objection := None;
  }

  // --------------------------------------------------------------------------------
  // The apply pass.

  lemma {:induction false} FindWriteAppend(writes: seq<Write>, x: Write, c: nat)
    requires forall i :: 0 <= i < |writes| ==> writes[i].cell != x.cell
    ensures FindWrite(writes + [x], c) == if c == x.cell then Some(|writes|) else FindWrite(writes, c)
  {
    assert (writes + [x])[..|writes|] == writes;
  }

  lemma WrittenStep(cells: seq<Cell>, writes: seq<Write>, n: nat)
    requires n < |writes| && DistinctCells(writes)
    requires forall i :: 0 <= i < |writes| ==> writes[i].cell < |cells|
    ensures ApplyWrite(WrittenBy(cells, writes[..n]), writes[n]) == WrittenBy(cells, writes[..n + 1])
  {
    var x := writes[n];
    assert writes[..n + 1] == writes[..n] + [x];
    forall c | 0 <= c < |cells|
      ensures ApplyWrite(WrittenBy(cells, writes[..n]), x)[c] == WrittenBy(cells, writes[..n + 1])[c]
    {
      FindWriteAppend(writes[..n], x, c);
    }
  }

  lemma EnqueueStep(q: Queue, k: nat, events: seq<(nat, Handle)>, h: Handle)
    requires Preflight(q, h).Ok? && (k, h) !in events
    ensures var r := Enqueue(EnqueuedBy(q, k, events), h);
            r.1.Ok? && r.0 == EnqueuedBy(q, k, events + [(k, h)])
  {
    var i := Preflight(q, h).value;
    var q1 := EnqueuedBy(q, k, events);
    assert Token(q, i) == h;
    assert q1.slots[i] == q.slots[i];
    assert Preflight(q1, h) == Ok(i);
    var q2, q3 := Enqueue(q1, h).0, EnqueuedBy(q, k, events + [(k, h)]);
    forall j | 0 <= j < |q.slots| ensures q2.slots[j] == q3.slots[j] {
      assert (k, Token(q, j)) in events + [(k, h)] <==> (k, Token(q, j)) in events || Token(q, j) == h;
    }
    assert q2.slots == q3.slots;
  }

  lemma EnqueueOther(q: Queue, k: nat, events: seq<(nat, Handle)>, j: nat, h: Handle)
    requires j != k
    ensures EnqueuedBy(q, k, events + [(j, h)]) == EnqueuedBy(q, k, events)
  {
    assert EnqueuedBy(q, k, events + [(j, h)]).slots == EnqueuedBy(q, k, events).slots;
  }

  lemma CancelStep(q: Queue, k: nat, cancels: seq<(nat, Handle)>, h: Handle)
    requires Resolve(q, h).Ok? && !q.slots[Resolve(q, h).value].state.Reserved?
    ensures var r := Cancel(CancelledBy(q, k, cancels), h);
            r.1.Ok? && r.0 == CancelledBy(q, k, cancels + [(k, h)])
  {
    var i := Resolve(q, h).value;
    var q1 := CancelledBy(q, k, cancels);
    assert Token(q, i) == h && Resolve(q1, h) == Ok(i);
    var q2, q3 := Cancel(q1, h).0, CancelledBy(q, k, cancels + [(k, h)]);
    forall j | 0 <= j < |q.slots| ensures q2.slots[j] == q3.slots[j] {
      assert (k, Token(q, j)) in cancels + [(k, h)] <==> (k, Token(q, j)) in cancels || Token(q, j) == h;
      assert Token(q, j) == h ==> j == i;
    }
    assert q2.slots == q3.slots;
  }

  lemma CancelOther(q: Queue, k: nat, cancels: seq<(nat, Handle)>, j: nat, h: Handle)
    requires j != k
    ensures CancelledBy(q, k, cancels + [(j, h)]) == CancelledBy(q, k, cancels)
  {
    assert CancelledBy(q, k, cancels + [(j, h)]).slots == CancelledBy(q, k, cancels).slots;
  }

  // After the staged events have entered, every validated cancel still finds its event,
  // whether that event was staged here or was in the queue before.
  lemma CancelReady(q: Queue, k: nat, events: seq<(nat, Handle)>, h: Handle)
    requires forall i :: 0 <= i < |events| && events[i].0 == k ==> Preflight(q, events[i].1).Ok?
    requires (k, h) in events || ValidateCancel(q, h).Ok?
    ensures var q' := EnqueuedBy(q, k, events);
            Resolve(q', h).Ok? && !q'.slots[Resolve(q', h).value].state.Reserved?
  {
    var q' := EnqueuedBy(q, k, events);
    if (k, h) in events {
      var n :| 0 <= n < |events| && events[n] == (k, h);
      var i := Preflight(q, h).value;
      assert Token(q, i) == h && Resolve(q', h) == Ok(i);
    } else {
      var i := Resolve(q, h).value;
      assert Token(q, i) == h;
      assert q'.slots[i] == q.slots[i] && Resolve(q', h) == Ok(i);
    }
  }

  method ApplyEvents(w: World, t: Txn) returns (terminated: bool, queues: seq<Queue>)
    requires EventsValid(w, t.events) && DistinctEvents(t.events)
    ensures !terminated && |queues| == |w.queues|
    ensures forall k :: 0 <= k < |w.queues| ==> queues[k] == EnqueuedBy(w.queues[k], k, t.events)
  {
    queues, terminated := w.queues, false;
    forall k | 0 <= k < |w.queues| ensures queues[k] == EnqueuedBy(w.queues[k], k, []) {
      assert EnqueuedBy(w.queues[k], k, []).slots == w.queues[k].slots;
    }
    assert t.events[..0] == [];
    for n := 0 to |t.events|
      invariant |queues| == |w.queues|
      invariant forall k :: 0 <= k < |w.queues| ==> queues[k] == EnqueuedBy(w.queues[k], k, t.events[..n])
    {
      var (j, h) := t.events[n];
      assert t.events[..n + 1] == t.events[..n] + [(j, h)];
      forall k | 0 <= k < |w.queues| && k != j
        ensures EnqueuedBy(w.queues[k], k, t.events[..n + 1]) == EnqueuedBy(w.queues[k], k, t.events[..n])
      {
        EnqueueOther(w.queues[k], k, t.events[..n], j, h);
      }
      EnqueueStep(w.queues[j], j, t.events[..n], h);
      var (q, r) := Enqueue(queues[j], h);
      if r.Err? {
        return true, queues;
      }
      queues := queues[j := q];
    }
    assert t.events[..|t.events|] == t.events;
  }

  method ApplyCancels(w: World, t: Txn, queues0: seq<Queue>) returns (terminated: bool, queues: seq<Queue>)
    requires EventsValid(w, t.events) && CancelsValid(w, t)
    requires |queues0| == |w.queues|
    requires forall k :: 0 <= k < |w.queues| ==> queues0[k] == EnqueuedBy(w.queues[k], k, t.events)
    ensures !terminated && |queues| == |w.queues|
    ensures forall k :: 0 <= k < |w.queues| ==> queues[k] == CancelledBy(queues0[k], k, t.cancels)
  {
    queues, terminated := queues0, false;
    forall k | 0 <= k < |w.queues| ensures queues[k] == CancelledBy(queues0[k], k, []) {
      assert CancelledBy(queues0[k], k, []).slots == queues0[k].slots;
    }
    assert t.cancels[..0] == [];
    for n := 0 to |t.cancels|
      invariant |queues| == |w.queues|
      invariant forall k :: 0 <= k < |w.queues| ==> queues[k] == CancelledBy(queues0[k], k, t.cancels[..n])
    {
      var (j, h) := t.cancels[n];
      assert t.cancels[..n + 1] == t.cancels[..n] + [(j, h)];
      forall k | 0 <= k < |w.queues| && k != j
        ensures CancelledBy(queues0[k], k, t.cancels[..n + 1]) == CancelledBy(queues0[k], k, t.cancels[..n])
      {
        CancelOther(queues0[k], k, t.cancels[..n], j, h);
      }
      CancelReady(w.queues[j], j, t.events, h);
      CancelStep(queues0[j], j, t.cancels[..n], h);
      var (q, r) := Cancel(queues[j], h);
      if r.Err? {
        return true, queues;
      }
      queues := queues[j := q];
    }
    assert t.cancels[..|t.cancels|] == t.cancels;
  }

  method ApplyWrites(w: World, t: Txn) returns (cells: seq<Cell>)
    requires DistinctCells(t.writes) && forall i :: 0 <= i < |t.writes| ==> t.writes[i].cell < |w.cells|
    ensures cells == WrittenBy(w.cells, t.writes)
  {
    cells := w.cells;
    assert WrittenBy(w.cells, t.writes[..0]) == w.cells;
    for n := 0 to |t.writes|
      invariant cells == WrittenBy(w.cells, t.writes[..n])
    {
      WrittenStep(w.cells, t.writes, n);
      cells := ApplyWrite(cells, t.writes[n]);
    }
    assert t.writes[..|t.writes|] == t.writes;
  }

  // What a commit comes to.
  ghost function Committing(w: World, t: Txn, epoch: nat): (World, Txn) {
    if Admissible(w, t, epoch) then (CommittedWorld(w, t), t.(closed := true, committed := true)) else (w, t)
  }

  // Atomicity: a commit either reports an objection and leaves the whole world and the
  // transaction as they were, or applies every staged effect once; it never reaches the
  // points where the implementation gives up on the process.
  method Commit(w0: World, t0: Txn, epoch: nat) returns (status: Status, w: World, t: Txn)
    requires TxnOK(w0, t0)
    ensures !status.Terminated?
    ensures status.Committed? <==> Admissible(w0, t0, epoch)
    ensures status.Rejected? ==> w == w0 && t == t0
    ensures status.Committed? ==> AllApplied(w0, t0, w) && t == t0.(closed := true, committed := true)
    ensures (w, t) == Committing(w0, t0, epoch)
  {
    var objection := ValidateAll(w0, t0, epoch);
    if objection.Some? {
      return Rejected(objection.value), w0, t0;
    }
    var cells := ApplyWrites(w0, t0);
    var dead, queues := ApplyEvents(w0, t0);
    if dead {
      return Terminated, w0.(cells := cells, queues := queues), t0;
    }
    dead, queues := ApplyCancels(w0, t0, queues);
    if dead {
      return Terminated, w0.(cells := cells, queues := queues), t0;
    }
    w := World(cells, queues, w0.applied + Ids(t0.participants));
    AppliedOnce(w0, t0, w);
    return Status.Committed, w, t0.(closed := true, committed := true);
  }
}
