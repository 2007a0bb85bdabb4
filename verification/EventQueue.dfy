// The event queue (runtime/src/event_queue.cpp): a fixed array of slots that must behave
// like one sorted queue of closed batches. This module defines every operation on the
// queue's fields and the history that the operations leave behind.
module EventQueue {
  import opened Common

  datatype EventKey = EventKey(time: nat, turn: nat, stage: nat, instance: nat, connection: nat, sequence: nat) {
    function Ready(): ReadyKey {
      ReadyKey(time, turn)
    }

    function Fields(): seq<nat> {
      [time, turn, stage, instance, connection, sequence]
    }

    predicate Less(o: EventKey) {
      LexLess(Fields(), o.Fields())
    }
  }

  // Lexicographic order on tuples of one length.
  predicate LexLess(a: seq<nat>, b: seq<nat>) {
    a != [] && b != [] && (a[0] < b[0] || (a[0] == b[0] && LexLess(a[1..], b[1..])))
  }

  lemma {:induction false} LexTransitive(a: seq<nat>, b: seq<nat>, c: seq<nat>)
    requires LexLess(a, b) && LexLess(b, c)
    ensures LexLess(a, c)
    decreases |a|
  {
    if a[0] == b[0] == c[0] {
      LexTransitive(a[1..], b[1..], c[1..]);
    }
  }

  lemma {:induction false} LexTotal(a: seq<nat>, b: seq<nat>)
    requires |a| == |b|
    ensures a == b || LexLess(a, b) || LexLess(b, a)
    decreases |a|
  {
    if a != [] {
      LexTotal(a[1..], b[1..]);
      assert a == [a[0]] + a[1..] && b == [b[0]] + b[1..];
    }
  }

  // Two different events are ordered one way or the other.
  lemma KeyTotal(a: EventKey, b: EventKey)
    ensures a == b || a.Less(b) || b.Less(a)
  {
    LexTotal(a.Fields(), b.Fields());
    if a.Fields() == b.Fields() {
      assert a.Fields()[0] == b.Fields()[0] && a.Fields()[1] == b.Fields()[1] && a.Fields()[2] == b.Fields()[2]
          && a.Fields()[3] == b.Fields()[3] && a.Fields()[4] == b.Fields()[4] && a.Fields()[5] == b.Fields()[5];
    }
  }

  // The key order refines the order of batches.
  lemma KeyAfterReady(a: EventKey, b: EventKey)
    requires a.Ready().Less(b.Ready())
    ensures a.Less(b)
  {
    if a.time == b.time {
      assert LexLess(a.Fields()[1..], b.Fields()[1..]);
    }
  }

  // `bytes` is the measured size of the carried value.
  datatype EventDraft = EventDraft(key: EventKey, payload: int, bytes: nat, owner: nat, epoch: nat)

  datatype SlotState = Free | Reserved | Queued | Active | Finished | Retired

  datatype Slot = Slot(state: SlotState, generation: nat, event: EventDraft, cancelled: bool) {
    predicate Occupied() {
      state.Reserved? || state.Queued? || state.Active? || state.Finished?
    }
    predicate Waiting() {
      state.Queued? || state.Active?
    }
    function Ready(): ReadyKey {
      event.key.Ready()
    }
  }

  datatype Queue = Queue(
    slots: seq<Slot>, domain: nat, store: nat, maxBytes: nat,
    frontier: Option<ReadyKey>,
    batch: Option<nat>, batchReady: ReadyKey, members: seq<nat>, cursor: nat,
    resolverCursor: nat, resolverTotal: Option<nat>,
    reclaim: nat, nextBatch: nat, nextSequence: nat)

  datatype Error =
    | WrongDomain | StaleHandle | WrongOwner | Capacity | Overflow | TimeRegression | InvalidState
    | InvalidArgument | Cancelled

  datatype Disposition = Committed | WasCancelled | Failed

  datatype QueuedEvent = QueuedEvent(token: Handle, event: EventDraft, cancelled: bool)

  datatype Slice = Slice(batch: nat, ready: ReadyKey, cursor: nat, members: seq<QueuedEvent>, complete: bool)

  function EmptyQueue(n: nat, domain: nat, store: nat, maxBytes: nat): Queue {
    var blank := Slot(Free, 0, EventDraft(EventKey(0, 0, 0, 0, 0, 0), 0, 0, 0, 0), false);
    Queue(seq(n, _ => blank), domain, store, maxBytes, None, None, ReadyKey(0, 0), [], 0, 0, None, 0, 1, 1)
  }

  // --------------------------------------------------------------------------------
  // Tokens.

  function Token(q: Queue, i: nat): Handle
    requires i < |q.slots|
  {
    Handle(KEvent, q.domain, q.store, i, q.slots[i].generation, q.slots[i].event.owner)
  }

  // The slot a token denotes.
  function Resolve(q: Queue, h: Handle): (r: Result<nat, Error>)
    ensures r.Ok? ==> r.value < |q.slots| && h == Token(q, r.value) && h.generation > 0 && !q.slots[r.value].state.Retired?
  {
    if h.domain != q.domain then Err(WrongDomain)
    else if !h.kind.KEvent? || h.store != q.store || h.slot >= |q.slots| then Err(StaleHandle)
    else if h.generation == 0 || q.slots[h.slot].generation != h.generation || q.slots[h.slot].state.Retired? then Err(StaleHandle)
    else if h.owner != q.slots[h.slot].event.owner then Err(WrongOwner)
    else Ok(h.slot)
  }

  // --------------------------------------------------------------------------------
  // Operations.

  predicate PastFrontier(q: Queue, r: ReadyKey) {
    q.frontier.None? || q.frontier.value.Less(r)
  }

  // The first free slot from `i` on; exhausted free slots met on the way are retired.
  function Scan(slots: seq<Slot>, i: nat): (r: (seq<Slot>, Option<nat>))
    requires i <= |slots|
    ensures |r.0| == |slots|
    decreases |slots| - i
  {
    if i == |slots| then (slots, None)
    else if !slots[i].state.Free? then Scan(slots, i + 1)
    else if slots[i].generation == MAX64 then Scan(slots[i := slots[i].(state := Retired)], i + 1)
    else (slots, Some(i))
  }

  function Prepare(q: Queue, e: EventDraft): (Queue, Result<Handle, Error>) {
    if e.bytes > q.maxBytes then (q, Err(Capacity))
    else if q.nextSequence == MAX64 then (q, Err(Overflow))
    else if !PastFrontier(q, e.key.Ready()) then (q, Err(TimeRegression))
    else
      var (slots, found) := Scan(q.slots, 0);
      if found.None? || found.value >= |slots| then (q.(slots := slots), Err(Capacity))
      else
        var i := found.value;
        var s := Slot(Reserved, slots[i].generation + 1, e.(key := e.key.(sequence := q.nextSequence)), false);
        var q' := q.(slots := slots[i := s], nextSequence := q.nextSequence + 1);
        (q', Ok(Token(q', i)))
  }

  function SetState(q: Queue, i: nat, st: SlotState): Queue
    requires i < |q.slots|
  {
    q.(slots := q.slots[i := q.slots[i].(state := st)])
  }

  function Preflight(q: Queue, h: Handle): (r: Result<nat, Error>)
    ensures r.Ok? ==> Resolve(q, h) == r && q.slots[r.value].state.Reserved? && PastFrontier(q, q.slots[r.value].Ready())
  {
    match Resolve(q, h)
    case Err(e) => Err(e)
    case Ok(i) =>
      if !q.slots[i].state.Reserved? then Err(InvalidState)
      else if !PastFrontier(q, q.slots[i].Ready()) then Err(TimeRegression)
      else Ok(i)
  }

  // Turns a reservation into a queued event.
  function Enqueue(q: Queue, h: Handle): (Queue, Result<Handle, Error>) {
    match Preflight(q, h)
    case Err(e) => (q, Err(e))
    case Ok(i) => (SetState(q, i, Queued), Ok(h))
  }

  function Abandon(q: Queue, h: Handle): Queue {
    if h.slot < |q.slots| && q.slots[h.slot].generation == h.generation && q.slots[h.slot].state.Reserved?
    then SetState(q, h.slot, Free) else q
  }

  function Retarget(q: Queue, h: Handle, e: EventDraft): (Queue, Result<(), Error>) {
    if e.bytes > q.maxBytes then (q, Err(Capacity))
    else
      match Preflight(q, h)
      case Err(err) => (q, Err(err))
      case Ok(i) =>
        if e.owner != h.owner then (q, Err(WrongOwner))
        else if !PastFrontier(q, e.key.Ready()) then (q, Err(TimeRegression))
        else
          var e' := e.(key := e.key.(sequence := q.slots[i].event.key.sequence));
          (q.(slots := q.slots[i := q.slots[i].(event := e')]), Ok(()))
  }

  function ValidateCancel(q: Queue, h: Handle): Result<(), Error> {
    match Resolve(q, h)
    case Err(e) => Err(e)
    case Ok(i) => if q.slots[i].state.Reserved? then Err(InvalidState) else Ok(())
  }

  function Cancel(q: Queue, h: Handle): (Queue, Result<bool, Error>) {
    match Resolve(q, h)
    case Err(e) => (q, Err(e))
    case Ok(i) =>
      if q.slots[i].cancelled || q.slots[i].state.Finished? || q.slots[i].state.Free? then (q, Ok(false))
      else if q.slots[i].state.Reserved? then (q, Err(InvalidState))
      else (q.(slots := q.slots[i := q.slots[i].(cancelled := true)]), Ok(true))
  }

  // The earliest ready key among queued events that are due.
  function EarliestDue(slots: seq<Slot>, now: nat): Option<ReadyKey> {
    if slots == [] then None
    else
      var rest := EarliestDue(slots[..|slots| - 1], now);
      var s := slots[|slots| - 1];
      if s.state.Queued? && s.event.key.time <= now && (rest.None? || s.Ready().Less(rest.value)) then Some(s.Ready())
      else rest
  }

  predicate Joins(s: Slot, k: ReadyKey) {
    s.state.Queued? && s.Ready() == k
  }

  function Activate(slots: seq<Slot>, k: ReadyKey): (r: seq<Slot>)
    ensures |r| == |slots|
  {
    seq(|slots|, i requires 0 <= i < |slots| => if Joins(slots[i], k) then slots[i].(state := Active) else slots[i])
  }

  // Slots that join the batch, in slot order.
  function Joining(slots: seq<Slot>, k: ReadyKey): (r: seq<nat>)
    ensures forall n :: 0 <= n < |r| ==> r[n] < |slots| && Joins(slots[r[n]], k)
  {
    if slots == [] then []
    else
      var last := |slots| - 1;
      var rest := Joining(slots[..last], k);
      if Joins(slots[last], k) then rest + [last] else rest
  }

  // Stable insertion by full key.
  function Insert(slots: seq<Slot>, sorted: seq<nat>, i: nat): seq<nat>
    requires i < |slots| && forall n :: 0 <= n < |sorted| ==> sorted[n] < |slots|
  {
    if sorted == [] then [i]
    else if slots[i].event.key.Less(slots[sorted[|sorted| - 1]].event.key)
    then Insert(slots, sorted[..|sorted| - 1], i) + [sorted[|sorted| - 1]]
    else sorted + [i]
  }

  lemma {:induction false} InsertMembers(slots: seq<Slot>, sorted: seq<nat>, i: nat)
    requires i < |slots| && forall n :: 0 <= n < |sorted| ==> sorted[n] < |slots|
    ensures var r := Insert(slots, sorted, i);
            multiset(r) == multiset(sorted) + multiset{i} && forall n :: 0 <= n < |r| ==> r[n] < |slots|
    decreases |sorted|
  {
    if sorted != [] {
      var last := |sorted| - 1;
      InsertMembers(slots, sorted[..last], i);
      assert sorted == sorted[..last] + [sorted[last]];
    }
  }

  function SortByKey(slots: seq<Slot>, idxs: seq<nat>): (r: seq<nat>)
    requires forall n :: 0 <= n < |idxs| ==> idxs[n] < |slots|
    ensures forall n :: 0 <= n < |r| ==> r[n] < |slots|
    ensures multiset(r) == multiset(idxs)
  {
    if idxs == [] then []
    else
      var last := |idxs| - 1;
      assert idxs == idxs[..last] + [idxs[last]];
      var rest := SortByKey(slots, idxs[..last]);
      InsertMembers(slots, rest, idxs[last]);
      Insert(slots, rest, idxs[last])
  }

  // The next members of the open batch, at most `budget` of them.
  function TakeSlice(q: Queue, budget: nat): Slice
    requires q.batch.Some? && q.cursor <= |q.members|
    requires forall n :: 0 <= n < |q.members| ==> q.members[n] < |q.slots|
  {
    var count := if |q.members| - q.cursor <= budget then |q.members| - q.cursor else budget;
    Slice(q.batch.value, q.batchReady, q.cursor,
          seq(count, n requires 0 <= n < count =>
            var i := q.members[q.cursor + n];
            QueuedEvent(Token(q, i), q.slots[i].event, q.slots[i].cancelled)),
          q.cursor == |q.members|)
  }

  // The queue after batch `k` was closed.
  function Opened(q: Queue, k: ReadyKey): Queue {
    q.(slots := Activate(q.slots, k),
       members := SortByKey(q.slots, Joining(q.slots, k)),
       batch := Some(q.nextBatch), nextBatch := q.nextBatch + 1,
       batchReady := k, frontier := Some(k),
       cursor := 0, resolverCursor := 0, resolverTotal := None)
  }

  // Closes the earliest due batch, if none is open.
  function OpenBatch(q: Queue, now: nat): (Queue, Result<bool, Error>) {
    if q.batch.Some? then (q, Ok(true))
    else
      match EarliestDue(q.slots, now)
      case None => (q, Ok(false))
      case Some(k) =>
        if q.nextBatch == MAX64 then (q, Err(Overflow))
        else
          (Opened(q, k), Ok(true))
  }

  predicate MembersInRange(q: Queue) {
    q.cursor <= |q.members| && forall n :: 0 <= n < |q.members| ==> q.members[n] < |q.slots|
  }

  function PopBatch(q: Queue, now: nat, budget: nat): (Queue, Result<Option<Slice>, Error>) {
    if budget == 0 then (q, Err(InvalidArgument))
    else
      var (q', r) := OpenBatch(q, now);
      match r
      case Err(e) => (q', Err(e))
      case Ok(open) =>
        if open && q'.batch.Some? && MembersInRange(q') then (q', Ok(Some(TakeSlice(q', budget)))) else (q', Ok(None))
  }

  function AckExecuted(q: Queue, b: nat, h: Handle, d: Disposition): (Queue, Result<(), Error>) {
    if q.batch != Some(b) || q.cursor >= |q.members| then (q, Err(InvalidState))
    else
      match Resolve(q, h)
      case Err(e) => (q, Err(e))
      case Ok(i) =>
        if i != q.members[q.cursor] then (q, Err(InvalidState))
        else if q.slots[i].cancelled && d.Committed? then (q, Err(Cancelled))
        else (SetState(q, i, Finished).(cursor := q.cursor + 1), Ok(()))
  }

  function ResolverStep(q: Queue, b: nat, budget: nat, total: nat): (Queue, Result<bool, Error>) {
    if budget == 0 then (q, Err(InvalidArgument))
    else if q.batch != Some(b) || q.cursor != |q.members| then (q, Err(InvalidState))
    else if q.resolverTotal.Some? && q.resolverTotal.value != total then (q, Err(InvalidArgument))
    else
      var left := if q.resolverCursor <= total then total - q.resolverCursor else 0;
      var c := q.resolverCursor + if budget <= left then budget else left;
      (q.(resolverTotal := Some(total), resolverCursor := c), Ok(c == total))
  }

  function FreeMembers(slots: seq<Slot>, members: seq<nat>): (r: seq<Slot>)
    ensures |r| == |slots|
  {
    seq(|slots|, i requires 0 <= i < |slots| => if i in members then slots[i].(state := Free) else slots[i])
  }

  function FinishBatch(q: Queue, b: nat): (Queue, Result<(), Error>) {
    if q.batch != Some(b) || q.cursor != |q.members| || q.resolverTotal != Some(q.resolverCursor)
    then (q, Err(InvalidState))
    else (q.(slots := FreeMembers(q.slots, q.members), members := [], batch := None), Ok(()))
  }

  // One reclaimed slot per unit of budget, round robin.
  function CollectOne(q: Queue): Queue {
    if q.reclaim >= |q.slots| then q
    else
      var s := q.slots[q.reclaim];
      var q' := q.(reclaim := (q.reclaim + 1) % |q.slots|);
      if (s.state.Finished? && q.batch.None?) || (s.state.Queued? && s.cancelled) then SetState(q', q.reclaim, Free) else q'
  }

  function CollectStale(q: Queue, budget: nat): Queue
    decreases budget
  {
    if budget == 0 then q else CollectStale(CollectOne(q), budget - 1)
  }
}
