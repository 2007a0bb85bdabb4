// Whole runs of the event queue: what every sequence of operations keeps.
module EventRuns {
  import opened Common
  import opened EventQueue

  // What a run leaves behind. Events are identified by their sequence number.
  datatype History = History(
    entered: set<nat>,              // enqueued
    delivered: seq<EventKey>,       // acknowledged, in order
    cancelRequested: set<nat>,      // successfully cancelled
    dropped: set<nat>,              // reclaimed without delivery
    batches: seq<ReadyKey>,         // batches opened, in order
    issued: map<(nat, nat), nat>)   // event for which a (slot, generation) was handed out

  const NO_HISTORY := History({}, [], {}, {}, [], map[])

  ghost function Seq(s: Slot): nat {
    s.event.key.sequence
  }

  ghost predicate DeliveredSeq(h: History, x: nat) {
    exists n :: 0 <= n < |h.delivered| && h.delivered[n].sequence == x
  }

  ghost predicate Holds(q: Queue, i: int, x: nat) {
    0 <= i < |q.slots| && q.slots[i].Waiting() && Seq(q.slots[i]) == x
  }

  ghost predicate Live(q: Queue, x: nat) {
    exists i :: Holds(q, i, x)
  }

  // Occupied slots hold distinct events.
  ghost predicate SlotsOK(q: Queue) {
    && 1 <= q.nextSequence
    && (forall i :: 0 <= i < |q.slots| && q.slots[i].Occupied() ==> 1 <= Seq(q.slots[i]) < q.nextSequence)
    && (forall i, j :: 0 <= i < j < |q.slots| && q.slots[i].Occupied() && q.slots[j].Occupied() ==>
          Seq(q.slots[i]) != Seq(q.slots[j]))
    && (forall i :: 0 <= i < |q.slots| && q.slots[i].state.Queued? ==> PastFrontier(q, q.slots[i].Ready()))
  }

  ghost predicate Ordered(q: Queue) {
    forall m, n :: 0 <= m < n < |q.members| && q.members[m] < |q.slots| && q.members[n] < |q.slots| ==>
      q.slots[q.members[m]].event.key.Less(q.slots[q.members[n]].event.key)
  }

  // The open batch lists exactly the active and finished slots, in key order.
  ghost predicate BatchOK(q: Queue) {
    && (forall n :: 0 <= n < |q.members| ==> q.members[n] < |q.slots|)
    && (q.batch.None? ==> q.members == [])
    && (q.batch.Some? ==> q.cursor <= |q.members| && q.frontier == Some(q.batchReady))
    && (forall n :: 0 <= n < |q.members| ==>
          && (if n < q.cursor then q.slots[q.members[n]].state.Finished? else q.slots[q.members[n]].state.Active?)
          && q.slots[q.members[n]].Ready() == q.batchReady)
    && (forall i :: 0 <= i < |q.slots| && (q.slots[i].state.Active? || q.slots[i].state.Finished?) ==> i in q.members)
    && Ordered(q)
    && ResolverOK(q)
  }

  ghost predicate ResolverOK(q: Queue) {
    match q.resolverTotal
    case None => q.resolverCursor == 0 || q.batch.None?
    case Some(t) => q.resolverCursor <= t
  }

  // Deliveries and batches come out in strictly increasing order, and what is still to
  // come lies after them.
  ghost predicate LogOK(q: Queue, h: History) {
    && (forall m, n :: 0 <= m < n < |h.delivered| ==> h.delivered[m].Less(h.delivered[n]))
    && (forall m, n :: 0 <= m < n < |h.batches| ==> h.batches[m].Less(h.batches[n]))
    && (h.batches != [] ==> q.frontier == Some(h.batches[|h.batches| - 1]))
    && (q.frontier.None? ==> h.delivered == [])
    && (forall n :: 0 <= n < |h.delivered| && q.frontier.Some? ==> !q.frontier.value.Less(h.delivered[n].Ready()))
    && (forall m, n :: 0 <= m < |h.delivered| && q.cursor <= n < |q.members| && q.members[n] < |q.slots| ==>
          h.delivered[m].Less(q.slots[q.members[n]].event.key))
    && (q.batch.None? ==> q.members == [])
    && (q.frontier.Some? <==> h.batches != [])
  }

  // Every enqueued event is exactly one of waiting, delivered or dropped; only cancelled
  // events are dropped.
  ghost predicate FlowOK(q: Queue, h: History) {
    && (forall x :: x in h.entered <==> Live(q, x) || DeliveredSeq(h, x) || x in h.dropped)
    && (forall x :: Live(q, x) ==> !DeliveredSeq(h, x) && x !in h.dropped)
    && (forall x :: DeliveredSeq(h, x) ==> x !in h.dropped)
    && (forall m, n :: 0 <= m < n < |h.delivered| ==> h.delivered[m].sequence != h.delivered[n].sequence)
    && h.dropped <= h.cancelRequested <= h.entered
    && (forall i :: 0 <= i < |q.slots| && q.slots[i].Waiting() && q.slots[i].cancelled ==> Seq(q.slots[i]) in h.cancelRequested)
    && (forall x :: x in h.entered ==> x < q.nextSequence)
    && (forall i :: 0 <= i < |q.slots| && q.slots[i].state.Reserved? ==>
          Seq(q.slots[i]) !in h.entered && !q.slots[i].cancelled)
  }

  // A (slot, generation) pair names one event for ever.
  ghost predicate TokensOK(q: Queue, h: History) {
    && (forall i :: 0 <= i < |q.slots| && q.slots[i].Occupied() ==>
          (i, q.slots[i].generation) in h.issued && h.issued[(i, q.slots[i].generation)] == Seq(q.slots[i]))
    && (forall t :: t in h.issued ==> t.0 < |q.slots| && 1 <= t.1 <= q.slots[t.0].generation)
  }

  ghost predicate Inv(q: Queue, h: History) {
    SlotsOK(q) && BatchOK(q) && LogOK(q, h) && FlowOK(q, h) && TokensOK(q, h)
  }

  lemma InitInv(n: nat, domain: nat, store: nat, maxBytes: nat)
    ensures Inv(EmptyQueue(n, domain, store, maxBytes), NO_HISTORY)
  {
  }

  // --------------------------------------------------------------------------------
  // Changes to a single slot.

  ghost predicate Touched(q: Queue, q': Queue, i: nat) {
    && |q.slots| == |q'.slots|
    && i < |q.slots|
    && (forall j :: 0 <= j < |q.slots| && j != i ==> q'.slots[j] == q.slots[j])
    && q'.frontier == q.frontier
    && q'.batch == q.batch
    && q'.batchReady == q.batchReady
    && q'.members == q.members
    && q'.cursor == q.cursor
    && q'.resolverCursor == q.resolverCursor
    && q'.resolverTotal == q.resolverTotal
  }

  ghost predicate FreshIn(q: Queue, i: nat, x: nat) {
    forall j :: 0 <= j < |q.slots| && j != i && q.slots[j].Occupied() ==> Seq(q.slots[j]) != x
  }

  lemma TouchSlots(q: Queue, q': Queue, i: nat)
    requires SlotsOK(q) && Touched(q, q', i) && q.nextSequence <= q'.nextSequence
    requires q'.slots[i].Occupied() ==> 1 <= Seq(q'.slots[i]) < q'.nextSequence && FreshIn(q, i, Seq(q'.slots[i]))
    requires q'.slots[i].state.Queued? ==> PastFrontier(q, q'.slots[i].Ready())
    ensures SlotsOK(q')
  {
  }

  // Either the slot plays no part in the batch, or its part is unchanged.
  ghost predicate BatchNeutral(q: Queue, q': Queue, i: nat)
    requires i < |q.slots| == |q'.slots|
  {
    || (q'.slots[i].state == q.slots[i].state && q'.slots[i].event == q.slots[i].event)
    || (!q.slots[i].state.Active? && !q.slots[i].state.Finished? && !q'.slots[i].state.Active? && !q'.slots[i].state.Finished?)
  }

  lemma TouchBatch(q: Queue, q': Queue, i: nat)
    requires BatchOK(q) && Touched(q, q', i) && BatchNeutral(q, q', i)
    ensures BatchOK(q')
  {
    forall n | 0 <= n < |q.members| && q.members[n] == i
      ensures q'.slots[i].state == q.slots[i].state && q'.slots[i].event == q.slots[i].event
    {
      assert q.slots[q.members[n]].state.Active? || q.slots[q.members[n]].state.Finished?;
    }
  }

  lemma TouchLog(q: Queue, q': Queue, h: History, h': History, i: nat)
    requires BatchOK(q) && LogOK(q, h) && Touched(q, q', i) && BatchNeutral(q, q', i)
    requires h'.delivered == h.delivered && h'.batches == h.batches
    ensures LogOK(q', h')
  {
    forall n | 0 <= n < |q.members| && q.members[n] == i ensures q'.slots[i].event == q.slots[i].event {
      assert q.slots[q.members[n]].state.Active? || q.slots[q.members[n]].state.Finished?;
    }
  }

  lemma TouchTokens(q: Queue, q': Queue, h: History, h': History, i: nat)
    requires TokensOK(q, h) && Touched(q, q', i) && h'.issued == h.issued
    requires q'.slots[i].generation == q.slots[i].generation
    requires q'.slots[i].Occupied() ==> q.slots[i].Occupied() && Seq(q'.slots[i]) == Seq(q.slots[i])
    ensures TokensOK(q', h')
  {
  }

  // What a touched slot contributes to the waiting events.
  ghost predicate Contributes(s: Slot, x: nat) {
    s.Waiting() && Seq(s) == x
  }

  lemma TouchLive(q: Queue, q': Queue, i: nat, x: nat)
    requires SlotsOK(q) && SlotsOK(q') && Touched(q, q', i)
    requires Contributes(q.slots[i], x) == Contributes(q'.slots[i], x)
    ensures Live(q', x) <==> Live(q, x)
  {
    if j :| Holds(q, j, x) {
      assert Holds(q', j, x);
    }
    if j :| Holds(q', j, x) {
      assert Holds(q, j, x);
    }
  }

  lemma OnlyHolder(q: Queue, q': Queue, i: nat, x: nat)
    requires SlotsOK(q) && Touched(q, q', i)
    requires q.slots[i].Occupied() && Seq(q.slots[i]) == x && !Contributes(q'.slots[i], x)
    ensures !Live(q', x)
  {
    assert forall j :: 0 <= j < |q.slots| && j != i && q.slots[j].Occupied() ==> Seq(q.slots[j]) != x;
  }

  lemma IsHolder(q: Queue, i: nat, x: nat)
    requires i < |q.slots| && Contributes(q.slots[i], x)
    ensures Live(q, x)
  {
    assert Holds(q, i, x);
  }

  // The slot does not change its standing as a waiting event.
  lemma TouchFlow(q: Queue, q': Queue, h: History, h': History, i: nat)
    requires SlotsOK(q) && SlotsOK(q') && FlowOK(q, h) && Touched(q, q', i) && q.nextSequence <= q'.nextSequence
    requires h'.entered == h.entered && h'.delivered == h.delivered && h'.dropped == h.dropped
    requires h.cancelRequested <= h'.cancelRequested <= h.entered
    requires forall x :: Contributes(q.slots[i], x) == Contributes(q'.slots[i], x)
    requires q'.slots[i].Waiting() && q'.slots[i].cancelled ==> Seq(q'.slots[i]) in h'.cancelRequested
    requires q'.slots[i].state.Reserved? ==> Seq(q'.slots[i]) !in h.entered && !q'.slots[i].cancelled
    ensures FlowOK(q', h')
  {
    forall x ensures Live(q', x) <==> Live(q, x) {
      TouchLive(q, q', i, x);
    }
    forall x ensures DeliveredSeq(h', x) <==> DeliveredSeq(h, x) {
    }
  }

  // --------------------------------------------------------------------------------
  // Preservation, operation by operation.

  lemma {:induction false} ScanFacts(slots: seq<Slot>, i: nat)
    requires i <= |slots|
    ensures var (r, found) := Scan(slots, i);
            && |r| == |slots|
            && (forall j :: 0 <= j < |slots| ==>
                  r[j] == slots[j] || (slots[j].state.Free? && r[j] == slots[j].(state := Retired)))
            && (found.Some? ==> found.value < |slots| && r[found.value] == slots[found.value] && slots[found.value].state.Free?)
    decreases |slots| - i
  {
    if i < |slots| && slots[i].state.Free? && slots[i].generation == MAX64 {
      ScanFacts(slots[i := slots[i].(state := Retired)], i + 1);
    } else if i < |slots| && !slots[i].state.Free? {
      ScanFacts(slots, i + 1);
    }
  }

  lemma RetireOne(q: Queue, h: History, i: nat)
    requires Inv(q, h) && i < |q.slots| && q.slots[i].state.Free?
    ensures Inv(SetState(q, i, Retired), h)
  {
    var q' := SetState(q, i, Retired);
    TouchSlots(q, q', i);
    TouchBatch(q, q', i);
    TouchLog(q, q', h, h, i);
    TouchFlow(q, q', h, h, i);
    TouchTokens(q, q', h, h, i);
  }

  // Retiring the exhausted free slots met by a scan is invisible to the invariants.
  lemma {:induction false} ScanInv(q: Queue, h: History, i: nat)
    requires Inv(q, h) && i <= |q.slots|
    ensures Inv(q.(slots := Scan(q.slots, i).0), h)
    decreases |q.slots| - i
  {
    if i < |q.slots| && q.slots[i].state.Free? && q.slots[i].generation == MAX64 {
      RetireOne(q, h, i);
      var q1 := SetState(q, i, Retired);
      ScanInv(q1, h, i + 1);
      assert Scan(q.slots, i) == Scan(q1.slots, i + 1);
      assert q.(slots := Scan(q.slots, i).0) == q1.(slots := Scan(q1.slots, i + 1).0);
    } else if i < |q.slots| && !q.slots[i].state.Free? {
      ScanInv(q, h, i + 1);
      assert Scan(q.slots, i) == Scan(q.slots, i + 1);
    } else {
      assert q.(slots := Scan(q.slots, i).0) == q;
    }
  }

  // A free slot receives a new reservation.
  lemma ReserveInv(q: Queue, h: History, i: nat, e: EventDraft)
    requires Inv(q, h) && i < |q.slots| && q.slots[i].state.Free?
    ensures Inv(Reserve(q, i, e), h.(issued := h.issued[(i, q.slots[i].generation + 1) := q.nextSequence]))
  {
    var q' := Reserve(q, i, e);
    var h' := h.(issued := h.issued[(i, q.slots[i].generation + 1) := q.nextSequence]);
    TouchSlots(q, q', i);
    TouchBatch(q, q', i);
    TouchLog(q, q', h, h', i);
    TouchFlow(q, q', h, h', i);
    ReserveTokens(q, h, i, e);
  }

  lemma ReserveTokens(q: Queue, h: History, i: nat, e: EventDraft)
    requires TokensOK(q, h) && i < |q.slots|
    ensures TokensOK(Reserve(q, i, e), h.(issued := h.issued[(i, q.slots[i].generation + 1) := q.nextSequence]))
  {
  }

  function RecordPrepare(q: Queue, h: History, e: EventDraft): History {
    var r := Prepare(q, e).1;
    if r.Ok? then h.(issued := h.issued[(r.value.slot, r.value.generation) := q.nextSequence]) else h
  }

  // The queue and history after a slot `i` was reserved for `e`.
  function Reserve(q: Queue, i: nat, e: EventDraft): Queue
    requires i < |q.slots|
  {
    var s := Slot(Reserved, q.slots[i].generation + 1, e.(key := e.key.(sequence := q.nextSequence)), false);
    q.(slots := q.slots[i := s], nextSequence := q.nextSequence + 1)
  }

  lemma PrepareShape(q: Queue, h: History, e: EventDraft)
    ensures var (q', r) := Prepare(q, e);
            var (slots, found) := Scan(q.slots, 0);
            match r
            case Err(_) => (q' == q || q' == q.(slots := slots)) && RecordPrepare(q, h, e) == h
            case Ok(t) =>
              && found.Some? && found.value < |slots|
              && q' == Reserve(q.(slots := slots), found.value, e)
              && RecordPrepare(q, h, e) == h.(issued := h.issued[(found.value, slots[found.value].generation + 1) := q.nextSequence])
  {
  }

  lemma PrepareInv(q: Queue, h: History, e: EventDraft)
    requires Inv(q, h)
    ensures Inv(Prepare(q, e).0, RecordPrepare(q, h, e))
  {
    PrepareShape(q, h, e);
    ScanInv(q, h, 0);
    if Prepare(q, e).1.Ok? {
      ScanFacts(q.slots, 0);
      var (slots, found) := Scan(q.slots, 0);
      ReservedInv(q.(slots := slots), h, found.value, e, Prepare(q, e).0, RecordPrepare(q, h, e));
    }
  }

  lemma ReservedInv(q: Queue, h: History, i: nat, e: EventDraft, q': Queue, h': History)
    requires Inv(q, h) && i < |q.slots| && q.slots[i].state.Free? && q' == Reserve(q, i, e)
    requires h' == h.(issued := h.issued[(i, q.slots[i].generation + 1) := q.nextSequence])
    ensures Inv(q', h')
  {
    ReserveInv(q, h, i, e);
  }

  function RecordEnqueue(q: Queue, h: History, t: Handle): History {
    match Preflight(q, t)
    case Err(_) => h
    case Ok(i) => h.(entered := h.entered + {q.slots[i].event.key.sequence})
  }

  lemma EnqueueInv(q: Queue, h: History, t: Handle)
    requires Inv(q, h)
    ensures Inv(Enqueue(q, t).0, RecordEnqueue(q, h, t))
  {
    var r := Preflight(q, t);
    if r.Ok? {
      var i := r.value;
      var q', h' := SetState(q, i, Queued), RecordEnqueue(q, h, t);
      TouchSlots(q, q', i);
      TouchBatch(q, q', i);
      TouchLog(q, q', h, h', i);
      TouchTokens(q, q', h, h', i);
      EnqueueFlow(q, q', h, h', i);
    }
  }

  lemma EnqueueFlow(q: Queue, q': Queue, h: History, h': History, i: nat)
    requires SlotsOK(q) && SlotsOK(q') && FlowOK(q, h) && i < |q.slots| && q.slots[i].state.Reserved?
    requires q' == SetState(q, i, Queued) && h' == h.(entered := h.entered + {Seq(q.slots[i])})
    ensures FlowOK(q', h')
  {
    var me := Seq(q.slots[i]);
    forall x ensures Live(q', x) <==> Live(q, x) || x == me {
      if x == me {
        IsHolder(q', i, x);
      } else {
        TouchLive(q, q', i, x);
      }
    }
    forall x ensures DeliveredSeq(h', x) <==> DeliveredSeq(h, x) {
    }
  }

  lemma AbandonInv(q: Queue, h: History, t: Handle)
    requires Inv(q, h)
    ensures Inv(Abandon(q, t), h)
  {
    var i := t.slot;
    var q' := Abandon(q, t);
    if q' != q {
      TouchSlots(q, q', i);
      TouchBatch(q, q', i);
      TouchLog(q, q', h, h, i);
      TouchTokens(q, q', h, h, i);
      TouchFlow(q, q', h, h, i);
    }
  }

  lemma RetargetInv(q: Queue, h: History, t: Handle, e: EventDraft)
    requires Inv(q, h)
    ensures Inv(Retarget(q, t, e).0, h)
  {
    var q' := Retarget(q, t, e).0;
    if q' != q {
      var i := t.slot;
      TouchSlots(q, q', i);
      TouchBatch(q, q', i);
      TouchLog(q, q', h, h, i);
      TouchTokens(q, q', h, h, i);
      TouchFlow(q, q', h, h, i);
    }
  }

  function RecordCancel(q: Queue, h: History, t: Handle): History {
    if Cancel(q, t).1 == Ok(true) && t.slot < |q.slots|
    then h.(cancelRequested := h.cancelRequested + {q.slots[t.slot].event.key.sequence}) else h
  }

  lemma CancelInv(q: Queue, h: History, t: Handle)
    requires Inv(q, h)
    ensures Inv(Cancel(q, t).0, RecordCancel(q, h, t))
  {
    var r := Cancel(q, t);
    if r.1 == Ok(true) {
      var i := t.slot;
      var q', h' := r.0, RecordCancel(q, h, t);
      IsHolder(q, i, Seq(q.slots[i]));
      TouchSlots(q, q', i);
      TouchBatch(q, q', i);
      TouchLog(q, q', h, h', i);
      TouchTokens(q, q', h, h', i);
      TouchFlow(q, q', h, h', i);
    }
  }

  function RecordCollect(q: Queue, h: History): History {
    if q.reclaim < |q.slots| && q.slots[q.reclaim].state.Queued? && q.slots[q.reclaim].cancelled
    then h.(dropped := h.dropped + {q.slots[q.reclaim].event.key.sequence}) else h
  }

  lemma DropFlow(q: Queue, q': Queue, h: History, h': History, i: nat)
    requires SlotsOK(q) && SlotsOK(q') && FlowOK(q, h) && Touched(q, q', i) && q'.nextSequence == q.nextSequence
    requires q.slots[i].state.Queued? && q.slots[i].cancelled && q'.slots[i] == q.slots[i].(state := Free)
    requires h' == h.(dropped := h.dropped + {Seq(q.slots[i])})
    ensures FlowOK(q', h')
  {
    var me := Seq(q.slots[i]);
    IsHolder(q, i, me);
    forall x ensures Live(q', x) <==> Live(q, x) && x != me {
      if x == me {
        OnlyHolder(q, q', i, x);
      } else {
        TouchLive(q, q', i, x);
      }
    }
    forall x ensures DeliveredSeq(h', x) <==> DeliveredSeq(h, x) {
    }
  }

  lemma CollectOneInv(q: Queue, h: History)
    requires Inv(q, h)
    ensures Inv(CollectOne(q), RecordCollect(q, h))
  {
    var i, q', h' := q.reclaim, CollectOne(q), RecordCollect(q, h);
    if i < |q.slots| {
      assert !(q.slots[i].state.Finished? && q.batch.None?);
      TouchSlots(q, q', i);
      TouchBatch(q, q', i);
      TouchLog(q, q', h, h', i);
      TouchTokens(q, q', h, h', i);
      if q.slots[i].state.Queued? && q.slots[i].cancelled {
        DropFlow(q, q', h, h', i);
      } else {
        TouchFlow(q, q', h, h', i);
      }
    }
  }

  function RecordStale(q: Queue, h: History, budget: nat): History
    decreases budget
  {
    if budget == 0 then h else RecordStale(CollectOne(q), RecordCollect(q, h), budget - 1)
  }

  lemma {:induction false} CollectInv(q: Queue, h: History, budget: nat)
    requires Inv(q, h)
    ensures Inv(CollectStale(q, budget), RecordStale(q, h, budget))
    decreases budget
  {
    if budget > 0 {
      CollectOneInv(q, h);
      CollectInv(CollectOne(q), RecordCollect(q, h), budget - 1);
    }
  }

  // --------------------------------------------------------------------------------
  // Opening a batch.

  lemma {:induction false} EarliestFacts(slots: seq<Slot>, now: nat)
    ensures var r := EarliestDue(slots, now);
            && (forall i :: 0 <= i < |slots| && slots[i].state.Queued? && slots[i].event.key.time <= now ==>
                  r.Some? && !slots[i].Ready().Less(r.value))
            && (r.Some? ==> r.value.time <= now && exists i :: 0 <= i < |slots| && Joins(slots[i], r.value))
  {
    if slots != [] {
      var last := |slots| - 1;
      var init := slots[..last];
      EarliestFacts(init, now);
      var r := EarliestDue(slots, now);
      if r.Some? {
        if EarliestDue(init, now) == r {
          var i :| 0 <= i < |init| && Joins(init[i], r.value);
          assert slots[i] == init[i];
        } else {
          assert Joins(slots[last], r.value);
        }
      }
      forall i | 0 <= i < |slots| && slots[i].state.Queued? && slots[i].event.key.time <= now
        ensures r.Some? && !slots[i].Ready().Less(r.value)
      {
        if i < last {
          assert init[i] == slots[i];
        }
      }
    }
  }

  lemma {:induction false} JoiningFacts(slots: seq<Slot>, k: ReadyKey)
    ensures var r := Joining(slots, k);
            && (forall i :: 0 <= i < |slots| && Joins(slots[i], k) ==> i in r)
            && (forall m, n :: 0 <= m < n < |r| ==> r[m] < r[n])
  {
    if slots != [] {
      var last := |slots| - 1;
      JoiningFacts(slots[..last], k);
      var r, rest := Joining(slots, k), Joining(slots[..last], k);
      forall i | 0 <= i < |slots| && Joins(slots[i], k) ensures i in r {
        if i < last {
          assert slots[..last][i] == slots[i];
          assert i in rest;
        }
      }
    }
  }

  ghost predicate InRange(slots: seq<Slot>, idxs: seq<nat>) {
    forall n :: 0 <= n < |idxs| ==> idxs[n] < |slots|
  }

  ghost predicate Sorted(slots: seq<Slot>, idxs: seq<nat>) {
    && InRange(slots, idxs)
    && forall m, n :: 0 <= m < n < |idxs| ==> slots[idxs[m]].event.key.Less(slots[idxs[n]].event.key)
  }

  ghost predicate Below(slots: seq<Slot>, idxs: seq<nat>, top: nat)
    requires InRange(slots, idxs) && top < |slots|
  {
    forall n :: 0 <= n < |idxs| ==> slots[idxs[n]].event.key.Less(slots[top].event.key)
  }

  lemma AppendSorted(slots: seq<Slot>, r: seq<nat>, top: nat)
    requires Sorted(slots, r) && top < |slots| && Below(slots, r, top)
    ensures Sorted(slots, r + [top])
  {
  }

  // Inserting below the last element leaves it last.
  lemma InsertBelow(slots: seq<Slot>, sorted: seq<nat>, i: nat, r: seq<nat>)
    requires sorted != [] && Sorted(slots, sorted) && i < |slots|
    requires slots[i].event.key.Less(slots[sorted[|sorted| - 1]].event.key)
    requires InRange(slots, r) && multiset(r) == multiset(sorted[..|sorted| - 1]) + multiset{i}
    ensures Below(slots, r, sorted[|sorted| - 1])
  {
    var init := sorted[..|sorted| - 1];
    forall n | 0 <= n < |r| ensures slots[r[n]].event.key.Less(slots[sorted[|sorted| - 1]].event.key) {
      assert r[n] in multiset(r);
      if r[n] != i {
        assert r[n] in multiset(init);
        var m :| 0 <= m < |init| && init[m] == r[n];
        assert sorted[m] == r[n];
      }
    }
  }

  lemma TopIsLast(slots: seq<Slot>, sorted: seq<nat>, i: nat)
    requires sorted != [] && Sorted(slots, sorted) && i < |slots|
    requires slots[sorted[|sorted| - 1]].event.key.Less(slots[i].event.key)
    ensures Below(slots, sorted, i)
  {
    var top := sorted[|sorted| - 1];
    forall n | 0 <= n < |sorted| - 1 ensures slots[sorted[n]].event.key.Less(slots[i].event.key) {
      assert slots[sorted[n]].event.key.Less(slots[top].event.key);
      LexTransitive(slots[sorted[n]].event.key.Fields(), slots[top].event.key.Fields(), slots[i].event.key.Fields());
    }
  }

  lemma {:induction false} InsertSorted(slots: seq<Slot>, sorted: seq<nat>, i: nat)
    requires Sorted(slots, sorted) && i < |slots|
    requires forall n :: 0 <= n < |sorted| ==> slots[sorted[n]].event.key != slots[i].event.key
    ensures Sorted(slots, Insert(slots, sorted, i))
    decreases |sorted|
  {
    if sorted != [] {
      var top := sorted[|sorted| - 1];
      if slots[i].event.key.Less(slots[top].event.key) {
        var init := sorted[..|sorted| - 1];
        var r := Insert(slots, init, i);
        InsertSorted(slots, init, i);
        InsertMembers(slots, init, i);
        InsertBelow(slots, sorted, i, r);
        AppendSorted(slots, r, top);
      } else {
        KeyTotal(slots[i].event.key, slots[top].event.key);
        TopIsLast(slots, sorted, i);
        AppendSorted(slots, sorted, i);
      }
    }
  }

  lemma {:induction false} SortSorted(slots: seq<Slot>, idxs: seq<nat>)
    requires InRange(slots, idxs)
    requires forall m, n :: 0 <= m < n < |idxs| ==> slots[idxs[m]].event.key != slots[idxs[n]].event.key
    ensures Sorted(slots, SortByKey(slots, idxs))
    decreases |idxs|
  {
    if idxs != [] {
      var last := |idxs| - 1;
      var init := idxs[..last];
      SortSorted(slots, init);
      var rest := SortByKey(slots, init);
      forall n | 0 <= n < |rest| ensures slots[rest[n]].event.key != slots[idxs[last]].event.key {
        assert rest[n] in multiset(rest);
        assert rest[n] in multiset(init);
        var m :| 0 <= m < |init| && init[m] == rest[n];
        assert idxs[m] == init[m];
      }
      InsertSorted(slots, rest, idxs[last]);
    }
  }

  lemma OpenedMembers(q: Queue, k: ReadyKey)
    ensures forall i: nat :: i in Opened(q, k).members <==> i < |q.slots| && Joins(q.slots[i], k)
  {
    var idxs, members := Joining(q.slots, k), Opened(q, k).members;
    JoiningFacts(q.slots, k);
    forall i: nat ensures i in members <==> i < |q.slots| && Joins(q.slots[i], k) {
      assert i in members <==> i in multiset(members);
      assert i in idxs <==> i in multiset(idxs);
      if i in idxs {
        var n :| 0 <= n < |idxs| && idxs[n] == i;
      }
    }
  }

  lemma OpenedSorted(q: Queue, k: ReadyKey)
    requires SlotsOK(q)
    ensures Sorted(q.slots, Opened(q, k).members)
  {
    var idxs := Joining(q.slots, k);
    JoiningFacts(q.slots, k);
    forall m, n | 0 <= m < n < |idxs| ensures q.slots[idxs[m]].event.key != q.slots[idxs[n]].event.key {
      assert Seq(q.slots[idxs[m]]) != Seq(q.slots[idxs[n]]);
    }
    SortSorted(q.slots, idxs);
  }

  // Activation changes states only.
  lemma ActivateKeys(slots: seq<Slot>, k: ReadyKey)
    ensures forall i :: 0 <= i < |slots| ==> Activate(slots, k)[i].event == slots[i].event
  {
  }

  lemma OpenedSlots(q: Queue, k: ReadyKey, now: nat)
    requires SlotsOK(q) && EarliestDue(q.slots, now) == Some(k)
    ensures SlotsOK(Opened(q, k))
  {
    EarliestFacts(q.slots, now);
    var q' := Opened(q, k);
    forall i | 0 <= i < |q'.slots| && q'.slots[i].state.Queued? ensures PastFrontier(q', q'.slots[i].Ready()) {
      assert q'.slots[i] == q.slots[i] && !Joins(q.slots[i], k);
    }
  }

  lemma OpenedBatch(q: Queue, k: ReadyKey)
    requires SlotsOK(q) && BatchOK(q) && q.batch.None?
    ensures BatchOK(Opened(q, k))
  {
    OpenedMembers(q, k);
    OpenedSorted(q, k);
    ActivateKeys(q.slots, k);
    var q' := Opened(q, k);
    forall n | 0 <= n < |q'.members|
      ensures q'.slots[q'.members[n]].state.Active? && q'.slots[q'.members[n]].Ready() == k
    {
      assert q'.members[n] in q'.members;
    }
    forall i | 0 <= i < |q'.slots| && (q'.slots[i].state.Active? || q'.slots[i].state.Finished?) ensures i in q'.members {
      assert !q.slots[i].state.Active? && !q.slots[i].state.Finished?;
      assert Joins(q.slots[i], k);
    }
  }

  lemma DueIsPast(q: Queue, k: ReadyKey, now: nat)
    requires SlotsOK(q) && EarliestDue(q.slots, now) == Some(k)
    ensures PastFrontier(q, k)
  {
    EarliestFacts(q.slots, now);
    var w :| 0 <= w < |q.slots| && Joins(q.slots[w], k);
  }

  lemma BatchesGrow(q: Queue, h: History, k: ReadyKey, bs: seq<ReadyKey>)
    requires LogOK(q, h) && PastFrontier(q, k) && bs == h.batches + [k]
    ensures forall m, n :: 0 <= m < n < |bs| ==> bs[m].Less(bs[n])
  {
    forall m, n | 0 <= m < n < |bs| ensures bs[m].Less(bs[n]) {
      if n == |h.batches| && m < n - 1 {
        assert h.batches[m].Less(h.batches[n - 1]);
      }
    }
  }

  lemma OpenedLog(q: Queue, h: History, k: ReadyKey)
    requires LogOK(q, h) && q.batch.None? && PastFrontier(q, k)
    ensures LogOK(Opened(q, k), h.(batches := h.batches + [k]))
  {
    BatchesGrow(q, h, k, h.batches + [k]);
    OpenedAfter(q, h, k);
    LogMoves(q, h, k, Opened(q, k), h.(batches := h.batches + [k]));
  }

  // The frontier moves to the new batch.
  lemma LogMoves(q: Queue, h: History, k: ReadyKey, q': Queue, h': History)
    requires LogOK(q, h) && PastFrontier(q, k)
    requires q'.frontier == Some(k) && q'.batch.Some? && q'.cursor == 0
    requires h'.delivered == h.delivered && h'.batches == h.batches + [k]
    requires forall m, n :: 0 <= m < n < |h'.batches| ==> h'.batches[m].Less(h'.batches[n])
    requires forall m, n :: 0 <= m < |h.delivered| && 0 <= n < |q'.members| && q'.members[n] < |q'.slots| ==>
               h.delivered[m].Less(q'.slots[q'.members[n]].event.key)
    ensures LogOK(q', h')
  {
  }

  // The members of a new batch come after everything delivered.
  lemma OpenedAfter(q: Queue, h: History, k: ReadyKey)
    requires LogOK(q, h) && PastFrontier(q, k)
    ensures var q' := Opened(q, k);
            forall m, n :: 0 <= m < |h.delivered| && 0 <= n < |q'.members| && q'.members[n] < |q'.slots| ==>
              h.delivered[m].Less(q'.slots[q'.members[n]].event.key)
  {
    OpenedMembers(q, k);
    var q' := Opened(q, k);
    forall m, n | 0 <= m < |h.delivered| && 0 <= n < |q'.members| && q'.members[n] < |q'.slots|
      ensures h.delivered[m].Less(q'.slots[q'.members[n]].event.key)
    {
      assert q'.members[n] in q'.members;
      assert Joins(q.slots[q'.members[n]], k);
      KeyAfterReady(h.delivered[m], q'.slots[q'.members[n]].event.key);
    }
  }

  lemma OpenedFlow(q: Queue, h: History, k: ReadyKey)
    requires FlowOK(q, h)
    ensures FlowOK(Opened(q, k), h.(batches := h.batches + [k]))
  {
    var q', h' := Opened(q, k), h.(batches := h.batches + [k]);
    forall x ensures Live(q', x) <==> Live(q, x) {
      if i :| Holds(q, i, x) {
        assert Holds(q', i, x);
      }
      if i :| Holds(q', i, x) {
        assert Holds(q, i, x);
      }
    }
    forall x ensures DeliveredSeq(h', x) <==> DeliveredSeq(h, x) {
    }
  }

  function RecordPop(q: Queue, h: History, now: nat, budget: nat): History {
    if budget == 0 || q.batch.Some? || q.nextBatch == MAX64 then h
    else match EarliestDue(q.slots, now) case None => h case Some(k) => h.(batches := h.batches + [k])
  }

  lemma PopShape(q: Queue, h: History, now: nat, budget: nat)
    ensures var k := EarliestDue(q.slots, now);
            if budget > 0 && q.batch.None? && q.nextBatch != MAX64 && k.Some?
            then PopBatch(q, now, budget).0 == Opened(q, k.value) && RecordPop(q, h, now, budget) == h.(batches := h.batches + [k.value])
            else PopBatch(q, now, budget).0 == q && RecordPop(q, h, now, budget) == h
  {
  }

  lemma PopInv(q: Queue, h: History, now: nat, budget: nat, q': Queue, h': History)
    requires Inv(q, h)
    requires q' == PopBatch(q, now, budget).0 && h' == RecordPop(q, h, now, budget)
    ensures Inv(q', h')
  {
    PopShape(q, h, now, budget);
    if budget > 0 && q.batch.None? && q.nextBatch != MAX64 && EarliestDue(q.slots, now).Some? {
      OpenedInv(q, h, now, EarliestDue(q.slots, now).value, q', h');
    }
  }

  lemma OpenedInv(q: Queue, h: History, now: nat, k: ReadyKey, q': Queue, h': History)
    requires Inv(q, h) && q.batch.None? && EarliestDue(q.slots, now) == Some(k)
    requires q' == Opened(q, k) && h' == h.(batches := h.batches + [k])
    ensures Inv(q', h')
  {
    OpenedSlots(q, k, now);
    OpenedBatch(q, k);
    DueIsPast(q, k, now);
    OpenedLog(q, h, k);
    OpenedFlow(q, h, k);
    OpenedTokens(q, h, k);
  }

  lemma OpenedTokens(q: Queue, h: History, k: ReadyKey)
    requires TokensOK(q, h)
    ensures TokensOK(Opened(q, k), h.(batches := h.batches + [k]))
  {
    ActivateKeys(q.slots, k);
  }

  // --------------------------------------------------------------------------------
  // Executing and closing a batch.

  function RecordAck(q: Queue, h: History, b: nat, t: Handle, d: Disposition): History {
    if AckExecuted(q, b, t, d).1.Ok? && t.slot < |q.slots| then h.(delivered := h.delivered + [q.slots[t.slot].event.key]) else h
  }

  // The queue after the member at the cursor finished.
  function Acked(q: Queue): Queue
    requires q.cursor < |q.members| && q.members[q.cursor] < |q.slots|
  {
    SetState(q, q.members[q.cursor], Finished).(cursor := q.cursor + 1)
  }

  lemma MemberOnce(q: Queue, n: nat)
    requires BatchOK(q) && q.cursor < |q.members| && n < |q.members| && n != q.cursor
    ensures q.members[n] != q.members[q.cursor]
  {
    var a, b := if n < q.cursor then n else q.cursor, if n < q.cursor then q.cursor else n;
    assert q.slots[q.members[a]].event.key.Less(q.slots[q.members[b]].event.key);
    LexIrreflexive(q.slots[q.members[a]].event.key.Fields());
  }

  lemma AckBatch(q: Queue, q': Queue)
    requires BatchOK(q) && q.cursor < |q.members| && q' == Acked(q)
    ensures BatchOK(q')
  {
    forall n | 0 <= n < |q.members| && n != q.cursor ensures q.members[n] != q.members[q.cursor] {
      MemberOnce(q, n);
    }
  }

  lemma AckSlots(q: Queue)
    requires SlotsOK(q) && BatchOK(q) && q.cursor < |q.members|
    ensures SlotsOK(Acked(q))
  {
  }

  lemma {:induction false} LexIrreflexive(a: seq<nat>)
    ensures !LexLess(a, a)
    decreases |a|
  {
    if a != [] {
      LexIrreflexive(a[1..]);
    }
  }

  lemma AckLog(q: Queue, h: History)
    requires BatchOK(q) && LogOK(q, h) && q.cursor < |q.members| && q.batch.Some?
    ensures LogOK(Acked(q), h.(delivered := h.delivered + [q.slots[q.members[q.cursor]].event.key]))
  {
    var q', key := Acked(q), q.slots[q.members[q.cursor]].event.key;
    var h' := h.(delivered := h.delivered + [key]);
    forall m, n | 0 <= m < |h'.delivered| && q'.cursor <= n < |q'.members| && q'.members[n] < |q'.slots|
      ensures h'.delivered[m].Less(q'.slots[q'.members[n]].event.key)
    {
      assert q'.slots[q'.members[n]].event.key == q.slots[q.members[n]].event.key;
      assert key.Less(q.slots[q.members[n]].event.key);
    }
  }

  lemma AckFlow(q: Queue, h: History)
    requires SlotsOK(q) && BatchOK(q) && FlowOK(q, h) && q.cursor < |q.members|
    ensures FlowOK(Acked(q), h.(delivered := h.delivered + [q.slots[q.members[q.cursor]].event.key]))
  {
    var i := q.members[q.cursor];
    var q', me := Acked(q), Seq(q.slots[i]);
    var h' := h.(delivered := h.delivered + [q.slots[i].event.key]);
    IsHolder(q, i, me);
    var same := q'.(cursor := q.cursor);
    forall x ensures Live(q', x) <==> Live(q, x) && x != me {
      if j :| Holds(q', j, x) {
        assert j != i && Holds(q, j, x);
      }
      if x != me {
        if j :| Holds(q, j, x) {
          assert Holds(q', j, x);
        }
      }
    }
    forall x ensures DeliveredSeq(h', x) <==> DeliveredSeq(h, x) || x == me {
      if n :| 0 <= n < |h.delivered| && h.delivered[n].sequence == x {
        assert h'.delivered[n] == h.delivered[n];
      }
      assert h'.delivered[|h.delivered|].sequence == me;
    }
  }

  lemma AckInv(q: Queue, h: History, b: nat, t: Handle, d: Disposition, q': Queue, h': History)
    requires Inv(q, h)
    requires q' == AckExecuted(q, b, t, d).0 && h' == RecordAck(q, h, b, t, d)
    ensures Inv(q', h')
  {
    if AckExecuted(q, b, t, d).1.Ok? {
      assert q' == Acked(q);
      AckBatch(q, q');
      AckSlots(q);
      AckLog(q, h);
      AckFlow(q, h);
    }
  }

  // Only the progress of the resolver differs.
  ghost predicate Resolving(q: Queue, q': Queue) {
    q' == q.(resolverTotal := q'.resolverTotal, resolverCursor := q'.resolverCursor) && (ResolverOK(q) ==> ResolverOK(q'))
  }

  lemma ResolveFlow(q: Queue, h: History, q': Queue)
    requires FlowOK(q, h) && Resolving(q, q')
    ensures FlowOK(q', h)
  {
    forall x ensures Live(q', x) <==> Live(q, x) {
      if j :| Holds(q', j, x) {
        assert Holds(q, j, x);
      }
      if j :| Holds(q, j, x) {
        assert Holds(q', j, x);
      }
    }
  }

  lemma ResolveLog(q: Queue, h: History, q': Queue)
    requires LogOK(q, h) && Resolving(q, q')
    ensures LogOK(q', h)
  {
  }

  lemma ResolveTokens(q: Queue, h: History, q': Queue)
    requires TokensOK(q, h) && Resolving(q, q')
    ensures TokensOK(q', h)
  {
  }

  lemma ResolveSlots(q: Queue, q': Queue)
    requires SlotsOK(q) && Resolving(q, q')
    ensures SlotsOK(q')
  {
  }

  lemma ResolveBatch(q: Queue, q': Queue)
    requires BatchOK(q) && Resolving(q, q')
    ensures BatchOK(q')
  {
  }

  lemma ResolveStep(q: Queue, b: nat, budget: nat, total: nat)
    ensures Resolving(q, ResolverStep(q, b, budget, total).0)
  {
  }

  lemma ResolveInv(q: Queue, h: History, b: nat, budget: nat, total: nat, q': Queue, h': History)
    requires Inv(q, h)
    requires q' == ResolverStep(q, b, budget, total).0 && h' == h
    ensures Inv(q', h')
  {
    ResolveStep(q, b, budget, total);
    ResolveFlow(q, h, q');
    ResolveLog(q, h, q');
    ResolveTokens(q, h, q');
    ResolveSlots(q, q');
    ResolveBatch(q, q');
  }

  // The queue after all members of the batch finished.
  function Closed(q: Queue): Queue {
    q.(slots := FreeMembers(q.slots, q.members), members := [], batch := None)
  }

  lemma ClosedSlots(q: Queue)
    requires SlotsOK(q) && BatchOK(q) && q.cursor == |q.members|
    ensures SlotsOK(Closed(q)) && forall i :: 0 <= i < |q.slots| && i in q.members ==> q.slots[i].state.Finished?
  {
    forall i | 0 <= i < |q.slots| && i in q.members ensures q.slots[i].state.Finished? {
      var n :| 0 <= n < |q.members| && q.members[n] == i;
    }
  }

  lemma ClosedBatch(q: Queue)
    requires BatchOK(q)
    ensures BatchOK(Closed(q))
  {
  }

  lemma ClosedLive(q: Queue, x: nat)
    requires forall i :: 0 <= i < |q.slots| && i in q.members ==> q.slots[i].state.Finished?
    ensures Live(Closed(q), x) <==> Live(q, x)
  {
    if j :| Holds(Closed(q), j, x) {
      assert Holds(q, j, x);
    }
    if j :| Holds(q, j, x) {
      assert Holds(Closed(q), j, x);
    }
  }

  lemma ClosedFlow(q: Queue, h: History)
    requires FlowOK(q, h) && forall i :: 0 <= i < |q.slots| && i in q.members ==> q.slots[i].state.Finished?
    ensures FlowOK(Closed(q), h)
  {
    forall x ensures Live(Closed(q), x) <==> Live(q, x) {
      ClosedLive(q, x);
    }
  }

  lemma FinishInv(q: Queue, h: History, b: nat, q': Queue, h': History)
    requires Inv(q, h)
    requires q' == FinishBatch(q, b).0 && h' == h
    ensures Inv(q', h')
  {
    if FinishBatch(q, b).1.Ok? {
      assert q' == Closed(q);
      ClosedSlots(q);
      ClosedBatch(q);
      ClosedFlow(q, h);
    }
  }

  // --------------------------------------------------------------------------------
  // Runs.

  datatype Command =
    | DoPrepare(e: EventDraft)
    | DoEnqueue(t: Handle)
    | DoAbandon(t: Handle)
    | DoRetarget(t: Handle, e: EventDraft)
    | DoCancel(t: Handle)
    | DoPop(now: nat, budget: nat)
    | DoAck(b: nat, t: Handle, d: Disposition)
    | DoResolve(b: nat, budget: nat, total: nat)
    | DoFinish(b: nat)
    | DoCollect(budget: nat)

  // A collection looks at no slot twice.
  function Rounds(q: Queue, budget: nat): nat {
    if budget <= |q.slots| then budget else |q.slots|
  }

  function Step(q: Queue, c: Command): Queue {
    match c
    case DoPrepare(e) => Prepare(q, e).0
    case DoEnqueue(t) => Enqueue(q, t).0
    case DoAbandon(t) => Abandon(q, t)
    case DoRetarget(t, e) => Retarget(q, t, e).0
    case DoCancel(t) => Cancel(q, t).0
    case DoPop(now, budget) => PopBatch(q, now, budget).0
    case DoAck(b, t, d) => AckExecuted(q, b, t, d).0
    case DoResolve(b, budget, total) => ResolverStep(q, b, budget, total).0
    case DoFinish(b) => FinishBatch(q, b).0
    case DoCollect(budget) => CollectStale(q, Rounds(q, budget))
  }

  function Record(q: Queue, h: History, c: Command): History {
    match c
    case DoPrepare(e) => RecordPrepare(q, h, e)
    case DoEnqueue(t) => RecordEnqueue(q, h, t)
    case DoCancel(t) => RecordCancel(q, h, t)
    case DoPop(now, budget) => RecordPop(q, h, now, budget)
    case DoAck(b, t, d) => RecordAck(q, h, b, t, d)
    case DoCollect(budget) => RecordStale(q, h, Rounds(q, budget))
    case _ => h
  }

  lemma StepInv(q: Queue, h: History, c: Command)
    requires Inv(q, h)
    ensures Inv(Step(q, c), Record(q, h, c))
  {
    if c.DoPop? || c.DoAck? || c.DoResolve? || c.DoFinish? {
      BatchStepInv(q, h, c);
    } else {
      SlotStepInv(q, h, c);
    }
  }

  lemma SlotStepInv(q: Queue, h: History, c: Command)
    requires Inv(q, h) && !(c.DoPop? || c.DoAck? || c.DoResolve? || c.DoFinish?)
    ensures Inv(Step(q, c), Record(q, h, c))
  {
    if c.DoEnqueue? || c.DoAbandon? || c.DoRetarget? {
      ReservationStepInv(q, h, c);
    } else {
      match c
      case DoPrepare(e) => PrepareInv(q, h, e);
      case DoCancel(t) => CancelInv(q, h, t);
      case DoCollect(budget) => CollectInv(q, h, Rounds(q, budget));
    }
  }

  lemma ReservationStepInv(q: Queue, h: History, c: Command)
    requires Inv(q, h) && (c.DoEnqueue? || c.DoAbandon? || c.DoRetarget?)
    ensures Inv(Step(q, c), Record(q, h, c))
  {
    match c
    case DoEnqueue(t) => EnqueueInv(q, h, t);
    case DoAbandon(t) => AbandonInv(q, h, t);
    case DoRetarget(t, e) => RetargetInv(q, h, t, e);
  }

  lemma BatchStepInv(q: Queue, h: History, c: Command)
    requires Inv(q, h) && (c.DoPop? || c.DoAck? || c.DoResolve? || c.DoFinish?)
    ensures Inv(Step(q, c), Record(q, h, c))
  {
    var q', h' := Step(q, c), Record(q, h, c);
    match c
    case DoPop(now, budget) => PopInv(q, h, now, budget, q', h');
    case DoAck(b, t, d) => AckInv(q, h, b, t, d, q', h');
    case DoResolve(b, budget, total) => ResolveInv(q, h, b, budget, total, q', h');
    case DoFinish(b) => FinishInv(q, h, b, q', h');
  }

  function Run(q: Queue, h: History, cs: seq<Command>): (Queue, History)
    decreases |cs|
  {
    if cs == [] then (q, h) else Run(Step(q, cs[0]), Record(q, h, cs[0]), cs[1..])
  }

  lemma {:induction false} RunInv(q: Queue, h: History, cs: seq<Command>)
    requires Inv(q, h)
    ensures var (q', h') := Run(q, h, cs); Inv(q', h')
    decreases |cs|
  {
    if cs != [] {
      StepInv(q, h, cs[0]);
      RunInv(Step(q, cs[0]), Record(q, h, cs[0]), cs[1..]);
    }
  }

  // The queue behaves as one sorted queue of closed batches over every run of any
  // operations: batches are strictly increasing, deliveries follow the full key order
  // whatever slots they occupied, no event is delivered twice, and an event that was
  // enqueued is still waiting, was delivered, or was cancelled and reclaimed.
  lemma SortedQueue(n: nat, domain: nat, store: nat, maxBytes: nat, cs: seq<Command>)
    ensures var (q, h) := Run(EmptyQueue(n, domain, store, maxBytes), NO_HISTORY, cs);
            && (forall i, j :: 0 <= i < j < |h.batches| ==> h.batches[i].Less(h.batches[j]))
            && (forall i, j :: 0 <= i < j < |h.delivered| ==> h.delivered[i].Less(h.delivered[j]))
            && (forall i, j :: 0 <= i < j < |h.delivered| ==> h.delivered[i].sequence != h.delivered[j].sequence)
            && (forall x :: x in h.entered <==> Live(q, x) || DeliveredSeq(h, x) || x in h.dropped)
            && (forall x :: x in h.dropped ==> x in h.cancelRequested && !Live(q, x) && !DeliveredSeq(h, x))
            && (forall x :: DeliveredSeq(h, x) ==> !Live(q, x))
  {
    InitInv(n, domain, store, maxBytes);
    RunInv(EmptyQueue(n, domain, store, maxBytes), NO_HISTORY, cs);
  }

  // A handed-out token keeps naming its event.
  lemma IssuedStep(q: Queue, h: History, c: Command, t: (nat, nat))
    requires Inv(q, h) && t in h.issued
    ensures var h' := Record(q, h, c); t in h'.issued && h'.issued[t] == h.issued[t]
  {
    if c.DoPrepare? {
      PrepareShape(q, h, c.e);
      ScanFacts(q.slots, 0);
    } else if c.DoCollect? {
      StaleIssued(q, h, Rounds(q, c.budget));
    }
  }

  lemma {:induction false} StaleIssued(q: Queue, h: History, budget: nat)
    ensures RecordStale(q, h, budget).issued == h.issued
    decreases budget
  {
    if budget > 0 {
      StaleIssued(CollectOne(q), RecordCollect(q, h), budget - 1);
    }
  }

  lemma {:induction false} IssuedRun(q: Queue, h: History, cs: seq<Command>, t: (nat, nat))
    requires Inv(q, h) && t in h.issued
    ensures var (q', h') := Run(q, h, cs); Inv(q', h') && t in h'.issued && h'.issued[t] == h.issued[t]
    decreases |cs|
  {
    if cs != [] {
      StepInv(q, h, cs[0]);
      IssuedStep(q, h, cs[0], t);
      IssuedRun(Step(q, cs[0]), Record(q, h, cs[0]), cs[1..], t);
    }
  }

  // A token obtained for one event is never accepted for a later event that reuses the
  // slot: if it still resolves to an occupied slot after any run, that slot holds the
  // event the token was issued for.
  lemma TokenNamesOneEvent(q: Queue, h: History, e: EventDraft, cs: seq<Command>)
    requires Inv(q, h) && Prepare(q, e).1.Ok?
    ensures var token := Prepare(q, e).1.value;
            var (q', h') := Run(Prepare(q, e).0, RecordPrepare(q, h, e), cs);
            var r := Resolve(q', token);
            r.Ok? && q'.slots[r.value].Occupied() ==> q'.slots[r.value].event.key.sequence == q.nextSequence
  {
    var token := Prepare(q, e).1.value;
    PrepareInv(q, h, e);
    IssuedRun(Prepare(q, e).0, RecordPrepare(q, h, e), cs, (token.slot, token.generation));
  }
}
