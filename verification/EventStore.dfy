// The event queue as the object that updates its own fields in place
// (runtime/src/event_queue.cpp). Every method is proved to do to the fields what the
// corresponding operation of EventQueue does to their value, so the results about whole
// runs in EventRuns hold of this object.
module EventStore {
  import opened Common
  import opened EventQueue

  // Before the scan of the first `n` slots found anything, only exhausted slots changed.
  lemma ScanPrefix(slots: seq<Slot>, n: nat)
    requires n < |slots|
    ensures !slots[n].state.Free? ==> Scan(slots, n) == Scan(slots, n + 1)
    ensures slots[n].state.Free? && slots[n].generation == MAX64 ==>
              Scan(slots, n) == Scan(slots[n := slots[n].(state := Retired)], n + 1)
  {
  }

  class EventStore {
    const slots: array<Slot>
    const domain: nat
    const store: nat
    const maxBytes: nat
    var frontier: Option<ReadyKey>
    var batch: Option<nat>
    var batchReady: ReadyKey
    var members: seq<nat>
    var cursor: nat
    var resolverCursor: nat
    var resolverTotal: Option<nat>
    var reclaim: nat
    var nextBatch: nat
    var nextSequence: nat

    ghost function View(): Queue
      reads this, slots
    {
      Queue(slots[..], domain, store, maxBytes, frontier, batch, batchReady, members, cursor,
            resolverCursor, resolverTotal, reclaim, nextBatch, nextSequence)
    }

    // What every operation keeps of the fields themselves.
    ghost predicate Valid()
      reads this
    {
      && MembersInBounds()
      && (slots.Length > 0 ==> reclaim < slots.Length)
      && (batch.Some? ==> cursor <= |members|)
      && (if resolverTotal.Some? then resolverCursor <= resolverTotal.value else batch.Some? ==> resolverCursor == 0)
    }

    ghost predicate MembersInBounds()
      reads this
    {
      forall n :: 0 <= n < |members| ==> members[n] < slots.Length
    }

    constructor (n: nat, domain: nat, store: nat, maxBytes: nat)
      ensures Valid() && fresh(slots) && View() == EmptyQueue(n, domain, store, maxBytes)
    {
      var blank := Slot(Free, 0, EventDraft(EventKey(0, 0, 0, 0, 0, 0), 0, 0, 0, 0), false);
      slots := new Slot[n](_ => blank);
      this.domain, this.store, this.maxBytes := domain, store, maxBytes;
      frontier, batch, batchReady, members, cursor := None, None, ReadyKey(0, 0), [], 0;
      resolverCursor, resolverTotal, reclaim, nextBatch, nextSequence := 0, None, 0, 1, 1;
      new;
      assert slots[..] == EmptyQueue(n, domain, store, maxBytes).slots;
    }

    method ReserveEvent(e: EventDraft) returns (r: Result<Handle, Error>)
      requires Valid()
      modifies this`nextSequence, slots
      ensures Valid() && (View(), r) == Prepare(old(View()), e)
    {
      if e.bytes > maxBytes {
        return Err(Capacity);
      }
      if nextSequence == MAX64 {
        return Err(Overflow);
      }
      if frontier.Some? && !frontier.value.Less(e.key.Ready()) {
        return Err(TimeRegression);
      }
      var i := 0;
      while i < slots.Length
        invariant 0 <= i <= slots.Length
        invariant Scan(slots[..], i) == Scan(old(slots[..]), 0)
        invariant nextSequence == old(nextSequence)
      {
        ScanPrefix(slots[..], i);
        ghost var before := slots[..];
        if slots[i].state.Free? {
          if slots[i].generation != MAX64 {
            slots[i] := Slot(Reserved, slots[i].generation + 1, e.(key := e.key.(sequence := nextSequence)), false);
            nextSequence := nextSequence + 1;
            assert slots[..] == before[i := slots[i]];
            return Ok(Handle(KEvent, domain, store, i, slots[i].generation, e.owner));
          }
          slots[i] := slots[i].(state := Retired);
          assert slots[..] == before[i := before[i].(state := Retired)];
        }
        i := i + 1;
      }
      return Err(Capacity);
    }

    method EnqueueEvent(h: Handle) returns (r: Result<Handle, Error>)
      requires Valid()
      modifies slots
      ensures Valid() && (View(), r) == Enqueue(old(View()), h)
    {
      var found := Preflight(Snapshot(), h);
      if found.Err? {
        return Err(found.error);
      }
      var i := found.value;
      ghost var before := slots[..];
      slots[i] := slots[i].(state := Queued);
      assert slots[..] == before[i := slots[i]];
      return Ok(h);
    }

    // The fields as a value, for the checks that only read them.
    function Snapshot(): (q: Queue)
      reads this, slots
      ensures q == View()
    {
      Queue(slots[..], domain, store, maxBytes, frontier, batch, batchReady, members, cursor,
            resolverCursor, resolverTotal, reclaim, nextBatch, nextSequence)
    }

    method AbandonEvent(h: Handle)
      requires Valid()
      modifies slots
      ensures Valid() && View() == Abandon(old(View()), h)
    {
      if h.slot < slots.Length && slots[h.slot].generation == h.generation && slots[h.slot].state.Reserved? {
        ghost var before := slots[..];
        slots[h.slot] := slots[h.slot].(state := Free);
        assert slots[..] == before[h.slot := slots[h.slot]];
      }
    }

    method RetargetEvent(h: Handle, e: EventDraft) returns (r: Result<(), Error>)
      requires Valid()
      modifies slots
      ensures Valid() && (View(), r) == Retarget(old(View()), h, e)
    {
      if e.bytes > maxBytes {
        return Err(Capacity);
      }
      var found := Preflight(Snapshot(), h);
      if found.Err? {
        return Err(found.error);
      }
      if e.owner != h.owner {
        return Err(WrongOwner);
      }
      if frontier.Some? && !frontier.value.Less(e.key.Ready()) {
        return Err(TimeRegression);
      }
      var i := found.value;
      ghost var before := slots[..];
      slots[i] := slots[i].(event := e.(key := e.key.(sequence := slots[i].event.key.sequence)));
      assert slots[..] == before[i := slots[i]];
      return Ok(());
    }

    method CancelEvent(h: Handle) returns (r: Result<bool, Error>)
      requires Valid()
      modifies slots
      ensures Valid() && (View(), r) == Cancel(old(View()), h)
    {
      var found := Resolve(Snapshot(), h);
      if found.Err? {
        return Err(found.error);
      }
      var i := found.value;
      if slots[i].cancelled || slots[i].state.Finished? || slots[i].state.Free? {
        return Ok(false);
      }
      if slots[i].state.Reserved? {
        return Err(InvalidState);
      }
      ghost var before := slots[..];
      slots[i] := slots[i].(cancelled := true);
      assert slots[..] == before[i := slots[i]];
      return Ok(true);
    }

    // The earliest key among queued events due by `now`.
    method Earliest(now: nat) returns (key: Option<ReadyKey>)
      ensures key == EarliestDue(slots[..], now)
    {
      key := None;
      for i := 0 to slots.Length
        invariant key == EarliestDue(slots[..i], now)
      {
        assert slots[..i + 1][..i] == slots[..i];
        var s := slots[i];
        if s.state.Queued? && s.event.key.time <= now && (key.None? || s.Ready().Less(key.value)) {
          key := Some(s.Ready());
        }
      }
      assert slots[..slots.Length] == slots[..];
    }

    // Moves the queued events of batch `k` to the batch, in slot order.
    method Gather(k: ReadyKey)
      modifies this`members, slots
      ensures slots[..] == Activate(old(slots[..]), k)
      ensures members == Joining(old(slots[..]), k)
    {
      members := [];
      ghost var all := slots[..];
      for i := 0 to slots.Length
        invariant forall j :: i <= j < slots.Length ==> slots[j] == all[j]
        invariant forall j :: 0 <= j < i ==> slots[j] == if Joins(all[j], k) then all[j].(state := Active) else all[j]
        invariant members == Joining(all[..i], k)
      {
        assert all[..i + 1][..i] == all[..i];
        if slots[i].state.Queued? && slots[i].Ready() == k {
          slots[i] := slots[i].(state := Active);
          members := members + [i];
        }
      }
      assert all[..slots.Length] == all;
      assert slots[..] == Activate(all, k);
    }

    method GatherSorted(k: ReadyKey)
      modifies this`members, slots
      ensures slots[..] == Activate(old(slots[..]), k)
      ensures members == SortByKey(old(slots[..]), Joining(old(slots[..]), k)) && MembersInBounds()
    {
      ghost var was := slots[..];
      Gather(k);
      SortActivated(was, k, members);
      members := SortByKey(slots[..], members);
    }

    method OpenAt(k: ReadyKey)
      requires Valid() && batch.None?
      modifies this, slots
      ensures Valid() && View() == Opened(old(View()), k)
    {
      ghost var q := View();
      GatherSorted(k);
      batch, nextBatch := Some(nextBatch), nextBatch + 1;
      batchReady, frontier := k, Some(k);
      cursor, resolverCursor, resolverTotal := 0, 0, None;
      assert slots[..] == Opened(q, k).slots && members == Opened(q, k).members;
    }

    method Open(now: nat) returns (r: Result<bool, Error>)
      requires Valid()
      modifies this, slots
      ensures (View(), r) == OpenBatch(old(View()), now)
      ensures Valid() && (r == Ok(true) ==> batch.Some?)
    {
      if batch.Some? {
        return Ok(true);
      }
      var key := Earliest(now);
      if key.None? {
        return Ok(false);
      }
      if nextBatch == MAX64 {
        return Err(Overflow);
      }
      OpenAt(key.value);
      return Ok(true);
    }

    // The members from the cursor on, at most `budget` of them.
    method Slices(budget: nat) returns (r: Slice)
      requires Valid() && batch.Some?
      ensures MembersInRange(View()) && r == TakeSlice(View(), budget)
    {
      var end := if |members| - cursor <= budget then |members| else cursor + budget;
      var out: seq<QueuedEvent> := [];
      for n := cursor to end
        invariant |out| == n - cursor
        invariant forall m :: 0 <= m < |out| ==> out[m] == EntryAt(View(), cursor + m)
      {
        var i := members[n];
        out := out + [QueuedEvent(Handle(KEvent, domain, store, i, slots[i].generation, slots[i].event.owner),
                                  slots[i].event, slots[i].cancelled)];
      }
      assert out == TakeSlice(View(), budget).members;
      r := Slice(batch.value, batchReady, cursor, out, cursor == |members|);
    }

    method Pop(now: nat, budget: nat) returns (r: Result<Option<Slice>, Error>)
      requires Valid()
      modifies this, slots
      ensures Valid() && (View(), r) == PopBatch(old(View()), now, budget)
    {
      if budget == 0 {
        return Err(InvalidArgument);
      }
      var found := Open(now);
      if found.Err? {
        return Err(found.error);
      }
      if !found.value {
        return Ok(None);
      }
      var out := Slices(budget);
      return Ok(Some(out));
    }

    method Ack(b: nat, h: Handle, d: Disposition) returns (r: Result<(), Error>)
      requires Valid()
      modifies this`cursor, slots
      ensures Valid() && (View(), r) == AckExecuted(old(View()), b, h, d)
    {
      if batch != Some(b) || cursor == |members| {
        return Err(InvalidState);
      }
      var found := Resolve(Snapshot(), h);
      if found.Err? {
        return Err(found.error);
      }
      var i := found.value;
      if i != members[cursor] {
        return Err(InvalidState);
      }
      if slots[i].cancelled && d.Committed? {
        return Err(Error.Cancelled);
      }
      ghost var before := slots[..];
      slots[i] := slots[i].(state := Finished);
      assert slots[..] == before[i := slots[i]];
      cursor := cursor + 1;
      return Ok(());
    }

    method ResolveSome(b: nat, budget: nat, total: nat) returns (r: Result<bool, Error>)
      requires Valid()
      modifies this`resolverTotal, this`resolverCursor
      ensures Valid() && (View(), r) == ResolverStep(old(View()), b, budget, total)
    {
      if budget == 0 {
        return Err(InvalidArgument);
      }
      if batch != Some(b) || cursor != |members| {
        return Err(InvalidState);
      }
      if resolverTotal.Some? && resolverTotal.value != total {
        return Err(InvalidArgument);
      }
      var left := if resolverCursor <= total then total - resolverCursor else 0;
      resolverTotal := Some(total);
      resolverCursor := resolverCursor + if budget <= left then budget else left;
      return Ok(resolverCursor == total);
    }

    method Finish(b: nat) returns (r: Result<(), Error>)
      requires Valid()
      modifies this`members, this`batch, slots
      ensures Valid() && (View(), r) == FinishBatch(old(View()), b)
    {
      if batch != Some(b) || cursor != |members| || resolverTotal.None? || resolverCursor != resolverTotal.value {
        return Err(InvalidState);
      }
      ghost var all := slots[..];
      var done := members;
      for n := 0 to |done|
        invariant forall i :: 0 <= i < slots.Length ==>
                    slots[i] == if i in done[..n] then all[i].(state := Free) else all[i]
      {
        assert done[..n + 1] == done[..n] + [done[n]];
        slots[done[n]] := slots[done[n]].(state := Free);
      }
      assert done[..|done|] == done;
      assert slots[..] == FreeMembers(all, done);
      members, batch := [], None;
      return Ok(());
    }

    method Collect(budget: nat) returns (freed: nat)
      requires Valid()
      modifies this`reclaim, slots
      ensures Valid()
      ensures View() == CollectStale(old(View()), if budget <= slots.Length then budget else slots.Length)
    {
      freed := 0;
      var limit := if budget <= slots.Length then budget else slots.Length;
      for scanned := 0 to limit
        invariant Valid()
        invariant CollectStale(View(), limit - scanned) == CollectStale(old(View()), limit)
      {
        ghost var before := View();
        var i := reclaim;
        reclaim := (reclaim + 1) % slots.Length;
        if (slots[i].state.Finished? && batch.None?) || (slots[i].state.Queued? && slots[i].cancelled) {
          slots[i] := slots[i].(state := Free);
          assert slots[..] == before.slots[i := slots[i]];
          freed := freed + 1;
        }
        assert View() == CollectOne(before);
      }
    }
  }

  function EntryAt(q: Queue, n: nat): QueuedEvent
    requires n < |q.members| && q.members[n] < |q.slots|
  {
    var i := q.members[n];
    QueuedEvent(Token(q, i), q.slots[i].event, q.slots[i].cancelled)
  }

  lemma {:induction false} InsertActivated(slots: seq<Slot>, k: ReadyKey, sorted: seq<nat>, i: nat)
    requires i < |slots| && forall n :: 0 <= n < |sorted| ==> sorted[n] < |slots|
    ensures Insert(Activate(slots, k), sorted, i) == Insert(slots, sorted, i)
    decreases |sorted|
  {
    if sorted != [] {
      InsertActivated(slots, k, sorted[..|sorted| - 1], i);
    }
  }

  // Sorting after the states changed gives the same order.
  lemma {:induction false} SortActivated(slots: seq<Slot>, k: ReadyKey, idxs: seq<nat>)
    requires forall n :: 0 <= n < |idxs| ==> idxs[n] < |slots|
    ensures SortByKey(Activate(slots, k), idxs) == SortByKey(slots, idxs)
    decreases |idxs|
  {
    if idxs != [] {
      var last := |idxs| - 1;
      SortActivated(slots, k, idxs[..last]);
      InsertActivated(slots, k, SortByKey(slots, idxs[..last]), idxs[last]);
    }
  }
}
