// What staging keeps and what a rollback undoes (runtime/src/event_txn.cpp).
module TxnStaging {
  import opened Common
  import opened EventQueue
  import EventRuns
  import opened EventTxn

  // --------------------------------------------------------------------------------
  // Staged effects stay consistent.

  lemma PrepareGenerations(q: Queue, e: EventDraft)
    ensures var (q', r) := Prepare(q, e);
            && |q'.slots| == |q.slots|
            && (forall i :: 0 <= i < |q.slots| ==> q.slots[i].generation <= q'.slots[i].generation)
            && (r.Ok? ==> r.value.slot < |q.slots| && r.value.generation == q.slots[r.value.slot].generation + 1
                          && r.value.generation == q'.slots[r.value.slot].generation)
  {
    EventRuns.ScanFacts(q.slots, 0);
  }

  lemma {:induction false} WriteBytesUpdate(writes: seq<Write>, i: nat, x: Write)
    requires i < |writes|
    ensures WriteBytes(writes[i := x]) + writes[i].value.size == WriteBytes(writes) + x.value.size
    ensures writes[i].value.size <= WriteBytes(writes)
    decreases |writes|
  {
    var last := |writes| - 1;
    if i == last {
      assert writes[i := x][..last] == writes[..last];
    } else {
      assert writes[i := x][..last] == writes[..last][i := x];
      WriteBytesUpdate(writes[..last], i, x);
    }
  }

  // Replacing the value of a staged write keeps the write list consistent.
  lemma ReplaceOK(w: World, t: Txn, i: nat, v: CellValue, t': Txn)
    requires TxnOK(w, t) && i < |t.writes| && t.writes[i].value.size <= t.bytes
    requires v.size + t.bytes <= t.budget.bytes + t.writes[i].value.size
    requires t' == t.(writes := t.writes[i := t.writes[i].(value := v)], bytes := t.bytes - t.writes[i].value.size + v.size)
    ensures TxnOK(w, t')
  {
    WriteBytesUpdate(t.writes, i, t.writes[i].(value := v));
    assert forall j :: 0 <= j < |t.writes| ==> t'.writes[j].cell == t.writes[j].cell;
  }

  lemma AppendOK(w: World, t: Txn, x: Write, t': Txn)
    requires TxnOK(w, t) && x.cell < |w.cells| && forall i :: 0 <= i < |t.writes| ==> t.writes[i].cell != x.cell
    requires x.value.size + t.bytes <= t.budget.bytes
    requires t' == t.(writes := t.writes + [x], bytes := t.bytes + x.value.size)
    ensures TxnOK(w, t')
  {
    assert t'.writes[..|t.writes|] == t.writes;
  }

  lemma BufferOK(w: World, t: Txn, c: nat, v: CellValue)
    requires TxnOK(w, t) && Buffer(w, t, c, v).Ok?
    ensures TxnOK(w, Buffer(w, t, c, v).value)
  {
    var i := FindWrite(t.writes, c);
    if i.Some? {
      WriteBytesUpdate(t.writes, i.value, t.writes[i.value]);
      ReplaceOK(w, t, i.value, v, Buffer(w, t, c, v).value);
    } else {
      AppendOK(w, t, Write(c, w.cells[c].version, v), Buffer(w, t, c, v).value);
    }
  }

  lemma StageEventOK(w: World, t: Txn, k: nat, e: EventDraft)
    requires TxnOK(w, t)
    ensures var (w', r) := StageEvent(w, t, k, e);
            TxnOK(w', t) && (r.Ok? ==> TxnOK(w', r.value.0))
  {
    if k < |w.queues| {
      PrepareGenerations(w.queues[k], e);
    }
  }

  // Every staging call, accepted or refused, keeps the transaction fit for commit.
  lemma StageKeepsOK(w: World, t: Txn, s: Stage)
    requires TxnOK(w, t)
    ensures var (w', t') := StageOne(w, t, s); TxnOK(w', t')
  {
    match s
    case DoBuffer(c, v) =>
      if Buffer(w, t, c, v).Ok? {
        BufferOK(w, t, c, v);
      }
    case DoEvent(k, e) => StageEventOK(w, t, k, e);
    case _ =>
  }

  // --------------------------------------------------------------------------------
  // Reading one's own writes.

  lemma {:induction false} FindWriteUpdate(writes: seq<Write>, i: nat, v: CellValue, c: nat)
    requires i < |writes|
    ensures FindWrite(writes[i := writes[i].(value := v)], c) == FindWrite(writes, c)
    decreases |writes|
  {
    var last := |writes| - 1;
    if i == last {
      assert writes[i := writes[i].(value := v)][..last] == writes[..last];
    } else {
      assert writes[i := writes[i].(value := v)][..last] == writes[..last][i := writes[..last][i].(value := v)];
      FindWriteUpdate(writes[..last], i, v, c);
    }
  }

  // A buffered value is what the transaction reads from then on, and no other cell reads differently.
  lemma ReadYourWrites(w: World, t: Txn, c: nat, v: CellValue, d: nat)
    requires TxnOK(w, t) && Buffer(w, t, c, v).Ok?
    ensures var t' := Buffer(w, t, c, v).value;
            Read(w, t', c) == Ok(v) && (d != c ==> Read(w, t', d) == Read(w, t, d))
  {
    var i := FindWrite(t.writes, c);
    var t' := Buffer(w, t, c, v).value;
    if i.Some? {
      FindWriteUpdate(t.writes, i.value, v, c);
      FindWriteUpdate(t.writes, i.value, v, d);
      var j := FindWrite(t.writes, d);
      if d != c && j.Some? {
        assert j.value != i.value;
      }
    } else {
      FindWriteAppend(t.writes, Write(c, w.cells[c].version, v), c);
      FindWriteAppend(t.writes, Write(c, w.cells[c].version, v), d);
    }
  }

  // --------------------------------------------------------------------------------
  // Rollback.

  ghost predicate GrownFrom(t: Txn, t': Txn) {
    && t.actions <= t'.actions && t.events <= t'.events && t.cancels <= t'.cancels && t.participants <= t'.participants
    && t'.epoch == t.epoch && t'.budget == t.budget && t'.closed == t.closed && t'.committed == t.committed
  }

  lemma StageGrows(w: World, t: Txn, s: Stage)
    ensures var (w', t') := StageOne(w, t, s); GrownFrom(t, t') && w'.cells == w.cells && w'.applied == w.applied
  {
  }

  lemma {:induction false} StageAllGrows(w: World, t: Txn, ss: seq<Stage>)
    ensures var (w', t') := StageAll(w, t, ss); GrownFrom(t, t') && w'.cells == w.cells && w'.applied == w.applied
    decreases |ss|
  {
    if ss != [] {
      StageGrows(w, t, ss[0]);
      var (w', t') := StageOne(w, t, ss[0]);
      StageAllGrows(w', t', ss[1..]);
    }
  }

  // Tokens handed out since the savepoint are newer than anything the queue held then.
  ghost predicate Newer(q: Queue, k: nat, events: seq<(nat, Handle)>) {
    forall n :: 0 <= n < |events| && events[n].0 == k ==>
      events[n].1.slot < |q.slots| && events[n].1.generation > q.slots[events[n].1.slot].generation
  }

  // Slots reserved since the savepoint are the only difference, and their tokens are listed.
  ghost predicate ReservedSince(q: Queue, q': Queue, k: nat, events: seq<(nat, Handle)>) {
    && |q'.slots| == |q.slots|
    && SameFields(q, q')
    && Newer(q, k, events)
    && (forall i :: 0 <= i < |q.slots| ==> q.slots[i].generation <= q'.slots[i].generation)
    && forall i :: 0 <= i < |q.slots| ==>
         || q'.slots[i] == q.slots[i]
         || (q.slots[i].state.Free? && q'.slots[i].state.Retired?)
         || (q.slots[i].state.Free? && q'.slots[i].state.Reserved? && (k, Token(q', i)) in events)
  }

  // Everything but the slots and the sequence counter is as it was; the counter only grew.
  ghost predicate SameFields(q: Queue, q': Queue) {
    q' == q.(slots := q'.slots, nextSequence := q'.nextSequence) && q.nextSequence <= q'.nextSequence
  }

  // Free slots may have aged; nothing else changed.
  ghost predicate OnlyAged(q: Queue, q': Queue) {
    && |q'.slots| == |q.slots|
    && SameFields(q, q')
    && forall i :: 0 <= i < |q.slots| ==>
         || q'.slots[i] == q.slots[i]
         || (q.slots[i].state.Free? && q.slots[i].generation <= q'.slots[i].generation && (q'.slots[i].state.Free? || q'.slots[i].state.Retired?))
  }

  lemma PrepareReserves(q: Queue, q1: Queue, k: nat, events: seq<(nat, Handle)>, e: EventDraft)
    requires ReservedSince(q, q1, k, events)
    ensures var (q2, r) := Prepare(q1, e);
            ReservedSince(q, q2, k, if r.Ok? then events + [(k, r.value)] else events)
  {
    EventRuns.ScanFacts(q1.slots, 0);
    var (q2, r) := Prepare(q1, e);
    var evs := if r.Ok? then events + [(k, r.value)] else events;
    forall i | 0 <= i < |q.slots|
      ensures || q2.slots[i] == q.slots[i]
              || (q.slots[i].state.Free? && q2.slots[i].state.Retired?)
              || (q.slots[i].state.Free? && q2.slots[i].state.Reserved? && (k, Token(q2, i)) in evs)
    {
      if r.Ok? && i == r.value.slot {
        assert q1.slots[i].state.Free?;
        assert evs[|events|] == (k, Token(q2, i));
      } else if q2.slots[i] == q1.slots[i] {
        assert Token(q2, i) == Token(q1, i);
      }
    }
  }

  lemma ReservedOther(q: Queue, q1: Queue, k: nat, events: seq<(nat, Handle)>, more: seq<(nat, Handle)>)
    requires ReservedSince(q, q1, k, events) && Newer(q, k, more)
    ensures ReservedSince(q, q1, k, events + more)
  {
  }

  ghost predicate WorldReserved(w: World, w': World, events: seq<(nat, Handle)>) {
    |w'.queues| == |w.queues| && forall k :: 0 <= k < |w.queues| ==> ReservedSince(w.queues[k], w'.queues[k], k, events)
  }

  // One queue took a reservation; the others only learn of its token.
  lemma QueueReserves(w: World, w1: World, k: nat, q: Queue, since: seq<(nat, Handle)>, more: seq<(nat, Handle)>)
    requires WorldReserved(w, w1, since) && k < |w.queues|
    requires ReservedSince(w.queues[k], q, k, since + more)
    requires forall n :: 0 <= n < |more| ==> more[n].0 == k
    ensures WorldReserved(w, w1.(queues := w1.queues[k := q]), since + more)
  {
    var w2 := w1.(queues := w1.queues[k := q]);
    forall j | 0 <= j < |w.queues| ensures ReservedSince(w.queues[j], w2.queues[j], j, since + more) {
      if j != k {
        ReservedOther(w.queues[j], w1.queues[j], j, since, more);
      }
    }
  }

  lemma StageReserves(w: World, w1: World, t: Txn, s: Stage, since: seq<(nat, Handle)>)
    requires WorldReserved(w, w1, since)
    ensures var (w2, t') := StageOne(w1, t, s);
            t.events <= t'.events && WorldReserved(w, w2, since + t'.events[|t.events|..])
  {
    if s.DoEvent? {
      EventReserves(w, w1, t, s.k, s.e, since);
    } else {
      StageGrows(w1, t, s);
      assert since + t.events[|t.events|..] == since;
    }
  }

  lemma EventReserves(w: World, w1: World, t: Txn, k: nat, e: EventDraft, since: seq<(nat, Handle)>)
    requires WorldReserved(w, w1, since)
    ensures var (w2, t') := StageOne(w1, t, DoEvent(k, e));
            t.events <= t'.events && WorldReserved(w, w2, since + t'.events[|t.events|..])
  {
    var (w2, r) := StageEvent(w1, t, k, e);
    assert since + t.events[|t.events|..] == since;
    if !t.closed && k < |w1.queues| && |t.events| != t.budget.events && t.bytes + e.bytes <= t.budget.bytes {
      PrepareReserves(w.queues[k], w1.queues[k], k, since, e);
      var (q, h) := Prepare(w1.queues[k], e);
      var more := if h.Ok? then [(k, h.value)] else [];
      assert since + [] == since;
      QueueReserves(w, w1, k, q, since, more);
      if h.Ok? {
        assert r.value.0.events[|t.events|..] == more;
      }
    }
  }

  lemma {:induction false} StageAllReserves(w: World, w1: World, t: Txn, ss: seq<Stage>, since: seq<(nat, Handle)>)
    requires WorldReserved(w, w1, since)
    ensures var (w2, t') := StageAll(w1, t, ss);
            t.events <= t'.events && WorldReserved(w, w2, since + t'.events[|t.events|..])
    decreases |ss|
  {
    if ss == [] {
      assert since + t.events[|t.events|..] == since;
    } else {
      var (wa, ta) := StageOne(w1, t, ss[0]);
      StageReserves(w, w1, t, ss[0], since);
      var s1 := since + ta.events[|t.events|..];
      StageAllReserves(w, wa, ta, ss[1..], s1);
      var tb := StageAll(wa, ta, ss[1..]).1;
      assert s1 + tb.events[|ta.events|..] == since + tb.events[|t.events|..];
    }
  }

  // Part of the way through a rollback: `events` are still to be abandoned.
  ghost predicate Unwinding(q: Queue, q': Queue, k: nat, events: seq<(nat, Handle)>) {
    && |q'.slots| == |q.slots|
    && SameFields(q, q')
    && Newer(q, k, events)
    && (forall i :: 0 <= i < |q.slots| ==> q.slots[i].generation <= q'.slots[i].generation)
    && forall i :: 0 <= i < |q.slots| ==>
         || q'.slots[i] == q.slots[i]
         || (q.slots[i].state.Free? && (q'.slots[i].state.Free? || q'.slots[i].state.Retired?))
         || (q.slots[i].state.Free? && q'.slots[i].state.Reserved? && (k, Token(q', i)) in events)
  }

  lemma AbandonOne(q: Queue, q1: Queue, k: nat, events: seq<(nat, Handle)>)
    requires events != [] && Unwinding(q, q1, k, events)
    ensures Unwinding(q, if events[0].0 == k then Abandon(q1, events[0].1) else q1, k, events[1..])
  {
    var (j, h) := events[0];
    var rest := events[1..];
    var q2 := if j == k then Abandon(q1, h) else q1;
    assert events == [(j, h)] + rest;
    forall i | 0 <= i < |q.slots|
      ensures || q2.slots[i] == q.slots[i]
              || (q.slots[i].state.Free? && (q2.slots[i].state.Free? || q2.slots[i].state.Retired?))
              || (q.slots[i].state.Free? && q2.slots[i].state.Reserved? && (k, Token(q2, i)) in rest)
    {
      if q2.slots[i] == q1.slots[i] && (k, Token(q1, i)) in events {
        assert Token(q2, i) == Token(q1, i) || j == k;
        assert (k, Token(q1, i)) == (j, h) || (k, Token(q1, i)) in rest;
      }
    }
  }

  lemma {:induction false} AbandonRest(w: World, queues: seq<Queue>, events: seq<(nat, Handle)>, k: nat)
    requires |queues| == |w.queues| && k < |queues| && Unwinding(w.queues[k], queues[k], k, events)
    ensures OnlyAged(w.queues[k], AbandonAll(queues, events)[k])
    decreases |events|
  {
    if events != [] {
      var (j, h) := events[0];
      AbandonOne(w.queues[k], queues[k], k, events);
      AbandonRest(w, if j < |queues| then queues[j := Abandon(queues[j], h)] else queues, events[1..], k);
    }
  }

  // Rolling back to a savepoint undoes everything staged since: the transaction is again
  // what it was, no cell and no participant was touched, and every reservation made in
  // between is given back. Only free slots have aged and the sequence counter moved on.
  lemma RollbackUndoes(w: World, t: Txn, ss: seq<Stage>)
    requires !t.closed
    ensures var (w1, t1) := StageAll(w, t, ss);
            var (w2, r) := Rollback(w1, t1, Checkpoint(t));
            && r == Ok(t) && w2.cells == w.cells && w2.applied == w.applied && |w2.queues| == |w.queues|
            && forall k :: 0 <= k < |w.queues| ==> OnlyAged(w.queues[k], w2.queues[k])
  {
    var (w1, t1) := StageAll(w, t, ss);
    StageAllGrows(w, t, ss);
    StageAllReserves(w, w, t, ss, []);
    var since := t1.events[|t.events|..];
    assert [] + since == since;
    var (w2, r) := Rollback(w1, t1, Checkpoint(t));
    assert r.value.participants == t.participants;
    assert t1.events[..|t.events|] == t.events && t1.actions[..|t.actions|] == t.actions && t1.cancels[..|t.cancels|] == t.cancels;
    forall k | 0 <= k < |w.queues| ensures OnlyAged(w.queues[k], w2.queues[k]) {
      assert ReservedSince(w.queues[k], w1.queues[k], k, since);
      AbandonRest(w, w1.queues, since, k);
    }
  }
}
