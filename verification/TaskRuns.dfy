// Whole runs of a task pool: conservation of frames and grants, and the order in which
// queued tasks start.
module TaskRuns {
  import opened Common
  import opened Counting
  import opened TaskPool

  // --------------------------------------------------------------------------------
  // The invariant.

  ghost predicate Tally(p: Pool) {
    && p.frames == Count(p.tasks, IsActive)
    && p.grants == Count(p.tasks, IsReserved)
    && p.grants == Count(p.tickets, IsGrantedTicket)
  }

  ghost predicate Bounds(p: Pool) {
    && p.frames + p.grants <= p.desc.maxInstances
    && Count(p.tasks, IsUsed) + p.grants <= p.desc.resultCapacity
  }

  predicate TaskOK(t: Task, next: nat) {
    && (t.reserved ==> !t.used)
    && (t.used || t.reserved ==> t.generation < next)
    && (t.used ==> (t.released <==> t.Terminal()))
  }

  ghost predicate TasksOK(p: Pool) {
    forall i :: 0 <= i < |p.tasks| ==> TaskOK(p.tasks[i], p.next)
  }

  ghost predicate Names(p: Pool, t: Ticket) {
    t.slot < |p.tasks| && p.tasks[t.slot].reserved
  }

  // Granted tickets name distinct reserved slots; only AwaitSlot pools have tickets.
  ghost predicate TicketsOK(p: Pool) {
    && (forall i :: 0 <= i < |p.tickets| && p.tickets[i].IsGranted() ==> Names(p, p.tickets[i]))
    && (forall i, j :: 0 <= i < j < |p.tickets| && p.tickets[i].IsGranted() && p.tickets[j].IsGranted() ==>
          p.tickets[i].slot != p.tickets[j].slot)
    && (!p.desc.overflow.AwaitSlot? ==> p.pending == [] && forall i :: 0 <= i < |p.tickets| ==> !p.tickets[i].used)
  }

  // The queue lists the queued tasks.
  ghost predicate QueueOK(p: Pool) {
    && (forall n :: 0 <= n < |p.queue| ==> IsTask(p, p.queue[n]) && p.tasks[p.queue[n].slot].state.Queued?)
    && (forall i :: 0 <= i < |p.tasks| && p.tasks[i].used && p.tasks[i].state.Queued? ==> Ref(i, p.tasks[i].generation) in p.queue)
    && ByAge(p.queue)
  }

  ghost predicate ByAge(s: seq<Ref>) {
    forall m, n :: 0 <= m < n < |s| ==> s[m].generation < s[n].generation
  }

  ghost predicate Increasing(s: seq<nat>) {
    forall m, n :: 0 <= m < n < |s| ==> s[m] < s[n]
  }

  // In a pool without tickets, tasks start in the order in which they were submitted:
  // those still queued are younger than all that have started.
  ghost predicate OrderOK(p: Pool, started: seq<nat>) {
    !p.desc.overflow.AwaitSlot? ==>
      && Increasing(started)
      && (forall m :: 0 <= m < |started| ==> started[m] < p.next)
      && (forall m, n :: 0 <= m < |started| && 0 <= n < |p.queue| ==> started[m] < p.queue[n].generation)
  }

  ghost predicate Inv(p: Pool, started: seq<nat>) {
    Tally(p) && Bounds(p) && TasksOK(p) && TicketsOK(p) && QueueOK(p) && OrderOK(p, started)
  }

  lemma InitInv(desc: Desc, tasks: nat, tickets: nat)
    ensures Inv(NewPool(desc, tasks, tickets), [])
  {
    var p := NewPool(desc, tasks, tickets);
    CountNone(p.tasks, IsActive);
    CountNone(p.tasks, IsReserved);
    CountNone(p.tasks, IsUsed);
    CountNone(p.tickets, IsGrantedTicket);
  }

  // --------------------------------------------------------------------------------
  // Reaping.

  lemma ReapTally(p: Pool, dead: set<nat>)
    requires Tally(p) && Bounds(p) && TasksOK(p)
    ensures Tally(Reap(p, dead)) && Bounds(Reap(p, dead))
  {
    var p' := Reap(p, dead);
    forall i | 0 <= i < |p.tasks|
      ensures IsActive(p.tasks[i]) == IsActive(p'.tasks[i]) && IsReserved(p.tasks[i]) == IsReserved(p'.tasks[i])
              && (IsUsed(p'.tasks[i]) ==> IsUsed(p.tasks[i]))
    {
      assert TaskOK(p.tasks[i], p.next);
    }
    CountSame(p.tasks, p'.tasks, IsActive);
    CountSame(p.tasks, p'.tasks, IsReserved);
    CountFewer(p.tasks, p'.tasks, IsUsed);
  }

  lemma ReapQueue(p: Pool, dead: set<nat>)
    requires TasksOK(p) && QueueOK(p)
    ensures QueueOK(Reap(p, dead)) && TasksOK(Reap(p, dead))
  {
    var p' := Reap(p, dead);
    forall i | 0 <= i < |p.tasks| ensures TaskOK(p'.tasks[i], p'.next) && (p.tasks[i].state.Queued? ==> p'.tasks[i] == p.tasks[i]) {
      assert TaskOK(p.tasks[i], p.next);
    }
    forall n | 0 <= n < |p'.queue| ensures IsTask(p', p'.queue[n]) && p'.tasks[p'.queue[n].slot].state.Queued? {
      assert IsTask(p, p.queue[n]);
    }
  }

  lemma ReapInv(p: Pool, started: seq<nat>, dead: set<nat>)
    requires Inv(p, started)
    ensures Inv(Reap(p, dead), started)
  {
    ReapTally(p, dead);
    ReapQueue(p, dead);
    var p' := Reap(p, dead);
    forall i | 0 <= i < |p.tickets| && p'.tickets[i].IsGranted() ensures Names(p', p'.tickets[i]) {
      assert Names(p, p.tickets[i]);
    }
  }

  // --------------------------------------------------------------------------------
  // Changes to one task slot.

  ghost predicate OnlyTask(p: Pool, p': Pool, i: nat) {
    i < |p.tasks| && i < |p'.tasks| && p'.tasks == p.tasks[i := p'.tasks[i]] && p'.desc == p.desc && p.next <= p'.next
  }

  function One(b: bool): nat {
    if b then 1 else 0
  }

  lemma TaskCounts(p: Pool, p': Pool, i: nat)
    requires OnlyTask(p, p', i)
    ensures Count(p'.tasks, IsActive) + One(IsActive(p.tasks[i])) == Count(p.tasks, IsActive) + One(IsActive(p'.tasks[i]))
    ensures Count(p'.tasks, IsReserved) + One(IsReserved(p.tasks[i])) == Count(p.tasks, IsReserved) + One(IsReserved(p'.tasks[i]))
    ensures Count(p'.tasks, IsUsed) + One(IsUsed(p.tasks[i])) == Count(p.tasks, IsUsed) + One(IsUsed(p'.tasks[i]))
  {
    CountUpdate(p.tasks, IsActive, i, p'.tasks[i]);
    CountUpdate(p.tasks, IsReserved, i, p'.tasks[i]);
    CountUpdate(p.tasks, IsUsed, i, p'.tasks[i]);
  }

  lemma TicketCounts(p: Pool, p': Pool, i: nat)
    requires i < |p.tickets| && i < |p'.tickets| && p'.tickets == p.tickets[i := p'.tickets[i]]
    ensures Count(p'.tickets, IsGrantedTicket) + One(IsGrantedTicket(p.tickets[i]))
            == Count(p.tickets, IsGrantedTicket) + One(IsGrantedTicket(p'.tickets[i]))
  {
    CountUpdate(p.tickets, IsGrantedTicket, i, p'.tickets[i]);
  }

  // A slot that is not a queued task, before and after, leaves the queue alone.
  lemma TouchQueue(p: Pool, p': Pool, i: nat)
    requires QueueOK(p) && OnlyTask(p, p', i) && p'.queue == p.queue
    requires !(p.tasks[i].used && p.tasks[i].state.Queued?) && !(p'.tasks[i].used && p'.tasks[i].state.Queued?)
    ensures QueueOK(p')
  {
    forall n | 0 <= n < |p'.queue| ensures IsTask(p', p'.queue[n]) && p'.tasks[p'.queue[n].slot].state.Queued? {
      assert IsTask(p, p.queue[n]) && p.tasks[p.queue[n].slot].state.Queued?;
    }
  }

  lemma TouchTasks(p: Pool, p': Pool, i: nat)
    requires TasksOK(p) && OnlyTask(p, p', i) && TaskOK(p'.tasks[i], p'.next)
    ensures TasksOK(p')
  {
    forall j | 0 <= j < |p'.tasks| ensures TaskOK(p'.tasks[j], p'.next) {
      assert j != i ==> TaskOK(p.tasks[j], p.next);
    }
  }

  lemma TouchTickets(p: Pool, p': Pool, i: nat)
    requires TicketsOK(p) && OnlyTask(p, p', i) && p'.tickets == p.tickets && p'.pending == p.pending
    requires p.tasks[i].reserved ==> p'.tasks[i].reserved
    ensures TicketsOK(p')
  {
    forall j | 0 <= j < |p'.tickets| && p'.tickets[j].IsGranted() ensures Names(p', p'.tickets[j]) {
      assert Names(p, p.tickets[j]);
    }
  }

  lemma NameSlotInv(p: Pool, started: seq<nat>, i: nat, p': Pool)
    requires Inv(p, started) && i < |p.tasks| && !p.tasks[i].used && p' == NameSlot(p, i)
    ensures Inv(p', started)
  {
    assert TaskOK(p.tasks[i], p.next);
    TaskCounts(p, p', i);
    TouchQueue(p, p', i);
    TouchTasks(p, p', i);
    TouchTickets(p, p', i);
  }

  // --------------------------------------------------------------------------------
  // Starting queued tasks.

  // The generations started by one scheduling pass.
  ghost function Starts(p: Pool): seq<nat>
    decreases |p.queue|
  {
    if p.queue == [] || !FrameFree(p) then []
    else if IsTask(p, p.queue[0]) && p.tasks[p.queue[0].slot].state.Queued? then [p.queue[0].generation] + Starts(StartOne(p))
    else Starts(p.(queue := p.queue[1..]))
  }

  function StartOne(p: Pool): Pool
    requires p.queue != [] && IsTask(p, p.queue[0])
  {
    var i := p.queue[0].slot;
    SetTask(p.(queue := p.queue[1..]), i, p.tasks[i].(state := Runnable)).(frames := p.frames + 1)
  }

  lemma StartOneQueue(p: Pool, p': Pool)
    requires QueueOK(p) && p.queue != [] && IsTask(p, p.queue[0]) && p' == StartOne(p)
    ensures QueueOK(p')
  {
    var r := p.queue[0];
    forall n | 0 <= n < |p'.queue| ensures IsTask(p', p'.queue[n]) && p'.tasks[p'.queue[n].slot].state.Queued? {
      assert p'.queue[n] == p.queue[n + 1] && r.generation < p.queue[n + 1].generation;
      assert IsTask(p, p.queue[n + 1]) && p.tasks[p.queue[n + 1].slot].state.Queued?;
    }
    forall i | 0 <= i < |p'.tasks| && p'.tasks[i].used && p'.tasks[i].state.Queued? ensures Ref(i, p'.tasks[i].generation) in p'.queue {
      assert Ref(i, p.tasks[i].generation) in p.queue;
      assert p.queue == [r] + p'.queue;
    }
  }

  lemma StartOneInv(p: Pool, started: seq<nat>, p': Pool)
    requires Inv(p, started) && p.queue != [] && FrameFree(p) && IsTask(p, p.queue[0]) && p' == StartOne(p)
    ensures Inv(p', started + [p.queue[0].generation])
  {
    var i := p.queue[0].slot;
    assert TaskOK(p.tasks[i], p.next) && p.tasks[i].state.Queued?;
    TaskCounts(p, p', i);
    StartOneQueue(p, p');
    TouchTasks(p, p', i);
    TouchTickets(p, p', i);
  }

  lemma {:induction false} StartInv(p: Pool, started: seq<nat>)
    requires Inv(p, started)
    ensures Inv(StartQueued(p), started + Starts(p))
    ensures StartQueued(p).queue == [] || !FrameFree(StartQueued(p))
    decreases |p.queue|
  {
    if p.queue == [] || !FrameFree(p) {
      assert started + [] == started;
    } else {
      assert IsTask(p, p.queue[0]) && p.tasks[p.queue[0].slot].state.Queued?;
      StartOneInv(p, started, StartOne(p));
      StartInv(StartOne(p), started + [p.queue[0].generation]);
      StartUnfolds(p, started);
    }
  }

  lemma StartUnfolds(p: Pool, started: seq<nat>)
    requires p.queue != [] && FrameFree(p) && IsTask(p, p.queue[0]) && p.tasks[p.queue[0].slot].state.Queued?
    ensures StartQueued(p) == StartQueued(StartOne(p))
    ensures started + Starts(p) == (started + [p.queue[0].generation]) + Starts(StartOne(p))
  {
  }

  // --------------------------------------------------------------------------------
  // Granting.

  lemma GrantTickets(p: Pool, r: Ref, i: nat, p': Pool)
    requires TicketsOK(p) && IsTicket(p, r) && p.tickets[r.slot].state.Pending? && i < |p.tasks| && !p.tasks[i].reserved
    requires p' == Grant(p, r, i).(pending := p'.pending)
    ensures TicketsOK(p')
  {
    assert p.desc.overflow.AwaitSlot?;
    forall j | 0 <= j < |p'.tickets| && p'.tickets[j].IsGranted() ensures Names(p', p'.tickets[j]) && (j != r.slot ==> p'.tickets[j].slot != i) {
      assert j != r.slot ==> Names(p, p.tickets[j]);
    }
  }

  lemma GrantInv(p: Pool, started: seq<nat>, r: Ref, i: nat, p': Pool)
    requires Inv(p, started) && IsTicket(p, r) && p.tickets[r.slot].state.Pending?
    requires i < |p.tasks| && !p.tasks[i].reserved && !p.tasks[i].used && p.tasks[i].generation < p.next
    requires FrameFree(p) && Count(p.tasks, IsUsed) + p.grants < p.desc.resultCapacity
    requires p' == Grant(p, r, i).(pending := p'.pending)
    ensures Inv(p', started)
  {
    GrantTickets(p, r, i, p');
    TaskCounts(p, p', i);
    TicketCounts(p, p', r.slot);
    TouchQueue(p, p', i);
    TouchTasks(p, p', i);
  }

  lemma NamedCounts(p: Pool, i: nat)
    requires i < |p.tasks|
    ensures Count(NameSlot(p, i).tasks, IsUsed) == Count(p.tasks, IsUsed)
  {
    TaskCounts(p, NameSlot(p, i), i);
  }

  lemma {:induction false} GrantsInv(p: Pool, started: seq<nat>, credit: nat)
    requires Inv(p, started)
    ensures Inv(GrantPending(p, credit), started)
    ensures !p.desc.overflow.AwaitSlot? ==> GrantPending(p, credit) == p
    decreases |p.pending|
  {
    if p.pending == [] || !FrameFree(p) || Count(p.tasks, IsUsed) + p.grants >= p.desc.resultCapacity {
    } else if !IsTicket(p, p.pending[0]) || !p.tickets[p.pending[0].slot].state.Pending? {
      DropPending(p, started, p.pending[1..]);
      GrantsInv(p.(pending := p.pending[1..]), started, credit);
    } else if FindTask(p.tasks, 0).Some? && p.next != MAX64 {
      var r, i := p.pending[0], FindTask(p.tasks, 0).value;
      var p' := GrantOne(p, started, r, i);
      if credit > 0 {
        GrantsInv(p', started, credit - 1);
      }
    }
  }

  lemma GrantOne(p: Pool, started: seq<nat>, r: Ref, i: nat) returns (p': Pool)
    requires Inv(p, started) && p.pending != [] && r == p.pending[0] && IsTicket(p, r) && p.tickets[r.slot].state.Pending?
    requires FrameFree(p) && Count(p.tasks, IsUsed) + p.grants < p.desc.resultCapacity && i < |p.tasks| && p.tasks[i].Available()
    ensures p' == Grant(NameSlot(p, i), r, i).(pending := p.pending[1..]) && Inv(p', started) && Inv(NameSlot(p, i), started)
    ensures p.desc.overflow.AwaitSlot?
  {
    NameSlotInv(p, started, i, NameSlot(p, i));
    NamedCounts(p, i);
    p' := Grant(NameSlot(p, i), r, i).(pending := p.pending[1..]);
    GrantInv(NameSlot(p, i), started, r, i, p');
  }

  lemma DropPending(p: Pool, started: seq<nat>, pending: seq<Ref>)
    requires Inv(p, started) && (p.pending == [] ==> pending == [])
    ensures Inv(p.(pending := pending), started)
  {
    var p' := p.(pending := pending);
    assert forall n :: 0 <= n < |p.queue| ==> IsTask(p, p.queue[n]) == IsTask(p', p.queue[n]);
    assert forall i :: 0 <= i < |p.tickets| ==> Names(p, p.tickets[i]) == Names(p', p.tickets[i]);
  }

  ghost function ScheduleStarts(p: Pool, a: Answers): seq<nat> {
    Starts(Reap(p, a.dead))
  }

  // After scheduling, a waiting queue means that all frames are taken.
  lemma ScheduleInv(p: Pool, started: seq<nat>, a: Answers)
    requires Inv(p, started)
    ensures Inv(Schedule(p, a), started + ScheduleStarts(p, a))
    ensures !p.desc.overflow.AwaitSlot? ==> Schedule(p, a).queue == [] || !FrameFree(Schedule(p, a))
    ensures Schedule(p, a).desc == p.desc
  {
    ReapInv(p, started, a.dead);
    var q := Reap(p, a.dead);
    StartInv(q, started);
    GrantsInv(StartQueued(q), started + Starts(q), a.credit);
  }

  // --------------------------------------------------------------------------------
  // Spawning.

  lemma PushQueue(p: Pool, i: nat, p': Pool)
    requires QueueOK(p) && TasksOK(p) && i < |p.tasks| && !p.tasks[i].used
    requires OnlyTask(p, p', i) && p'.tasks[i] == Begin(p.tasks[i], p.next, Queued) && p'.queue == p.queue + [Ref(i, p.next)]
    ensures QueueOK(p')
  {
    forall n | 0 <= n < |p'.queue|
      ensures IsTask(p', p'.queue[n]) && p'.tasks[p'.queue[n].slot].state.Queued? && (n < |p.queue| ==> p'.queue[n].generation < p.next)
    {
      if n < |p.queue| {
        assert p'.queue[n] == p.queue[n];
        assert IsTask(p, p.queue[n]) && p.tasks[p.queue[n].slot].state.Queued?;
        assert TaskOK(p.tasks[p.queue[n].slot], p.next);
      }
    }
    forall j | 0 <= j < |p'.tasks| && p'.tasks[j].used && p'.tasks[j].state.Queued? ensures Ref(j, p'.tasks[j].generation) in p'.queue {
      if j == i {
        assert p'.queue[|p.queue|] == Ref(i, p.next);
      } else {
        assert Ref(j, p.tasks[j].generation) in p.queue;
      }
    }
  }

  lemma QueueTask(p: Pool, started: seq<nat>, i: nat, p': Pool)
    requires Inv(p, started) && i < |p.tasks| && p.tasks[i].Available()
    requires Count(p.tasks, IsUsed) + p.grants < p.desc.resultCapacity
    requires p' == p.(tasks := p.tasks[i := Begin(p.tasks[i], p.next, Queued)], queue := p.queue + [Ref(i, p.next)], next := p.next + 1)
    ensures Inv(p', started)
  {
    PushQueue(p, i, p');
    TaskCounts(p, p', i);
    TouchTasks(p, p', i);
    TouchTickets(p, p', i);
  }

  lemma StartTask(p: Pool, started: seq<nat>, i: nat, p': Pool)
    requires Inv(p, started) && i < |p.tasks| && p.tasks[i].Available()
    requires Count(p.tasks, IsUsed) + p.grants < p.desc.resultCapacity && FrameFree(p)
    requires p.desc.overflow.AwaitSlot? || p.queue == []
    requires p' == p.(tasks := p.tasks[i := Begin(p.tasks[i], p.next, Runnable)], frames := p.frames + 1, next := p.next + 1)
    ensures Inv(p', started + [p.next])
  {
    TaskCounts(p, p', i);
    TouchQueue(p, p', i);
    TouchTasks(p, p', i);
    TouchTickets(p, p', i);
  }

  ghost function SpawnStarts(p: Pool, queued: bool, a: Answers): seq<nat> {
    var r := Spawn(p, queued, a).1;
    if r.Ok? && !queued then [r.value.generation] else []
  }

  lemma SpawnInv(p0: Pool, started: seq<nat>, queued: bool, a: Answers)
    requires Inv(p0, started)
    requires p0.desc.overflow.AwaitSlot? || p0.queue == [] || !FrameFree(p0)
    ensures Inv(Spawn(p0, queued, a).0, started + SpawnStarts(p0, queued, a))
  {
    var p := Reap(p0, a.dead);
    ReapInv(p0, started, a.dead);
    assert started + [] == started;
    SpawnShape(p0, queued, a);
    var (p', r) := Spawn(p0, queued, a);
    if p' != p {
      var i := FindTask(p.tasks, 0).value;
      if r.Err? {
        NameSlotInv(p, started, i, p');
      } else if queued {
        QueueTask(p, started, i, p');
      } else {
        StartTask(p, started, i, p');
      }
    }
  }

  lemma SpawnShape(p0: Pool, queued: bool, a: Answers)
    ensures var p := Reap(p0, a.dead);
            var (p', r) := Spawn(p0, queued, a);
            var found := FindTask(p.tasks, 0);
            if r.Err? then p' == p || (found.Some? && p' == NameSlot(p, found.value))
            else
              && found.Some? && r.value == Ref(found.value, p.next)
              && Count(p.tasks, IsUsed) + p.grants < p.desc.resultCapacity
              && (if queued then p' == p.(tasks := p.tasks[found.value := Begin(p.tasks[found.value], p.next, Queued)],
                                          queue := p.queue + [r.value], next := p.next + 1)
                  else FrameFree(p) && p' == p.(tasks := p.tasks[found.value := Begin(p.tasks[found.value], p.next, Runnable)],
                                                frames := p.frames + 1, next := p.next + 1))
  {
    var p := Reap(p0, a.dead);
    var found := FindTask(p.tasks, 0);
    if found.Some? {
      var i, x := found.value, Begin(p.tasks[found.value], p.next, if queued then Queued else Runnable);
      assert NameSlot(p, i).tasks[i := x] == p.tasks[i := x];
    }
  }

  // --------------------------------------------------------------------------------
  // Tickets.

  lemma OnlyTicketInv(p: Pool, started: seq<nat>, i: nat, p': Pool)
    requires Inv(p, started) && i < |p.tickets| && i < |p'.tickets|
    requires p' == p.(tickets := p.tickets[i := p'.tickets[i]], pending := p'.pending, next := p'.next) && p.next <= p'.next
    requires !p.tickets[i].IsGranted() && !p'.tickets[i].IsGranted()
    requires !p.desc.overflow.AwaitSlot? ==> p'.pending == [] && !p'.tickets[i].used
    ensures Inv(p', started)
  {
    TicketCounts(p, p', i);
    forall j | 0 <= j < |p'.tasks| ensures TaskOK(p'.tasks[j], p'.next) {
      assert TaskOK(p.tasks[j], p.next);
    }
    forall j | 0 <= j < |p'.tickets| && p'.tickets[j].IsGranted() ensures Names(p', p'.tickets[j]) {
      assert Names(p, p.tickets[j]);
    }
    assert forall n :: 0 <= n < |p.queue| ==> IsTask(p, p.queue[n]) == IsTask(p', p.queue[n]);
  }

  // The ticket at `j` leaves the Granted state and its slot is no longer reserved.
  lemma UngrantTickets(p: Pool, j: nat, p': Pool)
    requires TicketsOK(p) && j < |p.tickets| && p.tickets[j].IsGranted() && p.tickets[j].slot < |p.tasks|
    requires OnlyTask(p, p', p.tickets[j].slot) && |p'.tickets| == |p.tickets|
    requires p'.tickets == p.tickets[j := p'.tickets[j]] && !p'.tickets[j].IsGranted()
    ensures TicketsOK(p')
  {
    assert p.desc.overflow.AwaitSlot?;
    forall k | 0 <= k < |p'.tickets| && p'.tickets[k].IsGranted() ensures Names(p', p'.tickets[k]) {
      assert Names(p, p.tickets[k]);
      assert p.tickets[k].slot != p.tickets[j].slot;
    }
  }

  lemma GrantedFacts(p: Pool, started: seq<nat>, r: Ref)
    requires Inv(p, started) && IsTicket(p, r) && p.tickets[r.slot].state.Granted?
    ensures var i := p.tickets[r.slot].slot;
            i < |p.tasks| && p.tasks[i].generation < p.next && p.tasks[i].reserved && !p.tasks[i].used && p.grants > 0 && p.desc.overflow.AwaitSlot?
  {
    assert Names(p, p.tickets[r.slot]);
    assert TaskOK(p.tasks[p.tickets[r.slot].slot], p.next);
    CountPositive(p.tickets, IsGrantedTicket, r.slot);
  }

  lemma ReturnedInv(p: Pool, started: seq<nat>, r: Ref, s: TicketState, pending: seq<Ref>, p': Pool)
    requires Inv(p, started) && IsTicket(p, r) && p.tickets[r.slot].state.Granted? && !s.Granted?
    requires p.grants > 0 && p.tickets[r.slot].slot < |p.tasks| && p' == Returned(p, r, s).(pending := pending)
    ensures Inv(p', started)
  {
    GrantedFacts(p, started, r);
    var i := p.tickets[r.slot].slot;
    UngrantTickets(p, r.slot, p');
    TaskCounts(p, p', i);
    TicketCounts(p, p', r.slot);
    TouchQueue(p, p', i);
    TouchTasks(p, p', i);
  }

  lemma TakenInv(p: Pool, started: seq<nat>, r: Ref, p': Pool)
    requires Inv(p, started) && IsTicket(p, r) && p.tickets[r.slot].state.Granted?
    requires p.grants > 0 && p.tickets[r.slot].slot < |p.tasks| && p' == Taken(p, r)
    ensures Inv(p', started)
  {
    GrantedFacts(p, started, r);
    var i := p.tickets[r.slot].slot;
    UngrantTickets(p, r.slot, p');
    TaskCounts(p, p', i);
    TicketCounts(p, p', r.slot);
    TouchQueue(p, p', i);
    TouchTasks(p, p', i);
  }

  // --------------------------------------------------------------------------------
  // Completion.

  lemma {:induction false} WithoutKeeps(s: seq<Ref>, r: Ref)
    requires ByAge(s)
    ensures ByAge(Without(s, r))
  {
    if s != [] {
      WithoutKeeps(s[1..], r);
      var rest := Without(s[1..], r);
      forall n | 0 <= n < |rest| ensures s[0].generation < rest[n].generation {
        assert rest[n] in s[1..];
        var m :| 0 <= m < |s[1..]| && s[1..][m] == rest[n];
      }
    }
  }

  lemma PullQueue(p: Pool, r: Ref, p': Pool)
    requires QueueOK(p) && IsTask(p, r) && p.tasks[r.slot].state.Queued?
    requires OnlyTask(p, p', r.slot) && !p'.tasks[r.slot].state.Queued? && p'.queue == Without(p.queue, r)
    ensures QueueOK(p')
  {
    WithoutKeeps(p.queue, r);
    forall n | 0 <= n < |p'.queue| ensures IsTask(p', p'.queue[n]) && p'.tasks[p'.queue[n].slot].state.Queued? {
      assert p'.queue[n] in p.queue && p'.queue[n] != r;
      var m :| 0 <= m < |p.queue| && p.queue[m] == p'.queue[n];
      assert IsTask(p, p.queue[m]);
    }
    forall i | 0 <= i < |p'.tasks| && p'.tasks[i].used && p'.tasks[i].state.Queued? ensures Ref(i, p'.tasks[i].generation) in p'.queue {
      assert i != r.slot && Ref(i, p.tasks[i].generation) in p.queue;
    }
  }

  lemma PullOrder(p: Pool, started: seq<nat>, r: Ref, p': Pool)
    requires OrderOK(p, started) && p'.queue == Without(p.queue, r) && p'.desc == p.desc && p'.next == p.next
    ensures OrderOK(p', started)
  {
    forall m, n | 0 <= m < |started| && 0 <= n < |p'.queue| && !p.desc.overflow.AwaitSlot?
      ensures started[m] < p'.queue[n].generation
    {
      assert p'.queue[n] in p.queue;
      var k :| 0 <= k < |p.queue| && p.queue[k] == p'.queue[n];
    }
  }

  lemma FinishQueued(p: Pool, started: seq<nat>, r: Ref, outcome: TaskState, p': Pool)
    requires Inv(p, started) && IsTask(p, r) && p.tasks[r.slot].state.Queued?
    requires outcome.Cancelled? && p' == Finished(p, r, outcome).(queue := Without(p.queue, r))
    ensures Inv(p', started)
  {
    assert TaskOK(p.tasks[r.slot], p.next);
    PullQueue(p, r, p');
    PullOrder(p, started, r, p');
    TaskCounts(p, p', r.slot);
    TouchTasks(p, p', r.slot);
    TouchTickets(p, p', r.slot);
  }

  lemma FinishActive(p: Pool, started: seq<nat>, r: Ref, outcome: TaskState, p': Pool)
    requires Inv(p, started) && IsTask(p, r) && !p.tasks[r.slot].state.Queued? && !p.tasks[r.slot].released
    requires outcome.Completed? || outcome.Failed? || outcome.Cancelled?
    requires p.frames > 0 && p' == Finished(p, r, outcome).(frames := p.frames - 1)
    ensures Inv(p', started)
  {
    assert TaskOK(p.tasks[r.slot], p.next);
    TaskCounts(p, p', r.slot);
    TouchQueue(p, p', r.slot);
    TouchTasks(p, p', r.slot);
    TouchTickets(p, p', r.slot);
  }

  lemma BindInv(p: Pool, started: seq<nat>, r: Ref, process: nat)
    requires Inv(p, started)
    ensures Inv(BindExecution(p, r, process).0, started)
  {
    var p' := BindExecution(p, r, process).0;
    if p' != p {
      assert TaskOK(p.tasks[r.slot], p.next);
      TaskCounts(p, p', r.slot);
      TouchQueue(p, p', r.slot);
      TouchTasks(p, p', r.slot);
      TouchTickets(p, p', r.slot);
    }
  }

  // --------------------------------------------------------------------------------
  // Runs.

  datatype Command =
    | DoTrySpawn(a: Answers, b: Answers)
    | DoSubmit(a: Answers, b: Answers)
    | DoRequest(waiter: nat, scope: nat, a: Answers)
    | DoSpawnReserved(r: Ref, waiter: nat, scope: nat, a: Answers)
    | DoCancelTicket(r: Ref, waiter: nat, scope: nat, a: Answers)
    | DoReleaseTicket(r: Ref, a: Answers)
    | DoBind(r: Ref, process: nat)
    | DoWait(r: Ref, process: nat, scope: nat, a: Answers)
    | DoFinish(r: Ref, failed: bool, a: Answers)
    | DoCancel(r: Ref, a: Answers)
    | DoSchedule(a: Answers)

  function Step(p: Pool, c: Command): Pool {
    match c
    case DoTrySpawn(a, b) => TrySpawn(p, a, b).0
    case DoSubmit(a, b) => SubmitQueued(p, a, b).0
    case DoRequest(w, s, a) => RequestSlot(p, w, s, a).0
    case DoSpawnReserved(r, w, s, a) => SpawnReserved(p, r, w, s, a).0
    case DoCancelTicket(r, w, s, a) => CancelTicket(p, r, w, s, a).0
    case DoReleaseTicket(r, a) => ReleaseTicket(p, r, a).0
    case DoBind(r, x) => BindExecution(p, r, x).0
    case DoWait(r, x, s, a) => BeginSlotWait(p, r, x, s, a).0
    case DoFinish(r, failed, a) => Complete(p, r, if failed then Failed else Completed, a).0
    case DoCancel(r, a) => Complete(p, r, Cancelled, a).0
    case DoSchedule(a) => Schedule(p, a)
  }

  // The generations of the tasks that a command starts, in order. Tasks that come from
  // tickets are not part of it.
  ghost function Record(p: Pool, started: seq<nat>, c: Command): seq<nat> {
    match c
    case DoTrySpawn(a, b) => started + ScheduleStarts(p, a) + SpawnStarts(Schedule(p, a), false, b)
    case DoSubmit(a, b) =>
      if !p.desc.overflow.Queue? then started
      else
        var p' := Schedule(p, a);
        started + ScheduleStarts(p, a) + SpawnStarts(p', p'.frames >= p'.desc.maxInstances, b)
    case DoFinish(r, failed, a) => RecordRetire(p, started, r, if failed then Failed else Completed, a)
    case DoCancel(r, a) => RecordRetire(p, started, r, Cancelled, a)
    case DoSchedule(a) => started + ScheduleStarts(p, a)
    case _ => started
  }

  ghost function RecordRetire(p: Pool, started: seq<nat>, r: Ref, outcome: TaskState, a: Answers): seq<nat>
    requires outcome.Completed? || outcome.Failed? || outcome.Cancelled?
  {
    match Retire(p, r, outcome, a.ok)
    case Err(_) => started
    case Ok(p') => started + ScheduleStarts(p', a)
  }

  // Retiring is refused only for what the caller did; a frame to give back is always there.
  lemma RetireExact(p: Pool, started: seq<nat>, r: Ref, outcome: TaskState, ok: bool)
    requires Inv(p, started) && (outcome.Completed? || outcome.Failed? || outcome.Cancelled?)
    ensures Retire(p, r, outcome, ok).Ok? <==>
              IsTask(p, r) && !p.tasks[r.slot].released && (p.tasks[r.slot].state.Queued? ==> outcome.Cancelled?) && ok
  {
    if IsTask(p, r) && !p.tasks[r.slot].released && !p.tasks[r.slot].state.Queued? {
      assert TaskOK(p.tasks[r.slot], p.next);
      CountPositive(p.tasks, IsActive, r.slot);
    }
  }

  // So is taking a ticket back.
  lemma WithdrawExact(p: Pool, started: seq<nat>, r: Ref)
    requires Inv(p, started) && IsTicket(p, r)
    ensures Withdraw(p, r).Ok? <==> p.tickets[r.slot].state.Granted? || p.tickets[r.slot].state.Pending?
  {
    if p.tickets[r.slot].state.Granted? {
      GrantedFacts(p, started, r);
    }
  }

  lemma CompleteInv(p: Pool, started: seq<nat>, r: Ref, outcome: TaskState, a: Answers)
    requires Inv(p, started) && (outcome.Completed? || outcome.Failed? || outcome.Cancelled?)
    ensures Inv(Complete(p, r, outcome, a).0, RecordRetire(p, started, r, outcome, a))
  {
    var q := Retire(p, r, outcome, a.ok);
    if q.Ok? {
      if p.tasks[r.slot].state.Queued? {
        FinishQueued(p, started, r, outcome, q.value);
      } else {
        FinishActive(p, started, r, outcome, q.value);
      }
      ScheduleInv(q.value, started, a);
    }
  }

  // Nothing is claimed about the order of starts in a pool with tickets.
  lemma ScheduleTickets(p: Pool, started: seq<nat>, a: Answers)
    requires Inv(p, started) && p.desc.overflow.AwaitSlot?
    ensures Inv(Schedule(p, a), started)
  {
    ScheduleInv(p, started, a);
  }

  lemma RequestInv(p: Pool, started: seq<nat>, w: nat, s: nat, a: Answers)
    requires Inv(p, started)
    ensures Inv(RequestSlot(p, w, s, a).0, started)
  {
    var found := FindTicket(p.tickets, 0);
    if p.desc.overflow.AwaitSlot? && found.Some? && p.next != MAX64 {
      var i := found.value;
      if a.ok {
        OnlyTicketInv(p, started, i, Ticketed(p, i, w, s));
        ScheduleTickets(Ticketed(p, i, w, s), started, a);
      } else {
        OnlyTicketInv(p, started, i, RequestSlot(p, w, s, a).0);
      }
    }
  }

  // The waiter may turn its granted ticket into a task.
  predicate Consumes(p: Pool, r: Ref, waiter: nat, scope: nat) {
    IsTicket(p, r) && p.tickets[r.slot].state.Granted? && p.tickets[r.slot].waiter == waiter && p.tickets[r.slot].scope == scope
  }

  lemma SpawnReservedShape(p: Pool, started: seq<nat>, r: Ref, w: nat, s: nat, a: Answers)
    requires Inv(p, started)
    ensures var (q, o) := SpawnReserved(p, r, w, s, a);
            if Consumes(p, r, w, s) && a.owner then
              && p.tickets[r.slot].slot < |p.tasks| && p.grants > 0
              && if a.ok then o.Ok? && q == Schedule(Taken(p, r), a) else o.Err? && q == Schedule(Returned(p, r, TicketFailed), a)
            else o.Err? && q == p
  {
    if IsTicket(p, r) && p.tickets[r.slot].state.Granted? {
      GrantedFacts(p, started, r);
    }
  }

  lemma TakenSchedules(p: Pool, started: seq<nat>, r: Ref, a: Answers)
    requires Inv(p, started) && IsTicket(p, r) && p.tickets[r.slot].state.Granted? && p.grants > 0 && p.tickets[r.slot].slot < |p.tasks|
    ensures Inv(Schedule(Taken(p, r), a), started)
  {
    GrantedFacts(p, started, r);
    TakenInv(p, started, r, Taken(p, r));
    ScheduleTickets(Taken(p, r), started, a);
  }

  lemma ReturnedSchedules(p: Pool, started: seq<nat>, r: Ref, a: Answers)
    requires Inv(p, started) && IsTicket(p, r) && p.tickets[r.slot].state.Granted? && p.grants > 0 && p.tickets[r.slot].slot < |p.tasks|
    ensures Inv(Schedule(Returned(p, r, TicketFailed), a), started)
  {
    GrantedFacts(p, started, r);
    var x := Returned(p, r, TicketFailed);
    assert x == x.(pending := p.pending);
    ReturnedInv(p, started, r, TicketFailed, p.pending, x);
    ScheduleTickets(x, started, a);
  }

  lemma SpawnReservedInv(p: Pool, started: seq<nat>, r: Ref, w: nat, s: nat, a: Answers)
    requires Inv(p, started)
    ensures Inv(SpawnReserved(p, r, w, s, a).0, started)
    // The counters never run below zero and the slot exists.
    ensures SpawnReserved(p, r, w, s, a).1.Ok? <==> Consumes(p, r, w, s) && a.owner && a.ok
  {
    SpawnReservedShape(p, started, r, w, s, a);
    if Consumes(p, r, w, s) && a.owner {
      if a.ok {
        TakenSchedules(p, started, r, a);
      } else {
        ReturnedSchedules(p, started, r, a);
      }
    }
  }

  lemma WithdrawInv(p: Pool, started: seq<nat>, r: Ref, p': Pool)
    requires Inv(p, started) && IsTicket(p, r) && Withdraw(p, r) == Ok(p')
    ensures Inv(p', started) && p'.desc.overflow.AwaitSlot?
  {
    if p.tickets[r.slot].state.Granted? {
      GrantedFacts(p, started, r);
      ReturnedInv(p, started, r, TicketCancelled, Without(p.pending, r), p');
    } else {
      OnlyTicketInv(p, started, r.slot, p');
    }
  }

  lemma CancelTicketInv(p: Pool, started: seq<nat>, r: Ref, w: nat, s: nat, a: Answers)
    requires Inv(p, started)
    ensures Inv(CancelTicket(p, r, w, s, a).0, started)
  {
    if IsTicket(p, r) && Withdraw(p, r).Ok? {
      WithdrawInv(p, started, r, Withdraw(p, r).value);
      ScheduleTickets(Withdraw(p, r).value, started, a);
    }
  }

  lemma ReleaseInv(p: Pool, started: seq<nat>, r: Ref, a: Answers)
    requires Inv(p, started)
    ensures Inv(ReleaseTicket(p, r, a).0, started)
  {
    if ReleaseTicket(p, r, a).1.Ok? {
      OnlyTicketInv(p, started, r.slot, ReleaseTicket(p, r, a).0);
    }
  }

  lemma WaitInv(p: Pool, started: seq<nat>, r: Ref, x: nat, s: nat, a: Answers)
    requires Inv(p, started)
    ensures Inv(BeginSlotWait(p, r, x, s, a).0, started)
  {
    var p' := BeginSlotWait(p, r, x, s, a).0;
    if p' != p {
      OnlyTicketInv(p, started, r.slot, p');
    }
  }

  lemma TrySpawnInv(p: Pool, started: seq<nat>, a: Answers, b: Answers)
    requires Inv(p, started)
    ensures Inv(TrySpawn(p, a, b).0, started + ScheduleStarts(p, a) + SpawnStarts(Schedule(p, a), false, b))
  {
    ScheduleInv(p, started, a);
    SpawnInv(Schedule(p, a), started + ScheduleStarts(p, a), false, b);
  }

  lemma SubmitInv(p: Pool, started: seq<nat>, a: Answers, b: Answers)
    requires Inv(p, started)
    ensures Inv(SubmitQueued(p, a, b).0, Record(p, started, DoSubmit(a, b)))
  {
    if p.desc.overflow.Queue? {
      var p' := Schedule(p, a);
      ScheduleInv(p, started, a);
      SpawnInv(p', started + ScheduleStarts(p, a), p'.frames >= p'.desc.maxInstances, b);
    }
  }

  lemma TicketStepInv(p: Pool, started: seq<nat>, c: Command)
    requires Inv(p, started) && (c.DoRequest? || c.DoSpawnReserved? || c.DoCancelTicket? || c.DoReleaseTicket? || c.DoWait?)
    ensures Inv(Step(p, c), Record(p, started, c))
  {
    match c
    case DoRequest(w, s, a) => RequestInv(p, started, w, s, a);
    case DoSpawnReserved(r, w, s, a) => SpawnReservedInv(p, started, r, w, s, a);
    case DoCancelTicket(r, w, s, a) => CancelTicketInv(p, started, r, w, s, a);
    case DoReleaseTicket(r, a) => ReleaseInv(p, started, r, a);
    case DoWait(r, x, s, a) => WaitInv(p, started, r, x, s, a);
  }

  lemma TaskStepInv(p: Pool, started: seq<nat>, c: Command)
    requires Inv(p, started) && !(c.DoRequest? || c.DoSpawnReserved? || c.DoCancelTicket? || c.DoReleaseTicket? || c.DoWait?)
    ensures Inv(Step(p, c), Record(p, started, c))
  {
    match c
    case DoTrySpawn(a, b) => TrySpawnInv(p, started, a, b);
    case DoSubmit(a, b) => SubmitInv(p, started, a, b);
    case DoBind(r, x) => BindInv(p, started, r, x);
    case DoFinish(r, failed, a) => CompleteInv(p, started, r, if failed then Failed else Completed, a);
    case DoCancel(r, a) => CompleteInv(p, started, r, Cancelled, a);
    case DoSchedule(a) => ScheduleInv(p, started, a);
  }

  lemma StepInv(p: Pool, started: seq<nat>, c: Command)
    requires Inv(p, started)
    ensures Inv(Step(p, c), Record(p, started, c))
  {
    if c.DoRequest? || c.DoSpawnReserved? || c.DoCancelTicket? || c.DoReleaseTicket? || c.DoWait? {
      TicketStepInv(p, started, c);
    } else {
      TaskStepInv(p, started, c);
    }
  }

  ghost function Run(p: Pool, started: seq<nat>, cs: seq<Command>): (Pool, seq<nat>)
    decreases |cs|
  {
    if cs == [] then (p, started) else Run(Step(p, cs[0]), Record(p, started, cs[0]), cs[1..])
  }

  lemma {:induction false} RunInv(p: Pool, started: seq<nat>, cs: seq<Command>)
    requires Inv(p, started)
    ensures var (p', s') := Run(p, started, cs); Inv(p', s') && p'.desc == p.desc
    decreases |cs|
  {
    if cs != [] {
      StepInv(p, started, cs[0]);
      StepDesc(p, cs[0]);
      RunInv(Step(p, cs[0]), Record(p, started, cs[0]), cs[1..]);
    }
  }

  lemma StepDesc(p: Pool, c: Command)
    ensures Step(p, c).desc == p.desc
  {
  }

  // Conservation: whatever the calls and whatever the surrounding stores answer, the two
  // counters are the numbers of frames and of grants, they stay within the pool's limits,
  // and where there are no tickets tasks start in the order in which they were submitted,
  // so that none overtakes a queued one.
  lemma Conservation(desc: Desc, tasks: nat, tickets: nat, cs: seq<Command>)
    ensures var (p, started) := Run(NewPool(desc, tasks, tickets), [], cs);
            && p.frames == Count(p.tasks, IsActive)
            && p.grants == Count(p.tickets, IsGrantedTicket) == Count(p.tasks, IsReserved)
            && p.frames + p.grants <= desc.maxInstances
            && Count(p.tasks, IsUsed) + p.grants <= desc.resultCapacity
            && (!desc.overflow.AwaitSlot? ==>
                  Increasing(started) && forall m, n :: 0 <= m < |started| && 0 <= n < |p.queue| ==> started[m] < p.queue[n].generation)
  {
    InitInv(desc, tasks, tickets);
    RunInv(NewPool(desc, tasks, tickets), [], cs);
  }
}
