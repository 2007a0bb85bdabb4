// The log of a pool's run lists exactly the tasks that its calls start
// (runtime/src/task_pool.cpp).
module TaskStarts {
  import opened Common
  import opened Counting
  import opened TaskPool
  import opened TaskRuns

  // The tasks that hold a frame.
  function Running(p: Pool): set<Ref> {
    set i | 0 <= i < |p.tasks| && p.tasks[i].Active() :: Ref(i, p.tasks[i].generation)
  }

  predicate Runs(p: Pool, r: Ref) {
    r.slot < |p.tasks| && p.tasks[r.slot].Active() && p.tasks[r.slot].generation == r.generation
  }

  lemma RunningIs(p: Pool, r: Ref)
    ensures r in Running(p) <==> Runs(p, r)
  {
  }

  // One slot changed.
  lemma OneSlot(p: Pool, p': Pool, i: nat)
    requires i < |p.tasks| && |p'.tasks| == |p.tasks| && p'.tasks == p.tasks[i := p'.tasks[i]]
    ensures forall r: Ref :: r.slot != i ==> (r in Running(p') <==> r in Running(p))
    ensures forall r: Ref :: r.slot == i ==> (r in Running(p') <==> Runs(p', r)) && (r in Running(p) <==> Runs(p, r))
  {
    forall r: Ref ensures (r in Running(p') <==> Runs(p', r)) && (r in Running(p) <==> Runs(p, r)) {
      RunningIs(p, r);
      RunningIs(p', r);
    }
  }

  lemma ReapRunning(p: Pool, dead: set<nat>)
    requires TasksOK(p)
    ensures Running(Reap(p, dead)) == Running(p)
  {
    var p' := Reap(p, dead);
    forall r ensures r in Running(p') <==> r in Running(p) {
      RunningIs(p, r);
      RunningIs(p', r);
      if r.slot < |p.tasks| {
        assert TaskOK(p.tasks[r.slot], p.next);
      }
    }
  }

  // --------------------------------------------------------------------------------
  // The queue.

  ghost function StartRefs(p: Pool): (s: seq<Ref>)
    decreases |p.queue|
  {
    if p.queue == [] || !FrameFree(p) then []
    else if IsTask(p, p.queue[0]) && p.tasks[p.queue[0].slot].state.Queued? then [p.queue[0]] + StartRefs(StartOne(p))
    else StartRefs(p.(queue := p.queue[1..]))
  }

  ghost predicate Generations(s: seq<Ref>, g: seq<nat>) {
    |g| == |s| && forall n :: 0 <= n < |s| ==> g[n] == s[n].generation
  }

  // Exactly the listed tasks are new among those that run.
  ghost predicate Joined(p: Pool, p': Pool, s: seq<Ref>) {
    && (forall r :: r in Running(p') <==> r in Running(p) || r in s)
    && (forall n :: 0 <= n < |s| ==> s[n] !in Running(p))
  }

  lemma StartOneJoins(p: Pool)
    requires p.queue != [] && IsTask(p, p.queue[0]) && p.tasks[p.queue[0].slot].state.Queued?
    ensures Joined(p, StartOne(p), [p.queue[0]])
  {
    OneSlot(p, StartOne(p), p.queue[0].slot);
  }

  lemma JoinedTwice(p: Pool, q: Pool, p': Pool, a: seq<Ref>, b: seq<Ref>)
    requires Joined(p, q, a) && Joined(q, p', b)
    ensures Joined(p, p', a + b)
  {
    var s := a + b;
    forall n | 0 <= n < |s| ensures s[n] !in Running(p) {
      if n >= |a| {
        assert s[n] == b[n - |a|];
        assert b[n - |a|] !in Running(q);
      }
    }
  }

  lemma {:induction false} StartJoins(p: Pool, started: seq<nat>)
    requires Inv(p, started)
    ensures Joined(p, StartQueued(p), StartRefs(p)) && Generations(StartRefs(p), Starts(p))
    decreases |p.queue|
  {
    if p.queue != [] && FrameFree(p) {
      var r, q := p.queue[0], StartOne(p);
      assert IsTask(p, r) && p.tasks[r.slot].state.Queued?;
      StartOneInv(p, started, q);
      StartJoins(q, started + [r.generation]);
      StartMore(p, q);
    }
  }

  lemma StartMore(p: Pool, q: Pool)
    requires p.queue != [] && FrameFree(p) && IsTask(p, p.queue[0]) && p.tasks[p.queue[0].slot].state.Queued? && q == StartOne(p)
    requires Joined(q, StartQueued(q), StartRefs(q)) && Generations(StartRefs(q), Starts(q))
    ensures Joined(p, StartQueued(p), StartRefs(p)) && Generations(StartRefs(p), Starts(p))
  {
    RefsUnfold(p);
    StartOneJoins(p);
    JoinedTwice(p, q, StartQueued(q), [p.queue[0]], StartRefs(q));
  }

  lemma RefsUnfold(p: Pool)
    requires p.queue != [] && FrameFree(p) && IsTask(p, p.queue[0]) && p.tasks[p.queue[0].slot].state.Queued?
    ensures StartQueued(p) == StartQueued(StartOne(p))
    ensures StartRefs(p) == [p.queue[0]] + StartRefs(StartOne(p)) && Starts(p) == [p.queue[0].generation] + Starts(StartOne(p))
  {
    StartUnfolds(p, []);
  }

  // --------------------------------------------------------------------------------
  // Scheduling and spawning.

  lemma ScheduleJoins(p: Pool, started: seq<nat>, a: Answers)
    requires Inv(p, started) && !p.desc.overflow.AwaitSlot?
    ensures Joined(p, Schedule(p, a), StartRefs(Reap(p, a.dead))) && Generations(StartRefs(Reap(p, a.dead)), ScheduleStarts(p, a))
  {
    var q := Reap(p, a.dead);
    ReapRunning(p, a.dead);
    ReapInv(p, started, a.dead);
    StartJoins(q, started);
    StartInv(q, started);
    assert StartQueued(q).pending == [];
  }

  lemma SpawnJoins(p: Pool, started: seq<nat>, queued: bool, a: Answers)
    requires Inv(p, started)
    ensures var r := Spawn(p, queued, a).1;
            var s := if r.Ok? && !queued then [r.value] else [];
            Joined(p, Spawn(p, queued, a).0, s) && Generations(s, SpawnStarts(p, queued, a))
  {
    ReapRunning(p, a.dead);
    var q := Reap(p, a.dead);
    var (p', r) := Spawn(p, queued, a);
    SpawnSlot(p, queued, a, q, p', r);
    if p'.tasks != q.tasks {
      OneSlot(q, p', FindTask(q.tasks, 0).value);
    }
  }

  // At most one free slot changes; it runs exactly if the task was started.
  lemma SpawnSlot(p: Pool, queued: bool, a: Answers, q: Pool, p': Pool, r: Result<Ref, Error>)
    requires q == Reap(p, a.dead) && (p', r) == Spawn(p, queued, a)
    ensures |p'.tasks| == |q.tasks|
    ensures p'.tasks == q.tasks ==> r.Err?
    ensures p'.tasks != q.tasks ==>
              FindTask(q.tasks, 0).Some? &&
              var i := FindTask(q.tasks, 0).value;
              && !q.tasks[i].used && p'.tasks == q.tasks[i := p'.tasks[i]]
              && (r.Ok? && !queued ==> r.value == Ref(i, p'.tasks[i].generation) && p'.tasks[i].Active())
              && (r.Err? || queued ==> !p'.tasks[i].Active())
  {
  }

  lemma RetireLeaves(p: Pool, r: Ref, outcome: TaskState, ok: bool)
    requires (outcome.Completed? || outcome.Failed? || outcome.Cancelled?) && Retire(p, r, outcome, ok).Ok?
    ensures var q := Retire(p, r, outcome, ok).value; forall x :: x in Running(q) <==> x in Running(p) && x != r
  {
    OneSlot(p, Retire(p, r, outcome, ok).value, r.slot);
  }

  // --------------------------------------------------------------------------------
  // Calls.

  // A task is new among those that run exactly when it is listed.
  ghost predicate Tells(p: Pool, p': Pool, s: seq<Ref>, g: seq<nat>) {
    Generations(s, g) && forall r :: r in Running(p') && r !in Running(p) <==> r in s
  }

  lemma JoinedTells(p: Pool, p': Pool, s: seq<Ref>, g: seq<nat>)
    requires Joined(p, p', s) && Generations(s, g)
    ensures Tells(p, p', s, g)
  {
    forall r | r in s ensures r !in Running(p) {
      var n :| 0 <= n < |s| && s[n] == r;
    }
  }

  lemma CompleteTells(p: Pool, started: seq<nat>, r: Ref, outcome: TaskState, a: Answers) returns (s: seq<Ref>)
    requires Inv(p, started) && !p.desc.overflow.AwaitSlot? && (outcome.Completed? || outcome.Failed? || outcome.Cancelled?)
    ensures started <= RecordRetire(p, started, r, outcome, a)
    ensures Tells(p, Complete(p, r, outcome, a).0, s, RecordRetire(p, started, r, outcome, a)[|started|..])
  {
    s := [];
    var o := Retire(p, r, outcome, a.ok);
    if o.Ok? {
      var q := o.value;
      RetiredInv(p, started, r, outcome, a.ok);
      ScheduleJoins(q, started, a);
      s := StartRefs(Reap(q, a.dead));
      JoinedTells(q, Schedule(q, a), s, ScheduleStarts(q, a));
      RetireLeaves(p, r, outcome, a.ok);
      assert r !in Running(Schedule(q, a)) by {
        RetiredStays(q, started, r, a);
      }
      assert RecordRetire(p, started, r, outcome, a)[|started|..] == ScheduleStarts(q, a);
    }
  }

  lemma RetiredInv(p: Pool, started: seq<nat>, r: Ref, outcome: TaskState, ok: bool)
    requires Inv(p, started) && (outcome.Completed? || outcome.Failed? || outcome.Cancelled?) && Retire(p, r, outcome, ok).Ok?
    ensures var q := Retire(p, r, outcome, ok).value;
            Inv(q, started) && IsTask(q, r) && q.tasks[r.slot].released && !q.tasks[r.slot].state.Queued?
  {
    var q := Retire(p, r, outcome, ok).value;
    if p.tasks[r.slot].state.Queued? {
      FinishQueued(p, started, r, outcome, q);
    } else {
      FinishActive(p, started, r, outcome, q);
    }
  }

  // A finished task is not started again.
  lemma RetiredStays(q: Pool, started: seq<nat>, r: Ref, a: Answers)
    requires Inv(q, started) && !q.desc.overflow.AwaitSlot? && IsTask(q, r) && !q.tasks[r.slot].state.Queued? && q.tasks[r.slot].released
    ensures r !in Running(Schedule(q, a))
  {
    assert TaskOK(q.tasks[r.slot], q.next);
    RunningIs(q, r);
    ScheduleJoins(q, started, a);
    var x := Reap(q, a.dead);
    ReapInv(q, started, a.dead);
    QueuedOnly(x, started);
  }

  lemma {:induction false} QueuedOnly(p: Pool, started: seq<nat>)
    requires Inv(p, started)
    ensures forall r :: r in StartRefs(p) ==> r in p.queue
    ensures forall r :: r in StartRefs(p) ==> IsTask(p, r) && p.tasks[r.slot].state.Queued?
    decreases |p.queue|
  {
    if p.queue != [] && FrameFree(p) {
      var r, q := p.queue[0], StartOne(p);
      assert IsTask(p, r) && p.tasks[r.slot].state.Queued?;
      StartOneInv(p, started, q);
      QueuedOnly(q, started + [r.generation]);
      forall x | x in StartRefs(p) ensures x in p.queue {
        assert x == r || x in StartRefs(q);
      }
      forall x | x in StartRefs(p) ensures IsTask(p, x) && p.tasks[x.slot].state.Queued? {
        var n :| 0 <= n < |p.queue| && p.queue[n] == x;
      }
    }
  }

  lemma BothTell(p: Pool, q: Pool, p': Pool, a: seq<Ref>, b: seq<Ref>, g: seq<nat>, h: seq<nat>)
    requires Joined(p, q, a) && Joined(q, p', b) && Generations(a, g) && Generations(b, h)
    ensures Tells(p, p', a + b, g + h)
  {
    JoinedTwice(p, q, p', a, b);
    JoinedTells(p, p', a + b, g + h);
  }

  lemma SpawnAfter(p: Pool, q: Pool, started: seq<nat>, queued: bool, b: Answers, first: seq<Ref>, g: seq<nat>) returns (s: seq<Ref>)
    requires Inv(q, started) && Joined(p, q, first) && Generations(first, g)
    ensures Tells(p, Spawn(q, queued, b).0, s, g + SpawnStarts(q, queued, b))
  {
    SpawnJoins(q, started, queued, b);
    var (p', r) := Spawn(q, queued, b);
    var second := if r.Ok? && !queued then [r.value] else [];
    BothTell(p, q, p', first, second, g, SpawnStarts(q, queued, b));
    s := first + second;
  }

  lemma SpawnTells(p: Pool, started: seq<nat>, queued: bool, a: Answers, b: Answers) returns (s: seq<Ref>)
    requires Inv(p, started) && !p.desc.overflow.AwaitSlot?
    ensures Tells(p, Spawn(Schedule(p, a), queued, b).0, s, ScheduleStarts(p, a) + SpawnStarts(Schedule(p, a), queued, b))
  {
    ScheduleJoins(p, started, a);
    ScheduleInv(p, started, a);
    s := SpawnAfter(p, Schedule(p, a), started + ScheduleStarts(p, a), queued, b, StartRefs(Reap(p, a.dead)), ScheduleStarts(p, a));
  }

  // Such a pool refuses every call about tickets.
  lemma TicketCalls(p: Pool, started: seq<nat>, c: Command)
    requires Inv(p, started) && !p.desc.overflow.AwaitSlot?
    requires c.DoRequest? || c.DoSpawnReserved? || c.DoCancelTicket? || c.DoReleaseTicket? || c.DoWait?
    ensures Step(p, c) == p
  {
    forall r ensures !IsTicket(p, r) {
    }
  }

  lemma BindTells(p: Pool, r: Ref, process: nat)
    ensures Running(BindExecution(p, r, process).0) == Running(p)
  {
    var p' := BindExecution(p, r, process).0;
    if p' != p {
      OneSlot(p, p', r.slot);
    }
  }

  lemma TryShape(p: Pool, started: seq<nat>, a: Answers, b: Answers, q: Pool)
    requires !p.desc.overflow.AwaitSlot? && q == Schedule(p, a)
    ensures Step(p, DoTrySpawn(a, b)) == Spawn(q, false, b).0
    ensures Record(p, started, DoTrySpawn(a, b)) == started + (ScheduleStarts(p, a) + SpawnStarts(q, false, b))
  {
  }

  lemma SubmitShape(p: Pool, started: seq<nat>, a: Answers, b: Answers, q: Pool, queued: bool)
    requires q == Schedule(p, a) && queued == (q.frames >= q.desc.maxInstances) && p.desc.overflow.Queue?
    ensures Step(p, DoSubmit(a, b)) == Spawn(q, queued, b).0
    ensures Record(p, started, DoSubmit(a, b)) == started + (ScheduleStarts(p, a) + SpawnStarts(q, queued, b))
  {
  }

  // The call spawns after scheduling, and logs both.
  lemma SpawnListed(p: Pool, started: seq<nat>, c: Command, p': Pool, s: seq<Ref>, g: seq<nat>)
    requires Step(p, c) == p' && Record(p, started, c) == started + g && Tells(p, p', s, g)
    ensures Listed(p, started, c, s)
  {
    assert (started + g)[|started|..] == g;
  }

  lemma TryTells(p: Pool, started: seq<nat>, a: Answers, b: Answers) returns (s: seq<Ref>)
    requires Inv(p, started) && !p.desc.overflow.AwaitSlot?
    ensures Listed(p, started, DoTrySpawn(a, b), s)
  {
    var q := Schedule(p, a);
    s := SpawnTells(p, started, false, a, b);
    TryShape(p, started, a, b, q);
    SpawnListed(p, started, DoTrySpawn(a, b), Spawn(q, false, b).0, s, ScheduleStarts(p, a) + SpawnStarts(q, false, b));
  }

  lemma SubmitTells(p: Pool, started: seq<nat>, a: Answers, b: Answers) returns (s: seq<Ref>)
    requires Inv(p, started) && !p.desc.overflow.AwaitSlot?
    ensures Listed(p, started, DoSubmit(a, b), s)
  {
    s := [];
    if p.desc.overflow.Queue? {
      var q := Schedule(p, a);
      var queued := q.frames >= q.desc.maxInstances;
      s := SpawnTells(p, started, queued, a, b);
      SubmitShape(p, started, a, b, q, queued);
      SpawnListed(p, started, DoSubmit(a, b), Spawn(q, queued, b).0, s, ScheduleStarts(p, a) + SpawnStarts(q, queued, b));
    }
  }

  lemma ScheduleTells(p: Pool, started: seq<nat>, a: Answers) returns (s: seq<Ref>)
    requires Inv(p, started) && !p.desc.overflow.AwaitSlot?
    ensures Listed(p, started, DoSchedule(a), s)
  {
    ScheduleJoins(p, started, a);
    s := StartRefs(Reap(p, a.dead));
    JoinedTells(p, Schedule(p, a), s, ScheduleStarts(p, a));
    assert Record(p, started, DoSchedule(a))[|started|..] == ScheduleStarts(p, a);
  }

  // The call logs the generations of `s`, the tasks it starts.
  ghost predicate Listed(p: Pool, started: seq<nat>, c: Command, s: seq<Ref>) {
    started <= Record(p, started, c) && Tells(p, Step(p, c), s, Record(p, started, c)[|started|..])
  }

  // In a pool without tickets a call starts a task exactly when it logs it.
  lemma StartsExact(p: Pool, started: seq<nat>, c: Command) returns (s: seq<Ref>)
    requires Inv(p, started) && !p.desc.overflow.AwaitSlot?
    ensures Listed(p, started, c, s)
  {
    s := [];
    match c
    case DoTrySpawn(a, b) => s := TryTells(p, started, a, b);
    case DoSubmit(a, b) => s := SubmitTells(p, started, a, b);
    case DoFinish(r, failed, a) => s := CompleteTells(p, started, r, if failed then Failed else Completed, a);
    case DoCancel(r, a) => s := CompleteTells(p, started, r, Cancelled, a);
    case DoSchedule(a) => s := ScheduleTells(p, started, a);
    case DoBind(r, process) => BindTells(p, r, process);
    case DoRequest(_, _, _) => TicketCalls(p, started, c);
    case DoSpawnReserved(_, _, _, _) => TicketCalls(p, started, c);
    case DoCancelTicket(_, _, _, _) => TicketCalls(p, started, c);
    case DoReleaseTicket(_, _) => TicketCalls(p, started, c);
    case DoWait(_, _, _, _) => TicketCalls(p, started, c);
  }
}
