// Several transactions at once: staging, savepoints, commits and the activity of queues and
// cells interleave in any way, and every commit is still all or nothing
// (runtime/src/event_txn.cpp).
module TxnRuns {
  import opened Common
  import opened EventQueue
  import EventRuns
  import opened EventTxn
  import TxnStaging

  // --------------------------------------------------------------------------------
  // What staged effects need of the world does not go away.

  // Queues keep their slots and generations never run backwards.
  ghost predicate Aged(q: Queue, q': Queue) {
    |q'.slots| == |q.slots| && forall i :: 0 <= i < |q.slots| ==> q.slots[i].generation <= q'.slots[i].generation
  }

  ghost predicate Later(w: World, w': World) {
    && |w'.cells| == |w.cells| && |w'.queues| == |w.queues|
    && forall k :: 0 <= k < |w.queues| ==> Aged(w.queues[k], w'.queues[k])
  }

  lemma LaterTwice(w: World, w': World, w'': World)
    requires Later(w, w') && Later(w', w'')
    ensures Later(w, w'')
  {
    forall k | 0 <= k < |w.queues| ensures Aged(w.queues[k], w''.queues[k]) {
      assert Aged(w.queues[k], w'.queues[k]) && Aged(w'.queues[k], w''.queues[k]);
    }
  }

  lemma StillOK(w: World, w': World, t: Txn)
    requires TxnOK(w, t) && Later(w, w')
    ensures TxnOK(w', t)
  {
    forall i | 0 <= i < |t.events|
      ensures t.events[i].1.slot < |w'.queues[t.events[i].0].slots|
              && t.events[i].1.generation <= w'.queues[t.events[i].0].slots[t.events[i].1.slot].generation
    {
      assert Aged(w.queues[t.events[i].0], w'.queues[t.events[i].0]);
    }
  }

  lemma NewOK(w: World, epoch: nat, budget: Budget)
    ensures TxnOK(w, NewTxn(epoch, budget))
  {
  }

  // --------------------------------------------------------------------------------
  // Queue activity.

  lemma {:induction false} CollectAges(q: Queue, budget: nat)
    ensures Aged(q, CollectStale(q, budget))
    decreases budget
  {
    if budget > 0 {
      CollectAges(CollectOne(q), budget - 1);
    }
  }

  lemma OpenAges(q: Queue, now: nat)
    ensures Aged(q, OpenBatch(q, now).0)
  {
    forall k: ReadyKey ensures Aged(q, Opened(q, k)) {
    }
  }

  lemma BatchAges(q: Queue, c: EventRuns.Command)
    requires c.DoPop? || c.DoAck? || c.DoResolve? || c.DoFinish?
    ensures Aged(q, EventRuns.Step(q, c))
  {
    if c.DoPop? {
      OpenAges(q, c.now);
      assert EventRuns.Step(q, c) == q || EventRuns.Step(q, c) == OpenBatch(q, c.now).0;
    }
  }

  lemma SlotAges(q: Queue, c: EventRuns.Command)
    requires c.DoEnqueue? || c.DoAbandon? || c.DoRetarget? || c.DoCancel?
    ensures Aged(q, EventRuns.Step(q, c))
  {
  }

  lemma QueueAges(q: Queue, c: EventRuns.Command)
    ensures Aged(q, EventRuns.Step(q, c))
  {
    if c.DoPrepare? {
      TxnStaging.PrepareGenerations(q, c.e);
    } else if c.DoCollect? {
      CollectAges(q, EventRuns.Rounds(q, c.budget));
    } else if c.DoPop? || c.DoAck? || c.DoResolve? || c.DoFinish? {
      BatchAges(q, c);
    } else {
      SlotAges(q, c);
    }
  }

  lemma {:induction false} AbandonAges(queues: seq<Queue>, events: seq<(nat, Handle)>)
    ensures forall k :: 0 <= k < |queues| ==> Aged(queues[k], AbandonAll(queues, events)[k])
    decreases |events|
  {
    if events != [] {
      var (k, h) := events[0];
      var next := if k < |queues| then queues[k := Abandon(queues[k], h)] else queues;
      AbandonAges(next, events[1..]);
      forall j | 0 <= j < |queues| ensures Aged(queues[j], AbandonAll(queues, events)[j]) {
        assert Aged(next[j], AbandonAll(next, events[1..])[j]);
      }
    }
  }

  lemma StageLater(w: World, t: Txn, s: Stage)
    ensures Later(w, StageOne(w, t, s).0)
  {
    if s.DoEvent? && s.k < |w.queues| {
      TxnStaging.PrepareGenerations(w.queues[s.k], s.e);
    }
  }

  lemma CommitLater(w: World, t: Txn, epoch: nat)
    ensures Later(w, Committing(w, t, epoch).0)
  {
  }

  // --------------------------------------------------------------------------------
  // Systems of transactions.

  // What has been done to the cells and participants, in order: by a commit, or directly.
  datatype Entry = ByCommit(txn: nat, writes: seq<Write>, ids: seq<nat>) | Direct(cell: nat, contents: Cell)

  datatype System = System(world: World, txns: seq<Txn>, saves: seq<Option<(nat, Savepoint)>>, log: seq<Entry>)

  datatype Action =
    | DoOpen(epoch: nat, budget: Budget)
    | DoStage(i: nat, s: Stage)
    | DoMark(i: nat)
    | DoRollback(i: nat, n: nat)
    | DoCommit(i: nat, epoch: nat)
    | DoDiscard(i: nat)
    | DoQueue(k: nat, c: EventRuns.Command)
    | DoCell(cell: nat, contents: Cell)
    | DoParticipants(i: nat, n: nat, valid: bool, needs: nat)

  // The participant may have changed its mind or its needs.
  function Shifted(t: Txn, n: nat, valid: bool, needs: nat): Txn {
    if n < |t.participants| then t.(participants := t.participants[n := t.participants[n].(valid := valid, needs := needs)]) else t
  }

  // A savepoint can be used once, by the transaction it was taken of.
  function RollbackAt(s: System, i: nat, n: nat): System
    requires i < |s.txns|
  {
    if n < |s.saves| && s.saves[n].Some? && s.saves[n].value.0 == i then
      var (w, r) := Rollback(s.world, s.txns[i], s.saves[n].value.1);
      match r
      case Err(_) => s.(world := w)
      case Ok(t) => s.(world := w, txns := s.txns[i := t], saves := s.saves[n := None])
    else s
  }

  ghost function CommitAt(s: System, i: nat, epoch: nat): System
    requires i < |s.txns|
  {
    var t := s.txns[i];
    var (w', t') := Committing(s.world, t, epoch);
    s.(world := w', txns := s.txns[i := t'],
       log := if Admissible(s.world, t, epoch) then s.log + [ByCommit(i, t.writes, Ids(t.participants))] else s.log)
  }

  ghost function Step(s: System, a: Action): System {
    match a
    case DoOpen(epoch, budget) => s.(txns := s.txns + [NewTxn(epoch, budget)])
    case DoQueue(k, c) =>
      if k < |s.world.queues| then s.(world := s.world.(queues := s.world.queues[k := EventRuns.Step(s.world.queues[k], c)])) else s
    case DoCell(c, x) =>
      if c < |s.world.cells| then s.(world := s.world.(cells := s.world.cells[c := x]), log := s.log + [Direct(c, x)]) else s
    case DoStage(i, x) =>
      if i >= |s.txns| then s
      else
        var (w, t) := StageOne(s.world, s.txns[i], x);
        s.(world := w, txns := s.txns[i := t])
    case DoMark(i) => if i >= |s.txns| || s.txns[i].closed then s else s.(saves := s.saves + [Some((i, Checkpoint(s.txns[i])))])
    case DoRollback(i, n) => if i >= |s.txns| then s else RollbackAt(s, i, n)
    case DoCommit(i, epoch) => if i >= |s.txns| then s else CommitAt(s, i, epoch)
    case DoDiscard(i) =>
      if i >= |s.txns| then s
      else
        var (w, t) := Discard(s.world, s.txns[i]);
        s.(world := w, txns := s.txns[i := t])
    case DoParticipants(i, n, valid, needs) => if i >= |s.txns| then s else s.(txns := s.txns[i := Shifted(s.txns[i], n, valid, needs)])
  }

  ghost function Run(s: System, acts: seq<Action>): System
    decreases |acts|
  {
    if acts == [] then s else Run(Step(s, acts[0]), acts[1..])
  }

  // --------------------------------------------------------------------------------
  // Fit for commit, whatever happens.

  ghost predicate SaveOK(w: World, budget: Budget, p: Savepoint) {
    && DistinctCells(p.writes) && (forall i :: 0 <= i < |p.writes| ==> p.writes[i].cell < |w.cells|)
    && WriteBytes(p.writes) <= p.bytes <= budget.bytes
  }

  ghost predicate AllOK(s: System) {
    && (forall i :: 0 <= i < |s.txns| ==> TxnOK(s.world, s.txns[i]))
    && (forall n :: 0 <= n < |s.saves| && s.saves[n].Some? ==>
          s.saves[n].value.0 < |s.txns| && SaveOK(s.world, s.txns[s.saves[n].value.0].budget, s.saves[n].value.1))
  }

  // The world moves on and one transaction changes.
  lemma OneChanged(s: System, t: System, i: nat)
    requires AllOK(s) && Later(s.world, t.world) && i < |s.txns| && |t.txns| == |s.txns| && t.txns == s.txns[i := t.txns[i]]
    requires TxnOK(t.world, t.txns[i]) && t.txns[i].budget == s.txns[i].budget
    requires |s.saves| == |t.saves| && forall n :: 0 <= n < |t.saves| ==> t.saves[n] == s.saves[n] || t.saves[n].None?
    ensures AllOK(t)
  {
    forall j | 0 <= j < |t.txns| ensures TxnOK(t.world, t.txns[j]) {
      if j != i {
        StillOK(s.world, t.world, s.txns[j]);
      }
    }
  }

  lemma NoneChanged(s: System, t: System)
    requires AllOK(s) && Later(s.world, t.world) && t.txns == s.txns && t.saves == s.saves
    ensures AllOK(t)
  {
    forall j | 0 <= j < |t.txns| ensures TxnOK(t.world, t.txns[j]) {
      StillOK(s.world, t.world, s.txns[j]);
    }
  }

  lemma RollbackOK(w: World, t: Txn, p: Savepoint)
    requires TxnOK(w, t) && SaveOK(w, t.budget, p)
    ensures var (w', r) := Rollback(w, t, p);
            Later(w, w') && (r.Ok? ==> TxnOK(w', r.value) && r.value.budget == t.budget && r.value.committed == t.committed)
  {
    var (w', r) := Rollback(w, t, p);
    RollbackLater(w, t, p);
    if r.Ok? {
      StillOK(w, w', t);
      assert forall i :: 0 <= i < p.events ==> r.value.events[i] == t.events[i];
      assert forall i :: 0 <= i < p.cancels ==> r.value.cancels[i] == t.cancels[i];
    }
  }

  lemma StageStepOK(s: System, i: nat, x: Stage)
    requires AllOK(s) && i < |s.txns|
    ensures AllOK(Step(s, DoStage(i, x)))
  {
    StageLater(s.world, s.txns[i], x);
    TxnStaging.StageKeepsOK(s.world, s.txns[i], x);
    TxnStaging.StageGrows(s.world, s.txns[i], x);
    OneChanged(s, Step(s, DoStage(i, x)), i);
  }

  lemma RollbackStepOK(s: System, i: nat, n: nat)
    requires AllOK(s) && i < |s.txns|
    ensures AllOK(RollbackAt(s, i, n))
  {
    if n < |s.saves| && s.saves[n].Some? && s.saves[n].value.0 == i {
      RollbackOK(s.world, s.txns[i], s.saves[n].value.1);
      var r := Rollback(s.world, s.txns[i], s.saves[n].value.1).1;
      if r.Ok? {
        OneChanged(s, RollbackAt(s, i, n), i);
      } else {
        NoneChanged(s, RollbackAt(s, i, n));
      }
    }
  }

  lemma CommitStepOK(s: System, i: nat, epoch: nat)
    requires AllOK(s) && i < |s.txns|
    ensures AllOK(CommitAt(s, i, epoch))
  {
    CommitLater(s.world, s.txns[i], epoch);
    StillOK(s.world, Committing(s.world, s.txns[i], epoch).0, s.txns[i]);
    OneChanged(s, CommitAt(s, i, epoch), i);
  }

  lemma DiscardStepOK(s: System, i: nat)
    requires AllOK(s) && i < |s.txns|
    ensures AllOK(Step(s, DoDiscard(i)))
  {
    var w := Discard(s.world, s.txns[i]).0;
    AbandonAges(s.world.queues, s.txns[i].events);
    StillOK(s.world, w, s.txns[i]);
    OneChanged(s, Step(s, DoDiscard(i)), i);
  }

  lemma MarkStepOK(s: System, i: nat)
    requires AllOK(s) && i < |s.txns|
    ensures AllOK(Step(s, DoMark(i)))
  {
    assert TxnOK(s.world, s.txns[i]);
  }

  lemma OpenStepOK(s: System, epoch: nat, budget: Budget)
    requires AllOK(s)
    ensures AllOK(Step(s, DoOpen(epoch, budget)))
  {
    NewOK(s.world, epoch, budget);
  }

  // Every action keeps every transaction fit for commit.
  lemma StepOK(s: System, a: Action)
    requires AllOK(s)
    ensures AllOK(Step(s, a))
  {
    match a
    case DoOpen(epoch, budget) => OpenStepOK(s, epoch, budget);
    case DoQueue(k, c) =>
      if k < |s.world.queues| {
        QueueAges(s.world.queues[k], c);
        NoneChanged(s, Step(s, a));
      }
    case DoCell(c, x) => NoneChanged(s, Step(s, a));
    case DoStage(i, x) =>
      if i < |s.txns| {
        StageStepOK(s, i, x);
      }
    case DoMark(i) =>
      if i < |s.txns| {
        MarkStepOK(s, i);
      }
    case DoRollback(i, n) =>
      if i < |s.txns| {
        RollbackStepOK(s, i, n);
      }
    case DoCommit(i, epoch) =>
      if i < |s.txns| {
        CommitStepOK(s, i, epoch);
      }
    case DoDiscard(i) =>
      if i < |s.txns| {
        DiscardStepOK(s, i);
      }
    case DoParticipants(i, n, valid, needs) =>
      if i < |s.txns| {
        OneChanged(s, Step(s, a), i);
      }
  }

  // --------------------------------------------------------------------------------
  // The log tells the whole story.

  function ReplayOne(cells: seq<Cell>, e: Entry): (r: seq<Cell>)
    ensures |r| == |cells|
  {
    match e
    case ByCommit(_, writes, _) => if forall i :: 0 <= i < |writes| ==> writes[i].cell < |cells| then WrittenBy(cells, writes) else cells
    case Direct(c, x) => if c < |cells| then cells[c := x] else cells
  }

  function Replay(cells: seq<Cell>, log: seq<Entry>): (r: seq<Cell>)
    ensures |r| == |cells|
  {
    if log == [] then cells else ReplayOne(Replay(cells, log[..|log| - 1]), log[|log| - 1])
  }

  function IdsOf(e: Entry): seq<nat> {
    match e
    case ByCommit(_, _, ids) => ids
    case Direct(_, _) => []
  }

  function AllIds(log: seq<Entry>): seq<nat> {
    if log == [] then [] else AllIds(log[..|log| - 1]) + IdsOf(log[|log| - 1])
  }

  ghost predicate Committed(log: seq<Entry>, i: nat) {
    exists n :: 0 <= n < |log| && log[n].ByCommit? && log[n].txn == i
  }

  ghost predicate CellsTold(w0: World, w: World, log: seq<Entry>) {
    w.cells == Replay(w0.cells, log)
  }

  ghost predicate IdsTold(w0: World, w: World, log: seq<Entry>) {
    w.applied == w0.applied + AllIds(log)
  }

  ghost predicate CommitsTold(txns: seq<Txn>, log: seq<Entry>) {
    forall i :: 0 <= i < |txns| ==> (txns[i].committed <==> Committed(log, i))
  }

  ghost predicate OnceTold(log: seq<Entry>, txns: nat) {
    && (forall n :: 0 <= n < |log| && log[n].ByCommit? ==> log[n].txn < txns)
    && (forall a, b :: 0 <= a < b < |log| && log[a].ByCommit? && log[b].ByCommit? ==> log[a].txn != log[b].txn)
  }

  // Cells and participants are what the log makes of them, a transaction is in the log once
  // it has committed, and never twice.
  ghost predicate Told(w0: World, s: System) {
    CellsTold(w0, s.world, s.log) && IdsTold(w0, s.world, s.log) && CommitsTold(s.txns, s.log) && OnceTold(s.log, |s.txns|)
  }

  // Nothing that the log speaks of changed.
  lemma ToldQuiet(w0: World, s: System, t: System)
    requires Told(w0, s) && t.log == s.log && t.world.cells == s.world.cells && t.world.applied == s.world.applied
    requires |t.txns| == |s.txns| && forall i :: 0 <= i < |s.txns| ==> t.txns[i].committed == s.txns[i].committed
    ensures Told(w0, t)
  {
  }

  // The log grows by one entry.
  lemma CellsGrow(w0: World, w: World, w': World, log: seq<Entry>, e: Entry)
    requires CellsTold(w0, w, log) && w'.cells == ReplayOne(w.cells, e)
    ensures CellsTold(w0, w', log + [e])
  {
    assert (log + [e])[..|log|] == log;
  }

  lemma IdsGrow(w0: World, w: World, w': World, log: seq<Entry>, e: Entry)
    requires IdsTold(w0, w, log) && w'.applied == w.applied + IdsOf(e)
    ensures IdsTold(w0, w', log + [e])
  {
    assert (log + [e])[..|log|] == log;
  }

  lemma CommittedGrows(log: seq<Entry>, e: Entry, i: nat)
    ensures Committed(log + [e], i) <==> Committed(log, i) || (e.ByCommit? && e.txn == i)
  {
    var more := log + [e];
    if Committed(log, i) {
      var n :| 0 <= n < |log| && log[n].ByCommit? && log[n].txn == i;
      assert more[n] == log[n];
    }
    assert more[|log|] == e;
  }

  lemma CommitsGrow(txns: seq<Txn>, txns': seq<Txn>, log: seq<Entry>, e: Entry)
    requires CommitsTold(txns, log) && |txns'| == |txns|
    requires forall j :: 0 <= j < |txns| ==> (txns'[j].committed <==> txns[j].committed || (e.ByCommit? && e.txn == j))
    ensures CommitsTold(txns', log + [e])
  {
    forall j | 0 <= j < |txns'| ensures txns'[j].committed <==> Committed(log + [e], j) {
      CommittedGrows(log, e, j);
    }
  }

  lemma OnceGrows(log: seq<Entry>, txns: nat, e: Entry)
    requires OnceTold(log, txns) && (e.ByCommit? ==> e.txn < txns && !Committed(log, e.txn))
    ensures OnceTold(log + [e], txns)
  {
  }

  lemma CommitTold(w0: World, s: System, i: nat, epoch: nat)
    requires AllOK(s) && Told(w0, s) && i < |s.txns|
    ensures Told(w0, CommitAt(s, i, epoch))
  {
    var u := CommitAt(s, i, epoch);
    if Admissible(s.world, s.txns[i], epoch) {
      assert TxnOK(s.world, s.txns[i]);
      CommitLogged(w0, s, u, i);
    } else {
      ToldQuiet(w0, s, u);
    }
  }

  lemma CommitLogged(w0: World, s: System, u: System, i: nat)
    requires Told(w0, s) && i < |s.txns| && !s.txns[i].committed
    requires forall n :: 0 <= n < |s.txns[i].writes| ==> s.txns[i].writes[n].cell < |s.world.cells|
    requires u.world == CommittedWorld(s.world, s.txns[i]) && u.txns == s.txns[i := s.txns[i].(closed := true, committed := true)]
    requires u.log == s.log + [ByCommit(i, s.txns[i].writes, Ids(s.txns[i].participants))]
    ensures Told(w0, u)
  {
    var e := ByCommit(i, s.txns[i].writes, Ids(s.txns[i].participants));
    CellsGrow(w0, s.world, u.world, s.log, e);
    IdsGrow(w0, s.world, u.world, s.log, e);
    CommitsGrow(s.txns, u.txns, s.log, e);
    OnceGrows(s.log, |s.txns|, e);
  }

  lemma CellTold(w0: World, s: System, c: nat, x: Cell)
    requires Told(w0, s) && c < |s.world.cells|
    ensures Told(w0, Step(s, DoCell(c, x)))
  {
    var u, e := Step(s, DoCell(c, x)), Direct(c, x);
    CellsGrow(w0, s.world, u.world, s.log, e);
    IdsGrow(w0, s.world, u.world, s.log, e);
    CommitsGrow(s.txns, u.txns, s.log, e);
    OnceGrows(s.log, |s.txns|, e);
  }

  lemma OpenTold(w0: World, s: System, epoch: nat, budget: Budget)
    requires Told(w0, s)
    ensures Told(w0, Step(s, DoOpen(epoch, budget)))
  {
    var u := Step(s, DoOpen(epoch, budget));
    forall i | 0 <= i < |u.txns| ensures u.txns[i].committed <==> Committed(u.log, i) {
      assert i < |s.txns| ==> u.txns[i] == s.txns[i];
    }
  }

  lemma StageTold(w0: World, s: System, i: nat, x: Stage)
    requires Told(w0, s)
    ensures Told(w0, Step(s, DoStage(i, x)))
  {
    if i < |s.txns| {
      TxnStaging.StageGrows(s.world, s.txns[i], x);
      ToldQuiet(w0, s, Step(s, DoStage(i, x)));
    }
  }

  lemma RollbackTold(w0: World, s: System, i: nat, n: nat)
    requires Told(w0, s)
    ensures Told(w0, Step(s, DoRollback(i, n)))
  {
    ToldQuiet(w0, s, Step(s, DoRollback(i, n)));
  }

  lemma DiscardTold(w0: World, s: System, i: nat)
    requires Told(w0, s)
    ensures Told(w0, Step(s, DoDiscard(i)))
  {
    ToldQuiet(w0, s, Step(s, DoDiscard(i)));
  }

  lemma OtherTold(w0: World, s: System, a: Action)
    requires Told(w0, s) && (a.DoQueue? || a.DoMark? || a.DoParticipants?)
    ensures Told(w0, Step(s, a))
  {
    ToldQuiet(w0, s, Step(s, a));
  }

  lemma LogTold(w0: World, s: System, a: Action)
    requires AllOK(s) && Told(w0, s) && (a.DoOpen? || a.DoCell? || a.DoCommit?)
    ensures Told(w0, Step(s, a))
  {
    match a
    case DoOpen(epoch, budget) => OpenTold(w0, s, epoch, budget);
    case DoCell(c, x) =>
      if c < |s.world.cells| {
        CellTold(w0, s, c, x);
      }
    case DoCommit(i, epoch) =>
      if i < |s.txns| {
        CommitTold(w0, s, i, epoch);
      }
  }

  lemma StepTold(w0: World, s: System, a: Action)
    requires AllOK(s) && Told(w0, s)
    ensures Told(w0, Step(s, a))
  {
    if a.DoOpen? || a.DoCell? || a.DoCommit? {
      LogTold(w0, s, a);
    } else if a.DoStage? {
      StageTold(w0, s, a.i, a.s);
    } else if a.DoRollback? {
      RollbackTold(w0, s, a.i, a.n);
    } else if a.DoDiscard? {
      DiscardTold(w0, s, a.i);
    } else {
      OtherTold(w0, s, a);
    }
  }

  lemma {:induction false} RunTold(w0: World, s: System, acts: seq<Action>)
    requires AllOK(s) && Told(w0, s)
    ensures AllOK(Run(s, acts)) && Told(w0, Run(s, acts))
    decreases |acts|
  {
    if acts != [] {
      StepOK(s, acts[0]);
      StepTold(w0, s, acts[0]);
      RunTold(w0, Step(s, acts[0]), acts[1..]);
    }
  }

  lemma RollbackLater(w: World, t: Txn, p: Savepoint)
    ensures Later(w, Rollback(w, t, p).0)
  {
    if Rollback(w, t, p).1.Ok? {
      AbandonAges(w.queues, t.events[p.events..]);
    }
  }

  lemma StepLater(s: System, a: Action)
    ensures Later(s.world, Step(s, a).world)
  {
    match a
    case DoQueue(k, c) =>
      if k < |s.world.queues| {
        QueueAges(s.world.queues[k], c);
      }
    case DoStage(i, x) =>
      if i < |s.txns| {
        StageLater(s.world, s.txns[i], x);
      }
    case DoRollback(i, n) =>
      if i < |s.txns| && n < |s.saves| && s.saves[n].Some? {
        RollbackLater(s.world, s.txns[i], s.saves[n].value.1);
      }
    case DoCommit(i, epoch) =>
      if i < |s.txns| {
        CommitLater(s.world, s.txns[i], epoch);
      }
    case DoDiscard(i) =>
      if i < |s.txns| {
        AbandonAges(s.world.queues, s.txns[i].events);
      }
    case DoOpen(_, _) =>
    case DoCell(_, _) =>
    case DoMark(_) =>
    case DoParticipants(_, _, _, _) =>
  }

  lemma {:induction false} RunLater(s: System, acts: seq<Action>)
    ensures Later(s.world, Run(s, acts).world)
    decreases |acts|
  {
    if acts != [] {
      StepLater(s, acts[0]);
      RunLater(Step(s, acts[0]), acts[1..]);
      LaterTwice(s.world, Step(s, acts[0]).world, Run(s, acts).world);
    }
  }

  // Atomicity over every interleaving: after any run every transaction is fit for commit,
  // so its next commit applies all of it or nothing; cells and participants are exactly what
  // the commits so far, each in one piece and at most once per transaction, have made of
  // them; and no generation of a queue has run backwards, so a token once overtaken stays so.
  lemma Interleaved(w0: World, acts: seq<Action>, i: nat, epoch: nat)
    ensures var s := Run(System(w0, [], [], []), acts);
            && Told(w0, s) && Later(w0, s.world)
            && (i < |s.txns| ==>
                  && TxnOK(s.world, s.txns[i])
                  && var u := Step(s, DoCommit(i, epoch));
                     if Admissible(s.world, s.txns[i], epoch)
                     then AllApplied(s.world, s.txns[i], u.world) && u.txns[i].committed && !s.txns[i].committed
                     else u == s)
  {
    var s0 := System(w0, [], [], []);
    assert w0.applied + AllIds([]) == w0.applied;
    RunTold(w0, s0, acts);
    RunLater(s0, acts);
  }

  // Of two transactions that could both commit and write a common cell, the one that commits
  // first bars the other.
  lemma FirstCommitterWins(s: System, i: nat, j: nat, c: nat, epoch: nat)
    requires AllOK(s) && i < |s.txns| && j < |s.txns| && i != j
    requires Admissible(s.world, s.txns[i], epoch) && Admissible(s.world, s.txns[j], epoch)
    requires FindWrite(s.txns[i].writes, c).Some? && FindWrite(s.txns[j].writes, c).Some?
    ensures var u := CommitAt(s, i, epoch); u.txns[j] == s.txns[j] && !Admissible(u.world, u.txns[j], epoch) && CommitAt(u, j, epoch) == u
  {
    var n := FindWrite(s.txns[j].writes, c).value;
    var u := CommitAt(s, i, epoch);
    assert CheckWrite(s.world, s.txns[j].writes[n], epoch).None?;
    assert TxnOK(s.world, s.txns[i]);
    assert u.world.cells[c].version == s.world.cells[c].version + 1;
    assert !WritesValid(u.world, u.txns[j].writes, epoch);
    assert u.txns[j := u.txns[j]] == u.txns;
  }
}
