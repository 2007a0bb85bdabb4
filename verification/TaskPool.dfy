// The bounded task pool (runtime/src/task_pool.cpp): frames, grants, the queue of a Queue
// pool and the tickets of an AwaitSlot pool.
module TaskPool {
  import opened Common
  import opened Counting

  datatype Overflow = Reject | AwaitSlot | Queue

  datatype Desc = Desc(maxInstances: nat, resultCapacity: nat, queueDepth: nat, overflow: Overflow)

  datatype TaskState = Queued | Runnable | Waiting | Completed | Failed | Cancelled

  datatype TicketState = Pending | Granted | Consumed | TicketCancelled | TicketFailed

  datatype Task = Task(used: bool, reserved: bool, generation: nat, state: TaskState, released: bool, execution: nat) {
    predicate Active() {
      used && (state.Runnable? || state.Waiting?)
    }
    predicate Terminal() {
      state.Completed? || state.Failed? || state.Cancelled?
    }
    predicate Available() {
      !used && !reserved && generation != MAX64
    }
  }

  datatype Ticket = Ticket(used: bool, generation: nat, waiter: nat, scope: nat, state: TicketState, waiting: bool, slot: nat) {
    predicate IsGranted() {
      used && state.Granted?
    }
    // The waiter is suspended on this ticket.
    predicate Awaits(process: nat) {
      used && waiting && state.Pending? && waiter == process
    }
  }

  // Names a task or a ticket.
  datatype Ref = Ref(slot: nat, generation: nat)

  datatype Pool = Pool(
    desc: Desc, tasks: seq<Task>, tickets: seq<Ticket>, queue: seq<Ref>, pending: seq<Ref>,
    frames: nat, grants: nat, next: nat)

  // What the stores around the pool answer during one call: the task slots whose results
  // nobody holds any more, how many result reservations succeed, whether the scope,
  // argument and publication checks pass, and whether the owner of a ticket is still valid.
  datatype Answers = Answers(dead: set<nat>, credit: nat, ok: bool, owner: bool)

  datatype Error = StaleHandle | WrongOwner | InvalidState | Unsupported | Capacity | Overflowed | Refused | Duplicate

  function NewPool(desc: Desc, tasks: nat, tickets: nat): Pool {
    Pool(desc,
         seq(tasks, _ => Task(false, false, 1, Cancelled, false, 0)),
         seq(tickets, _ => Ticket(false, 1, 0, 0, TicketCancelled, false, 0)),
         [], [], 0, 0, 2)
  }

  function IsUsed(t: Task): bool { t.used }
  function IsActive(t: Task): bool { t.Active() }
  function IsReserved(t: Task): bool { t.reserved }
  function IsGrantedTicket(t: Ticket): bool { t.IsGranted() }

  // --------------------------------------------------------------------------------
  // Operations.

  predicate IsTask(p: Pool, r: Ref) {
    r.slot < |p.tasks| && p.tasks[r.slot].used && p.tasks[r.slot].generation == r.generation
  }

  predicate IsTicket(p: Pool, r: Ref) {
    r.slot < |p.tickets| && p.tickets[r.slot].used && p.tickets[r.slot].generation == r.generation
  }

  function SetTask(p: Pool, i: nat, t: Task): Pool
    requires i < |p.tasks|
  {
    p.(tasks := p.tasks[i := t])
  }

  function SetTicket(p: Pool, i: nat, t: Ticket): Pool
    requires i < |p.tickets|
  {
    p.(tickets := p.tickets[i := t])
  }

  function ReapOne(t: Task, dead: bool): Task {
    if t.used && t.released && dead
    then t.(used := false, generation := if t.generation != MAX64 then t.generation + 1 else t.generation)
    else t
  }

  // Forgets finished tasks whose results are gone.
  function Reap(p: Pool, dead: set<nat>): Pool {
    p.(tasks := seq(|p.tasks|, i requires 0 <= i < |p.tasks| => ReapOne(p.tasks[i], i in dead)))
  }

  predicate FrameFree(p: Pool) {
    p.frames + p.grants < p.desc.maxInstances
  }

  // Starts queued tasks, oldest first, while frames are free.
  function StartQueued(p: Pool): (r: Pool)
    ensures r.desc == p.desc
    decreases |p.queue|
  {
    if p.queue == [] || !FrameFree(p) then p
    else
      var r := p.queue[0];
      var p' := p.(queue := p.queue[1..]);
      StartQueued(
        if IsTask(p, r) && p.tasks[r.slot].state.Queued?
        then SetTask(p', r.slot, p.tasks[r.slot].(state := Runnable)).(frames := p.frames + 1) else p')
  }

  function FindTask(tasks: seq<Task>, i: nat): (r: Option<nat>)
    requires i <= |tasks|
    ensures r.Some? ==> r.value < |tasks| && tasks[r.value].Available()
    decreases |tasks| - i
  {
    if i == |tasks| then None else if tasks[i].Available() then Some(i) else FindTask(tasks, i + 1)
  }

  // Gives free frames to pending tickets, oldest first.
  function GrantPending(p: Pool, credit: nat): (r: Pool)
    ensures r.desc == p.desc
    decreases |p.pending|
  {
    if p.pending == [] || !FrameFree(p) || Count(p.tasks, IsUsed) + p.grants >= p.desc.resultCapacity then p
    else
      var r := p.pending[0];
      if !IsTicket(p, r) || !p.tickets[r.slot].state.Pending? then GrantPending(p.(pending := p.pending[1..]), credit)
      else
        match FindTask(p.tasks, 0)
        case None => p
        case Some(i) =>
          if p.next == MAX64 then p
          else if credit == 0 then NameSlot(p, i)
          else GrantPending(Grant(NameSlot(p, i), r, i).(pending := p.pending[1..]), credit - 1)
  }

  // A free slot takes the next generation, whether or not the reservation then succeeds.
  function NameSlot(p: Pool, i: nat): (r: Pool)
    requires i < |p.tasks|
    ensures |r.tasks| == |p.tasks| && r.tickets == p.tickets
  {
    SetTask(p, i, p.tasks[i].(generation := p.next)).(next := p.next + 1)
  }

  function Grant(p: Pool, r: Ref, i: nat): Pool
    requires i < |p.tasks| && r.slot < |p.tickets|
  {
    SetTicket(SetTask(p, i, p.tasks[i].(reserved := true)), r.slot, p.tickets[r.slot].(state := Granted, slot := i)).(grants := p.grants + 1)
  }

  function Schedule(p: Pool, a: Answers): (r: Pool)
    ensures r.desc == p.desc
  {
    GrantPending(StartQueued(Reap(p, a.dead)), a.credit)
  }

  function Begin(t: Task, generation: nat, state: TaskState): Task {
    Task(true, false, generation, state, false, 0)
  }

  function Spawn(p0: Pool, queued: bool, a: Answers): (o: (Pool, Result<Ref, Error>))
    ensures o.0.desc == p0.desc
  {
    var p := Reap(p0, a.dead);
    if !a.ok then (p, Err(Refused))
    else if Count(p.tasks, IsUsed) + p.grants >= p.desc.resultCapacity then (p, Err(Capacity))
    else if !queued && !FrameFree(p) then (p, Err(Capacity))
    else if queued && |p.queue| >= p.desc.queueDepth then (p, Err(Capacity))
    else
      match FindTask(p.tasks, 0)
      case None => (p, Err(Capacity))
      case Some(i) =>
        if p.next == MAX64 then (p, Err(Overflowed))
        else if a.credit == 0 then (NameSlot(p, i), Err(Capacity))
        else
          var r := Ref(i, p.next);
          var p1 := NameSlot(p, i);
          if queued then (SetTask(p1, i, Begin(p1.tasks[i], p.next, Queued)).(queue := p.queue + [r]), Ok(r))
          else (SetTask(p1, i, Begin(p1.tasks[i], p.next, Runnable)).(frames := p.frames + 1), Ok(r))
  }

  function TrySpawn(p: Pool, a: Answers, b: Answers): (o: (Pool, Result<Ref, Error>))
    ensures o.0.desc == p.desc
  {
    Spawn(Schedule(p, a), false, b)
  }

  function SubmitQueued(p: Pool, a: Answers, b: Answers): (o: (Pool, Result<Ref, Error>))
    ensures o.0.desc == p.desc
  {
    if !p.desc.overflow.Queue? then (p, Err(Unsupported))
    else
      var p' := Schedule(p, a);
      Spawn(p', p'.frames >= p'.desc.maxInstances, b)
  }

  function FindTicket(tickets: seq<Ticket>, i: nat): (r: Option<nat>)
    requires i <= |tickets|
    ensures r.Some? ==> r.value < |tickets| && !tickets[r.value].used
    decreases |tickets| - i
  {
    if i == |tickets| then None
    else if !tickets[i].used && tickets[i].generation != MAX64 then Some(i)
    else FindTicket(tickets, i + 1)
  }

  function RequestSlot(p: Pool, waiter: nat, scope: nat, a: Answers): (o: (Pool, Result<Ref, Error>))
    ensures o.0.desc == p.desc
  {
    if !p.desc.overflow.AwaitSlot? then (p, Err(Unsupported))
    else
      match FindTicket(p.tickets, 0)
      case None => (p, Err(Capacity))
      case Some(i) =>
        if p.next == MAX64 then (p, Err(Overflowed))
        else if !a.ok then (SetTicket(p, i, p.tickets[i].(generation := p.next)).(next := p.next + 1), Err(Refused))
        else (Schedule(Ticketed(p, i, waiter, scope), a), Ok(Ref(i, p.next)))
  }

  function Ticketed(p: Pool, i: nat, waiter: nat, scope: nat): Pool
    requires i < |p.tickets|
  {
    SetTicket(p, i, Ticket(true, p.next, waiter, scope, Pending, false, 0)).(next := p.next + 1, pending := p.pending + [Ref(i, p.next)])
  }

  // A granted ticket turns into a running task, or gives its grant back.
  function SpawnReserved(p: Pool, r: Ref, waiter: nat, scope: nat, a: Answers): (o: (Pool, Result<Ref, Error>))
    ensures o.0.desc == p.desc
  {
    if !IsTicket(p, r) then (p, Err(StaleHandle))
    else
      var t := p.tickets[r.slot];
      if t.waiter != waiter || t.scope != scope then (p, Err(WrongOwner))
      else if !t.state.Granted? || t.slot >= |p.tasks| || p.grants == 0 then (p, Err(InvalidState))
      else if !a.owner then (p, Err(Refused))
      else if !a.ok then (Schedule(Returned(p, r, TicketFailed), a), Err(Refused))
      else (Schedule(Taken(p, r), a), Ok(Ref(t.slot, p.tasks[t.slot].generation)))
  }

  function Returned(p: Pool, r: Ref, s: TicketState): Pool
    requires r.slot < |p.tickets| && p.tickets[r.slot].slot < |p.tasks| && p.grants > 0
  {
    var t := p.tickets[r.slot];
    SetTicket(SetTask(p, t.slot, p.tasks[t.slot].(reserved := false)), r.slot, t.(state := s)).(grants := p.grants - 1)
  }

  function Taken(p: Pool, r: Ref): Pool
    requires r.slot < |p.tickets| && p.tickets[r.slot].slot < |p.tasks| && p.grants > 0
  {
    var t := p.tickets[r.slot];
    SetTicket(SetTask(p, t.slot, Begin(p.tasks[t.slot], p.tasks[t.slot].generation, Runnable)), r.slot, t.(state := Consumed))
      .(grants := p.grants - 1, frames := p.frames + 1)
  }

  // Takes a pending or granted ticket back.
  function Withdraw(p: Pool, r: Ref): (o: Result<Pool, Error>)
    requires IsTicket(p, r)
    ensures o.Ok? ==> o.value.desc == p.desc
  {
    var t := p.tickets[r.slot];
    if t.state.Granted? then
      if t.slot < |p.tasks| && p.grants > 0 then Ok(Returned(p, r, TicketCancelled).(pending := Without(p.pending, r)))
      else Err(InvalidState)
    else if t.state.Pending? then Ok(SetTicket(p, r.slot, t.(state := TicketCancelled)).(pending := Without(p.pending, r)))
    else Err(InvalidState)
  }

  function CancelTicket(p: Pool, r: Ref, waiter: nat, scope: nat, a: Answers): (o: (Pool, Result<(), Error>))
    ensures o.0.desc == p.desc
  {
    if !IsTicket(p, r) then (p, Err(StaleHandle))
    else if p.tickets[r.slot].waiter != waiter || p.tickets[r.slot].scope != scope then (p, Err(WrongOwner))
    else if p.tickets[r.slot].state.TicketCancelled? then (p, Ok(()))
    else
      match Withdraw(p, r)
      case Err(e) => (p, Err(e))
      case Ok(p') => (Schedule(p', a), Ok(()))
  }

  function Without(s: seq<Ref>, r: Ref): (out: seq<Ref>)
    ensures forall x :: x in out <==> x in s && x != r
  {
    if s == [] then [] else if s[0] == r then Without(s[1..], r) else [s[0]] + Without(s[1..], r)
  }

  // `a.ok` says that no result reservation is left behind.
  function ReleaseTicket(p: Pool, r: Ref, a: Answers): (Pool, Result<(), Error>) {
    if !IsTicket(p, r) then (p, Err(StaleHandle))
    else
      var t := p.tickets[r.slot];
      if t.state.Pending? || t.state.Granted? || !a.ok then (p, Err(InvalidState))
      else
        (SetTicket(p, r.slot, t.(used := false, generation := if t.generation != MAX64 then t.generation + 1 else t.generation)), Ok(()))
  }

  function BindExecution(p: Pool, r: Ref, process: nat): (Pool, Result<(), Error>) {
    if !IsTask(p, r) then (p, Err(StaleHandle))
    else
      var t := p.tasks[r.slot];
      if process == 0 then (p, Err(InvalidState))
      else if !t.Active() then (p, Err(InvalidState))
      else if t.execution != 0 && t.execution != process then (p, Err(WrongOwner))
      else if exists i :: 0 <= i < |p.tasks| && i != r.slot && p.tasks[i].execution == process && p.tasks[i].Active() then (p, Err(Duplicate))
      else (SetTask(p, r.slot, t.(execution := process)), Ok(()))
  }

  // `a.ok` says that the dependency check found no closed knot.
  function BeginSlotWait(p: Pool, r: Ref, process: nat, scope: nat, a: Answers): (Pool, Result<(), Error>) {
    if !IsTicket(p, r) then (p, Err(StaleHandle))
    else
      var t := p.tickets[r.slot];
      if t.waiter != process || t.scope != scope then (p, Err(WrongOwner))
      else if t.state.Granted? then (p, Ok(()))
      else if !t.state.Pending? then (p, Err(InvalidState))
      else if t.waiting then (p, Err(Duplicate))
      else if !a.ok then (p, Err(Refused))
      else (SetTicket(p, r.slot, t.(waiting := true)), Ok(()))
  }

  // Publishes the outcome and gives the frame, or the place in the queue, back.
  function Retire(p: Pool, r: Ref, outcome: TaskState, ok: bool): (o: Result<Pool, Error>)
    requires outcome.Completed? || outcome.Failed? || outcome.Cancelled?
    ensures o.Ok? ==> o.value.desc == p.desc
  {
    if !IsTask(p, r) then Err(StaleHandle)
    else
      var t := p.tasks[r.slot];
      if t.released then Err(Duplicate)
      else if t.state.Queued? && !outcome.Cancelled? then Err(InvalidState)
      else if !ok then Err(Refused)
      else if t.state.Queued? then Ok(Finished(p, r, outcome).(queue := Without(p.queue, r)))
      else if p.frames == 0 then Err(InvalidState)
      else Ok(Finished(p, r, outcome).(frames := p.frames - 1))
  }

  function Complete(p: Pool, r: Ref, outcome: TaskState, a: Answers): (o: (Pool, Result<(), Error>))
    requires outcome.Completed? || outcome.Failed? || outcome.Cancelled?
    ensures o.0.desc == p.desc
  {
    match Retire(p, r, outcome, a.ok)
    case Err(e) => (p, Err(e))
    case Ok(p') => (Schedule(p', a), Ok(()))
  }

  function Finished(p: Pool, r: Ref, outcome: TaskState): Pool
    requires r.slot < |p.tasks|
  {
    SetTask(p, r.slot, p.tasks[r.slot].(state := outcome, released := true))
  }
}
