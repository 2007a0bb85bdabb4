// The ExecIR interpreter (runtime/src/interpreter.cpp). Every lookup that the
// implementation performs without checking (`regs.at`, `std::get`, indexing) is a fault
// `Invariant` here, so that its absence is a theorem and not an assumption.
module Interpreter {
  import opened Common
  import opened ExecIR
  import Numeric

  datatype Error =
    | Invariant
    | ComputedType(op: Op)
    | NumericFault(fault: Numeric.Error)
    | FuelExhausted
    | VariantTagMismatch
    | IndexOutOfRange
    | CheckFailed(text: string)
    | WriteCapacity
    | TraceBudget
    | ProgramNotFound
    | CallDepthBound
    | StartBlockMissing
    | InputArity
    | InputType
    | StateShape
    | StateType
    | PureCallFailed
    | ServiceUnavailable
    | ServiceFailure
    | ServiceArity
    | SuspendRefused

  // The host: service providers and suspension are functions of what they are given.
  datatype Env = Env(
    p: Project, now: u64, maxWrites: nat,
    invoke: (nat, seq<Value>) -> Option<seq<Value>>,
    acceptSuspend: (Handle, nat, seq<Value>) -> bool)

  // Committed cells and the writes staged by the transaction.
  datatype Store = Store(cells: seq<Value>, writes: map<nat, Value>) {
    function Read(i: nat): Value
      requires i < |cells|
    {
      if i in writes then writes[i] else cells[i]
    }
  }

  datatype TraceEvent = TraceEvent(kind: string, values: seq<Value>)

  datatype Machine = Machine(regs: map<nat, Value>, store: Store, traces: seq<TraceEvent>)

  datatype Segment =
    | Returned(values: seq<Value>)
    | Failed(error: string)
    | TransportReturned(reply: Value)
    | Suspended(wait: Handle, resume: nat, live: seq<Value>)

  datatype Outcome =
    | Done(segment: Segment, store: Store, traces: seq<TraceEvent>, fuel: nat)
    | Abort(error: Error, fuel: nat)

  // The effect of one instruction before its destination is written.
  datatype Step =
    | Next(out: Value, machine: Machine, fuel: nat)
    | Stop(error: Error, fuel: nat)

  const MAX_CALL_DEPTH: nat := 64
  const MAX_TRACES: nat := 65536

  function ReadAll(regs: map<nat, Value>, rs: seq<Reg>): (r: Option<seq<Value>>)
    ensures r.Some? ==> |r.value| == |rs|
  {
    if forall i :: 0 <= i < |rs| ==> rs[i].id in regs
    then Some(seq(|rs|, i requires 0 <= i < |rs| => regs[rs[i].id]))
    else None
  }

  // Parallel assignment of block parameters.
  function BindAll(regs: map<nat, Value>, ps: seq<Reg>, vs: seq<Value>): map<nat, Value>
    requires |ps| == |vs|
  {
    if ps == [] then regs
    else BindAll(regs, ps[..|ps| - 1], vs[..|vs| - 1])[ps[|ps| - 1].id := vs[|vs| - 1]]
  }

  function Lift(r: Result<Value, Numeric.Error>): Result<Value, Error> {
    match r
    case Ok(v) => Ok(v)
    case Err(e) => Err(NumericFault(e))
  }

  function EvalBinary(p: Project, i: Instruction, x: Value, y: Value): Result<Value, Error> {
    match i.binary
    case EqOp => Ok(Bool(x == y))
    case AndOp => if x.Bool? && y.Bool? then Ok(Bool(x.b && y.b)) else Err(Invariant)
    case OrOp => if x.Bool? && y.Bool? then Ok(Bool(x.b || y.b)) else Err(Invariant)
    case LtOp => if x.Num? && y.Num? then Ok(Bool(x.n < y.n)) else Err(Invariant)
    case op =>
      if x.Num? && y.Num? && i.args != [] && HasKind(p, i.args[0].ty, TBits) && 1 <= p.types[i.args[0].ty].bound <= 64
      then Lift(Numeric.EvalArith(op, x.n, y.n, p.types[i.args[0].ty].bound))
      else Err(Invariant)
  }

  // The numeric width of a type; zero when it is not a bit vector.
  function Width(p: Project, t: nat): nat
    requires t < |p.types|
  {
    if p.types[t].kind.TBits? then p.types[t].bound else 0
  }

  // The value computed by an instruction that changes nothing but its destination.
  function EvalValue(env: Env, i: Instruction, args: seq<Value>, store: Store): Result<Value, Error>
    requires |args| == |i.args|
  {
    var p := env.p;
    match i.op
    case Unary =>
      if |args| < 1 || i.args[0].ty >= |p.types| then Err(Invariant)
      else Lift(Numeric.EvalUnary(i.immediate, args[0], Width(p, i.args[0].ty)))
    case Compare =>
      if |args| < 2 || i.args[0].ty >= |p.types| then Err(Invariant)
      else Lift(Numeric.EvalCompare(i.immediate, args[0], args[1], Width(p, i.args[0].ty)))
    case Convert =>
      if |args| < 1 || i.args[0].ty >= |p.types| || i.dest.None? || i.dest.value.ty >= |p.types| then Err(Invariant)
      else Lift(Numeric.EvalConvert(i.immediate, args[0], Width(p, i.args[0].ty), p.types[i.dest.value.ty].bound))
    case GetNow => Ok(Num(env.now))
    case Const => Ok(i.value)
    case Move => if |args| < 1 then Err(Invariant) else Ok(args[0])
    case Binary => if |args| < 2 then Err(Invariant) else EvalBinary(p, i, args[0], args[1])
    case SelectValue =>
      if |args| < 3 || !args[0].Bool? then Err(Invariant)
      else Ok(if args[0].b then args[1] else args[2])
    case MakeRecord | MakeVec => Ok(Array(args))
    case MakeVariant => if i.immediate < TWO64 then Ok(Array([Num(i.immediate), Array(args)])) else Err(Invariant)
    case GetField =>
      if |args| < 1 || !args[0].Array? || i.immediate >= |args[0].elems| then Err(Invariant)
      else Ok(args[0].elems[i.immediate])
    case VariantTag =>
      if |args| < 1 || !args[0].Array? || |args[0].elems| < 1 then Err(Invariant) else Ok(args[0].elems[0])
    case VariantGet =>
      if |args| < 1 || !args[0].Array? || |args[0].elems| < 2 || !args[0].elems[0].Num? then Err(Invariant)
      else if args[0].elems[0].n != i.immediate / 65536 then Err(VariantTagMismatch)
      else if !args[0].elems[1].Array? || i.immediate % 65536 >= |args[0].elems[1].elems| then Err(Invariant)
      else Ok(args[0].elems[1].elems[i.immediate % 65536])
    case VecGet =>
      if |args| < 2 || !args[0].Array? || !args[1].Num? then Err(Invariant)
      else if args[1].n >= |args[0].elems| then Err(IndexOutOfRange)
      else Ok(args[0].elems[args[1].n])
    case VecSet =>
      if |args| < 3 || !args[0].Array? || !args[1].Num? then Err(Invariant)
      else if args[1].n >= |args[0].elems| then Err(IndexOutOfRange)
      else Ok(Array(args[0].elems[args[1].n := args[2]]))
    case LoadState => if i.immediate < |store.cells| then Ok(store.Read(i.immediate)) else Err(Invariant)
    case _ => Ok(Unit)
  }

  // Instructions with an effect on the transaction or the trace.
  function EvalEffect(env: Env, i: Instruction, args: seq<Value>, m: Machine): Result<Machine, Error>
    requires |args| == |i.args|
  {
    match i.op
    case BufferStateWrite =>
      if |args| < 1 || i.immediate >= |m.store.cells| then Err(Invariant)
      else if i.immediate !in m.store.writes && |m.store.writes| >= env.maxWrites then Err(WriteCapacity)
      else Ok(m.(store := m.store.(writes := m.store.writes[i.immediate := args[0]])))
    case Check =>
      if |args| < 1 || !args[0].Bool? then Err(Invariant)
      else if args[0].b then Ok(m) else Err(CheckFailed(i.text))
    case Trace =>
      if |m.traces| >= MAX_TRACES then Err(TraceBudget)
      else Ok(m.(traces := m.traces + [TraceEvent(i.text, args)]))
    case _ => Ok(m)
  }

  function Perform(env: Env, i: Instruction, args: seq<Value>, m: Machine, fuel: nat, depth: nat): (s: Step)
    requires |args| == |i.args|
    ensures s.fuel <= fuel
    decreases fuel, 3
  {
    match i.op
    case CallPure =>
      (match Run(env, i.immediate, args, None, m.store, fuel, depth + 1)
       case Abort(e, left) => Stop(e, left)
       case Done(Returned(vs), store, _, left) =>
         if |vs| == 1 then Next(vs[0], m.(store := store), left) else Stop(PureCallFailed, left)
       case Done(_, _, _, left) => Stop(PureCallFailed, left))
    case Service(_) =>
      if i.immediate !in env.p.services then Stop(ServiceUnavailable, fuel) else
      var s := env.p.services[i.immediate];
      if fuel < s.extraFuel then Stop(FuelExhausted, fuel) else
      (match env.invoke(i.immediate, args)
       case None => Stop(ServiceFailure, fuel - s.extraFuel)
       case Some(results) =>
         if |results| != |s.resultTypes| then Stop(ServiceArity, fuel - s.extraFuel)
         else if i.dest.Some? && results == [] then Stop(Invariant, fuel - s.extraFuel)
         else Next(if i.dest.Some? then results[0] else Unit, m, fuel - s.extraFuel))
    case _ =>
      match EvalEffect(env, i, args, m)
      case Err(e) => Stop(e, fuel)
      case Ok(m') =>
        match EvalValue(env, i, args, m.store)
        case Err(e) => Stop(e, fuel)
        case Ok(out) => Next(out, m', fuel)
  }

  function Assign(m: Machine, dest: Option<Reg>, out: Value): Machine {
    if dest.Some? then m.(regs := m.regs[dest.value.id := out]) else m
  }

  // The edge a terminator selects; None when its operand cannot be read.
  function SelectEdge(regs: map<nat, Value>, t: Terminator): Option<Edge>
    requires t.Jump? || t.Branch? || t.Switch?
  {
    match t
    case Jump(yes) => Some(yes)
    case Branch(cond, yes, no) =>
      if cond.id in regs && regs[cond.id].Bool? then Some(if regs[cond.id].b then yes else no) else None
    case Switch(on, cases, no) =>
      if on.id in regs && regs[on.id].Num? then Some(SelectCase(cases, regs[on.id].n, no)) else None
  }

  function SelectCase(cases: seq<(u64, Edge)>, tag: u64, no: Edge): (e: Edge)
    ensures e == no || exists i :: 0 <= i < |cases| && cases[i].0 == tag && cases[i].1 == e
  {
    if cases == [] then no
    else if cases[0].0 == tag then cases[0].1
    else SelectCase(cases[1..], tag, no)
  }

  // Execution from instruction `k` of block `b`; one unit of fuel per instruction and
  // per terminator, in nested calls too, so fuel bounds every run.
  function Exec(env: Env, pr: Program, b: Block, k: nat, m: Machine, fuel: nat, depth: nat): (o: Outcome)
    requires k <= |b.instructions|
    ensures o.fuel <= fuel
    decreases fuel, 1
  {
    if fuel == 0 then Abort(FuelExhausted, 0)
    else if k == |b.instructions| then Terminate(env, pr, b, m, fuel, depth)
    else
      var i := b.instructions[k];
      match ReadAll(m.regs, i.args)
      case None => Abort(Invariant, fuel - 1)
      case Some(args) => Continue(env, pr, b, k, depth, Perform(env, i, args, m, fuel - 1, depth))
  }

  // The rest of a block after its instruction `k` did `s`.
  function Continue(env: Env, pr: Program, b: Block, k: nat, depth: nat, s: Step): (o: Outcome)
    requires k < |b.instructions|
    ensures o.fuel <= s.fuel
    decreases s.fuel, 2
  {
    match s
    case Stop(e, left) => Abort(e, left)
    case Next(out, m', left) =>
      var i := b.instructions[k];
      if i.dest.Some? && !Fits(env.p, i.dest.value.ty, out) then Abort(ComputedType(i.op), left)
      else Exec(env, pr, b, k + 1, Assign(m', i.dest, out), left, depth)
  }

  // The end of a block.
  function Terminate(env: Env, pr: Program, b: Block, m: Machine, fuel: nat, depth: nat): (o: Outcome)
    requires fuel > 0
    ensures o.fuel < fuel
    decreases fuel, 0
  {
    match b.terminator
    case TransportReturn(reply) =>
      if reply.id in m.regs then Done(TransportReturned(m.regs[reply.id]), m.store, m.traces, fuel - 1)
      else Abort(Invariant, fuel - 1)
    case Suspend(wait, resume, live) =>
      if wait.id !in m.regs || !m.regs[wait.id].Hnd? then Abort(Invariant, fuel - 1) else
      (match ReadAll(m.regs, live)
       case None => Abort(Invariant, fuel - 1)
       case Some(values) =>
         if !env.acceptSuspend(m.regs[wait.id].handle, resume, values) then Abort(SuspendRefused, fuel - 1)
         else Done(Suspended(m.regs[wait.id].handle, resume, values), m.store, m.traces, fuel - 1))
    case Return(values) =>
      (match ReadAll(m.regs, values)
       case None => Abort(Invariant, fuel - 1)
       case Some(vs) => Done(Returned(vs), m.store, m.traces, fuel - 1))
    case Fail(e) => Done(Failed(e), m.store, m.traces, fuel - 1)
    case t =>
      match SelectEdge(m.regs, t)
      case None => Abort(Invariant, fuel - 1)
      case Some(edge) =>
        match (ReadAll(m.regs, edge.args), FindBlock(pr.blocks, edge.target))
        case (Some(incoming), Some(target)) =>
          if |incoming| > |target.parameters| then Abort(Invariant, fuel - 1)
          else
            Exec(env, pr, target, 0,
                 m.(regs := BindAll(m.regs, target.parameters[..|incoming|], incoming)), fuel - 1, depth)
        case _ => Abort(Invariant, fuel - 1)
  }

  // One instruction, as an equation.
  lemma UnfoldInstruction(env: Env, pr: Program, b: Block, k: nat, m: Machine, fuel: nat, depth: nat, args: seq<Value>, s: Step)
    requires fuel > 0 && k < |b.instructions| && ReadAll(m.regs, b.instructions[k].args) == Some(args)
    requires s == Perform(env, b.instructions[k], args, m, fuel - 1, depth)
    ensures s.fuel < fuel && Exec(env, pr, b, k, m, fuel, depth) == Continue(env, pr, b, k, depth, s)
  {
  }

  // The block's edge `e` leads to `t` with the arguments bound in `m'`.
  predicate Lands(pr: Program, b: Block, m: Machine, e: Edge, args: seq<Value>, t: Block, m': Machine)
    requires b.terminator.Jump? || b.terminator.Branch? || b.terminator.Switch?
  {
    && SelectEdge(m.regs, b.terminator) == Some(e) && ReadAll(m.regs, e.args) == Some(args)
    && FindBlock(pr.blocks, e.target) == Some(t) && |args| == |t.parameters|
    && m' == m.(regs := BindAll(m.regs, t.parameters, args))
  }

  // One taken edge, as an equation.
  lemma UnfoldJump(env: Env, pr: Program, b: Block, m: Machine, fuel: nat, depth: nat, e: Edge, args: seq<Value>, t: Block,
                   m': Machine)
    requires fuel > 0 && (b.terminator.Jump? || b.terminator.Branch? || b.terminator.Switch?)
    requires Lands(pr, b, m, e, args, t, m')
    ensures Terminate(env, pr, b, m, fuel, depth) == Exec(env, pr, t, 0, m', fuel - 1, depth)
  {
    assert t.parameters[..|args|] == t.parameters;
  }

  // One segment: the admission checks of `execute_at`, then execution from the start block.
  function Run(env: Env, id: nat, args: seq<Value>, start: Option<nat>, store: Store, fuel: nat, depth: nat): (o: Outcome)
    ensures o.fuel <= fuel
    decreases fuel, 2
  {
    match FindProgram(env.p.programs, id)
    case None => Abort(ProgramNotFound, fuel)
    case Some(pr) =>
      if depth > MAX_CALL_DEPTH then Abort(CallDepthBound, fuel) else
      match FindBlock(pr.blocks, if start.Some? then start.value else pr.entry)
      case None => Abort(StartBlockMissing, fuel)
      case Some(b) =>
        if |args| != |b.parameters| then Abort(InputArity, fuel)
        else if !AllFit(env.p, RegTypes(b.parameters), args) then Abort(InputType, fuel)
        else if |store.cells| != |env.p.stateTypes| then Abort(StateShape, fuel)
        else if !AllFit(env.p, env.p.stateTypes, store.cells) then Abort(StateType, fuel)
        else Exec(env, pr, b, 0, Machine(BindAll(map[], b.parameters, args), store, []), fuel, depth)
  }

  // A process with its own instruction budget runs on the smaller of the two budgets and
  // charges the caller what it used.
  function BoundedRun(env: Env, id: nat, args: seq<Value>, start: Option<nat>, store: Store, fuel: nat): (o: Outcome)
    ensures o.fuel <= fuel
    ensures var pr := FindProgram(env.p.programs, id);
            pr.Some? && env.p.major >= 5 && pr.value.instructionFuel > 0 ==> fuel - o.fuel <= pr.value.instructionFuel
  {
    match FindProgram(env.p.programs, id)
    case Some(pr) =>
      if env.p.major < 5 || pr.instructionFuel == 0 then Run(env, id, args, start, store, fuel, 0)
      else
        var available := if fuel <= pr.instructionFuel then fuel else pr.instructionFuel;
        var o := Run(env, id, args, start, store, available, 0);
        var left := fuel - (available - o.fuel);
        (match o
         case Done(segment, s, traces, _) => Done(segment, s, traces, left)
         case Abort(e, _) => Abort(e, left))
    case None => Run(env, id, args, start, store, fuel, 0)
  }
}
