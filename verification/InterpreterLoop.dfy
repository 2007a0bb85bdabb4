// The dispatch loop of `Interpreter::execute_at`: registers, transaction, trace and fuel are
// updated in place. It computes exactly the outcome that Interpreter.Run defines.
module InterpreterLoop {
  import opened Common
  import opened ExecIR
  import opened Interpreter

  method ExecuteAt(env: Env, id: nat, args: seq<Value>, start: Option<nat>, store: Store, fuel: nat, depth: nat)
    returns (o: Outcome)
    ensures o == Run(env, id, args, start, store, fuel, depth)
    decreases fuel, 1
  {
    var program := FindProgram(env.p.programs, id);
    if program.None? {
      return Abort(ProgramNotFound, fuel);
    }
    var pr := program.value;
    if depth > MAX_CALL_DEPTH {
      return Abort(CallDepthBound, fuel);
    }
    var first := FindBlock(pr.blocks, if start.Some? then start.value else pr.entry);
    if first.None? {
      return Abort(StartBlockMissing, fuel);
    }
    var b := first.value;
    if |args| != |b.parameters| {
      return Abort(InputArity, fuel);
    }
    if !AllFit(env.p, RegTypes(b.parameters), args) {
      return Abort(InputType, fuel);
    }
    if |store.cells| != |env.p.stateTypes| {
      return Abort(StateShape, fuel);
    }
    if !AllFit(env.p, env.p.stateTypes, store.cells) {
      return Abort(StateType, fuel);
    }
    o := Dispatch(env, pr, b, Machine(BindAll(map[], b.parameters, args), store, []), fuel, depth);
  }

  method Dispatch(env: Env, pr: Program, b0: Block, m0: Machine, fuel: nat, depth: nat) returns (o: Outcome)
    ensures o == Exec(env, pr, b0, 0, m0, fuel, depth)
    decreases fuel, 0
  {
    var b, m := b0, m0;
    var left: nat := fuel;
    ghost var goal := Exec(env, pr, b0, 0, m0, fuel, depth);
    while true
      invariant left <= fuel && goal == Exec(env, pr, b, 0, m, left, depth)
      decreases left
    {
      ghost var entered := left;
      var stopped;
      stopped, o, m, left := RunBlock(env, pr, b, m, left, depth);
      if stopped {
        return;
      }
      if left == 0 {
        return Abort(FuelExhausted, 0);
      }
      if !(b.terminator.Jump? || b.terminator.Branch? || b.terminator.Switch?) {
        return Finish(env, pr, b, m, left, depth);
      }
      var edge := SelectEdge(m.regs, b.terminator);
      if edge.None? {
        return Abort(Invariant, left - 1);
      }
      var incoming := ReadAll(m.regs, edge.value.args);
      var target := FindBlock(pr.blocks, edge.value.target);
      if incoming.None? || target.None? || |incoming.value| > |target.value.parameters| {
        return Abort(Invariant, left - 1);
      }
      m := m.(regs := BindAll(m.regs, target.value.parameters[..|incoming.value|], incoming.value));
      b, left := target.value, left - 1;
    }
  }

  // The instructions of one block, in order.
  method RunBlock(env: Env, pr: Program, b: Block, m0: Machine, fuel: nat, depth: nat)
    returns (stopped: bool, o: Outcome, m: Machine, left: nat)
    ensures left <= fuel
    ensures stopped ==> o == Exec(env, pr, b, 0, m0, fuel, depth)
    ensures !stopped ==> Exec(env, pr, b, |b.instructions|, m, left, depth) == Exec(env, pr, b, 0, m0, fuel, depth)
    decreases fuel, 0, 0
  {
    m, left, stopped, o := m0, fuel, false, Abort(FuelExhausted, 0);
    ghost var goal := Exec(env, pr, b, 0, m0, fuel, depth);
    for k := 0 to |b.instructions|
      invariant left <= fuel && goal == Exec(env, pr, b, k, m, left, depth)
    {
      if left == 0 {
        return true, Abort(FuelExhausted, 0), m, 0;
      }
      var i := b.instructions[k];
      var args := ReadAll(m.regs, i.args);
      if args.None? {
        return true, Abort(Invariant, left - 1), m, left;
      }
      var s := PerformOne(env, i, args.value, m, left - 1, depth);
      UnfoldInstruction(env, pr, b, k, m, left, depth, args.value, s);
      match s {
        case Stop(e, rest) =>
          return true, Abort(e, rest), m, rest;
        case Next(out, m', rest) =>
          if i.dest.Some? && !Fits(env.p, i.dest.value.ty, out) {
            return true, Abort(ComputedType(i.op), rest), m', rest;
          }
          m, left := Assign(m', i.dest, out), rest;
      }
    }
  }

  // A pure call re-enters the interpreter with the same fuel counter.
  method PerformOne(env: Env, i: Instruction, args: seq<Value>, m: Machine, fuel: nat, depth: nat) returns (s: Step)
    requires |args| == |i.args|
    ensures s == Perform(env, i, args, m, fuel, depth)
    decreases fuel, 2
  {
    if i.op.CallPure? {
      var called := ExecuteAt(env, i.immediate, args, None, m.store, fuel, depth + 1);
      match called {
        case Abort(e, left) => s := Stop(e, left);
        case Done(segment, store, _, left) =>
          if segment.Returned? && |segment.values| == 1 {
            s := Next(segment.values[0], m.(store := store), left);
          } else {
            s := Stop(PureCallFailed, left);
          }
      }
    } else {
      s := Perform(env, i, args, m, fuel, depth);
    }
  }

  // The terminators that end a segment.
  function Finish(env: Env, pr: Program, b: Block, m: Machine, left: nat, depth: nat): (o: Outcome)
    requires left > 0 && !(b.terminator.Jump? || b.terminator.Branch? || b.terminator.Switch?)
    ensures o == Exec(env, pr, b, |b.instructions|, m, left, depth)
  {
    match b.terminator
    case TransportReturn(reply) =>
      if reply.id in m.regs then Done(TransportReturned(m.regs[reply.id]), m.store, m.traces, left - 1)
      else Abort(Invariant, left - 1)
    case Suspend(wait, resume, live) =>
      if wait.id !in m.regs || !m.regs[wait.id].Hnd? then Abort(Invariant, left - 1) else
      var values := ReadAll(m.regs, live);
      if values.None? then Abort(Invariant, left - 1)
      else if !env.acceptSuspend(m.regs[wait.id].handle, resume, values.value) then Abort(SuspendRefused, left - 1)
      else Done(Suspended(m.regs[wait.id].handle, resume, values.value), m.store, m.traces, left - 1)
    case Return(values) =>
      var vs := ReadAll(m.regs, values);
      if vs.None? then Abort(Invariant, left - 1) else Done(Returned(vs.value), m.store, m.traces, left - 1)
    case Fail(e) => Done(Failed(e), m.store, m.traces, left - 1)
  }
}
