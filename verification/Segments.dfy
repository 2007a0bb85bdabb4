// Consequences for whole processes: chains of suspended and resumed segments, the
// meaning of purity, and the role of fuel.
module Segments {
  import opened Common
  import opened ExecIR
  import opened WellFormed
  import opened Interpreter
  import opened Soundness

  // A segment started by the host at call depth zero.
  lemma SegmentSound(env: Env, c: Certificate, id: nat, args: seq<Value>, start: Option<nat>, store: Store, fuel: nat)
    requires ProjectOK(env.p, c) && StoreTyped(env.p, store)
    requires Startable(env.p, c, id, start, args)
    ensures Safe(env.p, FindProgram(env.p.programs, id).value, c.facts[id], Run(env, id, args, start, store, fuel, 0))
  {
    assert CallsBelow(FindProgram(env.p.programs, id).value, c.pureHeights, FULL_DEPTH);
    RunSafe(env, c, id, args, start, store, fuel, 0);
  }

  // What a suspended segment hands to the host is what its resume point accepts,
  // whatever value of the declared type the wait delivers.
  lemma ResumeAccepted(env: Env, c: Certificate, id: nat, segment: Segment, store: Store, fuel: nat, result: Value)
    requires ProjectOK(env.p, c) && FindProgram(env.p.programs, id).Some? && id in c.facts
    requires segment.Suspended?
    requires Safe(env.p, FindProgram(env.p.programs, id).value, c.facts[id], Done(segment, store, [], fuel))
    ensures var t := FindBlock(FindProgram(env.p.programs, id).value.blocks, segment.resume);
            && t.Some?
            && t.value.parameters != []
            && (Fits(env.p, t.value.parameters[0].ty, result) ==>
                  Startable(env.p, c, id, Some(segment.resume), [result] + segment.live))
  {
    var pr := FindProgram(env.p.programs, id).value;
    ProgramFacts(env.p, c, pr);
    var t := FindBlock(pr.blocks, segment.resume).value;
    var args := [result] + segment.live;
    if Fits(env.p, t.parameters[0].ty, result) {
      forall i | 0 <= i < |args| ensures Fits(env.p, RegTypes(t.parameters)[i], args[i]) {
        if i > 0 {
          assert RegTypes(t.parameters[1..])[i - 1] == RegTypes(t.parameters)[i];
          assert Fits(env.p, RegTypes(t.parameters[1..])[i - 1], segment.live[i - 1]);
        }
      }
    }
  }

  // The cells after a committed transaction.
  function Committed(s: Store): Store {
    Store(seq(|s.cells|, i requires 0 <= i < |s.cells| => s.Read(i)), map[])
  }

  lemma CommittedTyped(p: Project, s: Store)
    requires StoreTyped(p, s)
    ensures StoreTyped(p, Committed(s))
  {
  }

  // The host side of one resumption: the value delivered by the wait, and a fuel budget.
  datatype Resumption = Resumption(result: Value, fuel: nat)

  // A process: the first segment, then one segment for each resumption for as long as the
  // previous one suspended and the delivered value has the type of the wait parameter.
  function Process(env: Env, id: nat, args: seq<Value>, start: Option<nat>, store: Store, fuel: nat,
                   steps: seq<Resumption>): (os: seq<Outcome>)
    decreases |steps|
  {
    var o := Run(env, id, args, start, store, fuel, 0);
    if steps == [] || o.Abort? || !o.segment.Suspended? then [o]
    else
      var pr := FindProgram(env.p.programs, id);
      var t := if pr.Some? then FindBlock(pr.value.blocks, o.segment.resume) else None;
      if t.None? || t.value.parameters == [] || !Fits(env.p, t.value.parameters[0].ty, steps[0].result) then [o]
      else
        [o] + Process(env, id, [steps[0].result] + o.segment.live, Some(o.segment.resume),
                      Committed(o.store), steps[0].fuel, steps[1..])
  }

  // Soundness of every run of a process, across any number of suspensions.
  lemma {:induction false} ProcessSound(env: Env, c: Certificate, id: nat, args: seq<Value>, start: Option<nat>,
                                        store: Store, fuel: nat, steps: seq<Resumption>)
    requires ProjectOK(env.p, c) && StoreTyped(env.p, store)
    requires Startable(env.p, c, id, start, args)
    ensures forall o :: o in Process(env, id, args, start, store, fuel, steps) ==>
                          Safe(env.p, FindProgram(env.p.programs, id).value, c.facts[id], o)
    decreases |steps|
  {
    var o := Run(env, id, args, start, store, fuel, 0);
    SegmentSound(env, c, id, args, start, store, fuel);
    if steps != [] && o.Done? && o.segment.Suspended? {
      ResumeAccepted(env, c, id, o.segment, o.store, o.fuel, steps[0].result);
      var t := FindBlock(FindProgram(env.p.programs, id).value.blocks, o.segment.resume).value;
      if Fits(env.p, t.parameters[0].ty, steps[0].result) {
        CommittedTyped(env.p, o.store);
        ProcessSound(env, c, id, [steps[0].result] + o.segment.live, Some(o.segment.resume),
                     Committed(o.store), steps[0].fuel, steps[1..]);
      }
    }
  }

  // --------------------------------------------------------------------------------
  // Fuel.

  function AddFuel(o: Outcome, extra: nat): Outcome {
    match o
    case Done(segment, store, traces, fuel) => Done(segment, store, traces, fuel + extra)
    case Abort(e, fuel) => Abort(e, fuel + extra)
  }

  function AddStepFuel(s: Step, extra: nat): Step {
    match s
    case Next(out, m, fuel) => Next(out, m, fuel + extra)
    case Stop(e, fuel) => Stop(e, fuel + extra)
  }

  predicate OutOfFuel(o: Outcome) {
    o.Abort? && o.error.FuelExhausted?
  }

  lemma {:induction false} PerformFuel(env: Env, i: Instruction, args: seq<Value>, m: Machine, fuel: nat, depth: nat, extra: nat)
    requires |args| == |i.args|
    requires var s := Perform(env, i, args, m, fuel, depth); !(s.Stop? && s.error.FuelExhausted?)
    ensures Perform(env, i, args, m, fuel + extra, depth) == AddStepFuel(Perform(env, i, args, m, fuel, depth), extra)
    decreases fuel, 2
  {
    if i.op.CallPure? {
      RunFuel(env, i.immediate, args, None, m.store, fuel, depth + 1, extra);
    } else {
      DirectFuel(env, i, args, m, fuel, depth, extra);
    }
  }

  lemma DirectFuel(env: Env, i: Instruction, args: seq<Value>, m: Machine, fuel: nat, depth: nat, extra: nat)
    requires |args| == |i.args| && !i.op.CallPure?
    requires var s := Perform(env, i, args, m, fuel, depth); !(s.Stop? && s.error.FuelExhausted?)
    ensures Perform(env, i, args, m, fuel + extra, depth) == AddStepFuel(Perform(env, i, args, m, fuel, depth), extra)
  {
  }

  lemma {:induction false} ExecFuel(env: Env, pr: Program, b: Block, k: nat, m: Machine, fuel: nat, depth: nat, extra: nat)
    requires k <= |b.instructions| && !OutOfFuel(Exec(env, pr, b, k, m, fuel, depth))
    ensures Exec(env, pr, b, k, m, fuel + extra, depth) == AddFuel(Exec(env, pr, b, k, m, fuel, depth), extra)
    decreases fuel, 0
  {
    if k < |b.instructions| {
      var args := ReadAll(m.regs, b.instructions[k].args);
      if args.Some? {
        InstructionFuel(env, pr, b, k, m, fuel, depth, extra, args.value);
      }
    } else if b.terminator.Jump? || b.terminator.Branch? || b.terminator.Switch? {
      JumpFuel(env, pr, b, m, fuel, depth, extra);
    }
  }

  lemma {:induction false} InstructionFuel(env: Env, pr: Program, b: Block, k: nat, m: Machine, fuel: nat, depth: nat,
                                           extra: nat, args: seq<Value>)
    requires k < |b.instructions| && fuel > 0 && ReadAll(m.regs, b.instructions[k].args) == Some(args)
    requires !OutOfFuel(Exec(env, pr, b, k, m, fuel, depth))
    ensures Exec(env, pr, b, k, m, fuel + extra, depth) == AddFuel(Exec(env, pr, b, k, m, fuel, depth), extra)
    decreases fuel - 1, 3
  {
    var i := b.instructions[k];
    var s := Perform(env, i, args, m, fuel - 1, depth);
    UnfoldInstruction(env, pr, b, k, m, fuel, depth, args, s);
    UnfoldInstruction(env, pr, b, k, m, fuel + extra, depth, args, Perform(env, i, args, m, fuel + extra - 1, depth));
    PerformFuel(env, i, args, m, fuel - 1, depth, extra);
    ContinueFuel(env, pr, b, k, depth, s, extra);
  }

  lemma {:induction false} ContinueFuel(env: Env, pr: Program, b: Block, k: nat, depth: nat, s: Step, extra: nat)
    requires k < |b.instructions| && !OutOfFuel(Continue(env, pr, b, k, depth, s))
    ensures Continue(env, pr, b, k, depth, AddStepFuel(s, extra)) == AddFuel(Continue(env, pr, b, k, depth, s), extra)
    decreases s.fuel, 1
  {
    var i := b.instructions[k];
    if s.Next? && (i.dest.Some? ==> Fits(env.p, i.dest.value.ty, s.out)) {
      ExecFuel(env, pr, b, k + 1, Assign(s.machine, i.dest, s.out), s.fuel, depth, extra);
    }
  }

  lemma {:induction false} JumpFuel(env: Env, pr: Program, b: Block, m: Machine, fuel: nat, depth: nat, extra: nat)
    requires fuel > 0 && (b.terminator.Jump? || b.terminator.Branch? || b.terminator.Switch?)
    requires !OutOfFuel(Terminate(env, pr, b, m, fuel, depth))
    ensures Terminate(env, pr, b, m, fuel + extra, depth) == AddFuel(Terminate(env, pr, b, m, fuel, depth), extra)
    decreases fuel - 1, 3
  {
    var e := SelectEdge(m.regs, b.terminator);
    if e.Some? {
      var args, t := ReadAll(m.regs, e.value.args), FindBlock(pr.blocks, e.value.target);
      if args.Some? && t.Some? && |args.value| <= |t.value.parameters| {
        var n := m.(regs := BindAll(m.regs, t.value.parameters[..|args.value|], args.value));
        ExecFuel(env, pr, t.value, 0, n, fuel - 1, depth, extra);
      }
    }
  }

  // Fuel only decides whether a run is cut short: a run that does not exhaust its fuel
  // ends the same way, at the same cost, with any larger amount.
  lemma {:induction false} RunFuel(env: Env, id: nat, args: seq<Value>, start: Option<nat>, store: Store, fuel: nat,
                                   depth: nat, extra: nat)
    requires !OutOfFuel(Run(env, id, args, start, store, fuel, depth))
    ensures Run(env, id, args, start, store, fuel + extra, depth) ==
            AddFuel(Run(env, id, args, start, store, fuel, depth), extra)
    decreases fuel, 1
  {
    var pr := FindProgram(env.p.programs, id);
    if pr.Some? {
      var b := FindBlock(pr.value.blocks, if start.Some? then start.value else pr.value.entry);
      if b.Some? && |args| == |b.value.parameters| && !OutOfFuel(Exec(env, pr.value, b.value, 0,
           Machine(BindAll(map[], b.value.parameters, args), store, []), fuel, depth)) {
        ExecFuel(env, pr.value, b.value, 0, Machine(BindAll(map[], b.value.parameters, args), store, []), fuel, depth, extra);
      }
    }
  }

  // A process budget changes nothing but the point where fuel runs out, and the caller is
  // charged exactly what was consumed.
  lemma BudgetTransparent(env: Env, id: nat, args: seq<Value>, start: Option<nat>, store: Store, fuel: nat)
    ensures var o := BoundedRun(env, id, args, start, store, fuel);
            OutOfFuel(o) || o == Run(env, id, args, start, store, fuel, 0)
  {
    var pr := FindProgram(env.p.programs, id);
    if pr.Some? && env.p.major >= 5 && pr.value.instructionFuel > 0 {
      var available := if fuel <= pr.value.instructionFuel then fuel else pr.value.instructionFuel;
      if !OutOfFuel(Run(env, id, args, start, store, available, 0)) {
        RunFuel(env, id, args, start, store, available, 0, fuel - available);
      }
    }
  }

  // --------------------------------------------------------------------------------
  // Purity.

  // Two runs of the same code on machines that agree on the registers.
  ghost predicate SameResult(m1: Machine, m2: Machine, o1: Outcome, o2: Outcome) {
    if o1.Abort? then o2 == o1
    else
      && o2.Done?
      && o1.segment == o2.segment && (o1.segment.Returned? || o1.segment.Failed?)
      && o1.fuel == o2.fuel
      && o1.store == m1.store && o2.store == m2.store
      && o1.traces == m1.traces && o2.traces == m2.traces
  }

  ghost predicate PureRun(e1: Env, e2: Env, c: Certificate, pr: Program, m1: Machine, m2: Machine) {
    && e1.p == e2.p
    && ProjectOK(e1.p, c)
    && pr in e1.p.programs
    && pr.id in c.pureHeights
    && m1.regs == m2.regs
    && AllFit(e1.p, e1.p.stateTypes, m1.store.cells)
    && AllFit(e1.p, e1.p.stateTypes, m2.store.cells)
  }

  lemma PureDirect(e1: Env, e2: Env, i: Instruction, args: seq<Value>, m1: Machine, m2: Machine, fuel: nat, depth: nat)
    requires e1.p == e2.p && |args| == |i.args| && PureOp(i.op) && !i.op.CallPure?
    ensures var s := Perform(e1, i, args, m1, fuel, depth);
            && s.fuel == fuel
            && (s.Next? ==> s.machine == m1)
            && Perform(e2, i, args, m2, fuel, depth) == if s.Next? then s.(machine := m2) else s
  {
  }

  lemma {:induction false} PureExec(e1: Env, e2: Env, c: Certificate, pr: Program, b: Block, k: nat,
                                    m1: Machine, m2: Machine, fuel: nat, depth: nat)
    requires PureRun(e1, e2, c, pr, m1, m2) && b in pr.blocks && k <= |b.instructions|
    ensures SameResult(m1, m2, Exec(e1, pr, b, k, m1, fuel, depth), Exec(e2, pr, b, k, m2, fuel, depth))
    decreases fuel, 0
  {
    assert PureProgramOK(pr, c.pureHeights);
    assert PureBlock(b);
    if fuel == 0 {
    } else if k < |b.instructions| {
      var args := ReadAll(m1.regs, b.instructions[k].args);
      if args.Some? {
        PureInstruction(e1, e2, c, pr, b, k, m1, m2, fuel, depth, args.value);
      }
    } else if b.terminator.Jump? || b.terminator.Branch? || b.terminator.Switch? {
      PureJump(e1, e2, c, pr, b, m1, m2, fuel, depth);
    } else {
      PureEnd(e1, e2, pr, b, m1, m2, fuel, depth);
    }
  }

  lemma PureEnd(e1: Env, e2: Env, pr: Program, b: Block, m1: Machine, m2: Machine, fuel: nat, depth: nat)
    requires PureBlock(b) && m1.regs == m2.regs && fuel > 0
    requires !b.terminator.Jump? && !b.terminator.Branch? && !b.terminator.Switch?
    ensures SameResult(m1, m2, Terminate(e1, pr, b, m1, fuel, depth), Terminate(e2, pr, b, m2, fuel, depth))
  {
  }

  lemma {:induction false} PureJump(e1: Env, e2: Env, c: Certificate, pr: Program, b: Block,
                                    m1: Machine, m2: Machine, fuel: nat, depth: nat)
    requires PureRun(e1, e2, c, pr, m1, m2) && b in pr.blocks && fuel > 0
    requires b.terminator.Jump? || b.terminator.Branch? || b.terminator.Switch?
    ensures SameResult(m1, m2, Terminate(e1, pr, b, m1, fuel, depth), Terminate(e2, pr, b, m2, fuel, depth))
    decreases fuel - 1, 4
  {
    var e := SelectEdge(m1.regs, b.terminator);
    if e.Some? {
      var args, t := ReadAll(m1.regs, e.value.args), FindBlock(pr.blocks, e.value.target);
      if args.Some? && t.Some? && |args.value| <= |t.value.parameters| {
        var regs := BindAll(m1.regs, t.value.parameters[..|args.value|], args.value);
        PureExec(e1, e2, c, pr, t.value, 0, m1.(regs := regs), m2.(regs := regs), fuel - 1, depth);
      }
    }
  }

  lemma {:induction false} PureInstruction(e1: Env, e2: Env, c: Certificate, pr: Program, b: Block, k: nat,
                                           m1: Machine, m2: Machine, fuel: nat, depth: nat, args: seq<Value>)
    requires PureRun(e1, e2, c, pr, m1, m2) && b in pr.blocks && k < |b.instructions| && fuel > 0
    requires ReadAll(m1.regs, b.instructions[k].args) == Some(args)
    ensures SameResult(m1, m2, Exec(e1, pr, b, k, m1, fuel, depth), Exec(e2, pr, b, k, m2, fuel, depth))
    decreases fuel - 1, 4
  {
    var i := b.instructions[k];
    var s := Perform(e1, i, args, m1, fuel - 1, depth);
    UnfoldInstruction(e1, pr, b, k, m1, fuel, depth, args, s);
    UnfoldInstruction(e2, pr, b, k, m2, fuel, depth, args, Perform(e2, i, args, m2, fuel - 1, depth));
    PurePerform(e1, e2, c, pr, b, k, m1, m2, fuel - 1, depth, args);
    PureContinue(e1, e2, c, pr, b, k, m1, m2, depth, s);
  }

  lemma {:induction false} PureContinue(e1: Env, e2: Env, c: Certificate, pr: Program, b: Block, k: nat,
                                        m1: Machine, m2: Machine, depth: nat, s: Step)
    requires PureRun(e1, e2, c, pr, m1, m2) && b in pr.blocks && k < |b.instructions| && (s.Next? ==> s.machine == m1)
    ensures SameResult(m1, m2, Continue(e1, pr, b, k, depth, s),
                       Continue(e2, pr, b, k, depth, if s.Next? then s.(machine := m2) else s))
    decreases s.fuel, 1
  {
    var i := b.instructions[k];
    if s.Next? && (i.dest.Some? ==> Fits(e1.p, i.dest.value.ty, s.out)) {
      PureExec(e1, e2, c, pr, b, k + 1, Assign(m1, i.dest, s.out), Assign(m2, i.dest, s.out), s.fuel, depth);
    }
  }

  lemma {:induction false} PurePerform(e1: Env, e2: Env, c: Certificate, pr: Program, b: Block, k: nat,
                                       m1: Machine, m2: Machine, fuel: nat, depth: nat, args: seq<Value>)
    requires PureRun(e1, e2, c, pr, m1, m2) && b in pr.blocks && k < |b.instructions|
    requires |args| == |b.instructions[k].args|
    ensures var i := b.instructions[k];
            var s := Perform(e1, i, args, m1, fuel, depth);
            && (s.Next? ==> s.machine == m1)
            && Perform(e2, i, args, m2, fuel, depth) == if s.Next? then s.(machine := m2) else s
    decreases fuel, 3
  {
    var i := b.instructions[k];
    assert PureProgramOK(pr, c.pureHeights);
    assert PureBlock(b);
    if i.op.CallPure? {
      PureCall(e1, e2, c, i.immediate, args, m1.store, m2.store, fuel, depth + 1);
    } else {
      PureDirect(e1, e2, i, args, m1, m2, fuel, depth);
    }
  }

  // A pure call is a function of its arguments: it ends the same way whatever the state,
  // the time and the host, and it changes neither state nor trace.
  lemma {:induction false} PureCall(e1: Env, e2: Env, c: Certificate, id: nat, args: seq<Value>,
                                    s1: Store, s2: Store, fuel: nat, depth: nat)
    requires e1.p == e2.p && ProjectOK(e1.p, c) && id in c.pureHeights
    requires AllFit(e1.p, e1.p.stateTypes, s1.cells) && AllFit(e1.p, e1.p.stateTypes, s2.cells)
    ensures SameResult(Machine(map[], s1, []), Machine(map[], s2, []),
                       Run(e1, id, args, None, s1, fuel, depth), Run(e2, id, args, None, s2, fuel, depth))
    decreases fuel, 1
  {
    var pr := FindProgram(e1.p.programs, id);
    if pr.Some? {
      var b := FindBlock(pr.value.blocks, pr.value.entry);
      if b.Some? && |args| == |b.value.parameters| {
        var regs := BindAll(map[], b.value.parameters, args);
        PureExec(e1, e2, c, pr.value, b.value, 0, Machine(regs, s1, []), Machine(regs, s2, []), fuel, depth);
      }
    }
  }
}
