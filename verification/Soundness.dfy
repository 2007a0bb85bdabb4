// Type soundness of accepted ExecIR projects: a segment started at the entry block or
// at a Suspend target never reads an unassigned register, never takes the wrong
// alternative of a value, never computes a value outside its declared type, and never
// exceeds the pure-call depth.
module Soundness {
  import opened Common
  import opened ExecIR
  import opened WellFormed
  import opened Interpreter
  import Arith
  import Numeric

  // Faults that an accepted project must never show. A value handed back by a service
  // provider is checked at run time, so its type error is not one of them.
  predicate Internal(e: Error) {
    match e
    case Invariant | ProgramNotFound | CallDepthBound | StartBlockMissing | InputArity | InputType
      | StateShape | StateType | ServiceUnavailable => true
    case ComputedType(op) => !op.Service?
    case NumericFault(f) => f.NumericTypeMismatch? || f.UnknownMode?
    case _ => false
  }

  // --------------------------------------------------------------------------------
  // The register invariant.

  ghost predicate StoreTyped(p: Project, s: Store) {
    && AllFit(p, p.stateTypes, s.cells)
    && forall i :: i in s.writes ==> i < |p.stateTypes| && Fits(p, p.stateTypes[i], s.writes[i])
  }

  ghost predicate RegsTyped(p: Project, f: Facts, regs: map<nat, Value>) {
    forall id :: id in regs ==> id in f.defs && Fits(p, f.defs[id].ty, regs[id])
  }

  // Everything that dominates position `order` of block `b` has been assigned.
  ghost predicate RegsReady(f: Facts, b: Block, order: nat, regs: map<nat, Value>) {
    && b.id in f.dom
    && forall id | id in f.defs && f.defs[id].block in f.dom[b.id] :: f.defs[id].block != b.id || f.defs[id].order < order ==> id in regs
  }

  ghost predicate Ready(p: Project, pr: Program, f: Facts, b: Block, k: nat, m: Machine) {
    && b in pr.blocks
    && k <= |b.instructions|
    && RegsTyped(p, f, m.regs)
    && RegsReady(f, b, k + 1, m.regs)
    && StoreTyped(p, m.store)
  }

  lemma ReadsSucceed(p: Project, pr: Program, f: Facts, b: Block, k: nat, m: Machine, rs: seq<Reg>)
    requires Ready(p, pr, f, b, k, m) && AllUsable(f, b, rs, k + 1)
    ensures ReadAll(m.regs, rs).Some? && AllFit(p, RegTypes(rs), ReadAll(m.regs, rs).value)
  {
    forall i | 0 <= i < |rs| ensures rs[i].id in m.regs && Fits(p, rs[i].ty, m.regs[rs[i].id]) {
      assert Usable(f, b, rs[i], k + 1);
    }
  }

  // A definition recorded in a block is a definition of that very block.
  lemma DefinitionSite(p: Project, pr: Program, f: Facts, b: Block, id: nat)
    requires ProgramOK(p, pr, f) && b in pr.blocks
    requires id in f.defs && f.defs[id].block == b.id
    ensures DefinesAt(b, Reg(id, f.defs[id].ty), f.defs[id].order)
  {
    var b' :| b' in pr.blocks && b'.id == f.defs[id].block && DefinesAt(b', Reg(id, f.defs[id].ty), f.defs[id].order);
    assert FindBlock(pr.blocks, b.id) == Some(b) && FindBlock(pr.blocks, b'.id) == Some(b');
  }

  lemma AfterInstruction(p: Project, c: Certificate, pr: Program, b: Block, k: nat, m: Machine, m': Machine, out: Value)
    requires ProjectOK(p, c) && pr in p.programs && pr.id in c.facts
    requires Ready(p, pr, c.facts[pr.id], b, k, m) && k < |b.instructions|
    requires m'.regs == m.regs && StoreTyped(p, m'.store)
    requires var d := b.instructions[k].dest; d.Some? ==> Fits(p, d.value.ty, out)
    ensures Ready(p, pr, c.facts[pr.id], b, k + 1, Assign(m', b.instructions[k].dest, out))
  {
    ProgramFacts(p, c, pr);
    AssignTyped(p, pr, c.facts[pr.id], b, k, m', out);
    AssignReady(p, pr, c.facts[pr.id], b, k, m', out);
  }

  lemma AssignTyped(p: Project, pr: Program, f: Facts, b: Block, k: nat, m: Machine, out: Value)
    requires ProgramOK(p, pr, f) && b in pr.blocks && k < |b.instructions| && RegsTyped(p, f, m.regs)
    requires var d := b.instructions[k].dest; d.Some? ==> Fits(p, d.value.ty, out)
    ensures RegsTyped(p, f, Assign(m, b.instructions[k].dest, out).regs)
  {
    var d := b.instructions[k].dest;
    if d.Some? {
      assert DefsRecorded(f.defs, b);
      assert DefinesAt(b, d.value, k + 1);
    }
  }

  lemma AssignReady(p: Project, pr: Program, f: Facts, b: Block, k: nat, m: Machine, out: Value)
    requires ProgramOK(p, pr, f) && b in pr.blocks && k < |b.instructions| && RegsReady(f, b, k + 1, m.regs)
    ensures RegsReady(f, b, k + 2, Assign(m, b.instructions[k].dest, out).regs)
  {
    var n := Assign(m, b.instructions[k].dest, out);
    forall id | id in f.defs && f.defs[id].block in f.dom[b.id] && (f.defs[id].block != b.id || f.defs[id].order < k + 2)
      ensures id in n.regs
    {
      if f.defs[id].block == b.id && f.defs[id].order == k + 1 {
        DefinitionSite(p, pr, f, b, id);
      } else {
        assert f.defs[id].block != b.id || f.defs[id].order < k + 1;
        assert id in m.regs;
      }
    }
  }

  lemma {:induction false} BindAllKeys(regs: map<nat, Value>, ps: seq<Reg>, vs: seq<Value>)
    requires |ps| == |vs|
    ensures var out := BindAll(regs, ps, vs);
            && (forall id :: id in regs ==> id in out)
            && (forall i :: 0 <= i < |ps| ==> ps[i].id in out)
  {
    if ps != [] {
      BindAllKeys(regs, ps[..|ps| - 1], vs[..|vs| - 1]);
      var out := BindAll(regs, ps, vs);
      forall i | 0 <= i < |ps| ensures ps[i].id in out {
        if i < |ps| - 1 {
          assert ps[..|ps| - 1][i] == ps[i];
        }
      }
    }
  }

  lemma {:induction false} BindAllTyped(p: Project, f: Facts, b: Block, regs: map<nat, Value>, ps: seq<Reg>, vs: seq<Value>)
    requires |ps| == |vs| && AllFit(p, RegTypes(ps), vs)
    requires DefsRecorded(f.defs, b) && RegsTyped(p, f, regs)
    requires forall i :: 0 <= i < |ps| ==> ps[i] in b.parameters
    ensures RegsTyped(p, f, BindAll(regs, ps, vs))
  {
    if ps != [] {
      var last := |ps| - 1;
      assert forall i :: 0 <= i < last ==> RegTypes(ps[..last])[i] == RegTypes(ps)[i];
      BindAllTyped(p, f, b, regs, ps[..last], vs[..last]);
      assert DefinesAt(b, ps[last], 0);
      assert RegTypes(ps)[last] == ps[last].ty;
    }
  }

  // Entering a block with fitting arguments. `dominating` are the blocks whose
  // definitions are already available.
  lemma EnterBlock(p: Project, pr: Program, f: Facts, t: Block, regs: map<nat, Value>, store: Store,
                   traces: seq<TraceEvent>, args: seq<Value>)
    requires ProgramOK(p, pr, f) && t in pr.blocks
    requires RegsTyped(p, f, regs) && StoreTyped(p, store)
    requires AllFit(p, RegTypes(t.parameters), args)
    requires forall id :: id in f.defs && f.defs[id].block in f.dom[t.id] && f.defs[id].block != t.id ==> id in regs
    ensures Ready(p, pr, f, t, 0, Machine(BindAll(regs, t.parameters, args), store, traces))
  {
    assert DefsRecorded(f.defs, t);
    BindAllTyped(p, f, t, regs, t.parameters, args);
    BindAllKeys(regs, t.parameters, args);
    var out := BindAll(regs, t.parameters, args);
    forall id | id in f.defs && f.defs[id].block == t.id && f.defs[id].order < 1 ensures id in out {
      DefinitionSite(p, pr, f, t, id);
    }
  }

  lemma FollowEdge(p: Project, pr: Program, f: Facts, b: Block, m: Machine, e: Edge, args: seq<Value>)
    requires ProgramOK(p, pr, f) && Ready(p, pr, f, b, |b.instructions|, m)
    requires e in Edges(b.terminator) && AllFit(p, RegTypes(e.args), args)
    ensures var t := FindBlock(pr.blocks, e.target);
            && t.Some?
            && |args| == |t.value.parameters|
            && Ready(p, pr, f, t.value, 0, m.(regs := BindAll(m.regs, t.value.parameters, args)))
  {
    assert EdgeOK(pr, e);
    var t := FindBlock(pr.blocks, e.target).value;
    assert |RegTypes(t.parameters)| == |RegTypes(e.args)|;
    forall id | id in f.defs && f.defs[id].block in f.dom[t.id] && f.defs[id].block != t.id ensures id in m.regs {
      assert f.defs[id].block in f.dom[b.id];
      if f.defs[id].block == b.id {
        DefinitionSite(p, pr, f, b, id);
      }
    }
    EnterBlock(p, pr, f, t, m.regs, m.store, m.traces, args);
    assert m.(regs := BindAll(m.regs, t.parameters, args))
        == Machine(BindAll(m.regs, t.parameters, args), m.store, m.traces);
  }

  // --------------------------------------------------------------------------------
  // Single instructions.

  predicate Simple(op: Op) {
    !op.CallPure? && !op.Service?
  }

  lemma NumericOpsFit(env: Env, h: seq<nat>, i: Instruction, args: seq<Value>, store: Store)
    requires TypesOK(env.p, h) && InstructionOK(env.p, i) && AllFit(env.p, RegTypes(i.args), args)
    requires i.op.Unary? || i.op.Compare? || i.op.Convert?
    ensures match EvalValue(env, i, args, store)
            case Ok(out) => Fits(env.p, i.dest.value.ty, out)
            case Err(e) => !Internal(e)
  {
    assert Fits(env.p, RegTypes(i.args)[0], args[0]);
    if i.op.Compare? {
      assert Fits(env.p, RegTypes(i.args)[1], args[1]);
    }
  }

  lemma BinaryFits(env: Env, h: seq<nat>, i: Instruction, args: seq<Value>, store: Store)
    requires TypesOK(env.p, h) && InstructionOK(env.p, i) && AllFit(env.p, RegTypes(i.args), args)
    requires i.op.Binary?
    ensures match EvalValue(env, i, args, store)
            case Ok(out) => Fits(env.p, i.dest.value.ty, out)
            case Err(e) => !Internal(e)
  {
    assert Fits(env.p, RegTypes(i.args)[0], args[0]) && Fits(env.p, RegTypes(i.args)[1], args[1]);
    if !i.binary.EqOp? && !i.binary.AndOp? && !i.binary.OrOp? && !i.binary.LtOp? {
      var w := env.p.types[i.args[0].ty].bound;
      assert TypeShapeOK(env.p, env.p.types[i.args[0].ty]);
      if args[1].n != 0 {
        Arith.QuotientBound(args[0].n, args[1].n);
      }
    }
  }

  lemma CompositeFits(env: Env, h: seq<nat>, i: Instruction, args: seq<Value>, store: Store)
    requires TypesOK(env.p, h) && InstructionOK(env.p, i) && AllFit(env.p, RegTypes(i.args), args)
    requires i.op.MakeRecord? || i.op.MakeVariant? || i.op.MakeVec?
    ensures EvalValue(env, i, args, store).Ok? && Fits(env.p, i.dest.value.ty, EvalValue(env, i, args, store).value)
  {
    var p, t := env.p, i.dest.value.ty;
    var s := p.types[t];
    match i.op
    case MakeRecord =>
      FieldsDepth(p, h, t, s.fields, args);
    case MakeVariant =>
      ConstructorDepth(p, h, t, i.immediate, args);
    case MakeVec =>
      forall j | 0 <= j < |args| ensures Fits(p, s.fields[0], args[j]) {
        assert RegTypes(i.args)[j] == s.fields[0];
      }
      ElementsDepth(p, h, t, args);
  }

  lemma FieldFits(env: Env, h: seq<nat>, i: Instruction, args: seq<Value>, store: Store)
    requires TypesOK(env.p, h) && InstructionOK(env.p, i) && AllFit(env.p, RegTypes(i.args), args)
    requires i.op.GetField?
    ensures EvalValue(env, i, args, store).Ok? && Fits(env.p, i.dest.value.ty, EvalValue(env, i, args, store).value)
  {
    var p, t := env.p, i.args[0].ty;
    assert Fits(p, RegTypes(i.args)[0], args[0]);
    FieldsDepth(p, h, t, p.types[t].fields, args[0].elems);
    assert Fits(p, p.types[t].fields[i.immediate], args[0].elems[i.immediate]);
  }

  lemma TagFits(env: Env, i: Instruction, args: seq<Value>, store: Store)
    requires InstructionOK(env.p, i) && AllFit(env.p, RegTypes(i.args), args)
    requires i.op.VariantTag?
    ensures EvalValue(env, i, args, store).Ok? && Fits(env.p, i.dest.value.ty, EvalValue(env, i, args, store).value)
  {
    assert Fits(env.p, RegTypes(i.args)[0], args[0]);
    Numeric.Pow2Of64();
  }

  lemma VariantFits(env: Env, h: seq<nat>, i: Instruction, args: seq<Value>, store: Store)
    requires TypesOK(env.p, h) && InstructionOK(env.p, i) && AllFit(env.p, RegTypes(i.args), args)
    requires i.op.VariantGet?
    ensures match EvalValue(env, i, args, store)
            case Ok(out) => Fits(env.p, i.dest.value.ty, out)
            case Err(e) => !Internal(e)
  {
    assert Fits(env.p, RegTypes(i.args)[0], args[0]);
    PayloadFits(env.p, h, i.args[0].ty, args[0]);
  }

  // The payload of a variant has the field types of its constructor.
  lemma PayloadFits(p: Project, h: seq<nat>, t: nat, v: Value)
    requires TypesOK(p, h) && HasKind(p, t, TVariant) && Fits(p, t, v)
    ensures AllFit(p, p.types[t].constructors[v.elems[0].n], v.elems[1].elems)
  {
    ConstructorDepth(p, h, t, v.elems[0].n, v.elems[1].elems);
  }

  lemma VectorFits(env: Env, h: seq<nat>, i: Instruction, args: seq<Value>, store: Store)
    requires TypesOK(env.p, h) && InstructionOK(env.p, i) && AllFit(env.p, RegTypes(i.args), args)
    requires i.op.VecGet?
    ensures match EvalValue(env, i, args, store)
            case Ok(out) => Fits(env.p, i.dest.value.ty, out)
            case Err(e) => !Internal(e)
  {
    assert Fits(env.p, RegTypes(i.args)[0], args[0]) && Fits(env.p, RegTypes(i.args)[1], args[1]);
    ElementsDepth(env.p, h, i.args[0].ty, args[0].elems);
  }

  lemma VectorSetFits(env: Env, h: seq<nat>, i: Instruction, args: seq<Value>, store: Store)
    requires TypesOK(env.p, h) && InstructionOK(env.p, i) && AllFit(env.p, RegTypes(i.args), args)
    requires i.op.VecSet?
    ensures match EvalValue(env, i, args, store)
            case Ok(out) => Fits(env.p, i.dest.value.ty, out)
            case Err(e) => !Internal(e)
  {
    assert Fits(env.p, RegTypes(i.args)[0], args[0]) && Fits(env.p, RegTypes(i.args)[1], args[1]);
    assert Fits(env.p, RegTypes(i.args)[2], args[2]);
    if args[1].n < |args[0].elems| {
      UpdateFits(env.p, h, i.args[0].ty, args[0], args[1].n, args[2]);
    }
  }

  lemma UpdateFits(p: Project, h: seq<nat>, t: nat, v: Value, n: nat, x: Value)
    requires TypesOK(p, h) && (HasKind(p, t, TVec) || HasKind(p, t, TBoundedVec))
    requires Fits(p, t, v) && n < |v.elems| && Fits(p, p.types[t].fields[0], x)
    ensures Fits(p, t, Array(v.elems[n := x]))
  {
    ElementsDepth(p, h, t, v.elems);
    ElementsDepth(p, h, t, v.elems[n := x]);
  }

  // Every simple opcode of an accepted program computes a value of its declared type, or
  // fails for a reason the program can be blamed for.
  lemma ValueFits(env: Env, h: seq<nat>, i: Instruction, args: seq<Value>, store: Store)
    requires TypesOK(env.p, h) && InstructionOK(env.p, i) && AllFit(env.p, RegTypes(i.args), args)
    requires Simple(i.op) && StoreTyped(env.p, store)
    ensures match EvalValue(env, i, args, store)
            case Ok(out) => i.dest.Some? ==> Fits(env.p, i.dest.value.ty, out)
            case Err(e) => !Internal(e)
  {
    match i.op
    case Unary => NumericOpsFit(env, h, i, args, store);
    case Compare => NumericOpsFit(env, h, i, args, store);
    case Convert => NumericOpsFit(env, h, i, args, store);
    case Binary => BinaryFits(env, h, i, args, store);
    case MakeRecord => CompositeFits(env, h, i, args, store);
    case MakeVariant => CompositeFits(env, h, i, args, store);
    case MakeVec => CompositeFits(env, h, i, args, store);
    case GetField => FieldFits(env, h, i, args, store);
    case VariantTag => TagFits(env, i, args, store);
    case VariantGet => VariantFits(env, h, i, args, store);
    case VecGet => VectorFits(env, h, i, args, store);
    case VecSet => VectorSetFits(env, h, i, args, store);
    case SelectValue =>
      assert Fits(env.p, RegTypes(i.args)[0], args[0]) && Fits(env.p, RegTypes(i.args)[1], args[1])
          && Fits(env.p, RegTypes(i.args)[2], args[2]);
    case Move =>
      assert Fits(env.p, RegTypes(i.args)[0], args[0]);
    case GetNow =>
      Numeric.Pow2Of64();
    case _ =>
  }

  lemma EffectTyped(env: Env, i: Instruction, args: seq<Value>, m: Machine)
    requires InstructionOK(env.p, i) && AllFit(env.p, RegTypes(i.args), args)
    requires StoreTyped(env.p, m.store)
    ensures match EvalEffect(env, i, args, m)
            case Ok(m') => m'.regs == m.regs && StoreTyped(env.p, m'.store)
            case Err(e) => !Internal(e)
  {
    if i.op.BufferStateWrite? || i.op.Check? {
      assert Fits(env.p, RegTypes(i.args)[0], args[0]);
    }
  }

  // --------------------------------------------------------------------------------
  // Whole segments.

  // What is promised about the end of a segment of program `pr`.
  ghost predicate Safe(p: Project, pr: Program, f: Facts, o: Outcome) {
    match o
    case Abort(e, _) => !Internal(e)
    case Done(segment, store, _, _) =>
      && StoreTyped(p, store)
      && match segment
         case Returned(vs) => AllFit(p, pr.resultTypes, vs)
         case TransportReturned(v) => AllFit(p, pr.resultTypes, [v])
         case Failed(_) => true
         case Suspended(wait, resume, live) =>
           && wait.kind == KWait
           && resume in f.roots
           && var t := FindBlock(pr.blocks, resume);
              && t.Some? && |t.value.parameters| == |live| + 1
              && AllFit(p, RegTypes(t.value.parameters[1..]), live)
  }

  ghost predicate GoodStep(p: Project, i: Instruction, m: Machine, s: Step) {
    match s
    case Stop(e, _) => !Internal(e)
    case Next(out, m', _) =>
      && m'.regs == m.regs
      && StoreTyped(p, m'.store)
      && (i.dest.Some? && !i.op.Service? ==> Fits(p, i.dest.value.ty, out))
  }

  // A pure call meets the admission checks of its callee and stays within the call depth.
  lemma CalleeReady(p: Project, c: Certificate, pr: Program, b: Block, k: nat, args: seq<Value>, depth: nat)
    requires ProjectOK(p, c) && pr in p.programs && b in pr.blocks && k < |b.instructions|
    requires b.instructions[k].op.CallPure? && InstructionOK(p, b.instructions[k])
    requires AllFit(p, RegTypes(b.instructions[k].args), args)
    requires CallsBelow(pr, c.pureHeights, FULL_DEPTH - depth)
    ensures var id := b.instructions[k].immediate;
            && Startable(p, c, id, None, args)
            && depth + 1 <= MAX_CALL_DEPTH
            && FindProgram(p.programs, id).Some?
            && CallsBelow(FindProgram(p.programs, id).value, c.pureHeights, FULL_DEPTH - (depth + 1))
  {
    var id := b.instructions[k].immediate;
    var callee := FindProgram(p.programs, id).value;
    ProgramFacts(p, c, callee);
    assert PureProgramOK(callee, c.pureHeights);
    assert c.pureHeights[id] <= FULL_DEPTH - depth;
    forall b', k' | b' in callee.blocks && 0 <= k' < |b'.instructions| && b'.instructions[k'].op.CallPure?
      ensures b'.instructions[k'].immediate in c.pureHeights
      ensures c.pureHeights[b'.instructions[k'].immediate] <= FULL_DEPTH - (depth + 1)
    {
    }
  }

  lemma PerformDirect(env: Env, h: seq<nat>, i: Instruction, args: seq<Value>, m: Machine, fuel: nat, depth: nat)
    requires TypesOK(env.p, h) && InstructionOK(env.p, i) && !i.op.CallPure?
    requires AllFit(env.p, RegTypes(i.args), args) && StoreTyped(env.p, m.store)
    ensures GoodStep(env.p, i, m, Perform(env, i, args, m, fuel, depth))
  {
    if !i.op.Service? {
      EffectTyped(env, i, args, m);
      ValueFits(env, h, i, args, m.store);
    }
  }

  // A safe run of the callee is a good step of the caller.
  lemma CallSafe(env: Env, c: Certificate, callee: Program, i: Instruction, args: seq<Value>, m: Machine, fuel: nat, depth: nat)
    requires i.op.CallPure? && InstructionOK(env.p, i) && |args| == |i.args|
    requires FindProgram(env.p.programs, i.immediate) == Some(callee) && i.immediate in c.facts
    requires Safe(env.p, callee, c.facts[i.immediate], Run(env, i.immediate, args, None, m.store, fuel, depth + 1))
    ensures GoodStep(env.p, i, m, Perform(env, i, args, m, fuel, depth))
  {
  }

  lemma {:induction false} PerformSafe(env: Env, c: Certificate, pr: Program, b: Block, k: nat, args: seq<Value>,
                                       m: Machine, fuel: nat, depth: nat, s: Step)
    requires ProjectOK(env.p, c) && pr in env.p.programs && b in pr.blocks && k < |b.instructions|
    requires AllFit(env.p, RegTypes(b.instructions[k].args), args) && StoreTyped(env.p, m.store)
    requires CallsBelow(pr, c.pureHeights, FULL_DEPTH - depth)
    requires s == Perform(env, b.instructions[k], args, m, fuel, depth)
    ensures GoodStep(env.p, b.instructions[k], m, s)
    decreases fuel, 3
  {
    BlockFacts(env.p, c, pr, b);
    if b.instructions[k].op.CallPure? {
      CallStep(env, c, pr, b, k, args, m, fuel, depth, s);
    } else {
      PerformDirect(env, c.heights, b.instructions[k], args, m, fuel, depth);
    }
  }

  lemma {:induction false} CallStep(env: Env, c: Certificate, pr: Program, b: Block, k: nat, args: seq<Value>,
                                    m: Machine, fuel: nat, depth: nat, s: Step)
    requires ProjectOK(env.p, c) && pr in env.p.programs && b in pr.blocks && k < |b.instructions|
    requires b.instructions[k].op.CallPure? && InstructionOK(env.p, b.instructions[k])
    requires AllFit(env.p, RegTypes(b.instructions[k].args), args) && StoreTyped(env.p, m.store)
    requires CallsBelow(pr, c.pureHeights, FULL_DEPTH - depth)
    requires s == Perform(env, b.instructions[k], args, m, fuel, depth)
    ensures GoodStep(env.p, b.instructions[k], m, s)
    decreases fuel, 2
  {
    var i := b.instructions[k];
    CalleeReady(env.p, c, pr, b, k, args, depth);
    RunSafe(env, c, i.immediate, args, None, m.store, fuel, depth + 1);
    CallSafe(env, c, FindProgram(env.p.programs, i.immediate).value, i, args, m, fuel, depth);
  }

  lemma {:induction false} ExecSafe(env: Env, c: Certificate, pr: Program, b: Block, k: nat, m: Machine, fuel: nat, depth: nat,
                                    o: Outcome)
    requires ProjectOK(env.p, c) && pr in env.p.programs && pr.id in c.facts
    requires Ready(env.p, pr, c.facts[pr.id], b, k, m)
    requires CallsBelow(pr, c.pureHeights, FULL_DEPTH - depth)
    requires o == Exec(env, pr, b, k, m, fuel, depth)
    ensures Safe(env.p, pr, c.facts[pr.id], o)
    decreases fuel, 0
  {
    if fuel == 0 {
      assert o == Abort(FuelExhausted, 0);
    } else if k < |b.instructions| {
      InstructionSafe(env, c, pr, b, k, m, fuel, depth, o);
    } else if b.terminator.Jump? || b.terminator.Branch? || b.terminator.Switch? {
      var e, args, t, m' := JumpReads(env.p, c, pr, b, m);
      ExecSafe(env, c, pr, t, 0, m', fuel - 1, depth, Exec(env, pr, t, 0, m', fuel - 1, depth));
      UnfoldJump(env, pr, b, m, fuel, depth, e, args, t, m');
    } else {
      EndOfSegment(env, c, pr, b, m, fuel, depth, o);
    }
  }

  lemma EndOfSegment(env: Env, c: Certificate, pr: Program, b: Block, m: Machine, fuel: nat, depth: nat, o: Outcome)
    requires ProjectOK(env.p, c) && pr in env.p.programs && pr.id in c.facts
    requires Ready(env.p, pr, c.facts[pr.id], b, |b.instructions|, m) && fuel > 0
    requires !b.terminator.Jump? && !b.terminator.Branch? && !b.terminator.Switch?
    requires o == Terminate(env, pr, b, m, fuel, depth)
    ensures Safe(env.p, pr, c.facts[pr.id], o)
  {
    BlockFacts(env.p, c, pr, b);
    EndSafe(env, pr, c.facts[pr.id], b, m, fuel, depth);
  }

  lemma InstructionReads(p: Project, c: Certificate, pr: Program, b: Block, k: nat, m: Machine) returns (args: seq<Value>)
    requires ProjectOK(p, c) && pr in p.programs && pr.id in c.facts
    requires Ready(p, pr, c.facts[pr.id], b, k, m) && k < |b.instructions|
    ensures ReadAll(m.regs, b.instructions[k].args) == Some(args)
    ensures AllFit(p, RegTypes(b.instructions[k].args), args)
  {
    BlockFacts(p, c, pr, b);
    ReadsSucceed(p, pr, c.facts[pr.id], b, k, m, b.instructions[k].args);
    args := ReadAll(m.regs, b.instructions[k].args).value;
  }

  lemma {:induction false} InstructionSafe(env: Env, c: Certificate, pr: Program, b: Block, k: nat, m: Machine,
                                           fuel: nat, depth: nat, o: Outcome)
    requires ProjectOK(env.p, c) && pr in env.p.programs && pr.id in c.facts
    requires Ready(env.p, pr, c.facts[pr.id], b, k, m) && k < |b.instructions| && fuel > 0
    requires CallsBelow(pr, c.pureHeights, FULL_DEPTH - depth)
    requires o == Exec(env, pr, b, k, m, fuel, depth)
    ensures Safe(env.p, pr, c.facts[pr.id], o)
    decreases fuel - 1, 5
  {
    var args := InstructionReads(env.p, c, pr, b, k, m);
    var s := Perform(env, b.instructions[k], args, m, fuel - 1, depth);
    PerformSafe(env, c, pr, b, k, args, m, fuel - 1, depth, s);
    UnfoldInstruction(env, pr, b, k, m, fuel, depth, args, s);
    StepSafe(env, c, pr, b, k, m, fuel, depth, s, o);
  }

  // What follows an instruction that went well, or failed for a reason of the program.
  lemma {:induction false} StepSafe(env: Env, c: Certificate, pr: Program, b: Block, k: nat, m: Machine,
                                    fuel: nat, depth: nat, s: Step, o: Outcome)
    requires ProjectOK(env.p, c) && pr in env.p.programs && pr.id in c.facts
    requires Ready(env.p, pr, c.facts[pr.id], b, k, m) && k < |b.instructions| && s.fuel < fuel
    requires CallsBelow(pr, c.pureHeights, FULL_DEPTH - depth) && GoodStep(env.p, b.instructions[k], m, s)
    requires o == Continue(env, pr, b, k, depth, s)
    ensures Safe(env.p, pr, c.facts[pr.id], o)
    decreases fuel - 1, 4
  {
    var i := b.instructions[k];
    if s.Next? && (i.dest.Some? ==> Fits(env.p, i.dest.value.ty, s.out)) {
      AfterInstruction(env.p, c, pr, b, k, m, s.machine, s.out);
      ExecSafe(env, c, pr, b, k + 1, Assign(s.machine, i.dest, s.out), s.fuel, depth, o);
    }
  }

  lemma JumpReads(p: Project, c: Certificate, pr: Program, b: Block, m: Machine) returns (e: Edge, args: seq<Value>, t: Block, m': Machine)
    requires ProjectOK(p, c) && pr in p.programs && pr.id in c.facts
    requires Ready(p, pr, c.facts[pr.id], b, |b.instructions|, m)
    requires b.terminator.Jump? || b.terminator.Branch? || b.terminator.Switch?
    ensures Lands(pr, b, m, e, args, t, m') && Ready(p, pr, c.facts[pr.id], t, 0, m')
  {
    var f := c.facts[pr.id];
    ProgramFacts(p, c, pr);
    BlockFacts(p, c, pr, b);
    e := EdgeSelected(p, pr, f, b, m);
    ReadsSucceed(p, pr, f, b, |b.instructions|, m, e.args);
    args := ReadAll(m.regs, e.args).value;
    FollowEdge(p, pr, f, b, m, e, args);
    t := FindBlock(pr.blocks, e.target).value;
    m' := m.(regs := BindAll(m.regs, t.parameters, args));
  }

  // The terminators that end a segment.
  lemma EndSafe(env: Env, pr: Program, f: Facts, b: Block, m: Machine, fuel: nat, depth: nat)
    requires Ready(env.p, pr, f, b, |b.instructions|, m) && TerminatorOK(env.p, pr, f, b) && fuel > 0
    requires !b.terminator.Jump? && !b.terminator.Branch? && !b.terminator.Switch?
    ensures Safe(env.p, pr, f, Terminate(env, pr, b, m, fuel, depth))
  {
    var p, k := env.p, |b.instructions|;
    match b.terminator
    case TransportReturn(reply) =>
      ReadsSucceed(p, pr, f, b, k, m, [reply]);
      assert RegTypes([reply]) == [reply.ty];
    case Suspend(_, _, _) => SuspendSafe(env, pr, f, b, m, fuel, depth);
    case Return(values) =>
      ReadsSucceed(p, pr, f, b, k, m, values);
    case Fail(_) =>
  }

  lemma SuspendSafe(env: Env, pr: Program, f: Facts, b: Block, m: Machine, fuel: nat, depth: nat)
    requires Ready(env.p, pr, f, b, |b.instructions|, m) && TerminatorOK(env.p, pr, f, b) && fuel > 0 && b.terminator.Suspend?
    ensures Safe(env.p, pr, f, Terminate(env, pr, b, m, fuel, depth))
  {
    var wait, live := b.terminator.wait, b.terminator.live;
    ReadsSucceed(env.p, pr, f, b, |b.instructions|, m, [wait]);
    assert Fits(env.p, RegTypes([wait])[0], ReadAll(m.regs, [wait]).value[0]);
    ReadsSucceed(env.p, pr, f, b, |b.instructions|, m, live);
  }

  lemma EdgeSelected(p: Project, pr: Program, f: Facts, b: Block, m: Machine) returns (e: Edge)
    requires Ready(p, pr, f, b, |b.instructions|, m) && TerminatorOK(p, pr, f, b)
    requires b.terminator.Jump? || b.terminator.Branch? || b.terminator.Switch?
    ensures SelectEdge(m.regs, b.terminator) == Some(e)
    ensures e in Edges(b.terminator) && AllUsable(f, b, e.args, |b.instructions| + 1)
  {
    var k := |b.instructions|;
    match b.terminator
    case Jump(yes) =>
      e := yes;
    case Branch(cond, yes, no) =>
      ReadsSucceed(p, pr, f, b, k, m, [cond]);
      assert Fits(p, RegTypes([cond])[0], ReadAll(m.regs, [cond]).value[0]);
      e := if m.regs[cond.id].b then yes else no;
    case Switch(on, cases, no) =>
      ReadsSucceed(p, pr, f, b, k, m, [on]);
      assert Fits(p, RegTypes([on])[0], ReadAll(m.regs, [on]).value[0]);
      e := SelectCase(cases, m.regs[on.id].n, no);
      if e != no {
        var j :| 0 <= j < |cases| && cases[j].0 == m.regs[on.id].n && cases[j].1 == e;
        assert Edges(b.terminator)[j] == e;
      } else {
        assert Edges(b.terminator)[|cases|] == e;
      }
  }

  // A segment may start at the entry block or at any resume point.
  ghost predicate Startable(p: Project, c: Certificate, id: nat, start: Option<nat>, args: seq<Value>) {
    && var pr := FindProgram(p.programs, id);
    && pr.Some?
    && pr.value.id in c.facts
    && var s := if start.Some? then start.value else pr.value.entry;
    && s in c.facts[pr.value.id].roots
    && var b := FindBlock(pr.value.blocks, s);
       b.Some? && AllFit(p, RegTypes(b.value.parameters), args)
  }

  // Type soundness: for an accepted project, conforming arguments and conforming state,
  // no segment ends in an internal fault, and whatever it delivers has its declared type.
  lemma {:induction false} RunSafe(env: Env, c: Certificate, id: nat, args: seq<Value>, start: Option<nat>,
                                   store: Store, fuel: nat, depth: nat)
    requires ProjectOK(env.p, c) && StoreTyped(env.p, store)
    requires Startable(env.p, c, id, start, args)
    requires depth <= MAX_CALL_DEPTH
    requires CallsBelow(FindProgram(env.p.programs, id).value, c.pureHeights, FULL_DEPTH - depth)
    ensures Safe(env.p, FindProgram(env.p.programs, id).value, c.facts[id], Run(env, id, args, start, store, fuel, depth))
    decreases fuel, 1
  {
    var pr := FindProgram(env.p.programs, id).value;
    var f := c.facts[pr.id];
    ProgramFacts(env.p, c, pr);
    var b := FindBlock(pr.blocks, if start.Some? then start.value else pr.entry).value;
    EnterBlock(env.p, pr, f, b, map[], store, [], args);
    ExecSafe(env, c, pr, b, 0, Machine(BindAll(map[], b.parameters, args), store, []), fuel, depth,
             Run(env, id, args, start, store, fuel, depth));
  }
}
