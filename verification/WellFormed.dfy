// What the ExecIR validator establishes about an accepted project
// (runtime/src/exec_ir.cpp:360-743): single assignment, segment dominance, typed
// instructions and terminators, and a bounded, acyclic graph of pure calls.
module WellFormed {
  import opened Common
  import opened ExecIR

  // Where a register is defined: order 0 is a block parameter, k + 1 is instruction k.
  datatype Def = Def(ty: nat, block: nat, order: nat)

  // The tables computed for one program.
  datatype Facts = Facts(defs: map<nat, Def>, dom: map<nat, set<nat>>, roots: set<nat>)

  // The tables computed for a project.
  datatype Certificate = Certificate(heights: seq<nat>, pureHeights: map<nat, nat>, facts: map<nat, Facts>)

  // --------------------------------------------------------------------------------
  // Single assignment.

  predicate DefinesAt(b: Block, r: Reg, order: nat) {
    || (order == 0 && r in b.parameters)
    || (1 <= order <= |b.instructions| && b.instructions[order - 1].dest == Some(r))
  }

  ghost predicate DefsRecorded(defs: map<nat, Def>, b: Block) {
    forall r: Reg, order: nat {:trigger DefinesAt(b, r, order)} :: DefinesAt(b, r, order) ==> r.id in defs && defs[r.id] == Def(r.ty, b.id, order)
  }

  ghost predicate DefsReal(defs: map<nat, Def>, blocks: seq<Block>) {
    forall id :: id in defs ==>
      exists b :: b in blocks && b.id == defs[id].block && DefinesAt(b, Reg(id, defs[id].ty), defs[id].order)
  }

  ghost predicate DefsOK(p: Project, pr: Program, defs: map<nat, Def>) {
    && (forall b {:trigger DefsRecorded(defs, b)} :: b in pr.blocks ==> DefsRecorded(defs, b))
    && DefsReal(defs, pr.blocks)
    && (forall id :: id in defs ==> defs[id].ty < |p.types|)
  }

  // Register `r` may be read in block `b` before its position `order`.
  predicate Usable(f: Facts, b: Block, r: Reg, order: nat) {
    && r.id in f.defs
    && f.defs[r.id].ty == r.ty
    && b.id in f.dom
    && f.defs[r.id].block in f.dom[b.id]
    && (f.defs[r.id].block == b.id ==> f.defs[r.id].order < order)
  }

  predicate AllUsable(f: Facts, b: Block, rs: seq<Reg>, order: nat) {
    forall i :: 0 <= i < |rs| ==> Usable(f, b, rs[i], order)
  }

  // --------------------------------------------------------------------------------
  // Control flow.

  // The edges taken without leaving the segment.
  function Edges(t: Terminator): seq<Edge> {
    match t
    case Jump(yes) => [yes]
    case Branch(_, yes, no) => [yes, no]
    case Switch(_, cases, no) => seq(|cases|, i requires 0 <= i < |cases| => cases[i].1) + [no]
    case _ => []
  }

  predicate EdgeOK(pr: Program, e: Edge) {
    var t := FindBlock(pr.blocks, e.target);
    t.Some? && RegTypes(t.value.parameters) == RegTypes(e.args)
  }

  // Following an edge loses no dominance information, and a root relies on none.
  ghost predicate FlowOK(pr: Program, f: Facts) {
    && (forall b :: b in pr.blocks ==> b.id in f.dom)
    && (forall b :: b in pr.blocks && b.id in f.roots ==> f.dom[b.id] <= {b.id})
    && (forall b, e :: b in pr.blocks && e in Edges(b.terminator) ==>
          EdgeOK(pr, e) && e.target in f.dom && f.dom[e.target] <= f.dom[b.id] + {e.target})
  }

  // --------------------------------------------------------------------------------
  // Typing.

  // `t` is a vector type and `u` a type that can index it.
  predicate IndexedVector(p: Project, t: nat, u: nat) {
    && (HasKind(p, t, TVec) || HasKind(p, t, TBoundedVec))
    && (|| (HasKind(p, u, TBits) && (p.major >= 5 || p.types[u].bound == 64))
        || (p.major >= 5 && HasKind(p, u, TFin)))
    && |p.types[t].fields| > 0
  }


  predicate InstructionOK(p: Project, i: Instruction) {
    match i.op
    case Unary =>
      && p.major >= 2 && |i.args| == 1 && i.dest.Some? && i.dest.value.ty == i.args[0].ty
      && (if i.immediate == 0 then HasKind(p, i.args[0].ty, TBool)
          else i.immediate <= 2 && HasKind(p, i.args[0].ty, TBits))
    case Compare =>
      && p.major >= 2 && |i.args| == 2 && i.dest.Some? && i.args[0].ty == i.args[1].ty
      && HasKind(p, i.dest.value.ty, TBool) && i.immediate <= 5
      && (i.immediate <= 1 || HasKind(p, i.args[0].ty, TBits))
    case Convert =>
      && p.major >= 2 && |i.args| == 1 && i.dest.Some? && i.immediate <= 2
      && HasKind(p, i.args[0].ty, TBits) && HasKind(p, i.dest.value.ty, TBits)
      && (if i.immediate == 0 then p.types[i.args[0].ty].bound <= p.types[i.dest.value.ty].bound
          else p.types[i.args[0].ty].bound >= p.types[i.dest.value.ty].bound)
    case GetNow =>
      && p.major >= 2 && |i.args| == 0 && i.dest.Some?
      && HasKind(p, i.dest.value.ty, TBits) && p.types[i.dest.value.ty].bound == 64
    case Const =>
      |i.args| == 0 && i.dest.Some? && Fits(p, i.dest.value.ty, i.value)
    case Move =>
      |i.args| == 1 && i.dest.Some? && i.dest.value.ty == i.args[0].ty
    case Binary =>
      && |i.args| == 2 && i.dest.Some? && i.args[0].ty == i.args[1].ty
      && var t := i.args[0].ty;
         (match i.binary
          case EqOp => HasKind(p, i.dest.value.ty, TBool)
          case AndOp | OrOp => HasKind(p, t, TBool) && i.dest.value.ty == t
          case LtOp =>
            && (HasKind(p, t, TBits) || (p.major >= 5 && HasKind(p, t, TFin)))
            && HasKind(p, i.dest.value.ty, TBool)
          case _ => HasKind(p, t, TBits) && i.dest.value.ty == t)
    case SelectValue =>
      && |i.args| == 3 && i.dest.Some? && HasKind(p, i.args[0].ty, TBool)
      && i.args[1].ty == i.args[2].ty && i.dest.value.ty == i.args[1].ty
    case MakeRecord =>
      && i.dest.Some? && HasKind(p, i.dest.value.ty, TRecord)
      && p.types[i.dest.value.ty].fields == RegTypes(i.args)
    case MakeVariant =>
      && i.dest.Some? && HasKind(p, i.dest.value.ty, TVariant)
      && i.immediate < |p.types[i.dest.value.ty].constructors|
      && i.immediate < TWO64
      && p.types[i.dest.value.ty].constructors[i.immediate] == RegTypes(i.args)
    case MakeVec =>
      && i.dest.Some?
      && (HasKind(p, i.dest.value.ty, TVec) || HasKind(p, i.dest.value.ty, TBoundedVec))
      && var s := p.types[i.dest.value.ty];
         && (if s.kind.TVec? then |i.args| == s.bound else |i.args| <= s.bound)
         && |s.fields| > 0
         && forall j :: 0 <= j < |i.args| ==> i.args[j].ty == s.fields[0]
    case GetField =>
      && |i.args| == 1 && i.dest.Some? && HasKind(p, i.args[0].ty, TRecord)
      && i.immediate < |p.types[i.args[0].ty].fields|
      && i.dest.value.ty == p.types[i.args[0].ty].fields[i.immediate]
    case VariantTag =>
      && |i.args| == 1 && i.dest.Some? && HasKind(p, i.args[0].ty, TVariant)
      && HasKind(p, i.dest.value.ty, TBits) && p.types[i.dest.value.ty].bound == 64
    case VariantGet =>
      && |i.args| == 1 && i.dest.Some? && HasKind(p, i.args[0].ty, TVariant)
      && var cs := p.types[i.args[0].ty].constructors;
         var tag, field := i.immediate / 65536, i.immediate % 65536;
         tag < |cs| && field < |cs[tag]| && i.dest.value.ty == cs[tag][field]
    case VecGet =>
      && |i.args| == 2 && i.dest.Some? && IndexedVector(p, i.args[0].ty, i.args[1].ty)
      && i.dest.value.ty == p.types[i.args[0].ty].fields[0]
    case VecSet =>
      && |i.args| == 3 && i.dest.Some? && IndexedVector(p, i.args[0].ty, i.args[1].ty)
      && i.dest.value.ty == i.args[0].ty && i.args[2].ty == p.types[i.args[0].ty].fields[0]
    case LoadState =>
      && |i.args| == 0 && i.dest.Some? && i.immediate < |p.stateTypes|
      && i.dest.value.ty == p.stateTypes[i.immediate]
    case BufferStateWrite =>
      && |i.args| == 1 && i.dest.None? && i.immediate < |p.stateTypes|
      && i.args[0].ty == p.stateTypes[i.immediate]
    case Check =>
      |i.args| == 1 && i.dest.None? && HasKind(p, i.args[0].ty, TBool)
    case Trace =>
      i.dest.None?
    case CallPure =>
      && p.major >= 2
      && var callee := FindProgram(p.programs, i.immediate);
         && callee.Some?
         && callee.value.inputTypes == RegTypes(i.args)
         && i.dest.Some? && callee.value.resultTypes == [i.dest.value.ty]
    case Service(code) =>
      && p.major >= 2
      && i.immediate in p.services
      && var s := p.services[i.immediate];
         && s.code == code
         && s.inputTypes == RegTypes(i.args)
         && |s.resultTypes| <= 1
         && (i.dest.Some? <==> s.resultTypes != [])
         && (i.dest.Some? ==> i.dest.value.ty == s.resultTypes[0])
  }

  predicate TerminatorOK(p: Project, pr: Program, f: Facts, b: Block) {
    var order := |b.instructions| + 1;
    match b.terminator
    case Jump(yes) => AllUsable(f, b, yes.args, order)
    case Branch(cond, yes, no) =>
      && Usable(f, b, cond, order) && HasKind(p, cond.ty, TBool)
      && AllUsable(f, b, yes.args, order) && AllUsable(f, b, no.args, order)
    case Switch(on, cases, no) =>
      && Usable(f, b, on, order) && HasKind(p, on.ty, TBits)
      && (forall i :: 0 <= i < |cases| ==> AllUsable(f, b, cases[i].1.args, order))
      && AllUsable(f, b, no.args, order)
    case Return(values) =>
      RegTypes(values) == pr.resultTypes && AllUsable(f, b, values, order)
    case Fail(_) => true
    case TransportReturn(reply) =>
      && Usable(f, b, reply, order)
      && pr.resultTypes == [reply.ty]
      && |b.instructions| > 0
      && var last := b.instructions[|b.instructions| - 1];
         last.op == Service(SET_TRANSPORT_RETURN) && |last.args| == 1 && last.args[0].id == reply.id
    case Suspend(wait, resume, live) =>
      && Usable(f, b, wait, order) && HasKind(p, wait.ty, THandle)
      && p.types[wait.ty].bound == KindIndex(KWait)
      && AllUsable(f, b, live, order)
      && var t := FindBlock(pr.blocks, resume);
         && t.Some?
         && |t.value.parameters| == |live| + 1
         && RegTypes(t.value.parameters[1..]) == RegTypes(live)
         && resume in f.roots
  }

  ghost predicate BlockOK(p: Project, pr: Program, f: Facts, b: Block) {
    && (forall k :: 0 <= k < |b.instructions| ==>
          InstructionOK(p, b.instructions[k]) && AllUsable(f, b, b.instructions[k].args, k + 1))
    && TerminatorOK(p, pr, f, b)
  }

  ghost predicate EntryOK(pr: Program, f: Facts) {
    && pr.entry in f.roots
    && var e := FindBlock(pr.blocks, pr.entry);
       e.Some? && RegTypes(e.value.parameters) == pr.inputTypes
  }

  ghost predicate UniqueBlocks(pr: Program) {
    forall b {:trigger FindBlock(pr.blocks, b.id)} :: b in pr.blocks ==> FindBlock(pr.blocks, b.id) == Some(b)
  }

  ghost predicate ProgramOK(p: Project, pr: Program, f: Facts) {
    && UniqueBlocks(pr)
    && EntryOK(pr, f)
    && DefsOK(p, pr, f.defs)
    && FlowOK(pr, f)
    && (forall b {:trigger BlockOK(p, pr, f, b)} :: b in pr.blocks ==> BlockOK(p, pr, f, b))
  }

  // --------------------------------------------------------------------------------
  // Pure calls.

  predicate PureOp(op: Op) {
    match op
    case LoadState | BufferStateWrite | Check | Trace | GetNow | Service(_) => false
    case _ => true
  }

  predicate PureBlock(b: Block) {
    && !b.terminator.Suspend? && !b.terminator.TransportReturn?
    && forall k :: 0 <= k < |b.instructions| ==> PureOp(b.instructions[k].op)
  }

  // Every pure call made by `pr` goes to a program of height at most `bound`.
  ghost predicate CallsBelow(pr: Program, pureHeights: map<nat, nat>, bound: int) {
    forall b, k :: b in pr.blocks && 0 <= k < |b.instructions| && b.instructions[k].op.CallPure? ==>
      b.instructions[k].immediate in pureHeights && pureHeights[b.instructions[k].immediate] <= bound
  }

  ghost predicate PureProgramOK(pr: Program, pureHeights: map<nat, nat>) {
    && pr.id in pureHeights
    && 1 <= pureHeights[pr.id] <= FULL_DEPTH
    && (forall b :: b in pr.blocks ==> PureBlock(b))
    && CallsBelow(pr, pureHeights, pureHeights[pr.id] - 1)
  }

  ghost predicate PureCallsOK(p: Project, pureHeights: map<nat, nat>) {
    && (forall pr {:trigger PureProgramOK(pr, pureHeights)} ::
          pr in p.programs && pr.id in pureHeights ==> PureProgramOK(pr, pureHeights))
    && (forall pr {:trigger CallsBelow(pr, pureHeights, FULL_DEPTH)} ::
          pr in p.programs ==> CallsBelow(pr, pureHeights, FULL_DEPTH))
  }

  ghost predicate StateOK(p: Project) {
    AllFit(p, p.stateTypes, p.initialState)
  }

  ghost predicate UniquePrograms(p: Project) {
    forall pr {:trigger FindProgram(p.programs, pr.id)} ::
      pr in p.programs ==> FindProgram(p.programs, pr.id) == Some(pr)
  }

  ghost predicate ProjectOK(p: Project, c: Certificate) {
    && TypesOK(p, c.heights)
    && StateOK(p)
    && UniquePrograms(p)
    && PureCallsOK(p, c.pureHeights)
    && (forall pr {:trigger ProgramOK(p, pr, c.facts[pr.id])} ::
          pr in p.programs ==> pr.id in c.facts && ProgramOK(p, pr, c.facts[pr.id]))
  }

  lemma ProgramFacts(p: Project, c: Certificate, pr: Program)
    requires ProjectOK(p, c) && pr in p.programs
    ensures pr.id in c.facts && ProgramOK(p, pr, c.facts[pr.id])
    ensures FindProgram(p.programs, pr.id) == Some(pr)
  {
    assert ProgramOK(p, pr, c.facts[pr.id]);
  }

  lemma BlockFacts(p: Project, c: Certificate, pr: Program, b: Block)
    requires ProjectOK(p, c) && pr in p.programs && b in pr.blocks
    ensures pr.id in c.facts && BlockOK(p, pr, c.facts[pr.id], b)
  {
    ProgramFacts(p, c, pr);
    assert BlockOK(p, pr, c.facts[pr.id], b);
  }
}
