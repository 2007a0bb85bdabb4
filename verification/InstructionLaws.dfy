// What the opcodes mean to each other: building and taking apart, writing and reading,
// comparing, and choosing where to go (runtime/src/interpreter.cpp).
module InstructionLaws {
  import opened Common
  import opened ExecIR
  import opened Interpreter
  import Numeric

  function Plain(op: Op, args: seq<Reg>, immediate: nat): Instruction {
    Instruction(op, args, None, Unit, immediate, EqOp, "")
  }

  // --------------------------------------------------------------------------------
  // Comparing, then branching.

  // What the comparison modes stand for.
  predicate Related(mode: nat, x: int, y: int) {
    match mode
    case 0 => x == y
    case 1 => x != y
    case 2 => x < y
    case 3 => x <= y
    case 4 => x > y
    case _ => x >= y
  }

  // Control passes along an edge.
  function Follow(env: Env, pr: Program, edge: Edge, m: Machine, fuel: nat, depth: nat): Outcome {
    match (ReadAll(m.regs, edge.args), FindBlock(pr.blocks, edge.target))
    case (Some(incoming), Some(target)) =>
      if |incoming| > |target.parameters| then Abort(Invariant, fuel)
      else Exec(env, pr, target, 0, m.(regs := BindAll(m.regs, target.parameters[..|incoming|], incoming)), fuel, depth)
    case _ => Abort(Invariant, fuel)
  }

  // The block ends by comparing registers `a` and `b` and branching on the outcome.
  predicate Decides(b: Block, mode: nat, x: Reg, y: Reg, c: Reg, yes: Edge, no: Edge) {
    && b.instructions != [] && b.terminator == Branch(c, yes, no)
    && var i := b.instructions[|b.instructions| - 1];
       i.op.Compare? && i.args == [x, y] && i.immediate == mode && i.dest == Some(c)
  }

  // Both registers hold numbers of the width of `x`, and `c` is a truth value.
  predicate Comparable(p: Project, regs: map<nat, Value>, x: Reg, y: Reg, c: Reg) {
    && x.id in regs && y.id in regs && regs[x.id].Num? && regs[y.id].Num?
    && HasKind(p, x.ty, TBits) && 1 <= p.types[x.ty].bound <= 64
    && regs[x.id].n < Pow2(p.types[x.ty].bound) && regs[y.id].n < Pow2(p.types[x.ty].bound)
    && HasKind(p, c.ty, TBool)
  }

  lemma CompareComputes(env: Env, i: Instruction, x: Reg, y: Reg, c: Reg, m: Machine, fuel: nat, depth: nat)
    requires i.op.Compare? && i.args == [x, y] && i.immediate <= 5 && Comparable(env.p, m.regs, x, y, c)
    ensures ReadAll(m.regs, i.args) == Some([m.regs[x.id], m.regs[y.id]])
    ensures Perform(env, i, [m.regs[x.id], m.regs[y.id]], m, fuel, depth)
            == Next(Bool(Related(i.immediate, m.regs[x.id].n, m.regs[y.id].n)), m, fuel)
  {
    assert ReadAll(m.regs, i.args).value == [m.regs[x.id], m.regs[y.id]];
  }

  // Execution goes where the relation between the two numbers says, two units of fuel
  // later, and only the condition register has changed.
  lemma BranchOnCompare(env: Env, pr: Program, b: Block, mode: nat, x: Reg, y: Reg, c: Reg, yes: Edge, no: Edge, m: Machine, fuel: nat, depth: nat)
    requires mode <= 5 && fuel >= 2 && Decides(b, mode, x, y, c, yes, no) && Comparable(env.p, m.regs, x, y, c)
    ensures var holds := Related(mode, m.regs[x.id].n, m.regs[y.id].n);
            Exec(env, pr, b, |b.instructions| - 1, m, fuel, depth)
            == Follow(env, pr, if holds then yes else no, m.(regs := m.regs[c.id := Bool(holds)]), fuel - 2, depth)
  {
    var k := |b.instructions| - 1;
    var i := b.instructions[k];
    CompareComputes(env, i, x, y, c, m, fuel - 1, depth);
    var holds := Related(mode, m.regs[x.id].n, m.regs[y.id].n);
    var m' := m.(regs := m.regs[c.id := Bool(holds)]);
    assert Fits(env.p, c.ty, Bool(holds));
    assert Exec(env, pr, b, k, m, fuel, depth) == Exec(env, pr, b, k + 1, m', fuel - 1, depth) by {
      UnfoldInstruction(env, pr, b, k, m, fuel, depth, [m.regs[x.id], m.regs[y.id]], Next(Bool(holds), m, fuel - 1));
    }
    assert Exec(env, pr, b, k + 1, m', fuel - 1, depth) == Terminate(env, pr, b, m', fuel - 1, depth);
  }

  // The converse comparison with its operands exchanged decides alike, so the rewritten
  // block behaves the same.
  lemma ConverseSame(env: Env, pr: Program, b: Block, d: Block, mode: nat, x: Reg, y: Reg, c: Reg, yes: Edge, no: Edge, m: Machine, fuel: nat, depth: nat)
    requires mode <= 5 && x.ty == y.ty && Comparable(env.p, m.regs, x, y, c)
    requires Decides(b, mode, x, y, c, yes, no) && Decides(d, Converse(mode), y, x, c, yes, no)
    ensures Exec(env, pr, b, |b.instructions| - 1, m, fuel, depth) == Exec(env, pr, d, |d.instructions| - 1, m, fuel, depth)
  {
    if fuel >= 2 {
      BranchOnCompare(env, pr, b, mode, x, y, c, yes, no, m, fuel, depth);
      BranchOnCompare(env, pr, d, Converse(mode), y, x, c, yes, no, m, fuel, depth);
    } else if fuel == 1 {
      CompareComputes(env, b.instructions[|b.instructions| - 1], x, y, c, m, 0, depth);
      CompareComputes(env, d.instructions[|d.instructions| - 1], y, x, c, m, 0, depth);
    }
  }

  function Converse(mode: nat): nat {
    match mode
    case 2 => 4
    case 3 => 5
    case 4 => 2
    case 5 => 3
    case n => n
  }

  // A switch takes the first case with the tag of its operand, and the default otherwise.
  lemma {:induction false} SwitchFollows(cases: seq<(u64, Edge)>, tag: u64, no: Edge, k: nat)
    requires k <= |cases| && forall j :: 0 <= j < k ==> cases[j].0 != tag
    ensures SelectCase(cases, tag, no) == if k < |cases| && cases[k].0 == tag then cases[k].1 else SelectCase(cases[k..], tag, no)
    ensures k == |cases| ==> SelectCase(cases, tag, no) == no
  {
    if k > 0 {
      SwitchFollows(cases[1..], tag, no, k - 1);
      assert cases[1..][k - 1..] == cases[k..];
    } else {
      assert cases[0..] == cases;
    }
  }

  // --------------------------------------------------------------------------------
  // Building and taking apart, writing and reading.

  // A record gives back the field it was made of.
  lemma RecordGivesBack(env: Env, rs: seq<Reg>, r: Reg, vs: seq<Value>, store: Store, f: nat)
    requires |vs| == |rs| && f < |vs|
    ensures var made := EvalValue(env, Plain(MakeRecord, rs, 0), vs, store);
            made.Ok? && EvalValue(env, Plain(GetField, [r], f), [made.value], store) == Ok(vs[f])
  {
  }

  // A variant remembers its tag, and gives its fields back under that tag only.
  lemma VariantGivesBack(env: Env, rs: seq<Reg>, r: Reg, vs: seq<Value>, store: Store, tag: nat, other: nat, f: nat)
    requires |vs| == |rs| && f < |vs| && f < 65536 && tag < TWO64 && tag != other
    ensures var made := EvalValue(env, Plain(MakeVariant, rs, tag), vs, store);
            && made.Ok?
            && EvalValue(env, Plain(VariantTag, [r], 0), [made.value], store) == Ok(Num(tag))
            && EvalValue(env, Plain(VariantGet, [r], tag * 65536 + f), [made.value], store) == Ok(vs[f])
            && EvalValue(env, Plain(VariantGet, [r], other * 65536 + f), [made.value], store) == Err(VariantTagMismatch)
  {
    assert (tag * 65536 + f) / 65536 == tag && (tag * 65536 + f) % 65536 == f;
    assert (other * 65536 + f) / 65536 == other;
  }

  // Setting an element changes that element and no other, and never the length.
  lemma VectorSetGet(env: Env, a: Reg, b: Reg, c: Reg, xs: seq<Value>, i: u64, j: u64, v: Value, store: Store)
    requires i < |xs|
    ensures var set1 := EvalValue(env, Plain(VecSet, [a, b, c], 0), [Array(xs), Num(i), v], store);
            && set1.Ok? && set1.value.Array? && |set1.value.elems| == |xs|
            && EvalValue(env, Plain(VecGet, [a, b], 0), [set1.value, Num(i)], store) == Ok(v)
            && (j != i ==> EvalValue(env, Plain(VecGet, [a, b], 0), [set1.value, Num(j)], store)
                           == EvalValue(env, Plain(VecGet, [a, b], 0), [Array(xs), Num(j)], store))
  {
  }

  // A buffered cell is what later loads see; other cells read as before.
  lemma StateWriteRead(env: Env, r: Reg, m: Machine, c: nat, d: nat, v: Value)
    requires EvalEffect(env, Plain(BufferStateWrite, [r], c), [v], m).Ok?
    ensures var m' := EvalEffect(env, Plain(BufferStateWrite, [r], c), [v], m).value;
            && EvalValue(env, Plain(LoadState, [], c), [], m'.store) == Ok(v)
            && (d != c ==> EvalValue(env, Plain(LoadState, [], d), [], m'.store) == EvalValue(env, Plain(LoadState, [], d), [], m.store))
            && m'.store.cells == m.store.cells && m'.regs == m.regs && m'.traces == m.traces
  {
  }

  function Compares(mode: nat, x: u64, y: u64, width: nat): bool {
    Numeric.EvalCompare(mode, Num(x), Num(y), width) == Ok(Bool(true))
  }

  // The six comparisons of one width form one total order: exactly one of less, equal and
  // greater holds, and the others are their negations and converses.
  lemma ComparisonsCohere(x: u64, y: u64, width: nat)
    requires 1 <= width <= 64 && x < Pow2(width) && y < Pow2(width)
    ensures Compares(0, x, y, width) <==> x == y
    ensures Compares(1, x, y, width) <==> !Compares(0, x, y, width)
    ensures Compares(2, x, y, width) <==> !Compares(0, x, y, width) && !Compares(2, y, x, width)
    ensures Compares(3, x, y, width) <==> Compares(2, x, y, width) || Compares(0, x, y, width)
    ensures Compares(4, x, y, width) <==> Compares(2, y, x, width)
    ensures Compares(5, x, y, width) <==> !Compares(2, x, y, width)
    ensures x + 1 == y ==> Compares(2, x, y, width)
  {
  }
}
