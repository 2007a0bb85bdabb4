// ExecIR: the type table, runtime values, programs, and the relation `conforms`
// between them (runtime/include/leanat/exec_ir.hpp, runtime/src/exec_ir.cpp).
module ExecIR {
  import opened Common

  datatype TypeKind =
    | TUnit | TBool | TBits | TFin | TRecord | TVariant | TVec | TBoundedVec | TBytes | THandle

  datatype Type = Type(kind: TypeKind, bound: u64, fields: seq<nat>, constructors: seq<seq<nat>>)

  datatype Value =
    | Unit
    | Bool(b: bool)
    | Num(n: u64)
    | Signed(i: int)
    | Bytes(bytes: seq<bv8>)
    | Array(elems: seq<Value>)
    | Hnd(handle: Handle)

  datatype Reg = Reg(id: nat, ty: nat)

  datatype BinaryOp =
    | AddWrap | SubWrap | MulWrap | AddChecked | DivChecked | EqOp | LtOp | AndOp | OrOp

  // `Service(code)` stands for the opcodes that are dispatched to a provider.
  datatype Op =
    | Const | Move | Binary | MakeRecord | GetField | MakeVariant | VariantTag | VariantGet
    | MakeVec | VecGet | VecSet | SelectValue | LoadState | BufferStateWrite | Check | Trace
    | Unary | Compare | Convert | CallPure | GetNow | Service(code: nat)

  const SET_TRANSPORT_RETURN: nat := 41

  datatype Instruction = Instruction(
    op: Op, args: seq<Reg>, dest: Option<Reg>, value: Value, immediate: nat, binary: BinaryOp, text: string)

  datatype Edge = Edge(target: nat, args: seq<Reg>)

  datatype Terminator =
    | Jump(yes: Edge)
    | Branch(cond: Reg, yes: Edge, no: Edge)
    | Switch(on: Reg, cases: seq<(u64, Edge)>, no: Edge)
    | Return(values: seq<Reg>)
    | Fail(error: string)
    | TransportReturn(reply: Reg)
    | Suspend(wait: Reg, resume: nat, live: seq<Reg>)

  datatype Block = Block(id: nat, parameters: seq<Reg>, instructions: seq<Instruction>, terminator: Terminator)

  datatype Program = Program(
    id: nat, inputTypes: seq<nat>, resultTypes: seq<nat>, blocks: seq<Block>, entry: nat, instructionFuel: u64)

  // What a provider of a service opcode declares.
  datatype Signature = Signature(code: nat, inputTypes: seq<nat>, resultTypes: seq<nat>, extraFuel: nat)

  datatype Project = Project(
    major: nat, types: seq<Type>, stateTypes: seq<nat>, initialState: seq<Value>, programs: seq<Program>,
    services: map<nat, Signature>)

  function Pow2(w: nat): (r: nat)
    ensures r >= 1
  {
    if w == 0 then 1 else 2 * Pow2(w - 1)
  }

  function FindBlock(blocks: seq<Block>, id: nat): (r: Option<Block>)
    ensures r.Some? ==> r.value in blocks && r.value.id == id
    ensures r.None? ==> forall b :: b in blocks ==> b.id != id
  {
    if blocks == [] then None
    else if blocks[0].id == id then Some(blocks[0])
    else FindBlock(blocks[1..], id)
  }

  function FindProgram(programs: seq<Program>, id: nat): (r: Option<Program>)
    ensures r.Some? ==> r.value in programs && r.value.id == id
    ensures r.None? ==> forall q :: q in programs ==> q.id != id
  {
    if programs == [] then None
    else if programs[0].id == id then Some(programs[0])
    else FindProgram(programs[1..], id)
  }

  predicate HasKind(p: Project, t: nat, k: TypeKind) {
    t < |p.types| && p.types[t].kind == k
  }

  function RegTypes(rs: seq<Reg>): (ts: seq<nat>)
    ensures |ts| == |rs|
  {
    seq(|rs|, i requires 0 <= i < |rs| => rs[i].ty)
  }

  // --------------------------------------------------------------------------------
  // Conformance of a value to a type, explored to a bounded depth.

  predicate Conforms(p: Project, t: nat, v: Value, d: nat)
    decreases d, 0
  {
    && d > 0
    && t < |p.types|
    && var s := p.types[t];
       match s.kind
       case TBytes => v.Bytes? && |v.bytes| <= s.bound
       case THandle => v.Hnd? && KindIndex(v.handle.kind) == s.bound
       case TUnit => v.Unit?
       case TBool => v.Bool?
       case TBits => v.Num? && 1 <= s.bound <= 64 && v.n < Pow2(s.bound)
       case TFin => v.Num? && ((p.major >= 5 && s.bound == 0) || v.n < s.bound)
       case TRecord => v.Array? && FieldsConform(p, s.fields, v.elems, d - 1)
       case TVariant =>
         && v.Array?
         && |v.elems| == 2
         && v.elems[0].Num?
         && v.elems[1].Array?
         && v.elems[0].n < |s.constructors|
         && FieldsConform(p, s.constructors[v.elems[0].n], v.elems[1].elems, d - 1)
       case TVec =>
         v.Array? && |s.fields| == 1 && |v.elems| == s.bound && ElementsConform(p, s.fields[0], v.elems, d - 1)
       case TBoundedVec =>
         v.Array? && |s.fields| == 1 && |v.elems| <= s.bound && ElementsConform(p, s.fields[0], v.elems, d - 1)
  }

  predicate FieldsConform(p: Project, fs: seq<nat>, vs: seq<Value>, d: nat)
    decreases d, 1
  {
    |fs| == |vs| && forall i :: 0 <= i < |vs| ==> Conforms(p, fs[i], vs[i], d)
  }

  predicate ElementsConform(p: Project, t: nat, vs: seq<Value>, d: nat)
    decreases d, 1
  {
    forall i :: 0 <= i < |vs| ==> Conforms(p, t, vs[i], d)
  }

  // The depth with which the interpreter checks values.
  const FULL_DEPTH: nat := 64

  predicate Fits(p: Project, t: nat, v: Value) {
    Conforms(p, t, v, FULL_DEPTH)
  }

  predicate AllFit(p: Project, ts: seq<nat>, vs: seq<Value>) {
    |ts| == |vs| && forall i :: 0 <= i < |vs| ==> Fits(p, ts[i], vs[i])
  }

  // --------------------------------------------------------------------------------
  // The type graph.

  // `c` is mentioned by the layout of `s`.
  predicate ChildOf(s: Type, c: nat) {
    match s.kind
    case TRecord => c in s.fields
    case TVariant => exists k :: 0 <= k < |s.constructors| && c in s.constructors[k]
    case TVec | TBoundedVec => c in s.fields
    case _ => false
  }

  // A table of heights: every type is strictly higher than the types it mentions.
  ghost predicate HeightsOK(p: Project, h: seq<nat>) {
    && |h| == |p.types|
    && (forall t :: 0 <= t < |h| ==> 1 <= h[t] <= FULL_DEPTH)
    && (forall t, c: nat | 0 <= t < |h| && ChildOf(p.types[t], c) :: c < |h| && h[c] < h[t])
  }

  // Per-type shape restrictions.
  predicate TypeShapeOK(p: Project, s: Type) {
    && (s.kind.THandle? ==> s.bound <= 14)
    && (s.kind.TBits? ==> 1 <= s.bound <= 64)
    && (s.kind.TFin? && s.bound == 0 ==> p.major >= 5)
    && (s.kind.TUnit? || s.kind.TBool? || s.kind.TRecord? || s.kind.TVariant? ==> s.bound == 0)
    && (s.kind.TVariant? ==> |s.constructors| > 0)
    && (s.kind.TVec? || s.kind.TBoundedVec? ==> |s.fields| == 1)
    && (!s.kind.TRecord? && !s.kind.TVec? && !s.kind.TBoundedVec? ==> s.fields == [])
    && (!s.kind.TVariant? ==> s.constructors == [])
    && (s.kind.TBytes? || s.kind.THandle? ==> p.major != 1)
  }

  ghost predicate TypesOK(p: Project, h: seq<nat>) {
    HeightsOK(p, h) && forall t :: 0 <= t < |p.types| ==> TypeShapeOK(p, p.types[t])
  }

  // Above its height a type is explored completely: the depth no longer matters.
  lemma {:induction false} DepthIrrelevant(p: Project, h: seq<nat>, t: nat, v: Value, d: nat, e: nat)
    requires TypesOK(p, h)
    requires t < |h| && h[t] <= d && h[t] <= e
    requires Conforms(p, t, v, d)
    ensures Conforms(p, t, v, e)
    decreases h[t]
  {
    var s := p.types[t];
    match s.kind
    case TRecord =>
      forall i | 0 <= i < |v.elems| ensures Conforms(p, s.fields[i], v.elems[i], e - 1) {
        assert ChildOf(s, s.fields[i]);
        DepthIrrelevant(p, h, s.fields[i], v.elems[i], d - 1, e - 1);
      }
    case TVariant =>
      var fs, vs := s.constructors[v.elems[0].n], v.elems[1].elems;
      forall i | 0 <= i < |vs| ensures Conforms(p, fs[i], vs[i], e - 1) {
        assert ChildOf(s, fs[i]);
        DepthIrrelevant(p, h, fs[i], vs[i], d - 1, e - 1);
      }
    case TVec | TBoundedVec =>
      forall i | 0 <= i < |v.elems| ensures Conforms(p, s.fields[0], v.elems[i], e - 1) {
        assert ChildOf(s, s.fields[0]);
        DepthIrrelevant(p, h, s.fields[0], v.elems[i], d - 1, e - 1);
      }
    case _ =>
  }

  // Inside a composite value the components are seen one level deeper; for an accepted
  // type table that is the same as seeing them on their own.
  lemma ChildDepth(p: Project, h: seq<nat>, t: nat, c: nat, v: Value)
    requires TypesOK(p, h)
    requires t < |h| && ChildOf(p.types[t], c)
    ensures c < |h|
    ensures Conforms(p, c, v, FULL_DEPTH - 1) <==> Fits(p, c, v)
  {
    if Conforms(p, c, v, FULL_DEPTH - 1) {
      DepthIrrelevant(p, h, c, v, FULL_DEPTH - 1, FULL_DEPTH);
    }
    if Fits(p, c, v) {
      DepthIrrelevant(p, h, c, v, FULL_DEPTH, FULL_DEPTH - 1);
    }
  }

  lemma FieldsDepth(p: Project, h: seq<nat>, t: nat, fs: seq<nat>, vs: seq<Value>)
    requires TypesOK(p, h)
    requires t < |h| && forall i :: 0 <= i < |fs| ==> ChildOf(p.types[t], fs[i])
    ensures FieldsConform(p, fs, vs, FULL_DEPTH - 1) <==> AllFit(p, fs, vs)
  {
    if |fs| == |vs| {
      forall i | 0 <= i < |vs| ensures Conforms(p, fs[i], vs[i], FULL_DEPTH - 1) <==> Fits(p, fs[i], vs[i]) {
        ChildDepth(p, h, t, fs[i], vs[i]);
      }
    }
  }

  lemma ConstructorDepth(p: Project, h: seq<nat>, t: nat, tag: nat, vs: seq<Value>)
    requires TypesOK(p, h)
    requires t < |h| && p.types[t].kind.TVariant? && tag < |p.types[t].constructors|
    ensures var fs := p.types[t].constructors[tag];
            FieldsConform(p, fs, vs, FULL_DEPTH - 1) <==> AllFit(p, fs, vs)
  {
    var fs := p.types[t].constructors[tag];
    forall i | 0 <= i < |fs| ensures ChildOf(p.types[t], fs[i]) {
      assert fs[i] in p.types[t].constructors[tag];
    }
    FieldsDepth(p, h, t, fs, vs);
  }

  lemma ElementsDepth(p: Project, h: seq<nat>, t: nat, vs: seq<Value>)
    requires TypesOK(p, h)
    requires t < |h| && (p.types[t].kind.TVec? || p.types[t].kind.TBoundedVec?)
    ensures var c := p.types[t].fields[0];
            ElementsConform(p, c, vs, FULL_DEPTH - 1) <==> forall i :: 0 <= i < |vs| ==> Fits(p, c, vs[i])
  {
    var c := p.types[t].fields[0];
    forall i | 0 <= i < |vs| ensures Conforms(p, c, vs[i], FULL_DEPTH - 1) <==> Fits(p, c, vs[i]) {
      ChildDepth(p, h, t, c, vs[i]);
    }
  }
}
