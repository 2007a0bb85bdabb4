// Loading a descriptor (runtime/src/descriptor.cpp). The Reader advances through the file
// and builds the project; each of its methods is proved to have consumed exactly the bytes
// that writing its result would append. So whatever is accepted is canonical.
module DescriptorReader {
  import opened Common
  import opened Descriptor
  import Utf8Text

  // What a read gives back: a value, or the end of loading.
  datatype Read<+T> = Bad | Got(v: T) {
    predicate IsFailure() {
      Bad?
    }
    function PropagateFailure<U>(): Read<U> {
      Bad
    }
    function Extract(): T
      requires Got?
    {
      v
    }
  }

  // Limits of the host. `rowCost` stands for the size of an in-memory row.
  datatype Policy = Policy(
    memory: nat, maxFile: nat, maxString: nat, maxRows: nat, maxWork: nat, maxDepth: nat, maxElements: nat, rowCost: nat,
    profile: bytes, capabilities: seq<bytes>, opcodes: nat)

  // --------------------------------------------------------------------------------
  // Numbers.

  function Pow256(n: nat): nat {
    if n == 0 then 1 else 256 * Pow256(n - 1)
  }

  lemma Shift(x: nat, p: nat)
    ensures 256 * (x * p) == x * (256 * p)
  {
  }

  lemma {:induction false} NumberAppend(s: bytes, x: byte)
    ensures Number(s + [x]) == Number(s) + x * Pow256(|s|)
  {
    if s == [] {
      assert s + [x] == [x] && [x][1..] == [];
    } else {
      NumberAppend(s[1..], x);
      assert (s + [x])[1..] == s[1..] + [x];
      Shift(x, Pow256(|s| - 1));
    }
  }

  function KindOf(n: nat): (k: HandleKind)
    ensures n <= 14 ==> KindIndex(k) == n
  {
    if n == 0 then KTransaction else if n == 1 then KHop else if n == 2 then KEvent else if n == 3 then KProcess
    else if n == 4 then KWait else if n == 5 then KResult else if n == 6 then KConsumer else if n == 7 then KScope
    else if n == 8 then KTask else if n == 9 then KAccess else if n == 10 then KLease else if n == 11 then KResourceTicket
    else if n == 12 then KSpawnTicket else if n == 13 then KDrain else KGateTicket
  }

  function RowsCost(rows: nat, each: nat): nat {
    rows * each
  }

  // --------------------------------------------------------------------------------
  // The reader.

  class Reader {
    const b: bytes
    const policy: Policy
    const base: nat
    var pos: nat
    var memory: nat
    var nodes: nat

    ghost predicate Valid()
      reads this
    {
      base <= pos <= |b| && memory <= policy.memory
    }

    // What has been consumed so far.
    ghost function Eaten(): bytes
      reads this
      requires Valid()
    {
      b[base..pos]
    }

    constructor (b: bytes, policy: Policy, base: nat, memory: nat)
      requires base <= |b| && memory <= policy.memory
      ensures Valid() && Eaten() == [] && this.b == b && this.base == base && this.policy == policy && pos == base && this.memory == memory
    {
      this.b, this.policy, this.base := b, policy, base;
      this.pos, this.memory, this.nodes := base, memory, 0;
    }

    method Charge(n: nat) returns (r: Read<()>)
      requires Valid()
      modifies this`memory
      ensures Valid()
    {
      if n > policy.memory - memory {
        return Bad;
      }
      memory := memory + n;
      return Got(());
    }

    // One more unit of work.
    method Visit() returns (r: Read<()>)
      requires Valid()
      modifies this`nodes
      ensures Valid()
    {
      nodes := nodes + 1;
      if nodes > policy.maxWork {
        return Bad;
      }
      return Got(());
    }

    method N(width: nat) returns (r: Read<nat>)
      requires Valid()
      modifies this`pos
      ensures Valid()
      ensures r.Got? ==> pos == old(pos) + width && r.v == Number(b[old(pos)..pos]) && Eaten() == PutN(old(Eaten()), r.v, width)
    {
      if width > |b| - pos {
        return Bad;
      }
      var x: nat, scale: nat, start: nat := 0, 1, pos;
      for i := 0 to width
        invariant pos == start + i && pos <= |b| && x == Number(b[start..pos]) && scale == Pow256(i)
      {
        NumberAppend(b[start..pos], b[pos]);
        assert b[start..pos + 1] == b[start..pos] + [b[pos]];
        x := x + b[pos] * scale;
        scale := 256 * scale;
        pos := pos + 1;
      }
      NumberBytes(b[start..pos]);
      assert b[base..pos] == b[base..start] + b[start..pos];
      return Got(x);
    }

    method Count(limit: nat) returns (r: Read<nat>)
      requires Valid()
      modifies this
      ensures Valid()
      ensures r.Got? ==> Eaten() == PutN(old(Eaten()), r.v, 4) && r.v <= |b| - pos
    {
      var c :- N(4);
      if c > limit || c > |b| - pos {
        return Bad;
      }
      var _ :- Visit();
      var cost := RowsCost(c, policy.rowCost);
      var _ :- Charge(cost);
      return Got(c);
    }

    // The next `n` bytes as they are.
    method Take(n: nat) returns (r: Read<bytes>)
      requires Valid()
      modifies this`pos
      ensures Valid()
      ensures r.Got? ==> |r.v| == n && Eaten() == old(Eaten()) + r.v
    {
      if n > |b| - pos {
        return Bad;
      }
      var s := b[pos..pos + n];
      assert b[base..pos + n] == b[base..pos] + s;
      pos := pos + n;
      return Got(s);
    }

    method Str() returns (r: Read<bytes>)
      requires Valid()
      modifies this
      ensures Valid()
      ensures r.Got? ==> Eaten() == PutStr(old(Eaten()), r.v) && Utf8Text.Utf8(r.v)
    {
      var c :- N(4);
      if c > policy.maxString {
        return Bad;
      }
      var _ :- Charge(c);
      var s :- Take(c);
      var ok := Utf8Text.CheckUtf8(s);
      if !ok {
        return Bad;
      }
      return Got(s);
    }

    method Flag() returns (r: Read<bool>)
      requires Valid()
      modifies this`pos
      ensures Valid()
      ensures r.Got? ==> Eaten() == PutFlag(old(Eaten()), r.v)
    {
      var x :- N(1);
      if x > 1 {
        return Bad;
      }
      return Got(x == 1);
    }

    method ReadReg() returns (r: Read<Reg>)
      requires Valid()
      modifies this
      ensures Valid()
      ensures r.Got? ==> Eaten() == PutReg((), old(Eaten()), r.v)
    {
      var id :- N(4);
      var ty :- N(4);
      return Got(Reg(id, ty));
    }

    method Regs() returns (r: Read<seq<Reg>>)
      requires Valid()
      modifies this
      ensures Valid()
      ensures r.Got? ==> Eaten() == PutRegs(old(Eaten()), r.v)
    {
      var c :- Count(policy.maxRows);
      ghost var start := Eaten();
      var out: seq<Reg> := [];
      while |out| < c
        invariant Valid() && |out| <= c && Eaten() == PutEach((), start, out, PutReg)
      {
        var x :- ReadReg();
        PutEachAppend((), start, out, x, PutReg);
        out := out + [x];
      }
      return Got(out);
    }

    method Ids() returns (r: Read<seq<nat>>)
      requires Valid()
      modifies this
      ensures Valid()
      ensures r.Got? ==> Eaten() == PutIds((), old(Eaten()), r.v)
    {
      var c :- Count(policy.maxRows);
      ghost var start := Eaten();
      var out: seq<nat> := [];
      while |out| < c
        invariant Valid() && |out| <= c && Eaten() == PutEach((), start, out, PutId)
      {
        var x :- N(4);
        PutEachAppend((), start, out, x, PutId);
        out := out + [x];
      }
      return Got(out);
    }

    method Blob(limit: nat) returns (r: Read<seq<byte>>)
      requires Valid()
      modifies this
      ensures Valid()
      ensures r.Got? ==> Eaten() == PutRows((), old(Eaten()), r.v, PutByte)
    {
      var c :- Count(limit);
      ghost var start := Eaten();
      var out: seq<byte> := [];
      while |out| < c
        invariant Valid() && |out| <= c && Eaten() == PutEach((), start, out, PutByte)
      {
        var x :- ByteOf();
        PutEachAppend((), start, out, x, PutByte);
        out := out + [x];
      }
      return Got(out);
    }

    method ByteOf() returns (r: Read<byte>)
      requires Valid()
      modifies this`pos
      ensures Valid()
      ensures r.Got? ==> Eaten() == PutByte((), old(Eaten()), r.v)
    {
      var s :- Take(1);
      var x: byte := s[0];
      assert s == LittleEndian(x, 1);
      return Got(x);
    }

    method ReadHandle() returns (r: Read<Handle>)
      requires Valid()
      modifies this
      ensures Valid()
      ensures r.Got? ==> Eaten() == PutHandle(old(Eaten()), r.v)
    {
      var kind :- N(1);
      if kind > 14 {
        return Bad;
      }
      var domain :- N(4);
      var store :- N(4);
      var slot :- N(4);
      var generation :- N(8);
      var owner :- N(8);
      return Got(Handle(KindOf(kind), domain, store, slot, generation, owner));
    }

    method IdLists() returns (r: Read<seq<seq<nat>>>)
      requires Valid()
      modifies this
      ensures Valid()
      ensures r.Got? ==> Eaten() == PutRows((), old(Eaten()), r.v, PutIds)
    {
      var c :- Count(policy.maxRows);
      ghost var start := Eaten();
      var out: seq<seq<nat>> := [];
      while |out| < c
        invariant Valid() && |out| <= c && Eaten() == PutEach((), start, out, PutIds)
      {
        var x :- Ids();
        PutEachAppend((), start, out, x, PutIds);
        out := out + [x];
      }
      return Got(out);
    }

    method ReadType() returns (r: Read<Type>)
      requires Valid()
      modifies this
      ensures Valid()
      ensures r.Got? ==> Eaten() == PutType((), old(Eaten()), r.v)
    {
      var kind :- N(1);
      var bound :- N(8);
      var fields :- Ids();
      var constructors :- IdLists();
      return Got(Type(kind, bound, fields, constructors));
    }

    method Types() returns (r: Read<seq<Type>>)
      requires Valid()
      modifies this
      ensures Valid()
      ensures r.Got? ==> Eaten() == PutRows((), old(Eaten()), r.v, PutType)
    {
      var c :- Count(policy.maxRows);
      ghost var start := Eaten();
      var out: seq<Type> := [];
      while |out| < c
        invariant Valid() && |out| <= c && Eaten() == PutEach((), start, out, PutType)
      {
        var x :- ReadType();
        PutEachAppend((), start, out, x, PutType);
        out := out + [x];
      }
      return Got(out);
    }

    method ReadValue(types: seq<Type>, t: nat, depth: nat) returns (r: Read<Value>)
      requires Valid()
      modifies this
      ensures Valid()
      ensures r.Got? ==> Eaten() == PutValue(types, t, old(Eaten()), r.v)
      decreases policy.maxDepth - depth, 2
    {
      if depth > policy.maxDepth {
        return Bad;
      }
      var _ :- Visit();
      var _ :- Charge(policy.rowCost);
      ghost var start := Eaten();
      var tag :- N(1);
      if t >= |types| {
        return Bad;
      }
      var s := types[t];
      if s.kind == RECORD || s.kind == VARIANT || s.kind == VEC || s.kind == BOUNDED_VEC {
        r := ReadComposite(types, t, depth, tag, start);
      } else {
        r := ReadScalar(types, t, tag, start);
      }
    }

    method ReadScalar(types: seq<Type>, t: nat, tag: nat, ghost start: bytes) returns (r: Read<Value>)
      requires Valid() && t < |types| && Eaten() == PutN(start, tag, 1)
      modifies this
      ensures Valid()
      ensures r.Got? ==> Eaten() == PutValue(types, t, start, r.v)
    {
      var s := types[t];
      if s.kind == BYTES {
        if tag != 6 {
          return Bad;
        }
        var data :- Blob(policy.maxElements);
        if |data| > s.bound {
          return Bad;
        }
        return Got(VBytes(data));
      }
      if s.kind == HANDLE {
        if tag != 7 {
          return Bad;
        }
        var h :- ReadHandle();
        if KindIndex(h.kind) != s.bound {
          return Bad;
        }
        return Got(VHandle(h));
      }
      if s.kind == UNIT {
        return if tag == 0 then Got(VUnit) else Bad;
      }
      if s.kind == BOOL {
        if tag != 1 {
          return Bad;
        }
        var x :- Flag();
        return Got(VBool(x));
      }
      if s.kind != BITS && s.kind != FIN {
        return Bad;
      }
      if tag != 2 {
        return Bad;
      }
      var width :- N(4);
      if width != if s.kind == BITS then s.bound else 64 {
        return Bad;
      }
      var n :- N(8);
      return Got(VNum(n));
    }

    method ReadComposite(types: seq<Type>, t: nat, depth: nat, tag: nat, ghost start: bytes) returns (r: Read<Value>)
      requires Valid() && t < |types| && Eaten() == PutN(start, tag, 1) && depth <= policy.maxDepth
      requires types[t].kind == RECORD || types[t].kind == VARIANT || types[t].kind == VEC || types[t].kind == BOUNDED_VEC
      modifies this
      ensures Valid()
      ensures r.Got? ==> Eaten() == PutValue(types, t, start, r.v)
      decreases policy.maxDepth - depth, 1
    {
      var s := types[t];
      if s.kind == RECORD {
        if tag != 3 {
          return Bad;
        }
        var c :- Count(policy.maxRows);
        if c != |s.fields| {
          return Bad;
        }
        var vs :- ReadFields(types, s.fields, depth);
        return Got(VArray(vs));
      }
      if s.kind == VARIANT {
        if tag != 4 {
          return Bad;
        }
        var which :- N(8);
        if which >= |s.constructors| {
          return Bad;
        }
        var c :- Count(policy.maxRows);
        if c != |s.constructors[which]| {
          return Bad;
        }
        var vs :- ReadFields(types, s.constructors[which], depth);
        return Got(VArray([VNum(which), VArray(vs)]));
      }
      if tag != 5 || |s.fields| != 1 {
        return Bad;
      }
      var c :- Count(policy.maxElements);
      if if s.kind == VEC then c != s.bound else c > s.bound {
        return Bad;
      }
      var vs :- ReadElements(types, s.fields[0], c, depth);
      return Got(VArray(vs));
    }

    method ReadFields(types: seq<Type>, ts: seq<nat>, depth: nat) returns (r: Read<seq<Value>>)
      requires Valid() && depth <= policy.maxDepth
      modifies this
      ensures Valid()
      ensures r.Got? ==> |r.v| == |ts| && Eaten() == PutFields(types, ts, old(Eaten()), VArray(r.v), |r.v|)
      decreases policy.maxDepth - depth, 0
    {
      ghost var start := Eaten();
      var out: seq<Value> := [];
      while |out| < |ts|
        invariant Valid() && |out| <= |ts| && Eaten() == PutFields(types, ts, start, VArray(out), |out|)
      {
        var x :- ReadValue(types, ts[|out|], depth + 1);
        FieldsPrefix(types, ts, start, out, x, |out|);
        out := out + [x];
      }
      return Got(out);
    }

    method ReadElements(types: seq<Type>, t: nat, c: nat, depth: nat) returns (r: Read<seq<Value>>)
      requires Valid() && depth <= policy.maxDepth
      modifies this
      ensures Valid()
      ensures r.Got? ==> |r.v| == c && Eaten() == PutElements(types, t, old(Eaten()), VArray(r.v), |r.v|)
      decreases policy.maxDepth - depth, 0
    {
      ghost var start := Eaten();
      var out: seq<Value> := [];
      while |out| < c
        invariant Valid() && |out| <= c && Eaten() == PutElements(types, t, start, VArray(out), |out|)
      {
        var x :- ReadValue(types, t, depth + 1);
        ElementsPrefix(types, t, start, out, x, |out|);
        out := out + [x];
      }
      return Got(out);
    }

    method ReadInstruction(types: seq<Type>, version: nat) returns (r: Read<Instruction>)
      requires Valid()
      modifies this
      ensures Valid()
      ensures r.Got? ==> Eaten() == PutInstruction(types, old(Eaten()), r.v)
    {
      var op :- N(1);
      if op >= if version == 1 then 16 else policy.opcodes {
        return Bad;
      }
      var args :- Regs();
      var has :- Flag();
      var dest: Option<Reg> := None;
      if has {
        var d :- ReadReg();
        dest := Some(d);
      }
      if op == 0 && !has {
        return Bad;
      }
      var value :- ReadOperand(types, if op == 0 && has then Some(dest.value.ty) else None);
      var immediate :- N(4);
      var binary :- N(1);
      if binary > 8 {
        return Bad;
      }
      var text :- Str();
      var source :- Str();
      return Got(Instruction(op, args, dest, value, immediate, binary, text, source));
    }

    method ReadOperand(types: seq<Type>, t: Option<nat>) returns (r: Read<Value>)
      requires Valid()
      modifies this
      ensures Valid()
      ensures r.Got? ==> Eaten() == PutLiteralValue(types, t, old(Eaten()), r.v)
    {
      if t.Some? {
        r := ReadValue(types, t.value, 1);
        return;
      }
      var _ :- Visit();
      var tag :- N(1);
      if tag != 0 {
        return Bad;
      }
      return Got(VUnit);
    }

    method Instructions(types: seq<Type>, version: nat) returns (r: Read<seq<Instruction>>)
      requires Valid()
      modifies this
      ensures Valid()
      ensures r.Got? ==> Eaten() == PutRows(types, old(Eaten()), r.v, PutInstruction)
    {
      var c :- Count(policy.maxRows);
      ghost var start := Eaten();
      var out: seq<Instruction> := [];
      while |out| < c
        invariant Valid() && |out| <= c && Eaten() == PutEach(types, start, out, PutInstruction)
      {
        var x :- ReadInstruction(types, version);
        PutEachAppend(types, start, out, x, PutInstruction);
        out := out + [x];
      }
      return Got(out);
    }

    method ReadEdge() returns (r: Read<Edge>)
      requires Valid()
      modifies this
      ensures Valid()
      ensures r.Got? ==> Eaten() == PutEdge(old(Eaten()), r.v)
    {
      var target :- N(4);
      var args :- Regs();
      return Got(Edge(target, args));
    }

    method ReadCase() returns (r: Read<Case>)
      requires Valid()
      modifies this
      ensures Valid()
      ensures r.Got? ==> Eaten() == PutCase((), old(Eaten()), r.v)
    {
      var tag :- N(8);
      var edge :- ReadEdge();
      return Got(Case(tag, edge));
    }

    method Cases() returns (r: Read<seq<Case>>)
      requires Valid()
      modifies this
      ensures Valid()
      ensures r.Got? ==> Eaten() == PutRows((), old(Eaten()), r.v, PutCase)
    {
      var c :- Count(policy.maxRows);
      ghost var start := Eaten();
      var out: seq<Case> := [];
      while |out| < c
        invariant Valid() && |out| <= c && Eaten() == PutEach((), start, out, PutCase)
      {
        var x :- ReadCase();
        PutEachAppend((), start, out, x, PutCase);
        out := out + [x];
      }
      return Got(out);
    }

    method ReadTerminator() returns (r: Read<Terminator>)
      requires Valid()
      modifies this
      ensures Valid()
      ensures r.Got? ==> Eaten() == PutTerminator(old(Eaten()), r.v)
    {
      ghost var start := Eaten();
      var kind :- N(1);
      if kind <= 2 {
        r := ReadBranching(kind, start);
      } else {
        r := ReadLeaving(kind, start);
      }
    }

    method ReadBranching(kind: nat, ghost start: bytes) returns (r: Read<Terminator>)
      requires Valid() && kind <= 2 && Eaten() == PutN(start, kind, 1)
      modifies this
      ensures Valid()
      ensures r.Got? ==> Eaten() == PutTerminator(start, r.v)
    {
      if kind == 0 {
        var yes :- ReadEdge();
        return Got(Jump(yes));
      }
      if kind == 1 {
        r := ReadBranch(start);
      } else {
        r := ReadSwitch(start);
      }
    }

    method ReadBranch(ghost start: bytes) returns (r: Read<Terminator>)
      requires Valid() && Eaten() == PutN(start, 1, 1)
      modifies this
      ensures Valid()
      ensures r.Got? ==> Eaten() == PutTerminator(start, r.v)
    {
      var v :- ReadReg();
      var yes :- ReadEdge();
      var no :- ReadEdge();
      return Got(Branch(v, yes, no));
    }

    method ReadSwitch(ghost start: bytes) returns (r: Read<Terminator>)
      requires Valid() && Eaten() == PutN(start, 2, 1)
      modifies this
      ensures Valid()
      ensures r.Got? ==> Eaten() == PutTerminator(start, r.v)
    {
      var v :- ReadReg();
      var cases :- Cases();
      var no :- ReadEdge();
      return Got(Switch(v, cases, no));
    }

    method ReadLeaving(kind: nat, ghost start: bytes) returns (r: Read<Terminator>)
      requires Valid() && Eaten() == PutN(start, kind, 1)
      modifies this
      ensures Valid()
      ensures r.Got? ==> Eaten() == PutTerminator(start, r.v)
    {
      if kind == 3 {
        var vs :- Regs();
        return Got(Return(vs));
      }
      if kind == 4 {
        var e :- Str();
        return Got(Fail(e));
      }
      if kind == 5 {
        var v :- ReadReg();
        return Got(TransportReturn(v));
      }
      if kind != 6 {
        return Bad;
      }
      r := ReadSuspend(start);
    }

    method ReadSuspend(ghost start: bytes) returns (r: Read<Terminator>)
      requires Valid() && Eaten() == PutN(start, 6, 1)
      modifies this
      ensures Valid()
      ensures r.Got? ==> Eaten() == PutTerminator(start, r.v)
    {
      var v :- ReadReg();
      var target :- N(4);
      var vs :- Regs();
      return Got(Suspend(v, target, vs));
    }

    method ReadBlock(types: seq<Type>, version: nat) returns (r: Read<Block>)
      requires Valid()
      modifies this
      ensures Valid()
      ensures r.Got? ==> Eaten() == PutBlock(types, old(Eaten()), r.v)
    {
      var id :- N(4);
      var parameters :- Regs();
      var instructions :- Instructions(types, version);
      var terminator :- ReadTerminator();
      return Got(Block(id, parameters, instructions, terminator));
    }

    method Blocks(types: seq<Type>, version: nat) returns (r: Read<seq<Block>>)
      requires Valid()
      modifies this
      ensures Valid()
      ensures r.Got? ==> Eaten() == PutRows(types, old(Eaten()), r.v, PutBlock)
    {
      var c :- Count(policy.maxRows);
      ghost var start := Eaten();
      var out: seq<Block> := [];
      while |out| < c
        invariant Valid() && |out| <= c && Eaten() == PutEach(types, start, out, PutBlock)
      {
        var x :- ReadBlock(types, version);
        PutEachAppend(types, start, out, x, PutBlock);
        out := out + [x];
      }
      return Got(out);
    }

    method ReadFrameSlot(version: nat) returns (r: Read<FrameSlot>)
      requires Valid()
      modifies this
      ensures Valid()
      ensures r.Got? ==> Eaten() == PutFrameSlot(version, old(Eaten()), r.v)
    {
      var ty :- N(4);
      var offset :- N(4);
      var align :- N(4);
      if version < 3 {
        return Got(FrameSlot(ty, offset, align, 0));
      }
      var register :- N(4);
      return Got(FrameSlot(ty, offset, align, register));
    }

    method Frame(version: nat) returns (r: Read<seq<FrameSlot>>)
      requires Valid()
      modifies this
      ensures Valid()
      ensures r.Got? ==> Eaten() == PutRows(version, old(Eaten()), r.v, PutFrameSlot)
    {
      var c :- Count(policy.maxRows);
      ghost var start := Eaten();
      var out: seq<FrameSlot> := [];
      while |out| < c
        invariant Valid() && |out| <= c && Eaten() == PutEach(version, start, out, PutFrameSlot)
      {
        var x :- ReadFrameSlot(version);
        PutEachAppend(version, start, out, x, PutFrameSlot);
        out := out + [x];
      }
      return Got(out);
    }

    method ReadProgram(version: nat, types: seq<Type>) returns (r: Read<Program>)
      requires Valid()
      modifies this
      ensures Valid()
      ensures r.Got? ==> Eaten() == PutProgram((version, types), old(Eaten()), r.v)
    {
      var id :- N(4);
      var inputs :- Ids();
      var results :- Ids();
      var blocks :- Blocks(types, version);
      var entry :- N(4);
      var source :- Str();
      if version < 2 {
        return Got(Program(id, inputs, results, blocks, entry, source, 0, [], 0, 0, 0, [], []));
      }
      var context :- N(1);
      var frame :- Frame(version);
      var frameBytes :- N(4);
      var effects :- N(8);
      if version < 5 {
        return Got(Program(id, inputs, results, blocks, entry, source, context, frame, frameBytes, effects, 0, [], []));
      }
      var fuel :- N(8);
      var owner :- Str();
      var lifetime :- Str();
      return Got(Program(id, inputs, results, blocks, entry, source, context, frame, frameBytes, effects, fuel, owner, lifetime));
    }

    method Programs(version: nat, types: seq<Type>) returns (r: Read<seq<Program>>)
      requires Valid()
      modifies this
      ensures Valid()
      ensures r.Got? ==> Eaten() == PutRows((version, types), old(Eaten()), r.v, PutProgram)
    {
      var c :- Count(policy.maxRows);
      ghost var start := Eaten();
      var out: seq<Program> := [];
      while |out| < c
        invariant Valid() && |out| <= c && Eaten() == PutEach((version, types), start, out, PutProgram)
      {
        var x :- ReadProgram(version, types);
        PutEachAppend((version, types), start, out, x, PutProgram);
        out := out + [x];
      }
      return Got(out);
    }

    method ReadService() returns (r: Read<Service>)
      requires Valid()
      modifies this
      ensures Valid()
      ensures r.Got? ==> Eaten() == PutService((), old(Eaten()), r.v)
    {
      var id :- N(4);
      var op :- N(1);
      var inputs :- Ids();
      var results :- Ids();
      var contexts :- N(4);
      var effects :- N(8);
      var extraFuel :- N(8);
      var key :- Str();
      var version :- Str();
      var abi :- Take(32);
      return Got(Service(id, op, inputs, results, contexts, effects, extraFuel, key, version, abi));
    }

    method Services() returns (r: Read<seq<Service>>)
      requires Valid()
      modifies this
      ensures Valid()
      ensures r.Got? ==> Eaten() == PutRows((), old(Eaten()), r.v, PutService)
    {
      var c :- Count(policy.maxRows);
      ghost var start := Eaten();
      var out: seq<Service> := [];
      while |out| < c
        invariant Valid() && |out| <= c && Eaten() == PutEach((), start, out, PutService)
      {
        var x :- ReadService();
        PutEachAppend((), start, out, x, PutService);
        out := out + [x];
      }
      return Got(out);
    }

    method ReadSource() returns (r: Read<Source>)
      requires Valid()
      modifies this
      ensures Valid()
      ensures r.Got? ==> Eaten() == PutSource(old(Eaten()), r.v)
    {
      var file :- Str();
      var line :- N(4);
      var column :- N(4);
      return Got(Source(file, line, column));
    }

    method Maybe(types: seq<Type>, t: nat) returns (r: Read<Option<Value>>)
      requires Valid()
      modifies this
      ensures Valid()
      ensures r.Got? ==> Eaten() == PutMaybe(types, t, old(Eaten()), r.v)
    {
      var has :- Flag();
      if !has {
        return Got(None);
      }
      var v :- ReadValue(types, t, 1);
      return Got(Some(v));
    }

    method ReadParameter(types: seq<Type>) returns (r: Read<Parameter>)
      requires Valid()
      modifies this
      ensures Valid()
      ensures r.Got? ==> Eaten() == PutParameter(types, old(Eaten()), r.v)
    {
      var id :- N(4);
      var ty :- N(4);
      var default :- Maybe(types, ty);
      var source :- ReadSource();
      return Got(Parameter(id, ty, default, source));
    }

    method Parameters(types: seq<Type>) returns (r: Read<seq<Parameter>>)
      requires Valid()
      modifies this
      ensures Valid()
      ensures r.Got? ==> Eaten() == PutRows(types, old(Eaten()), r.v, PutParameter)
    {
      var c :- Count(policy.maxRows);
      ghost var start := Eaten();
      var out: seq<Parameter> := [];
      while |out| < c
        invariant Valid() && |out| <= c && Eaten() == PutEach(types, start, out, PutParameter)
      {
        var x :- ReadParameter(types);
        PutEachAppend(types, start, out, x, PutParameter);
        out := out + [x];
      }
      return Got(out);
    }

    method ReadState(types: seq<Type>) returns (r: Read<StateDesc>)
      requires Valid()
      modifies this
      ensures Valid()
      ensures r.Got? ==> Eaten() == PutState(types, old(Eaten()), r.v)
    {
      var id :- N(4);
      var ty :- N(4);
      var initial :- ReadValue(types, ty, 1);
      return Got(StateDesc(id, ty, initial));
    }

    method States(types: seq<Type>) returns (r: Read<seq<StateDesc>>)
      requires Valid()
      modifies this
      ensures Valid()
      ensures r.Got? ==> Eaten() == PutRows(types, old(Eaten()), r.v, PutState)
    {
      var c :- Count(policy.maxRows);
      ghost var start := Eaten();
      var out: seq<StateDesc> := [];
      while |out| < c
        invariant Valid() && |out| <= c && Eaten() == PutEach(types, start, out, PutState)
      {
        var x :- ReadState(types);
        PutEachAppend(types, start, out, x, PutState);
        out := out + [x];
      }
      return Got(out);
    }

    method ReadEndpoint() returns (r: Read<Endpoint>)
      requires Valid()
      modifies this
      ensures Valid()
      ensures r.Got? ==> Eaten() == PutEndpoint((), old(Eaten()), r.v)
    {
      var id :- N(4);
      var role :- N(1);
      var width :- N(4);
      var bindings :- N(4);
      var outstanding :- N(4);
      var payload :- N(4);
      var byteEnable :- N(4);
      var protocol :- Str();
      var source :- ReadSource();
      return Got(Endpoint(id, role, width, bindings, outstanding, payload, byteEnable, protocol, source));
    }

    method Endpoints() returns (r: Read<seq<Endpoint>>)
      requires Valid()
      modifies this
      ensures Valid()
      ensures r.Got? ==> Eaten() == PutRows((), old(Eaten()), r.v, PutEndpoint)
    {
      var c :- Count(policy.maxRows);
      ghost var start := Eaten();
      var out: seq<Endpoint> := [];
      while |out| < c
        invariant Valid() && |out| <= c && Eaten() == PutEach((), start, out, PutEndpoint)
      {
        var x :- ReadEndpoint();
        PutEachAppend((), start, out, x, PutEndpoint);
        out := out + [x];
      }
      return Got(out);
    }

    method ReadPort(types: seq<Type>) returns (r: Read<Port>)
      requires Valid()
      modifies this
      ensures Valid()
      ensures r.Got? ==> Eaten() == PutPort(types, old(Eaten()), r.v)
    {
      var id :- N(4);
      var direction :- N(1);
      var ty :- N(4);
      var initial :- Maybe(types, ty);
      var source :- ReadSource();
      return Got(Port(id, direction, ty, initial, source));
    }

    method Ports(types: seq<Type>) returns (r: Read<seq<Port>>)
      requires Valid()
      modifies this
      ensures Valid()
      ensures r.Got? ==> Eaten() == PutRows(types, old(Eaten()), r.v, PutPort)
    {
      var c :- Count(policy.maxRows);
      ghost var start := Eaten();
      var out: seq<Port> := [];
      while |out| < c
        invariant Valid() && |out| <= c && Eaten() == PutEach(types, start, out, PutPort)
      {
        var x :- ReadPort(types);
        PutEachAppend(types, start, out, x, PutPort);
        out := out + [x];
      }
      return Got(out);
    }

    method ReadComponent(types: seq<Type>) returns (r: Read<Component>)
      requires Valid()
      modifies this
      ensures Valid()
      ensures r.Got? ==> Eaten() == PutComponent(types, old(Eaten()), r.v)
    {
      var id :- N(4);
      var parameters :- Parameters(types);
      var states :- States(types);
      var endpoints :- Endpoints();
      var sidebands :- Ports(types);
      var resetPolicy :- Str();
      var source :- Str();
      return Got(Component(id, parameters, states, endpoints, sidebands, resetPolicy, source));
    }

    method Components(types: seq<Type>) returns (r: Read<seq<Component>>)
      requires Valid()
      modifies this
      ensures Valid()
      ensures r.Got? ==> Eaten() == PutRows(types, old(Eaten()), r.v, PutComponent)
    {
      var c :- Count(policy.maxRows);
      ghost var start := Eaten();
      var out: seq<Component> := [];
      while |out| < c
        invariant Valid() && |out| <= c && Eaten() == PutEach(types, start, out, PutComponent)
      {
        var x :- ReadComponent(types);
        PutEachAppend(types, start, out, x, PutComponent);
        out := out + [x];
      }
      return Got(out);
    }

    method ReadCapacity() returns (r: Read<Capacity>)
      requires Valid()
      modifies this
      ensures Valid()
      ensures r.Got? ==> Eaten() == PutCapacity(old(Eaten()), r.v)
    {
      var instances :- N(4);
      var frameLimit :- N(4);
      var results :- N(4);
      var overflow :- N(1);
      var bound :- N(4);
      return Got(Capacity(instances, frameLimit, results, overflow, bound));
    }

    method MaybeId() returns (r: Read<Option<nat>>)
      requires Valid()
      modifies this
      ensures Valid()
      ensures r.Got? ==> Eaten() == PutMaybeId(old(Eaten()), r.v)
    {
      var has :- Flag();
      if !has {
        return Got(None);
      }
      var x :- N(4);
      return Got(Some(x));
    }

    method MaybeCapacity() returns (r: Read<Option<Capacity>>)
      requires Valid()
      modifies this
      ensures Valid()
      ensures r.Got? ==> Eaten() == PutMaybeCapacity(old(Eaten()), r.v)
    {
      var has :- Flag();
      if !has {
        return Got(None);
      }
      var k :- ReadCapacity();
      return Got(Some(k));
    }

    method ReadHandler() returns (r: Read<Handler>)
      requires Valid()
      modifies this
      ensures Valid()
      ensures r.Got? ==> Eaten() == PutHandler((), old(Eaten()), r.v)
    {
      var localId :- N(4);
      var program :- N(4);
      var context :- N(1);
      var trigger :- Str();
      var endpoint :- MaybeId();
      var capacity :- MaybeCapacity();
      var source :- Str();
      return Got(Handler(localId, program, context, trigger, endpoint, capacity, source));
    }

    method Handlers() returns (r: Read<seq<Handler>>)
      requires Valid()
      modifies this
      ensures Valid()
      ensures r.Got? ==> Eaten() == PutRows((), old(Eaten()), r.v, PutHandler)
    {
      var c :- Count(policy.maxRows);
      ghost var start := Eaten();
      var out: seq<Handler> := [];
      while |out| < c
        invariant Valid() && |out| <= c && Eaten() == PutEach((), start, out, PutHandler)
      {
        var x :- ReadHandler();
        PutEachAppend((), start, out, x, PutHandler);
        out := out + [x];
      }
      return Got(out);
    }

    method ReadSetting(c: Scope) returns (r: Read<Setting>)
      requires Valid()
      modifies this
      ensures Valid()
      ensures r.Got? ==> Eaten() == PutSetting(c, old(Eaten()), r.v)
    {
      var id :- N(4);
      var t := ParamType(c.components, c.component, id);
      if t.None? {
        return Bad;
      }
      var v :- ReadValue(c.types, t.value, 1);
      return Got(Setting(id, v));
    }

    method Settings(scope: Scope) returns (r: Read<seq<Setting>>)
      requires Valid()
      modifies this
      ensures Valid()
      ensures r.Got? ==> Eaten() == PutRows(scope, old(Eaten()), r.v, PutSetting)
    {
      var c :- Count(policy.maxRows);
      ghost var start := Eaten();
      var out: seq<Setting> := [];
      while |out| < c
        invariant Valid() && |out| <= c && Eaten() == PutEach(scope, start, out, PutSetting)
      {
        var x :- ReadSetting(scope);
        PutEachAppend(scope, start, out, x, PutSetting);
        out := out + [x];
      }
      return Got(out);
    }

    method ReadInstance(types: seq<Type>, components: seq<Component>) returns (r: Read<Instance>)
      requires Valid()
      modifies this
      ensures Valid()
      ensures r.Got? ==> Eaten() == PutInstance((types, components), old(Eaten()), r.v)
    {
      var id :- N(4);
      var definition :- N(4);
      var stateBase :- N(4);
      var stateCount :- N(4);
      var handlers :- Handlers();
      var config :- Settings(Scope(types, components, definition));
      var source :- Str();
      return Got(Instance(id, definition, stateBase, stateCount, handlers, config, source));
    }

    method Instances(types: seq<Type>, components: seq<Component>) returns (r: Read<seq<Instance>>)
      requires Valid()
      modifies this
      ensures Valid()
      ensures r.Got? ==> Eaten() == PutRows((types, components), old(Eaten()), r.v, PutInstance)
    {
      var c :- Count(policy.maxRows);
      ghost var start := Eaten();
      var out: seq<Instance> := [];
      while |out| < c
        invariant Valid() && |out| <= c && Eaten() == PutEach((types, components), start, out, PutInstance)
      {
        var x :- ReadInstance(types, components);
        PutEachAppend((types, components), start, out, x, PutInstance);
        out := out + [x];
      }
      return Got(out);
    }

    method ReadOriginal(types: seq<Type>, components: seq<Component>) returns (r: Read<Original>)
      requires Valid()
      modifies this
      ensures Valid()
      ensures r.Got? ==> Eaten() == PutOriginal((types, components), old(Eaten()), r.v)
    {
      var id :- N(4);
      var definition :- N(4);
      var config :- Settings(Scope(types, components, definition));
      var source :- ReadSource();
      return Got(Original(id, definition, config, source));
    }

    method Originals(types: seq<Type>, components: seq<Component>) returns (r: Read<seq<Original>>)
      requires Valid()
      modifies this
      ensures Valid()
      ensures r.Got? ==> Eaten() == PutRows((types, components), old(Eaten()), r.v, PutOriginal)
    {
      var c :- Count(policy.maxRows);
      ghost var start := Eaten();
      var out: seq<Original> := [];
      while |out| < c
        invariant Valid() && |out| <= c && Eaten() == PutEach((types, components), start, out, PutOriginal)
      {
        var x :- ReadOriginal(types, components);
        PutEachAppend((types, components), start, out, x, PutOriginal);
        out := out + [x];
      }
      return Got(out);
    }

    method ReadEndpointRef() returns (r: Read<EndpointRef>)
      requires Valid()
      modifies this
      ensures Valid()
      ensures r.Got? ==> Eaten() == PutEndpointRef(old(Eaten()), r.v)
    {
      var instance :- N(4);
      var endpoint :- N(4);
      var binding :- N(4);
      return Got(EndpointRef(instance, endpoint, binding));
    }

    method ReadBinding() returns (r: Read<Binding>)
      requires Valid()
      modifies this
      ensures Valid()
      ensures r.Got? ==> Eaten() == PutBinding((), old(Eaten()), r.v)
    {
      var id :- N(4);
      var from :- ReadEndpointRef();
      var to :- ReadEndpointRef();
      var source :- ReadSource();
      return Got(Binding(id, from, to, source));
    }

    method Bindings() returns (r: Read<seq<Binding>>)
      requires Valid()
      modifies this
      ensures Valid()
      ensures r.Got? ==> Eaten() == PutRows((), old(Eaten()), r.v, PutBinding)
    {
      var c :- Count(policy.maxRows);
      ghost var start := Eaten();
      var out: seq<Binding> := [];
      while |out| < c
        invariant Valid() && |out| <= c && Eaten() == PutEach((), start, out, PutBinding)
      {
        var x :- ReadBinding();
        PutEachAppend((), start, out, x, PutBinding);
        out := out + [x];
      }
      return Got(out);
    }

    method ReadPortRef() returns (r: Read<PortRef>)
      requires Valid()
      modifies this
      ensures Valid()
      ensures r.Got? ==> Eaten() == PutPortRef(old(Eaten()), r.v)
    {
      var tag :- N(1);
      var instance :- N(4);
      var port :- N(4);
      return Got(PortRef(tag, instance, port));
    }

    method ReadSideband() returns (r: Read<Sideband>)
      requires Valid()
      modifies this
      ensures Valid()
      ensures r.Got? ==> Eaten() == PutSideband((), old(Eaten()), r.v)
    {
      var id :- N(4);
      var from :- ReadPortRef();
      var to :- ReadPortRef();
      var source :- ReadSource();
      return Got(Sideband(id, from, to, source));
    }

    method Sidebands() returns (r: Read<seq<Sideband>>)
      requires Valid()
      modifies this
      ensures Valid()
      ensures r.Got? ==> Eaten() == PutRows((), old(Eaten()), r.v, PutSideband)
    {
      var c :- Count(policy.maxRows);
      ghost var start := Eaten();
      var out: seq<Sideband> := [];
      while |out| < c
        invariant Valid() && |out| <= c && Eaten() == PutEach((), start, out, PutSideband)
      {
        var x :- ReadSideband();
        PutEachAppend((), start, out, x, PutSideband);
        out := out + [x];
      }
      return Got(out);
    }

    method ReadMap() returns (r: Read<AddressMap>)
      requires Valid()
      modifies this
      ensures Valid()
      ensures r.Got? ==> Eaten() == PutMap((), old(Eaten()), r.v)
    {
      var id :- N(4);
      var decoder :- N(4);
      var output :- N(4);
      var binding :- N(4);
      var start :- N(8);
      var size :- N(8);
      var target :- N(8);
      var aliased :- Flag();
      var source :- ReadSource();
      return Got(AddressMap(id, decoder, output, binding, start, size, target, aliased, source));
    }

    method Maps() returns (r: Read<seq<AddressMap>>)
      requires Valid()
      modifies this
      ensures Valid()
      ensures r.Got? ==> Eaten() == PutRows((), old(Eaten()), r.v, PutMap)
    {
      var c :- Count(policy.maxRows);
      ghost var start := Eaten();
      var out: seq<AddressMap> := [];
      while |out| < c
        invariant Valid() && |out| <= c && Eaten() == PutEach((), start, out, PutMap)
      {
        var x :- ReadMap();
        PutEachAppend((), start, out, x, PutMap);
        out := out + [x];
      }
      return Got(out);
    }

    method ReadSystem(types: seq<Type>, components: seq<Component>) returns (r: Read<System>)
      requires Valid()
      modifies this
      ensures Valid()
      ensures r.Got? ==> Eaten() == PutSystem((types, components), old(Eaten()), r.v)
    {
      var id :- N(4);
      var originals :- Originals(types, components);
      var bindings :- Bindings();
      var ports :- Ports(types);
      var sidebands :- Sidebands();
      var maps :- Maps();
      var domain :- N(4);
      var source :- ReadSource();
      return Got(System(id, originals, bindings, ports, sidebands, maps, domain, source));
    }

    method ReadLiteral(depth: nat) returns (r: Read<Literal>)
      requires Valid()
      modifies this
      ensures Valid()
      ensures r.Got? ==> Eaten() == PutLiteral(old(Eaten()), r.v)
      decreases policy.maxDepth - depth, 1
    {
      if depth > policy.maxDepth {
        return Bad;
      }
      var _ :- Visit();
      var tag :- N(1);
      var blank := Literal(tag, 0, 0, [], NO_HANDLE, []);
      if tag == 0 {
        return Got(blank);
      }
      if tag == 1 {
        var x :- Flag();
        return Got(blank.(number := if x then 1 else 0));
      }
      if tag == 2 {
        var width :- N(4);
        if width == 0 || width > 64 {
          return Bad;
        }
        var n :- N(8);
        if width < 64 && n >= Power(width) {
          return Bad;
        }
        return Got(blank.(width := width, number := n));
      }
      if tag == 3 || tag == 5 {
        var c :- Count(policy.maxRows);
        var kids :- ReadChildren(blank, c, depth);
        return Got(blank.(children := kids));
      }
      if tag == 4 {
        var n :- N(8);
        var c :- Count(policy.maxRows);
        var kids :- ReadChildren(blank.(number := n), c, depth);
        return Got(blank.(number := n, children := kids));
      }
      if tag == 6 {
        var data :- Blob(policy.maxElements);
        return Got(blank.(data := data));
      }
      if tag != 7 {
        return Bad;
      }
      var h :- ReadHandle();
      return Got(blank.(handle := h));
    }

    method ReadChildren(blank: Literal, c: nat, depth: nat) returns (r: Read<seq<Literal>>)
      requires Valid() && depth <= policy.maxDepth
      modifies this
      ensures Valid()
      ensures r.Got? ==> |r.v| == c && Eaten() == PutChildren(old(Eaten()), blank.(children := r.v), c)
      decreases policy.maxDepth - depth, 0
    {
      ghost var start := Eaten();
      var out: seq<Literal> := [];
      while |out| < c
        invariant Valid() && |out| <= c && Eaten() == PutChildren(start, blank.(children := out), |out|)
      {
        var x :- ReadLiteral(depth + 1);
        ChildrenAppend(start, blank, out, x);
        out := out + [x];
      }
      return Got(out);
    }

    method ReadMapping() returns (r: Read<Mapping>)
      requires Valid()
      modifies this
      ensures Valid()
      ensures r.Got? ==> Eaten() == PutMapping((), old(Eaten()), r.v)
    {
      var key :- Str();
      var literal :- ReadLiteral(1);
      return Got(Mapping(key, literal));
    }

    method Mappings() returns (r: Read<seq<Mapping>>)
      requires Valid()
      modifies this
      ensures Valid()
      ensures r.Got? ==> Eaten() == PutRows((), old(Eaten()), r.v, PutMapping)
    {
      var c :- Count(policy.maxRows);
      ghost var start := Eaten();
      var out: seq<Mapping> := [];
      while |out| < c
        invariant Valid() && |out| <= c && Eaten() == PutEach((), start, out, PutMapping)
      {
        var x :- ReadMapping();
        PutEachAppend((), start, out, x, PutMapping);
        out := out + [x];
      }
      return Got(out);
    }

    method Texts() returns (r: Read<seq<bytes>>)
      requires Valid()
      modifies this
      ensures Valid()
      ensures r.Got? ==> Eaten() == PutTexts(old(Eaten()), r.v)
    {
      var c :- Count(policy.maxRows);
      ghost var start := Eaten();
      var out: seq<bytes> := [];
      while |out| < c
        invariant Valid() && |out| <= c && Eaten() == PutEach((), start, out, PutText)
      {
        var x :- Str();
        PutEachAppend((), start, out, x, PutText);
        out := out + [x];
      }
      return Got(out);
    }

    method ReadContract() returns (r: Read<Contract>)
      requires Valid()
      modifies this
      ensures Valid()
      ensures r.Got? ==> Eaten() == PutContract((), old(Eaten()), r.v)
    {
      var id :- N(4);
      var cppType :- Str();
      var header :- Str();
      var library :- Str();
      var mapping :- Mappings();
      var demands :- Texts();
      var promises :- Texts();
      var assumptions :- Texts();
      var evidence :- Texts();
      var source :- ReadSource();
      return Got(Contract(id, cppType, header, library, mapping, demands, promises, assumptions, evidence, source));
    }

    method Contracts() returns (r: Read<seq<Contract>>)
      requires Valid()
      modifies this
      ensures Valid()
      ensures r.Got? ==> Eaten() == PutRows((), old(Eaten()), r.v, PutContract)
    {
      var c :- Count(policy.maxRows);
      ghost var start := Eaten();
      var out: seq<Contract> := [];
      while |out| < c
        invariant Valid() && |out| <= c && Eaten() == PutEach((), start, out, PutContract)
      {
        var x :- ReadContract();
        PutEachAppend((), start, out, x, PutContract);
        out := out + [x];
      }
      return Got(out);
    }

    method ReadMetadata(types: seq<Type>) returns (r: Read<Metadata>)
      requires Valid()
      modifies this
      ensures Valid()
      ensures r.Got? ==> Eaten() == PutMetadata(types, old(Eaten()), r.v)
    {
      var components :- Components(types);
      var instances :- Instances(types, components);
      var system: Option<System> := None;
      var has :- Flag();
      if has {
        var s :- ReadSystem(types, components);
        system := Some(s);
      }
      var contracts :- Contracts();
      var capabilities :- Texts();
      return Got(Metadata(components, instances, system, contracts, capabilities));
    }

    method ReadInitial(types: seq<Type>, stateTypes: seq<nat>) returns (r: Read<seq<Value>>)
      requires Valid()
      modifies this
      ensures Valid()
      ensures r.Got? ==> Eaten() == PutFields(types, stateTypes, PutN(old(Eaten()), |r.v|, 4), VArray(r.v), |r.v|)
    {
      var c :- Count(policy.maxRows);
      if c != |stateTypes| {
        return Bad;
      }
      var vs :- ReadFields(types, stateTypes, 0);
      return Got(vs);
    }

    method ReadPayload(version: nat) returns (r: Read<Project>)
      requires Valid()
      modifies this
      ensures Valid()
      ensures r.Got? ==> Eaten() == PutPayload(old(Eaten()), r.v) && r.v.version == version
    {
      var profile :- Str();
      if profile != policy.profile {
        return Bad;
      }
      var types :- Types();
      var stateTypes :- Ids();
      var initial :- ReadInitial(types, stateTypes);
      var programs :- Programs(version, types);
      var services: seq<Service> := [];
      if version >= 2 {
        services :- Services();
      }
      var metadata := NO_METADATA;
      if version >= 4 {
        metadata :- ReadMetadata(types);
      }
      if exists i :: 0 <= i < |metadata.capabilities| && metadata.capabilities[i] !in policy.capabilities {
        return Bad;
      }
      return Got(Project(version, profile, types, stateTypes, initial, programs, services, metadata));
    }
  }

  const NO_HANDLE := Handle(KTransaction, 0, 0, 0, 0, 0)

  function Power(n: nat): nat {
    if n == 0 then 1 else 2 * Power(n - 1)
  }

  // --------------------------------------------------------------------------------
  // The file.

  method ReadHeader(b: bytes, policy: Policy) returns (r: Read<HeaderFields>)
    ensures r.Got? ==> |b| >= 40 && b[..40] == PutHeader(r.v)
  {
    var h := new Reader(b, policy, 0, 0);
    var magic :- h.N(4);
    var version :- h.N(2);
    var minor :- h.N(2);
    var length :- h.N(8);
    var sections :- h.N(4);
    var kind :- h.N(4);
    var offset :- h.N(8);
    var size :- h.N(8);
    return Got(HeaderFields(magic, version, minor, length, sections, kind, offset, size));
  }

  // The parts of a file, put together.
  lemma Reassemble(sha: bytes -> bytes, b: bytes, front: bytes, payload: bytes)
    requires |b| >= HEADER && b[..72] == front && b[HEADER..] == payload
    requires b[72..HEADER] == sha(front + Zeros() + payload)
    ensures b == Assemble(sha, front, payload)
  {
    assert b == b[..72] + b[72..HEADER] + b[HEADER..];
  }

  // Whether the header and the schema hash are those of a file of this length.
  method CheckFront(b: bytes, policy: Policy, schema: nat -> bytes) returns (r: Read<nat>)
    requires |b| >= HEADER && forall v :: |schema(v)| == 32
    ensures r.Got? ==> b[..72] == Front(schema, r.v, |b| - HEADER)
  {
    var h :- ReadHeader(b, policy);
    if h.version < 1 || h.version > 5 || h != Header(h.version, |b| - HEADER) {
      return Bad;
    }
    if b[40..72] != schema(h.version) {
      return Bad;
    }
    assert b[..72] == b[..40] + b[40..72];
    return Got(h.version);
  }

  // The payload and nothing after it.
  method LoadBody(b: bytes, policy: Policy, version: nat, ghost blank: bytes) returns (r: Read<Project>)
    requires |b| >= HEADER && TripleOf(|b|) <= policy.memory && blank == []
    ensures r.Got? ==> b[HEADER..] == PutPayload(blank, r.v) && r.v.version == version
  {
    var body := new Reader(b, policy, HEADER, TripleOf(|b|));
    assert body.Eaten() == blank;
    var p := body.ReadPayload(version);
    if p.Bad? || body.pos != |b| {
      return Bad;
    }
    assert b[HEADER..|b|] == b[HEADER..];
    return p;
  }

  function TripleOf(n: nat): nat {
    3 * n
  }

  // Canonicity: an accepted file is byte for byte what serializing its project writes.
  method LoadDescriptor(b: bytes, policy: Policy, sha: bytes -> bytes, schema: nat -> bytes) returns (r: Read<Project>)
    requires forall x :: |sha(x)| == 32
    requires forall v :: |schema(v)| == 32
    ensures r.Got? ==> b == File(sha, schema, r.v)
  {
    if |b| < HEADER || |b| > policy.maxFile || TripleOf(|b|) > policy.memory {
      return Bad;
    }
    var version :- CheckFront(b, policy, schema);
    var front, payload := b[..72], b[HEADER..];
    if sha(front + Zeros() + payload) != b[72..HEADER] {
      return Bad;
    }
    var p :- LoadBody(b, policy, version, []);
    Reassemble(sha, b, front, payload);
    return Got(p);
  }
}
