// The binary project descriptor (runtime/src/descriptor.cpp): what is stored, and the bytes
// that `serialize` writes for it. Every Put function appends to the buffer it is given, as
// the Writer does.
module Descriptor {
  import opened Common

  type byte = n: int | 0 <= n < 256
  type bytes = seq<byte>

  // --------------------------------------------------------------------------------
  // What a descriptor holds. Numbers are as stored; enumerations are stored as numbers.

  datatype Type = Type(kind: nat, bound: nat, fields: seq<nat>, constructors: seq<seq<nat>>)

  const UNIT := 0
  const BOOL := 1
  const BITS := 2
  const FIN := 3
  const RECORD := 4
  const VARIANT := 5
  const VEC := 6
  const BOUNDED_VEC := 7
  const BYTES := 8
  const HANDLE := 9

  datatype Value = VUnit | VBool(b: bool) | VNum(n: nat) | VBytes(bytes: bytes) | VArray(elems: seq<Value>) | VHandle(handle: Handle)

  datatype Reg = Reg(id: nat, ty: nat)

  datatype Instruction = Instruction(
    op: nat, args: seq<Reg>, dest: Option<Reg>, value: Value, immediate: nat, binary: nat, text: bytes, source: bytes)

  datatype Edge = Edge(target: nat, args: seq<Reg>)

  datatype Case = Case(tag: nat, edge: Edge)

  datatype Terminator =
    | Jump(yes: Edge)
    | Branch(value: Reg, yes: Edge, no: Edge)
    | Switch(value: Reg, cases: seq<Case>, no: Edge)
    | Return(values: seq<Reg>)
    | Fail(error: bytes)
    | TransportReturn(value: Reg)
    | Suspend(value: Reg, target: nat, values: seq<Reg>)

  datatype Block = Block(id: nat, parameters: seq<Reg>, instructions: seq<Instruction>, terminator: Terminator)

  datatype FrameSlot = FrameSlot(ty: nat, offset: nat, align: nat, register: nat)

  datatype Program = Program(
    id: nat, inputs: seq<nat>, results: seq<nat>, blocks: seq<Block>, entry: nat, source: bytes,
    context: nat, frame: seq<FrameSlot>, frameBytes: nat, effects: nat, fuel: nat, ownerPolicy: bytes, lifetimePolicy: bytes)

  datatype Service = Service(
    id: nat, op: nat, inputs: seq<nat>, results: seq<nat>, contexts: nat, effects: nat, extraFuel: nat,
    key: bytes, version: bytes, abi: bytes)

  datatype Source = Source(file: bytes, line: nat, column: nat)

  datatype Parameter = Parameter(id: nat, ty: nat, default: Option<Value>, source: Source)

  datatype StateDesc = StateDesc(id: nat, ty: nat, initial: Value)

  datatype Endpoint = Endpoint(
    id: nat, role: nat, busWidth: nat, bindings: nat, outstanding: nat, payload: nat, byteEnable: nat, protocol: bytes, source: Source)

  datatype Port = Port(id: nat, direction: nat, ty: nat, initial: Option<Value>, source: Source)

  datatype Component = Component(
    id: nat, parameters: seq<Parameter>, states: seq<StateDesc>, endpoints: seq<Endpoint>, sidebands: seq<Port>,
    resetPolicy: bytes, source: bytes)

  datatype Capacity = Capacity(instances: nat, frameLimit: nat, results: nat, overflow: nat, bound: nat)

  datatype Handler = Handler(
    localId: nat, program: nat, context: nat, trigger: bytes, endpoint: Option<nat>, capacity: Option<Capacity>, source: bytes)

  datatype Setting = Setting(id: nat, value: Value)

  datatype Instance = Instance(
    id: nat, definition: nat, stateBase: nat, stateCount: nat, handlers: seq<Handler>, config: seq<Setting>, source: bytes)

  datatype Original = Original(id: nat, definition: nat, config: seq<Setting>, source: Source)

  datatype EndpointRef = EndpointRef(instance: nat, endpoint: nat, binding: nat)

  datatype Binding = Binding(id: nat, from: EndpointRef, to: EndpointRef, source: Source)

  datatype PortRef = PortRef(tag: nat, instance: nat, port: nat)

  datatype Sideband = Sideband(id: nat, from: PortRef, to: PortRef, source: Source)

  datatype AddressMap = AddressMap(
    id: nat, decoder: nat, output: nat, binding: nat, start: nat, size: nat, target: nat, aliased: bool, source: Source)

  datatype System = System(
    id: nat, originals: seq<Original>, bindings: seq<Binding>, ports: seq<Port>, sidebands: seq<Sideband>,
    maps: seq<AddressMap>, domain: nat, source: Source)

  // `number` is the constructor of a tagged literal, the value of a number, the truth of a Boolean.
  datatype Literal = Literal(tag: nat, width: nat, number: nat, data: bytes, handle: Handle, children: seq<Literal>)

  datatype Mapping = Mapping(key: bytes, literal: Literal)

  datatype Contract = Contract(
    id: nat, cppType: bytes, header: bytes, library: bytes, mapping: seq<Mapping>,
    demands: seq<bytes>, promises: seq<bytes>, assumptions: seq<bytes>, evidence: seq<bytes>, source: Source)

  datatype Metadata = Metadata(
    components: seq<Component>, instances: seq<Instance>, system: Option<System>, contracts: seq<Contract>, capabilities: seq<bytes>)

  const NO_METADATA := Metadata([], [], None, [], [])

  datatype Project = Project(
    version: nat, profile: bytes, types: seq<Type>, stateTypes: seq<nat>, initial: seq<Value>,
    programs: seq<Program>, services: seq<Service>, metadata: Metadata)

  // --------------------------------------------------------------------------------
  // Primitives.

  function LittleEndian(x: nat, width: nat): (r: bytes)
    ensures |r| == width
    decreases width
  {
    if width == 0 then [] else [x % 256] + LittleEndian(x / 256, width - 1)
  }

  function Number(s: bytes): nat {
    if s == [] then 0 else s[0] + 256 * Number(s[1..])
  }

  // Reading a number back gives the bytes it was read from.
  lemma {:induction false} NumberBytes(s: bytes)
    ensures LittleEndian(Number(s), |s|) == s
  {
    if s != [] {
      NumberBytes(s[1..]);
      assert s == [s[0]] + s[1..];
    }
  }

  function PutN(b: bytes, x: nat, width: nat): bytes {
    b + LittleEndian(x, width)
  }

  function PutStr(b: bytes, s: bytes): bytes {
    PutN(b, |s|, 4) + s
  }

  function PutFlag(b: bytes, x: bool): bytes {
    PutN(b, if x then 1 else 0, 1)
  }

  // The items of a row, in order; `c` is whatever context their layout depends on.
  function PutEach<C, T>(c: C, b: bytes, xs: seq<T>, put: (C, bytes, T) -> bytes): bytes {
    if xs == [] then b else put(c, PutEach(c, b, xs[..|xs| - 1], put), xs[|xs| - 1])
  }

  function PutRows<C, T>(c: C, b: bytes, xs: seq<T>, put: (C, bytes, T) -> bytes): bytes {
    PutEach(c, PutN(b, |xs|, 4), xs, put)
  }

  lemma PutEachAppend<C, T>(c: C, b: bytes, xs: seq<T>, x: T, put: (C, bytes, T) -> bytes)
    ensures PutEach(c, b, xs + [x], put) == put(c, PutEach(c, b, xs, put), x)
  {
    assert (xs + [x])[..|xs|] == xs;
  }

  function PutId(c: (), b: bytes, x: nat): bytes { PutN(b, x, 4) }

  function PutByte(c: (), b: bytes, x: byte): bytes { PutN(b, x, 1) }

  function PutText(c: (), b: bytes, x: bytes): bytes { PutStr(b, x) }

  function PutIds(c: (), b: bytes, xs: seq<nat>): bytes { PutRows((), b, xs, PutId) }

  function PutReg(c: (), b: bytes, r: Reg): bytes { PutN(PutN(b, r.id, 4), r.ty, 4) }

  function PutRegs(b: bytes, rs: seq<Reg>): bytes { PutRows((), b, rs, PutReg) }

  function PutHandle(b: bytes, h: Handle): bytes {
    PutN(PutN(PutN(PutN(PutN(PutN(b, KindIndex(h.kind), 1), h.domain, 4), h.store, 4), h.slot, 4), h.generation, 8), h.owner, 8)
  }

  function PutType(c: (), b: bytes, t: Type): bytes {
    PutRows((), PutIds((), PutN(PutN(b, t.kind, 1), t.bound, 8), t.fields), t.constructors, PutIds)
  }

  // --------------------------------------------------------------------------------
  // Values, laid out by their type.

  function PutValue(types: seq<Type>, t: nat, b: bytes, v: Value): bytes
    decreases v, 1, 0
  {
    if t >= |types| then b
    else
      var s := types[t];
      if s.kind == BYTES && v.VBytes? then PutRows((), PutN(b, 6, 1), v.bytes, PutByte)
      else if s.kind == HANDLE && v.VHandle? then PutHandle(PutN(b, 7, 1), v.handle)
      else if s.kind == UNIT then PutN(b, 0, 1)
      else if s.kind == BOOL && v.VBool? then PutFlag(PutN(b, 1, 1), v.b)
      else if (s.kind == BITS || s.kind == FIN) && v.VNum? then PutN(PutN(PutN(b, 2, 1), if s.kind == BITS then s.bound else 64, 4), v.n, 8)
      else if s.kind == RECORD && v.VArray? then PutFields(types, s.fields, PutN(PutN(b, 3, 1), |v.elems|, 4), v, |v.elems|)
      else if s.kind == VARIANT && v.VArray? && |v.elems| == 2 && v.elems[0].VNum? && v.elems[1].VArray?
              && v.elems[0].n < |s.constructors| then
        var w := v.elems[1];
        PutFields(types, s.constructors[v.elems[0].n], PutN(PutN(PutN(b, 4, 1), v.elems[0].n, 8), |w.elems|, 4), w, |w.elems|)
      else if (s.kind == VEC || s.kind == BOUNDED_VEC) && v.VArray? && |s.fields| > 0 then
        PutElements(types, s.fields[0], PutN(PutN(b, 5, 1), |v.elems|, 4), v, |v.elems|)
      else b
  }

  // The first `n` elements, each by its own type.
  function PutFields(types: seq<Type>, ts: seq<nat>, b: bytes, v: Value, n: nat): bytes
    requires v.VArray? && n <= |v.elems|
    decreases v, 0, n
  {
    if n == 0 then b
    else PutValue(types, if n <= |ts| then ts[n - 1] else 0, PutFields(types, ts, b, v, n - 1), v.elems[n - 1])
  }

  // The first `n` elements, all by one type.
  function PutElements(types: seq<Type>, t: nat, b: bytes, v: Value, n: nat): bytes
    requires v.VArray? && n <= |v.elems|
    decreases v, 0, n
  {
    if n == 0 then b else PutValue(types, t, PutElements(types, t, b, v, n - 1), v.elems[n - 1])
  }

  lemma {:induction false} FieldsPrefix(types: seq<Type>, ts: seq<nat>, b: bytes, vs: seq<Value>, x: Value, n: nat)
    requires n <= |vs|
    ensures PutFields(types, ts, b, VArray(vs + [x]), n) == PutFields(types, ts, b, VArray(vs), n)
    decreases n
  {
    if n > 0 {
      FieldsPrefix(types, ts, b, vs, x, n - 1);
    }
  }

  lemma {:induction false} ElementsPrefix(types: seq<Type>, t: nat, b: bytes, vs: seq<Value>, x: Value, n: nat)
    requires n <= |vs|
    ensures PutElements(types, t, b, VArray(vs + [x]), n) == PutElements(types, t, b, VArray(vs), n)
    decreases n
  {
    if n > 0 {
      ElementsPrefix(types, t, b, vs, x, n - 1);
    }
  }

  // A literal is written only for a constant, by the type of its destination.
  function PutLiteralValue(types: seq<Type>, t: Option<nat>, b: bytes, v: Value): bytes {
    if t.None? then PutN(b, 0, 1) else PutValue(types, t.value, b, v)
  }

  // --------------------------------------------------------------------------------
  // Programs.

  function PutInstruction(types: seq<Type>, b: bytes, i: Instruction): bytes {
    var b1 := PutFlag(PutRegs(PutN(b, i.op, 1), i.args), i.dest.Some?);
    var b2 := if i.dest.Some? then PutReg((), b1, i.dest.value) else b1;
    var b3 := PutLiteralValue(types, if i.op == 0 && i.dest.Some? then Some(i.dest.value.ty) else None, b2, i.value);
    PutStr(PutStr(PutN(PutN(b3, i.immediate, 4), i.binary, 1), i.text), i.source)
  }

  function PutEdge(b: bytes, e: Edge): bytes {
    PutRegs(PutN(b, e.target, 4), e.args)
  }

  function PutCase(c: (), b: bytes, x: Case): bytes {
    PutEdge(PutN(b, x.tag, 8), x.edge)
  }

  function PutTerminator(b: bytes, t: Terminator): bytes {
    match t
    case Jump(yes) => PutEdge(PutN(b, 0, 1), yes)
    case Branch(v, yes, no) => PutEdge(PutEdge(PutReg((), PutN(b, 1, 1), v), yes), no)
    case Switch(v, cases, no) => PutEdge(PutRows((), PutReg((), PutN(b, 2, 1), v), cases, PutCase), no)
    case Return(vs) => PutRegs(PutN(b, 3, 1), vs)
    case Fail(e) => PutStr(PutN(b, 4, 1), e)
    case TransportReturn(v) => PutReg((), PutN(b, 5, 1), v)
    case Suspend(v, target, vs) => PutRegs(PutN(PutReg((), PutN(b, 6, 1), v), target, 4), vs)
  }

  function PutBlock(types: seq<Type>, b: bytes, k: Block): bytes {
    PutTerminator(PutRows(types, PutRegs(PutN(b, k.id, 4), k.parameters), k.instructions, PutInstruction), k.terminator)
  }

  function PutFrameSlot(version: nat, b: bytes, f: FrameSlot): bytes {
    var b1 := PutN(PutN(PutN(b, f.ty, 4), f.offset, 4), f.align, 4);
    if version >= 3 then PutN(b1, f.register, 4) else b1
  }

  function PutProgram(c: (nat, seq<Type>), b: bytes, p: Program): bytes {
    var b1 := PutIds((), PutIds((), PutN(b, p.id, 4), p.inputs), p.results);
    var b2 := PutStr(PutN(PutRows(c.1, b1, p.blocks, PutBlock), p.entry, 4), p.source);
    if c.0 < 2 then b2
    else
      var b3 := PutN(PutN(PutRows(c.0, PutN(b2, p.context, 1), p.frame, PutFrameSlot), p.frameBytes, 4), p.effects, 8);
      if c.0 < 5 then b3 else PutStr(PutStr(PutN(b3, p.fuel, 8), p.ownerPolicy), p.lifetimePolicy)
  }

  function PutService(c: (), b: bytes, s: Service): bytes {
    var b1 := PutIds((), PutIds((), PutN(PutN(b, s.id, 4), s.op, 1), s.inputs), s.results);
    PutStr(PutStr(PutN(PutN(PutN(b1, s.contexts, 4), s.effects, 8), s.extraFuel, 8), s.key), s.version) + s.abi
  }

  // --------------------------------------------------------------------------------
  // Metadata.

  function PutSource(b: bytes, s: Source): bytes {
    PutN(PutN(PutStr(b, s.file), s.line, 4), s.column, 4)
  }

  function PutMaybe(types: seq<Type>, t: nat, b: bytes, v: Option<Value>): bytes {
    var b1 := PutFlag(b, v.Some?);
    if v.Some? then PutValue(types, t, b1, v.value) else b1
  }

  function PutParameter(types: seq<Type>, b: bytes, p: Parameter): bytes {
    PutSource(PutMaybe(types, p.ty, PutN(PutN(b, p.id, 4), p.ty, 4), p.default), p.source)
  }

  function PutState(types: seq<Type>, b: bytes, s: StateDesc): bytes {
    PutValue(types, s.ty, PutN(PutN(b, s.id, 4), s.ty, 4), s.initial)
  }

  function PutEndpoint(c: (), b: bytes, e: Endpoint): bytes {
    var b1 := PutN(PutN(PutN(PutN(b, e.id, 4), e.role, 1), e.busWidth, 4), e.bindings, 4);
    PutSource(PutStr(PutN(PutN(PutN(b1, e.outstanding, 4), e.payload, 4), e.byteEnable, 4), e.protocol), e.source)
  }

  function PutPort(types: seq<Type>, b: bytes, p: Port): bytes {
    PutSource(PutMaybe(types, p.ty, PutN(PutN(PutN(b, p.id, 4), p.direction, 1), p.ty, 4), p.initial), p.source)
  }

  function PutComponent(types: seq<Type>, b: bytes, k: Component): bytes {
    var b1 := PutRows(types, PutRows(types, PutN(b, k.id, 4), k.parameters, PutParameter), k.states, PutState);
    PutStr(PutStr(PutRows(types, PutRows((), b1, k.endpoints, PutEndpoint), k.sidebands, PutPort), k.resetPolicy), k.source)
  }

  function PutCapacity(b: bytes, c: Capacity): bytes {
    PutN(PutN(PutN(PutN(PutN(b, c.instances, 4), c.frameLimit, 4), c.results, 4), c.overflow, 1), c.bound, 4)
  }

  function PutMaybeId(b: bytes, x: Option<nat>): bytes {
    var b1 := PutFlag(b, x.Some?);
    if x.Some? then PutN(b1, x.value, 4) else b1
  }

  function PutMaybeCapacity(b: bytes, c: Option<Capacity>): bytes {
    var b1 := PutFlag(b, c.Some?);
    if c.Some? then PutCapacity(b1, c.value) else b1
  }

  function PutHandler(c: (), b: bytes, h: Handler): bytes {
    var b1 := PutStr(PutN(PutN(PutN(b, h.localId, 4), h.program, 4), h.context, 1), h.trigger);
    PutStr(PutMaybeCapacity(PutMaybeId(b1, h.endpoint), h.capacity), h.source)
  }

  // The type of a configured parameter: the first one of that number in a component of that number.
  function ParamType(components: seq<Component>, component: nat, id: nat): Option<nat> {
    if components == [] then None
    else
      var here := if components[0].id == component then FindParam(components[0].parameters, id) else None;
      if here.Some? then here else ParamType(components[1..], component, id)
  }

  function FindParam(ps: seq<Parameter>, id: nat): Option<nat> {
    if ps == [] then None else if ps[0].id == id then Some(ps[0].ty) else FindParam(ps[1..], id)
  }

  // The component a configuration belongs to, with the tables needed to lay it out.
  datatype Scope = Scope(types: seq<Type>, components: seq<Component>, component: nat)

  function PutSetting(c: Scope, b: bytes, s: Setting): bytes {
    var t := ParamType(c.components, c.component, s.id);
    PutValue(c.types, if t.Some? then t.value else |c.types|, PutN(b, s.id, 4), s.value)
  }

  function PutInstance(c: (seq<Type>, seq<Component>), b: bytes, i: Instance): bytes {
    var b1 := PutN(PutN(PutN(PutN(b, i.id, 4), i.definition, 4), i.stateBase, 4), i.stateCount, 4);
    PutStr(PutRows(Scope(c.0, c.1, i.definition), PutRows((), b1, i.handlers, PutHandler), i.config, PutSetting), i.source)
  }

  function PutOriginal(c: (seq<Type>, seq<Component>), b: bytes, i: Original): bytes {
    PutSource(PutRows(Scope(c.0, c.1, i.definition), PutN(PutN(b, i.id, 4), i.definition, 4), i.config, PutSetting), i.source)
  }

  function PutEndpointRef(b: bytes, r: EndpointRef): bytes {
    PutN(PutN(PutN(b, r.instance, 4), r.endpoint, 4), r.binding, 4)
  }

  function PutBinding(c: (), b: bytes, x: Binding): bytes {
    PutSource(PutEndpointRef(PutEndpointRef(PutN(b, x.id, 4), x.from), x.to), x.source)
  }

  function PutPortRef(b: bytes, r: PortRef): bytes {
    PutN(PutN(PutN(b, r.tag, 1), r.instance, 4), r.port, 4)
  }

  function PutSideband(c: (), b: bytes, x: Sideband): bytes {
    PutSource(PutPortRef(PutPortRef(PutN(b, x.id, 4), x.from), x.to), x.source)
  }

  function PutMap(c: (), b: bytes, m: AddressMap): bytes {
    var b1 := PutN(PutN(PutN(PutN(b, m.id, 4), m.decoder, 4), m.output, 4), m.binding, 4);
    PutSource(PutFlag(PutN(PutN(PutN(b1, m.start, 8), m.size, 8), m.target, 8), m.aliased), m.source)
  }

  function PutSystem(c: (seq<Type>, seq<Component>), b: bytes, s: System): bytes {
    var b1 := PutRows((), PutRows(c, PutN(b, s.id, 4), s.originals, PutOriginal), s.bindings, PutBinding);
    var b2 := PutRows((), PutRows(c.0, b1, s.ports, PutPort), s.sidebands, PutSideband);
    PutSource(PutN(PutRows((), b2, s.maps, PutMap), s.domain, 4), s.source)
  }

  function PutLiteral(b: bytes, v: Literal): bytes
    decreases v, 1, 0
  {
    var b1 := PutN(b, v.tag, 1);
    if v.tag == 0 then b1
    else if v.tag == 1 then PutN(b1, v.number, 1)
    else if v.tag == 2 then PutN(PutN(b1, v.width, 4), v.number, 8)
    else if v.tag == 3 || v.tag == 5 then PutChildren(PutN(b1, |v.children|, 4), v, |v.children|)
    else if v.tag == 4 then PutChildren(PutN(PutN(b1, v.number, 8), |v.children|, 4), v, |v.children|)
    else if v.tag == 6 then PutRows((), b1, v.data, PutByte)
    else PutHandle(b1, v.handle)
  }

  function PutChildren(b: bytes, v: Literal, n: nat): bytes
    requires n <= |v.children|
    decreases v, 0, n
  {
    if n == 0 then b else PutLiteral(PutChildren(b, v, n - 1), v.children[n - 1])
  }

  // Only the children count.
  lemma {:induction false} ChildrenPrefix(b: bytes, v: Literal, w: Literal, n: nat)
    requires n <= |v.children| && n <= |w.children| && v.children[..n] == w.children[..n]
    ensures PutChildren(b, v, n) == PutChildren(b, w, n)
    decreases n
  {
    if n > 0 {
      assert v.children[..n - 1] == v.children[..n][..n - 1] && w.children[..n - 1] == w.children[..n][..n - 1];
      assert v.children[n - 1] == v.children[..n][n - 1] && w.children[n - 1] == w.children[..n][n - 1];
      ChildrenPrefix(b, v, w, n - 1);
    }
  }

  lemma ChildrenAppend(b: bytes, blank: Literal, xs: seq<Literal>, x: Literal)
    ensures PutChildren(b, blank.(children := xs + [x]), |xs| + 1) == PutLiteral(PutChildren(b, blank.(children := xs), |xs|), x)
  {
    assert (xs + [x])[..|xs|] == xs[..|xs|];
    ChildrenPrefix(b, blank.(children := xs), blank.(children := xs + [x]), |xs|);
  }

  function PutMapping(c: (), b: bytes, m: Mapping): bytes {
    PutLiteral(PutStr(b, m.key), m.literal)
  }

  function PutTexts(b: bytes, xs: seq<bytes>): bytes { PutRows((), b, xs, PutText) }

  function PutContract(c: (), b: bytes, e: Contract): bytes {
    var b1 := PutStr(PutStr(PutStr(PutN(b, e.id, 4), e.cppType), e.header), e.library);
    var b2 := PutRows((), b1, e.mapping, PutMapping);
    PutSource(PutTexts(PutTexts(PutTexts(PutTexts(b2, e.demands), e.promises), e.assumptions), e.evidence), e.source)
  }

  function PutMetadata(types: seq<Type>, b: bytes, m: Metadata): bytes {
    var c := (types, m.components);
    var b1 := PutFlag(PutRows(c, PutRows(types, b, m.components, PutComponent), m.instances, PutInstance), m.system.Some?);
    var b2 := if m.system.Some? then PutSystem(c, b1, m.system.value) else b1;
    PutTexts(PutRows((), b2, m.contracts, PutContract), m.capabilities)
  }

  // --------------------------------------------------------------------------------
  // The file.

  function PutTables(b: bytes, p: Project): bytes {
    PutIds((), PutRows((), PutStr(b, p.profile), p.types, PutType), p.stateTypes)
  }

  function PutPayload(b: bytes, p: Project): bytes {
    var b1 := PutFields(p.types, p.stateTypes, PutN(PutTables(b, p), |p.initial|, 4), VArray(p.initial), |p.initial|);
    var b2 := PutRows((p.version, p.types), b1, p.programs, PutProgram);
    var b3 := if p.version >= 2 then PutRows((), b2, p.services, PutService) else b2;
    if p.version >= 4 then PutMetadata(p.types, b3, p.metadata) else b3
  }

  const HEADER := 104

  const MAGIC := 0x5254414c

  datatype HeaderFields = HeaderFields(
    magic: nat, version: nat, minor: nat, length: nat, sections: nat, kind: nat, offset: nat, size: nat)

  function PutHeader(h: HeaderFields): (r: bytes)
    ensures |r| == 40
  {
    PutN(PutN(PutN(PutN(PutN(PutN(PutN(PutN([], h.magic, 4), h.version, 2), h.minor, 2), h.length, 8), h.sections, 4), h.kind, 4), h.offset, 8), h.size, 8)
  }

  // `size` is the length of the payload.
  function Header(version: nat, size: nat): HeaderFields {
    HeaderFields(MAGIC, version, 0, HEADER + size, 1, 1, HEADER, size)
  }

  // The digest covers the file with its own field blank.
  function Zeros(): (r: bytes)
    ensures |r| == 32
  {
    seq(32, _ => 0)
  }

  function Assemble(sha: bytes -> bytes, front: bytes, payload: bytes): bytes {
    front + sha(front + Zeros() + payload) + payload
  }

  function Front(schema: nat -> bytes, version: nat, size: nat): bytes {
    PutHeader(Header(version, size)) + schema(version)
  }

  function File(sha: bytes -> bytes, schema: nat -> bytes, p: Project): bytes {
    var payload := PutPayload([], p);
    Assemble(sha, Front(schema, p.version, |payload|), payload)
  }
}
