// The ExecIR validator (runtime/src/exec_ir.cpp): depth-first passes over the type graph
// and the pure-call graph, register definitions, control flow, dominance and typing.
module Validator {
  import opened Common
  import opened ExecIR
  import opened WellFormed
  import Dominance

  datatype Limits = Limits(maxDepth: nat, maxWork: nat)

  const WHITE := 0
  const GREY := 1
  const BLACK := 2

  // --------------------------------------------------------------------------------
  // The type graph.

  function Flatten(rows: seq<seq<nat>>): seq<nat> {
    if rows == [] then [] else rows[0] + Flatten(rows[1..])
  }

  lemma {:induction false} FlattenMembers(rows: seq<seq<nat>>, c: nat)
    ensures c in Flatten(rows) <==> exists k :: 0 <= k < |rows| && c in rows[k]
  {
    if rows != [] {
      FlattenMembers(rows[1..], c);
      if c in rows[0] {
        assert rows[0] == rows[0];
      }
      if k :| 0 <= k < |rows[1..]| && c in rows[1..][k] {
        assert rows[k + 1] == rows[1..][k];
      }
      if k :| 0 <= k < |rows| && c in rows[k] {
        if k > 0 {
          assert rows[1..][k - 1] == rows[k];
        }
      }
    }
  }

  function Children(s: Type): seq<nat> {
    match s.kind
    case TRecord => s.fields
    case TVariant => Flatten(s.constructors)
    case TVec => s.fields
    case TBoundedVec => s.fields
    case _ => []
  }

  lemma ChildrenAreChildren(s: Type, c: nat)
    ensures ChildOf(s, c) <==> c in Children(s)
  {
    FlattenMembers(s.constructors, c);
  }

  // The depth-first search over types: colours and heights so far.
  datatype Search = Search(colors: seq<nat>, heights: seq<nat>)

  // A finished type is well shaped and stands above its finished children.
  ghost predicate Finished(p: Project, maxDepth: nat, s: Search, t: nat) {
    && t < |s.colors| == |s.heights| == |p.types|
    && TypeShapeOK(p, p.types[t])
    && 1 <= s.heights[t] <= maxDepth
    && forall c :: c in Children(p.types[t]) ==> c < |s.colors| && s.colors[c] == BLACK && s.heights[c] < s.heights[t]
  }

  ghost predicate SearchOK(p: Project, maxDepth: nat, s: Search) {
    && |s.colors| == |s.heights| == |p.types|
    && forall t {:trigger Finished(p, maxDepth, s, t)} ::
         0 <= t < |s.colors| && s.colors[t] == BLACK ==> Finished(p, maxDepth, s, t)
  }

  // Finished and open types are left alone.
  ghost predicate Extends(s: Search, s': Search) {
    && |s.colors| == |s'.colors| == |s.heights| == |s'.heights|
    && (forall t :: 0 <= t < |s.colors| && s.colors[t] == BLACK ==> s'.colors[t] == BLACK && s'.heights[t] == s.heights[t])
    && (forall t :: 0 <= t < |s.colors| && s.colors[t] == GREY ==> s'.colors[t] == GREY)
  }

  // Opening a type, or finishing one that was open, keeps the others finished.
  lemma RecolorKeeps(p: Project, maxDepth: nat, s: Search, s': Search, id: nat)
    requires SearchOK(p, maxDepth, s) && id < |s.colors| && s.colors[id] != BLACK
    requires |s'.colors| == |s'.heights| == |s.colors|
    requires forall t :: 0 <= t < |s.colors| && t != id ==> s'.colors[t] == s.colors[t] && s'.heights[t] == s.heights[t]
    requires s'.colors[id] == BLACK ==> Finished(p, maxDepth, s', id)
    ensures SearchOK(p, maxDepth, s')
  {
    forall t | 0 <= t < |s'.colors| && s'.colors[t] == BLACK ensures Finished(p, maxDepth, s', t) {
      if t != id {
        assert Finished(p, maxDepth, s, t);
      }
    }
  }

  method VisitType(p: Project, maxDepth: nat, s0: Search, id: nat, depth: nat) returns (ok: bool, s: Search)
    requires SearchOK(p, maxDepth, s0) && depth >= 1
    ensures ok ==> SearchOK(p, maxDepth, s) && Extends(s0, s)
    ensures ok ==> id < |s.colors| && s.colors[id] == BLACK && depth + s.heights[id] - 1 <= maxDepth
    decreases maxDepth + 1 - depth
  {
    s := s0;
    if depth > maxDepth || id >= |s.colors| || s.colors[id] == GREY {
      return false, s;
    }
    if s.colors[id] == BLACK {
      return depth + s.heights[id] - 1 <= maxDepth, s;
    }
    if !TypeShapeOK(p, p.types[id]) {
      return false, s;
    }
    var started := s.(colors := s.colors[id := GREY]);
    RecolorKeeps(p, maxDepth, s, started, id);
    var height;
    ok, s, height := VisitChildren(p, maxDepth, started, Children(p.types[id]), depth);
    if ok {
      var closed := Search(s.colors[id := BLACK], s.heights[id := height]);
      assert s.colors[id] == GREY;
      RecolorKeeps(p, maxDepth, s, closed, id);
      s := closed;
    }
  }

  method VisitChildren(p: Project, maxDepth: nat, s0: Search, kids: seq<nat>, depth: nat)
    returns (ok: bool, s: Search, height: nat)
    requires SearchOK(p, maxDepth, s0) && 1 <= depth <= maxDepth
    ensures ok ==> SearchOK(p, maxDepth, s) && Extends(s0, s)
    ensures ok ==> 1 <= height && depth + height - 1 <= maxDepth
    ensures ok ==> forall c :: c in kids ==> c < |s.colors| && s.colors[c] == BLACK && s.heights[c] < height
    decreases maxDepth + 1 - depth, 0
  {
    ok, s, height := true, s0, 1;
    for k := 0 to |kids|
      invariant SearchOK(p, maxDepth, s) && Extends(s0, s)
      invariant 1 <= height && depth + height - 1 <= maxDepth
      invariant forall j :: 0 <= j < k ==> kids[j] < |s.colors| && s.colors[kids[j]] == BLACK && s.heights[kids[j]] < height
    {
      ok, s := VisitType(p, maxDepth, s, kids[k], depth + 1);
      if !ok {
        return;
      }
      if height < s.heights[kids[k]] + 1 {
        height := s.heights[kids[k]] + 1;
      }
    }
  }

  // Every type is visited; the heights are a certificate for the whole table.
  method CheckTypes(p: Project, maxDepth: nat) returns (ok: bool, heights: seq<nat>)
    requires maxDepth <= FULL_DEPTH
    ensures ok ==> TypesOK(p, heights) && forall t :: 0 <= t < |heights| ==> heights[t] <= maxDepth
  {
    var s := Search(seq(|p.types|, _ => WHITE), seq(|p.types|, _ => 0));
    ok, heights := true, [];
    for t := 0 to |p.types|
      invariant SearchOK(p, maxDepth, s) && forall u :: 0 <= u < t ==> s.colors[u] == BLACK
    {
      ok, s := VisitType(p, maxDepth, s, t, 1);
      if !ok {
        return;
      }
    }
    heights := s.heights;
    AllFinished(p, maxDepth, s);
  }

  lemma AllFinished(p: Project, maxDepth: nat, s: Search)
    requires SearchOK(p, maxDepth, s) && maxDepth <= FULL_DEPTH
    requires forall t :: 0 <= t < |s.colors| ==> s.colors[t] == BLACK
    ensures TypesOK(p, s.heights) && forall t :: 0 <= t < |s.heights| ==> s.heights[t] <= maxDepth
  {
    var h := s.heights;
    forall t | 0 <= t < |h| ensures TypeShapeOK(p, p.types[t]) && 1 <= h[t] <= maxDepth {
      assert Finished(p, maxDepth, s, t);
    }
    forall t, c: nat {:trigger ChildOf(p.types[t], c)} | 0 <= t < |h| && ChildOf(p.types[t], c) ensures c < |h| && h[c] < h[t] {
      ChildrenAreChildren(p.types[t], c);
      assert Finished(p, maxDepth, s, t);
    }
  }

  // --------------------------------------------------------------------------------
  // The pure-call graph.

  function CalleesIn(instructions: seq<Instruction>): seq<nat> {
    if instructions == [] then []
    else (if instructions[0].op.CallPure? then [instructions[0].immediate] else []) + CalleesIn(instructions[1..])
  }

  function Callees(blocks: seq<Block>): seq<nat> {
    if blocks == [] then [] else CalleesIn(blocks[0].instructions) + Callees(blocks[1..])
  }

  lemma {:induction false} CalleeListed(instructions: seq<Instruction>, k: nat)
    requires k < |instructions| && instructions[k].op.CallPure?
    ensures instructions[k].immediate in CalleesIn(instructions)
  {
    if k > 0 {
      CalleeListed(instructions[1..], k - 1);
    }
  }

  lemma {:induction false} CalleeOfBlock(blocks: seq<Block>, b: Block, k: nat)
    requires b in blocks && k < |b.instructions| && b.instructions[k].op.CallPure?
    ensures b.instructions[k].immediate in Callees(blocks)
  {
    if b == blocks[0] {
      CalleeListed(b.instructions, k);
    } else {
      CalleeOfBlock(blocks[1..], b, k);
    }
  }

  predicate AllPure(blocks: seq<Block>) {
    forall i :: 0 <= i < |blocks| ==> PureBlock(blocks[i])
  }

  // The search over pure calls: programs being visited, and heights of finished ones.
  datatype PureSearch = PureSearch(open: set<nat>, heights: map<nat, nat>)

  ghost predicate PureFinished(p: Project, maxDepth: nat, heights: map<nat, nat>, id: nat) {
    && id in heights
    && 1 <= heights[id] <= maxDepth
    && var pr := FindProgram(p.programs, id);
       && pr.Some?
       && AllPure(pr.value.blocks)
       && forall c :: c in Callees(pr.value.blocks) ==> c in heights && heights[c] < heights[id]
  }

  ghost predicate PureSearchOK(p: Project, maxDepth: nat, s: PureSearch) {
    && s.open !! s.heights.Keys
    && forall id {:trigger PureFinished(p, maxDepth, s.heights, id)} ::
         id in s.heights ==> PureFinished(p, maxDepth, s.heights, id)
  }

  ghost predicate PureExtends(s: PureSearch, s': PureSearch) {
    && s'.open == s.open
    && forall id :: id in s.heights ==> id in s'.heights && s'.heights[id] == s.heights[id]
  }

  lemma PureFinish(p: Project, maxDepth: nat, s: PureSearch, id: nat, height: nat)
    requires PureSearchOK(p, maxDepth, s) && id in s.open
    requires PureFinished(p, maxDepth, s.heights[id := height], id)
    ensures PureSearchOK(p, maxDepth, PureSearch(s.open - {id}, s.heights[id := height]))
  {
    var h := s.heights[id := height];
    forall x | x in h ensures PureFinished(p, maxDepth, h, x) {
      if x != id {
        assert PureFinished(p, maxDepth, s.heights, x);
      }
    }
  }

  method VisitPure(p: Project, maxDepth: nat, s0: PureSearch, id: nat, depth: nat) returns (ok: bool, s: PureSearch)
    requires PureSearchOK(p, maxDepth, s0) && depth >= 1
    ensures ok ==> PureSearchOK(p, maxDepth, s) && PureExtends(s0, s)
    ensures ok ==> id in s.heights && depth + s.heights[id] - 1 <= maxDepth
    decreases maxDepth + 1 - depth
  {
    s := s0;
    var pr := FindProgram(p.programs, id);
    if depth > maxDepth || pr.None? || id in s.open {
      return false, s;
    }
    if id in s.heights {
      return depth + s.heights[id] - 1 <= maxDepth, s;
    }
    if !AllPure(pr.value.blocks) {
      return false, s;
    }
    var height;
    ok, s, height := VisitCallees(p, maxDepth, s.(open := s.open + {id}), Callees(pr.value.blocks), depth);
    if ok {
      PureFinish(p, maxDepth, s, id, height);
      s := PureSearch(s.open - {id}, s.heights[id := height]);
      assert s.open == s0.open;
    }
  }

  method VisitCallees(p: Project, maxDepth: nat, s0: PureSearch, ids: seq<nat>, depth: nat)
    returns (ok: bool, s: PureSearch, height: nat)
    requires PureSearchOK(p, maxDepth, s0) && 1 <= depth <= maxDepth
    ensures ok ==> PureSearchOK(p, maxDepth, s) && PureExtends(s0, s)
    ensures ok ==> 1 <= height && depth + height - 1 <= maxDepth
    ensures ok ==> forall c :: c in ids ==> c in s.heights && s.heights[c] < height
    decreases maxDepth + 1 - depth, 0
  {
    ok, s, height := true, s0, 1;
    for k := 0 to |ids|
      invariant PureSearchOK(p, maxDepth, s) && PureExtends(s0, s)
      invariant 1 <= height && depth + height - 1 <= maxDepth
      invariant forall j :: 0 <= j < k ==> ids[j] in s.heights && s.heights[ids[j]] < height
    {
      ok, s := VisitPure(p, maxDepth, s, ids[k], depth + 1);
      if !ok {
        return;
      }
      if height < s.heights[ids[k]] + 1 {
        height := s.heights[ids[k]] + 1;
      }
    }
  }

  // Every pure call of every program is followed; the heights certify the call graph.
  method CheckPureCalls(p: Project, maxDepth: nat) returns (ok: bool, heights: map<nat, nat>)
    requires UniquePrograms(p) && maxDepth <= FULL_DEPTH
    ensures ok ==> PureCallsOK(p, heights)
  {
    var s := PureSearch({}, map[]);
    ok, heights := true, map[];
    for n := 0 to |p.programs|
      invariant PureSearchOK(p, maxDepth, s)
      invariant forall j, c :: 0 <= j < n && c in Callees(p.programs[j].blocks) ==> c in s.heights
    {
      var ids := Callees(p.programs[n].blocks);
      for k := 0 to |ids|
        invariant PureSearchOK(p, maxDepth, s)
        invariant forall j, c :: 0 <= j < n && c in Callees(p.programs[j].blocks) ==> c in s.heights
        invariant forall j :: 0 <= j < k ==> ids[j] in s.heights
      {
        ok, s := VisitPure(p, maxDepth, s, ids[k], 1);
        if !ok {
          return;
        }
      }
    }
    heights := s.heights;
    PureCertificate(p, maxDepth, s);
  }

  lemma PureCertificate(p: Project, maxDepth: nat, s: PureSearch)
    requires UniquePrograms(p) && maxDepth <= FULL_DEPTH
    requires PureSearchOK(p, maxDepth, s)
    requires forall j, c :: 0 <= j < |p.programs| && c in Callees(p.programs[j].blocks) ==> c in s.heights
    ensures PureCallsOK(p, s.heights)
  {
    forall pr | pr in p.programs ensures CallsBelow(pr, s.heights, FULL_DEPTH) {
      forall b, k | b in pr.blocks && 0 <= k < |b.instructions| && b.instructions[k].op.CallPure?
        ensures b.instructions[k].immediate in s.heights && s.heights[b.instructions[k].immediate] <= FULL_DEPTH
      {
        CalleeOfBlock(pr.blocks, b, k);
        assert PureFinished(p, maxDepth, s.heights, b.instructions[k].immediate);
      }
    }
    forall pr | pr in p.programs && pr.id in s.heights ensures PureProgramOK(pr, s.heights) {
      assert PureFinished(p, maxDepth, s.heights, pr.id);
      assert FindProgram(p.programs, pr.id) == Some(pr);
      forall b, k | b in pr.blocks && 0 <= k < |b.instructions| && b.instructions[k].op.CallPure?
        ensures b.instructions[k].immediate in s.heights
        ensures s.heights[b.instructions[k].immediate] <= s.heights[pr.id] - 1
      {
        CalleeOfBlock(pr.blocks, b, k);
      }
    }
  }

  // --------------------------------------------------------------------------------
  // Register definitions.

  // The definitions of the first `params` parameters and `instrs` instructions of `b`.
  ghost predicate Recorded(defs: map<nat, Def>, b: Block, params: nat, instrs: nat)
    requires params <= |b.parameters| && instrs <= |b.instructions|
  {
    && (forall i :: 0 <= i < params ==>
          b.parameters[i].id in defs && defs[b.parameters[i].id] == Def(b.parameters[i].ty, b.id, 0))
    && (forall k :: 0 <= k < instrs && b.instructions[k].dest.Some? ==>
          var r := b.instructions[k].dest.value;
          r.id in defs && defs[r.id] == Def(r.ty, b.id, k + 1))
  }

  lemma RecordedAll(defs: map<nat, Def>, b: Block)
    requires Recorded(defs, b, |b.parameters|, |b.instructions|)
    ensures DefsRecorded(defs, b)
  {
    forall r: Reg, order: nat | DefinesAt(b, r, order) ensures r.id in defs && defs[r.id] == Def(r.ty, b.id, order) {
      if order == 0 {
        var i :| 0 <= i < |b.parameters| && b.parameters[i] == r;
      } else {
        assert b.instructions[order - 1].dest == Some(r);
      }
    }
  }

  ghost predicate Grows(defs: map<nat, Def>, defs': map<nat, Def>) {
    forall id :: id in defs ==> id in defs' && defs'[id] == defs[id]
  }

  ghost predicate InRange(p: Project, defs: map<nat, Def>) {
    forall id :: id in defs ==> defs[id].ty < |p.types|
  }

  lemma RealGrows(defs: map<nat, Def>, blocks: seq<Block>, b: Block, r: Reg, order: nat)
    requires DefsReal(defs, blocks) && b in blocks && DefinesAt(b, r, order)
    ensures DefsReal(defs[r.id := Def(r.ty, b.id, order)], blocks)
  {
    var defs' := defs[r.id := Def(r.ty, b.id, order)];
    forall id | id in defs'
      ensures exists x :: x in blocks && x.id == defs'[id].block && DefinesAt(x, Reg(id, defs'[id].ty), defs'[id].order)
    {
      if id == r.id {
        assert DefinesAt(b, Reg(id, defs'[id].ty), defs'[id].order);
      } else {
        assert defs'[id] == defs[id];
      }
    }
  }

  method CollectParameters(p: Project, blocks: seq<Block>, b: Block, defs0: map<nat, Def>)
    returns (ok: bool, defs: map<nat, Def>)
    requires b in blocks && DefsReal(defs0, blocks) && InRange(p, defs0)
    ensures ok ==> Grows(defs0, defs) && DefsReal(defs, blocks) && InRange(p, defs) && Recorded(defs, b, |b.parameters|, 0)
  {
    ok, defs := true, defs0;
    for i := 0 to |b.parameters|
      invariant Grows(defs0, defs) && DefsReal(defs, blocks) && InRange(p, defs) && Recorded(defs, b, i, 0)
    {
      var r := b.parameters[i];
      if r.id in defs || r.ty >= |p.types| {
        return false, defs;
      }
      RealGrows(defs, blocks, b, r, 0);
      defs := defs[r.id := Def(r.ty, b.id, 0)];
    }
  }

  lemma RecordedNext(defs: map<nat, Def>, b: Block, k: nat)
    requires k < |b.instructions| && b.instructions[k].dest.Some? && b.instructions[k].dest.value.id !in defs
    requires Recorded(defs, b, |b.parameters|, k)
    ensures var r := b.instructions[k].dest.value; Recorded(defs[r.id := Def(r.ty, b.id, k + 1)], b, |b.parameters|, k + 1)
  {
  }

  method CollectBlockDefs(p: Project, blocks: seq<Block>, b: Block, defs0: map<nat, Def>)
    returns (ok: bool, defs: map<nat, Def>)
    requires b in blocks && DefsReal(defs0, blocks) && InRange(p, defs0)
    ensures ok ==> Grows(defs0, defs) && DefsReal(defs, blocks) && InRange(p, defs) && DefsRecorded(defs, b)
  {
    ok, defs := CollectParameters(p, blocks, b, defs0);
    if !ok {
      return;
    }
    for k := 0 to |b.instructions|
      invariant Grows(defs0, defs) && DefsReal(defs, blocks) && InRange(p, defs)
      invariant Recorded(defs, b, |b.parameters|, k)
    {
      if b.instructions[k].dest.Some? {
        var r := b.instructions[k].dest.value;
        if r.id in defs || r.ty >= |p.types| {
          return false, defs;
        }
        RealGrows(defs, blocks, b, r, k + 1);
        RecordedNext(defs, b, k);
        defs := defs[r.id := Def(r.ty, b.id, k + 1)];
      }
    }
    RecordedAll(defs, b);
  }

  // Every register is defined exactly once.
  method CollectDefs(p: Project, pr: Program) returns (ok: bool, defs: map<nat, Def>)
    ensures ok ==> DefsOK(p, pr, defs)
  {
    ok, defs := true, map[];
    for n := 0 to |pr.blocks|
      invariant DefsReal(defs, pr.blocks) && InRange(p, defs)
      invariant forall j :: 0 <= j < n ==> DefsRecorded(defs, pr.blocks[j])
    {
      ghost var before := defs;
      ok, defs := CollectBlockDefs(p, pr.blocks, pr.blocks[n], defs);
      if !ok {
        return;
      }
      forall j | 0 <= j < n ensures DefsRecorded(defs, pr.blocks[j]) {
        assert DefsRecorded(before, pr.blocks[j]);
      }
    }
  }

  // --------------------------------------------------------------------------------
  // Control flow.

  // Where a terminator may continue, suspension included.
  function Targets(t: Terminator): seq<nat> {
    if t.Suspend? then [t.resume] else seq(|Edges(t)|, i requires 0 <= i < |Edges(t)| => Edges(t)[i].target)
  }

  function NodesOf(blocks: seq<Block>): set<nat> {
    set i | 0 <= i < |blocks| :: blocks[i].id
  }

  function BlockIds(blocks: seq<Block>): (ids: seq<nat>)
    ensures |ids| == |blocks|
  {
    seq(|blocks|, i requires 0 <= i < |blocks| => blocks[i].id)
  }

  ghost predicate GoesTo(blocks: seq<Block>, q: nat, t: nat) {
    exists b :: b in blocks && b.id == q && t in Targets(b.terminator)
  }

  ghost predicate ResumePoint(blocks: seq<Block>, r: nat) {
    exists b :: b in blocks && b.terminator.Suspend? && b.terminator.resume == r
  }

  // `g` is the control-flow graph of the blocks, with every resume point as a root.
  ghost predicate GraphOf(blocks: seq<Block>, entry: nat, nodes: set<nat>, g: Dominance.Graph) {
    && g.nodes == nodes
    && (forall t, q {:trigger q in g.Pred(t)} :: q in g.Pred(t) <==> GoesTo(blocks, q, t))
    && (forall r :: r in g.roots <==> r == entry || ResumePoint(blocks, r))
  }

  method AddTargets(pred0: map<nat, set<nat>>, q: nat, targets: seq<nat>) returns (pred: map<nat, set<nat>>)
    ensures forall t :: (if t in pred then pred[t] else {}) ==
                        (if t in pred0 then pred0[t] else {}) + (if t in targets then {q} else {})
  {
    pred := pred0;
    for k := 0 to |targets|
      invariant forall t :: (if t in pred then pred[t] else {}) ==
                            (if t in pred0 then pred0[t] else {}) + (if t in targets[..k] then {q} else {})
    {
      var t := targets[k];
      pred := pred[t := (if t in pred then pred[t] else {}) + {q}];
      assert targets[..k + 1] == targets[..k] + [t];
    }
    assert targets[..|targets|] == targets;
  }

  lemma GraphStep(blocks: seq<Block>, n: nat, entry: nat, nodes: set<nat>, g: Dominance.Graph, g': Dominance.Graph)
    requires n < |blocks| && GraphOf(blocks[..n], entry, nodes, g) && g'.nodes == nodes
    requires var b := blocks[n];
             && (forall t :: g'.Pred(t) == g.Pred(t) + (if t in Targets(b.terminator) then {b.id} else {}))
             && g'.roots == g.roots + (if b.terminator.Suspend? then {b.terminator.resume} else {})
    ensures GraphOf(blocks[..n + 1], entry, nodes, g')
  {
    var old_, new_, b := blocks[..n], blocks[..n + 1], blocks[n];
    assert new_ == old_ + [b];
    forall t, q ensures q in g'.Pred(t) <==> GoesTo(new_, q, t) {
      assert GoesTo(new_, q, t) <==> GoesTo(old_, q, t) || (b.id == q && t in Targets(b.terminator)) by {
        if GoesTo(old_, q, t) {
          var x :| x in old_ && x.id == q && t in Targets(x.terminator);
          assert x in new_;
        }
        if b.id == q && t in Targets(b.terminator) {
          assert b in new_;
        }
      }
    }
    forall r ensures r in g'.roots <==> r == entry || ResumePoint(new_, r) {
      assert ResumePoint(new_, r) <==> ResumePoint(old_, r) || (b.terminator.Suspend? && b.terminator.resume == r) by {
        if ResumePoint(old_, r) {
          var x :| x in old_ && x.terminator.Suspend? && x.terminator.resume == r;
          assert x in new_;
        }
        if b.terminator.Suspend? && b.terminator.resume == r {
          assert b in new_;
        }
      }
    }
  }

  ghost predicate EdgesFine(pr: Program) {
    forall b :: b in pr.blocks ==> EdgesOK(pr, b)
  }

  predicate EdgesOK(pr: Program, b: Block) {
    && (forall i :: 0 <= i < |Edges(b.terminator)| ==> EdgeOK(pr, Edges(b.terminator)[i]))
    && (b.terminator.Suspend? ==> FindBlock(pr.blocks, b.terminator.resume).Some?)
  }

  method CollectFlow(pr: Program) returns (ok: bool, g: Dominance.Graph)
    requires FindBlock(pr.blocks, pr.entry).Some?
    ensures ok ==> GraphOf(pr.blocks, pr.entry, NodesOf(pr.blocks), g)
    ensures ok ==> EdgesFine(pr)
  {
    ok := true;
    var nodes := NodesOf(pr.blocks);
    g := Dominance.Graph(nodes, map[], {pr.entry});
    assert pr.blocks[..0] == [];
    for n := 0 to |pr.blocks|
      invariant GraphOf(pr.blocks[..n], pr.entry, nodes, g)
      invariant forall j :: 0 <= j < n ==> EdgesOK(pr, pr.blocks[j])
    {
      var b := pr.blocks[n];
      if !EdgesOK(pr, b) {
        return false, g;
      }
      var pred := AddTargets(g.pred, b.id, Targets(b.terminator));
      var next := Dominance.Graph(nodes, pred, g.roots + (if b.terminator.Suspend? then {b.terminator.resume} else {}));
      GraphStep(pr.blocks, n, pr.entry, nodes, g, next);
      g := next;
    }
    assert pr.blocks[..|pr.blocks|] == pr.blocks;
  }

  lemma GraphValid(pr: Program, nodes: set<nat>, g: Dominance.Graph)
    requires nodes == NodesOf(pr.blocks)
    requires GraphOf(pr.blocks, pr.entry, nodes, g) && FindBlock(pr.blocks, pr.entry).Some?
    requires EdgesFine(pr)
    ensures g.Valid()
  {
    forall r | r in g.roots ensures r in g.nodes {
      if r == pr.entry {
        BlockIdInNodes(pr.blocks, FindBlock(pr.blocks, r).value);
      } else {
        var b :| b in pr.blocks && b.terminator.Suspend? && b.terminator.resume == r;
        assert EdgesOK(pr, b);
        BlockIdInNodes(pr.blocks, FindBlock(pr.blocks, r).value);
      }
    }
    forall b, q | b in g.nodes && q in g.Pred(b) ensures q in g.nodes {
      var x :| x in pr.blocks && x.id == q && b in Targets(x.terminator);
      BlockIdInNodes(pr.blocks, x);
    }
  }

  lemma IdsAreNodes(blocks: seq<Block>)
    ensures NodesOf(blocks) == set i | 0 <= i < |blocks| :: BlockIds(blocks)[i]
  {
    assert forall i :: 0 <= i < |blocks| ==> BlockIds(blocks)[i] == blocks[i].id;
  }

  lemma BlockIdInNodes(blocks: seq<Block>, b: Block)
    requires b in blocks
    ensures b.id in NodesOf(blocks)
  {
    var i :| 0 <= i < |blocks| && blocks[i] == b;
    assert blocks[i].id == b.id;
  }

  // Dominators of a block are inherited along every edge inside a segment.
  lemma DominatorsInherited(g: Dominance.Graph, q: nat, t: nat)
    requires g.Valid() && t in g.nodes && q in g.Pred(t)
    ensures g.Dominators(t) <= g.Dominators(q) + {t}
  {
    if t in g.roots {
      Dominance.RootDominators(g, t);
    } else {
      forall x | x in g.Dominators(t) && x != t ensures x in g.Dominators(q) {
        forall path | g.SegmentPath(path, q) ensures x in path {
          assert g.SegmentPath(path + [t], t);
          assert x in path + [t];
        }
      }
    }
  }

  lemma FlowFromDominators(pr: Program, g: Dominance.Graph, f: Facts)
    requires g.Valid() && GraphOf(pr.blocks, pr.entry, NodesOf(pr.blocks), g)
    requires EdgesFine(pr)
    requires Dominance.Exact(g, f.dom) && f.roots == g.roots
    ensures FlowOK(pr, f)
  {
    forall b | b in pr.blocks ensures b.id in f.dom && (b.id in f.roots ==> f.dom[b.id] <= {b.id}) {
      BlockIdInNodes(pr.blocks, b);
      if b.id in f.roots {
        Dominance.RootDominators(g, b.id);
      }
    }
    forall b, e | b in pr.blocks && e in Edges(b.terminator)
      ensures EdgeOK(pr, e) && e.target in f.dom && f.dom[e.target] <= f.dom[b.id] + {e.target}
    {
      EdgeFlows(pr, g, b, e);
      DominatorsInherited(g, b.id, e.target);
    }
  }

  lemma EdgeFlows(pr: Program, g: Dominance.Graph, b: Block, e: Edge)
    requires GraphOf(pr.blocks, pr.entry, NodesOf(pr.blocks), g) && b in pr.blocks && e in Edges(b.terminator) && EdgesOK(pr, b)
    ensures EdgeOK(pr, e) && e.target in g.nodes && b.id in g.nodes && b.id in g.Pred(e.target)
  {
    var i :| 0 <= i < |Edges(b.terminator)| && Edges(b.terminator)[i] == e;
    assert Targets(b.terminator)[i] == e.target;
    assert GoesTo(pr.blocks, b.id, e.target);
    BlockIdInNodes(pr.blocks, b);
    BlockIdInNodes(pr.blocks, FindBlock(pr.blocks, e.target).value);
  }

  // --------------------------------------------------------------------------------
  // Programs and projects.

  method DistinctBlocks(blocks: seq<Block>) returns (ok: bool)
    ensures ok ==> forall i, j :: 0 <= i < j < |blocks| ==> blocks[i].id != blocks[j].id
  {
    var seen := {};
    for n := 0 to |blocks|
      invariant seen == set i | 0 <= i < n :: blocks[i].id
      invariant forall i, j :: 0 <= i < j < n ==> blocks[i].id != blocks[j].id
    {
      if blocks[n].id in seen {
        return false;
      }
      seen := seen + {blocks[n].id};
    }
    ok := true;
  }

  lemma {:induction false} DistinctFind(blocks: seq<Block>, b: Block)
    requires forall i, j :: 0 <= i < j < |blocks| ==> blocks[i].id != blocks[j].id
    requires b in blocks
    ensures FindBlock(blocks, b.id) == Some(b)
  {
    if blocks[0] != b {
      DistinctFind(blocks[1..], b);
      var i :| 0 <= i < |blocks| && blocks[i] == b;
      assert blocks[0].id != blocks[i].id;
    }
  }

  method DistinctPrograms(p: Project) returns (ok: bool)
    ensures ok ==> UniquePrograms(p)
  {
    var seen := {};
    for n := 0 to |p.programs|
      invariant seen == set i | 0 <= i < n :: p.programs[i].id
      invariant forall i, j :: 0 <= i < j < n ==> p.programs[i].id != p.programs[j].id
    {
      if p.programs[n].id in seen {
        return false;
      }
      seen := seen + {p.programs[n].id};
    }
    ok := true;
    forall pr | pr in p.programs ensures FindProgram(p.programs, pr.id) == Some(pr) {
      DistinctFindProgram(p.programs, pr);
    }
  }

  lemma {:induction false} DistinctFindProgram(programs: seq<Program>, pr: Program)
    requires forall i, j :: 0 <= i < j < |programs| ==> programs[i].id != programs[j].id
    requires pr in programs
    ensures FindProgram(programs, pr.id) == Some(pr)
  {
    if programs[0] != pr {
      DistinctFindProgram(programs[1..], pr);
      var i :| 0 <= i < |programs| && programs[i] == pr;
      assert programs[0].id != programs[i].id;
    }
  }

  // Constants are checked to the depth limit of the validation.
  predicate InstructionAccepted(p: Project, i: Instruction, maxDepth: nat) {
    if i.op.Const? then |i.args| == 0 && i.dest.Some? && Conforms(p, i.dest.value.ty, i.value, maxDepth)
    else InstructionOK(p, i)
  }

  lemma LimitIsEnough(p: Project, heights: seq<nat>, maxDepth: nat, t: nat, v: Value)
    requires TypesOK(p, heights) && maxDepth <= FULL_DEPTH
    requires forall u :: 0 <= u < |heights| ==> heights[u] <= maxDepth
    requires Conforms(p, t, v, maxDepth)
    ensures Fits(p, t, v)
  {
    DepthIrrelevant(p, heights, t, v, maxDepth, FULL_DEPTH);
  }

  predicate BlockAccepted(p: Project, pr: Program, f: Facts, b: Block, maxDepth: nat) {
    && (forall k :: 0 <= k < |b.instructions| ==>
          InstructionAccepted(p, b.instructions[k], maxDepth) && AllUsable(f, b, b.instructions[k].args, k + 1))
    && TerminatorOK(p, pr, f, b)
  }

  lemma AcceptedBlockOK(p: Project, heights: seq<nat>, pr: Program, f: Facts, b: Block, maxDepth: nat)
    requires TypesOK(p, heights) && maxDepth <= FULL_DEPTH
    requires forall u :: 0 <= u < |heights| ==> heights[u] <= maxDepth
    requires BlockAccepted(p, pr, f, b, maxDepth)
    ensures BlockOK(p, pr, f, b)
  {
    forall k | 0 <= k < |b.instructions| ensures InstructionOK(p, b.instructions[k]) {
      var i := b.instructions[k];
      assert InstructionAccepted(p, i, maxDepth);
      if i.op.Const? {
        LimitIsEnough(p, heights, maxDepth, i.dest.value.ty, i.value);
      }
    }
  }

  // The facts are the exact dominators of the program's graph, all of which is reachable.
  ghost predicate FlowGraph(pr: Program, f: Facts, g: Dominance.Graph) {
    && g.Valid() && GraphOf(pr.blocks, pr.entry, NodesOf(pr.blocks), g)
    && Dominance.Exact(g, f.dom) && f.roots == g.roots
    && AllEntered(g)
  }

  ghost predicate AllEntered(g: Dominance.Graph) {
    forall b {:trigger Entered(g, b)} :: b in g.nodes ==> Entered(g, b)
  }

  ghost predicate Entered(g: Dominance.Graph, b: nat) {
    exists path :: g.SegmentPath(path, b)
  }

  lemma ReachedEntered(g: Dominance.Graph, entry: nat)
    requires entry in g.roots && forall b :: b in g.nodes ==> Dominance.Reachable(g, entry, b)
    ensures AllEntered(g)
  {
    forall b | b in g.nodes ensures Entered(g, b) {
      var whole :| g.Path(entry, whole, b);
      var path := Dominance.LastRoot(g, entry, whole, b);
    }
  }

  lemma FlowDone(pr: Program, g: Dominance.Graph, f: Facts)
    requires FlowGraph(pr, f, g) && EdgesFine(pr)
    ensures FlowOK(pr, f) && pr.entry in f.roots
  {
    FlowFromDominators(pr, g, f);
  }

  // Reachability and dominance of one program, within the work budget.
  method CheckFlow(pr: Program, defs: map<nat, Def>, maxWork: nat) returns (ok: bool, f: Facts, ghost graph: Dominance.Graph)
    requires FindBlock(pr.blocks, pr.entry).Some?
    ensures ok ==> f.defs == defs && FlowGraph(pr, f, graph) && EdgesFine(pr)
  {
    var g;
    f := Facts(defs, map[], {});
    ok, g := CollectFlow(pr);
    graph := g;
    if !ok {
      return;
    }
    IdsAreNodes(pr.blocks);
    GraphValid(pr, g.nodes, g);
    var dom;
    ok, dom := Dominate(g, pr.entry, BlockIds(pr.blocks), maxWork);
    f := Facts(defs, dom, g.roots);
  }

  method Dominate(g: Dominance.Graph, entry: nat, ids: seq<nat>, maxWork: nat) returns (ok: bool, dom: Dominance.Doms)
    requires g.Valid() && entry in g.roots && g.nodes == set i | 0 <= i < |ids| :: ids[i]
    ensures ok ==> AllEntered(g) && Dominance.Exact(g, dom)
  {
    dom := map[];
    var reached := Dominance.Reach(g, entry, ids);
    if reached != g.nodes {
      return false, dom;
    }
    assert forall b :: b in g.nodes ==> Dominance.Reachable(g, entry, b);
    ReachedEntered(g, entry);
    var work;
    ok, dom, work := Dominance.ComputeDominators(g, ids, 0, maxWork);
  }

  // --------------------------------------------------------------------------------
  // No facts about a program are better than the ones computed.

  lemma FlowClaims(pr: Program, g: Dominance.Graph, f: Facts)
    requires GraphOf(pr.blocks, pr.entry, NodesOf(pr.blocks), g) && FlowOK(pr, f) && g.roots <= f.roots
    ensures Dominance.Claims(g, f.dom)
  {
    forall b | b in g.nodes ensures b in f.dom && (b in g.roots ==> f.dom[b] <= {b}) {
      var i :| 0 <= i < |pr.blocks| && pr.blocks[i].id == b;
      assert pr.blocks[i] in pr.blocks;
    }
    forall t, q | t in g.nodes - g.roots && q in g.Pred(t) && q in g.nodes ensures f.dom[t] <= f.dom[q] + {t} {
      ClaimInherited(pr, g, f, q, t);
    }
  }

  lemma ClaimInherited(pr: Program, g: Dominance.Graph, f: Facts, q: nat, t: nat)
    requires GraphOf(pr.blocks, pr.entry, NodesOf(pr.blocks), g)
    requires FlowOK(pr, f) && GoesTo(pr.blocks, q, t) && t !in g.roots
    ensures q in f.dom && t in f.dom && f.dom[t] <= f.dom[q] + {t}
  {
    var b :| b in pr.blocks && b.id == q && t in Targets(b.terminator);
    assert b.terminator.Suspend? ==> ResumePoint(pr.blocks, t);
    var i :| 0 <= i < |Targets(b.terminator)| && Targets(b.terminator)[i] == t;
    assert Edges(b.terminator)[i] in Edges(b.terminator);
  }

  // Every register has one definition, so there is one table of them.
  lemma DefsUnique(p: Project, pr: Program, a: map<nat, Def>, b: map<nat, Def>)
    requires DefsOK(p, pr, a) && DefsOK(p, pr, b)
    ensures a == b
  {
    DefsWithin(p, pr, a, b);
    DefsWithin(p, pr, b, a);
    assert a.Keys == b.Keys;
  }

  lemma DefsWithin(p: Project, pr: Program, a: map<nat, Def>, b: map<nat, Def>)
    requires DefsOK(p, pr, a) && DefsOK(p, pr, b)
    ensures forall id :: id in a ==> id in b && b[id] == a[id]
  {
    forall id | id in a ensures id in b && b[id] == a[id] {
      var x :| x in pr.blocks && x.id == a[id].block && DefinesAt(x, Reg(id, a[id].ty), a[id].order);
      assert DefsRecorded(b, x);
    }
  }

  // `e` lets every register of block `b` be read that `f` does.
  ghost predicate Covers(f: Facts, e: Facts, b: Block) {
    forall r, order :: Usable(f, b, r, order) ==> Usable(e, b, r, order)
  }

  lemma ExactCovers(p: Project, pr: Program, g: Dominance.Graph, f: Facts, e: Facts, b: Block)
    requires g.Valid() && GraphOf(pr.blocks, pr.entry, NodesOf(pr.blocks), g)
    requires DefsOK(p, pr, f.defs) && FlowOK(pr, f) && g.roots <= f.roots && b in pr.blocks
    requires e.defs == f.defs && Dominance.Exact(g, e.dom)
    ensures Covers(f, e, b)
  {
    BlockIdInNodes(pr.blocks, b);
    FlowClaims(pr, g, f);
    forall r, order | Usable(f, b, r, order) ensures Usable(e, b, r, order) {
      var x := f.defs[r.id].block;
      var d :| d in pr.blocks && d.id == x && DefinesAt(d, Reg(r.id, f.defs[r.id].ty), f.defs[r.id].order);
      BlockIdInNodes(pr.blocks, d);
      forall path | g.SegmentPath(path, b.id) ensures x in path {
        Dominance.ClaimOnPath(g, f.dom, path, b.id, x);
      }
    }
  }

  lemma BlockCovered(p: Project, pr: Program, f: Facts, e: Facts, b: Block)
    requires BlockOK(p, pr, f, b) && Covers(f, e, b) && (b.terminator.Suspend? ==> b.terminator.resume in e.roots)
    ensures BlockOK(p, pr, e, b)
  {
    forall rs, order | AllUsable(f, b, rs, order) ensures AllUsable(e, b, rs, order) {
    }
  }

  // If any facts make the program well formed, the computed ones do.
  lemma BestFacts(p: Project, pr: Program, g: Dominance.Graph, f: Facts, e: Facts)
    requires g.Valid() && GraphOf(pr.blocks, pr.entry, NodesOf(pr.blocks), g)
    requires ProgramOK(p, pr, f) && FlowOK(pr, e)
    requires DefsOK(p, pr, e.defs) && Dominance.Exact(g, e.dom) && e.roots == g.roots
    ensures ProgramOK(p, pr, e)
  {
    DefsUnique(p, pr, f.defs, e.defs);
    RootsClaimed(p, pr, g, f);
    forall b | b in pr.blocks ensures BlockOK(p, pr, e, b) {
      BlockBest(p, pr, g, f, e, b);
    }
    assert pr.entry in g.roots;
  }

  lemma RootsClaimed(p: Project, pr: Program, g: Dominance.Graph, f: Facts)
    requires GraphOf(pr.blocks, pr.entry, NodesOf(pr.blocks), g) && ProgramOK(p, pr, f)
    ensures g.roots <= f.roots
  {
    forall r | r in g.roots ensures r in f.roots {
      if r != pr.entry {
        var b :| b in pr.blocks && b.terminator.Suspend? && b.terminator.resume == r;
        assert BlockOK(p, pr, f, b);
      }
    }
  }

  lemma BlockBest(p: Project, pr: Program, g: Dominance.Graph, f: Facts, e: Facts, b: Block)
    requires g.Valid() && GraphOf(pr.blocks, pr.entry, NodesOf(pr.blocks), g) && ProgramOK(p, pr, f) && g.roots <= f.roots
    requires e.defs == f.defs && Dominance.Exact(g, e.dom) && e.roots == g.roots && b in pr.blocks
    ensures BlockOK(p, pr, e, b)
  {
    assert BlockOK(p, pr, f, b);
    ExactCovers(p, pr, g, f, e, b);
    assert b.terminator.Suspend? ==> ResumePoint(pr.blocks, b.terminator.resume);
    BlockCovered(p, pr, f, e, b);
  }

  lemma OKBlockAccepted(p: Project, heights: seq<nat>, pr: Program, f: Facts, b: Block, maxDepth: nat)
    requires TypesOK(p, heights) && maxDepth <= FULL_DEPTH
    requires forall u :: 0 <= u < |heights| ==> heights[u] <= maxDepth
    requires BlockOK(p, pr, f, b)
    ensures BlockAccepted(p, pr, f, b, maxDepth)
  {
    forall k | 0 <= k < |b.instructions| ensures InstructionAccepted(p, b.instructions[k], maxDepth) {
      var i := b.instructions[k];
      assert InstructionOK(p, i);
      if i.op.Const? {
        DepthIrrelevant(p, heights, i.dest.value.ty, i.value, FULL_DEPTH, maxDepth);
      }
    }
  }

  // A program whose structure passed but one of whose blocks did not has no well-formed reading.
  lemma NoFacts(p: Project, heights: seq<nat>, pr: Program, g: Dominance.Graph, e: Facts, b: Block, maxDepth: nat, f: Facts)
    requires g.Valid() && GraphOf(pr.blocks, pr.entry, NodesOf(pr.blocks), g)
    requires TypesOK(p, heights) && maxDepth <= FULL_DEPTH && (forall u :: 0 <= u < |heights| ==> heights[u] <= maxDepth)
    requires FlowOK(pr, e) && DefsOK(p, pr, e.defs) && Dominance.Exact(g, e.dom) && e.roots == g.roots
    requires b in pr.blocks && !BlockAccepted(p, pr, e, b, maxDepth)
    ensures !ProgramOK(p, pr, f)
  {
    if ProgramOK(p, pr, f) {
      BestFacts(p, pr, g, f, e);
      assert BlockOK(p, pr, e, b);
      OKBlockAccepted(p, heights, pr, e, b, maxDepth);
    }
  }

  // `flow` says that blocks, definitions, edges and reachability passed within the budget;
  // then a refusal means that the program is well formed by no facts whatever.
  method CheckProgram(p: Project, heights: seq<nat>, pr: Program, l: Limits) returns (ok: bool, f: Facts, flow: bool)
    requires TypesOK(p, heights) && l.maxDepth <= FULL_DEPTH
    requires forall u :: 0 <= u < |heights| ==> heights[u] <= l.maxDepth
    ensures ok ==> flow && ProgramOK(p, pr, f)
    ensures flow && !ok ==> forall other :: !ProgramOK(p, pr, other)
  {
    f, flow := Facts(map[], map[], {}), false;
    ok := DistinctBlocks(pr.blocks);
    var entry := FindBlock(pr.blocks, pr.entry);
    if !ok || entry.None? || RegTypes(entry.value.parameters) != pr.inputTypes {
      return false, f, false;
    }
    var defs;
    ok, defs := CollectDefs(p, pr);
    if !ok {
      return;
    }
    ghost var g;
    ok, f, g := CheckFlow(pr, defs, l.maxWork);
    if !ok {
      return;
    }
    flow := true;
    FlowDone(pr, g, f);
    ok := forall i :: 0 <= i < |pr.blocks| ==> BlockAccepted(p, pr, f, pr.blocks[i], l.maxDepth);
    if ok {
      forall b | b in pr.blocks ensures FindBlock(pr.blocks, b.id) == Some(b) && BlockOK(p, pr, f, b) {
        DistinctFind(pr.blocks, b);
        AcceptedBlockOK(p, heights, pr, f, b, l.maxDepth);
      }
    } else {
      var i :| 0 <= i < |pr.blocks| && !BlockAccepted(p, pr, f, pr.blocks[i], l.maxDepth);
      forall other ensures !ProgramOK(p, pr, other) {
        NoFacts(p, heights, pr, g, f, pr.blocks[i], l.maxDepth, other);
      }
    }
  }

  // The validator: whatever it accepts is well formed, and the tables it computed along
  // the way are the certificate that the soundness theorem needs.
  method Validate(p: Project, limits: Limits) returns (r: Option<Certificate>)
    ensures r.Some? ==> ProjectOK(p, r.value)
  {
    var l := limits.(maxDepth := if limits.maxDepth <= FULL_DEPTH then limits.maxDepth else FULL_DEPTH);
    if l.maxDepth == 0 || l.maxWork == 0 || p.major < 1 || p.major > 5 || (p.major == 1 && p.services != map[]) {
      return None;
    }
    var ok, heights := CheckTypes(p, l.maxDepth);
    if !ok {
      return None;
    }
    if |p.stateTypes| != |p.initialState|
       || exists i :: 0 <= i < |p.stateTypes| && !Conforms(p, p.stateTypes[i], p.initialState[i], l.maxDepth) {
      return None;
    }
    forall i | 0 <= i < |p.stateTypes| ensures Fits(p, p.stateTypes[i], p.initialState[i]) {
      LimitIsEnough(p, heights, l.maxDepth, p.stateTypes[i], p.initialState[i]);
    }
    ok := DistinctPrograms(p);
    if !ok {
      return None;
    }
    var pure;
    ok, pure := CheckPureCalls(p, l.maxDepth);
    if !ok {
      return None;
    }
    var facts: map<nat, Facts> := map[];
    for n := 0 to |p.programs|
      invariant forall j :: 0 <= j < n ==>
                  p.programs[j].id in facts && ProgramOK(p, p.programs[j], facts[p.programs[j].id])
    {
      var f, flow;
      ok, f, flow := CheckProgram(p, heights, p.programs[n], l);
      if !ok {
        return None;
      }
      forall j | 0 <= j < n && p.programs[j].id == p.programs[n].id ensures p.programs[j] == p.programs[n] {
        assert FindProgram(p.programs, p.programs[j].id) == Some(p.programs[j]);
        assert FindProgram(p.programs, p.programs[n].id) == Some(p.programs[n]);
      }
      facts := facts[p.programs[n].id := f];
    }
    r := Some(Certificate(heights, pure, facts));
  }
}
