// Finite protocol packages (runtime/src/protocol_finite.cpp): guards, rules, and the
// validation that makes a table deterministic whatever the order of its rules.
module FiniteRules {
  import opened Common
  import opened Wire

  datatype GuardKind = Always | FieldEq | And | Not

  datatype Guard = Guard(kind: GuardKind, field: nat, value: nat, operands: seq<Guard>)

  datatype ActionKind = OpenHop | MarkReleased | MarkReady | CloseHop | AcquireLane | ReleaseLane | TraceTag

  datatype Action = Action(kind: ActionKind, lane: nat, tag: string)

  datatype Rule = Rule(
    pre: nat, flow: Flow, phase: nat, sync: Sync, returned: Option<nat>, guard: Guard, priority: Option<int>,
    entryLanes: seq<nat>, callActions: seq<Action>, returnActions: seq<Action>, post: nat, callGuard: Guard)

  datatype Package = Package(
    name: string, version: string, phases: seq<(string, Flow)>, states: seq<string>, initial: nat,
    terminal: seq<nat>, lanes: seq<nat>, rules: seq<Rule>)

  // --------------------------------------------------------------------------------
  // Guards.

  // Facts of the return that a guard may read only when the return carries them.
  predicate Available(g: Guard, r: Option<WireReturn>) {
    if g.kind.FieldEq? then
      || g.field < 4
      || (r.Some? && (g.field == 4
                      || (g.field == 5 && r.value.sync.Updated? && r.value.phase.Some?)
                      || (g.field > 5 && !r.value.sync.Accepted? && r.value.response.Some?)))
    else forall i :: 0 <= i < |g.operands| ==> Available(g.operands[i], r)
  }

  function StatusCode(s: Status): nat {
    match s case Incomplete => 0 case Okay => 1 case Failure(code) => code + 2
  }

  function Fact(field: nat, c: WireCall, r: Option<WireReturn>): Option<nat> {
    if field == 0 then Some(match c.command case Read => 0 case Write => 1 case Ignore => 2)
    else if field == 1 then Some(c.address)
    else if field == 2 then Some(c.delay)
    else if field == 3 then Some(StatusCode(c.status))
    else if r.None? then None
    else if field == 4 then Some(match r.value.sync case Accepted => 0 case Updated => 1 case Completed => 2 case Unknown => 3)
    else if field == 5 then if r.value.sync.Updated? then r.value.phase else None
    else if r.value.sync.Accepted? || r.value.response.None? then None
    else if field == 6 then Some(StatusCode(r.value.response.value.status))
    else if field == 7 then Some(r.value.response.value.length)
    else None
  }

  predicate ArityOK(g: Guard) {
    |g.operands| == (match g.kind case And => 2 case Not => 1 case _ => 0)
  }

  // Every node has the operands its kind needs and reads one of the first `fields` facts.
  predicate GuardOK(g: Guard, fields: nat) {
    && (g.kind.FieldEq? ==> g.field < fields)
    && ArityOK(g)
    && forall i :: 0 <= i < |g.operands| ==> GuardOK(g.operands[i], fields)
  }

  predicate Eval(g: Guard, c: WireCall, r: Option<WireReturn>)
    requires GuardOK(g, 8)
  {
    Available(g, r) &&
    match g.kind
    case Always => true
    case And => Eval(g.operands[0], c, r) && Eval(g.operands[1], c, r)
    case Not => !Eval(g.operands[0], c, r)
    case FieldEq => Fact(g.field, c, r) == Some(g.value)
  }

  predicate GuardEqual(a: Guard, b: Guard)
    decreases a
  {
    && a.kind == b.kind && a.field == b.field && a.value == b.value
    && |a.operands| == |b.operands|
    && forall i :: 0 <= i < |a.operands| ==> GuardEqual(a.operands[i], b.operands[i])
  }

  lemma {:induction false} GuardEqualExact(a: Guard, b: Guard)
    ensures GuardEqual(a, b) <==> a == b
    decreases a
  {
    if |a.operands| == |b.operands| {
      forall i | 0 <= i < |a.operands| ensures GuardEqual(a.operands[i], b.operands[i]) <==> a.operands[i] == b.operands[i] {
        GuardEqualExact(a.operands[i], b.operands[i]);
      }
      if GuardEqual(a, b) {
        assert a.operands == b.operands;
      }
    }
  }

  predicate Disjoint(a: Guard, b: Guard)
    requires GuardOK(a, 8) && GuardOK(b, 8)
  {
    if a.kind.FieldEq? && b.kind.FieldEq? then a.field == b.field && a.value != b.value
    else if a.kind.Not? then GuardEqual(a.operands[0], b)
    else if b.kind.Not? then GuardEqual(a, b.operands[0])
    else false
  }

  // Guards called disjoint never hold of the same exchange.
  lemma DisjointSound(a: Guard, b: Guard, c: WireCall, r: Option<WireReturn>)
    requires GuardOK(a, 8) && GuardOK(b, 8) && Disjoint(a, b)
    ensures !(Eval(a, c, r) && Eval(b, c, r))
  {
    if a.kind.Not? {
      GuardEqualExact(a.operands[0], b);
    } else if b.kind.Not? {
      GuardEqualExact(a, b.operands[0]);
    }
  }

  // --------------------------------------------------------------------------------
  // What an accepted package promises.

  ghost predicate Distinct<T>(s: seq<T>) {
    forall i, j :: 0 <= i < j < |s| ==> s[i] != s[j]
  }

  predicate SameCall(a: Rule, b: Rule) {
    a.pre == b.pre && a.flow == b.flow && a.phase == b.phase
  }

  predicate UsesLane(a: Action) {
    a.kind.AcquireLane? || a.kind.ReleaseLane?
  }

  ghost predicate LanesBound(lanes: seq<nat>, actions: seq<Action>) {
    forall i :: 0 <= i < |actions| && UsesLane(actions[i]) ==> actions[i].lane < |lanes|
  }

  predicate Closes(actions: seq<Action>) {
    exists i :: 0 <= i < |actions| && actions[i].kind.CloseHop?
  }

  // Two actions that one exchange may not both carry.
  predicate Clash(a: Action, b: Action) {
    !a.kind.TraceTag? && a.kind == b.kind && (UsesLane(a) ==> a.lane == b.lane)
  }

  ghost predicate NoClash(actions: seq<Action>) {
    forall i, j :: 0 <= i < j < |actions| ==> !Clash(actions[i], actions[j])
  }

  ghost predicate RuleOK(p: Package, r: Rule) {
    && r.pre < |p.states| && r.post < |p.states| && r.pre !in p.terminal
    && r.phase < |p.phases| && p.phases[r.phase].1 == r.flow
    && (if r.sync.Updated? then r.returned.Some? && r.returned.value < |p.phases| else r.returned.None?)
    && GuardOK(r.guard, 8) && GuardOK(r.callGuard, 4)
    && Distinct(r.entryLanes) && (forall i :: 0 <= i < |r.entryLanes| ==> r.entryLanes[i] < |p.lanes|)
    && LanesBound(p.lanes, r.callActions) && LanesBound(p.lanes, r.returnActions)
    && NoClash(r.callActions + r.returnActions)
    && !Closes(r.callActions)
    && (Closes(r.returnActions) <==> r.post in p.terminal)
  }

  // Two rules for one call: same obligations on entry, and no tie on return.
  predicate PairOK(a: Rule, b: Rule)
    requires GuardOK(a.guard, 8) && GuardOK(b.guard, 8)
  {
    SameCall(a, b) ==>
      && a.entryLanes == b.entryLanes && a.callActions == b.callActions && GuardEqual(a.callGuard, b.callGuard)
      && (a.sync == b.sync && a.returned == b.returned && !Disjoint(a.guard, b.guard) ==>
            a.priority.Some? && b.priority.Some? && a.priority != b.priority)
  }

  ghost predicate RulesOK(p: Package, n: nat)
    requires n <= |p.rules|
  {
    && (forall i :: 0 <= i < n ==> RuleOK(p, p.rules[i]))
    && (forall i, j :: 0 <= j < i < n ==> PairOK(p.rules[i], p.rules[j]))
  }

  ghost predicate TableOK(p: Package) {
    && p.name != [] && p.version != [] && p.states != [] && p.phases != [] && p.rules != [] && p.terminal != []
    && p.initial < |p.states|
    && Distinct(p.states) && (forall i :: 0 <= i < |p.states| ==> p.states[i] != [])
    && (forall i, j :: 0 <= i < j < |p.phases| ==> p.phases[i].0 != p.phases[j].0)
    && (forall i :: 0 <= i < |p.phases| ==> p.phases[i].0 != [])
    && Distinct(p.terminal) && (forall i :: 0 <= i < |p.terminal| ==> p.terminal[i] < |p.states|)
    && (forall i :: 0 <= i < |p.lanes| ==> p.lanes[i] > 0)
  }

  ghost predicate PackageOK(p: Package) {
    TableOK(p) && RulesOK(p, |p.rules|)
  }

  // --------------------------------------------------------------------------------
  // Validation. Running out of a table, depth or work limit is reported as Capacity; any
  // other refusal means that the package breaks its promise.

  const MAX_GUARD_DEPTH := 32
  const MAX_GUARD_WORK := 4096
  const MAX_WORK := 1000000

  // The limits, apart from the promises.
  predicate Shallow(g: Guard, depth: nat) {
    depth <= MAX_GUARD_DEPTH && forall i :: 0 <= i < |g.operands| ==> Shallow(g.operands[i], depth + 1)
  }

  function Nodes(g: Guard): nat
    decreases g, 1, 0
  {
    1 + NodesFrom(g, 0)
  }

  // The nodes of the operands from number `k` on.
  function NodesFrom(g: Guard, k: nat): nat
    requires k <= |g.operands|
    decreases g, 0, |g.operands| - k
  {
    if k == |g.operands| then 0 else Nodes(g.operands[k]) + NodesFrom(g, k + 1)
  }

  function CheckGuard(g: Guard, fields: nat, depth: nat, work: nat): (r: Result<nat, Error>)
    ensures r.Ok? ==> GuardOK(g, fields) && Shallow(g, depth) && work + Nodes(g) <= MAX_GUARD_WORK && r.value == work + Nodes(g)
    ensures r.Err? && r.error != Capacity ==> !GuardOK(g, fields)
    ensures r == Err(Capacity) ==> !Shallow(g, depth) || work + Nodes(g) > MAX_GUARD_WORK
    decreases g, 1, 0
  {
    if depth > MAX_GUARD_DEPTH || work + 1 > MAX_GUARD_WORK then Err(Capacity)
    else if g.kind.FieldEq? && g.field >= fields then Err(ProtocolViolation)
    else if !ArityOK(g) then Err(InvalidArgument)
    else CheckOperands(g, 0, fields, depth + 1, work + 1)
  }

  function CheckOperands(g: Guard, k: nat, fields: nat, depth: nat, work: nat): (r: Result<nat, Error>)
    requires k <= |g.operands| && work <= MAX_GUARD_WORK
    ensures r.Ok? ==> forall i :: k <= i < |g.operands| ==> GuardOK(g.operands[i], fields) && Shallow(g.operands[i], depth)
    ensures r.Ok? ==> work + NodesFrom(g, k) <= MAX_GUARD_WORK && r.value == work + NodesFrom(g, k)
    ensures r.Err? && r.error != Capacity ==> exists i :: k <= i < |g.operands| && !GuardOK(g.operands[i], fields)
    ensures r == Err(Capacity) ==> (exists i :: k <= i < |g.operands| && !Shallow(g.operands[i], depth)) || work + NodesFrom(g, k) > MAX_GUARD_WORK
    decreases g, 0, |g.operands| - k
  {
    if k == |g.operands| then Ok(work)
    else
      match CheckGuard(g.operands[k], fields, depth, work)
      case Err(e) => Err(e)
      case Ok(w) => CheckOperands(g, k + 1, fields, depth, w)
  }

  function RuleCost(r: Rule): nat {
    Nodes(r.guard) + Nodes(r.callGuard) + |r.callActions| + |r.returnActions| + 1
  }

  predicate RuleFits(r: Rule) {
    && Shallow(r.guard, 1) && Shallow(r.callGuard, 1) && Nodes(r.guard) + Nodes(r.callGuard) <= MAX_GUARD_WORK
    && |r.callActions| <= 128 && |r.returnActions| <= 128
  }

  predicate TableFits(p: Package) {
    |p.states| <= 256 && |p.phases| <= 256 && |p.rules| <= 4096 && |p.lanes| <= 32
  }

  // Comparing rule `i` with the first `j` rules.
  function PairWork(rules: seq<Rule>, i: nat, j: nat): nat
    requires i < |rules| && j <= |rules|
  {
    if j == 0 then 0
    else PairWork(rules, i, j - 1) + 1 + if SameCall(rules[i], rules[j - 1]) then RuleCost(rules[i]) + RuleCost(rules[j - 1]) else 0
  }

  // Checking the first `n` rules.
  function TableWork(rules: seq<Rule>, n: nat): nat
    requires n <= |rules|
  {
    if n == 0 then 0 else TableWork(rules, n - 1) + RuleCost(rules[n - 1]) + PairWork(rules, n - 1, n - 1)
  }

  lemma {:induction false} PairWorkGrows(rules: seq<Rule>, i: nat, j: nat, k: nat)
    requires i < |rules| && j <= k <= |rules|
    ensures PairWork(rules, i, j) <= PairWork(rules, i, k)
    decreases k
  {
    if j < k {
      PairWorkGrows(rules, i, j, k - 1);
    }
  }

  lemma {:induction false} TableWorkGrows(rules: seq<Rule>, n: nat, m: nat)
    requires n <= m <= |rules|
    ensures TableWork(rules, n) <= TableWork(rules, m)
    decreases m
  {
    if n < m {
      TableWorkGrows(rules, n, m - 1);
    }
  }

  ghost predicate Affordable(p: Package) {
    TableFits(p) && (forall i :: 0 <= i < |p.rules| ==> RuleFits(p.rules[i])) && TableWork(p.rules, |p.rules|) <= MAX_WORK
  }

  // The work done so far is part of the whole.
  lemma TooMuch(p: Package, i: nat, j: nat, spent: nat)
    requires i < |p.rules| && j <= i && spent > MAX_WORK && spent == TableWork(p.rules, i) + RuleCost(p.rules[i]) + PairWork(p.rules, i, j)
    ensures !Affordable(p)
  {
    PairWorkGrows(p.rules, i, j, i);
    TableWorkGrows(p.rules, i + 1, |p.rules|);
  }

  method CheckNames(names: seq<string>) returns (ok: bool)
    ensures ok <==> Distinct(names) && forall i :: 0 <= i < |names| ==> names[i] != []
  {
    var seen: set<string> := {};
    for i := 0 to |names|
      invariant forall x :: x in seen <==> x in names[..i]
      invariant forall j :: 0 <= j < i ==> names[j] != []
      invariant Distinct(names[..i])
    {
      if names[i] == [] {
        return false;
      }
      if names[i] in seen {
        assert exists j :: 0 <= j < i && names[..i][j] == names[i];
        return false;
      }
      assert names[..i + 1] == names[..i] + [names[i]];
      seen := seen + {names[i]};
    }
    assert names[..|names|] == names;
    return true;
  }

  // Distinct numbers below a bound.
  method CheckIndices(xs: seq<nat>, bound: nat) returns (ok: bool)
    ensures ok <==> Distinct(xs) && forall i :: 0 <= i < |xs| ==> xs[i] < bound
  {
    var seen: set<nat> := {};
    for i := 0 to |xs|
      invariant forall x :: x in seen <==> x in xs[..i]
      invariant forall j :: 0 <= j < i ==> xs[j] < bound
      invariant Distinct(xs[..i])
    {
      if xs[i] >= bound {
        return false;
      }
      if xs[i] in seen {
        assert exists j :: 0 <= j < i && xs[..i][j] == xs[i];
        return false;
      }
      assert xs[..i + 1] == xs[..i] + [xs[i]];
      seen := seen + {xs[i]};
    }
    assert xs[..|xs|] == xs;
    return true;
  }

  function Key(a: Action): (ActionKind, nat) {
    (a.kind, if UsesLane(a) then a.lane else 0)
  }

  // Call actions come first, then return actions; `split` is where the latter start.
  method CheckActions(p: Package, actions: seq<Action>, split: nat) returns (ok: bool, closes: bool)
    requires split <= |actions|
    ensures ok <==> LanesBound(p.lanes, actions) && NoClash(actions) && !Closes(actions[..split])
    ensures ok ==> closes == Closes(actions[split..])
  {
    var used: set<(ActionKind, nat)> := {};
    closes := false;
    for i := 0 to |actions|
      invariant forall k :: k in used <==> exists j :: 0 <= j < i && !actions[j].kind.TraceTag? && Key(actions[j]) == k
      invariant forall j :: 0 <= j < i && UsesLane(actions[j]) ==> actions[j].lane < |p.lanes|
      invariant forall j, m :: 0 <= j < m < i ==> !Clash(actions[j], actions[m])
      invariant forall j :: 0 <= j < i && actions[j].kind.CloseHop? ==> split <= j
      invariant closes <==> exists j :: 0 <= j < i && actions[j].kind.CloseHop?
    {
      var a := actions[i];
      if UsesLane(a) && a.lane >= |p.lanes| {
        return false, closes;
      }
      if !a.kind.TraceTag? {
        if Key(a) in used {
          var j :| 0 <= j < i && !actions[j].kind.TraceTag? && Key(actions[j]) == Key(a);
          assert Clash(actions[j], actions[i]);
          return false, closes;
        }
        used := used + {Key(a)};
      }
      if a.kind.CloseHop? {
        if i < split {
          assert actions[..split][i].kind.CloseHop?;
          return false, closes;
        }
        closes := true;
      }
    }
    ok := true;
    if closes {
      var j :| 0 <= j < |actions| && actions[j].kind.CloseHop?;
      assert actions[split..][j - split].kind.CloseHop?;
    }
  }

  method CheckRule(p: Package, r: Rule) returns (out: Result<nat, Error>)
    ensures out.Ok? ==> RuleOK(p, r) && RuleFits(r) && out.value == RuleCost(r)
    ensures out.Err? && out.error != Capacity ==> !RuleOK(p, r)
    ensures out == Err(Capacity) ==> !RuleFits(r)
  {
    if r.pre >= |p.states| || r.post >= |p.states| || r.pre in p.terminal || r.phase >= |p.phases| || p.phases[r.phase].1 != r.flow {
      return Err(ProtocolViolation);
    }
    if (if r.sync.Updated? then r.returned.None? || r.returned.value >= |p.phases| else r.returned.Some?) {
      return Err(ProtocolViolation);
    }
    var g := CheckGuard(r.guard, 8, 1, 0);
    if g.Err? {
      return Err(g.error);
    }
    g := CheckGuard(r.callGuard, 4, 1, g.value);
    if g.Err? {
      return Err(g.error);
    }
    var entries := CheckIndices(r.entryLanes, |p.lanes|);
    if !entries {
      return Err(InvalidArgument);
    }
    if |r.callActions| > 128 || |r.returnActions| > 128 {
      return Err(Capacity);
    }
    var actions, split := r.callActions + r.returnActions, |r.callActions|;
    assert actions[..split] == r.callActions && actions[split..] == r.returnActions;
    LanesBoundBoth(p.lanes, r.callActions, r.returnActions);
    var fine, closes := CheckActions(p, actions, split);
    if !fine {
      return Err(ProtocolViolation);
    }
    if closes != (r.post in p.terminal) {
      return Err(ProtocolViolation);
    }
    return Ok(g.value + |actions| + 1);
  }

  lemma LanesBoundBoth(lanes: seq<nat>, a: seq<Action>, b: seq<Action>)
    ensures LanesBound(lanes, a + b) <==> LanesBound(lanes, a) && LanesBound(lanes, b)
  {
    if LanesBound(lanes, a + b) {
      assert forall i :: 0 <= i < |a| ==> (a + b)[i] == a[i];
      assert forall i :: 0 <= i < |b| ==> (a + b)[|a| + i] == b[i];
    }
  }

  method CheckTable(p: Package) returns (bad: Option<Error>)
    ensures bad.None? ==> TableOK(p) && TableFits(p)
    ensures bad.Some? && bad.value != Capacity ==> !TableOK(p)
    ensures bad == Some(Capacity) ==> !TableFits(p)
  {
    if p.name == [] || p.version == [] || p.states == [] || p.phases == [] || p.rules == [] || p.terminal == [] {
      return Some(InvalidArgument);
    }
    if |p.states| > 256 || |p.phases| > 256 || |p.rules| > 4096 || |p.lanes| > 32 {
      return Some(Capacity);
    }
    if p.initial >= |p.states| {
      return Some(InvalidArgument);
    }
    var ok := CheckNames(p.states);
    if !ok {
      return Some(Duplicate);
    }
    var names := seq(|p.phases|, i requires 0 <= i < |p.phases| => p.phases[i].0);
    ok := CheckNames(names);
    if !ok {
      if i :| 0 <= i < |names| && names[i] == [] {
        assert p.phases[i].0 == [];
      } else {
        var i, j :| 0 <= i < j < |names| && names[i] == names[j];
        assert p.phases[i].0 == p.phases[j].0;
      }
      return Some(Duplicate);
    }
    assert forall i :: 0 <= i < |p.phases| ==> p.phases[i].0 == names[i];
    ok := CheckIndices(p.terminal, |p.states|);
    if !ok {
      return Some(InvalidArgument);
    }
    for i := 0 to |p.lanes|
      invariant forall j :: 0 <= j < i ==> p.lanes[j] > 0
    {
      if p.lanes[i] == 0 {
        return Some(InvalidArgument);
      }
    }
    return None;
  }

  // A package is accepted exactly when it keeps every promise within the limits; a refusal
  // for a limit means that a limit is exceeded, and any other that a promise is broken.
  method ValidatePackage(p: Package) returns (bad: Option<Error>)
    ensures bad.None? <==> PackageOK(p) && Affordable(p)
    ensures bad.Some? && bad.value != Capacity ==> !PackageOK(p)
    ensures bad == Some(Capacity) ==> !Affordable(p)
  {
    bad := CheckTable(p);
    if bad.None? {
      bad := CheckRules(p);
    }
  }

  // The first `n` rules passed.
  ghost predicate Passed(p: Package, n: nat, costs: seq<nat>, spent: nat)
    requires n <= |p.rules|
  {
    && RulesOK(p, n) && |costs| == n && spent == TableWork(p.rules, n) <= MAX_WORK
    && forall k :: 0 <= k < n ==> RuleFits(p.rules[k]) && costs[k] == RuleCost(p.rules[k])
  }

  method CheckRules(p: Package) returns (bad: Option<Error>)
    ensures bad.None? ==> RulesOK(p, |p.rules|) && (forall i :: 0 <= i < |p.rules| ==> RuleFits(p.rules[i])) && TableWork(p.rules, |p.rules|) <= MAX_WORK
    ensures bad.Some? && bad.value != Capacity ==> !PackageOK(p)
    ensures bad == Some(Capacity) ==> !Affordable(p)
  {
    var spent: nat := 0;
    var costs: seq<nat> := [];
    for i := 0 to |p.rules|
      invariant Passed(p, i, costs, spent)
    {
      spent, costs, bad := CheckNext(p, i, costs, spent);
      if bad.Some? {
        return;
      }
    }
    bad := None;
  }

  method CheckNext(p: Package, i: nat, costs: seq<nat>, before: nat) returns (spent: nat, more: seq<nat>, bad: Option<Error>)
    requires i < |p.rules| && Passed(p, i, costs, before)
    ensures bad.None? ==> Passed(p, i + 1, more, spent)
    ensures bad.Some? && bad.value != Capacity ==> !PackageOK(p)
    ensures bad == Some(Capacity) ==> !Affordable(p)
  {
    spent, more := before, costs;
    var cost := CheckRule(p, p.rules[i]);
    if cost.Err? {
      return spent, more, Some(cost.error);
    }
    if cost.value > MAX_WORK - spent {
      TooMuch(p, i, 0, spent + cost.value);
      return spent, more, Some(Capacity);
    }
    more := costs + [cost.value];
    forall k | 0 <= k <= i ensures GuardOK(p.rules[k].guard, 8) {
      assert RuleOK(p, p.rules[k]);
    }
    spent, bad := ComparePairs(p, i, more, spent + cost.value);
  }

  // Compares a rule with all before it.
  method ComparePairs(p: Package, i: nat, costs: seq<nat>, before: nat) returns (spent: nat, bad: Option<Error>)
    requires i < |p.rules| && |costs| == i + 1 && (forall k :: 0 <= k <= i ==> costs[k] == RuleCost(p.rules[k]))
    requires forall k :: 0 <= k <= i ==> GuardOK(p.rules[k].guard, 8)
    requires before == TableWork(p.rules, i) + RuleCost(p.rules[i]) <= MAX_WORK
    ensures bad.None? ==> (forall k :: 0 <= k < i ==> PairOK(p.rules[i], p.rules[k])) && spent == TableWork(p.rules, i + 1) <= MAX_WORK
    ensures bad.Some? && bad.value != Capacity ==> !PackageOK(p)
    ensures bad == Some(Capacity) ==> !Affordable(p)
  {
    spent := before;
    for j := 0 to i
      invariant forall k :: 0 <= k < j ==> PairOK(p.rules[i], p.rules[k])
      invariant spent == before + PairWork(p.rules, i, j) <= MAX_WORK
    {
      var more := 1 + if SameCall(p.rules[i], p.rules[j]) then costs[i] + costs[j] else 0;
      if more > MAX_WORK - spent {
        TooMuch(p, i, j + 1, spent + more);
        return spent, Some(Capacity);
      }
      spent := spent + more;
      if !PairOK(p.rules[i], p.rules[j]) {
        return spent, Some(ProtocolViolation);
      }
    }
    bad := None;
  }

  // --------------------------------------------------------------------------------
  // Determinism.

  predicate Offers(r: Rule, pre: nat, c: WireCall)
    requires GuardOK(r.callGuard, 8)
  {
    r.pre == pre && r.flow == c.flow && r.phase == c.phase && Eval(r.callGuard, c, None)
  }

  // The rule answers this return of this call.
  predicate Answers(r: Rule, pre: nat, c: WireCall, ret: WireReturn)
    requires GuardOK(r.guard, 8)
  {
    && r.pre == pre && r.flow == c.flow && r.phase == c.phase && r.sync == ret.sync
    && (ret.sync.Updated? ==> r.returned == ret.phase)
    && Eval(r.guard, c, Some(ret))
  }

  function Rank(r: Rule): int {
    if r.priority.Some? then r.priority.value else 0
  }

  // The part of acceptance that does not mention positions in the table.
  ghost predicate Deterministic(rules: seq<Rule>) {
    && (forall a :: a in rules ==> GuardOK(a.guard, 8) && GuardOK(a.callGuard, 8))
    && (forall a, b :: a in rules && b in rules && SameCall(a, b) ==>
          a.entryLanes == b.entryLanes && a.callActions == b.callActions && a.callGuard == b.callGuard)
    && (forall a, b, pre, c, ret :: a in rules && b in rules && a != b && Answers(a, pre, c, ret) && Answers(b, pre, c, ret) ==>
          Rank(a) != Rank(b))
  }

  lemma {:induction false} GuardFields(g: Guard)
    requires GuardOK(g, 4)
    ensures GuardOK(g, 8)
  {
    forall i | 0 <= i < |g.operands| ensures GuardOK(g.operands[i], 8) {
      GuardFields(g.operands[i]);
    }
  }

  lemma PairAnswers(p: Package, a: Rule, b: Rule, pre: nat, c: WireCall, ret: WireReturn)
    requires RuleOK(p, a) && RuleOK(p, b) && PairOK(a, b)
    requires Answers(a, pre, c, ret) && Answers(b, pre, c, ret)
    ensures Rank(a) != Rank(b)
  {
    if Disjoint(a.guard, b.guard) {
      DisjointSound(a.guard, b.guard, c, Some(ret));
    }
  }

  lemma AcceptedGuards(p: Package, a: Rule)
    requires PackageOK(p) && a in p.rules
    ensures RuleOK(p, a) && GuardOK(a.guard, 8) && GuardOK(a.callGuard, 8)
  {
    GuardFields(a.callGuard);
  }

  lemma AcceptedPair(p: Package, a: Rule, b: Rule)
    requires PackageOK(p) && a in p.rules && b in p.rules && a != b
    ensures RuleOK(p, a) && RuleOK(p, b) && (PairOK(a, b) || PairOK(b, a))
  {
    var i, j :| 0 <= i < |p.rules| && 0 <= j < |p.rules| && p.rules[i] == a && p.rules[j] == b;
    assert RuleOK(p, p.rules[i]) && RuleOK(p, p.rules[j]);
    assert j < i ==> PairOK(p.rules[i], p.rules[j]);
    assert i < j ==> PairOK(p.rules[j], p.rules[i]);
  }

  lemma SameObligations(p: Package, a: Rule, b: Rule)
    requires PackageOK(p) && a in p.rules && b in p.rules && SameCall(a, b)
    ensures a.entryLanes == b.entryLanes && a.callActions == b.callActions && a.callGuard == b.callGuard
  {
    if a != b {
      AcceptedPair(p, a, b);
      GuardEqualExact(a.callGuard, b.callGuard);
      GuardEqualExact(b.callGuard, a.callGuard);
    }
  }

  lemma NoTie(p: Package, a: Rule, b: Rule, pre: nat, c: WireCall, ret: WireReturn)
    requires PackageOK(p) && a in p.rules && b in p.rules && a != b && GuardOK(a.guard, 8) && GuardOK(b.guard, 8)
    requires Answers(a, pre, c, ret) && Answers(b, pre, c, ret)
    ensures Rank(a) != Rank(b)
  {
    AcceptedPair(p, a, b);
    if PairOK(a, b) {
      PairAnswers(p, a, b, pre, c, ret);
    } else {
      PairAnswers(p, b, a, pre, c, ret);
    }
  }

  // An accepted table never leaves a tie, and rules for one call ask the same of it.
  lemma AcceptedIsDeterministic(p: Package)
    requires PackageOK(p)
    ensures Deterministic(p.rules)
  {
    forall a | a in p.rules ensures GuardOK(a.guard, 8) && GuardOK(a.callGuard, 8) {
      AcceptedGuards(p, a);
    }
    forall a, b | a in p.rules && b in p.rules && SameCall(a, b)
      ensures a.entryLanes == b.entryLanes && a.callActions == b.callActions && a.callGuard == b.callGuard
    {
      SameObligations(p, a, b);
    }
    forall a, b, pre, c, ret | a in p.rules && b in p.rules && a != b && Answers(a, pre, c, ret) && Answers(b, pre, c, ret)
      ensures Rank(a) != Rank(b)
    {
      NoTie(p, a, b, pre, c, ret);
    }
  }

  // The first rule that offers the call.
  function FindOffer(rules: seq<Rule>, k: nat, pre: nat, c: WireCall): (r: Option<nat>)
    requires k <= |rules| && forall a :: a in rules ==> GuardOK(a.callGuard, 8)
    ensures r.Some? ==> r.value < |rules| && Offers(rules[r.value], pre, c)
    ensures r.None? ==> forall i :: k <= i < |rules| ==> !Offers(rules[i], pre, c)
    decreases |rules| - k
  {
    if k == |rules| then None
    else if Offers(rules[k], pre, c) then Some(k)
    else FindOffer(rules, k + 1, pre, c)
  }

  // The answering rule of least rank; the earlier one on a tie.
  function FindAnswer(rules: seq<Rule>, pre: nat, c: WireCall, ret: WireReturn): (r: Option<Rule>)
    requires forall a :: a in rules ==> GuardOK(a.guard, 8)
    ensures r.Some? ==> r.value in rules && Answers(r.value, pre, c, ret)
    ensures forall a :: a in rules && Answers(a, pre, c, ret) ==> r.Some? && Rank(r.value) <= Rank(a)
  {
    if rules == [] then None
    else
      var last := |rules| - 1;
      assert rules == rules[..last] + [rules[last]];
      var best := FindAnswer(rules[..last], pre, c, ret);
      if Answers(rules[last], pre, c, ret) && (best.None? || Rank(rules[last]) < Rank(best.value)) then Some(rules[last]) else best
  }

  // The selection loop of `end_call`.
  method SelectAnswer(rules: seq<Rule>, pre: nat, c: WireCall, ret: WireReturn) returns (winner: Option<Rule>)
    requires forall a :: a in rules ==> GuardOK(a.guard, 8)
    ensures winner == FindAnswer(rules, pre, c, ret)
  {
    winner := None;
    for i := 0 to |rules|
      invariant winner == FindAnswer(rules[..i], pre, c, ret)
    {
      assert rules[..i + 1][..i] == rules[..i];
      if Answers(rules[i], pre, c, ret) && (winner.None? || Rank(rules[i]) < Rank(winner.value)) {
        winner := Some(rules[i]);
      }
    }
    assert rules[..|rules|] == rules;
  }

  ghost predicate SameRules(a: seq<Rule>, b: seq<Rule>) {
    forall r :: r in a <==> r in b
  }

  // The chosen answer does not depend on the order of the table.
  lemma AnswerOrderFree(a: seq<Rule>, b: seq<Rule>, pre: nat, c: WireCall, ret: WireReturn)
    requires Deterministic(a) && SameRules(a, b)
    ensures FindAnswer(a, pre, c, ret) == FindAnswer(b, pre, c, ret)
  {
    var x, y := FindAnswer(a, pre, c, ret), FindAnswer(b, pre, c, ret);
    if x.Some? {
      assert x.value in b && y.Some?;
    }
    if y.Some? {
      assert y.value in a && x.Some?;
    }
  }

  // Neither does what the call has to do on entry.
  lemma OfferOrderFree(a: seq<Rule>, b: seq<Rule>, pre: nat, c: WireCall)
    requires Deterministic(a) && SameRules(a, b)
    ensures var x, y := FindOffer(a, 0, pre, c), FindOffer(b, 0, pre, c);
            && x.Some? == y.Some?
            && (x.Some? ==> SameCall(a[x.value], b[y.value]) && a[x.value].entryLanes == b[y.value].entryLanes
                            && a[x.value].callActions == b[y.value].callActions)
  {
    var x, y := FindOffer(a, 0, pre, c), FindOffer(b, 0, pre, c);
    if x.Some? {
      assert a[x.value] in b;
    }
    if y.Some? {
      assert b[y.value] in a;
    }
  }
}
