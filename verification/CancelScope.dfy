// Cancellation scopes (runtime/src/cancel_scope.cpp): a table of scopes linked by parent
// handles, the handles each scope owns, and the plans left behind by cancellation.
module CancelScope {
  import opened Common

  datatype OwnedKind = ChildScope | OwnedTask | ResultConsumer | OtherKind(code: nat)

  datatype ScopeState = Open | Cancelling | Cancelled | Closed

  datatype ActionKind = DropLocal | CancelChild | ReleaseConsumer | TransferToDrain

  datatype Owned = Owned(handle: Handle, kind: OwnedKind, published: bool)

  datatype Action = Action(id: nat, scope: Handle, owned: Owned, kind: ActionKind, applied: bool)

  datatype Plan = Plan(scope: Handle, reason: string, actions: seq<Action>)

  datatype Record = Record(
    generation: nat, used: bool, parent: Handle, state: ScopeState, entries: seq<Owned>, plan: Option<Plan>)

  datatype Store = Store(
    domain: nat, store: nat, entryLimit: nat, actionLimit: nat, sequence: nat, records: seq<Record>, next: nat)

  datatype Error = WrongDomain | StaleHandle | WrongOwner | InvalidState | InvalidArgument | Duplicate | Capacity | Overflow | Refused

  function NewStore(domain: nat, store: nat, scopes: nat, entryLimit: nat, actionLimit: nat): Store {
    var none := Handle(KTransaction, 0, 0, 0, 0, 0);
    Store(domain, store, entryLimit, actionLimit, 0,
          seq(scopes, i => Record(1, i == 0, none, Open, [], None)), 2)
  }

  // --------------------------------------------------------------------------------
  // Looking up.

  function ScopeHandle(s: Store, i: nat): Handle
    requires i < |s.records|
  {
    Handle(KScope, s.domain, s.store, i, s.records[i].generation, 0)
  }

  function Get(s: Store, h: Handle): (r: Result<nat, Error>)
    ensures r.Ok? <==> h.slot < |s.records| && s.records[h.slot].used && h == ScopeHandle(s, h.slot)
    ensures r.Ok? ==> r.value == h.slot
  {
    if h.domain != s.domain then Err(WrongDomain)
    else if !h.kind.KScope? || h.store != s.store || h.slot >= |s.records| || !s.records[h.slot].used
            || s.records[h.slot].generation != h.generation then Err(StaleHandle)
    else if h.owner != 0 then Err(WrongOwner)
    else Ok(h.slot)
  }

  // The ancestor walk, with at most `n` steps.
  predicate InsideWalk(s: Store, h: Handle, ancestor: Handle, n: nat)
    decreases n
  {
    n > 0 && (h == ancestor || (Get(s, h).Ok? && h.slot != 0 && InsideWalk(s, s.records[h.slot].parent, ancestor, n - 1)))
  }

  predicate FrozenWalk(s: Store, h: Handle, n: nat)
    decreases n
  {
    n == 0 || Get(s, h).Err? || !s.records[h.slot].state.Open? || (h.slot != 0 && FrozenWalk(s, s.records[h.slot].parent, n - 1))
  }

  predicate Inside(s: Store, h: Handle, ancestor: Handle) {
    InsideWalk(s, h, ancestor, |s.records|)
  }

  predicate Frozen(s: Store, h: Handle) {
    FrozenWalk(s, h, |s.records|)
  }

  // The walks as the loops that perform them.
  method WalkInside(s: Store, h0: Handle, ancestor: Handle) returns (r: bool)
    ensures r == Inside(s, h0, ancestor)
  {
    var h := h0;
    for i := 0 to |s.records|
      invariant InsideWalk(s, h, ancestor, |s.records| - i) == Inside(s, h0, ancestor)
    {
      if h == ancestor {
        return true;
      }
      if Get(s, h).Err? || h.slot == 0 {
        return false;
      }
      h := s.records[h.slot].parent;
    }
    return false;
  }

  method WalkFrozen(s: Store, h0: Handle) returns (r: bool)
    ensures r == Frozen(s, h0)
  {
    var h := h0;
    for i := 0 to |s.records|
      invariant FrozenWalk(s, h, |s.records| - i) == Frozen(s, h0)
    {
      if Get(s, h).Err? || !s.records[h.slot].state.Open? {
        return true;
      }
      if h.slot == 0 {
        return false;
      }
      h := s.records[h.slot].parent;
    }
    return true;
  }

  // --------------------------------------------------------------------------------
  // Ownership.

  predicate Lists(entries: seq<Owned>, h: Handle) {
    exists n :: 0 <= n < |entries| && entries[n].handle == h
  }

  predicate Attached(s: Store, h: Handle) {
    exists i :: 0 <= i < |s.records| && Lists(s.records[i].entries, h)
  }

  function Find(entries: seq<Owned>, h: Handle): (r: Option<nat>)
    ensures r.Some? ==> r.value < |entries| && entries[r.value].handle == h
    ensures r.None? ==> !Lists(entries, h)
  {
    if entries == [] then None
    else
      var last := |entries| - 1;
      var rest := Find(entries[..last], h);
      if rest.Some? then rest
      else if entries[last].handle == h then Some(last)
      else
        assert forall n :: 0 <= n < last ==> entries[n] == entries[..last][n];
        None
  }

  function Without(entries: seq<Owned>, h: Handle): (r: seq<Owned>)
    ensures forall x :: x in r <==> x in entries && x.handle != h
  {
    if entries == [] then []
    else if entries[0].handle == h then Without(entries[1..], h)
    else [entries[0]] + Without(entries[1..], h)
  }

  function SetRecord(s: Store, i: nat, r: Record): Store
    requires i < |s.records|
  {
    s.(records := s.records[i := r])
  }

  function SetEntries(s: Store, i: nat, es: seq<Owned>): Store
    requires i < |s.records|
  {
    SetRecord(s, i, s.records[i].(entries := es))
  }

  function FindFree(records: seq<Record>, i: nat): (r: Option<nat>)
    requires i <= |records|
    ensures r.Some? ==> i <= r.value < |records| && !records[r.value].used
    decreases |records| - i
  {
    if i == |records| then None
    else if !records[i].used && records[i].generation != MAX64 then Some(i)
    else FindFree(records, i + 1)
  }

  // --------------------------------------------------------------------------------
  // Operations.

  function NewChild(s: Store, i: nat, parent: Handle): Store
    requires i < |s.records|
  {
    SetRecord(s, i, Record(s.next, true, parent, Open, [], None)).(next := s.next + 1)
  }

  function Create(s: Store, parent: Handle): (Store, Result<Handle, Error>) {
    match Get(s, parent)
    case Err(e) => (s, Err(e))
    case Ok(p) =>
      if Frozen(s, parent) then (s, Err(InvalidState))
      else if |s.records[p].entries| >= s.entryLimit then (s, Err(Capacity))
      else
        match if |s.records| > 0 then FindFree(s.records, 1) else None
        case None => (s, Err(Capacity))
        case Some(i) =>
          if s.next == MAX64 then (s, Err(Overflow))
          else
            var h := Handle(KScope, s.domain, s.store, i, s.next, 0);
            var s1 := NewChild(s, i, parent);
            (SetEntries(s1, p, s1.records[p].entries + [Owned(h, ChildScope, false)]), Ok(h))
  }

  function Attach(s: Store, x: Owned, h: Handle): (Store, Result<(), Error>) {
    match Get(s, h)
    case Err(e) => (s, Err(e))
    case Ok(i) =>
      if x.handle.domain != s.domain then (s, Err(WrongDomain))
      else if Frozen(s, h) then (s, Err(InvalidState))
      else if x.kind.ChildScope? then (s, Err(InvalidArgument))
      else if Attached(s, x.handle) then (s, Err(Duplicate))
      else if |s.records[i].entries| >= s.entryLimit then (s, Err(Capacity))
      else (SetEntries(s, i, s.records[i].entries + [x]), Ok(()))
  }

  // `observed` says that the move would bring a cancellation observer into the closure it observes.
  function Transfer(s: Store, owned: Handle, from: Handle, to: Handle, observed: bool): (Store, Result<(), Error>) {
    match (Get(s, from), Get(s, to))
    case (Err(e), _) => (s, Err(e))
    case (_, Err(e)) => (s, Err(e))
    case (Ok(a), Ok(b)) =>
      var es := s.records[a].entries;
      match Find(es, owned)
      case None => (s, Err(WrongOwner))
      case Some(n) =>
        if Frozen(s, from) || Frozen(s, to) then (s, Err(InvalidState))
        else if from == to then (s, Ok(()))
        else if |s.records[b].entries| >= s.entryLimit then (s, Err(Capacity))
        else if es[n].kind.ChildScope? && Inside(s, to, owned) then (s, Err(InvalidArgument))
        else if es[n].kind.ChildScope? && Get(s, owned).Err? then (s, Err(StaleHandle))
        else if observed then (s, Err(InvalidArgument))
        else
          var s1 := if es[n].kind.ChildScope? then Reparent(s, owned.slot, to) else s;
          (Move(s1, a, b, n), Ok(()))
  }

  function Reparent(s: Store, c: nat, to: Handle): (r: Store)
    requires c < |s.records|
    ensures |r.records| == |s.records| && forall i :: 0 <= i < |s.records| ==> r.records[i].entries == s.records[i].entries
  {
    SetRecord(s, c, s.records[c].(parent := to))
  }

  // Entry `n` of scope `a` goes to the end of scope `b`.
  function Move(s: Store, a: nat, b: nat, n: nat): (r: Store)
    requires a < |s.records| && b < |s.records| && n < |s.records[a].entries|
    ensures |r.records| == |s.records|
  {
    var es := s.records[a].entries;
    var s1 := SetEntries(s, b, s.records[b].entries + [es[n]]);
    SetEntries(s1, a, es[..n] + es[n + 1..])
  }

  function ReplaceOwned(s: Store, was: Handle, x: Owned, scope: Handle): (Store, Result<(), Error>) {
    match Get(s, scope)
    case Err(e) => (s, Err(e))
    case Ok(i) =>
      if Frozen(s, scope) then (s, Err(InvalidState))
      else if x.handle.domain != s.domain || x.kind.ChildScope? then (s, Err(InvalidArgument))
      else
        match Find(s.records[i].entries, was)
        case None => (s, Err(WrongOwner))
        case Some(n) =>
          if Attached(s, x.handle) then (s, Err(Duplicate))
          else (SetEntries(s, i, s.records[i].entries[n := x]), Ok(()))
  }

  function DetachCompleted(s: Store, owned: Handle, scope: Handle): (Store, Result<(), Error>) {
    match Get(s, scope)
    case Err(e) => (s, Err(e))
    case Ok(i) =>
      if s.records[i].state.Cancelling? then (s, Err(InvalidState))
      else
        var es := s.records[i].entries;
        match Find(es, owned)
        case None => (s, Err(WrongOwner))
        case Some(n) =>
          if es[n].kind.ChildScope? then (s, Err(InvalidState))
          else (SetEntries(s, i, es[..n] + es[n + 1..]), Ok(()))
  }

  // --------------------------------------------------------------------------------
  // Cancellation.

  predicate InClosure(s: Store, h: Handle, i: nat)
    requires i < |s.records|
  {
    s.records[i].used && Inside(s, ScopeHandle(s, i), h) && s.records[i].state.Open?
  }

  // The number of actions of the closure among the first `n` slots.
  function Load(s: Store, h: Handle, n: nat): nat
    requires n <= |s.records|
  {
    if n == 0 then 0
    else Load(s, h, n - 1) + if InClosure(s, h, n - 1) then |s.records[n - 1].entries| else 0
  }

  function ActionFor(e: Owned): ActionKind {
    match e.kind
    case ResultConsumer => ReleaseConsumer
    case ChildScope => CancelChild
    case OwnedTask => CancelChild
    case OtherKind(_) => if e.published then TransferToDrain else DropLocal
  }

  function PlanFor(scope: Handle, reason: string, entries: seq<Owned>, sequence: nat): Plan {
    Plan(scope, reason, seq(|entries|, n requires 0 <= n < |entries| =>
      Action(sequence + n + 1, scope, entries[n], ActionFor(entries[n]), false)))
  }

  function Planned(s: Store, h: Handle, reason: string, i: nat): Record
    requires i < |s.records|
  {
    var r := s.records[i];
    if InClosure(s, h, i)
    then r.(plan := Some(PlanFor(ScopeHandle(s, i), reason, r.entries, s.sequence + Load(s, h, i))),
            state := if r.entries == [] then Cancelled else Cancelling)
    else r
  }

  function CancelAll(s: Store, h: Handle, reason: string): Store {
    s.(records := seq(|s.records|, i requires 0 <= i < |s.records| => Planned(s, h, reason, i)),
       sequence := s.sequence + Load(s, h, |s.records|))
  }

  function Cancel(s: Store, h: Handle, reason: string): (Store, Result<(), Error>) {
    if |reason| > 256 then (s, Err(Capacity))
    else
      match Get(s, h)
      case Err(e) => (s, Err(e))
      case Ok(i) =>
        if s.records[i].plan.Some? then (s, Ok(()))
        else if !s.records[i].state.Open? then (s, Err(InvalidState))
        else if Load(s, h, |s.records|) > s.actionLimit then (s, Err(Capacity))
        else if Load(s, h, |s.records|) > MAX64 - s.sequence then (s, Err(Overflow))
        else (CancelAll(s, h, reason), Ok(()))
  }

  // Collects the closure and counts its actions.
  method CountClosure(s: Store, h: Handle) returns (over: bool, count: nat, member: seq<bool>)
    ensures over <==> Load(s, h, |s.records|) > s.actionLimit
    ensures !over ==> count == Load(s, h, |s.records|) && |member| == |s.records| && forall j :: 0 <= j < |member| ==> member[j] == InClosure(s, h, j)
  {
    over, count, member := false, 0, [];
    for i := 0 to |s.records|
      invariant count == Load(s, h, i) && count <= s.actionLimit && |member| == i
      invariant forall j :: 0 <= j < i ==> member[j] == InClosure(s, h, j)
    {
      var closes := false;
      if s.records[i].used {
        var within := WalkInside(s, ScopeHandle(s, i), h);
        closes := within && s.records[i].state.Open?;
      }
      if closes {
        if |s.records[i].entries| > s.actionLimit - count {
          LoadGrows(s, h, i + 1, |s.records|);
          return true, count, member;
        }
        count := count + |s.records[i].entries|;
      }
      member := member + [closes];
    }
  }

  // Writes one plan per scope of the closure.
  method WritePlans(s0: Store, h: Handle, reason: string, member: seq<bool>) returns (s: Store)
    requires |member| == |s0.records| && forall j :: 0 <= j < |member| ==> member[j] == InClosure(s0, h, j)
    ensures s == CancelAll(s0, h, reason)
  {
    s := s0;
    for i := 0 to |s0.records|
      invariant s == s0.(records := s.records, sequence := s0.sequence + Load(s0, h, i)) && |s.records| == |s0.records|
      invariant forall j :: 0 <= j < i ==> s.records[j] == Planned(s0, h, reason, j)
      invariant forall j :: i <= j < |s0.records| ==> s.records[j] == s0.records[j]
    {
      if member[i] {
        var rec := s.records[i];
        var plan := PlanFor(ScopeHandle(s0, i), reason, rec.entries, s.sequence);
        s := SetRecord(s, i, rec.(plan := Some(plan), state := if rec.entries == [] then Cancelled else Cancelling))
              .(sequence := s.sequence + |rec.entries|);
      }
    }
    assert s.records == CancelAll(s0, h, reason).records;
  }

  // The loops of `cancel`: collect the closure, then write one plan per scope of it.
  method CancelLoops(s0: Store, h: Handle, reason: string) returns (s: Store, r: Result<(), Error>)
    ensures (s, r) == Cancel(s0, h, reason)
  {
    s := s0;
    if |reason| > 256 {
      return s, Err(Capacity);
    }
    var found := Get(s, h);
    if found.Err? {
      return s, Err(found.error);
    }
    if s.records[found.value].plan.Some? {
      return s, Ok(());
    }
    if !s.records[found.value].state.Open? {
      return s, Err(InvalidState);
    }
    var over, count, member := CountClosure(s, h);
    if over {
      return s, Err(Capacity);
    }
    if count > MAX64 - s.sequence {
      return s, Err(Overflow);
    }
    s := WritePlans(s, h, reason, member);
    r := Ok(());
  }

  lemma {:induction false} LoadGrows(s: Store, h: Handle, m: nat, n: nat)
    requires m <= n <= |s.records|
    ensures Load(s, h, m) <= Load(s, h, n)
    decreases n - m
  {
    if m < n {
      LoadGrows(s, h, m, n - 1);
    }
  }

  function FindAction(actions: seq<Action>, id: nat): (r: Option<nat>)
    ensures r.Some? ==> r.value < |actions| && actions[r.value].id == id
    decreases |actions|
  {
    if actions == [] then None
    else
      var last := |actions| - 1;
      var rest := FindAction(actions[..last], id);
      if rest.Some? then rest else if actions[last].id == id then Some(last) else None
  }

  // `executed` is the answer of the cleanup executor; it is asked only for an action that
  // has not been applied yet.
  function Apply(s: Store, h: Handle, id: nat, executed: bool): (Store, Result<(), Error>) {
    match Get(s, h)
    case Err(e) => (s, Err(e))
    case Ok(i) =>
      var r := s.records[i];
      if r.plan.None? then (s, Err(InvalidState))
      else
        match FindAction(r.plan.value.actions, id)
        case None => (s, Err(InvalidArgument))
        case Some(n) =>
          var a := r.plan.value.actions[n];
          if a.applied then (s, Ok(()))
          else if !executed then (s, Err(Refused))
          else
            var es := Without(r.entries, a.owned.handle);
            (SetRecord(s, i, r.(plan := Some(r.plan.value.(actions := r.plan.value.actions[n := a.(applied := true)])),
                                entries := es, state := if es == [] then Cancelled else r.state)), Ok(()))
  }

  predicate HasChild(s: Store, h: Handle) {
    exists i :: 0 <= i < |s.records| && s.records[i].used && s.records[i].parent == h
  }

  // `observed` says that an observer still refers to the scope.
  function CloseScope(s: Store, h: Handle, observed: bool): (Store, Result<(), Error>) {
    match Get(s, h)
    case Err(e) => (s, Err(e))
    case Ok(i) =>
      var r := s.records[i];
      if i == 0 then (s, Err(InvalidState))
      else if r.state.Cancelling? || r.entries != [] then (s, Err(InvalidState))
      else if HasChild(s, h) || observed then (s, Err(InvalidState))
      else
        var s1 := if Get(s, r.parent).Ok?
                  then SetEntries(s, r.parent.slot, Without(s.records[r.parent.slot].entries, h)) else s;
        (SetRecord(s1, i, s1.records[i].(state := Closed, used := false,
                                         generation := if r.generation != MAX64 then r.generation + 1 else r.generation)), Ok(()))
  }
}
