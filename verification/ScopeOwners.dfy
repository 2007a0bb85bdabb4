// Whether a handle is owned by at most one scope. Attaching refuses a handle that is
// already listed, but accepts the name of a scope that does not exist yet; when that scope
// is created, its handle is listed twice.
module ScopeOwners {
  import opened Common
  import opened CancelScope
  import opened ScopeRuns

  ghost predicate EntryAt(s: Store, i: int, m: int) {
    0 <= i < |s.records| && 0 <= m < |s.records[i].entries|
  }

  ghost predicate Unique(s: Store) {
    forall i, m, j, n {:trigger s.records[i].entries[m], s.records[j].entries[n]} ::
      EntryAt(s, i, m) && EntryAt(s, j, n) && s.records[i].entries[m].handle == s.records[j].entries[n].handle ==> i == j && m == n
  }

  // --------------------------------------------------------------------------------
  // Operations that cannot break it.

  lemma PushUnique(s: Store, i: nat, x: Owned)
    requires Unique(s) && i < |s.records|
    ensures Unique(SetEntries(s, i, s.records[i].entries + [x])) <==> !Attached(s, x.handle)
  {
    var t := SetEntries(s, i, s.records[i].entries + [x]);
    var last := |s.records[i].entries|;
    assert t.records[i].entries[last] == x;
    if Attached(s, x.handle) {
      var j :| 0 <= j < |s.records| && Lists(s.records[j].entries, x.handle);
      var n :| 0 <= n < |s.records[j].entries| && s.records[j].entries[n].handle == x.handle;
      assert EntryAt(t, j, n) && EntryAt(t, i, last) && t.records[j].entries[n].handle == x.handle;
    } else {
      forall j, n | EntryAt(s, j, n) ensures s.records[j].entries[n].handle != x.handle {
        assert !Lists(s.records[j].entries, x.handle);
      }
    }
  }

  // The name that the next scope gets.
  function NextName(s: Store): Option<Handle> {
    match if |s.records| > 0 then FindFree(s.records, 1) else None
    case None => None
    case Some(i) => Some(Handle(KScope, s.domain, s.store, i, s.next, 0))
  }

  // A scope is created below `parent` when asked for.
  predicate Creatable(s: Store, parent: Handle) {
    && Get(s, parent).Ok? && !Frozen(s, parent) && |s.records[Get(s, parent).value].entries| < s.entryLimit
    && NextName(s).Some? && s.next != MAX64
  }

  // Slots that are not in use own nothing.
  ghost predicate Tidy(s: Store) {
    forall i :: 0 <= i < |s.records| && !s.records[i].used ==> s.records[i].entries == []
  }

  lemma SameUnique(s: Store, t: Store)
    requires Unique(s) && |t.records| == |s.records|
    requires forall i :: 0 <= i < |s.records| ==> t.records[i].entries == s.records[i].entries
    ensures Unique(t)
  {
    assert forall i, m :: EntryAt(t, i, m) ==> EntryAt(s, i, m);
  }

  // Exactly when creating a scope keeps the property: unless the name it is about to give
  // out is listed already.
  lemma CreateUnique(s: Store, parent: Handle)
    requires Unique(s) && Tidy(s)
    ensures Create(s, parent).1.Ok? <==> Creatable(s, parent)
    ensures Unique(Create(s, parent).0) <==> !(Creatable(s, parent) && Attached(s, NextName(s).value))
  {
    if Creatable(s, parent) {
      var name, p := NextName(s).value, parent.slot;
      var s1 := NewChild(s, name.slot, parent);
      assert forall j :: 0 <= j < |s.records| ==> s1.records[j].entries == s.records[j].entries;
      SameUnique(s, s1);
      PushUnique(s1, p, Owned(name, ChildScope, false));
      SameAttached(s, s1, name);
    }
  }

  lemma SameAttached(s: Store, t: Store, h: Handle)
    requires |t.records| == |s.records|
    requires forall i :: 0 <= i < |s.records| ==> t.records[i].entries == s.records[i].entries
    ensures Attached(t, h) <==> Attached(s, h)
  {
    if Attached(s, h) {
      var j :| 0 <= j < |s.records| && Lists(s.records[j].entries, h);
      assert Lists(t.records[j].entries, h);
    }
    if Attached(t, h) {
      var j :| 0 <= j < |t.records| && Lists(t.records[j].entries, h);
      assert Lists(s.records[j].entries, h);
    }
  }

  lemma AttachUnique(s: Store, x: Owned, h: Handle)
    requires Unique(s)
    ensures Unique(Attach(s, x, h).0)
  {
    if Attach(s, x, h).1.Ok? {
      PushUnique(s, h.slot, x);
    }
  }

  lemma CutUnique(s: Store, i: nat, n: nat)
    requires Unique(s) && i < |s.records| && n < |s.records[i].entries|
    ensures var t := SetEntries(s, i, s.records[i].entries[..n] + s.records[i].entries[n + 1..]);
            Unique(t) && !Attached(t, s.records[i].entries[n].handle)
  {
    var es := s.records[i].entries;
    var t := SetEntries(s, i, es[..n] + es[n + 1..]);
    var h := es[n].handle;
    forall j, m | EntryAt(t, j, m) ensures t.records[j].entries[m].handle != h {
      if j == i {
        assert t.records[i].entries[m] == es[if m < n then m else m + 1];
      } else {
        assert EntryAt(s, j, m) && EntryAt(s, i, n);
      }
    }
    forall j, m, k, l | EntryAt(t, j, m) && EntryAt(t, k, l) && t.records[j].entries[m].handle == t.records[k].entries[l].handle
      ensures j == k && m == l
    {
      var m0, l0 := if j == i && m >= n then m + 1 else m, if k == i && l >= n then l + 1 else l;
      assert EntryAt(s, j, m0) && EntryAt(s, k, l0);
      assert t.records[j].entries[m] == s.records[j].entries[m0] && t.records[k].entries[l] == s.records[k].entries[l0];
    }
  }

  lemma ReplaceUnique(s: Store, i: nat, n: nat, x: Owned)
    requires Unique(s) && i < |s.records| && n < |s.records[i].entries| && !Attached(s, x.handle)
    ensures Unique(SetEntries(s, i, s.records[i].entries[n := x]))
  {
    var t := SetEntries(s, i, s.records[i].entries[n := x]);
    forall j, m | EntryAt(s, j, m) ensures s.records[j].entries[m].handle != x.handle {
      assert !Lists(s.records[j].entries, x.handle);
    }
  }

  // Where the entries that stay come from, in order.
  ghost predicate DrawnInOrder(es: seq<Owned>, fs: seq<Owned>, at: seq<nat>) {
    && |at| == |fs|
    && (forall n :: 0 <= n < |at| ==> at[n] < |es| && fs[n] == es[at[n]])
    && (forall m, n :: 0 <= m < n < |at| ==> at[m] < at[n])
  }

  lemma DrawnAfter(x: Owned, es: seq<Owned>, fs: seq<Owned>, at: seq<nat>) returns (moved: seq<nat>)
    requires DrawnInOrder(es, fs, at)
    ensures DrawnInOrder([x] + es, fs, moved) && DrawnInOrder([x] + es, [x] + fs, [0] + moved)
  {
    moved := seq(|at|, n requires 0 <= n < |at| => at[n] + 1);
  }

  // Leaving entries out keeps the others in order.
  lemma {:induction false} WithoutPositions(es: seq<Owned>, h: Handle) returns (at: seq<nat>)
    ensures DrawnInOrder(es, Without(es, h), at)
  {
    if es == [] {
      at := [];
    } else {
      var rest := WithoutPositions(es[1..], h);
      assert es == [es[0]] + es[1..];
      var moved := DrawnAfter(es[0], es[1..], Without(es[1..], h), rest);
      at := if es[0].handle == h then moved else [0] + moved;
    }
  }

  lemma WithoutUnique(s: Store, i: nat, h: Handle)
    requires Unique(s) && i < |s.records|
    ensures Unique(SetEntries(s, i, Without(s.records[i].entries, h)))
  {
    var es := s.records[i].entries;
    var t := SetEntries(s, i, Without(es, h));
    var at := WithoutPositions(es, h);
    forall j, m, k, l | EntryAt(t, j, m) && EntryAt(t, k, l) && t.records[j].entries[m].handle == t.records[k].entries[l].handle
      ensures j == k && m == l
    {
      var m0, l0 := if j == i then at[m] else m, if k == i then at[l] else l;
      assert EntryAt(s, j, m0) && EntryAt(s, k, l0);
      assert t.records[j].entries[m] == s.records[j].entries[m0] && t.records[k].entries[l] == s.records[k].entries[l0];
    }
  }

  // --------------------------------------------------------------------------------
  // Exactly what a caller has to avoid.

  // The name of a scope that has not been created yet.
  predicate Unissued(s: Store, h: Handle) {
    h.kind.KScope? && h.domain == s.domain && h.store == s.store && h.owner == 0 && h.generation >= s.next
  }

  ghost predicate AllIssued(s: Store) {
    (forall h :: Attached(s, h) ==> !Unissued(s, h)) && Tidy(s)
  }

  predicate Careful(s: Store, c: Command) {
    (c.DoAttach? || c.DoReplace?) ==> !Unissued(s, c.x.handle)
  }

  // What a change to one entry list may add.
  lemma AttachedAfter(s: Store, i: nat, es: seq<Owned>, h: Handle)
    requires i < |s.records| && Attached(SetEntries(s, i, es), h)
    ensures Attached(s, h) || Lists(es, h)
  {
    var t := SetEntries(s, i, es);
    var j :| 0 <= j < |t.records| && Lists(t.records[j].entries, h);
    if j != i {
      assert Lists(s.records[j].entries, h);
    }
  }

  // The new list holds only old entries and perhaps `x`.
  ghost predicate DrawnFrom(es: seq<Owned>, fs: seq<Owned>, x: Option<Owned>) {
    forall n :: 0 <= n < |fs| ==> fs[n] in es || Some(fs[n]) == x
  }

  lemma EntriesIssued(s: Store, i: nat, es: seq<Owned>, x: Option<Owned>, t: Store)
    requires AllIssued(s) && i < |s.records| && s.records[i].used && DrawnFrom(s.records[i].entries, es, x)
    requires x.Some? ==> !Unissued(s, x.value.handle)
    requires t == SetEntries(s, i, es)
    ensures AllIssued(t)
  {
    forall h | Attached(t, h) ensures !Unissued(t, h) {
      AttachedAfter(s, i, es, h);
      if Lists(es, h) {
        var n :| 0 <= n < |es| && es[n].handle == h;
        if es[n] in s.records[i].entries {
          var m :| 0 <= m < |s.records[i].entries| && s.records[i].entries[m] == es[n];
          assert Lists(s.records[i].entries, h);
          assert Attached(s, h);
        }
      }
    }
  }

  ghost predicate Good(s: Store) {
    Unique(s) && AllIssued(s)
  }

  lemma SameEntries(s: Store, t: Store)
    requires Good(s) && |t.records| == |s.records| && t.domain == s.domain && t.store == s.store && s.next <= t.next
    requires forall i :: 0 <= i < |s.records| ==>
               t.records[i].entries == s.records[i].entries && (s.records[i].used ==> t.records[i].used || s.records[i].entries == [])
    ensures Good(t)
  {
    assert Unique(t) by {
      assert forall i, m :: EntryAt(t, i, m) ==> EntryAt(s, i, m);
    }
    forall h | Attached(t, h) ensures !Unissued(t, h) {
      var j :| 0 <= j < |t.records| && Lists(t.records[j].entries, h);
      assert Lists(s.records[j].entries, h);
      assert Attached(s, h);
    }
  }

  lemma CreateGood(s: Store, parent: Handle)
    requires Good(s)
    ensures Good(Create(s, parent).0)
  {
    var (t, r) := Create(s, parent);
    if r.Ok? {
      var i, p := r.value.slot, parent.slot;
      assert Unissued(s, r.value);
      CreateUnique(s, parent);
      var s1 := NewChild(s, i, parent);
      SameEntries(s, s1);
      EntriesIssued(s1, p, s1.records[p].entries + [Owned(r.value, ChildScope, false)], Some(Owned(r.value, ChildScope, false)), t);
    }
  }

  lemma AttachGood(s: Store, x: Owned, h: Handle)
    requires Good(s) && !Unissued(s, x.handle)
    ensures Good(Attach(s, x, h).0)
  {
    AttachUnique(s, x, h);
    if Attach(s, x, h).1.Ok? {
      EntriesIssued(s, h.slot, s.records[h.slot].entries + [x], Some(x), Attach(s, x, h).0);
    }
  }

  lemma ReplaceGood(s: Store, was: Handle, x: Owned, scope: Handle)
    requires Good(s) && !Unissued(s, x.handle)
    ensures Good(ReplaceOwned(s, was, x, scope).0)
  {
    if ReplaceOwned(s, was, x, scope).1.Ok? {
      var i := scope.slot;
      var n := Find(s.records[i].entries, was).value;
      ReplaceUnique(s, i, n, x);
      EntriesIssued(s, i, s.records[i].entries[n := x], Some(x), ReplaceOwned(s, was, x, scope).0);
    }
  }

  lemma CutGood(s: Store, i: nat, n: nat)
    requires Good(s) && i < |s.records| && s.records[i].used && n < |s.records[i].entries|
    ensures Good(SetEntries(s, i, s.records[i].entries[..n] + s.records[i].entries[n + 1..]))
  {
    CutUnique(s, i, n);
    EntriesIssued(s, i, s.records[i].entries[..n] + s.records[i].entries[n + 1..], None,
                  SetEntries(s, i, s.records[i].entries[..n] + s.records[i].entries[n + 1..]));
  }

  lemma WithoutGood(s: Store, i: nat, h: Handle)
    requires Good(s) && i < |s.records| && s.records[i].used
    ensures Good(SetEntries(s, i, Without(s.records[i].entries, h)))
  {
    WithoutUnique(s, i, h);
    EntriesIssued(s, i, Without(s.records[i].entries, h), None, SetEntries(s, i, Without(s.records[i].entries, h)));
  }

  lemma MoveGood(s: Store, a: nat, b: nat, n: nat)
    requires Good(s) && a < |s.records| && b < |s.records| && a != b && s.records[a].used && s.records[b].used
    requires n < |s.records[a].entries|
    ensures Good(Move(s, a, b, n))
  {
    var es := s.records[a].entries;
    var cut := SetEntries(s, a, es[..n] + es[n + 1..]);
    CutGood(s, a, n);
    CutUnique(s, a, n);
    assert !Unissued(s, es[n].handle) by {
      assert Lists(es, es[n].handle);
      assert Attached(s, es[n].handle);
    }
    PushUnique(cut, b, es[n]);
    var t := SetEntries(cut, b, cut.records[b].entries + [es[n]]);
    EntriesIssued(cut, b, cut.records[b].entries + [es[n]], Some(es[n]), t);
    assert t.records == Move(s, a, b, n).records;
  }

  lemma TransferGood(s: Store, x: Handle, from: Handle, to: Handle, observed: bool)
    requires Good(s)
    ensures Good(Transfer(s, x, from, to, observed).0)
  {
    var t := Transfer(s, x, from, to, observed).0;
    if t != s {
      var a, b := from.slot, to.slot;
      var n := Find(s.records[a].entries, x).value;
      if s.records[a].entries[n].kind.ChildScope? {
        SameEntries(s, Reparent(s, x.slot, to));
        MoveGood(Reparent(s, x.slot, to), a, b, n);
      } else {
        MoveGood(s, a, b, n);
      }
    }
  }

  lemma ApplyGood(s: Store, h: Handle, id: nat, executed: bool)
    requires Good(s)
    ensures Good(Apply(s, h, id, executed).0)
  {
    var t := Apply(s, h, id, executed).0;
    if t != s {
      var r := s.records[h.slot];
      var a := r.plan.value.actions[FindAction(r.plan.value.actions, id).value];
      WithoutGood(s, h.slot, a.owned.handle);
      SameEntries(SetEntries(s, h.slot, Without(r.entries, a.owned.handle)), t);
    }
  }

  lemma CloseGood(s: Store, h: Handle, observed: bool)
    requires Good(s)
    ensures Good(CloseScope(s, h, observed).0)
  {
    var (t, r) := CloseScope(s, h, observed);
    if r.Ok? {
      var parent := s.records[h.slot].parent;
      if Get(s, parent).Ok? {
        WithoutGood(s, parent.slot, h);
        SameEntries(SetEntries(s, parent.slot, Without(s.records[parent.slot].entries, h)), t);
      } else {
        SameEntries(s, t);
      }
    }
  }

  lemma DetachGood(s: Store, o: Handle, h: Handle)
    requires Good(s)
    ensures Good(DetachCompleted(s, o, h).0)
  {
    if DetachCompleted(s, o, h).1.Ok? {
      CutGood(s, h.slot, Find(s.records[h.slot].entries, o).value);
    }
  }

  lemma CancelGood(s: Store, h: Handle, reason: string)
    requires Good(s)
    ensures Good(Cancel(s, h, reason).0)
  {
    SameEntries(s, Cancel(s, h, reason).0);
  }

  lemma StepGood(s: Store, c: Command)
    requires Good(s) && Careful(s, c)
    ensures Good(Step(s, c))
  {
    match c
    case DoCreate(p) => CreateGood(s, p);
    case DoAttach(x, h) => AttachGood(s, x, h);
    case DoTransfer(o, from, to, observed) => TransferGood(s, o, from, to, observed);
    case DoReplace(was, x, h) => ReplaceGood(s, was, x, h);
    case DoDetach(o, h) => DetachGood(s, o, h);
    case DoCancel(h, reason) => CancelGood(s, h, reason);
    case DoApply(h, id, executed) => ApplyGood(s, h, id, executed);
    case DoClose(h, observed) => CloseGood(s, h, observed);
  }

  predicate CarefulRun(s: Store, cs: seq<Command>)
    decreases |cs|
  {
    cs == [] || (Careful(s, cs[0]) && CarefulRun(Step(s, cs[0]), cs[1..]))
  }

  // If no caller attaches the name of a scope that does not exist yet, every handle is
  // owned by at most one scope, and once, in every reachable state.
  lemma {:induction false} CarefulRunGood(s: Store, cs: seq<Command>)
    requires Good(s) && CarefulRun(s, cs)
    ensures Good(Run(s, cs))
    decreases |cs|
  {
    if cs != [] {
      StepGood(s, cs[0]);
      CarefulRunGood(Step(s, cs[0]), cs[1..]);
    }
  }

  lemma OwnedOnce(domain: nat, store: nat, scopes: nat, entryLimit: nat, actionLimit: nat, cs: seq<Command>)
    requires CarefulRun(NewStore(domain, store, scopes, entryLimit, actionLimit), cs)
    ensures Unique(Run(NewStore(domain, store, scopes, entryLimit, actionLimit), cs))
  {
    NewStoreGood(domain, store, scopes, entryLimit, actionLimit);
    CarefulRunGood(NewStore(domain, store, scopes, entryLimit, actionLimit), cs);
  }

  lemma NewStoreGood(domain: nat, store: nat, scopes: nat, entryLimit: nat, actionLimit: nat)
    ensures Good(NewStore(domain, store, scopes, entryLimit, actionLimit))
  {
    var s := NewStore(domain, store, scopes, entryLimit, actionLimit);
    forall h ensures !Attached(s, h) {
    }
  }

  // --------------------------------------------------------------------------------
  // Any caller: the one call that breaks it.

  // The call creates a scope whose name is listed already.
  predicate Doubles(s: Store, c: Command) {
    c.DoCreate? && Creatable(s, c.parent) && Attached(s, NextName(s).value)
  }

  lemma MoveUnique(s: Store, a: nat, b: nat, n: nat)
    requires Unique(s) && a < |s.records| && b < |s.records| && a != b && n < |s.records[a].entries|
    ensures Unique(Move(s, a, b, n))
  {
    var es := s.records[a].entries;
    var cut := SetEntries(s, a, es[..n] + es[n + 1..]);
    CutUnique(s, a, n);
    PushUnique(cut, b, es[n]);
    assert SetEntries(cut, b, cut.records[b].entries + [es[n]]).records == Move(s, a, b, n).records;
    SameUnique(SetEntries(cut, b, cut.records[b].entries + [es[n]]), Move(s, a, b, n));
  }

  lemma TransferUnique(s: Store, x: Handle, from: Handle, to: Handle, observed: bool)
    requires Unique(s)
    ensures Unique(Transfer(s, x, from, to, observed).0)
  {
    var t := Transfer(s, x, from, to, observed).0;
    if t != s {
      var a, b := from.slot, to.slot;
      var n := Find(s.records[a].entries, x).value;
      if s.records[a].entries[n].kind.ChildScope? {
        SameUnique(s, Reparent(s, x.slot, to));
        MoveUnique(Reparent(s, x.slot, to), a, b, n);
      } else {
        MoveUnique(s, a, b, n);
      }
    }
  }

  lemma ApplyUnique(s: Store, h: Handle, id: nat, executed: bool)
    requires Unique(s)
    ensures Unique(Apply(s, h, id, executed).0)
  {
    var t := Apply(s, h, id, executed).0;
    if t != s {
      var r := s.records[h.slot];
      var a := r.plan.value.actions[FindAction(r.plan.value.actions, id).value];
      WithoutUnique(s, h.slot, a.owned.handle);
      SameUnique(SetEntries(s, h.slot, Without(r.entries, a.owned.handle)), t);
    }
  }

  lemma CloseUnique(s: Store, h: Handle, observed: bool)
    requires Unique(s)
    ensures Unique(CloseScope(s, h, observed).0)
  {
    var (t, r) := CloseScope(s, h, observed);
    if r.Ok? {
      var parent := s.records[h.slot].parent;
      if Get(s, parent).Ok? {
        WithoutUnique(s, parent.slot, h);
        SameUnique(SetEntries(s, parent.slot, Without(s.records[parent.slot].entries, h)), t);
      } else {
        SameUnique(s, t);
      }
    }
  }

  lemma ReplacedUnique(s: Store, was: Handle, x: Owned, h: Handle)
    requires Unique(s)
    ensures Unique(ReplaceOwned(s, was, x, h).0)
  {
    if ReplaceOwned(s, was, x, h).1.Ok? {
      ReplaceUnique(s, h.slot, Find(s.records[h.slot].entries, was).value, x);
    }
  }

  lemma DetachUnique(s: Store, o: Handle, h: Handle)
    requires Unique(s)
    ensures Unique(DetachCompleted(s, o, h).0)
  {
    if DetachCompleted(s, o, h).1.Ok? {
      CutUnique(s, h.slot, Find(s.records[h.slot].entries, o).value);
    }
  }

  // Every call keeps handles in one place, unless it creates a scope under a listed name.
  lemma StepUnique(s: Store, c: Command)
    requires Unique(s) && Tidy(s)
    ensures Unique(Step(s, c)) <==> !Doubles(s, c)
  {
    match c
    case DoCreate(p) => CreateUnique(s, p);
    case DoAttach(x, h) => AttachUnique(s, x, h);
    case DoTransfer(o, from, to, observed) => TransferUnique(s, o, from, to, observed);
    case DoReplace(was, x, h) => ReplacedUnique(s, was, x, h);
    case DoDetach(o, h) => DetachUnique(s, o, h);
    case DoCancel(h, reason) => SameUnique(s, Cancel(s, h, reason).0);
    case DoApply(h, id, executed) => ApplyUnique(s, h, id, executed);
    case DoClose(h, observed) => CloseUnique(s, h, observed);
  }

  lemma StepTidy(s: Store, c: Command)
    requires Tidy(s)
    ensures Tidy(Step(s, c))
  {
  }

  predicate NeverDoubles(s: Store, cs: seq<Command>)
    decreases |cs|
  {
    cs == [] || (!Doubles(s, cs[0]) && NeverDoubles(Step(s, cs[0]), cs[1..]))
  }

  ghost predicate AlwaysUnique(s: Store, cs: seq<Command>)
    decreases |cs|
  {
    Unique(s) && (cs != [] ==> AlwaysUnique(Step(s, cs[0]), cs[1..]))
  }

  lemma {:induction false} UniqueExactly(s: Store, cs: seq<Command>)
    requires Unique(s) && Tidy(s)
    ensures AlwaysUnique(s, cs) <==> NeverDoubles(s, cs)
    decreases |cs|
  {
    if cs != [] {
      StepUnique(s, cs[0]);
      StepTidy(s, cs[0]);
      if !Doubles(s, cs[0]) {
        UniqueExactly(Step(s, cs[0]), cs[1..]);
      }
    }
  }

  // Whatever its callers do, a store keeps every handle in one place throughout a run if
  // and only if no call of the run creates a scope under a name that is already listed.
  lemma OwnedExactly(domain: nat, store: nat, scopes: nat, entryLimit: nat, actionLimit: nat, cs: seq<Command>)
    ensures var s := NewStore(domain, store, scopes, entryLimit, actionLimit);
            AlwaysUnique(s, cs) <==> NeverDoubles(s, cs)
  {
    NewStoreGood(domain, store, scopes, entryLimit, actionLimit);
    UniqueExactly(NewStore(domain, store, scopes, entryLimit, actionLimit), cs);
  }

  // Without that care it fails: the name of the next scope is attached, then created.
  lemma OwnedTwice()
    ensures var s := NewStore(1, 1, 2, 8, 8);
            var root, forged := Handle(KScope, 1, 1, 0, 1, 0), Handle(KScope, 1, 1, 1, 2, 0);
            var t := Run(s, [DoAttach(Owned(forged, OtherKind(0), false), root), DoCreate(root)]);
            !Unique(t) && !Careful(s, DoAttach(Owned(forged, OtherKind(0), false), root))
  {
    var s := NewStore(1, 1, 2, 8, 8);
    var root, forged := Handle(KScope, 1, 1, 0, 1, 0), Handle(KScope, 1, 1, 1, 2, 0);
    var x := Owned(forged, OtherKind(0), false);
    var s1, s2 := ForgedSteps(s, root, forged, x);
    var cs := [DoAttach(x, root), DoCreate(root)];
    assert cs[1..] == [DoCreate(root)] && cs[1..][1..] == [];
    assert Run(s, cs) == Run(s1, cs[1..]) == Run(s2, []) == s2;
  }

  lemma ForgedSteps(s: Store, root: Handle, forged: Handle, x: Owned) returns (s1: Store, s2: Store)
    requires s == NewStore(1, 1, 2, 8, 8) && root == Handle(KScope, 1, 1, 0, 1, 0) && forged == Handle(KScope, 1, 1, 1, 2, 0)
    requires x == Owned(forged, OtherKind(0), false)
    ensures s1 == Attach(s, x, root).0 && s2 == Create(s1, root).0 && !Unique(s2)
  {
    assert !Attached(s, forged);
    assert !FrozenWalk(s, root, 2);
    s1 := Attach(s, x, root).0;
    assert s1.records[0].entries == [x];
    assert !FrozenWalk(s1, root, 2);
    assert FindFree(s1.records, 1) == Some(1);
    s2 := Create(s1, root).0;
    assert s2.records[0].entries == [x, Owned(forged, ChildScope, false)];
    assert EntryAt(s2, 0, 0) && EntryAt(s2, 0, 1) && s2.records[0].entries[0].handle == s2.records[0].entries[1].handle;
  }
}
