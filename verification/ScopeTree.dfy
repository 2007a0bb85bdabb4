// Live scopes form a tree rooted at slot 0, so the bounded parent walks decide ancestry
// exactly.
module ScopeTree {
  import opened Common
  import opened CancelScope

  // Slot `i` is live and reaches the root in exactly `k` parent steps.
  ghost predicate Rooted(s: Store, i: nat, k: nat)
    decreases k
  {
    && i < |s.records| && s.records[i].used
    && (if k == 0 then i == 0
        else i != 0 && Get(s, s.records[i].parent).Ok? && Rooted(s, s.records[i].parent.slot, k - 1))
  }

  ghost predicate HasRoot(s: Store, i: nat) {
    exists k: nat :: Rooted(s, i, k)
  }

  ghost predicate TreeOK(s: Store) {
    && |s.records| > 0
    && s.records[0].used
    && forall i :: 0 <= i < |s.records| && s.records[i].used ==> HasRoot(s, i)
  }

  // Names are never handed out twice.
  ghost predicate NamesOK(s: Store) {
    forall i :: 0 <= i < |s.records| ==> s.records[i].generation <= s.next && (s.records[i].used ==> s.records[i].generation < s.next)
  }

  lemma {:induction false} RootedOnce(s: Store, i: nat, k: nat, m: nat)
    requires Rooted(s, i, k) && Rooted(s, i, m)
    ensures k == m
    decreases k
  {
    if k > 0 {
      RootedOnce(s, s.records[i].parent.slot, k - 1, m - 1);
    }
  }

  // The slots on the way to the root.
  ghost function Path(s: Store, i: nat, k: nat): set<nat>
    requires Rooted(s, i, k)
    decreases k
  {
    {i} + if k == 0 then {} else Path(s, s.records[i].parent.slot, k - 1)
  }

  ghost predicate RootedBy(s: Store, i: nat, k: nat) {
    exists m: nat :: m <= k && Rooted(s, i, m)
  }

  lemma {:induction false} PathRooted(s: Store, i: nat, k: nat, j: nat)
    requires Rooted(s, i, k) && j in Path(s, i, k)
    ensures j < |s.records| && RootedBy(s, j, k)
    decreases k
  {
    if j == i {
      assert Rooted(s, j, k);
    } else {
      PathRooted(s, s.records[i].parent.slot, k - 1, j);
      var m: nat :| m <= k - 1 && Rooted(s, j, m);
      assert m <= k;
    }
  }

  lemma {:induction false} PathSize(s: Store, i: nat, k: nat)
    requires Rooted(s, i, k)
    ensures |Path(s, i, k)| == k + 1
    decreases k
  {
    if k > 0 {
      var p := s.records[i].parent.slot;
      PathSize(s, p, k - 1);
      if i in Path(s, p, k - 1) {
        PathRooted(s, p, k - 1, i);
        var m: nat :| m <= k - 1 && Rooted(s, i, m);
        RootedOnce(s, i, k, m);
      }
      assert i !in Path(s, p, k - 1);
    }
  }

  lemma {:induction false} BelowSize(x: set<nat>, n: nat)
    requires forall j :: j in x ==> j < n
    ensures |x| <= n
    decreases n
  {
    if n > 0 {
      BelowSize(x - {n - 1}, n - 1);
    } else {
      assert x == {};
    }
  }

  // No path is longer than the table.
  lemma Shallow(s: Store, i: nat, k: nat)
    requires Rooted(s, i, k)
    ensures k < |s.records|
  {
    PathSize(s, i, k);
    forall j | j in Path(s, i, k) ensures j < |s.records| {
      PathRooted(s, i, k, j);
    }
    BelowSize(Path(s, i, k), |s.records|);
  }

  // --------------------------------------------------------------------------------
  // The bounded walks are exact.

  lemma {:induction false} WalkLonger(s: Store, h: Handle, a: Handle, m: nat, n: nat)
    requires m <= n && InsideWalk(s, h, a, m)
    ensures InsideWalk(s, h, a, n)
    decreases m
  {
    if h != a {
      WalkLonger(s, s.records[h.slot].parent, a, m - 1, n - 1);
    }
  }

  lemma {:induction false} WalkEnough(s: Store, h: Handle, a: Handle, n: nat, k: nat)
    requires InsideWalk(s, h, a, n) && Get(s, h).Ok? && Rooted(s, h.slot, k)
    ensures InsideWalk(s, h, a, k + 1)
    decreases k
  {
    if h != a {
      WalkEnough(s, s.records[h.slot].parent, a, n - 1, k - 1);
    }
  }

  // `a` is reached from `h` by following parents for any number of steps.
  ghost predicate Above(s: Store, h: Handle, a: Handle) {
    exists n: nat :: InsideWalk(s, h, a, n)
  }

  // However long the walk, the bounded one finds the same ancestors.
  lemma InsideExact(s: Store, h: Handle, a: Handle)
    requires TreeOK(s)
    ensures Inside(s, h, a) <==> Above(s, h, a)
  {
    if Above(s, h, a) {
      var n: nat :| InsideWalk(s, h, a, n);
      if Get(s, h).Ok? {
        var k: nat :| Rooted(s, h.slot, k);
        WalkEnough(s, h, a, n, k);
        Shallow(s, h.slot, k);
        WalkLonger(s, h, a, k + 1, |s.records|);
      } else {
        assert h == a && InsideWalk(s, h, a, |s.records|);
      }
    }
  }

  ghost predicate ShutAncestor(s: Store, h: Handle, a: Handle) {
    Inside(s, h, a) && Get(s, a).Ok? && !s.records[a.slot].state.Open?
  }

  lemma {:induction false} FrozenFinds(s: Store, h: Handle, n: nat, k: nat)
    requires FrozenWalk(s, h, n) && Get(s, h).Ok? && Rooted(s, h.slot, k) && k < n
    ensures exists a :: InsideWalk(s, h, a, n) && Get(s, a).Ok? && !s.records[a.slot].state.Open?
    decreases n
  {
    if !s.records[h.slot].state.Open? {
      assert InsideWalk(s, h, h, n);
    } else {
      var p := s.records[h.slot].parent;
      FrozenFinds(s, p, n - 1, k - 1);
      var a :| InsideWalk(s, p, a, n - 1) && Get(s, a).Ok? && !s.records[a.slot].state.Open?;
      assert InsideWalk(s, h, a, n);
    }
  }

  lemma {:induction false} ShutFreezes(s: Store, h: Handle, a: Handle, n: nat)
    requires InsideWalk(s, h, a, n) && Get(s, a).Ok? && !s.records[a.slot].state.Open?
    ensures FrozenWalk(s, h, n)
    decreases n
  {
    if h != a {
      ShutFreezes(s, s.records[h.slot].parent, a, n - 1);
    }
  }

  // A scope is frozen exactly when it is gone or some scope above it, itself included,
  // is no longer open.
  lemma FrozenExact(s: Store, h: Handle)
    requires TreeOK(s)
    ensures Frozen(s, h) <==> Get(s, h).Err? || exists a :: ShutAncestor(s, h, a)
  {
    if Get(s, h).Ok? {
      if Frozen(s, h) {
        var k: nat :| Rooted(s, h.slot, k);
        Shallow(s, h.slot, k);
        FrozenFinds(s, h, |s.records|, k);
        var a :| InsideWalk(s, h, a, |s.records|) && Get(s, a).Ok? && !s.records[a.slot].state.Open?;
        assert ShutAncestor(s, h, a);
      }
      if a :| ShutAncestor(s, h, a) {
        ShutFreezes(s, h, a, |s.records|);
      }
    }
  }

  // --------------------------------------------------------------------------------
  // Operations that leave the links alone.

  ghost predicate SameLinks(s: Store, t: Store) {
    && t.domain == s.domain && t.store == s.store && |t.records| == |s.records|
    && forall i :: 0 <= i < |s.records| ==>
         t.records[i].used == s.records[i].used && t.records[i].generation == s.records[i].generation
         && t.records[i].parent == s.records[i].parent
  }

  lemma {:induction false} LinksRooted(s: Store, t: Store, i: nat, k: nat)
    requires SameLinks(s, t) && Rooted(s, i, k)
    ensures Rooted(t, i, k)
    decreases k
  {
    if k > 0 {
      LinksRooted(s, t, s.records[i].parent.slot, k - 1);
    }
  }

  lemma LinksTree(s: Store, t: Store)
    requires SameLinks(s, t) && TreeOK(s)
    ensures TreeOK(t)
  {
    forall i | 0 <= i < |t.records| && t.records[i].used ensures HasRoot(t, i) {
      assert HasRoot(s, i);
      var k: nat :| Rooted(s, i, k);
      LinksRooted(s, t, i, k);
    }
  }

  // --------------------------------------------------------------------------------
  // A new leaf.

  lemma {:induction false} LeafRooted(s: Store, i: nat, parent: Handle, j: nat, k: nat)
    requires i < |s.records| && !s.records[i].used && Rooted(s, j, k)
    ensures Rooted(NewChild(s, i, parent), j, k)
    decreases k
  {
    if k > 0 {
      LeafRooted(s, i, parent, s.records[j].parent.slot, k - 1);
    }
  }

  lemma LeafTree(s: Store, i: nat, parent: Handle)
    requires TreeOK(s) && 0 < i < |s.records| && !s.records[i].used && Get(s, parent).Ok?
    ensures TreeOK(NewChild(s, i, parent))
  {
    var t := NewChild(s, i, parent);
    forall j | 0 <= j < |t.records| && t.records[j].used ensures HasRoot(t, j) {
      var j0 := if j == i then parent.slot else j;
      assert HasRoot(s, j0);
      var k: nat :| Rooted(s, j0, k);
      LeafRooted(s, i, parent, j0, k);
      if j == i {
        assert Rooted(t, i, k + 1);
      }
    }
  }

  // --------------------------------------------------------------------------------
  // A subtree moves.

  // The way from `j` to the root does not pass `c`.
  ghost predicate Avoids(s: Store, j: nat, k: nat, c: nat)
    decreases k
  {
    j != c && (k > 0 && j < |s.records| ==> Avoids(s, s.records[j].parent.slot, k - 1, c))
  }

  lemma {:induction false} NotInsideAvoids(s: Store, h: Handle, c: Handle, n: nat, k: nat)
    requires Get(s, h).Ok? && Get(s, c).Ok? && Rooted(s, h.slot, k) && k < n && !InsideWalk(s, h, c, n)
    ensures Avoids(s, h.slot, k, c.slot)
    decreases k
  {
    if k > 0 {
      NotInsideAvoids(s, s.records[h.slot].parent, c, n - 1, k - 1);
    }
  }

  lemma {:induction false} AvoidsRooted(s: Store, c: nat, to: Handle, j: nat, k: nat)
    requires c < |s.records| && Rooted(s, j, k) && Avoids(s, j, k, c)
    ensures Rooted(Reparent(s, c, to), j, k)
    decreases k
  {
    if k > 0 {
      AvoidsRooted(s, c, to, s.records[j].parent.slot, k - 1);
    }
  }

  lemma {:induction false} MovedRooted(s: Store, c: nat, to: Handle, j: nat, k: nat)
    requires c < |s.records| && Rooted(s, j, k) && HasRoot(Reparent(s, c, to), c)
    ensures HasRoot(Reparent(s, c, to), j)
    decreases k
  {
    var t := Reparent(s, c, to);
    if j != c {
      if k == 0 {
        assert Rooted(t, j, 0);
      } else {
        var p := s.records[j].parent.slot;
        MovedRooted(s, c, to, p, k - 1);
        var m: nat :| Rooted(t, p, m);
        assert Rooted(t, j, m + 1);
      }
    }
  }

  // Moving a scope below a scope that is not inside it keeps the tree.
  lemma MovedTree(s: Store, c: Handle, to: Handle)
    requires TreeOK(s) && Get(s, c).Ok? && Get(s, to).Ok? && c.slot != 0 && !Inside(s, to, c)
    ensures TreeOK(Reparent(s, c.slot, to))
  {
    var t := Reparent(s, c.slot, to);
    assert HasRoot(s, to.slot);
    var k: nat :| Rooted(s, to.slot, k);
    Shallow(s, to.slot, k);
    NotInsideAvoids(s, to, c, |s.records|, k);
    AvoidsRooted(s, c.slot, to, to.slot, k);
    assert Rooted(t, c.slot, k + 1);
    forall j | 0 <= j < |t.records| && t.records[j].used ensures HasRoot(t, j) {
      assert HasRoot(s, j);
      var m: nat :| Rooted(s, j, m);
      MovedRooted(s, c.slot, to, j, m);
    }
  }

  // --------------------------------------------------------------------------------
  // A leaf goes.

  lemma {:induction false} DroppedRooted(s: Store, h: Handle, r: Record, j: nat, k: nat)
    requires Get(s, h).Ok? && !HasChild(s, h) && Rooted(s, j, k) && j != h.slot
    ensures Rooted(SetRecord(s, h.slot, r), j, k)
    decreases k
  {
    if k > 0 {
      assert s.records[j].parent != h;
      DroppedRooted(s, h, r, s.records[j].parent.slot, k - 1);
    }
  }

  lemma DroppedTree(s: Store, h: Handle, r: Record)
    requires TreeOK(s) && Get(s, h).Ok? && h.slot != 0 && !HasChild(s, h) && !r.used
    ensures TreeOK(SetRecord(s, h.slot, r))
  {
    var t := SetRecord(s, h.slot, r);
    forall j | 0 <= j < |t.records| && t.records[j].used ensures HasRoot(t, j) {
      assert HasRoot(s, j);
      var k: nat :| Rooted(s, j, k);
      DroppedRooted(s, h, r, j, k);
    }
  }
}
