// The order of handles (runtime/include/leanat/common.hpp), in which a map keyed by handles
// is walked.
module HandleOrder {
  import opened Common

  predicate Before(a: Handle, b: Handle) {
    var i, j := KindIndex(a.kind), KindIndex(b.kind);
    if i != j then i < j
    else if a.domain != b.domain then a.domain < b.domain
    else if a.store != b.store then a.store < b.store
    else if a.slot != b.slot then a.slot < b.slot
    else if a.generation != b.generation then a.generation < b.generation
    else a.owner < b.owner
  }

  lemma BeforeTotal(a: Handle, b: Handle)
    ensures Before(a, b) || a == b || Before(b, a)
    ensures !(Before(a, b) && Before(b, a)) && !Before(a, a)
  {
  }

  lemma BeforeTransitive(a: Handle, b: Handle, c: Handle)
    requires Before(a, b) && Before(b, c)
    ensures Before(a, c)
  {
  }

  predicate IsLeast(s: set<Handle>, h: Handle) {
    h in s && forall k :: k in s ==> k == h || Before(h, k)
  }

  lemma {:induction false} LeastExists(s: set<Handle>)
    requires s != {}
    ensures exists h :: IsLeast(s, h)
  {
    var x :| x in s;
    var rest := s - {x};
    assert s == rest + {x};
    if rest == {} {
      assert IsLeast(s, x);
    } else {
      LeastExists(rest);
      var h :| IsLeast(rest, h);
      BeforeTotal(x, h);
      if Before(x, h) {
        forall k | k in s ensures k == x || Before(x, k) {
          if k != x && k != h {
            BeforeTransitive(x, h, k);
          }
        }
        assert IsLeast(s, x);
      } else {
        assert IsLeast(s, h);
      }
    }
  }

  function Least(s: set<Handle>): (h: Handle)
    requires s != {}
    ensures IsLeast(s, h)
  {
    LeastExists(s);
    LeastUnique(s);
    var h :| IsLeast(s, h);
    h
  }

  lemma LeastUnique(s: set<Handle>)
    ensures forall h, k :: IsLeast(s, h) && IsLeast(s, k) ==> h == k
  {
    forall h, k | IsLeast(s, h) && IsLeast(s, k) ensures h == k {
      BeforeTotal(h, k);
    }
  }

  // The members in the order in which a loop over the map meets them.
  function Walk(s: set<Handle>): (r: seq<Handle>)
    ensures forall h :: h in r <==> h in s
    decreases |s|
  {
    if s == {} then []
    else
      var h := Least(s);
      [h] + Walk(s - {h})
  }

  ghost predicate Ascends(r: seq<Handle>) {
    forall i, j :: 0 <= i < j < |r| ==> Before(r[i], r[j])
  }

  lemma AscendsFrom(s: set<Handle>, h: Handle, rest: seq<Handle>)
    requires IsLeast(s, h) && (forall k :: k in rest ==> k in s && k != h) && Ascends(rest)
    ensures Ascends([h] + rest)
  {
    var all := [h] + rest;
    forall i, j | 0 <= i < j < |all| ensures Before(all[i], all[j]) {
      assert all[j] == rest[j - 1];
      assert all[j] in rest;
      if i > 0 {
        assert all[i] == rest[i - 1];
      }
    }
  }

  // A walk goes upwards, so it meets nothing twice.
  lemma {:induction false} WalkAscends(s: set<Handle>)
    ensures Ascends(Walk(s))
    decreases |s|
  {
    if s != {} {
      var h := Least(s);
      WalkAscends(s - {h});
      AscendsFrom(s, h, Walk(s - {h}));
    }
  }

  lemma WalkDistinct(s: set<Handle>)
    ensures forall i, j :: 0 <= i < j < |Walk(s)| ==> Walk(s)[i] != Walk(s)[j]
  {
    WalkAscends(s);
    AscendsDistinct(Walk(s));
  }

  lemma AscendsDistinct(r: seq<Handle>)
    requires Ascends(r)
    ensures forall i, j :: 0 <= i < j < |r| ==> r[i] != r[j]
  {
    forall i, j | 0 <= i < j < |r| ensures r[i] != r[j] {
      BeforeTotal(r[i], r[j]);
    }
  }
}
