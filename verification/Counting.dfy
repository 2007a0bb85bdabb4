// How many entries of a table satisfy a condition.
module Counting {

  function Count<T>(s: seq<T>, f: T -> bool): (n: nat)
    ensures n <= |s|
  {
    if s == [] then 0 else Count(s[..|s| - 1], f) + if f(s[|s| - 1]) then 1 else 0
  }

  lemma {:induction false} CountUpdate<T>(s: seq<T>, f: T -> bool, i: nat, x: T)
    requires i < |s|
    ensures Count(s[i := x], f) + (if f(s[i]) then 1 else 0) == Count(s, f) + (if f(x) then 1 else 0)
  {
    var last := |s| - 1;
    if i == last {
      assert s[i := x][..last] == s[..last];
    } else {
      assert s[i := x][..last] == s[..last][i := x];
      CountUpdate(s[..last], f, i, x);
    }
  }

  lemma {:induction false} CountPositive<T>(s: seq<T>, f: T -> bool, i: nat)
    requires i < |s| && f(s[i])
    ensures Count(s, f) > 0
  {
    if i < |s| - 1 {
      CountPositive(s[..|s| - 1], f, i);
    }
  }

  lemma {:induction false} CountSame<T>(s: seq<T>, t: seq<T>, f: T -> bool)
    requires |s| == |t| && forall i :: 0 <= i < |s| ==> f(s[i]) == f(t[i])
    ensures Count(s, f) == Count(t, f)
  {
    if s != [] {
      CountSame(s[..|s| - 1], t[..|t| - 1], f);
    }
  }

  lemma {:induction false} CountFewer<T>(s: seq<T>, t: seq<T>, f: T -> bool)
    requires |s| == |t| && forall i :: 0 <= i < |s| ==> (f(t[i]) ==> f(s[i]))
    ensures Count(t, f) <= Count(s, f)
  {
    if s != [] {
      CountFewer(s[..|s| - 1], t[..|t| - 1], f);
    }
  }

  lemma {:induction false} CountNone<T>(s: seq<T>, f: T -> bool)
    requires forall i :: 0 <= i < |s| ==> !f(s[i])
    ensures Count(s, f) == 0
  {
    if s != [] {
      CountNone(s[..|s| - 1], f);
    }
  }
}
