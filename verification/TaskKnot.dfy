// The slot-wait check (runtime/src/task_pool.cpp): before a process suspends on a ticket,
// repeatedly strike out the full pools that still have a way out and see whether the
// target survives.
module TaskKnot {
  import opened Common
  import opened Counting
  import opened TaskPool

  // The processes of a pool that hold a frame, and those that await one.
  predicate Awaited(p: Pool, process: nat) {
    exists i :: 0 <= i < |p.tickets| && p.tickets[i].Awaits(process)
  }

  predicate Full(p: Pool) {
    p.frames >= p.desc.maxInstances && p.grants == 0
  }

  function FirstAwaited(pools: seq<Pool>, i: nat, process: nat): (r: Option<nat>)
    requires i <= |pools|
    ensures r.Some? ==> i <= r.value < |pools| && Awaited(pools[r.value], process)
    ensures r.None? ==> forall j :: i <= j < |pools| ==> !Awaited(pools[j], process)
    decreases |pools| - i
  {
    if i == |pools| then None
    else if Awaited(pools[i], process) then Some(i)
    else FirstAwaited(pools, i + 1, process)
  }

  // The pool a process waits for, once the prospective waiter is counted as waiting;
  // process 0 stands for a frame without a process.
  function WaitsOn(pools: seq<Pool>, target: nat, prospective: nat, process: nat): (r: Option<nat>)
    requires target < |pools|
    ensures r.Some? ==> r.value < |pools|
  {
    if process == prospective then Some(target)
    else if process == 0 then None
    else FirstAwaited(pools, 0, process)
  }

  // Every frame holder of pool `i` waits on a pool of the set.
  ghost predicate Shut(pools: seq<Pool>, target: nat, prospective: nat, i: nat, inside: set<nat>)
    requires target < |pools| && i < |pools|
  {
    forall k :: 0 <= k < |pools[i].tasks| && pools[i].tasks[k].Active() ==>
      var d := WaitsOn(pools, target, prospective, pools[i].tasks[k].execution); d.Some? && d.value in inside
  }

  // A closed knot: full pools without grants, each of whose frame holders waits on a
  // pool of the same set.
  ghost predicate Knot(pools: seq<Pool>, target: nat, prospective: nat, s: set<nat>)
    requires target < |pools|
  {
    forall i :: i in s ==> i < |pools| && Full(pools[i]) && Shut(pools, target, prospective, i, s)
  }

  datatype Verdict = Fine | TaskSlotDeadlock | AlreadyWaiting | TargetAbsent

  function IsTrue(b: bool): bool { b }

  function Survivors(blocked: seq<bool>): set<nat> {
    set i: nat | i < |blocked| && blocked[i]
  }

  // Some frame holder of pool `i` waits on nothing, or on a pool that is not blocked.
  method HasEscape(pools: seq<Pool>, target: nat, prospective: nat, i: nat, blocked: seq<bool>) returns (escape: bool)
    requires target < |pools| == |blocked| && i < |pools|
    ensures escape <==> !Shut(pools, target, prospective, i, Survivors(blocked))
  {
    for k := 0 to |pools[i].tasks|
      invariant forall m :: 0 <= m < k && pools[i].tasks[m].Active() ==>
                  var d := WaitsOn(pools, target, prospective, pools[i].tasks[m].execution); d.Some? && blocked[d.value]
    {
      if pools[i].tasks[k].Active() {
        var d := WaitsOn(pools, target, prospective, pools[i].tasks[k].execution);
        if d.None? || !blocked[d.value] {
          return true;
        }
      }
    }
    return false;
  }

  // No member of a knot is ever struck out.
  ghost predicate CoversKnots(pools: seq<Pool>, target: nat, prospective: nat, blocked: seq<bool>)
    requires target < |pools| == |blocked|
  {
    forall s, i :: Knot(pools, target, prospective, s) && i in s ==> i < |blocked| && blocked[i]
  }

  lemma ShutMore(pools: seq<Pool>, target: nat, prospective: nat, i: nat, s: set<nat>, t: set<nat>)
    requires target < |pools| && i < |pools| && s <= t && Shut(pools, target, prospective, i, s)
    ensures Shut(pools, target, prospective, i, t)
  {
  }

  lemma StrikeKeepsKnots(pools: seq<Pool>, target: nat, prospective: nat, blocked: seq<bool>, i: nat)
    requires target < |pools| == |blocked| && i < |pools| && CoversKnots(pools, target, prospective, blocked)
    requires !Shut(pools, target, prospective, i, Survivors(blocked))
    ensures CoversKnots(pools, target, prospective, blocked[i := false])
  {
    forall s, j | Knot(pools, target, prospective, s) && j in s ensures j < |blocked| && blocked[i := false][j] {
      assert s <= Survivors(blocked);
      ShutMore(pools, target, prospective, j, s, Survivors(blocked));
    }
  }

  // One pass over all pools.
  method Pass(pools: seq<Pool>, target: nat, prospective: nat, blocked: array<bool>) returns (changed: bool)
    requires target < |pools| == blocked.Length && CoversKnots(pools, target, prospective, blocked[..])
    modifies blocked
    ensures CoversKnots(pools, target, prospective, blocked[..])
    ensures forall i :: 0 <= i < |pools| ==> (blocked[i] ==> old(blocked[i]))
    ensures changed ==> Count(blocked[..], IsTrue) < Count(old(blocked[..]), IsTrue)
    ensures !changed ==> blocked[..] == old(blocked[..])
    ensures !changed ==> forall i :: 0 <= i < |pools| && blocked[i] ==>
              Shut(pools, target, prospective, i, Survivors(blocked[..]))
  {
    changed := false;
    for i := 0 to |pools|
      invariant CoversKnots(pools, target, prospective, blocked[..])
      invariant forall j :: 0 <= j < |pools| ==> (blocked[j] ==> old(blocked[j]))
      invariant changed ==> Count(blocked[..], IsTrue) < Count(old(blocked[..]), IsTrue)
      invariant !changed ==> blocked[..] == old(blocked[..])
      invariant !changed ==> forall k :: 0 <= k < i && blocked[k] ==>
                  Shut(pools, target, prospective, k, Survivors(blocked[..]))
    {
      if blocked[i] {
        var escape := HasEscape(pools, target, prospective, i, blocked[..]);
        if escape {
          ghost var was := blocked[..];
          StrikeKeepsKnots(pools, target, prospective, was, i);
          CountUpdate(was, IsTrue, i, false);
          blocked[i] := false;
          assert blocked[..] == was[i := false];
          changed := true;
        }
      }
    }
  }

  // When nothing can be struck out any more, the survivors are themselves a knot.
  lemma SurvivorsKnot(pools: seq<Pool>, target: nat, prospective: nat, blocked: seq<bool>)
    requires target < |pools| == |blocked|
    requires forall i :: 0 <= i < |pools| && blocked[i] ==> Full(pools[i])
    requires forall i :: 0 <= i < |pools| && blocked[i] ==>
               Shut(pools, target, prospective, i, Survivors(blocked))
    ensures Knot(pools, target, prospective, Survivors(blocked))
  {
  }

  lemma NoneLeft(blocked: seq<bool>)
    requires Count(blocked, IsTrue) == 0
    ensures forall i :: 0 <= i < |blocked| ==> !blocked[i]
  {
    forall i | 0 <= i < |blocked| ensures !blocked[i] {
      if blocked[i] {
        CountPositive(blocked, IsTrue, i);
      }
    }
  }

  // The check reports a deadlock exactly when some closed knot contains the target. As
  // many passes as there are pools always suffice.
  method Check(pools: seq<Pool>, target: nat, prospective: nat) returns (v: Verdict)
    ensures v.TargetAbsent? <==> target >= |pools|
    ensures v.AlreadyWaiting? <==> target < |pools| && exists i :: 0 <= i < |pools| && Awaited(pools[i], prospective)
    ensures !v.TargetAbsent? && !v.AlreadyWaiting? ==>
              (v.TaskSlotDeadlock? <==> exists s :: Knot(pools, target, prospective, s) && target in s)
  {
    if target >= |pools| {
      return TargetAbsent;
    }
    for i := 0 to |pools|
      invariant forall j :: 0 <= j < i ==> !Awaited(pools[j], prospective)
    {
      if Awaited(pools[i], prospective) {
        return AlreadyWaiting;
      }
    }
    var blocked := new bool[|pools|](i requires 0 <= i < |pools| => Full(pools[i]));
    assert CoversKnots(pools, target, prospective, blocked[..]);
    var pass, changed := 0, true;
    while pass < |pools| && changed
      invariant pass <= |pools| && CoversKnots(pools, target, prospective, blocked[..])
      invariant forall i :: 0 <= i < |pools| && blocked[i] ==> Full(pools[i])
      invariant changed ==> Count(blocked[..], IsTrue) + pass <= |pools|
      invariant !changed ==> forall i :: 0 <= i < |pools| && blocked[i] ==>
                  Shut(pools, target, prospective, i, Survivors(blocked[..]))
      decreases |pools| - pass, changed
    {
      changed := Pass(pools, target, prospective, blocked);
      pass := pass + 1;
    }
    if changed {
      NoneLeft(blocked[..]);
    }
    SurvivorsKnot(pools, target, prospective, blocked[..]);
    if blocked[target] {
      assert target in Survivors(blocked[..]);
      return TaskSlotDeadlock;
    }
    return Fine;
  }
}
