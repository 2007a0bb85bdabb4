// Whole runs of the result registry, and chains of staged calls against direct ones.
module ResultRuns {
  import opened Common
  import opened Counting
  import opened ResultStore

  // --------------------------------------------------------------------------------
  // The invariant.

  // Active consumers of slot `i`.
  function For(i: nat): Consumer -> bool {
    (c: Consumer) => c.active && c.result.slot == i
  }

  // A slot is in use exactly when somebody needs it, and only then holds a value.
  ghost predicate SlotOK(s: Slot, next: nat) {
    (s.used <==> s.Needed()) && (s.value.Some? ==> s.used) && s.generation <= next
  }

  ghost predicate SlotsOK(r: Registry) {
    forall i :: 0 <= i < |r.slots| ==> SlotOK(r.slots[i], r.nextResult)
  }

  ghost predicate Counted(r: Registry) {
    forall i :: 0 <= i < |r.slots| ==> r.slots[i].consumers == Count(r.consumers, For(i))
  }

  ghost predicate LinkOK(r: Registry, c: Consumer) {
    c.result.slot < |r.slots| && r.slots[c.result.slot].used && c.result == Name(r, c.result.slot)
  }

  ghost predicate Linked(r: Registry) {
    forall k :: 0 <= k < |r.consumers| ==> r.consumers[k].generation <= r.nextConsumer && (r.consumers[k].active ==> LinkOK(r, r.consumers[k]))
  }

  ghost predicate PinsOK(r: Registry) {
    && (forall i :: 0 <= i < |r.slots| ==> r.slots[i].pins == r.guards[i])
    && (forall x :: x in r.guards ==> x < |r.slots|)
    && r.pinCount == |r.guards| && r.pinCount <= r.pinLimit
  }

  ghost predicate Inv(r: Registry) {
    SlotsOK(r) && Counted(r) && Linked(r) && PinsOK(r)
  }

  lemma InitInv(domain: nat, store: nat, results: nat, consumers: nat, pins: nat)
    ensures Inv(NewRegistry(domain, store, results, consumers, pins))
  {
    var r := NewRegistry(domain, store, results, consumers, pins);
    forall i | 0 <= i < |r.slots| ensures Count(r.consumers, For(i)) == 0 {
      CountNone(r.consumers, For(i));
    }
  }

  // --------------------------------------------------------------------------------
  // Changes to one slot.

  ghost predicate OnlySlot(r: Registry, t: Registry, i: nat) {
    && i < |r.slots| && i < |t.slots| && t.slots == r.slots[i := t.slots[i]]
    && t.domain == r.domain && t.store == r.store && r.nextResult <= t.nextResult
  }

  lemma SlotStays(r: Registry, t: Registry, i: nat)
    requires SlotsOK(r) && OnlySlot(r, t, i) && SlotOK(t.slots[i], t.nextResult)
    ensures SlotsOK(t)
  {
    forall j | 0 <= j < |t.slots| ensures SlotOK(t.slots[j], t.nextResult) {
      assert j != i ==> SlotOK(r.slots[j], r.nextResult);
    }
  }

  // Consumers keep their result as long as the slot keeps its name and they are counted.
  lemma LinksStay(r: Registry, t: Registry, i: nat)
    requires Counted(r) && Linked(r) && OnlySlot(r, t, i) && t.consumers == r.consumers && t.nextConsumer == r.nextConsumer
    requires t.slots[i].generation == r.slots[i].generation && t.slots[i].owner == r.slots[i].owner
    requires r.slots[i].consumers > 0 ==> t.slots[i].used
    ensures Linked(t)
  {
    forall k | 0 <= k < |t.consumers| && t.consumers[k].active ensures LinkOK(t, t.consumers[k]) {
      assert LinkOK(r, r.consumers[k]);
      if r.consumers[k].result.slot == i {
        CountPositive(r.consumers, For(i), k);
      }
    }
  }

  lemma TouchInv(r: Registry, t: Registry, i: nat)
    requires Inv(r) && OnlySlot(r, t, i) && SlotOK(t.slots[i], t.nextResult)
    requires t.slots[i].generation == r.slots[i].generation && t.slots[i].owner == r.slots[i].owner
    requires t.slots[i].consumers == r.slots[i].consumers && t.slots[i].pins == r.slots[i].pins
    requires t.consumers == r.consumers && t.nextConsumer == r.nextConsumer
    requires t.guards == r.guards && t.pinCount == r.pinCount && t.pinLimit == r.pinLimit
    ensures Inv(t)
  {
    SlotStays(r, t, i);
    LinksStay(r, t, i);
  }

  // --------------------------------------------------------------------------------
  // Consumers come and go.

  lemma CountsMove(r: Registry, t: Registry, k: nat, i: nat)
    requires Counted(r) && OnlySlot(r, t, i) && k < |r.consumers| && k < |t.consumers| && t.consumers == r.consumers[k := t.consumers[k]]
    requires || (!r.consumers[k].active && t.consumers[k].active && t.consumers[k].result.slot == i && t.slots[i].consumers == r.slots[i].consumers + 1)
             || (r.consumers[k].active && !t.consumers[k].active && r.consumers[k].result.slot == i && t.slots[i].consumers + 1 == r.slots[i].consumers)
    ensures Counted(t)
  {
    forall j | 0 <= j < |t.slots| ensures t.slots[j].consumers == Count(t.consumers, For(j)) {
      CountUpdate(r.consumers, For(j), k, t.consumers[k]);
    }
  }

  lemma AddedInv(r: Registry, k: nat, h: Handle, owner: nat)
    requires Inv(r) && FindResult(r, h).Ok? && k < |r.consumers| && !r.consumers[k].active
    ensures Inv(Added(r, k, h, owner))
  {
    var t, i := Added(r, k, h, owner), h.slot;
    assert SlotOK(r.slots[i], r.nextResult);
    CountsMove(r, t, k, i);
    SlotStays(r, t, i);
    forall m | 0 <= m < |t.consumers| && t.consumers[m].active ensures LinkOK(t, t.consumers[m]) {
      assert m != k ==> LinkOK(r, r.consumers[m]);
    }
  }

  lemma AddInv(r: Registry, h: Handle, owner: nat)
    requires Inv(r) && FindResult(r, h).Ok?
    ensures Inv(Add(r, h, owner).0)
  {
    var k := FreeConsumer(r, 0);
    if k.Some? {
      AddedInv(r, k.value, h, owner);
    }
  }

  // A consumer that may be released is counted.
  lemma ConsumerCounted(r: Registry, c: Cap)
    requires Inv(r) && FindConsumer(r, c).Ok?
    ensures r.slots[c.result.slot].consumers > 0
  {
    CountPositive(r.consumers, For(c.result.slot), FindConsumer(r, c).value);
  }

  lemma DroppedInv(r: Registry, k: nat, i: nat)
    requires Inv(r) && k < |r.consumers| && r.consumers[k].active && r.consumers[k].result.slot == i && i < |r.slots| && r.slots[i].consumers > 0
    ensures Inv(Dropped(r, k, i))
  {
    var t := Dropped(r, k, i);
    assert SlotOK(r.slots[i], r.nextResult);
    CountsMove(r, t, k, i);
    SlotStays(r, t, i);
    forall m | 0 <= m < |t.consumers| && t.consumers[m].active ensures LinkOK(t, t.consumers[m]) {
      assert LinkOK(r, r.consumers[m]);
      if r.consumers[m].result.slot == i {
        CountPositive(t.consumers, For(i), m);
      }
    }
  }

  lemma OpenedInv(r: Registry, i: nat, source: Handle, maxBytes: nat, owner: nat)
    requires Inv(r) && i < |r.slots| && !r.slots[i].used
    ensures Inv(Opened(r, i, source, maxBytes, owner))
  {
    var t := Opened(r, i, source, maxBytes, owner);
    assert SlotOK(r.slots[i], r.nextResult);
    SlotStays(r, t, i);
    forall k | 0 <= k < |t.consumers| && t.consumers[k].active ensures LinkOK(t, t.consumers[k]) {
      assert LinkOK(r, r.consumers[k]);
    }
  }

  lemma ReserveInv(r: Registry, source: Handle, maxBytes: nat, p: nat, c: nat)
    requires Inv(r)
    ensures Inv(Reserve(r, source, maxBytes, p, c).0)
  {
    var found := FreeSlot(r, 0);
    if found.Some? {
      var i := found.value;
      var r1 := Opened(r, i, source, maxBytes, p);
      assert SlotOK(r.slots[i], r.nextResult);
      OpenedInv(r, i, source, maxBytes, p);
      AddInv(r1, Name(r1, i), c);
      if FreeConsumer(r1, 0).None? {
        TouchInv(r1, Withdrawn(r1, i), i);
      }
    }
  }

  // --------------------------------------------------------------------------------
  // The other calls.

  lemma PublishInv(r: Registry, h: Handle, v: Payload, source: Handle, ready: ReadyKey, ok: bool)
    requires Inv(r)
    ensures Inv(Publish(r, h, v, source, ready, ok).0)
  {
    if Publish(r, h, v, source, ready, ok).1.Ok? {
      assert SlotOK(r.slots[h.slot], r.nextResult);
      TouchInv(r, Publish(r, h, v, source, ready, ok).0, h.slot);
    }
  }

  lemma ReleaseInv(r: Registry, c: Cap)
    requires Inv(r)
    ensures Inv(Release(r, c).0)
    ensures FindConsumer(r, c).Ok? ==> Release(r, c).1.Ok?
  {
    if FindConsumer(r, c).Ok? {
      ConsumerCounted(r, c);
      var t := Dropped(r, FindConsumer(r, c).value, c.result.slot);
      DroppedInv(r, FindConsumer(r, c).value, c.result.slot);
      VersionInv(t, t.(version := r.version + 1));
    }
  }

  lemma VersionInv(r: Registry, t: Registry)
    requires Inv(r) && t == r.(version := t.version)
    ensures Inv(t)
  {
    forall k | 0 <= k < |t.consumers| && t.consumers[k].active ensures LinkOK(t, t.consumers[k]) {
      assert LinkOK(r, r.consumers[k]);
    }
  }

  lemma ReleaseOwnerInv(r: Registry, h: Handle)
    requires Inv(r)
    ensures Inv(ReleaseOwner(r, h).0)
  {
    if ReleaseOwner(r, h).1.Ok? {
      assert SlotOK(r.slots[h.slot], r.nextResult);
      TouchInv(r, ReleaseOwner(r, h).0, h.slot);
    }
  }

  lemma PinInv(r: Registry, c: Cap)
    requires Inv(r)
    ensures Inv(Pin(r, c).0)
  {
    var t := Pin(r, c).0;
    if Pin(r, c).1.Ok? {
      var i := c.result.slot;
      assert SlotOK(r.slots[i], r.nextResult);
      SlotStays(r, t, i);
      LinksStay(r, t, i);
    }
  }

  lemma UnpinInv(r: Registry, i: nat)
    requires Inv(r)
    ensures Inv(Unpin(r, i))
    ensures i in r.guards ==> i < |r.slots| && Unpin(r, i).guards == r.guards - multiset{i}
  {
    if i in r.guards {
      var t := Unpin(r, i);
      assert SlotOK(r.slots[i], r.nextResult);
      assert r.guards[i] > 0;
      SlotStays(r, t, i);
      LinksStay(r, t, i);
    }
  }

  lemma RetainInv(r: Registry, c: Cap, owner: nat)
    requires Inv(r)
    ensures Inv(Retain(r, c, owner).0)
  {
    if FindConsumer(r, c).Ok? {
      AddInv(r, c.result, owner);
    }
  }

  lemma SubscribeInv(r: Registry, h: Handle, owner: nat)
    requires Inv(r)
    ensures Inv(Subscribe(r, h, owner).0)
  {
    if FindResult(r, h).Ok? {
      AddInv(r, h, owner);
    }
  }

  lemma AnnounceInv(r: Registry, h: Handle, v: Payload, source: Handle, ok: bool)
    requires Inv(r)
    ensures Inv(Announce(r, h, v, source, ok).0)
  {
    if Announce(r, h, v, source, ok).1.Ok? {
      assert SlotOK(r.slots[h.slot], r.nextResult);
      TouchInv(r, Announce(r, h, v, source, ok).0, h.slot);
    }
  }

  lemma WriteInv(r: Registry, h: Handle, v: Payload, ready: ReadyKey)
    requires Inv(r)
    ensures Inv(Write(r, h, v, ready))
  {
    if Write(r, h, v, ready) != r {
      assert SlotOK(r.slots[h.slot], r.nextResult);
      TouchInv(r, Write(r, h, v, ready), h.slot);
    }
  }

  lemma WithdrawInv(r: Registry, h: Handle)
    requires Inv(r)
    ensures Inv(Withdraw(r, h))
  {
    if Withdraw(r, h) != r {
      assert SlotOK(r.slots[h.slot], r.nextResult);
      TouchInv(r, Withdraw(r, h), h.slot);
    }
  }

  // --------------------------------------------------------------------------------
  // Runs.

  datatype Command =
    | DoReserve(source: Handle, maxBytes: nat, producer: nat, consumer: nat)
    | DoPublish(h: Handle, v: Payload, source: Handle, ready: ReadyKey, ok: bool)
    | DoRetain(c: Cap, owner: nat)
    | DoSubscribe(h: Handle, owner: nat)
    | DoRelease(c: Cap)
    | DoReleaseOwner(h: Handle)
    | DoPin(c: Cap)
    | DoUnpin(i: nat)
    | DoAnnounce(h: Handle, v: Payload, source: Handle, ok: bool)
    | DoWrite(h: Handle, v: Payload, ready: ReadyKey)
    | DoWithdraw(h: Handle)

  function Step(r: Registry, c: Command): Registry {
    match c
    case DoReserve(source, maxBytes, p, k) => Reserve(r, source, maxBytes, p, k).0
    case DoPublish(h, v, source, ready, ok) => Publish(r, h, v, source, ready, ok).0
    case DoRetain(k, owner) => Retain(r, k, owner).0
    case DoSubscribe(h, owner) => Subscribe(r, h, owner).0
    case DoRelease(k) => Release(r, k).0
    case DoReleaseOwner(h) => ReleaseOwner(r, h).0
    case DoPin(k) => Pin(r, k).0
    case DoUnpin(i) => Unpin(r, i)
    case DoAnnounce(h, v, source, ok) => Announce(r, h, v, source, ok).0
    case DoWrite(h, v, ready) => Write(r, h, v, ready)
    case DoWithdraw(h) => Withdraw(r, h)
  }

  lemma UseInv(r: Registry, c: Command)
    requires Inv(r) && (c.DoReserve? || c.DoRetain? || c.DoSubscribe? || c.DoRelease? || c.DoReleaseOwner?)
    ensures Inv(Step(r, c))
  {
    match c
    case DoReserve(source, maxBytes, p, k) => ReserveInv(r, source, maxBytes, p, k);
    case DoRetain(k, owner) => RetainInv(r, k, owner);
    case DoSubscribe(h, owner) => SubscribeInv(r, h, owner);
    case DoRelease(k) => ReleaseInv(r, k);
    case DoReleaseOwner(h) => ReleaseOwnerInv(r, h);
  }

  lemma ValueInv(r: Registry, c: Command)
    requires Inv(r) && !(c.DoReserve? || c.DoRetain? || c.DoSubscribe? || c.DoRelease? || c.DoReleaseOwner?)
    ensures Inv(Step(r, c))
  {
    match c
    case DoPublish(h, v, source, ready, ok) => PublishInv(r, h, v, source, ready, ok);
    case DoPin(k) => PinInv(r, k);
    case DoUnpin(i) => UnpinInv(r, i);
    case DoAnnounce(h, v, source, ok) => AnnounceInv(r, h, v, source, ok);
    case DoWrite(h, v, ready) => WriteInv(r, h, v, ready);
    case DoWithdraw(h) => WithdrawInv(r, h);
  }

  lemma StepInv(r: Registry, c: Command)
    requires Inv(r)
    ensures Inv(Step(r, c))
  {
    if c.DoReserve? || c.DoRetain? || c.DoSubscribe? || c.DoRelease? || c.DoReleaseOwner? {
      UseInv(r, c);
    } else {
      ValueInv(r, c);
    }
  }

  function Run(r: Registry, cs: seq<Command>): Registry
    decreases |cs|
  {
    if cs == [] then r else Run(Step(r, cs[0]), cs[1..])
  }

  // --------------------------------------------------------------------------------
  // Written once.

  // The slot still bears the same name, or has been given away under a newer one, or is free.
  ghost predicate Continues(s: Slot, t: Slot, next: nat) {
    && (t.used ==> (s.used && t.generation == s.generation && t.owner == s.owner) || t.generation > next)
    && (t.used && t.generation == s.generation && s.value.Some? ==> t.value == s.value)
    && s.generation <= t.generation
  }

  ghost predicate AllContinue(r: Registry, t: Registry) {
    && |t.slots| == |r.slots| && t.domain == r.domain && t.store == r.store && r.nextResult <= t.nextResult
    && forall i :: 0 <= i < |r.slots| ==> Continues(r.slots[i], t.slots[i], r.nextResult)
  }

  lemma ReserveContinues(r: Registry, source: Handle, maxBytes: nat, p: nat, c: nat)
    requires SlotsOK(r)
    ensures AllContinue(r, Reserve(r, source, maxBytes, p, c).0)
  {
    forall i | 0 <= i < |r.slots| ensures SlotOK(r.slots[i], r.nextResult) {
    }
  }

  lemma AddContinues(r: Registry, h: Handle, owner: nat)
    requires SlotsOK(r) && h.slot < |r.slots|
    ensures AllContinue(r, Add(r, h, owner).0)
  {
  }

  lemma SlotContinues(r: Registry, t: Registry, i: nat)
    requires OnlySlot(r, t, i) && Continues(r.slots[i], t.slots[i], r.nextResult)
    ensures AllContinue(r, t)
  {
  }

  lemma StepContinues(r: Registry, c: Command)
    requires SlotsOK(r)
    ensures AllContinue(r, Step(r, c))
  {
    match c
    case DoReserve(source, maxBytes, p, k) => ReserveContinues(r, source, maxBytes, p, k);
    case DoRetain(k, owner) =>
      if FindConsumer(r, k).Ok? {
        AddContinues(r, k.result, owner);
      }
    case DoSubscribe(h, owner) =>
      if FindResult(r, h).Ok? {
        AddContinues(r, h, owner);
      }
    case DoRelease(_) => UseContinues(r, c);
    case DoReleaseOwner(_) => UseContinues(r, c);
    case DoPin(_) => UseContinues(r, c);
    case DoUnpin(_) => UseContinues(r, c);
    case DoPublish(_, _, _, _, _) => PublishContinues(r, c);
    case DoAnnounce(_, _, _, _) => PublishContinues(r, c);
    case DoWrite(_, _, _) => PublishContinues(r, c);
    case DoWithdraw(_) => PublishContinues(r, c);
  }

  lemma PublishContinues(r: Registry, c: Command)
    requires c.DoPublish? || c.DoAnnounce? || c.DoWrite? || c.DoWithdraw?
    ensures AllContinue(r, Step(r, c))
  {
    var t := Step(r, c);
    if t != r {
      SlotContinues(r, t, c.h.slot);
    }
  }

  lemma UseContinues(r: Registry, c: Command)
    requires c.DoRelease? || c.DoReleaseOwner? || c.DoPin? || c.DoUnpin?
    ensures AllContinue(r, Step(r, c))
  {
    var t := Step(r, c);
    if t != r {
      SlotContinues(r, t, match c case DoRelease(k) => k.result.slot case DoReleaseOwner(h) => h.slot case DoPin(k) => k.result.slot case DoUnpin(j) => j);
    }
  }

  lemma {:induction false} NameStays(r: Registry, cs: seq<Command>, h: Handle)
    requires Inv(r) && h.slot < |r.slots| && h.generation <= r.nextResult && FindResult(Run(r, cs), h).Ok?
    ensures FindResult(r, h).Ok?
    decreases |cs|
  {
    if cs != [] {
      StepInv(r, cs[0]);
      StepContinues(r, cs[0]);
      NameStays(Step(r, cs[0]), cs[1..], h);
    }
  }

  // A result is written at most once: whatever happens, as long as its name is valid its
  // value never changes again.
  lemma {:induction false} WrittenOnce(r: Registry, cs: seq<Command>, h: Handle)
    requires Inv(r) && FindResult(r, h).Ok? && r.slots[h.slot].value.Some? && FindResult(Run(r, cs), h).Ok?
    ensures Run(r, cs).slots[h.slot].value == r.slots[h.slot].value
    decreases |cs|
  {
    if cs != [] {
      StepInv(r, cs[0]);
      StepContinues(r, cs[0]);
      assert SlotOK(r.slots[h.slot], r.nextResult);
      NameStays(Step(r, cs[0]), cs[1..], h);
      WrittenOnce(Step(r, cs[0]), cs[1..], h);
    }
  }

  lemma {:induction false} RunInv(r: Registry, cs: seq<Command>)
    requires Inv(r)
    ensures Inv(Run(r, cs))
    decreases |cs|
  {
    if cs != [] {
      StepInv(r, cs[0]);
      RunInv(Step(r, cs[0]), cs[1..]);
    }
  }

  // Every run: the consumer count of a slot is the number of its active consumers, the pin
  // count the number of its live views, and the slot is in use exactly as long as it has a
  // producer, a consumer, a pin or an announced publication.
  lemma ReferencesCounted(domain: nat, store: nat, results: nat, consumers: nat, pins: nat, cs: seq<Command>)
    ensures var r := Run(NewRegistry(domain, store, results, consumers, pins), cs);
            forall i :: 0 <= i < |r.slots| ==>
              && r.slots[i].consumers == Count(r.consumers, For(i)) && r.slots[i].pins == r.guards[i]
              && (r.slots[i].used <==> r.slots[i].Needed())
  {
    InitInv(domain, store, results, consumers, pins);
    RunInv(NewRegistry(domain, store, results, consumers, pins), cs);
    var r := Run(NewRegistry(domain, store, results, consumers, pins), cs);
    forall i | 0 <= i < |r.slots| ensures r.slots[i].used <==> r.slots[i].Needed() {
      assert SlotOK(r.slots[i], r.nextResult);
    }
  }

  // --------------------------------------------------------------------------------
  // Staged calls.

  // A transaction works on a copy of the registry; only the generation counters are shared.
  datatype Prepared =
    | PrepareReserve(source: Handle, maxBytes: nat, producer: nat, consumer: nat)
    | PreparePublish(h: Handle, v: Payload, source: Handle, ready: ReadyKey, ok: bool)
    | PrepareRetain(c: Cap, owner: nat)
    | PrepareRelease(c: Cap)
    | PrepareTransfer(c: Cap, owner: nat)
    | PrepareReleaseOwner(h: Handle)

  // The copy after one staged call, if the call is accepted.
  function Stage(p: Registry, c: Prepared): Option<Registry> {
    match c
    case PrepareReserve(source, maxBytes, w, k) =>
      var (t, r) := Reserve(p, source, maxBytes, w, k);
      if r.Ok? then Some(t) else None
    case PreparePublish(h, v, source, ready, ok) =>
      var (t, r) := Publish(p, h, v, source, ready, ok);
      if r.Ok? then Some(t) else None
    case PrepareRetain(k, owner) =>
      if FindConsumer(p, k).Err? then None
      else
        var (t, r) := Add(p, k.result, owner);
        if r.Ok? then Some(t) else None
    case PrepareRelease(k) =>
      if FindConsumer(p, k).Err? || p.slots[k.result.slot].consumers == 0 then None
      else Some(Dropped(p, FindConsumer(p, k).value, k.result.slot))
    case PrepareTransfer(k, owner) =>
      if FindConsumer(p, k).Err? then None
      else
        var (t, r) := Add(p, k.result, owner);
        if r.Err? then None else Some(HandOver(t, FindConsumer(p, k).value, k.result.slot))
    case PrepareReleaseOwner(h) =>
      var (t, r) := ReleaseOwner(p, h);
      if r.Ok? then Some(t) else None
  }

  // The old consumer leaves without a look at whether the slot is still needed.
  function HandOver(r: Registry, k: nat, i: nat): Registry {
    if k < |r.consumers| && i < |r.slots| && r.slots[i].consumers > 0 then
      SetSlot(r, i, r.slots[i].(consumers := r.slots[i].consumers - 1)).(consumers := r.consumers[k := r.consumers[k].(active := false)])
    else r
  }

  // The direct calls that a staged call stands for.
  function Direct(c: Prepared): seq<Command> {
    match c
    case PrepareReserve(source, maxBytes, w, k) => [DoReserve(source, maxBytes, w, k)]
    case PreparePublish(h, v, source, ready, ok) => [DoPublish(h, v, source, ready, ok)]
    case PrepareRetain(k, owner) => [DoRetain(k, owner)]
    case PrepareRelease(k) => [DoRelease(k)]
    case PrepareTransfer(k, owner) => [DoRetain(k, owner), DoRelease(k)]
    case PrepareReleaseOwner(h) => [DoReleaseOwner(h)]
  }

  // The result generation that a refused reservation may have used up.
  function Spent(p: Registry, c: Prepared): nat {
    match c
    case PrepareReserve(source, maxBytes, w, k) => Reserve(p, source, maxBytes, w, k).0.nextResult
    case _ => p.nextResult
  }

  // A refused call is rolled back: the copy is as before, but generations are not given back.
  function Staged(p: Registry, c: Prepared): Registry {
    match Stage(p, c)
    case Some(q) => q
    case None => p.(nextResult := Spent(p, c))
  }

  function StageAll(p: Registry, cs: seq<Prepared>): Registry
    decreases |cs|
  {
    if cs == [] then p else StageAll(Staged(p, cs[0]), cs[1..])
  }

  // What the chain comes to on the registry itself: the accepted calls made directly, with
  // the generations of refused ones skipped.
  datatype Item = Calls(cs: seq<Command>) | Skip(next: nat)

  function ItemOf(p: Registry, c: Prepared): Item {
    if Stage(p, c).Some? then Calls(Direct(c)) else Skip(Spent(p, c))
  }

  function Items(p: Registry, cs: seq<Prepared>): seq<Item>
    decreases |cs|
  {
    if cs == [] then [] else [ItemOf(p, cs[0])] + Items(Staged(p, cs[0]), cs[1..])
  }

  function DoItem(r: Registry, x: Item): Registry {
    match x
    case Calls(cs) => Run(r, cs)
    case Skip(next) => r.(nextResult := next)
  }

  function DoItems(r: Registry, xs: seq<Item>): Registry
    decreases |xs|
  {
    if xs == [] then r else DoItems(DoItem(r, xs[0]), xs[1..])
  }

  // Equal but for the version counter.
  ghost predicate Same(r: Registry, t: Registry) {
    t == r.(version := t.version)
  }

  lemma {:induction false} RunConcat(r: Registry, a: seq<Command>, b: seq<Command>)
    ensures Run(r, a + b) == Run(Run(r, a), b)
    decreases |a|
  {
    if a == [] {
      assert a + b == b;
    } else {
      assert (a + b)[1..] == a[1..] + b;
      RunConcat(Step(r, a[0]), a[1..], b);
    }
  }

  lemma RunOne(r: Registry, c: Command)
    ensures Run(r, [c]) == Step(r, c)
  {
    assert [c][1..] == [];
    assert Run(Step(r, c), []) == Step(r, c);
  }

  lemma RunTwo(r: Registry, c: Command, d: Command)
    ensures Run(r, [c, d]) == Step(Step(r, c), d)
  {
    assert [c, d] == [c] + [d];
    RunConcat(r, [c], [d]);
    RunOne(r, c);
    RunOne(Step(r, c), d);
  }

  lemma {:induction false} FreeConsumerSame(r: Registry, t: Registry, i: nat)
    requires Same(r, t) && i <= |r.consumers|
    ensures FreeConsumer(t, i) == FreeConsumer(r, i)
    decreases |r.consumers| - i
  {
    if i < |r.consumers| {
      FreeConsumerSame(r, t, i + 1);
    }
  }

  lemma {:induction false} FreeSlotSame(r: Registry, t: Registry, i: nat)
    requires Same(r, t) && i <= |r.slots|
    ensures FreeSlot(t, i) == FreeSlot(r, i)
    decreases |r.slots| - i
  {
    if i < |r.slots| {
      FreeSlotSame(r, t, i + 1);
    }
  }

  lemma AddSame(r: Registry, t: Registry, h: Handle, owner: nat)
    requires Same(r, t) && h.slot < |r.slots|
    ensures Same(Add(r, h, owner).0, Add(t, h, owner).0) && Add(r, h, owner).1 == Add(t, h, owner).1
  {
    FreeConsumerSame(r, t, 0);
  }

  lemma ReserveSame(r: Registry, t: Registry, source: Handle, maxBytes: nat, w: nat, k: nat)
    requires Same(r, t)
    ensures Same(Reserve(r, source, maxBytes, w, k).0, Reserve(t, source, maxBytes, w, k).0)
  {
    FreeSlotSame(r, t, 0);
    var i := FreeSlot(r, 0);
    if i.Some? {
      var r1, t1 := Opened(r, i.value, source, maxBytes, w), Opened(t, i.value, source, maxBytes, w);
      AddSame(r1, t1, Name(r1, i.value), k);
    }
  }

  // A transfer is a retain followed by a release: the new consumer keeps the slot alive.
  lemma TransferSame(r: Registry, t: Registry, c: Cap, owner: nat)
    requires Inv(r) && Same(r, t) && Stage(t, PrepareTransfer(c, owner)).Some?
    ensures Same(Release(Retain(r, c, owner).0, c).0, Stage(t, PrepareTransfer(c, owner)).value)
  {
    AddSame(r, t, c.result, owner);
    ConsumerCounted(r, c);
    assert SlotOK(r.slots[c.result.slot], r.nextResult);
    var r1 := Retain(r, c, owner).0;
    assert FindConsumer(r, c).value != FreeConsumer(r, 0).value;
    assert FindConsumer(r1, c) == FindConsumer(r, c);
  }

  lemma StageReserveSame(r: Registry, p: Registry, source: Handle, maxBytes: nat, w: nat, k: nat)
    requires Same(r, p)
    ensures Same(Run(r, [DoReserve(source, maxBytes, w, k)]), Reserve(p, source, maxBytes, w, k).0)
  {
    RunOne(r, DoReserve(source, maxBytes, w, k));
    ReserveSame(r, p, source, maxBytes, w, k);
  }

  lemma StageRetainSame(r: Registry, p: Registry, k: Cap, owner: nat)
    requires Same(r, p) && Stage(p, PrepareRetain(k, owner)).Some?
    ensures Same(Run(r, [DoRetain(k, owner)]), Stage(p, PrepareRetain(k, owner)).value)
  {
    RunOne(r, DoRetain(k, owner));
    AddSame(r, p, k.result, owner);
  }

  lemma StageReleaseSame(r: Registry, p: Registry, k: Cap)
    requires Same(r, p) && Stage(p, PrepareRelease(k)).Some?
    ensures Same(Run(r, [DoRelease(k)]), Stage(p, PrepareRelease(k)).value)
  {
    RunOne(r, DoRelease(k));
  }

  lemma StageOwnerSame(r: Registry, p: Registry, c: Prepared)
    requires Same(r, p) && (c.PreparePublish? || c.PrepareReleaseOwner?) && Stage(p, c).Some?
    ensures Same(Run(r, Direct(c)), Stage(p, c).value)
  {
    RunOne(r, Direct(c)[0]);
  }

  lemma StageTransferSame(r: Registry, p: Registry, k: Cap, owner: nat)
    requires Inv(r) && Same(r, p) && Stage(p, PrepareTransfer(k, owner)).Some?
    ensures Same(Run(r, [DoRetain(k, owner), DoRelease(k)]), Stage(p, PrepareTransfer(k, owner)).value)
  {
    TransferSame(r, p, k, owner);
    RunTwo(r, DoRetain(k, owner), DoRelease(k));
  }

  lemma StageSame(r: Registry, p: Registry, c: Prepared)
    requires Inv(r) && Same(r, p) && Stage(p, c).Some?
    ensures Same(Run(r, Direct(c)), Stage(p, c).value)
  {
    match c
    case PrepareTransfer(k, owner) => StageTransferSame(r, p, k, owner);
    case PrepareReserve(source, maxBytes, w, k) => StageReserveSame(r, p, source, maxBytes, w, k);
    case PrepareRetain(k, owner) => StageRetainSame(r, p, k, owner);
    case PrepareRelease(k) => StageReleaseSame(r, p, k);
    case PreparePublish(_, _, _, _, _) => StageOwnerSame(r, p, c);
    case PrepareReleaseOwner(_) => StageOwnerSame(r, p, c);
  }

  lemma SpentGrows(p: Registry, c: Prepared)
    ensures p.nextResult <= Spent(p, c)
  {
  }

  // Skipping generations does no harm.
  lemma SkipInv(r: Registry, t: Registry)
    requires Inv(r) && t == r.(nextResult := t.nextResult, nextConsumer := t.nextConsumer)
    requires r.nextResult <= t.nextResult && r.nextConsumer <= t.nextConsumer
    ensures Inv(t)
  {
    forall i | 0 <= i < |t.slots| ensures SlotOK(t.slots[i], t.nextResult) {
      assert SlotOK(r.slots[i], r.nextResult);
    }
    forall k | 0 <= k < |t.consumers| && t.consumers[k].active ensures LinkOK(t, t.consumers[k]) {
      assert LinkOK(r, r.consumers[k]);
    }
  }

  lemma ItemSame(r: Registry, p: Registry, c: Prepared)
    requires Inv(r) && Same(r, p)
    ensures Inv(DoItem(r, ItemOf(p, c))) && Same(DoItem(r, ItemOf(p, c)), Staged(p, c))
  {
    if Stage(p, c).Some? {
      StageSame(r, p, c);
      RunInv(r, Direct(c));
    } else {
      SpentGrows(p, c);
      SkipInv(r, r.(nextResult := Spent(p, c)));
    }
  }

  lemma {:induction false} ChainSame(r: Registry, p: Registry, cs: seq<Prepared>)
    requires Inv(r) && Same(r, p)
    ensures Same(DoItems(r, Items(p, cs)), StageAll(p, cs))
    decreases |cs|
  {
    if cs != [] {
      ItemSame(r, p, cs[0]);
      var xs := Items(p, cs);
      assert xs[0] == ItemOf(p, cs[0]) && xs[1..] == Items(Staged(p, cs[0]), cs[1..]);
      ChainSame(DoItem(r, xs[0]), Staged(p, cs[0]), cs[1..]);
    }
  }

  // Committing replaces slots and consumers by the copy's, if the registry has not moved
  // since the copy was taken; discarding only moves the counters on.
  function Commit(r: Registry, taken: nat, p: Registry): Option<Registry> {
    if r.version != taken || r.version >= MAX64 then None
    else Some(r.(slots := p.slots, consumers := p.consumers, nextResult := p.nextResult, nextConsumer := p.nextConsumer, version := r.version + 1))
  }

  function Discard(r: Registry, p: Registry): Registry {
    r.(nextResult := p.nextResult, nextConsumer := p.nextConsumer)
  }

  ghost predicate SamePins(p: Registry, q: Registry) {
    q.guards == p.guards && q.pinCount == p.pinCount && q.pinLimit == p.pinLimit && q.domain == p.domain && q.store == p.store
  }

  lemma StagePin(p: Registry, c: Prepared)
    ensures SamePins(p, Staged(p, c))
  {
  }

  lemma {:induction false} StagePins(p: Registry, cs: seq<Prepared>)
    ensures SamePins(p, StageAll(p, cs))
    decreases |cs|
  {
    if cs != [] {
      StagePin(p, cs[0]);
      StagePins(Staged(p, cs[0]), cs[1..]);
    }
  }

  // A committed chain of staged calls, some of them refused, leaves the registry as the
  // accepted calls made directly would, up to the version counter.
  lemma CommittedChain(r: Registry, cs: seq<Prepared>)
    requires Inv(r) && r.version < MAX64
    ensures var done := Commit(r, r.version, StageAll(r, cs));
            done.Some? && Same(DoItems(r, Items(r, cs)), done.value)
  {
    ChainSame(r, r, cs);
    StagePins(r, cs);
  }

  lemma GrownCounters(p: Registry, c: Prepared)
    ensures p.nextResult <= Staged(p, c).nextResult && p.nextConsumer <= Staged(p, c).nextConsumer
  {
  }

  lemma {:induction false} ChainCounters(p: Registry, cs: seq<Prepared>)
    ensures p.nextResult <= StageAll(p, cs).nextResult && p.nextConsumer <= StageAll(p, cs).nextConsumer
    decreases |cs|
  {
    if cs != [] {
      GrownCounters(p, cs[0]);
      ChainCounters(Staged(p, cs[0]), cs[1..]);
    }
  }

  lemma {:induction false} StageAllConcat(p: Registry, a: seq<Prepared>, b: seq<Prepared>)
    ensures StageAll(p, a + b) == StageAll(StageAll(p, a), b)
    decreases |a|
  {
    if a == [] {
      assert a + b == b;
    } else {
      assert (a + b)[1..] == a[1..] + b;
      StageAllConcat(Staged(p, a[0]), a[1..], b);
    }
  }

  // --------------------------------------------------------------------------------
  // Names from a discarded chain.

  // No result in use and no active consumer has a generation in the gaps.
  ghost predicate Gap(r: Registry, lo: nat, hi: nat, from: nat, to: nat) {
    && hi <= r.nextResult && to <= r.nextConsumer
    && (forall i :: 0 <= i < |r.slots| && r.slots[i].used ==> r.slots[i].generation <= lo || hi < r.slots[i].generation)
    && (forall k :: 0 <= k < |r.consumers| && r.consumers[k].active ==> r.consumers[k].generation <= from || to < r.consumers[k].generation)
  }

  lemma AddGap(r: Registry, h: Handle, owner: nat, lo: nat, hi: nat, from: nat, to: nat)
    requires Gap(r, lo, hi, from, to) && h.slot < |r.slots|
    ensures Gap(Add(r, h, owner).0, lo, hi, from, to)
  {
  }

  lemma ReserveGap(r: Registry, source: Handle, maxBytes: nat, w: nat, k: nat, lo: nat, hi: nat, from: nat, to: nat)
    requires Gap(r, lo, hi, from, to)
    ensures Gap(Reserve(r, source, maxBytes, w, k).0, lo, hi, from, to)
  {
    var i := FreeSlot(r, 0);
    if i.Some? {
      var r1 := Opened(r, i.value, source, maxBytes, w);
      AddGap(r1, Name(r1, i.value), k, lo, hi, from, to);
    }
  }

  lemma OtherGap(r: Registry, c: Command, lo: nat, hi: nat, from: nat, to: nat)
    requires Gap(r, lo, hi, from, to) && !c.DoReserve? && !c.DoRetain? && !c.DoSubscribe?
    ensures Gap(Step(r, c), lo, hi, from, to)
  {
  }

  lemma StepGap(r: Registry, c: Command, lo: nat, hi: nat, from: nat, to: nat)
    requires Gap(r, lo, hi, from, to)
    ensures Gap(Step(r, c), lo, hi, from, to)
  {
    if c.DoReserve? {
      ReserveGap(r, c.source, c.maxBytes, c.producer, c.consumer, lo, hi, from, to);
    } else if c.DoRetain? {
      if FindConsumer(r, c.c).Ok? {
        AddGap(r, c.c.result, c.owner, lo, hi, from, to);
      }
    } else if c.DoSubscribe? {
      if FindResult(r, c.h).Ok? {
        AddGap(r, c.h, c.owner, lo, hi, from, to);
      }
    } else {
      OtherGap(r, c, lo, hi, from, to);
    }
  }

  lemma {:induction false} RunGap(r: Registry, cs: seq<Command>, lo: nat, hi: nat, from: nat, to: nat)
    requires Gap(r, lo, hi, from, to)
    ensures Gap(Run(r, cs), lo, hi, from, to)
    decreases |cs|
  {
    if cs != [] {
      StepGap(r, cs[0], lo, hi, from, to);
      RunGap(Step(r, cs[0]), cs[1..], lo, hi, from, to);
    }
  }

  // A discarded chain burns generations and nothing else. The registry stays sound, and a
  // name that the chain reserved never means anything, whatever happens afterwards.
  lemma DiscardedChain(r: Registry, a: seq<Prepared>, c: Prepared, b: seq<Prepared>, later: seq<Command>)
    requires Inv(r) && c.PrepareReserve?
    ensures var p := StageAll(r, a);
            var t := Discard(r, StageAll(r, a + [c] + b));
            var made := Reserve(p, c.source, c.maxBytes, c.producer, c.consumer).1;
            && Inv(t) && r.nextResult <= t.nextResult && r.nextConsumer <= t.nextConsumer
            && (made.Ok? ==> FindResult(Run(t, later), made.value.result).Err? && FindConsumer(Run(t, later), made.value).Err?)
  {
    var p := StageAll(r, a);
    StageAllConcat(r, a + [c], b);
    StageAllConcat(r, a, [c]);
    assert [c][1..] == [];
    assert StageAll(p, [c]) == Staged(p, c);
    ChainCounters(r, a);
    ChainCounters(Staged(p, c), b);
    GrownCounters(p, c);
    var t := Discard(r, StageAll(r, a + [c] + b));
    SkipInv(r, t);
    StartGap(r, t);
    RunGap(t, later, r.nextResult, t.nextResult, r.nextConsumer, t.nextConsumer);
  }

  lemma StartGap(r: Registry, t: Registry)
    requires Inv(r) && t == r.(nextResult := t.nextResult, nextConsumer := t.nextConsumer)
    ensures Gap(t, r.nextResult, t.nextResult, r.nextConsumer, t.nextConsumer)
  {
    forall i | 0 <= i < |t.slots| && t.slots[i].used ensures t.slots[i].generation <= r.nextResult {
      assert SlotOK(r.slots[i], r.nextResult);
    }
  }
}
