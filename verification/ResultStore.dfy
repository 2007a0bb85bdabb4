// The result registry (runtime/src/result_store.cpp): slots with a producer, counted
// consumers and pins, published at most once, and freed when nobody is left.
module ResultStore {
  import opened Common

  datatype Payload = Payload(data: int, size: nat)

  datatype Slot = Slot(
    used: bool, producer: bool, publishing: bool, generation: nat, owner: nat, source: Handle, maxBytes: nat,
    value: Option<Payload>, ready: ReadyKey, consumers: nat, pins: nat) {

    // Somebody still needs the slot.
    predicate Needed() {
      producer || consumers > 0 || pins > 0 || publishing
    }
  }

  datatype Consumer = Consumer(active: bool, generation: nat, owner: nat, result: Handle)

  // `guards` holds the slot of each pinned view that is still alive.
  datatype Registry = Registry(
    domain: nat, store: nat, slots: seq<Slot>, consumers: seq<Consumer>, nextConsumer: nat, nextResult: nat,
    version: nat, pinLimit: nat, pinCount: nat, guards: multiset<nat>)

  // A consumer's capability: the result and its own token.
  datatype Cap = Cap(result: Handle, consumer: Handle)

  datatype Error =
    | WrongDomain | StaleHandle | WrongOwner | AlreadyReleased | Capacity | InvalidState | Duplicate | InvalidArgument | NotReady

  function NewRegistry(domain: nat, store: nat, results: nat, consumers: nat, pins: nat): Registry {
    var none := Handle(KTransaction, 0, 0, 0, 0, 0);
    Registry(domain, store,
             seq(results, _ => Slot(false, false, false, 0, 0, none, 0, None, ReadyKey(0, 0), 0, 0)),
             seq(consumers, _ => Consumer(false, 0, 0, none)), 0, 0, 0, pins, 0, multiset{})
  }

  // --------------------------------------------------------------------------------
  // Identity.

  function Name(r: Registry, i: nat): Handle
    requires i < |r.slots|
  {
    Handle(KResult, r.domain, r.store, i, r.slots[i].generation, r.slots[i].owner)
  }

  function FindResult(r: Registry, h: Handle): (o: Result<nat, Error>)
    ensures o.Ok? <==> h.slot < |r.slots| && r.slots[h.slot].used && h == Name(r, h.slot)
    ensures o.Ok? ==> o.value == h.slot
  {
    if h.domain != r.domain then Err(WrongDomain)
    else if !h.kind.KResult? || h.store != r.store || h.slot >= |r.slots| then Err(StaleHandle)
    else if !r.slots[h.slot].used || r.slots[h.slot].generation != h.generation then Err(StaleHandle)
    else if h.owner != r.slots[h.slot].owner then Err(WrongOwner)
    else Ok(h.slot)
  }

  function FindConsumer(r: Registry, c: Cap): (o: Result<nat, Error>)
    ensures o.Ok? ==> FindResult(r, c.result).Ok? && o.value < |r.consumers| && r.consumers[o.value].active
                      && r.consumers[o.value].result == c.result
  {
    if FindResult(r, c.result).Err? then Err(FindResult(r, c.result).error)
    else
      var h := c.consumer;
      if h.domain != r.domain || !h.kind.KConsumer? || h.store != r.store || h.slot >= |r.consumers| then Err(StaleHandle)
      else if r.consumers[h.slot].generation != h.generation then Err(StaleHandle)
      else if r.consumers[h.slot].owner != h.owner then Err(WrongOwner)
      else if !r.consumers[h.slot].active then Err(AlreadyReleased)
      else if r.consumers[h.slot].result != c.result then Err(StaleHandle)
      else Ok(h.slot)
  }

  // --------------------------------------------------------------------------------
  // Operations.

  function SetSlot(r: Registry, i: nat, s: Slot): Registry
    requires i < |r.slots|
  {
    r.(slots := r.slots[i := s])
  }

  // Frees the slot when nobody needs it.
  function Swept(s: Slot): Slot {
    if s.used && !s.Needed() then s.(used := false, value := None) else s
  }

  function FreeConsumer(r: Registry, i: nat): (o: Option<nat>)
    requires i <= |r.consumers|
    ensures o.Some? ==> o.value < |r.consumers| && !r.consumers[o.value].active && r.nextConsumer < MAX64
    decreases |r.consumers| - i
  {
    if i == |r.consumers| then None
    else if !r.consumers[i].active && r.nextConsumer < MAX64 then Some(i)
    else FreeConsumer(r, i + 1)
  }

  function Added(r: Registry, i: nat, h: Handle, owner: nat): Registry
    requires i < |r.consumers| && h.slot < |r.slots|
  {
    SetSlot(r, h.slot, r.slots[h.slot].(consumers := r.slots[h.slot].consumers + 1))
      .(consumers := r.consumers[i := Consumer(true, r.nextConsumer + 1, owner, h)], nextConsumer := r.nextConsumer + 1, version := r.version + 1)
  }

  function Add(r: Registry, h: Handle, owner: nat): (Registry, Result<Cap, Error>)
    requires h.slot < |r.slots|
  {
    match FreeConsumer(r, 0)
    case None => (r, Err(Capacity))
    case Some(i) => (Added(r, i, h, owner), Ok(Cap(h, Handle(KConsumer, r.domain, r.store, i, r.nextConsumer + 1, owner))))
  }

  function FreeSlot(r: Registry, i: nat): (o: Option<nat>)
    requires i <= |r.slots|
    ensures o.Some? ==> o.value < |r.slots| && !r.slots[o.value].used
    decreases |r.slots| - i
  {
    if i == |r.slots| then None
    else if !r.slots[i].used && r.nextResult < MAX64 then Some(i)
    else FreeSlot(r, i + 1)
  }

  // A slot with its producer, before the first consumer.
  function Opened(r: Registry, i: nat, source: Handle, maxBytes: nat, owner: nat): Registry
    requires i < |r.slots|
  {
    SetSlot(r, i, Slot(true, true, r.slots[i].publishing, r.nextResult + 1, owner, source, maxBytes, None, r.slots[i].ready, 0, 0))
      .(nextResult := r.nextResult + 1)
  }

  // Undoes Opened except for the generation, which stays burnt.
  function Withdrawn(r: Registry, i: nat): Registry
    requires i < |r.slots|
  {
    SetSlot(r, i, r.slots[i].(used := false, producer := false))
  }

  function Reserve(r: Registry, source: Handle, maxBytes: nat, producerOwner: nat, consumerOwner: nat): (Registry, Result<Cap, Error>) {
    match FreeSlot(r, 0)
    case None => (r, Err(Capacity))
    case Some(i) =>
      var r1 := Opened(r, i, source, maxBytes, producerOwner);
      var (r2, c) := Add(r1, Name(r1, i), consumerOwner);
      if c.Err? then (Withdrawn(r1, i), Err(c.error)) else (r2, c)
  }

  function Publish(r: Registry, h: Handle, v: Payload, source: Handle, ready: ReadyKey, validated: bool): (Registry, Result<(), Error>) {
    match FindResult(r, h)
    case Err(e) => (r, Err(e))
    case Ok(i) =>
      var s := r.slots[i];
      if !s.producer then (r, Err(InvalidState))
      else if s.value.Some? || s.publishing then (r, Err(Duplicate))
      else if !validated || source != s.source then (r, Err(InvalidArgument))
      else if v.size > s.maxBytes then (r, Err(Capacity))
      else (SetSlot(r, i, s.(value := Some(v), ready := ready)).(version := r.version + 1), Ok(()))
  }

  function Retain(r: Registry, c: Cap, owner: nat): (Registry, Result<Cap, Error>) {
    match FindConsumer(r, c)
    case Err(e) => (r, Err(e))
    case Ok(_) => Add(r, c.result, owner)
  }

  function Subscribe(r: Registry, h: Handle, owner: nat): (Registry, Result<Cap, Error>) {
    match FindResult(r, h)
    case Err(e) => (r, Err(e))
    case Ok(_) => Add(r, h, owner)
  }

  // One consumer leaves.
  function Dropped(r: Registry, k: nat, i: nat): Registry
    requires k < |r.consumers| && i < |r.slots| && r.slots[i].consumers > 0
  {
    SetSlot(r, i, Swept(r.slots[i].(consumers := r.slots[i].consumers - 1))).(consumers := r.consumers[k := r.consumers[k].(active := false)])
  }

  function Release(r: Registry, c: Cap): (Registry, Result<(), Error>) {
    match FindConsumer(r, c)
    case Err(e) => (r, Err(e))
    case Ok(k) =>
      if r.slots[c.result.slot].consumers == 0 then (r, Err(InvalidState))
      else (Dropped(r, k, c.result.slot).(version := r.version + 1), Ok(()))
  }

  function ReleaseOwner(r: Registry, h: Handle): (Registry, Result<(), Error>) {
    match FindResult(r, h)
    case Err(e) => (r, Err(e))
    case Ok(i) =>
      if !r.slots[i].producer then (r, Err(AlreadyReleased))
      else (SetSlot(r, i, Swept(r.slots[i].(producer := false))).(version := r.version + 1), Ok(()))
  }

  function Pin(r: Registry, c: Cap): (Registry, Result<(), Error>) {
    match FindConsumer(r, c)
    case Err(e) => (r, Err(e))
    case Ok(_) =>
      var i := c.result.slot;
      if r.slots[i].value.None? then (r, Err(NotReady))
      else if r.pinCount == r.pinLimit then (r, Err(Capacity))
      else
        (SetSlot(r, i, r.slots[i].(pins := r.slots[i].pins + 1))
           .(version := r.version + 1, pinCount := r.pinCount + 1, guards := r.guards + multiset{i}), Ok(()))
  }

  // A pinned view of slot `i` goes away.
  function Unpin(r: Registry, i: nat): Registry {
    if i >= |r.slots| || i !in r.guards || r.slots[i].pins == 0 || r.pinCount == 0 then r
    else
      SetSlot(r, i, Swept(r.slots[i].(pins := r.slots[i].pins - 1)))
        .(version := r.version + 1, pinCount := r.pinCount - 1, guards := r.guards - multiset{i})
  }

  // A publication staged on its own: announced, then written or withdrawn.
  function Announce(r: Registry, h: Handle, v: Payload, source: Handle, validated: bool): (Registry, Result<(), Error>) {
    match FindResult(r, h)
    case Err(e) => (r, Err(e))
    case Ok(i) =>
      var s := r.slots[i];
      if !s.producer || s.value.Some? || s.publishing then (r, Err(InvalidState))
      else if !validated || source != s.source then (r, Err(InvalidArgument))
      else if v.size > s.maxBytes then (r, Err(Capacity))
      else (SetSlot(r, i, s.(publishing := true)).(version := r.version + 1), Ok(()))
  }

  function Write(r: Registry, h: Handle, v: Payload, ready: ReadyKey): Registry {
    if FindResult(r, h).Err? || !r.slots[h.slot].publishing || !r.slots[h.slot].producer || r.slots[h.slot].value.Some? then r
    else SetSlot(r, h.slot, r.slots[h.slot].(value := Some(v), ready := ready, publishing := false)).(version := r.version + 1)
  }

  function Withdraw(r: Registry, h: Handle): Registry {
    if FindResult(r, h).Err? || !r.slots[h.slot].publishing then r
    else SetSlot(r, h.slot, Swept(r.slots[h.slot].(publishing := false))).(version := r.version + 1)
  }
}
