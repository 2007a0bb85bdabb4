// Whole runs of the admission store: services and responses stay within their limits, and
// the request lane of a connection passes from ticket to ticket in request order.
module AdmissionRuns {
  import opened Common
  import opened Admission

  // --------------------------------------------------------------------------------
  // Services and responses.

  function Servicing(s: Store): set<Handle> {
    set h | h in s.hops && s.hops[h].servicing
  }

  ghost predicate HopOK(s: Store, h: Handle, x: Hop) {
    && h.generation < s.generation
    && !(x.pending && x.servicing)
    && (x.wireTerminal ==> !x.pending && !x.servicing && h !in s.responses)
  }

  ghost predicate HopsOK(s: Store) {
    && (forall h :: h in s.hops ==> HopOK(s, h, s.hops[h]))
    && (forall h :: h in s.responses ==> h in s.hops && !s.hops[h].servicing && !s.hops[h].pending)
  }

  ghost predicate OnePending(s: Store) {
    forall h, k {:trigger s.hops[h], s.hops[k]} ::
      h in s.hops && k in s.hops && s.hops[h].pending && s.hops[k].pending && s.hops[h].connection == s.hops[k].connection ==> h == k
  }

  // The counters are the numbers they stand for, within the limits.
  ghost predicate Counts(s: Store) {
    && s.active == |Servicing(s)| <= s.limits.services
    && s.reserved == |Servicing(s)| + |s.responses| <= s.limits.responses
  }

  ghost predicate ServicesOK(s: Store) {
    HopsOK(s) && OnePending(s) && Counts(s)
  }

  // Only counters that do not matter here, gates and lanes differ.
  ghost predicate SameServices(s: Store, t: Store) {
    && t.hops == s.hops && t.responses == s.responses && t.active == s.active && t.reserved == s.reserved
    && t.limits == s.limits && s.generation <= t.generation
  }

  lemma SameServicesOK(s: Store, t: Store)
    requires ServicesOK(s) && SameServices(s, t)
    ensures ServicesOK(t)
  {
    assert Servicing(t) == Servicing(s);
    forall h | h in t.hops ensures HopOK(t, h, t.hops[h]) {
      assert HopOK(s, h, s.hops[h]);
    }
  }

  lemma AddHopOK(s: Store, h: Handle, x: Hop, t: Store)
    requires ServicesOK(s) && h !in s.hops && h.generation < t.generation && s.generation <= t.generation
    requires !x.wireTerminal && !(x.pending && x.servicing)
    requires x.pending ==> forall k :: k in s.hops && s.hops[k].connection == x.connection ==> !s.hops[k].pending
    requires t.hops == s.hops[h := x] && t.responses == s.responses && t.limits == s.limits
    requires if x.servicing then t.active == s.active + 1 && t.reserved == s.reserved + 1
                                 && s.active < s.limits.services && s.reserved < s.limits.responses
             else t.active == s.active && t.reserved == s.reserved
    ensures ServicesOK(t)
  {
    assert h !in s.responses;
    forall k | k in t.hops ensures HopOK(t, k, t.hops[k]) {
      assert k != h ==> HopOK(s, k, s.hops[k]);
    }
    AddHopCounts(s, h, x, t);
  }

  lemma AddHopCounts(s: Store, h: Handle, x: Hop, t: Store)
    requires Counts(s) && h !in s.hops && t.hops == s.hops[h := x] && t.responses == s.responses && t.limits == s.limits
    requires if x.servicing then t.active == s.active + 1 && t.reserved == s.reserved + 1
                                 && s.active < s.limits.services && s.reserved < s.limits.responses
             else t.active == s.active && t.reserved == s.reserved
    ensures Counts(t)
  {
    assert Servicing(t) == if x.servicing then Servicing(s) + {h} else Servicing(s);
  }

  // A new hop that starts no service.
  ghost predicate Idle(s: Store, t: Store, h: Handle) {
    && s.generation <= h.generation < t.generation && h in t.hops && t.hops == s.hops[h := t.hops[h]]
    && !t.hops[h].wireTerminal && !t.hops[h].pending && !t.hops[h].servicing
    && t.responses == s.responses && t.limits == s.limits && t.active == s.active && t.reserved == s.reserved
  }

  lemma IdleOK(s: Store, t: Store, h: Handle)
    requires ServicesOK(s) && Idle(s, t, h)
    ensures ServicesOK(t)
  {
    assert h in s.hops ==> HopOK(s, h, s.hops[h]);
    AddHopOK(s, h, t.hops[h], t);
  }

  lemma CreateInitiatorShape(s: Store, c: nat, x: nat, g: nat, o: nat, i: nat)
    ensures var (t, r) := CreateInitiator(s, c, x, g, o, i); if r.Ok? then Idle(s, t, r.value) else SameServices(s, t)
  {
  }

  lemma CreateInitiatorOK(s: Store, c: nat, x: nat, g: nat, o: nat, i: nat)
    requires ServicesOK(s)
    ensures ServicesOK(CreateInitiator(s, c, x, g, o, i).0)
  {
    var (t, r) := CreateInitiator(s, c, x, g, o, i);
    CreateInitiatorShape(s, c, x, g, o, i);
    if r.Ok? {
      IdleOK(s, t, r.value);
    } else {
      SameServicesOK(s, t);
    }
  }

  lemma AdmitShape(s: Store, c: nat, x: nat, g: nat, o: nat, i: nat, d: bool, free: bool)
    ensures var (t, r) := Admit(s, c, x, g, o, i, d, free);
            && SameGates(s, t) && t.order == s.order
            && if r.Err? then SameServices(s, t)
            else
              && r.value.generation == s.generation + 1 && t.generation == s.generation + 2 && t.sequence == s.sequence + 1
              && r.value in t.hops && t.hops == s.hops[r.value := t.hops[r.value]] && t.responses == s.responses && t.limits == s.limits
              && !Occupied(s.(revision := s.revision + 1), c, x)
              && var h := t.hops[r.value];
                 && h.connection == c && !h.wireTerminal && h.pending == !h.servicing && h.sequence == s.sequence
                 && if h.servicing then t.active == s.active + 1 && t.reserved == s.reserved + 1
                                        && s.active < s.limits.services && s.reserved < s.limits.responses
                    else t.active == s.active && t.reserved == s.reserved
  {
  }

  lemma AdmitOK(s: Store, c: nat, x: nat, g: nat, o: nat, i: nat, d: bool, free: bool)
    requires ServicesOK(s)
    ensures ServicesOK(Admit(s, c, x, g, o, i, d, free).0)
  {
    AdmitShape(s, c, x, g, o, i, d, free);
    var (t, r) := Admit(s, c, x, g, o, i, d, free);
    if r.Ok? {
      assert r.value in s.hops ==> HopOK(s, r.value, s.hops[r.value]);
      AddHopOK(s, r.value, t.hops[r.value], t);
    } else {
      SameServicesOK(s, t);
    }
  }

  lemma CreateHopShape(s: Store, h: Handle, c: nat, x: nat, g: nat)
    ensures var (t, r) := CreateHop(s, h, c, x, g); if r.Ok? then Idle(s, t, r.value) else SameServices(s, t)
  {
  }

  lemma CreateHopOK(s: Store, h: Handle, c: nat, x: nat, g: nat)
    requires ServicesOK(s)
    ensures ServicesOK(CreateHop(s, h, c, x, g).0)
  {
    var (t, r) := CreateHop(s, h, c, x, g);
    CreateHopShape(s, h, c, x, g);
    if r.Ok? {
      IdleOK(s, t, r.value);
    } else {
      SameServicesOK(s, t);
    }
  }

  // One hop changes in place and does not start to wait; its response may come or go.
  lemma ChangeHopOK(s: Store, t: Store, h: Handle)
    requires HopsOK(s) && OnePending(s) && h in s.hops && h in t.hops && t.hops == s.hops[h := t.hops[h]] && s.generation <= t.generation
    requires t.hops[h].connection == s.hops[h].connection && (t.hops[h].pending ==> s.hops[h].pending) && HopOK(t, h, t.hops[h])
    requires forall k :: k != h ==> (k in t.responses <==> k in s.responses)
    requires h in t.responses ==> !t.hops[h].servicing && !t.hops[h].pending
    ensures HopsOK(t) && OnePending(t)
  {
    forall k | k in t.hops ensures HopOK(t, k, t.hops[k]) {
      assert HopOK(s, k, s.hops[k]);
    }
  }

  lemma PromoteShape(s: Store, c: nat)
    ensures var (t, r) := Promote(s, c);
            if r.Ok? && r.value.Some? then
              var h := r.value.value;
              && h in s.hops && s.hops[h].pending && s.active < s.limits.services && s.reserved < s.limits.responses
              && t == Promoted(s, h)
            else SameServices(s, t)
  {
  }

  function Promoted(s: Store, h: Handle): Store
    requires h in s.hops
  {
    s.(revision := s.revision + 1, hops := s.hops[h := s.hops[h].(pending := false, servicing := true)],
       active := s.active + 1, reserved := s.reserved + 1)
  }

  lemma PromotedOK(s: Store, h: Handle)
    requires ServicesOK(s) && h in s.hops && s.hops[h].pending && s.active < s.limits.services && s.reserved < s.limits.responses
    ensures ServicesOK(Promoted(s, h))
  {
    var t := Promoted(s, h);
    assert HopOK(s, h, s.hops[h]);
    assert h !in s.responses;
    assert HopOK(t, h, t.hops[h]);
    ChangeHopOK(s, t, h);
    PromotedCounts(s, h);
  }

  lemma PromotedCounts(s: Store, h: Handle)
    requires Counts(s) && h in s.hops && s.hops[h].pending && !s.hops[h].servicing
    requires s.active < s.limits.services && s.reserved < s.limits.responses
    ensures Counts(Promoted(s, h))
  {
    assert Servicing(Promoted(s, h)) == Servicing(s) + {h};
  }

  lemma PromoteOK(s: Store, c: nat)
    requires ServicesOK(s)
    ensures ServicesOK(Promote(s, c).0)
  {
    var (t, r) := Promote(s, c);
    PromoteShape(s, c);
    if r.Ok? && r.value.Some? {
      PromotedOK(s, r.value.value);
    } else {
      SameServicesOK(s, t);
    }
  }

  lemma QueuedOK(s: Store, h: Handle, x: Response, t: Store)
    requires ServicesOK(s) && h in s.hops && s.hops[h].servicing && h !in s.responses
    requires t == s.(responses := s.responses[h := x], hops := s.hops[h := s.hops[h].(servicing := false)], active := s.active - 1, revision := t.revision)
    ensures ServicesOK(t)
  {
    assert HopOK(s, h, s.hops[h]);
    ChangeHopOK(s, t, h);
    assert Servicing(t) == Servicing(s) - {h};
  }

  lemma QueueOK(s: Store, txn: Handle, h: Handle, ready: ReadyKey, incomplete: bool)
    requires ServicesOK(s)
    ensures ServicesOK(QueueResponse(s, txn, h, ready, incomplete).0)
  {
    var (t, r) := QueueResponse(s, txn, h, ready, incomplete);
    if r.Ok? {
      QueuedOK(s, h, Response(ready, None, false), t);
    } else {
      SameServicesOK(s, t);
    }
  }

  // A permit or a sent mark changes one response in place.
  lemma MarkResponseOK(s: Store, t: Store, h: Handle)
    requires ServicesOK(s) && h in s.responses && h in t.responses && t.responses == s.responses[h := t.responses[h]]
    requires SameServices(s, t.(responses := s.responses))
    ensures ServicesOK(t)
  {
    assert Servicing(t) == Servicing(s);
    forall k | k in t.hops ensures HopOK(t, k, t.hops[k]) {
      assert HopOK(s, k, s.hops[k]);
    }
  }

  // Only a permit was handed out.
  ghost predicate Permitted(s: Store, t: Store, choice: Option<Handle>) {
    && choice.Some? && choice.value in s.responses && choice.value in t.responses
    && t.responses == s.responses[choice.value := t.responses[choice.value]] && SameServices(s, t.(responses := s.responses))
  }

  lemma PermitShape(s: Store, choice: Option<Handle>)
    requires choice.Some? ==> choice.value in s.responses
    ensures var (t, r) := GivePermit(s, choice);
            && (if r.Ok? && r.value.Some? then Permitted(s, t, choice) else SameServices(s, t))
            && SameGates(s, t) && t.sequence == s.sequence && t.order == s.order
  {
  }

  lemma SelectShape(s: Store, c: nat, free: bool)
    ensures var (t, r) := SelectResponse(s, c, free);
            && (if r.Ok? && r.value.Some? then Permitted(s, t, Choice(s.(revision := s.revision + 1), c)) else SameServices(s, t))
            && SameGates(s, t) && t.sequence == s.sequence && t.order == s.order
  {
    var s1 := s.(revision := s.revision + 1);
    PermitShape(s1, Choice(s1, c));
  }

  lemma SelectOK(s: Store, c: nat, free: bool)
    requires ServicesOK(s)
    ensures ServicesOK(SelectResponse(s, c, free).0)
  {
    var (t, r) := SelectResponse(s, c, free);
    SelectShape(s, c, free);
    if r.Ok? && r.value.Some? {
      MarkResponseOK(s, t, Choice(s.(revision := s.revision + 1), c).value);
    } else {
      SameServicesOK(s, t);
    }
  }

  lemma PermitOK(s: Store, h: Handle, p: Handle)
    requires ServicesOK(s)
    ensures ServicesOK(CancelResponsePermit(s, h, p).0)
  {
    var t := CancelResponsePermit(s, h, p).0;
    if CancelResponsePermit(s, h, p).1.Ok? {
      MarkResponseOK(s, t, h);
    } else {
      SameServicesOK(s, t);
    }
  }

  lemma ResponseOK(s: Store, h: Handle, p: Handle)
    requires ServicesOK(s)
    ensures ServicesOK(ResponseSent(s, h, p).0)
  {
    var t := ResponseSent(s, h, p).0;
    if ResponseSent(s, h, p).1.Ok? {
      MarkResponseOK(s, t, h);
    } else {
      SameServicesOK(s, t);
    }
  }

  lemma EndedCounts(s: Store, h: Handle, semantic: bool)
    requires Counts(s) && h in s.hops && !s.hops[h].servicing
    ensures Counts(Ended(s, h, semantic)) && h !in Ended(s, h, semantic).responses
  {
    var t := Ended(s, h, semantic);
    assert Servicing(t) == Servicing(s);
    if h in s.responses {
      assert s.responses.Keys == (s.responses - {h}).Keys + {h};
      assert |s.responses| == |s.responses.Keys| && |s.responses - {h}| == |(s.responses - {h}).Keys|;
    }
  }

  lemma EndedOK(s: Store, h: Handle, semantic: bool)
    requires ServicesOK(s) && h in s.hops && !s.hops[h].pending && !s.hops[h].servicing
    ensures ServicesOK(Ended(s, h, semantic))
  {
    var t := Ended(s, h, semantic);
    assert HopOK(s, h, s.hops[h]);
    EndedCounts(s, h, semantic);
    ChangeHopOK(s, t, h);
  }

  lemma TouchedOK(s: Store)
    requires ServicesOK(s)
    ensures ServicesOK(s.(revision := s.revision + 1))
  {
    SameServicesOK(s, s.(revision := s.revision + 1));
  }

  lemma TerminalOK(s: Store, h: Handle, proven: bool)
    requires ServicesOK(s)
    ensures ServicesOK(MarkWireTerminal(s, h, proven).0) && ServicesOK(SyncTerminal(s, h, proven).0)
  {
    TouchedOK(s);
    var s1 := s.(revision := s.revision + 1);
    if h in s.hops && !s.hops[h].pending && !s.hops[h].servicing {
      EndedOK(s1, h, false);
      EndedOK(s1, h, true);
    }
  }

  lemma SemanticOK(s: Store, h: Handle, time: nat)
    requires ServicesOK(s)
    ensures ServicesOK(MarkSemanticTerminal(s, h, time).0)
  {
    var t := MarkSemanticTerminal(s, h, time).0;
    if MarkSemanticTerminal(s, h, time).1.Ok? {
      assert HopOK(s, h, s.hops[h]);
      ChangeHopOK(s, t, h);
      assert Servicing(t) == Servicing(s);
    } else {
      SameServicesOK(s, t);
    }
  }

  lemma RetireOK(s: Store, h: Handle, unstarted: bool)
    requires ServicesOK(s)
    ensures ServicesOK(Retire(s, h, unstarted).0)
  {
    var (t, r) := Retire(s, h, unstarted);
    if r.Ok? {
      assert HopOK(s, h, s.hops[h]);
      assert Servicing(t) == Servicing(s);
      forall k | k in t.hops ensures HopOK(t, k, t.hops[k]) {
        assert HopOK(s, k, s.hops[k]);
      }
    } else {
      SameServicesOK(s, t);
    }
  }

  // --------------------------------------------------------------------------------
  // Gates.

  // A grant: the connection and the place in the request order.
  datatype Turn = Turn(connection: nat, sequence: nat)

  ghost predicate GateOK(s: Store, g: Handle, x: Gate) {
    g.generation < s.generation && x.sequence < s.sequence
  }

  ghost predicate OneHolder(s: Store) {
    forall g, k {:trigger s.gates[g], s.gates[k]} ::
      g in s.gates && k in s.gates && s.gates[g].Holds() && s.gates[k].Holds() && s.gates[g].connection == s.gates[k].connection ==> g == k
  }

  ghost predicate OwnPlaces(s: Store) {
    forall g, k {:trigger s.gates[g], s.gates[k]} ::
      g in s.gates && k in s.gates && s.gates[g].sequence == s.gates[k].sequence ==> g == k
  }

  ghost predicate Waits(s: Store, c: nat, g: Handle) {
    g in s.gates && s.gates[g].connection == c && s.gates[g].state.GatePending?
  }

  // A free lane that someone waits for has a holder.
  ghost predicate FreeServed(s: Store) {
    forall c, g :: Waits(s, c, g) && c !in s.busy ==> HasHolder(s, c)
  }

  // Grants on one connection go out in request order, and whoever still waits asked later.
  ghost predicate TurnsOK(s: Store, turns: seq<Turn>) {
    && (forall m, n :: 0 <= m < n < |turns| && turns[m].connection == turns[n].connection ==> turns[m].sequence < turns[n].sequence)
    && (forall m :: 0 <= m < |turns| ==> turns[m].sequence < s.sequence)
    && (forall m, g :: 0 <= m < |turns| && g in s.gates && s.gates[g].state.GatePending? && s.gates[g].connection == turns[m].connection ==>
          turns[m].sequence < s.gates[g].sequence)
  }

  ghost predicate GatesOK(s: Store, turns: seq<Turn>) {
    && (forall g :: g in s.gates ==> GateOK(s, g, s.gates[g]))
    && OneHolder(s) && OwnPlaces(s) && TurnsOK(s, turns)
  }

  ghost predicate SameGates(s: Store, t: Store) {
    t.gates == s.gates && t.busy == s.busy && s.generation <= t.generation && s.sequence <= t.sequence
  }

  lemma SameGatesOK(s: Store, t: Store, turns: seq<Turn>)
    requires GatesOK(s, turns) && SameGates(s, t)
    ensures GatesOK(t, turns) && (FreeServed(s) ==> FreeServed(t))
  {
    forall g | g in t.gates ensures GateOK(t, g, t.gates[g]) {
      assert GateOK(s, g, s.gates[g]);
    }
    if FreeServed(s) {
      forall c, g | Waits(t, c, g) && c !in t.busy ensures HasHolder(t, c) {
        assert Waits(s, c, g);
      }
    }
  }

  // A gate leaves the race, or a holder stays a holder.
  lemma StepGateOK(s: Store, g: Handle, x: GateState, t: Store, turns: seq<Turn>)
    requires GatesOK(s, turns) && g in s.gates && t == SetGate(s, g, x).(busy := t.busy)
    requires !x.GatePending? && (x.Granted? || x.Consumed? ==> s.gates[g].Holds())
    ensures GatesOK(t, turns)
  {
    forall k | k in t.gates ensures GateOK(t, k, t.gates[k]) {
      assert GateOK(s, k, s.gates[k]);
    }
    forall a, b | a in t.gates && b in t.gates && t.gates[a].sequence == t.gates[b].sequence ensures a == b {
      assert s.gates[a].sequence == s.gates[b].sequence;
    }
    forall a, b | a in t.gates && b in t.gates && t.gates[a].Holds() && t.gates[b].Holds() && t.gates[a].connection == t.gates[b].connection ensures a == b {
      assert s.gates[a].Holds() && s.gates[b].Holds();
    }
  }

  // What a look at the lane adds to the turns.
  ghost function LaneTurns(s: Store, c: nat, free: bool): seq<Turn> {
    if s.revision > LAST_REVISION || !free then []
    else
      match LookAt(s, c)
      case Vacant(Some(g)) => [Turn(c, s.gates[g].sequence)]
      case _ => []
  }

  lemma GrantOK(s: Store, c: nat, h: Handle, ready: ReadyKey, t: Store, turns: seq<Turn>)
    requires GatesOK(s, turns) && IsNext(s, c, Some(h)) && !HasHolder(s, c)
    requires t == s.(gates := s.gates[h := s.gates[h].(state := Granted, ready := ready)], busy := t.busy, revision := t.revision)
    ensures GatesOK(t, turns + [Turn(c, s.gates[h].sequence)])
  {
    forall k | k in t.gates ensures GateOK(t, k, t.gates[k]) {
      assert GateOK(s, k, s.gates[k]);
    }
    forall a, b | a in t.gates && b in t.gates && t.gates[a].sequence == t.gates[b].sequence ensures a == b {
      assert s.gates[a].sequence == s.gates[b].sequence;
    }
    forall a, b | a in t.gates && b in t.gates && t.gates[a].Holds() && t.gates[b].Holds() && t.gates[a].connection == t.gates[b].connection ensures a == b {
      assert a != h && b != h ==> s.gates[a].Holds() && s.gates[b].Holds();
    }
    forall k | k in t.gates && t.gates[k].state.GatePending? && t.gates[k].connection == c ensures s.gates[h].sequence < t.gates[k].sequence {
      assert s.gates[h].sequence <= s.gates[k].sequence;
    }
  }

  // The busy marks and the revision do not matter to the search.
  lemma SameLook(s: Store, t: Store, c: nat)
    requires t.gates == s.gates
    ensures LookAt(t, c) == LookAt(s, c)
  {
  }

  lemma LaneOK(s: Store, c: nat, free: bool, ready: ReadyKey, turns: seq<Turn>)
    requires GatesOK(s, turns)
    ensures GatesOK(UpdateLane(s, c, free, ready).0, turns + LaneTurns(s, c, free))
  {
    var t := UpdateLane(s, c, free, ready).0;
    assert turns + [] == turns;
    if s.revision <= LAST_REVISION {
      var s1 := s.(revision := s.revision + 1, busy := if free then s.busy - {c} else s.busy + {c});
      SameLook(s, s1, c);
      if LaneTurns(s, c, free) != [] {
        GrantOK(s, c, LookAt(s, c).next.value, ready, t, turns);
      } else {
        BusyOK(s, t, turns);
      }
    }
  }

  lemma BusyOK(s: Store, t: Store, turns: seq<Turn>)
    requires GatesOK(s, turns) && t.gates == s.gates && s.generation == t.generation && s.sequence == t.sequence
    ensures GatesOK(t, turns)
  {
    forall g | g in t.gates ensures GateOK(t, g, t.gates[g]) {
      assert GateOK(s, g, s.gates[g]);
    }
  }

  // A successful look at the lane leaves nobody waiting on a free lane without a holder.
  lemma LaneServed(s: Store, c: nat, free: bool, ready: ReadyKey)
    requires s.revision <= LAST_REVISION
    requires forall d, g :: Waits(s, d, g) && d !in s.busy && d != c ==> HasHolder(s, d)
    ensures FreeServed(UpdateLane(s, c, free, ready).0)
  {
    var t := UpdateLane(s, c, free, ready).0;
    var s1 := s.(revision := s.revision + 1, busy := if free then s.busy - {c} else s.busy + {c});
    SameLook(s, s1, c);
    forall d, g | Waits(t, d, g) && d !in t.busy ensures HasHolder(t, d) {
      assert Waits(s, d, g);
      if d != c {
        var k :| k in s.gates && s.gates[k].connection == d && s.gates[k].Holds();
        assert k in t.gates && t.gates[k].connection == d && t.gates[k].Holds();
      } else if HasHolder(s, c) {
        var k :| k in s.gates && s.gates[k].connection == c && s.gates[k].Holds();
        assert k in t.gates && t.gates[k].Holds();
      } else {
        assert t.gates[LookAt(s, c).next.value].connection == c && t.gates[LookAt(s, c).next.value].Holds();
      }
    }
  }

  // --------------------------------------------------------------------------------
  // Runs.

  datatype Command =
    | DoCreateInitiator(c: nat, x: nat, g: nat, o: nat, i: nat)
    | DoAdmit(c: nat, x: nat, g: nat, o: nat, i: nat, d: bool, free: bool)
    | DoPromote(c: nat)
    | DoCreateHop(h: Handle, c: nat, x: nat, g: nat)
    | DoQueue(txn: Handle, h: Handle, ready: ReadyKey, incomplete: bool)
    | DoSelect(c: nat, free: bool)
    | DoCancelPermit(h: Handle, p: Handle)
    | DoResponseSent(h: Handle, p: Handle)
    | DoWireTerminal(h: Handle, proven: bool)
    | DoSemanticTerminal(h: Handle, time: nat)
    | DoSync(h: Handle, proven: bool)
    | DoRetire(h: Handle, unstarted: bool)
    | DoLane(c: nat, free: bool, ready: ReadyKey)
    | DoRequest(t: Handle, c: nat, ready: ReadyKey)
    | DoConsume(h: Handle)
    | DoCancelGate(h: Handle, permit: bool, ready: ReadyKey)
    | DoSent(h: Handle)
    | DoRetireTicket(h: Handle)

  function Step(s: Store, c: Command): Store {
    match c
    case DoCreateInitiator(k, x, g, o, i) => CreateInitiator(s, k, x, g, o, i).0
    case DoAdmit(k, x, g, o, i, d, free) => Admit(s, k, x, g, o, i, d, free).0
    case DoPromote(k) => Promote(s, k).0
    case DoCreateHop(h, k, x, g) => CreateHop(s, h, k, x, g).0
    case DoQueue(txn, h, ready, incomplete) => QueueResponse(s, txn, h, ready, incomplete).0
    case DoSelect(k, free) => SelectResponse(s, k, free).0
    case DoCancelPermit(h, p) => CancelResponsePermit(s, h, p).0
    case DoResponseSent(h, p) => ResponseSent(s, h, p).0
    case DoWireTerminal(h, proven) => MarkWireTerminal(s, h, proven).0
    case DoSemanticTerminal(h, time) => MarkSemanticTerminal(s, h, time).0
    case DoSync(h, proven) => SyncTerminal(s, h, proven).0
    case DoRetire(h, unstarted) => Retire(s, h, unstarted).0
    case DoLane(k, free, ready) => UpdateLane(s, k, free, ready).0
    case DoRequest(t, k, ready) => RequestGate(s, t, k, ready).0
    case DoConsume(h) => ConsumeGate(s, h).0
    case DoCancelGate(h, permit, ready) => CancelGate(s, h, permit, ready).0
    case DoSent(h) => RequestSent(s, h).0
    case DoRetireTicket(h) => RetireTicket(s, h).0
  }

  // The store after a gate was given up, when the lane is looked at.
  function Dropped(s: Store, h: Handle): Store
    requires h in s.gates
  {
    SetGate(s.(revision := s.revision + 1), h, GateCancelled)
  }

  predicate Cancels(s: Store, h: Handle, permit: bool) {
    && s.revision <= LAST_REVISION && h in s.gates
    && if permit then s.gates[h].state.Consumed? else !s.gates[h].state.Consumed? && !s.gates[h].state.Sent?
  }

  ghost function Record(s: Store, turns: seq<Turn>, c: Command): seq<Turn> {
    match c
    case DoLane(k, free, ready) => turns + LaneTurns(s, k, free)
    case DoRequest(t, k, ready) =>
      (match AskGate(s, t, k)
       case Err(_) => turns
       case Ok((s1, _)) => turns + LaneTurns(s1, k, k !in s1.busy))
    case DoCancelGate(h, permit, ready) =>
      if Cancels(s, h, permit) then turns + LaneTurns(Dropped(s, h), s.gates[h].connection, s.gates[h].connection !in s.busy) else turns
    case _ => turns
  }

  lemma AskOK(s: Store, t: Handle, c: nat, turns: seq<Turn>)
    requires GatesOK(s, turns)
    ensures match AskGate(s, t, c)
            case Err((s1, _)) => GatesOK(s1, turns) && SameGates(s, s1)
            case Ok((s1, g)) => GatesOK(s1, turns) && g !in s.gates && s1.busy == s.busy && s1.revision == s.revision + 1
                                && s1.gates == s.gates[g := s1.gates[g]] && s1.gates[g].connection == c && s1.gates[g].state.GatePending?
  {
    match AskGate(s, t, c)
    case Err((s1, _)) => SameGatesOK(s, s1, turns);
    case Ok((s1, g)) =>
      assert g in s.gates ==> GateOK(s, g, s.gates[g]);
      forall k | k in s1.gates ensures GateOK(s1, k, s1.gates[k]) && (k != g ==> s1.gates[k].sequence < s1.gates[g].sequence) {
        assert k != g ==> GateOK(s, k, s.gates[k]);
      }
  }

  lemma GateStepOK(s: Store, c: Command, turns: seq<Turn>)
    requires GatesOK(s, turns)
    requires c.DoLane? || c.DoRequest? || c.DoConsume? || c.DoCancelGate? || c.DoSent? || c.DoRetireTicket?
    ensures GatesOK(Step(s, c), Record(s, turns, c))
  {
    match c
    case DoLane(k, free, ready) => LaneOK(s, k, free, ready, turns);
    case DoRequest(t, k, ready) => RequestOK(s, t, k, ready, turns);
    case DoCancelGate(h, permit, ready) => CancelOK(s, h, permit, ready, turns);
    case DoConsume(h) => ConsumeOK(s, h, turns);
    case DoSent(h) => SentOK(s, h, turns);
    case DoRetireTicket(h) => RetireTicketOK(s, h, turns);
  }

  lemma RequestOK(s: Store, t: Handle, k: nat, ready: ReadyKey, turns: seq<Turn>)
    requires GatesOK(s, turns)
    ensures GatesOK(RequestGate(s, t, k, ready).0, Record(s, turns, DoRequest(t, k, ready)))
  {
    AskOK(s, t, k, turns);
    match AskGate(s, t, k)
    case Err(_) =>
    case Ok((s1, _)) => LaneOK(s1, k, k !in s1.busy, ready, turns);
  }

  lemma CancelOK(s: Store, h: Handle, permit: bool, ready: ReadyKey, turns: seq<Turn>)
    requires GatesOK(s, turns)
    ensures GatesOK(CancelGate(s, h, permit, ready).0, Record(s, turns, DoCancelGate(h, permit, ready)))
  {
    var s1 := s.(revision := s.revision + 1);
    SameGatesOK(s, s1, turns);
    if Cancels(s, h, permit) {
      StepGateOK(s1, h, GateCancelled, Dropped(s, h), turns);
      LaneOK(Dropped(s, h), s.gates[h].connection, s.gates[h].connection !in s.busy, ready, turns);
    }
  }

  lemma ConsumeOK(s: Store, h: Handle, turns: seq<Turn>)
    requires GatesOK(s, turns)
    ensures GatesOK(ConsumeGate(s, h).0, turns)
  {
    var s1 := s.(revision := s.revision + 1);
    SameGatesOK(s, s1, turns);
    if ConsumeGate(s, h).1.Ok? {
      StepGateOK(s1, h, Consumed, ConsumeGate(s, h).0, turns);
    }
  }

  lemma SentOK(s: Store, h: Handle, turns: seq<Turn>)
    requires GatesOK(s, turns)
    ensures GatesOK(RequestSent(s, h).0, turns)
  {
    var s1 := s.(revision := s.revision + 1);
    SameGatesOK(s, s1, turns);
    if RequestSent(s, h).1.Ok? {
      StepGateOK(s1, h, Sent, RequestSent(s, h).0, turns);
    }
  }

  lemma RetireTicketOK(s: Store, h: Handle, turns: seq<Turn>)
    requires GatesOK(s, turns)
    ensures GatesOK(RetireTicket(s, h).0, turns)
  {
    var t := RetireTicket(s, h).0;
    forall g | g in t.gates ensures GateOK(t, g, t.gates[g]) {
      assert GateOK(s, g, s.gates[g]);
    }
  }

  // --------------------------------------------------------------------------------
  // Free lanes.

  // The calls that leave a free lane unserved. At the last revision the look at the lane
  // inside a call fails after the call has taken effect: a new ticket, or the next one in
  // line after the holder gave up, waits on a free lane that nobody holds.
  ghost predicate Strands(s: Store, c: Command) {
    match c
    case DoRequest(t, k, _) => s.revision == LAST_REVISION && AskGate(s, t, k).Ok? && k !in s.busy && !HasHolder(s, k)
    case DoCancelGate(h, permit, _) =>
      && s.revision == LAST_REVISION && Cancels(s, h, permit) && s.gates[h].connection !in s.busy
      && s.gates[h].Holds() && exists g :: g != h && Waits(s, s.gates[h].connection, g)
    case _ => false
  }

  lemma DroppedHolder(s: Store, h: Handle, d: nat)
    requires h in s.gates && HasHolder(s, d) && !(d == s.gates[h].connection && s.gates[h].Holds())
    ensures HasHolder(Dropped(s, h), d)
  {
    var k :| k in s.gates && s.gates[k].connection == d && s.gates[k].Holds();
    assert k in Dropped(s, h).gates && Dropped(s, h).gates[k].connection == d && Dropped(s, h).gates[k].Holds();
  }

  // At the last revision the lane is not looked at after a ticket was given up.
  lemma DroppedServed(s: Store, h: Handle, turns: seq<Turn>)
    requires GatesOK(s, turns) && FreeServed(s) && h in s.gates
    ensures FreeServed(Dropped(s, h)) <==>
              !(s.gates[h].connection !in s.busy && s.gates[h].Holds() && exists g :: g != h && Waits(s, s.gates[h].connection, g))
  {
    var t, c := Dropped(s, h), s.gates[h].connection;
    if c !in s.busy && s.gates[h].Holds() && exists g :: g != h && Waits(s, c, g) {
      var g :| g != h && Waits(s, c, g);
      assert Waits(t, c, g);
      assert !HasHolder(t, c);
    } else {
      forall d, g | Waits(t, d, g) && d !in t.busy ensures HasHolder(t, d) {
        assert Waits(s, d, g) && g != h;
        DroppedHolder(s, h, d);
      }
    }
  }

  // Exactly when giving up a ticket, or a permit drawn from it, keeps free lanes served.
  lemma CancelServed(s: Store, h: Handle, permit: bool, ready: ReadyKey, turns: seq<Turn>)
    requires GatesOK(s, turns) && FreeServed(s)
    ensures FreeServed(CancelGate(s, h, permit, ready).0) <==> !Strands(s, DoCancelGate(h, permit, ready))
  {
    if !Cancels(s, h, permit) {
      ServedAgain(s, CancelGate(s, h, permit, ready).0);
    } else if s.revision == LAST_REVISION {
      assert CancelGate(s, h, permit, ready).0 == Dropped(s, h);
      DroppedServed(s, h, turns);
    } else {
      var s1, c := Dropped(s, h), s.gates[h].connection;
      forall d, g | Waits(s1, d, g) && d !in s1.busy && d != c ensures HasHolder(s1, d) {
        assert Waits(s, d, g);
        DroppedHolder(s, h, d);
      }
      LaneServed(s1, c, c !in s.busy, ready);
    }
  }

  lemma ServedAgain(s: Store, t: Store)
    requires FreeServed(s) && t.gates == s.gates && t.busy == s.busy
    ensures FreeServed(t)
  {
    forall c, g | Waits(t, c, g) && c !in t.busy ensures HasHolder(t, c) {
      assert Waits(s, c, g);
    }
  }

  // Exactly when asking for a gate keeps free lanes served.
  lemma RequestServed(s: Store, t: Handle, c: nat, ready: ReadyKey, turns: seq<Turn>)
    requires GatesOK(s, turns) && FreeServed(s)
    ensures FreeServed(RequestGate(s, t, c, ready).0) <==> !Strands(s, DoRequest(t, c, ready))
  {
    AskOK(s, t, c, turns);
    if AskGate(s, t, c).Err? {
      ServedAgain(s, AskGate(s, t, c).error.0);
    } else {
      AskedServed(s, t, c, ready, turns);
    }
  }

  lemma AskedServed(s: Store, t: Handle, c: nat, ready: ReadyKey, turns: seq<Turn>)
    requires GatesOK(s, turns) && FreeServed(s) && AskGate(s, t, c).Ok?
    ensures FreeServed(RequestGate(s, t, c, ready).0) <==> s.revision < LAST_REVISION || c in s.busy || HasHolder(s, c)
  {
    AskOK(s, t, c, turns);
    var (s1, g) := AskGate(s, t, c).value;
    forall d | HasHolder(s, d) ensures HasHolder(s1, d) {
      var k :| k in s.gates && s.gates[k].connection == d && s.gates[k].Holds();
      assert k in s1.gates && s1.gates[k].connection == d && s1.gates[k].Holds();
    }
    forall d, k | Waits(s1, d, k) && d !in s1.busy && d != c ensures HasHolder(s1, d) {
      assert Waits(s, d, k);
    }
    if s.revision < LAST_REVISION {
      LaneServed(s1, c, c !in s1.busy, ready);
    } else {
      assert RequestGate(s, t, c, ready).0 == s1;
      assert Waits(s1, c, g);
      if HasHolder(s1, c) {
        var k :| k in s1.gates && s1.gates[k].connection == c && s1.gates[k].Holds();
        assert k in s.gates && s.gates[k].connection == c && s.gates[k].Holds();
      }
    }
  }

  lemma SentServed(s: Store, h: Handle)
    requires FreeServed(s)
    ensures FreeServed(RequestSent(s, h).0)
  {
    var (t, r) := RequestSent(s, h);
    if r.Ok? {
      forall c, g | Waits(t, c, g) && c !in t.busy ensures HasHolder(t, c) {
        assert Waits(s, c, g);
        var k :| k in s.gates && s.gates[k].connection == c && s.gates[k].Holds();
        assert k in t.gates && t.gates[k].connection == c && t.gates[k].Holds();
      }
    } else {
      ServedAgain(s, t);
    }
  }

  lemma ConsumeServed(s: Store, h: Handle)
    requires FreeServed(s)
    ensures FreeServed(ConsumeGate(s, h).0)
  {
    var t := ConsumeGate(s, h).0;
    forall c, g | Waits(t, c, g) && c !in t.busy ensures HasHolder(t, c) {
      assert Waits(s, c, g);
      var k :| k in s.gates && s.gates[k].connection == c && s.gates[k].Holds();
      assert k in t.gates && t.gates[k].connection == c && t.gates[k].Holds();
    }
  }

  lemma RetireTicketServed(s: Store, h: Handle)
    requires FreeServed(s)
    ensures FreeServed(RetireTicket(s, h).0)
  {
    var t := RetireTicket(s, h).0;
    forall c, g | Waits(t, c, g) && c !in t.busy ensures HasHolder(t, c) {
      assert Waits(s, c, g);
      var k :| k in s.gates && s.gates[k].connection == c && s.gates[k].Holds();
      assert k in t.gates && t.gates[k].connection == c && t.gates[k].Holds();
    }
  }

  lemma GateCommandServed(s: Store, c: Command, turns: seq<Turn>)
    requires GatesOK(s, turns) && FreeServed(s) && IsGateCommand(c)
    ensures FreeServed(Step(s, c)) <==> !Strands(s, c)
  {
    match c
    case DoLane(k, free, ready) =>
      if s.revision <= LAST_REVISION {
        LaneServed(s, k, free, ready);
      }
    case DoRequest(t, k, ready) => RequestServed(s, t, k, ready, turns);
    case DoConsume(h) => ConsumeServed(s, h);
    case DoCancelGate(h, permit, ready) => CancelServed(s, h, permit, ready, turns);
    case DoSent(h) => SentServed(s, h);
    case DoRetireTicket(h) => RetireTicketServed(s, h);
  }

  predicate IsGateCommand(c: Command) {
    c.DoLane? || c.DoRequest? || c.DoConsume? || c.DoCancelGate? || c.DoSent? || c.DoRetireTicket?
  }

  lemma LaneServices(s: Store, c: nat, free: bool, ready: ReadyKey)
    ensures SameServices(s, UpdateLane(s, c, free, ready).0)
  {
  }

  lemma AskServices(s: Store, t: Handle, c: nat)
    ensures match AskGate(s, t, c) case Err((s1, _)) => SameServices(s, s1) case Ok((s1, _)) => SameServices(s, s1)
  {
  }

  lemma RequestServices(s: Store, t: Handle, c: nat, ready: ReadyKey)
    ensures SameServices(s, RequestGate(s, t, c, ready).0)
  {
    AskServices(s, t, c);
    if AskGate(s, t, c).Ok? {
      var s1 := AskGate(s, t, c).value.0;
      LaneServices(s1, c, c !in s1.busy, ready);
    }
  }

  lemma CancelServices(s: Store, h: Handle, permit: bool, ready: ReadyKey)
    ensures SameServices(s, CancelGate(s, h, permit, ready).0)
  {
    if h in s.gates {
      LaneServices(Dropped(s, h), s.gates[h].connection, s.gates[h].connection !in s.busy, ready);
    }
  }

  lemma GateCommandServices(s: Store, c: Command)
    requires IsGateCommand(c)
    ensures SameServices(s, Step(s, c))
  {
    match c
    case DoLane(k, free, ready) => LaneServices(s, k, free, ready);
    case DoRequest(t, k, ready) => RequestServices(s, t, k, ready);
    case DoCancelGate(h, permit, ready) => CancelServices(s, h, permit, ready);
    case DoConsume(_) =>
    case DoSent(_) =>
    case DoRetireTicket(_) =>
  }

  lemma NewHopGates(s: Store, c: Command)
    requires c.DoCreateInitiator? || c.DoCreateHop?
    ensures SameGates(s, Step(s, c))
  {
  }

  lemma HopCommandGates(s: Store, c: Command)
    requires !IsGateCommand(c)
    ensures SameGates(s, Step(s, c))
  {
    if c.DoCreateInitiator? || c.DoCreateHop? {
      NewHopGates(s, c);
    } else if c.DoAdmit? {
      AdmitShape(s, c.c, c.x, c.g, c.o, c.i, c.d, c.free);
    } else if c.DoSelect? {
      SelectShape(s, c.c, c.free);
    }
  }

  lemma ArrivalOK(s: Store, c: Command)
    requires ServicesOK(s) && (c.DoCreateInitiator? || c.DoAdmit? || c.DoPromote? || c.DoCreateHop?)
    ensures ServicesOK(Step(s, c))
  {
    match c
    case DoCreateInitiator(k, x, g, o, i) => CreateInitiatorOK(s, k, x, g, o, i);
    case DoAdmit(k, x, g, o, i, d, free) => AdmitOK(s, k, x, g, o, i, d, free);
    case DoPromote(k) => PromoteOK(s, k);
    case DoCreateHop(h, k, x, g) => CreateHopOK(s, h, k, x, g);
  }

  lemma QueueStepOK(s: Store, c: Command)
    requires ServicesOK(s) && c.DoQueue?
    ensures ServicesOK(Step(s, c))
  {
    QueueOK(s, c.txn, c.h, c.ready, c.incomplete);
  }

  lemma SelectStepOK(s: Store, c: Command)
    requires ServicesOK(s) && c.DoSelect?
    ensures ServicesOK(Step(s, c))
  {
    SelectOK(s, c.c, c.free);
  }

  lemma PermitStepOK(s: Store, c: Command)
    requires ServicesOK(s) && c.DoCancelPermit?
    ensures ServicesOK(Step(s, c))
  {
    PermitOK(s, c.h, c.p);
  }

  lemma ResponseStepOK(s: Store, c: Command)
    requires ServicesOK(s) && c.DoResponseSent?
    ensures ServicesOK(Step(s, c))
  {
    ResponseOK(s, c.h, c.p);
  }

  lemma WireStepOK(s: Store, c: Command)
    requires ServicesOK(s) && c.DoWireTerminal?
    ensures ServicesOK(Step(s, c))
  {
    TerminalOK(s, c.h, c.proven);
  }

  lemma SyncStepOK(s: Store, c: Command)
    requires ServicesOK(s) && c.DoSync?
    ensures ServicesOK(Step(s, c))
  {
    TerminalOK(s, c.h, c.proven);
  }

  lemma SemanticStepOK(s: Store, c: Command)
    requires ServicesOK(s) && c.DoSemanticTerminal?
    ensures ServicesOK(Step(s, c))
  {
    SemanticOK(s, c.h, c.time);
  }

  lemma RetireStepOK(s: Store, c: Command)
    requires ServicesOK(s) && c.DoRetire?
    ensures ServicesOK(Step(s, c))
  {
    RetireOK(s, c.h, c.unstarted);
  }

  lemma HopStepOK(s: Store, c: Command)
    requires ServicesOK(s) && !IsGateCommand(c)
    ensures ServicesOK(Step(s, c))
  {
    if c.DoCreateInitiator? || c.DoAdmit? || c.DoPromote? || c.DoCreateHop? {
      ArrivalOK(s, c);
    } else if c.DoQueue? {
      QueueStepOK(s, c);
    } else if c.DoSelect? {
      SelectStepOK(s, c);
    } else if c.DoCancelPermit? {
      PermitStepOK(s, c);
    } else if c.DoResponseSent? {
      ResponseStepOK(s, c);
    } else if c.DoWireTerminal? {
      WireStepOK(s, c);
    } else if c.DoSync? {
      SyncStepOK(s, c);
    } else if c.DoSemanticTerminal? {
      SemanticStepOK(s, c);
    } else {
      RetireStepOK(s, c);
    }
  }

  lemma StepOK(s: Store, c: Command, turns: seq<Turn>)
    requires ServicesOK(s) && GatesOK(s, turns)
    ensures ServicesOK(Step(s, c)) && GatesOK(Step(s, c), Record(s, turns, c))
    ensures FreeServed(s) ==> (FreeServed(Step(s, c)) <==> !Strands(s, c))
  {
    if IsGateCommand(c) {
      GateCommandServices(s, c);
      SameServicesOK(s, Step(s, c));
      GateStepOK(s, c, turns);
      if FreeServed(s) {
        GateCommandServed(s, c, turns);
      }
    } else {
      HopStepOK(s, c);
      HopCommandGates(s, c);
      SameGatesOK(s, Step(s, c), turns);
    }
  }

  ghost function Run(s: Store, turns: seq<Turn>, cs: seq<Command>): (Store, seq<Turn>)
    decreases |cs|
  {
    if cs == [] then (s, turns) else Run(Step(s, cs[0]), Record(s, turns, cs[0]), cs[1..])
  }

  // No call of the run strands a waiter.
  ghost predicate NeverStrands(s: Store, cs: seq<Command>)
    decreases |cs|
  {
    cs == [] || (!Strands(s, cs[0]) && NeverStrands(Step(s, cs[0]), cs[1..]))
  }

  // The run stays away from revision exhaustion.
  predicate Away(s: Store, cs: seq<Command>)
    decreases |cs|
  {
    cs == [] || (s.revision < LAST_REVISION && Away(Step(s, cs[0]), cs[1..]))
  }

  lemma {:induction false} AwayNeverStrands(s: Store, cs: seq<Command>)
    requires Away(s, cs)
    ensures NeverStrands(s, cs)
    decreases |cs|
  {
    if cs != [] {
      AwayNeverStrands(Step(s, cs[0]), cs[1..]);
    }
  }

  lemma {:induction false} RunOK(s: Store, turns: seq<Turn>, cs: seq<Command>)
    requires ServicesOK(s) && GatesOK(s, turns)
    ensures var (s', turns') := Run(s, turns, cs);
            ServicesOK(s') && GatesOK(s', turns') && (FreeServed(s) && NeverStrands(s, cs) ==> FreeServed(s'))
    decreases |cs|
  {
    if cs != [] {
      StepOK(s, cs[0], turns);
      RunOK(Step(s, cs[0]), Record(s, turns, cs[0]), cs[1..]);
    }
  }

  // Every run: the counters count what they are named for and respect the limits; at most
  // one ticket of a connection is granted or consumed; grants follow request order; and
  // a free lane with a waiter has a holder unless a call stranded one, which takes the last
  // revision.
  lemma AdmissionSafety(domain: nat, store: nat, limits: Limits, order: ResponseOrder, cs: seq<Command>)
    ensures var s0 := NewStore(domain, store, limits, order);
            var (s, turns) := Run(s0, [], cs);
            && s.active == |Servicing(s)| && s.reserved == |Servicing(s)| + |s.responses|
            && s.active <= s.limits.services && s.reserved <= s.limits.responses
            && OneHolder(s)
            && (forall m, n :: 0 <= m < n < |turns| && turns[m].connection == turns[n].connection ==> turns[m].sequence < turns[n].sequence)
            && (NeverStrands(s0, cs) ==> FreeServed(s))
            && (Away(s0, cs) ==> NeverStrands(s0, cs))
  {
    var s0 := NewStore(domain, store, limits, order);
    RunOK(s0, [], cs);
    if Away(s0, cs) {
      AwayNeverStrands(s0, cs);
    }
  }
}
