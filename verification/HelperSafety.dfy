/**
 What every run of the helper cache keeps: exact reference counts, one creation per key, and a reaper that takes only
 what nobody holds or has used lately; and what happens otherwise.
 */
module HelperSafety {
  import opened Options
  import opened HelperCache

  // ---------- The invariant ----------

  predicate HoldsHelper(p: Phase) {
    p.Holding? || (p.Streaming? && !p.released)
  }

  ghost function HoldersOf(ops: seq<Op>, key: Key): set<OpId> {
    set o: OpId | o < |ops| && ops[o].key == key && HoldsHelper(ops[o].phase)
  }

  /** What the cache has under a key, apart from the time of its last use. */
  datatype Slot = Slot(entry: EntryId, container: Option<Container>, acquiring: bool, inFlight: int)

  type Slots = map<Key, Slot>

  function SlotOf(e: EntryId, x: Entry): Slot {
    Slot(e, x.container, x.acquiring, x.inFlight)
  }

  ghost function SlotsOf(s: State): (r: Slots)
    requires WellFormed(s)
  {
    map k | k in s.helpers :: SlotOf(s.helpers[k], s.entries[s.helpers[k]])
  }

  /** The helper of this key is there, and it is this container. */
  predicate Warm(slots: Slots, key: Key, c: Container) {
    key in slots && !slots[key].acquiring && slots[key].container == Some(c)
  }

  predicate BeingMade(slots: Slots, key: Key, e: EntryId) {
    key in slots && slots[key].acquiring && slots[key].entry == e
  }

  /** What an operation relies on under its key. */
  predicate OpFits(slots: Slots, op: Op) {
    match op.phase
    case Checking(e) =>
      op.key in slots && slots[op.key].entry == e && !slots[op.key].acquiring && slots[op.key].container.Some?
    case Creating(e) => BeingMade(slots, op.key, e)
    case Sharing(e) => BeingMade(slots, op.key, e)
    case Acquired(c) => Warm(slots, op.key, c)
    case Holding(c) => Warm(slots, op.key, c)
    case Streaming(c, released, _) => released || Warm(slots, op.key, c)
    case Ended => true
  }

  ghost predicate OpsFit(slots: Slots, ops: seq<Op>) {
    forall o :: 0 <= o < |ops| ==> OpFits(slots, ops[o])
  }

  /** One entry and one container per key, and each container is there. */
  ghost predicate SlotsFit(slots: Slots, entries: nat, removed: set<Container>, nextContainer: Container) {
    && (forall k <- slots :: slots[k].entry < entries)
    && (forall k <- slots :: slots[k].acquiring == slots[k].container.None?)
    && (forall k <- slots :: slots[k].container.Some? ==>
          slots[k].container.value < nextContainer && slots[k].container.value !in removed)
    && (forall j, k :: j in slots && k in slots && j != k ==>
          slots[j].entry != slots[k].entry
          && (slots[j].container.Some? ==> slots[j].container != slots[k].container))
    && (forall c <- removed :: c < nextContainer)
  }

  /** The reference count of each entry is the number of operations that hold it. */
  ghost predicate CountsExact(slots: Slots, ops: seq<Op>) {
    forall k <- slots :: slots[k].inFlight == |HoldersOf(ops, k)|
  }

  ghost predicate OneCreator(ops: seq<Op>) {
    forall o, p :: 0 <= o < p < |ops| && ops[o].phase.Creating? && ops[p].phase.Creating? ==>
      ops[o].phase.entry != ops[p].phase.entry
  }

  ghost predicate Inv(s: State) {
    && WellFormed(s)
    && OpsFit(SlotsOf(s), s.ops)
    && SlotsFit(SlotsOf(s), |s.entries|, s.removed, s.nextContainer)
    && CountsExact(SlotsOf(s), s.ops)
    && OneCreator(s.ops)
  }

  /** The operation needs the helper, or the creation, that it knows under its key. */
  predicate Relies(p: Phase) {
    !p.Ended? && !(p.Streaming? && p.released)
  }

  /** A helper that is found dead has no other operation relying on it, and what the reaper removes is not just then
      being checked by an acquire. */
  ghost predicate Safe(s: State, e: Event)
    requires WellFormed(s) && Enabled(s, e)
  {
    match e
    case CheckEnds(o, alive) => alive || Alone(s.ops, o)
    case ReapVisit(k) => k in Visited(s, k).helpers || NoneChecking(s.ops, k)
    case _ => true
  }

  ghost predicate Alone(ops: seq<Op>, o: OpId)
    requires o < |ops|
  {
    forall p :: 0 <= p < |ops| && p != o && ops[p].key == ops[o].key ==> !Relies(ops[p].phase)
  }

  ghost predicate NoneChecking(ops: seq<Op>, k: Key) {
    forall o :: 0 <= o < |ops| && ops[o].phase.Checking? ==> ops[o].key != k
  }

  // ---------- What the parts of a step do to the slots ----------

  function AddCount(slots: Slots, key: Key, delta: int): Slots {
    if key in slots then slots[key := slots[key].(inFlight := slots[key].inFlight + delta)] else slots
  }

  ghost predicate DistinctEntries(slots: Slots) {
    forall j, k :: j in slots && k in slots && j != k ==> slots[j].entry != slots[k].entry
  }

  lemma SlotsAfterCounted(s: State, key: Key, delta: int)
    requires WellFormed(s) && DistinctEntries(SlotsOf(s))
    ensures WellFormed(Counted(s, key, delta))
    ensures SlotsOf(Counted(s, key, delta)) == AddCount(SlotsOf(s), key, delta)
  {
    var r := Counted(s, key, delta);
    forall k | k in s.helpers ensures SlotsOf(r)[k] == AddCount(SlotsOf(s), key, delta)[k] {
      if key in s.helpers && k != key { assert SlotsOf(s)[k].entry != SlotsOf(s)[key].entry; }
    }
  }

  lemma SlotsAfterCreated(s: State, o: OpId)
    requires WellFormed(s) && Enabled(s, CreateEnds(o, true)) && DistinctEntries(SlotsOf(s))
    requires OpFits(SlotsOf(s), s.ops[o])
    ensures SlotsOf(Created(s, o, true)) ==
            SlotsOf(s)[s.ops[o].key := Slot(s.ops[o].phase.entry, Some(s.nextContainer), false,
                                            s.entries[s.ops[o].phase.entry].inFlight)]
  {
    var r, key := Created(s, o, true), s.ops[o].key;
    forall k | k in s.helpers && k != key ensures SlotsOf(r)[k] == SlotsOf(s)[k] {
      assert SlotsOf(s)[k].entry != SlotsOf(s)[key].entry;
    }
  }

  lemma SlotsAfterBegun(s: State, k: Key)
    requires WellFormed(s)
    ensures SlotsOf(Begun(s, k)) ==
            if k in s.helpers then SlotsOf(s) else SlotsOf(s)[k := Slot(|s.entries|, None, true, 0)]
  {
  }

  // ---------- Operations keep what they rely on ----------

  lemma OpsFitAddCount(slots: Slots, ops: seq<Op>, key: Key, delta: int)
    requires OpsFit(slots, ops)
    ensures OpsFit(AddCount(slots, key, delta), ops)
  {
    forall o | 0 <= o < |ops| ensures OpFits(AddCount(slots, key, delta), ops[o]) {
      assert OpFits(slots, ops[o]);
    }
  }

  lemma OpsFitInPhase(slots: Slots, ops: seq<Op>, o: OpId, phase: Phase)
    requires o < |ops| && OpsFit(slots, ops) && OpFits(slots, ops[o].(phase := phase))
    ensures OpsFit(slots, InPhase(ops, o, phase))
  {
  }

  lemma OpsFitCounted(slots: Slots, ops: seq<Op>, o: OpId, phase: Phase, delta: int)
    requires o < |ops| && OpsFit(slots, ops) && OpFits(slots, ops[o].(phase := phase))
    ensures OpsFit(AddCount(slots, ops[o].key, delta), InPhase(ops, o, phase))
  {
    OpsFitInPhase(slots, ops, o, phase);
    OpsFitAddCount(slots, InPhase(ops, o, phase), ops[o].key, delta);
  }

  lemma OpsFitNew(slots: Slots, ops: seq<Op>, key: Key, e: EntryId)
    requires OpsFit(slots, ops) && key !in slots
    ensures OpsFit(slots[key := Slot(e, None, true, 0)], ops + [Op(key, Creating(e))])
  {
    forall o | 0 <= o < |ops|
      ensures OpFits(slots[key := Slot(e, None, true, 0)], ops[o])
    {
      assert OpFits(slots, ops[o]);
    }
  }

  lemma OpsFitCreated(slots: Slots, ops: seq<Op>, key: Key, e: EntryId, c: Container, inFlight: int)
    requires OpsFit(slots, ops) && DistinctEntries(slots) && BeingMade(slots, key, e)
    ensures OpsFit(slots[key := Slot(e, Some(c), false, inFlight)], CreationSettled(ops, e, Acquired(c)))
  {
    var after := CreationSettled(ops, e, Acquired(c));
    forall o | 0 <= o < |ops|
      ensures OpFits(slots[key := Slot(e, Some(c), false, inFlight)], after[o])
    {
      assert OpFits(slots, ops[o]);
      if ops[o].key != key && ops[o].key in slots { assert slots[ops[o].key].entry != e; }
    }
  }

  lemma OpsFitCreateFailed(slots: Slots, ops: seq<Op>, key: Key, e: EntryId)
    requires OpsFit(slots, ops) && DistinctEntries(slots) && BeingMade(slots, key, e)
    ensures OpsFit(slots - {key}, CreationSettled(ops, e, Ended))
  {
    var after := CreationSettled(ops, e, Ended);
    forall o | 0 <= o < |ops|
      ensures OpFits(slots - {key}, after[o])
    {
      assert OpFits(slots, ops[o]);
      if ops[o].key != key && ops[o].key in slots { assert slots[ops[o].key].entry != e; }
    }
  }

  /** An entry that the reaper takes is relied on by nobody. */
  lemma OpsFitReaped(slots: Slots, ops: seq<Op>, key: Key)
    requires OpsFit(slots, ops) && CountsExact(slots, ops) && NoneAcquired(ops)
    requires key in slots && !slots[key].acquiring && slots[key].inFlight <= 0
    requires NoneChecking(ops, key)
    ensures HoldersOf(ops, key) == {}
    ensures OpsFit(slots - {key}, ops)
  {
    forall o | 0 <= o < |ops|
      ensures OpFits(slots - {key}, ops[o])
    {
      assert OpFits(slots, ops[o]);
      if ops[o].key == key { assert o !in HoldersOf(ops, key); }
    }
  }

  // ---------- The slots stay consistent ----------

  lemma SlotsFitAddCount(slots: Slots, key: Key, delta: int, entries: nat, removed: set<Container>, next: Container)
    requires SlotsFit(slots, entries, removed, next)
    ensures SlotsFit(AddCount(slots, key, delta), entries, removed, next)
  {
  }

  lemma SlotsFitNew(slots: Slots, key: Key, entries: nat, removed: set<Container>, next: Container)
    requires SlotsFit(slots, entries, removed, next)
    ensures SlotsFit(slots[key := Slot(entries, None, true, 0)], entries + 1, removed, next)
  {
  }

  lemma SlotsFitCreated(slots: Slots, key: Key, inFlight: int, entries: nat, removed: set<Container>, next: Container)
    requires SlotsFit(slots, entries, removed, next) && key in slots
    ensures SlotsFit(slots[key := Slot(slots[key].entry, Some(next), false, inFlight)], entries, removed, next + 1)
  {
  }

  lemma SlotsFitWithout(slots: Slots, key: Key, entries: nat, removed: set<Container>, next: Container)
    requires SlotsFit(slots, entries, removed, next) && key in slots
    ensures SlotsFit(slots - {key}, entries, removed, next)
    ensures SlotsFit(slots - {key}, entries,
                     removed + (if slots[key].container.Some? then {slots[key].container.value} else {}), next)
  {
  }

  // ---------- The counts stay exact ----------

  lemma HoldersAfter(ops: seq<Op>, o: OpId, phase: Phase, key: Key)
    requires o < |ops|
    ensures HoldersOf(InPhase(ops, o, phase), key) ==
            if key == ops[o].key then HoldersOf(ops, key) - {o} + (if HoldsHelper(phase) then {o} else {})
            else HoldersOf(ops, key)
  {
  }

  lemma CountsAfterPhase(slots: Slots, ops: seq<Op>, o: OpId, phase: Phase)
    requires o < |ops| && CountsExact(slots, ops) && HoldsHelper(phase) == HoldsHelper(ops[o].phase)
    ensures CountsExact(slots, InPhase(ops, o, phase))
  {
    forall k | k in slots ensures HoldersOf(InPhase(ops, o, phase), k) == HoldersOf(ops, k) {
      HoldersAfter(ops, o, phase, k);
    }
  }

  lemma CountsAfterHold(slots: Slots, ops: seq<Op>, o: OpId, phase: Phase)
    requires o < |ops| && CountsExact(slots, ops) && HoldsHelper(phase) && !HoldsHelper(ops[o].phase)
    ensures CountsExact(AddCount(slots, ops[o].key, 1), InPhase(ops, o, phase))
  {
    forall k | k in slots ensures AddCount(slots, ops[o].key, 1)[k].inFlight == |HoldersOf(InPhase(ops, o, phase), k)| {
      HoldersAfter(ops, o, phase, k);
    }
  }

  lemma CountsAfterRelease(slots: Slots, ops: seq<Op>, o: OpId, phase: Phase)
    requires o < |ops| && CountsExact(slots, ops) && !HoldsHelper(phase) && HoldsHelper(ops[o].phase)
    ensures CountsExact(AddCount(slots, ops[o].key, -1), InPhase(ops, o, phase))
  {
    forall k | k in slots ensures AddCount(slots, ops[o].key, -1)[k].inFlight == |HoldersOf(InPhase(ops, o, phase), k)| {
      HoldersAfter(ops, o, phase, k);
      if k == ops[o].key { assert o in HoldersOf(ops, k); }
    }
  }

  lemma HoldersAfterSettled(ops: seq<Op>, e: EntryId, phase: Phase, key: Key)
    requires !HoldsHelper(phase)
    ensures HoldersOf(CreationSettled(ops, e, phase), key) == HoldersOf(ops, key)
  {
  }

  lemma HoldersAfterBegin(ops: seq<Op>, op: Op, key: Key)
    requires !HoldsHelper(op.phase)
    ensures HoldersOf(ops + [op], key) == HoldersOf(ops, key)
  {
  }

  lemma NoHoldersWithoutEntry(slots: Slots, ops: seq<Op>, key: Key)
    requires OpsFit(slots, ops) && key !in slots
    ensures HoldersOf(ops, key) == {}
  {
    forall o | 0 <= o < |ops| && ops[o].key == key ensures !HoldsHelper(ops[o].phase) {
      assert OpFits(slots, ops[o]);
    }
  }

  // ---------- A step keeps the invariant exactly when it is safe ----------

  lemma CountsAfterBegin(slots: Slots, ops: seq<Op>, op: Op)
    requires CountsExact(slots, ops) && !HoldsHelper(op.phase)
    ensures CountsExact(slots, ops + [op])
  {
    forall j | j in slots ensures HoldersOf(ops + [op], j) == HoldersOf(ops, j) {
      HoldersAfterBegin(ops, op, j);
    }
  }

  lemma BeginNewKeepsInv(s: State, k: Key)
    requires Inv(s) && k !in s.helpers
    ensures Inv(Begun(s, k))
  {
    var slots, op := SlotsOf(s), Op(k, Creating(|s.entries|));
    SlotsAfterBegun(s, k);
    assert Begun(s, k).ops == s.ops + [op];
    NoHoldersWithoutEntry(slots, s.ops, k);
    HoldersAfterBegin(s.ops, op, k);
    OpsFitNew(slots, s.ops, k, |s.entries|);
    SlotsFitNew(slots, k, |s.entries|, s.removed, s.nextContainer);
    CountsAfterBegin(slots, s.ops, op);
    CountsWithNew(slots, s.ops + [op], k, |s.entries|);
  }

  lemma CountsWithNew(slots: Slots, ops: seq<Op>, k: Key, e: EntryId)
    requires CountsExact(slots, ops) && HoldersOf(ops, k) == {}
    ensures CountsExact(slots[k := Slot(e, None, true, 0)], ops)
  {
  }

  lemma BeginKnownKeepsInv(s: State, k: Key)
    requires Inv(s) && k in s.helpers
    ensures Inv(Begun(s, k))
  {
    var op := Begun(s, k).ops[|s.ops|];
    SlotsAfterBegun(s, k);
    assert Begun(s, k).ops == s.ops + [op];
    assert OpFits(SlotsOf(s), op);
    CountsAfterBegin(SlotsOf(s), s.ops, op);
  }

  lemma CheckKeepsInv(s: State, o: OpId)
    requires Inv(s) && Enabled(s, CheckEnds(o, true))
    ensures Inv(Checked(s, o, true))
  {
    var slots, r := SlotsOf(s), Checked(s, o, true);
    assert OpFits(slots, s.ops[o]);
    assert SlotsOf(r) == slots;
    OpsFitInPhase(slots, s.ops, o, r.ops[o].phase);
    CountsAfterPhase(slots, s.ops, o, r.ops[o].phase);
  }

  /** A new entry takes the place of a dead one, and nobody relied on the dead one. */
  lemma OpsFitReplaced(slots: Slots, ops: seq<Op>, o: OpId, e: EntryId)
    requires OpsFit(slots, ops) && o < |ops| && Alone(ops, o)
    ensures OpsFit(slots[ops[o].key := Slot(e, None, true, 0)], InPhase(ops, o, Creating(e)))
    ensures HoldersOf(InPhase(ops, o, Creating(e)), ops[o].key) == {}
  {
    var key, after := ops[o].key, InPhase(ops, o, Creating(e));
    forall p | 0 <= p < |ops| ensures OpFits(slots[key := Slot(e, None, true, 0)], after[p]) {
      assert OpFits(slots, ops[p]);
    }
    forall p | 0 <= p < |ops| && after[p].key == key ensures !HoldsHelper(after[p].phase) {
      assert p != o ==> !Relies(ops[p].phase);
    }
  }

  lemma CountsAfterReplaced(slots: Slots, ops: seq<Op>, o: OpId, e: EntryId)
    requires CountsExact(slots, ops) && o < |ops| && ops[o].phase.Checking?
    requires HoldersOf(InPhase(ops, o, Creating(e)), ops[o].key) == {}
    ensures CountsExact(slots[ops[o].key := Slot(e, None, true, 0)], InPhase(ops, o, Creating(e)))
  {
    var key, after := ops[o].key, InPhase(ops, o, Creating(e));
    forall k | k in slots && k != key ensures HoldersOf(after, k) == HoldersOf(ops, k) {
      HoldersAfter(ops, o, Creating(e), k);
    }
  }

  lemma SlotsAfterDead(s: State, o: OpId)
    requires WellFormed(s) && Enabled(s, CheckEnds(o, false))
    ensures SlotsOf(Checked(s, o, false)) == SlotsOf(s)[s.ops[o].key := Slot(|s.entries|, None, true, 0)]
  {
  }

  lemma DeadKeepsInv(s: State, o: OpId)
    requires Inv(s) && Enabled(s, CheckEnds(o, false)) && Alone(s.ops, o)
    ensures Inv(Checked(s, o, false))
  {
    SlotsAfterDead(s, o);
    OpsFitReplaced(SlotsOf(s), s.ops, o, |s.entries|);
    SlotsFitNew(SlotsOf(s), s.ops[o].key, |s.entries|, s.removed, s.nextContainer);
    CountsAfterReplaced(SlotsOf(s), s.ops, o, |s.entries|);
  }

  /** Whoever else relies on the helper that is found dead is left without. */
  lemma DeadBreaksInv(s: State, o: OpId)
    requires Inv(s) && Enabled(s, CheckEnds(o, false)) && !Alone(s.ops, o)
    ensures !OpsFit(SlotsOf(Checked(s, o, false)), Checked(s, o, false).ops)
  {
    var r := Checked(s, o, false);
    var p :| 0 <= p < |s.ops| && p != o && s.ops[p].key == s.ops[o].key && Relies(s.ops[p].phase);
    SlotsAfterDead(s, o);
    assert OpFits(SlotsOf(s), s.ops[o]) && OpFits(SlotsOf(s), s.ops[p]);
    assert r.ops[p] == s.ops[p] && !OpFits(SlotsOf(r), r.ops[p]);
  }

  lemma ReapBreaksInv(s: State, k: Key)
    requires WellFormed(s) && Enabled(s, ReapVisit(k)) && k !in Visited(s, k).helpers && !NoneChecking(s.ops, k)
    ensures !OpsFit(SlotsOf(Visited(s, k)), Visited(s, k).ops)
  {
    var r := Visited(s, k);
    var o :| 0 <= o < |s.ops| && s.ops[o].phase.Checking? && s.ops[o].key == k;
    assert r.ops[o] == s.ops[o] && !OpFits(SlotsOf(r), r.ops[o]);
  }

  lemma CountsAfterSettled(slots: Slots, ops: seq<Op>, e: EntryId, phase: Phase)
    requires CountsExact(slots, ops) && OneCreator(ops) && !HoldsHelper(phase) && !phase.Creating?
    ensures CountsExact(slots, CreationSettled(ops, e, phase)) && OneCreator(CreationSettled(ops, e, phase))
  {
    forall j | j in slots ensures HoldersOf(CreationSettled(ops, e, phase), j) == HoldersOf(ops, j) {
      HoldersAfterSettled(ops, e, phase, j);
    }
  }

  lemma CreatedKeepsInv(s: State, o: OpId)
    requires Inv(s) && Enabled(s, CreateEnds(o, true))
    ensures Inv(Created(s, o, true))
  {
    var slots, key, x := SlotsOf(s), s.ops[o].key, s.ops[o].phase.entry;
    assert OpFits(slots, s.ops[o]);
    SlotsAfterCreated(s, o);
    CountsAfterSettled(slots, s.ops, x, Acquired(s.nextContainer));
    OpsFitCreated(slots, s.ops, key, x, s.nextContainer, s.entries[x].inFlight);
    SlotsFitCreated(slots, key, s.entries[x].inFlight, |s.entries|, s.removed, s.nextContainer);
  }

  lemma CreateFailedKeepsInv(s: State, o: OpId)
    requires Inv(s) && Enabled(s, CreateEnds(o, false))
    ensures Inv(Created(s, o, false))
  {
    var slots, key, x := SlotsOf(s), s.ops[o].key, s.ops[o].phase.entry;
    assert OpFits(slots, s.ops[o]);
    assert SlotsOf(Created(s, o, false)) == slots - {key};
    CountsAfterSettled(slots, s.ops, x, Ended);
    OpsFitCreateFailed(slots, s.ops, key, x);
    SlotsFitWithout(slots, key, |s.entries|, s.removed, s.nextContainer);
  }

  /** An operation changes its phase, and the count under its key goes up or down. */
  lemma CountedKeepsInv(s: State, o: OpId, phase: Phase, delta: int)
    requires Inv(s) && o < |s.ops| && !phase.Creating? && OpFits(SlotsOf(s), s.ops[o].(phase := phase))
    requires WellFormed(Counted(s, s.ops[o].key, delta).(ops := InPhase(s.ops, o, phase)))
    requires CountsExact(AddCount(SlotsOf(s), s.ops[o].key, delta), InPhase(s.ops, o, phase))
    ensures Inv(Counted(s, s.ops[o].key, delta).(ops := InPhase(s.ops, o, phase)))
  {
    var slots, key := SlotsOf(s), s.ops[o].key;
    var r := Counted(s, key, delta).(ops := InPhase(s.ops, o, phase));
    OpsFitCounted(slots, s.ops, o, phase, delta);
    SlotsFitAddCount(slots, key, delta, |s.entries|, s.removed, s.nextContainer);
    NoMoreCreators(s.ops, o, phase);
    SlotsOfCounted(s, key, delta, r.ops);
    InvFromSlots(r, AddCount(slots, key, delta));
  }

  lemma NoMoreCreators(ops: seq<Op>, o: OpId, phase: Phase)
    requires OneCreator(ops) && o < |ops| && !phase.Creating?
    ensures OneCreator(InPhase(ops, o, phase))
  {
  }

  lemma SlotsOfCounted(s: State, key: Key, delta: int, ops: seq<Op>)
    requires WellFormed(s) && DistinctEntries(SlotsOf(s)) && WellFormed(Counted(s, key, delta).(ops := ops))
    ensures SlotsOf(Counted(s, key, delta).(ops := ops)) == AddCount(SlotsOf(s), key, delta)
  {
    SlotsAfterCounted(s, key, delta);
    assert SlotsOf(Counted(s, key, delta).(ops := ops)) == SlotsOf(Counted(s, key, delta));
  }

  lemma InvFromSlots(s: State, slots: Slots)
    requires WellFormed(s) && SlotsOf(s) == slots && OneCreator(s.ops)
    requires OpsFit(slots, s.ops) && CountsExact(slots, s.ops)
    requires SlotsFit(slots, |s.entries|, s.removed, s.nextContainer)
    ensures Inv(s)
  {
  }

  lemma HoldKeepsInv(s: State, o: OpId)
    requires Inv(s) && Enabled(s, Hold(o))
    ensures Inv(Held(s, o))
  {
    var phase := Holding(s.ops[o].phase.container);
    assert OpFits(SlotsOf(s), s.ops[o]);
    CountsAfterHold(SlotsOf(s), s.ops, o, phase);
    CountedKeepsInv(s, o, phase, 1);
  }

  /** The end of an operation or the first signal of its stream. */
  lemma ReleaseKeepsInv(s: State, o: OpId, phase: Phase)
    requires Inv(s) && o < |s.ops| && HoldsHelper(s.ops[o].phase)
    requires phase.Ended? || (phase.Streaming? && phase.released)
    ensures Inv(Counted(s, s.ops[o].key, -1).(ops := InPhase(s.ops, o, phase)))
  {
    CountsAfterRelease(SlotsOf(s), s.ops, o, phase);
    CountedKeepsInv(s, o, phase, -1);
  }

  /** A change of phase that neither takes nor gives up a hold. */
  lemma PhaseKeepsInv(s: State, o: OpId, phase: Phase)
    requires Inv(s) && o < |s.ops| && HoldsHelper(s.ops[o].phase) == HoldsHelper(phase)
    requires OpFits(SlotsOf(s), s.ops[o].(phase := phase)) && phase.Streaming?
    ensures Inv(s.(ops := InPhase(s.ops, o, phase)))
  {
    OpsFitInPhase(SlotsOf(s), s.ops, o, phase);
    CountsAfterPhase(SlotsOf(s), s.ops, o, phase);
    assert SlotsOf(s.(ops := InPhase(s.ops, o, phase))) == SlotsOf(s);
  }

  lemma VisitKeepsInv(s: State, k: Key)
    requires Inv(s) && Enabled(s, ReapVisit(k)) && Safe(s, ReapVisit(k))
    ensures Inv(Visited(s, k))
  {
    var slots, r := SlotsOf(s), Visited(s, k);
    if Reapable(s.entries[s.helpers[k]], s.sweep.value, s.idleTtl) {
      assert SlotsOf(r) == slots - {k};
      OpsFitReaped(slots, s.ops, k);
      SlotsFitWithout(slots, k, |s.entries|, s.removed, s.nextContainer);
    }
  }

  lemma StepKeepsInv(s: State, e: Event)
    requires Inv(s) && Enabled(s, e) && Safe(s, e)
    ensures Inv(Next(s, e))
  {
    match e
    case Begin(k) => if k in s.helpers { BeginKnownKeepsInv(s, k); } else { BeginNewKeepsInv(s, k); }
    case CheckEnds(o, alive) => if alive { CheckKeepsInv(s, o); } else { DeadKeepsInv(s, o); }
    case CreateEnds(o, ok) => if ok { CreatedKeepsInv(s, o); } else { CreateFailedKeepsInv(s, o); }
    case Hold(o) => HoldKeepsInv(s, o);
    case Finish(o) => ReleaseKeepsInv(s, o, Ended);
    case StreamMade(o) => PhaseKeepsInv(s, o, Next(s, e).ops[o].phase);
    case StreamFires(o, _) =>
      if s.ops[o].phase.released {
        PhaseKeepsInv(s, o, Next(s, e).ops[o].phase);
      } else {
        ReleaseKeepsInv(s, o, Next(s, e).ops[o].phase);
      }
    case ReapVisit(k) => VisitKeepsInv(s, k);
    case _ => assert SlotsOf(Next(s, e)) == SlotsOf(s);
  }

  /** From any state of a safe run, the next step keeps the invariant exactly when it is safe. */
  lemma StepKeepsInvIffSafe(s: State, e: Event)
    requires Inv(s) && Enabled(s, e)
    ensures Inv(Next(s, e)) <==> Safe(s, e)
  {
    if Safe(s, e) {
      StepKeepsInv(s, e);
    } else if e.CheckEnds? {
      DeadBreaksInv(s, e.op);
    } else {
      ReapBreaksInv(s, e.key);
    }
  }

  // ---------- Every safe run ----------

  ghost predicate Legal(s: State, run: seq<Event>)
    requires WellFormed(s)
    decreases |run|
  {
    run == [] || (Enabled(s, run[0]) && Legal(Next(s, run[0]), run[1..]))
  }

  ghost function Exec(s: State, run: seq<Event>): (r: State)
    requires WellFormed(s) && Legal(s, run)
    ensures WellFormed(r)
    decreases |run|
  {
    if run == [] then s else Exec(Next(s, run[0]), run[1..])
  }

  ghost predicate AllSafe(s: State, run: seq<Event>)
    requires WellFormed(s) && Legal(s, run)
    decreases |run|
  {
    run == [] || (Safe(s, run[0]) && AllSafe(Next(s, run[0]), run[1..]))
  }

  ghost predicate InvThroughout(s: State, run: seq<Event>)
    requires WellFormed(s) && Legal(s, run)
    decreases |run|
  {
    Inv(s) && (run == [] || InvThroughout(Next(s, run[0]), run[1..]))
  }

  /** The invariant holds throughout a run exactly when each of its steps is safe. */
  lemma {:induction false} RunKeepsInvIffSafe(s: State, run: seq<Event>)
    requires Inv(s) && Legal(s, run)
    ensures InvThroughout(s, run) <==> AllSafe(s, run)
    ensures AllSafe(s, run) ==> Inv(Exec(s, run))
    decreases |run|
  {
    if run != [] {
      StepKeepsInvIffSafe(s, run[0]);
      if Safe(s, run[0]) {
        RunKeepsInvIffSafe(Next(s, run[0]), run[1..]);
      }
    }
  }

  lemma Prepend(s: State, e: Event, run: seq<Event>)
    requires WellFormed(s) && Enabled(s, e) && Legal(Next(s, e), run)
    ensures Legal(s, [e] + run) && Exec(s, [e] + run) == Exec(Next(s, e), run)
  {
    assert ([e] + run)[1..] == run;
  }

  lemma InitInv(idleTtl: nat)
    ensures Inv(Init(idleTtl))
  {
  }

  /** The counts are exact, so never negative; a helper in use is the cached one and has not been removed; and all
      callers of a key share one creation. */
  ghost predicate Promised(s: State)
    requires WellFormed(s)
  {
    && (forall k <- s.helpers :: s.entries[s.helpers[k]].inFlight == |HoldersOf(s.ops, k)|)
    && (forall o :: 0 <= o < |s.ops| && HoldsHelper(s.ops[o].phase) ==>
          && s.ops[o].key in s.helpers
          && s.entries[s.helpers[s.ops[o].key]].container == Some(s.ops[o].phase.container)
          && s.ops[o].phase.container !in s.removed)
    && (forall o, p :: 0 <= o < p < |s.ops| && s.ops[o].phase.Creating? && s.ops[p].phase.Creating? ==>
          s.ops[o].key != s.ops[p].key)
  }

  /** So it is after every safe run. */
  lemma HeldHelpersAreSafe(idleTtl: nat, run: seq<Event>)
    requires Legal(Init(idleTtl), run) && AllSafe(Init(idleTtl), run)
    ensures Promised(Exec(Init(idleTtl), run))
  {
    InitInv(idleTtl);
    RunKeepsInvIffSafe(Init(idleTtl), run);
    InvMeans(Exec(Init(idleTtl), run));
  }

  lemma InvMeans(s: State)
    requires Inv(s)
    ensures Promised(s)
  {
    forall k | k in s.helpers ensures s.entries[s.helpers[k]].inFlight == |HoldersOf(s.ops, k)| {
      assert SlotsOf(s)[k].inFlight == |HoldersOf(s.ops, k)|;
    }
    forall o | 0 <= o < |s.ops| && HoldsHelper(s.ops[o].phase)
      ensures s.ops[o].key in s.helpers
      ensures s.entries[s.helpers[s.ops[o].key]].container == Some(s.ops[o].phase.container)
      ensures s.ops[o].phase.container !in s.removed
    {
      HolderIsWarm(s, o);
    }
    forall o, p | 0 <= o < p < |s.ops| && s.ops[o].phase.Creating? && s.ops[p].phase.Creating?
      ensures s.ops[o].key != s.ops[p].key
    {
      CreatorsDiffer(s, o, p);
    }
  }

  lemma HolderIsWarm(s: State, o: OpId)
    requires Inv(s) && o < |s.ops| && HoldsHelper(s.ops[o].phase)
    ensures s.ops[o].key in s.helpers
    ensures s.entries[s.helpers[s.ops[o].key]].container == Some(s.ops[o].phase.container)
    ensures s.ops[o].phase.container !in s.removed
  {
    assert OpFits(SlotsOf(s), s.ops[o]);
  }

  lemma CreatorsDiffer(s: State, o: OpId, p: OpId)
    requires Inv(s) && o < p < |s.ops| && s.ops[o].phase.Creating? && s.ops[p].phase.Creating?
    ensures s.ops[o].key != s.ops[p].key
  {
    assert OpFits(SlotsOf(s), s.ops[o]) && OpFits(SlotsOf(s), s.ops[p]);
  }

  // ---------- And no other ----------

  /** Nothing but that liveness checks end well and callers of acquire go on with the helper they got. */
  predicate GoesOn(run: seq<Event>) {
    forall i :: 0 <= i < |run| ==> run[i].Hold? || (run[i].CheckEnds? && run[i].alive)
  }

  lemma {:induction false} GoingOnIsSafe(s: State, run: seq<Event>)
    requires WellFormed(s) && Legal(s, run) && GoesOn(run)
    ensures AllSafe(s, run)
    decreases |run|
  {
    if run != [] { GoingOnIsSafe(Next(s, run[0]), run[1..]); }
  }

  predicate Gone(s: State, key: Key)
    requires WellFormed(s)
  {
    key in s.helpers ==> s.entries[s.helpers[key]].container.None?
  }

  /** An operation that has a helper, or is about to get one from its check, although none is cached under its key. */
  predicate Stranded(s: State, o: OpId)
    requires WellFormed(s)
  {
    && o < |s.ops| && Gone(s, s.ops[o].key)
    && match s.ops[o].phase
       case Checking(e) => s.entries[e].container.Some?
       case Acquired(_) => true
       case Holding(_) => true
       case Streaming(_, released, _) => !released
       case _ => false
  }

  lemma StrandedAcquiredBreaks(s: State, o: OpId)
    requires WellFormed(s) && Stranded(s, o) && s.ops[o].phase.Acquired?
    ensures Enabled(s, Hold(o)) && !Promised(Next(s, Hold(o)))
  {
    var t := Next(s, Hold(o));
    assert HoldsHelper(t.ops[o].phase) && Gone(t, t.ops[o].key);
  }

  lemma StrandedBreaks(s: State, o: OpId) returns (run: seq<Event>)
    requires WellFormed(s) && Stranded(s, o)
    ensures GoesOn(run) && Legal(s, run) && !Promised(Exec(s, run))
  {
    if s.ops[o].phase.Acquired? {
      StrandedAcquiredBreaks(s, o);
      Prepend(s, Hold(o), []);
      run := [Hold(o)] + [];
    } else if s.ops[o].phase.Checking? {
      var t := Next(s, CheckEnds(o, true));
      assert Stranded(t, o);
      StrandedAcquiredBreaks(t, o);
      Prepend(t, Hold(o), []);
      Prepend(s, CheckEnds(o, true), [Hold(o)] + []);
      run := [CheckEnds(o, true)] + ([Hold(o)] + []);
    } else {
      assert HoldsHelper(s.ops[o].phase);
      run := [];
    }
  }

  lemma DeadStrands(s: State, o: OpId) returns (p: OpId)
    requires Inv(s) && Enabled(s, CheckEnds(o, false)) && !Alone(s.ops, o)
    ensures Stranded(Checked(s, o, false), p)
  {
    p :| 0 <= p < |s.ops| && p != o && s.ops[p].key == s.ops[o].key && Relies(s.ops[p].phase);
    assert OpFits(SlotsOf(s), s.ops[o]) && OpFits(SlotsOf(s), s.ops[p]);
  }

  lemma ReapStrands(s: State, k: Key) returns (o: OpId)
    requires Inv(s) && Enabled(s, ReapVisit(k)) && k !in Visited(s, k).helpers && !NoneChecking(s.ops, k)
    ensures Stranded(Visited(s, k), o)
  {
    o :| 0 <= o < |s.ops| && s.ops[o].phase.Checking? && s.ops[o].key == k;
    assert OpFits(SlotsOf(s), s.ops[o]);
  }

  /** After a step that is not safe, checks that are under way or operations that go on can break the promise. */
  lemma UnsafeStepBreaks(s: State, e: Event) returns (run: seq<Event>)
    requires Inv(s) && Enabled(s, e) && !Safe(s, e)
    ensures GoesOn(run) && Legal(Next(s, e), run) && !Promised(Exec(Next(s, e), run))
  {
    var o: OpId;
    if e.CheckEnds? {
      o := DeadStrands(s, e.op);
    } else {
      o := ReapStrands(s, e.key);
    }
    run := StrandedBreaks(Next(s, e), o);
  }

  /** From any state of a safe run: the promise outlives a step, whatever checks and operations then go on, exactly when
      the step is safe. */
  lemma PromisedIffSafe(s: State, e: Event)
    requires Inv(s) && Enabled(s, e)
    ensures (forall run :: Legal(Next(s, e), run) && GoesOn(run) ==> Promised(Exec(Next(s, e), run))) <==> Safe(s, e)
  {
    if Safe(s, e) {
      StepKeepsInvIffSafe(s, e);
      forall run | Legal(Next(s, e), run) && GoesOn(run) ensures Promised(Exec(Next(s, e), run)) {
        GoingOnIsSafe(Next(s, e), run);
        RunKeepsInvIffSafe(Next(s, e), run);
        InvMeans(Exec(Next(s, e), run));
      }
    } else {
      var run := UnsafeStepBreaks(s, e);
    }
  }

  // ---------- The reaper and the streams ----------

  /** What the reaper takes after a safe run is unheld, and was last used more than the idle time before
      the sweep began. */
  lemma ReaperTakesIdle(idleTtl: nat, run: seq<Event>, k: Key)
    requires Legal(Init(idleTtl), run) && AllSafe(Init(idleTtl), run)
    requires var s := Exec(Init(idleTtl), run); Enabled(s, ReapVisit(k)) && k !in Visited(s, k).helpers
    ensures var s := Exec(Init(idleTtl), run);
            && HoldersOf(s.ops, k) == {}
            && s.entries[s.helpers[k]].lastUsed + s.idleTtl < s.sweep.value
            && forall j <- s.helpers :: j != k ==> j in Visited(s, k).helpers
  {
    InitInv(idleTtl);
    RunKeepsInvIffSafe(Init(idleTtl), run);
    InvMeans(Exec(Init(idleTtl), run));
  }

  /** Whichever of the three signals fire, in whatever order, a stream gives up its hold once. */
  lemma {:induction false} StreamReleasesOnce(s: State, o: OpId, signals: seq<Signal>)
    requires WellFormed(s) && o < |s.ops| && s.ops[o].phase.Streaming? && s.ops[o].key in s.helpers
    requires forall i :: 0 <= i < |signals| ==> signals[i] !in s.ops[o].phase.fired
    requires forall i, j :: 0 <= i < j < |signals| ==> signals[i] != signals[j]
    requires signals != []
    ensures Legal(s, seq(|signals|, i requires 0 <= i < |signals| => StreamFires(o, signals[i])))
    ensures var r := Exec(s, seq(|signals|, i requires 0 <= i < |signals| => StreamFires(o, signals[i])));
            && r.helpers == s.helpers && |r.entries| == |s.entries|
            && (forall e :: 0 <= e < |s.entries| ==>
                  r.entries[e].inFlight ==
                  s.entries[e].inFlight - if e == s.helpers[s.ops[o].key] && !s.ops[o].phase.released then 1 else 0)
    decreases |signals|
  {
    var run := seq(|signals|, i requires 0 <= i < |signals| => StreamFires(o, signals[i]));
    var s1 := Next(s, run[0]);
    var rest := signals[1..];
    assert run[1..] == seq(|rest|, i requires 0 <= i < |rest| => StreamFires(o, rest[i]));
    if rest != [] {
      StreamReleasesOnce(s1, o, rest);
    } else {
      assert run[1..] == [];
    }
  }

  // ---------- Idle time ----------

  predicate Maps(s: State, k: Key, x: EntryId) {
    k in s.helpers && s.helpers[k] == x
  }

  /** The step takes, renews or gives up the use of entry `x`. */
  ghost predicate Uses(s: State, e: Event, x: EntryId)
    requires WellFormed(s) && Enabled(s, e)
  {
    match e
    case Hold(o) => Maps(s, s.ops[o].key, x)
    case Finish(o) => Maps(s, s.ops[o].key, x)
    case StreamFires(o, _) => !s.ops[o].phase.released && Maps(s, s.ops[o].key, x)
    case CheckEnds(o, alive) => alive && s.ops[o].phase.entry == x
    case CreateEnds(o, ok) => ok && s.ops[o].phase.entry == x
    case _ => false
  }

  ghost predicate UsedInPast(s: State) {
    forall x :: 0 <= x < |s.entries| ==> s.entries[x].lastUsed <= s.clock
  }

  /** A use stamps its entry with the time, and nothing else does. */
  lemma UseIsStamped(s: State, e: Event, x: EntryId)
    requires WellFormed(s) && Enabled(s, e) && UsedInPast(s) && x < |s.entries|
    ensures var r := Next(s, e);
            && UsedInPast(r) && r.clock >= s.clock && r.idleTtl == s.idleTtl && x < |r.entries|
            && r.entries[x].lastUsed == if Uses(s, e, x) then s.clock else s.entries[x].lastUsed
  {
  }

  lemma {:induction false} LastUseGrows(s: State, run: seq<Event>, x: EntryId)
    requires WellFormed(s) && Legal(s, run) && UsedInPast(s) && x < |s.entries|
    ensures var r := Exec(s, run);
            && UsedInPast(r) && r.idleTtl == s.idleTtl
            && x < |r.entries| && r.entries[x].lastUsed >= s.entries[x].lastUsed
    decreases |run|
  {
    if run != [] {
      UseIsStamped(s, run[0], x);
      LastUseGrows(Next(s, run[0]), run[1..], x);
    }
  }

  lemma {:induction false} RunUsesInPast(s: State, run: seq<Event>)
    requires WellFormed(s) && Legal(s, run) && UsedInPast(s)
    ensures UsedInPast(Exec(s, run)) && Exec(s, run).idleTtl == s.idleTtl
    decreases |run|
  {
    if run != [] {
      StepUsesInPast(s, run[0]);
      RunUsesInPast(Next(s, run[0]), run[1..]);
    }
  }

  lemma StepUsesInPast(s: State, e: Event)
    requires WellFormed(s) && Enabled(s, e) && UsedInPast(s)
    ensures UsedInPast(Next(s, e)) && Next(s, e).idleTtl == s.idleTtl
  {
  }

  /** In any run, an entry that the reaper takes was not used by anybody for more than the idle time before the
      sweep began. */
  lemma ReaperWaitsForIdle(idleTtl: nat, before: seq<Event>, e: Event, after: seq<Event>, k: Key)
    requires Legal(Init(idleTtl), before) && Enabled(Exec(Init(idleTtl), before), e)
    requires Legal(Next(Exec(Init(idleTtl), before), e), after)
    requires var s := Exec(Init(idleTtl), before);
             var t := Exec(Next(s, e), after);
             && Enabled(t, ReapVisit(k)) && k !in Visited(t, k).helpers
             && t.helpers[k] < |s.entries| && Uses(s, e, t.helpers[k])
    ensures var s := Exec(Init(idleTtl), before);
            s.clock + idleTtl < Exec(Next(s, e), after).sweep.value
  {
    var s := Exec(Init(idleTtl), before);
    var x := Exec(Next(s, e), after).helpers[k];
    RunUsesInPast(Init(idleTtl), before);
    UseIsStamped(s, e, x);
    LastUseGrows(Next(s, e), after, x);
  }

  // ---------- What becomes of an operation ----------

  /** A new caller creates, joins the creation under way, or checks what is cached. */
  lemma BeginStep(s: State, k: Key)
    requires WellFormed(s)
    ensures var r, n := Next(s, Begin(k)), |s.ops|;
            && |r.ops| == n + 1 && r.ops[..n] == s.ops && r.ops[n].key == k
            && (if k !in s.helpers then
                  r.ops[n].phase == Creating(|s.entries|) && k in r.helpers && r.helpers[k] == |s.entries|
                  && r.entries == s.entries + [Entry(None, s.clock, 0, true)]
                else
                  r.helpers == s.helpers && r.entries == s.entries
                  && r.ops[n].phase == if s.entries[s.helpers[k]].acquiring then Sharing(s.helpers[k])
                                       else Checking(s.helpers[k]))
  {
  }

  /** What one step does to an operation that is there, in full. */
  lemma OperationStep(s: State, e: Event, o: OpId)
    requires WellFormed(s) && Enabled(s, e) && o < |s.ops|
    ensures o < |Next(s, e).ops| && Next(s, e).ops[o].key == s.ops[o].key
    ensures var was, after := s.ops[o].phase, Next(s, e).ops[o].phase;
            match e
            case CheckEnds(p, alive) =>
              after == if o != p then was
                       else if alive then Acquired(s.entries[was.entry].container.value)
                       else Creating(|s.entries|)
            case CreateEnds(p, ok) =>
              after == if (was.Creating? || was.Sharing?) && was.entry == s.ops[p].phase.entry then
                         (if ok then Acquired(s.nextContainer) else Ended)
                       else was
            case Hold(p) => after == if o == p then Holding(was.container) else was
            case Finish(p) => after == if o == p then Ended else was
            case StreamMade(p) => after == if o == p then Streaming(was.container, false, {}) else was
            case StreamFires(p, signal) =>
              after == if o == p then Streaming(was.container, true, was.fired + {signal}) else was
            case _ => after == was
  {
  }

  // ---------- What the reaper takes, and what creations leave ----------

  /** A visit takes the entry, and its container, exactly when nothing makes or holds it and it was not used for longer
      than the idle time when the sweep began. */
  lemma ReaperTakesIff(s: State, k: Key)
    requires WellFormed(s) && Enabled(s, ReapVisit(k))
    ensures var x, r := s.entries[s.helpers[k]], Next(s, ReapVisit(k));
            && (k !in r.helpers <==> !x.acquiring && x.inFlight <= 0 && s.sweep.value - x.lastUsed > s.idleTtl)
            && (k !in r.helpers ==> r == s.(helpers := s.helpers - {k}, removed := r.removed))
            && (k !in r.helpers ==> forall c :: c in r.removed <==> c in s.removed || x.container == Some(c))
            && (k in r.helpers ==> r == s)
  {
  }

  /** The operation makes the entry that is cached under its key. */
  predicate Makes(s: State, o: OpId, k: Key)
    requires WellFormed(s)
  {
    k in s.helpers && o < |s.ops| && s.ops[o].key == k && s.ops[o].phase == Creating(s.helpers[k])
  }

  /** Whatever is cached as being made has an operation that makes it; and the entries that operations know are of their
      own keys. */
  ghost predicate MakersThere(s: State) {
    && WellFormed(s)
    && (forall k <- s.helpers :: s.entries[s.helpers[k]].acquiring ==> exists o :: Makes(s, o, k))
    && (forall j, k :: j in s.helpers && k in s.helpers && j != k ==> s.helpers[j] != s.helpers[k])
    && (forall o, k :: 0 <= o < |s.ops| && k in s.helpers && s.ops[o].phase == Creating(s.helpers[k]) ==>
          s.ops[o].key == k)
    && (forall o :: 0 <= o < |s.ops| && s.ops[o].phase.Creating? ==> s.entries[s.ops[o].phase.entry].acquiring)
    && OneCreator(s.ops)
  }

  lemma MakerStays(s: State, e: Event, o: OpId, k: Key)
    requires MakersThere(s) && Enabled(s, e) && Makes(s, o, k)
    requires k in Next(s, e).helpers && Next(s, e).helpers[k] == s.helpers[k]
    requires Next(s, e).entries[s.helpers[k]].acquiring
    ensures Makes(Next(s, e), o, k)
  {
    OperationStep(s, e, o);
  }

  lemma NewEntryIsOwn(s: State, e: Event, k: Key)
    requires MakersThere(s) && Enabled(s, e) && k in Next(s, e).helpers
    requires k !in s.helpers || Next(s, e).helpers[k] != s.helpers[k]
    ensures Next(s, e).helpers[k] == |s.entries| && |Next(s, e).entries| == |s.entries| + 1
    ensures exists o :: Makes(Next(s, e), o, k)
  {
    if e.Begin? {
      assert Makes(Next(s, e), |s.ops|, k);
    } else {
      assert Makes(Next(s, e), e.op, k);
    }
  }

  lemma KnownEntriesKept(s: State, e: Event)
    requires MakersThere(s) && Enabled(s, e)
    ensures var r := Next(s, e);
            forall j, k :: j in r.helpers && k in r.helpers && j != k ==> r.helpers[j] != r.helpers[k]
  {
  }

  /** A creation is as it was, or it is the new one. */
  lemma CreationsAfter(s: State, e: Event, o: OpId)
    requires WellFormed(s) && Enabled(s, e) && o < |Next(s, e).ops| && Next(s, e).ops[o].phase.Creating?
    ensures var r, x := Next(s, e), Next(s, e).ops[o].phase.entry;
            || (o < |s.ops| && s.ops[o] == r.ops[o] && r.entries[x].acquiring == s.entries[x].acquiring)
            || (x == |s.entries| && r.ops[o].key in r.helpers && r.helpers[r.ops[o].key] == x && r.entries[x].acquiring)
            || (e.CreateEnds? && e.ok && o < |s.ops| && s.ops[o] == r.ops[o] && s.ops[e.op].phase.entry == x)
  {
  }

  lemma HelpersAfter(s: State, e: Event, k: Key)
    requires WellFormed(s) && Enabled(s, e) && k in Next(s, e).helpers
    ensures Next(s, e).helpers[k] == |s.entries| || (k in s.helpers && Next(s, e).helpers[k] == s.helpers[k])
  {
  }

  lemma CreationsKeepKey(s: State, e: Event, o: OpId, k: Key)
    requires MakersThere(s) && Enabled(s, e) && o < |Next(s, e).ops| && k in Next(s, e).helpers
    requires Next(s, e).ops[o].phase == Creating(Next(s, e).helpers[k])
    ensures Next(s, e).ops[o].key == k
  {
    CreationsAfter(s, e, o);
    HelpersAfter(s, e, k);
    KnownEntriesKept(s, e);
  }

  lemma CreatorsKept(s: State, e: Event)
    requires MakersThere(s) && Enabled(s, e)
    ensures OneCreator(Next(s, e).ops)
  {
  }

  lemma CreationsStayOpen(s: State, e: Event, o: OpId)
    requires MakersThere(s) && Enabled(s, e) && o < |Next(s, e).ops| && Next(s, e).ops[o].phase.Creating?
    ensures Next(s, e).entries[Next(s, e).ops[o].phase.entry].acquiring
  {
    CreationsAfter(s, e, o);
    if e.CreateEnds? && e.ok { SettledIsGone(s, e.op, o); }
  }

  lemma SettledIsGone(s: State, o: OpId, p: OpId)
    requires WellFormed(s) && Enabled(s, CreateEnds(o, true)) && p < |s.ops|
    requires Next(s, CreateEnds(o, true)).ops[p].phase.Creating?
    ensures Next(s, CreateEnds(o, true)).ops[p].phase.entry != s.ops[o].phase.entry
  {
  }

  lemma StillMade(s: State, e: Event, k: Key)
    requires MakersThere(s) && Enabled(s, e) && k in Next(s, e).helpers
    requires Next(s, e).entries[Next(s, e).helpers[k]].acquiring
    ensures exists o :: Makes(Next(s, e), o, k)
  {
    HelpersAfter(s, e, k);
    if k in s.helpers && Next(s, e).helpers[k] == s.helpers[k] {
      EntryWasOpen(s, e, s.helpers[k]);
      var o: OpId :| Makes(s, o, k);
      MakerStays(s, e, o, k);
    } else {
      NewEntryIsOwn(s, e, k);
    }
  }

  lemma EntryWasOpen(s: State, e: Event, x: EntryId)
    requires WellFormed(s) && Enabled(s, e) && x < |s.entries| && Next(s, e).entries[x].acquiring
    ensures s.entries[x].acquiring
  {
  }

  lemma StepKeepsMakers(s: State, e: Event)
    requires MakersThere(s) && Enabled(s, e)
    ensures MakersThere(Next(s, e))
  {
    var r := Next(s, e);
    KnownEntriesKept(s, e);
    CreatorsKept(s, e);
    forall o, k | 0 <= o < |r.ops| && k in r.helpers && r.ops[o].phase == Creating(r.helpers[k])
      ensures r.ops[o].key == k
    {
      CreationsKeepKey(s, e, o, k);
    }
    forall o | 0 <= o < |r.ops| && r.ops[o].phase.Creating? ensures r.entries[r.ops[o].phase.entry].acquiring {
      CreationsStayOpen(s, e, o);
    }
    forall k | k in r.helpers && r.entries[r.helpers[k]].acquiring ensures exists o :: Makes(r, o, k) {
      StillMade(s, e, k);
    }
  }

  lemma {:induction false} RunKeepsMakers(s: State, run: seq<Event>)
    requires MakersThere(s) && Legal(s, run)
    ensures MakersThere(Exec(s, run))
    decreases |run|
  {
    if run != [] {
      StepKeepsMakers(s, run[0]);
      RunKeepsMakers(Next(s, run[0]), run[1..]);
    }
  }

  /** In every run, an entry that is cached as being made is being made by an operation of its key: a creation that has
      failed leaves nothing behind that later callers would wait for. */
  lemma FailedCreationsAreForgotten(idleTtl: nat, run: seq<Event>, k: Key)
    requires Legal(Init(idleTtl), run)
    ensures var s := Exec(Init(idleTtl), run);
            k in s.helpers && s.entries[s.helpers[k]].acquiring ==> exists o :: Makes(s, o, k)
  {
    RunKeepsMakers(Init(idleTtl), run);
  }

  ghost predicate IsMade(ops: seq<Op>, x: EntryId) {
    exists p :: 0 <= p < |ops| && ops[p].phase == Creating(x)
  }

  ghost predicate SharersServed(s: State) {
    forall o :: 0 <= o < |s.ops| && s.ops[o].phase.Sharing? ==> IsMade(s.ops, s.ops[o].phase.entry)
  }

  lemma MadeOrSettled(s: State, e: Event, x: EntryId)
    requires WellFormed(s) && Enabled(s, e) && IsMade(s.ops, x)
    ensures IsMade(Next(s, e).ops, x) || (e.CreateEnds? && s.ops[e.op].phase.entry == x)
  {
    var p :| 0 <= p < |s.ops| && s.ops[p].phase == Creating(x);
    OperationStep(s, e, p);
    if Next(s, e).ops[p].phase == Creating(x) { assert IsMade(Next(s, e).ops, x); }
  }

  lemma StepServesSharers(s: State, e: Event)
    requires MakersThere(s) && SharersServed(s) && Enabled(s, e)
    ensures SharersServed(Next(s, e))
  {
    var r := Next(s, e);
    forall o | 0 <= o < |r.ops| && r.ops[o].phase.Sharing? ensures IsMade(r.ops, r.ops[o].phase.entry) {
      if o < |s.ops| {
        OperationStep(s, e, o);
        MadeOrSettled(s, e, s.ops[o].phase.entry);
      } else {
        BeginStep(s, e.key);
        var p: OpId :| Makes(s, p, e.key);
        assert r.ops[..|s.ops|][p] == s.ops[p];
      }
    }
  }

  lemma {:induction false} RunServesSharers(s: State, run: seq<Event>)
    requires MakersThere(s) && SharersServed(s) && Legal(s, run)
    ensures SharersServed(Exec(s, run))
    decreases |run|
  {
    if run != [] {
      StepKeepsMakers(s, run[0]);
      StepServesSharers(s, run[0]);
      RunServesSharers(Next(s, run[0]), run[1..]);
    }
  }

  /** In every run, a caller that waits for the creation of another waits for one that is under way, with whose end both
      get the container, or the error. */
  lemma SharersAreServed(idleTtl: nat, run: seq<Event>, o: OpId)
    requires Legal(Init(idleTtl), run)
    requires var s := Exec(Init(idleTtl), run); o < |s.ops| && s.ops[o].phase.Sharing?
    ensures var s := Exec(Init(idleTtl), run);
            exists p :: 0 <= p < |s.ops| && s.ops[p].phase == Creating(s.ops[o].phase.entry)
  {
    RunServesSharers(Init(idleTtl), run);
    assert IsMade(Exec(Init(idleTtl), run).ops, Exec(Init(idleTtl), run).ops[o].phase.entry);
  }

  // ---------- What unsafe steps lead to ----------

  /** A reap during the liveness check, whose answer is already on its way: the operation then runs in a
      removed helper and holds nothing. */
  lemma ReapInsideCheck(s: State, o: OpId) returns (run: seq<Event>)
    requires Inv(s) && s.sweep.Some? && NoneAcquired(s.ops)
    requires o < |s.ops| && s.ops[o].phase.Checking?
    requires Reapable(s.entries[s.ops[o].phase.entry], s.sweep.value, s.idleTtl)
    ensures run == [ReapVisit(s.ops[o].key), CheckEnds(o, true), Hold(o)]
    ensures Legal(s, run)
    ensures var r := Exec(s, run);
            && |r.ops| == |s.ops| && r.ops[o].key == s.ops[o].key && r.ops[o].phase.Holding?
            && r.ops[o].phase.container in r.removed && r.ops[o].key !in r.helpers
  {
    var k := s.ops[o].key;
    assert OpFits(SlotsOf(s), s.ops[o]);
    var s1 := Next(s, ReapVisit(k));
    var s2 := Next(s1, CheckEnds(o, true));
    Prepend(s2, Hold(o), []);
    Prepend(s1, CheckEnds(o, true), [Hold(o)]);
    Prepend(s, ReapVisit(k), [CheckEnds(o, true), Hold(o)]);
    run := [ReapVisit(k), CheckEnds(o, true), Hold(o)];
  }

  /** Its release is then charged to whoever made the next helper of the key. */
  lemma UncountedReleaseGoesNegative(s: State, o: OpId) returns (run: seq<Event>)
    requires WellFormed(s) && o < |s.ops| && s.ops[o].phase.Holding? && s.ops[o].key !in s.helpers
    ensures Legal(s, run)
    ensures var r := Exec(s, run);
            s.ops[o].key in r.helpers && r.entries[r.helpers[s.ops[o].key]].inFlight == -1
  {
    var k, n := s.ops[o].key, |s.ops|;
    var s1 := Next(s, Begin(k));
    var s2 := Next(s1, CreateEnds(n, true));
    var s3 := Next(s2, Finish(o));
    Prepend(s2, Finish(o), []);
    Prepend(s1, CreateEnds(n, true), [Finish(o)]);
    Prepend(s, Begin(k), [CreateEnds(n, true), Finish(o)]);
    run := [Begin(k)] + ([CreateEnds(n, true), Finish(o)]);
    assert [CreateEnds(n, true), Finish(o)] == [CreateEnds(n, true)] + [Finish(o)];
  }

  /** A helper that dies on its own while it is held: the recreated entry starts at zero and the old
      holder's release makes it negative. */
  lemma DeadHelperGoesNegative(s: State, o: OpId, p: OpId) returns (run: seq<Event>)
    requires Inv(s) && o < |s.ops| && p < |s.ops| && s.ops[o].key == s.ops[p].key
    requires s.ops[o].phase.Holding? && s.ops[p].phase.Checking?
    ensures run == [CheckEnds(p, false), Finish(o)] && Legal(s, run)
    ensures var r := Exec(s, run);
            s.ops[o].key in r.helpers && r.entries[r.helpers[s.ops[o].key]].inFlight == -1
  {
    var s1 := Next(s, CheckEnds(p, false));
    Prepend(s1, Finish(o), []);
    Prepend(s, CheckEnds(p, false), [Finish(o)]);
    run := [CheckEnds(p, false)] + [Finish(o)];
  }

  /** Two callers whose checks both find the helper dead do not share one creation. */
  lemma TwoChecksMakeTwo(s: State, o: OpId, p: OpId) returns (run: seq<Event>)
    requires WellFormed(s) && o < |s.ops| && p < |s.ops| && o != p && s.ops[o].key == s.ops[p].key
    requires s.ops[o].phase.Checking? && s.ops[p].phase.Checking?
    ensures run == [CheckEnds(o, false), CheckEnds(p, false)] && Legal(s, run)
    ensures var r := Exec(s, run);
            && |r.ops| == |s.ops| && r.ops[o].key == r.ops[p].key == s.ops[o].key
            && r.ops[o].phase.Creating? && r.ops[p].phase.Creating? && r.ops[o].phase != r.ops[p].phase
  {
    var s1 := Next(s, CheckEnds(o, false));
    Prepend(s1, CheckEnds(p, false), []);
    Prepend(s, CheckEnds(o, false), [CheckEnds(p, false)]);
    run := [CheckEnds(o, false)] + [CheckEnds(p, false)];
  }

  // ---------- Runs from the start that get there ----------

  lemma First(s: State, run: seq<Event>, e: Event, rest: seq<Event>)
    requires WellFormed(s) && Legal(s, run) && run == [e] + rest
    ensures Enabled(s, e) && Legal(Next(s, e), rest) && Exec(s, run) == Exec(Next(s, e), rest)
  {
    assert run[1..] == rest;
  }

  lemma PrependThree(s: State, a: Event, b: Event, c: Event, rest: seq<Event>)
    requires WellFormed(s) && Legal(s, [a, b, c]) && Legal(Exec(s, [a, b, c]), rest)
    ensures Legal(s, [a, b, c] + rest) && Exec(s, [a, b, c] + rest) == Exec(Exec(s, [a, b, c]), rest)
  {
    First(s, [a, b, c], a, [b, c]);
    var s1 := Next(s, a);
    First(s1, [b, c], b, [c]);
    var s2 := Next(s1, b);
    First(s2, [c], c, []);
    Prepend(s2, c, rest);
    Prepend(s1, b, [c] + rest);
    Prepend(s, a, [b] + ([c] + rest));
    assert [a, b, c] + rest == [a] + ([b] + ([c] + rest));
  }

  /** One operation under one key, which found the container 0 or had it made. */
  function OneOp(idleTtl: nat, k: Key, phase: Phase): State {
    State(idleTtl, 0, map[k := 0], [Entry(Some(0), 0, if phase.Holding? then 1 else 0, false)], [Op(k, phase)], None,
          {}, 1)
  }

  /** A run from the state in which the first operation holds the helper is one from the start. */
  lemma FromHeld(idleTtl: nat, k: Key, rest: seq<Event>) returns (run: seq<Event>)
    requires Legal(OneOp(idleTtl, k, Holding(0)), rest)
    ensures Legal(Init(idleTtl), run) && Exec(Init(idleTtl), run) == Exec(OneOp(idleTtl, k, Holding(0)), rest)
  {
    var s0 := Init(idleTtl);
    var s1 := State(idleTtl, 0, map[k := 0], [Entry(None, 0, 0, true)], [Op(k, Creating(0))], None, {}, 0);
    assert Next(s0, Begin(k)) == s1;
    assert Next(s1, CreateEnds(0, true)) == OneOp(idleTtl, k, Acquired(0));
    assert Next(OneOp(idleTtl, k, Acquired(0)), Hold(0)) == OneOp(idleTtl, k, Holding(0));
    Prepend(OneOp(idleTtl, k, Acquired(0)), Hold(0), rest);
    Prepend(s1, CreateEnds(0, true), [Hold(0)] + rest);
    Prepend(s0, Begin(k), [CreateEnds(0, true)] + ([Hold(0)] + rest));
    run := [Begin(k)] + ([CreateEnds(0, true)] + ([Hold(0)] + rest));
  }

  lemma FromIdle(idleTtl: nat, k: Key, rest: seq<Event>) returns (run: seq<Event>)
    requires Legal(OneOp(idleTtl, k, Ended), rest)
    ensures Legal(Init(idleTtl), run) && Exec(Init(idleTtl), run) == Exec(OneOp(idleTtl, k, Ended), rest)
  {
    var s := OneOp(idleTtl, k, Holding(0));
    assert Next(s, Finish(0)) == OneOp(idleTtl, k, Ended);
    Prepend(s, Finish(0), rest);
    run := FromHeld(idleTtl, k, [Finish(0)] + rest);
  }

  /** From the start: a helper dies while an operation holds it, and the count of the next one becomes -1. */
  lemma DeadHelperRun(idleTtl: nat, k: Key) returns (run: seq<Event>)
    ensures Legal(Init(idleTtl), run)
    ensures var r := Exec(Init(idleTtl), run); k in r.helpers && r.entries[r.helpers[k]].inFlight == -1
  {
    var s := OneOp(idleTtl, k, Holding(0));
    var s1 := HeldAndChecked(idleTtl, k);
    assert Next(s, Begin(k)) == s1;
    HeldAndCheckedInv(idleTtl, k);
    var rest := DeadHelperGoesNegative(s1, 0, 1);
    Prepend(s, Begin(k), rest);
    run := FromHeld(idleTtl, k, [Begin(k)] + rest);
  }

  /** One operation holds the helper, and another checks it. */
  function HeldAndChecked(idleTtl: nat, k: Key): State {
    OneOp(idleTtl, k, Holding(0)).(ops := [Op(k, Holding(0)), Op(k, Checking(0))])
  }

  lemma HeldAndCheckedInv(idleTtl: nat, k: Key)
    ensures Inv(HeldAndChecked(idleTtl, k))
  {
    var s := HeldAndChecked(idleTtl, k);
    assert SlotsOf(s) == map[k := Slot(0, Some(0), false, 1)];
    assert HoldersOf(s.ops, k) == {0};
  }

  /** From the start: two callers of one key each make a helper. */
  lemma TwoCreationsRun(idleTtl: nat, k: Key) returns (run: seq<Event>)
    ensures Legal(Init(idleTtl), run)
    ensures var r := Exec(Init(idleTtl), run);
            && |r.ops| == 3 && r.ops[1].key == r.ops[2].key == k
            && r.ops[1].phase.Creating? && r.ops[2].phase.Creating? && r.ops[1].phase != r.ops[2].phase
  {
    var s := OneOp(idleTtl, k, Ended);
    var s1 := s.(ops := [Op(k, Ended), Op(k, Checking(0))]);
    var s2 := s.(ops := [Op(k, Ended), Op(k, Checking(0)), Op(k, Checking(0))]);
    assert Next(s, Begin(k)) == s1 && Next(s1, Begin(k)) == s2;
    var rest := TwoChecksMakeTwo(s2, 1, 2);
    Prepend(s1, Begin(k), rest);
    Prepend(s, Begin(k), [Begin(k)] + rest);
    run := FromIdle(idleTtl, k, [Begin(k)] + ([Begin(k)] + rest));
  }

  /** The sweep has begun, and an acquire checks the idle helper. */
  function SweptWhileChecking(idleTtl: nat, k: Key): State {
    State(idleTtl, idleTtl + 1, map[k := 0], [Entry(Some(0), 0, 0, false)], [Op(k, Ended), Op(k, Checking(0))],
          Some(idleTtl + 1), {}, 1)
  }

  lemma FromSweep(idleTtl: nat, k: Key, rest: seq<Event>) returns (run: seq<Event>)
    requires Legal(SweptWhileChecking(idleTtl, k), rest)
    ensures Legal(Init(idleTtl), run) && Exec(Init(idleTtl), run) == Exec(SweptWhileChecking(idleTtl, k), rest)
  {
    var s := OneOp(idleTtl, k, Ended);
    var s1 := s.(clock := idleTtl + 1);
    var s2 := s1.(sweep := Some(idleTtl + 1));
    assert Next(s, Tick(idleTtl + 1)) == s1 && Next(s1, ReapStart) == s2;
    assert Next(s2, Begin(k)) == SweptWhileChecking(idleTtl, k);
    Prepend(s2, Begin(k), rest);
    Prepend(s1, ReapStart, [Begin(k)] + rest);
    Prepend(s, Tick(idleTtl + 1), [ReapStart] + ([Begin(k)] + rest));
    run := FromIdle(idleTtl, k, [Tick(idleTtl + 1)] + ([ReapStart] + ([Begin(k)] + rest)));
  }

  lemma SweptKeepsInv(idleTtl: nat, k: Key)
    ensures Inv(SweptWhileChecking(idleTtl, k))
  {
    var s := SweptWhileChecking(idleTtl, k);
    assert SlotsOf(s) == map[k := Slot(0, Some(0), false, 0)];
    assert HoldersOf(s.ops, k) == {};
  }

  /** From the start: a reap inside a liveness check leaves an operation in a removed helper. */
  lemma ReapInsideCheckRun(idleTtl: nat, k: Key) returns (run: seq<Event>)
    ensures Legal(Init(idleTtl), run)
    ensures var r := Exec(Init(idleTtl), run);
            && |r.ops| == 2 && r.ops[1].key == k && r.ops[1].phase.Holding?
            && r.ops[1].phase.container in r.removed && k !in r.helpers
  {
    SweptKeepsInv(idleTtl, k);
    var rest := ReapInsideCheck(SweptWhileChecking(idleTtl, k), 1);
    run := FromSweep(idleTtl, k, rest);
  }

  /** From the start: and the release of that operation makes the count of the next helper -1. */
  lemma UncountedReleaseRun(idleTtl: nat, k: Key) returns (run: seq<Event>)
    ensures Legal(Init(idleTtl), run)
    ensures var r := Exec(Init(idleTtl), run); k in r.helpers && r.entries[r.helpers[k]].inFlight == -1
  {
    var s := SweptWhileChecking(idleTtl, k);
    SweptKeepsInv(idleTtl, k);
    var rest := ReapInsideCheck(s, 1);
    var more := UncountedReleaseGoesNegative(Exec(s, rest), 1);
    PrependThree(s, ReapVisit(k), CheckEnds(1, true), Hold(1), more);
    run := FromSweep(idleTtl, k, rest + more);
  }
}
