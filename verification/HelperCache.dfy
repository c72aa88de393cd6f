/**
 The cache of warm helper containers: shared get-or-create, in-flight counts, and the idle reaper.

 Each method is a synchronous segment of the original between two awaits.  Entries are objects that
 callers keep across awaits, so `helpers` maps a key to the identity of an entry and `entries` is the
 heap of all entries ever made; a caller may go on using an entry that has left the map.
 */
module HelperCache {
  import opened Options

  type Key = string
  type EntryId = nat
  type Container = nat
  type OpId = nat

  datatype Entry = Entry(container: Option<Container>, lastUsed: int, inFlight: int, acquiring: bool)

  datatype Signal = StreamEnd | StreamClose | StreamError

  datatype Phase =
    | Checking(entry: EntryId)          // awaits isAlive of a cached entry
    | Creating(entry: EntryId)          // awaits the creation it started
    | Sharing(entry: EntryId)           // awaits the creation of another caller
    | Acquired(container: Container)    // acquire has resolved; its caller runs next
    | Holding(container: Container)     // the file operation (or the making of its stream) runs
    | Streaming(container: Container, released: bool, fired: set<Signal>)
    | Ended

  datatype Op = Op(key: Key, phase: Phase)

  datatype State = State(
    idleTtl: nat,
    clock: int,
    helpers: map<Key, EntryId>,
    entries: seq<Entry>,
    ops: seq<Op>,
    sweep: Option<int>,          // the time at which the running reap started
    removed: set<Container>,
    nextContainer: Container)

  datatype Event =
    | Tick(to: int)
    | Begin(key: Key)
    | CheckEnds(op: OpId, alive: bool)
    | CreateEnds(op: OpId, ok: bool)
    | Hold(op: OpId)
    | Finish(op: OpId)                 // the operation returned or threw
    | StreamMade(op: OpId)
    | StreamFires(op: OpId, signal: Signal)
    | ReapStart
    | ReapVisit(key: Key)
    | ReapEnd

  // ---------- Steps ----------

  ghost predicate WellFormed(s: State) {
    && (forall k <- s.helpers :: s.helpers[k] < |s.entries|)
    && (forall o :: 0 <= o < |s.ops| ==>
          match s.ops[o].phase
          case Checking(e) => e < |s.entries|
          case Creating(e) => e < |s.entries|
          case Sharing(e) => e < |s.entries|
          case _ => true)
  }

  /** The callers of a resolved acquire run before any timer or reply: no reap step comes between. */
  ghost predicate NoneAcquired(ops: seq<Op>) {
    forall o :: 0 <= o < |ops| ==> !ops[o].phase.Acquired?
  }

  ghost predicate Enabled(s: State, e: Event)
    requires WellFormed(s)
  {
    match e
    case Tick(to) => to >= s.clock
    case Begin(_) => true
    case CheckEnds(o, alive) =>
      o < |s.ops| && s.ops[o].phase.Checking? && (alive ==> s.entries[s.ops[o].phase.entry].container.Some?)
    case CreateEnds(o, _) => o < |s.ops| && s.ops[o].phase.Creating?
    case Hold(o) => o < |s.ops| && s.ops[o].phase.Acquired?
    case Finish(o) => o < |s.ops| && s.ops[o].phase.Holding?
    case StreamMade(o) => o < |s.ops| && s.ops[o].phase.Holding?
    case StreamFires(o, signal) =>
      o < |s.ops| && s.ops[o].phase.Streaming? && signal !in s.ops[o].phase.fired
    case ReapStart => s.sweep.None? && NoneAcquired(s.ops)
    case ReapVisit(k) => s.sweep.Some? && k in s.helpers && NoneAcquired(s.ops)
    case ReapEnd => s.sweep.Some? && NoneAcquired(s.ops)
  }

  function InPhase(ops: seq<Op>, o: OpId, phase: Phase): seq<Op>
    requires o < |ops|
  {
    ops[o := ops[o].(phase := phase)]
  }

  /** acquire from the point where it knows that it must create. */
  function StartCreate(s: State, o: OpId): State
    requires o < |s.ops|
  {
    var e := |s.entries|;
    s.(entries := s.entries + [Entry(None, s.clock, 0, true)],
       helpers := s.helpers[s.ops[o].key := e],
       ops := InPhase(s.ops, o, Creating(e)))
  }

  /** Everybody who awaits the creation of entry `e` goes on. */
  function CreationSettled(ops: seq<Op>, e: EntryId, phase: Phase): seq<Op> {
    seq(|ops|, o requires 0 <= o < |ops| =>
      if ops[o].phase == Creating(e) || ops[o].phase == Sharing(e) then ops[o].(phase := phase) else ops[o])
  }

  /** The entry now under the key, whichever it is, is counted up or down; nothing if there is none. */
  function Counted(s: State, key: Key, delta: int): State
    requires key in s.helpers ==> s.helpers[key] < |s.entries|
  {
    if key !in s.helpers then s
    else
      var e := s.helpers[key];
      s.(entries := s.entries[e := s.entries[e].(inFlight := s.entries[e].inFlight + delta, lastUsed := s.clock)])
  }

  predicate Reapable(x: Entry, now: int, idleTtl: nat) {
    !x.acquiring && x.inFlight <= 0 && now - x.lastUsed > idleTtl
  }

  ghost function Begun(s: State, k: Key): (r: State)
    requires WellFormed(s)
    ensures WellFormed(r)
  {
    if k !in s.helpers then StartCreate(s.(ops := s.ops + [Op(k, Ended)]), |s.ops|)
    else if s.entries[s.helpers[k]].acquiring then s.(ops := s.ops + [Op(k, Sharing(s.helpers[k]))])
    else s.(ops := s.ops + [Op(k, Checking(s.helpers[k]))])
  }

  ghost function Checked(s: State, o: OpId, alive: bool): (r: State)
    requires WellFormed(s) && Enabled(s, CheckEnds(o, alive))
    ensures WellFormed(r)
  {
    var x := s.ops[o].phase.entry;
    if alive then
      s.(entries := s.entries[x := s.entries[x].(lastUsed := s.clock)],
         ops := InPhase(s.ops, o, Acquired(s.entries[x].container.value)))
    else StartCreate(s.(helpers := s.helpers - {s.ops[o].key}), o)
  }

  ghost function Created(s: State, o: OpId, ok: bool): (r: State)
    requires WellFormed(s) && Enabled(s, CreateEnds(o, ok))
    ensures WellFormed(r)
  {
    var x := s.ops[o].phase.entry;
    if ok then
      s.(entries := s.entries[x := s.entries[x].(container := Some(s.nextContainer), lastUsed := s.clock,
                                                 acquiring := false)],
         ops := CreationSettled(s.ops, x, Acquired(s.nextContainer)),
         nextContainer := s.nextContainer + 1)
    else
      s.(helpers := s.helpers - {s.ops[o].key}, ops := CreationSettled(s.ops, x, Ended))
  }

  ghost function Held(s: State, o: OpId): (r: State)
    requires WellFormed(s) && Enabled(s, Hold(o))
    ensures WellFormed(r)
  {
    Counted(s, s.ops[o].key, 1).(ops := InPhase(s.ops, o, Holding(s.ops[o].phase.container)))
  }

  ghost function Finished(s: State, o: OpId): (r: State)
    requires WellFormed(s) && Enabled(s, Finish(o))
    ensures WellFormed(r)
  {
    Counted(s, s.ops[o].key, -1).(ops := InPhase(s.ops, o, Ended))
  }

  /** The release closure of beginStream runs at each signal and acts at the first. */
  ghost function Fired(s: State, o: OpId, signal: Signal): (r: State)
    requires WellFormed(s) && Enabled(s, StreamFires(o, signal))
    ensures WellFormed(r)
  {
    var p := s.ops[o].phase;
    var r := if p.released then s else Counted(s, s.ops[o].key, -1);
    r.(ops := InPhase(s.ops, o, p.(released := true, fired := p.fired + {signal})))
  }

  ghost function Visited(s: State, k: Key): (r: State)
    requires WellFormed(s) && Enabled(s, ReapVisit(k))
    ensures WellFormed(r)
  {
    var x := s.entries[s.helpers[k]];
    if Reapable(x, s.sweep.value, s.idleTtl) then
      s.(helpers := s.helpers - {k},
         removed := s.removed + if x.container.Some? then {x.container.value} else {})
    else s
  }

  ghost function Next(s: State, e: Event): (r: State)
    requires WellFormed(s) && Enabled(s, e)
    ensures WellFormed(r)
  {
    match e
    case Tick(to) => s.(clock := to)
    case Begin(k) => Begun(s, k)
    case CheckEnds(o, alive) => Checked(s, o, alive)
    case CreateEnds(o, ok) => Created(s, o, ok)
    case Hold(o) => Held(s, o)
    case Finish(o) => Finished(s, o)
    case StreamMade(o) => s.(ops := InPhase(s.ops, o, Streaming(s.ops[o].phase.container, false, {})))
    case StreamFires(o, signal) => Fired(s, o, signal)
    case ReapStart => s.(sweep := Some(s.clock))
    case ReapVisit(k) => Visited(s, k)
    case ReapEnd => s.(sweep := None)
  }

  function Init(idleTtl: nat): State {
    State(idleTtl, 0, map[], [], [], None, {}, 0)
  }

  // ---------- The service ----------

  class VolumeHelperService {
    const idleTtl: nat
    var clock: int // what Date.now() answers
    var helpers: map<Key, EntryId>
    var entries: seq<Entry>
    var ops: seq<Op>
    var sweep: Option<int>
    var removed: set<Container>
    var nextContainer: Container

    ghost function Abs(): State
      reads this
    {
      State(idleTtl, clock, helpers, entries, ops, sweep, removed, nextContainer)
    }

    constructor (idleTtl: nat)
      ensures Abs() == Init(idleTtl)
    {
      this.idleTtl := idleTtl;
      clock, helpers, entries, ops := 0, map[], [], [];
      sweep, removed, nextContainer := None, {}, 0;
    }

    method Create(o: OpId)
      requires o < |ops|
      modifies this`helpers, this`entries, this`ops
      ensures Abs() == StartCreate(old(Abs()), o)
    {
      var e := |entries|;
      entries := entries + [Entry(None, clock, 0, true)];
      helpers := helpers[ops[o].key := e];
      ops := InPhase(ops, o, Creating(e));
    }

    method Acquire(key: Key) returns (o: OpId)
      requires WellFormed(Abs())
      modifies this
      ensures o == |old(ops)| && Abs() == Begun(old(Abs()), key)
    {
      o := |ops|;
      if key !in helpers {
        ops := ops + [Op(key, Ended)];
        Create(o);
      } else if entries[helpers[key]].acquiring {
        ops := ops + [Op(key, Sharing(helpers[key]))];
      } else {
        ops := ops + [Op(key, Checking(helpers[key]))];
      }
    }

    /** acquire after `await isAlive`, with the entry it read before. */
    method LivenessKnown(o: OpId, alive: bool)
      requires WellFormed(Abs()) && Enabled(Abs(), CheckEnds(o, alive))
      modifies this
      ensures Abs() == Checked(old(Abs()), o, alive)
    {
      var cached := ops[o].phase.entry;
      if alive {
        entries := entries[cached := entries[cached].(lastUsed := clock)];
        ops := InPhase(ops, o, Acquired(entries[cached].container.value));
      } else {
        helpers := helpers - {ops[o].key};
        Create(o);
      }
    }

    method CreationKnown(o: OpId, ok: bool)
      requires WellFormed(Abs()) && Enabled(Abs(), CreateEnds(o, ok))
      modifies this
      ensures Abs() == Created(old(Abs()), o, ok)
    {
      var e := ops[o].phase.entry;
      if ok {
        entries := entries[e := entries[e].(container := Some(nextContainer), lastUsed := clock, acquiring := false)];
        ops := CreationSettled(ops, e, Acquired(nextContainer));
        nextContainer := nextContainer + 1;
      } else {
        helpers := helpers - {ops[o].key};
        ops := CreationSettled(ops, e, Ended);
      }
    }

    method Count(key: Key, delta: int)
      requires WellFormed(Abs())
      modifies this`entries
      ensures Abs() == Counted(old(Abs()), key, delta)
    {
      if key in helpers {
        var e := helpers[key];
        entries := entries[e := entries[e].(inFlight := entries[e].inFlight + delta, lastUsed := clock)];
      }
    }

    method HoldHelper(o: OpId)
      requires WellFormed(Abs()) && Enabled(Abs(), Hold(o))
      modifies this
      ensures Abs() == Held(old(Abs()), o)
    {
      Count(ops[o].key, 1);
      ops := InPhase(ops, o, Holding(ops[o].phase.container));
    }

    /** The finally block of withHelper, and the catch block of beginStream. */
    method EndOperation(o: OpId)
      requires WellFormed(Abs()) && Enabled(Abs(), Finish(o))
      modifies this
      ensures Abs() == Finished(old(Abs()), o)
    {
      Count(ops[o].key, -1);
      ops := InPhase(ops, o, Ended);
    }

    method ReleaseStream(o: OpId, signal: Signal)
      requires WellFormed(Abs()) && Enabled(Abs(), StreamFires(o, signal))
      modifies this
      ensures Abs() == Fired(old(Abs()), o, signal)
    {
      var p := ops[o].phase;
      if !p.released {
        Count(ops[o].key, -1);
      }
      ops := InPhase(ops, o, p.(released := true, fired := p.fired + {signal}));
    }

    /** One turn of the loop of reap. */
    method VisitEntry(key: Key)
      requires WellFormed(Abs()) && Enabled(Abs(), ReapVisit(key))
      modifies this
      ensures Abs() == Visited(old(Abs()), key)
    {
      var entry := entries[helpers[key]];
      if entry.acquiring || entry.inFlight > 0 {
        return;
      }
      if sweep.value - entry.lastUsed > idleTtl {
        helpers := helpers - {key};
        if entry.container.Some? {
          removed := removed + {entry.container.value};
        }
      }
    }
  }
}
