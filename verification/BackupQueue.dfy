/**
 The backup scheduler: one promise chain per key and one counting semaphore with a FIFO waiter list.

 Each method of the class is one synchronous segment of the original between two awaits, so a run of
 the program is a sequence of `Event`s in any order the promises allow.  The class is proved to take
 exactly the steps of `Next`; the lemmas below speak about every run of `Next`.
 */
module BackupQueues {
  import opened Options

  type JobId = nat

  datatype Phase =
    | Chained           // behind `previous` in the promise chain of its key
    | Waiting           // called acquire with every slot taken: its resolver sits in `waiters`
    | Granted           // owns a slot, its task has not been called yet
    | Running           // owns a slot, its task is in progress
    | Settled(ok: bool) // its promise is fulfilled or rejected

  datatype Job = Job(key: string, previous: Option<JobId>, phase: Phase)

  /** `arrived`, `granted` and `started` record, in order, the calls of acquire, the slots handed out
      and the calls of a task.  No step reads them. */
  datatype State = State(
    maxConcurrent: nat,
    active: int,
    tails: map<string, JobId>,
    waiters: seq<JobId>,
    jobs: seq<Job>,
    arrived: seq<JobId>,
    granted: seq<JobId>,
    started: seq<JobId>)

  datatype Event =
    | Enqueue(key: string)
    | PreviousSettled(id: JobId)
    | Begin(id: JobId)
    | End(id: JobId, ok: bool)

  // ---------- Steps ----------

  function Init(maxConcurrent: nat): State {
    State(maxConcurrent, 0, map[], [], [], [], [], [])
  }

  ghost predicate WellFormed(s: State) {
    && (forall k <- s.tails :: s.tails[k] < |s.jobs|)
    && (forall w :: 0 <= w < |s.waiters| ==> s.waiters[w] < |s.jobs|)
    && (forall j {:trigger s.jobs[j].previous} :: 0 <= j < |s.jobs| && s.jobs[j].previous.Some? ==>
          s.jobs[j].previous.value < j)
  }

  /** A rejected predecessor counts as settled: the chain catches its error before going on. */
  ghost predicate Enabled(s: State, e: Event)
    requires WellFormed(s)
  {
    match e
    case Enqueue(_) => true
    case PreviousSettled(id) =>
      && id < |s.jobs|
      && s.jobs[id].phase.Chained?
      && (s.jobs[id].previous.Some? ==> s.jobs[s.jobs[id].previous.value].phase.Settled?)
    case Begin(id) => id < |s.jobs| && s.jobs[id].phase.Granted?
    case End(id, _) => id < |s.jobs| && s.jobs[id].phase.Running?
  }

  function WithPhase(jobs: seq<Job>, id: JobId, phase: Phase): (r: seq<Job>)
    requires id < |jobs|
  {
    jobs[id := jobs[id].(phase := phase)]
  }

  ghost function Acquired(s: State, id: JobId): (r: State)
    requires WellFormed(s) && id < |s.jobs|
    ensures WellFormed(r)
  {
    var s := s.(arrived := s.arrived + [id]);
    if s.active < s.maxConcurrent then
      s.(active := s.active + 1, granted := s.granted + [id], jobs := WithPhase(s.jobs, id, Granted))
    else
      s.(waiters := s.waiters + [id], jobs := WithPhase(s.jobs, id, Waiting))
  }

  ghost function Released(s: State): (r: State)
    requires WellFormed(s)
    ensures WellFormed(r) && |r.jobs| == |s.jobs|
  {
    var s := s.(active := s.active - 1);
    if s.waiters == [] then s else
      s.(waiters := s.waiters[1..],
         active := s.active + 1,
         granted := s.granted + [s.waiters[0]],
         jobs := WithPhase(s.jobs, s.waiters[0], Granted))
  }

  ghost function Next(s: State, e: Event): (r: State)
    requires WellFormed(s) && Enabled(s, e)
    ensures WellFormed(r)
  {
    match e
    case Enqueue(key) =>
      var previous := if key in s.tails then Some(s.tails[key]) else None;
      s.(jobs := s.jobs + [Job(key, previous, Chained)], tails := s.tails[key := |s.jobs|])
    case PreviousSettled(id) => Acquired(s, id)
    case Begin(id) => s.(jobs := WithPhase(s.jobs, id, Running), started := s.started + [id])
    case End(id, ok) =>
      var r := Released(s);
      r.(jobs := WithPhase(r.jobs, id, Settled(ok)))
  }

  // ---------- The class ----------

  class BackupQueue {
    const maxConcurrent: nat
    var tails: map<string, JobId>
    var waiters: seq<JobId>
    var active: int
    // The promises of the chains; in the original the runtime keeps them.
    var jobs: seq<Job>
    ghost var arrived: seq<JobId>
    ghost var granted: seq<JobId>
    ghost var started: seq<JobId>

    ghost function Abs(): State
      reads this
    {
      State(maxConcurrent, active, tails, waiters, jobs, arrived, granted, started)
    }

    constructor (maxConcurrent: nat)
      ensures Abs() == Init(maxConcurrent)
    {
      this.maxConcurrent := maxConcurrent;
      tails, waiters, active, jobs := map[], [], 0, [];
      arrived, granted, started := [], [], [];
    }

    method Enqueue(key: string) returns (id: JobId)
      requires WellFormed(Abs())
      modifies this
      ensures id == |old(jobs)|
      ensures Abs() == Next(old(Abs()), Event.Enqueue(key))
    {
      var previous := if key in tails then Some(tails[key]) else None;
      id := |jobs|;
      jobs := jobs + [Job(key, previous, Chained)];
      tails := tails[key := id];
    }

    /** The continuation of the chain: runWithLimit up to its await. */
    method RunWithLimit(id: JobId)
      requires WellFormed(Abs()) && Enabled(Abs(), PreviousSettled(id))
      modifies this
      ensures Abs() == Next(old(Abs()), PreviousSettled(id))
    {
      Acquire(id);
    }

    method Acquire(id: JobId)
      requires WellFormed(Abs()) && id < |jobs|
      modifies this
      ensures Abs() == Acquired(old(Abs()), id)
    {
      arrived := arrived + [id];
      if active < maxConcurrent {
        active := active + 1;
        granted := granted + [id];
        jobs := WithPhase(jobs, id, Granted);
      } else {
        waiters := waiters + [id];
        jobs := WithPhase(jobs, id, Waiting);
      }
    }

    method StartTask(id: JobId)
      requires WellFormed(Abs()) && Enabled(Abs(), Begin(id))
      modifies this
      ensures Abs() == Next(old(Abs()), Begin(id))
    {
      jobs := WithPhase(jobs, id, Running);
      started := started + [id];
    }

    /** The task returned (`ok`) or threw: the finally block runs and the job's promise settles. */
    method EndTask(id: JobId, ok: bool)
      requires WellFormed(Abs()) && Enabled(Abs(), End(id, ok))
      modifies this
      ensures Abs() == Next(old(Abs()), End(id, ok))
    {
      Release();
      jobs := WithPhase(jobs, id, Settled(ok));
    }

    method Release()
      requires WellFormed(Abs())
      modifies this
      ensures Abs() == Released(old(Abs()))
    {
      active := active - 1;
      if waiters != [] {
        var next := waiters[0];
        waiters := waiters[1..];
        active := active + 1;
        granted := granted + [next];
        jobs := WithPhase(jobs, next, Granted);
      }
    }
  }

  // ---------- The invariant ----------

  predicate HoldsSlot(p: Phase) { p.Granted? || p.Running? }

  predicate HasStarted(p: Phase) { p.Running? || p.Settled? }

  ghost function Holders(jobs: seq<Job>): set<JobId> {
    set i: JobId | i < |jobs| && HoldsSlot(jobs[i].phase)
  }

  ghost predicate Distinct(ids: seq<JobId>) {
    forall a, b :: 0 <= a < b < |ids| ==> ids[a] != ids[b]
  }

  ghost predicate SlotsCounted(s: State) {
    s.active == |Holders(s.jobs)| <= s.maxConcurrent
  }

  ghost predicate WaitersExact(jobs: seq<Job>, waiters: seq<JobId>) {
    && Distinct(waiters)
    && (forall w: JobId :: w in waiters <==> w < |jobs| && jobs[w].phase.Waiting?)
  }

  ghost predicate WorkConserving(s: State) {
    s.waiters != [] ==> s.active == s.maxConcurrent
  }

  /** The last of the first `n` jobs that has this key. */
  ghost function LastOfKey(jobs: seq<Job>, n: nat, key: string): Option<JobId>
    requires n <= |jobs|
  {
    if n == 0 then None
    else if jobs[n - 1].key == key then Some(n - 1)
    else LastOfKey(jobs, n - 1, key)
  }

  /** Each job is chained to the last earlier job of its key, and `tails` has the last job of each key. */
  ghost predicate ChainsLinked(jobs: seq<Job>, tails: map<string, JobId>) {
    && (forall j {:trigger LastOfKey(jobs, j, jobs[j].key)} :: 0 <= j < |jobs| ==>
          jobs[j].previous == LastOfKey(jobs, j, jobs[j].key))
    && (forall k: string :: LastOfKey(jobs, |jobs|, k) == if k in tails then Some(tails[k]) else None)
  }

  /** A job leaves its chain only after every earlier job of its key has settled. */
  ghost predicate OneAtATimePerKey(jobs: seq<Job>) {
    forall i, j :: 0 <= i < j < |jobs| && jobs[i].key == jobs[j].key && !jobs[j].phase.Chained? ==>
      jobs[i].phase.Settled?
  }

  /** Slots are handed out in the order in which they were asked for. */
  ghost predicate NoBarging(s: State) {
    s.arrived == s.granted + s.waiters
  }

  ghost predicate StartsRecorded(jobs: seq<Job>, started: seq<JobId>) {
    && (forall a :: 0 <= a < |started| ==> started[a] < |jobs|)
    && (forall i: JobId :: i in started <==> i < |jobs| && HasStarted(jobs[i].phase))
    && (forall a, b :: 0 <= a < b < |started| && jobs[started[a]].key == jobs[started[b]].key ==>
          started[a] < started[b])
  }

  ghost predicate Inv(s: State) {
    && WellFormed(s)
    && SlotsCounted(s)
    && WaitersExact(s.jobs, s.waiters)
    && WorkConserving(s)
    && ChainsLinked(s.jobs, s.tails)
    && OneAtATimePerKey(s.jobs)
    && NoBarging(s)
    && StartsRecorded(s.jobs, s.started)
  }

  lemma InitInv(maxConcurrent: nat)
    ensures Inv(Init(maxConcurrent))
  {
    assert Holders([]) == {};
  }

  // ---------- What one change of phase does ----------

  lemma HoldersAfter(jobs: seq<Job>, id: JobId, phase: Phase)
    requires id < |jobs|
    ensures Holders(WithPhase(jobs, id, phase)) == Holders(jobs) - {id} + if HoldsSlot(phase) then {id} else {}
  {
  }

  lemma {:induction false} LastOfKeyIsLast(jobs: seq<Job>, n: nat, key: string)
    requires n <= |jobs|
    ensures match LastOfKey(jobs, n, key)
            case None => forall i :: 0 <= i < n ==> jobs[i].key != key
            case Some(p) => p < n && jobs[p].key == key && forall i :: p < i < n ==> jobs[i].key != key
  {
    if n > 0 && jobs[n - 1].key != key {
      LastOfKeyIsLast(jobs, n - 1, key);
    }
  }

  lemma {:induction false} LastOfKeyReadsKeys(jobs: seq<Job>, others: seq<Job>, n: nat, key: string)
    requires n <= |jobs| && n <= |others|
    requires forall i :: 0 <= i < n ==> jobs[i].key == others[i].key
    ensures LastOfKey(jobs, n, key) == LastOfKey(others, n, key)
  {
    if n > 0 {
      LastOfKeyReadsKeys(jobs, others, n - 1, key);
    }
  }

  lemma LinksAfter(jobs: seq<Job>, tails: map<string, JobId>, id: JobId, phase: Phase)
    requires id < |jobs| && ChainsLinked(jobs, tails)
    ensures ChainsLinked(WithPhase(jobs, id, phase), tails)
  {
    var r := WithPhase(jobs, id, phase);
    forall n: nat, key | n <= |jobs|
      ensures LastOfKey(r, n, key) == LastOfKey(jobs, n, key)
    {
      LastOfKeyReadsKeys(jobs, r, n, key);
    }
  }

  lemma LinksAfterEnqueue(jobs: seq<Job>, tails: map<string, JobId>, key: string)
    requires ChainsLinked(jobs, tails)
    ensures ChainsLinked(jobs + [Job(key, if key in tails then Some(tails[key]) else None, Chained)],
                         tails[key := |jobs|])
  {
    var r := jobs + [Job(key, if key in tails then Some(tails[key]) else None, Chained)];
    forall n: nat, key | n <= |jobs|
      ensures LastOfKey(r, n, key) == LastOfKey(jobs, n, key)
    {
      LastOfKeyReadsKeys(jobs, r, n, key);
    }
  }

  lemma OneAtATimeAfter(jobs: seq<Job>, id: JobId, phase: Phase)
    requires id < |jobs| && OneAtATimePerKey(jobs)
    requires jobs[id].phase.Settled? ==> phase.Settled?
    requires jobs[id].phase.Chained? ==>
               forall i :: 0 <= i < id && jobs[i].key == jobs[id].key ==> jobs[i].phase.Settled?
    ensures OneAtATimePerKey(WithPhase(jobs, id, phase))
  {
  }

  /** When the job it is chained to has settled, so has every earlier job of its key. */
  lemma EarlierSettled(jobs: seq<Job>, tails: map<string, JobId>, id: JobId)
    requires ChainsLinked(jobs, tails) && OneAtATimePerKey(jobs) && id < |jobs|
    requires jobs[id].previous.Some? ==>
               jobs[id].previous.value < |jobs| && jobs[jobs[id].previous.value].phase.Settled?
    ensures forall i :: 0 <= i < id && jobs[i].key == jobs[id].key ==> jobs[i].phase.Settled?
  {
    LastOfKeyIsLast(jobs, id, jobs[id].key);
  }

  lemma WaitersAfter(jobs: seq<Job>, waiters: seq<JobId>, id: JobId, phase: Phase)
    requires id < |jobs| && WaitersExact(jobs, waiters)
    requires phase.Waiting? == jobs[id].phase.Waiting?
    ensures WaitersExact(WithPhase(jobs, id, phase), waiters)
  {
  }

  lemma WaitersAfterWait(jobs: seq<Job>, waiters: seq<JobId>, id: JobId)
    requires id < |jobs| && WaitersExact(jobs, waiters) && !jobs[id].phase.Waiting?
    ensures WaitersExact(WithPhase(jobs, id, Waiting), waiters + [id])
  {
  }

  lemma WaitersAfterGrant(jobs: seq<Job>, waiters: seq<JobId>)
    requires WaitersExact(jobs, waiters) && waiters != []
    ensures waiters[0] < |jobs| && jobs[waiters[0]].phase.Waiting?
    ensures WaitersExact(WithPhase(jobs, waiters[0], Granted), waiters[1..])
  {
    var rest := waiters[1..];
    assert waiters[0] in waiters;
    assert forall a :: 0 <= a < |rest| ==> rest[a] == waiters[a + 1];
    forall w | w in waiters && w != waiters[0]
      ensures w in rest
    {
      var a :| 0 <= a < |waiters| && waiters[a] == w;
      assert rest[a - 1] == w;
    }
    assert waiters[0] !in rest;
    assert Distinct(rest);
  }

  lemma StartsAfter(jobs: seq<Job>, started: seq<JobId>, id: JobId, phase: Phase)
    requires id < |jobs| && StartsRecorded(jobs, started)
    requires HasStarted(phase) == HasStarted(jobs[id].phase)
    ensures StartsRecorded(WithPhase(jobs, id, phase), started)
  {
    var r := WithPhase(jobs, id, phase);
    assert forall j :: 0 <= j < |jobs| ==> r[j].key == jobs[j].key;
  }

  lemma StartsAfterBegin(jobs: seq<Job>, started: seq<JobId>, id: JobId)
    requires id < |jobs| && StartsRecorded(jobs, started) && OneAtATimePerKey(jobs)
    requires jobs[id].phase.Granted?
    ensures StartsRecorded(WithPhase(jobs, id, Running), started + [id])
  {
    var r := WithPhase(jobs, id, Running);
    assert forall j :: 0 <= j < |jobs| ==> r[j].key == jobs[j].key;
    forall a | 0 <= a < |started| && jobs[started[a]].key == jobs[id].key
      ensures started[a] < id
    {
      assert started[a] in started;
    }
  }

  lemma StartsAfterEnqueue(jobs: seq<Job>, started: seq<JobId>, job: Job)
    requires StartsRecorded(jobs, started) && job.phase.Chained?
    ensures StartsRecorded(jobs + [job], started)
  {
  }

  // ---------- Every step keeps the invariant ----------

  /** Any state between two steps; `Next` needs no more. */
  ghost predicate Ready(s: State, e: Event) {
    WellFormed(s) && Enabled(s, e)
  }

  lemma SlotsAfterAcquire(s: State, id: JobId)
    requires Ready(s, PreviousSettled(id)) && SlotsCounted(s)
    ensures SlotsCounted(Next(s, PreviousSettled(id)))
  {
    HoldersAfter(s.jobs, id, if s.active < s.maxConcurrent then Granted else Waiting);
    assert id !in Holders(s.jobs);
  }

  lemma SlotsAfterBegin(s: State, id: JobId)
    requires Ready(s, Begin(id))
    ensures Holders(Next(s, Begin(id)).jobs) == Holders(s.jobs)
  {
    HoldersAfter(s.jobs, id, Running);
  }

  lemma SlotsAfterEnd(s: State, id: JobId, ok: bool)
    requires Ready(s, End(id, ok)) && WaitersExact(s.jobs, s.waiters)
    ensures var after := Holders(Next(s, End(id, ok)).jobs);
            if s.waiters == [] then after == Holders(s.jobs) - {id}
            else s.waiters[0] !in Holders(s.jobs) && after == Holders(s.jobs) + {s.waiters[0]} - {id}
  {
    HoldersAfter(Released(s).jobs, id, Settled(ok));
    if s.waiters != [] {
      WaitersAfterGrant(s.jobs, s.waiters);
      HoldersAfter(s.jobs, s.waiters[0], Granted);
    }
  }

  lemma SlotsAfterEnqueue(s: State, key: string)
    requires Ready(s, Event.Enqueue(key))
    ensures Holders(Next(s, Event.Enqueue(key)).jobs) == Holders(s.jobs)
  {
  }

  lemma EndStaysCounted(s: State, id: JobId, ok: bool)
    requires Ready(s, End(id, ok)) && SlotsCounted(s) && WaitersExact(s.jobs, s.waiters)
    ensures SlotsCounted(Next(s, End(id, ok)))
  {
    SlotsAfterEnd(s, id, ok);
    ExchangedSize(Holders(s.jobs), id, if s.waiters == [] then None else Some(s.waiters[0]));
  }

  /** One holder out and perhaps one in. */
  lemma ExchangedSize(holders: set<JobId>, out: JobId, next: Option<JobId>)
    requires out in holders && (next.Some? ==> next.value !in holders)
    ensures next.None? ==> |holders - {out}| == |holders| - 1
    ensures next.Some? ==> |holders + {next.value} - {out}| == |holders|
  {
  }

  lemma SlotsStayCounted(s: State, e: Event)
    requires Ready(s, e) && SlotsCounted(s) && WaitersExact(s.jobs, s.waiters)
    ensures SlotsCounted(Next(s, e))
  {
    match e
    case Enqueue(key) => SlotsAfterEnqueue(s, key);
    case PreviousSettled(id) => SlotsAfterAcquire(s, id);
    case Begin(id) => SlotsAfterBegin(s, id);
    case End(id, ok) => EndStaysCounted(s, id, ok);
  }

  lemma WaitersStayExact(s: State, e: Event)
    requires Ready(s, e) && WaitersExact(s.jobs, s.waiters)
    ensures WaitersExact(Next(s, e).jobs, Next(s, e).waiters)
  {
    match e
    case Enqueue(_) =>
    case PreviousSettled(id) =>
      if s.active < s.maxConcurrent {
        WaitersAfter(s.jobs, s.waiters, id, Granted);
      } else {
        WaitersAfterWait(s.jobs, s.waiters, id);
      }
    case Begin(id) => WaitersAfter(s.jobs, s.waiters, id, Running);
    case End(id, ok) =>
      if s.waiters != [] { WaitersAfterGrant(s.jobs, s.waiters); }
      WaitersAfter(Released(s).jobs, Released(s).waiters, id, Settled(ok));
  }

  lemma StaysWorkConserving(s: State, e: Event)
    requires Ready(s, e) && WorkConserving(s) && SlotsCounted(s)
    ensures WorkConserving(Next(s, e))
  {
  }

  lemma ChainsStayLinked(s: State, e: Event)
    requires Ready(s, e) && ChainsLinked(s.jobs, s.tails)
    ensures ChainsLinked(Next(s, e).jobs, Next(s, e).tails)
  {
    match e
    case Enqueue(key) => LinksAfterEnqueue(s.jobs, s.tails, key);
    case PreviousSettled(id) => LinksAfter(s.jobs, s.tails, id, Next(s, e).jobs[id].phase);
    case Begin(id) => LinksAfter(s.jobs, s.tails, id, Running);
    case End(id, ok) =>
      if s.waiters != [] { LinksAfter(s.jobs, s.tails, s.waiters[0], Granted); }
      LinksAfter(Released(s).jobs, s.tails, id, Settled(ok));
  }

  lemma OneAtATimeAfterRelease(s: State)
    requires WellFormed(s) && OneAtATimePerKey(s.jobs) && WaitersExact(s.jobs, s.waiters)
    ensures OneAtATimePerKey(Released(s).jobs)
    ensures forall i :: 0 <= i < |s.jobs| && s.jobs[i].phase.Running? ==> Released(s).jobs[i].phase.Running?
  {
    if s.waiters != [] {
      WaitersAfterGrant(s.jobs, s.waiters);
      OneAtATimeAfter(s.jobs, s.waiters[0], Granted);
    }
  }

  lemma StaysOneAtATime(s: State, e: Event)
    requires Ready(s, e) && OneAtATimePerKey(s.jobs) && ChainsLinked(s.jobs, s.tails)
    requires WaitersExact(s.jobs, s.waiters)
    ensures OneAtATimePerKey(Next(s, e).jobs)
  {
    match e
    case Enqueue(_) =>
    case PreviousSettled(id) =>
      EarlierSettled(s.jobs, s.tails, id);
      OneAtATimeAfter(s.jobs, id, Next(s, e).jobs[id].phase);
    case Begin(id) => OneAtATimeAfter(s.jobs, id, Running);
    case End(id, ok) =>
      OneAtATimeAfterRelease(s);
      OneAtATimeAfter(Released(s).jobs, id, Settled(ok));
  }

  lemma StaysNoBarging(s: State, e: Event)
    requires Ready(s, e) && NoBarging(s) && WorkConserving(s)
    ensures NoBarging(Next(s, e))
  {
    var r := Next(s, e);
    assert r.arrived == r.granted + r.waiters;
  }

  lemma StartsStayRecorded(s: State, e: Event)
    requires Ready(s, e) && StartsRecorded(s.jobs, s.started) && OneAtATimePerKey(s.jobs)
    requires WaitersExact(s.jobs, s.waiters)
    ensures StartsRecorded(Next(s, e).jobs, Next(s, e).started)
  {
    match e
    case Enqueue(key) => StartsAfterEnqueue(s.jobs, s.started, Next(s, e).jobs[|s.jobs|]);
    case PreviousSettled(id) => StartsAfter(s.jobs, s.started, id, Next(s, e).jobs[id].phase);
    case Begin(id) => StartsAfterBegin(s.jobs, s.started, id);
    case End(id, ok) =>
      if s.waiters != [] {
        WaitersAfterGrant(s.jobs, s.waiters);
        StartsAfter(s.jobs, s.started, s.waiters[0], Granted);
      }
      StartsAfter(Released(s).jobs, s.started, id, Settled(ok));
  }

  lemma StepKeepsInv(s: State, e: Event)
    requires Inv(s) && Enabled(s, e)
    ensures Inv(Next(s, e))
  {
    SlotsStayCounted(s, e);
    WaitersStayExact(s, e);
    StaysWorkConserving(s, e);
    ChainsStayLinked(s, e);
    StaysOneAtATime(s, e);
    StaysNoBarging(s, e);
    StartsStayRecorded(s, e);
  }

  /** How one step can change the phase of a job; its key never changes. */
  lemma PhasesAfter(s: State, e: Event)
    requires Ready(s, e) && WaitersExact(s.jobs, s.waiters)
    ensures var r := Next(s, e);
            && |r.jobs| == |s.jobs| + (if e.Enqueue? then 1 else 0)
            && forall i :: 0 <= i < |s.jobs| ==>
                 && r.jobs[i].key == s.jobs[i].key
                 && (HasStarted(s.jobs[i].phase) ==> HasStarted(r.jobs[i].phase))
                 && (r.jobs[i].phase.Running? ==> s.jobs[i].phase.Running? || e == Begin(i))
                 && (r.jobs[i].phase.Settled? ==>
                       s.jobs[i].phase == r.jobs[i].phase || e == End(i, r.jobs[i].phase.ok))
  {
    if e.End? && s.waiters != [] { WaitersAfterGrant(s.jobs, s.waiters); }
  }

  // ---------- Every run ----------

  /** The events can happen one after the other from `s`. */
  ghost predicate Legal(s: State, run: seq<Event>)
    requires WellFormed(s)
    decreases |run|
  {
    run == [] || (Enabled(s, run[0]) && Legal(Next(s, run[0]), run[1..]))
  }

  ghost function Exec(s: State, run: seq<Event>): (r: State)
    requires WellFormed(s) && Legal(s, run)
    ensures WellFormed(r)
    decreases |run|
  {
    if run == [] then s else Exec(Next(s, run[0]), run[1..])
  }

  lemma {:induction false} RunKeepsInv(s: State, run: seq<Event>)
    requires Inv(s) && Legal(s, run)
    ensures Inv(Exec(s, run)) && Exec(s, run).maxConcurrent == s.maxConcurrent
    decreases |run|
  {
    if run != [] {
      StepKeepsInv(s, run[0]);
      RunKeepsInv(Next(s, run[0]), run[1..]);
    }
  }

  /** The ids among `ids` whose job has this key, in the same order. */
  ghost function OfKey(jobs: seq<Job>, ids: seq<JobId>, key: string): (r: seq<JobId>)
    requires forall a :: 0 <= a < |ids| ==> ids[a] < |jobs|
  {
    if ids == [] then []
    else OfKey(jobs, ids[..|ids| - 1], key) +
         if jobs[ids[|ids| - 1]].key == key then [ids[|ids| - 1]] else []
  }

  ghost function AllIds(n: nat): (r: seq<JobId>)
    ensures |r| == n && forall i :: 0 <= i < n ==> r[i] == i
  {
    seq(n, i => i)
  }

  /** Safety, for every run from an empty queue: `active` counts the slot holders and never passes the
      limit; two jobs of one key are never out of their chain together; the tasks of each key start in
      exactly the order in which they were enqueued, and the slots are granted in the order asked for. */
  lemma EveryRunIsSafe(maxConcurrent: nat, run: seq<Event>)
    requires Legal(Init(maxConcurrent), run)
    ensures var s := Exec(Init(maxConcurrent), run);
            && s.active == |Holders(s.jobs)| <= maxConcurrent
            && (s.waiters != [] ==> s.active == maxConcurrent)
            && s.arrived == s.granted + s.waiters
            && (forall i, j :: 0 <= i < j < |s.jobs| && s.jobs[i].key == s.jobs[j].key ==>
                  s.jobs[j].phase.Chained? || s.jobs[i].phase.Settled?)
            && (forall a :: 0 <= a < |s.started| ==> s.started[a] < |s.jobs|)
            && forall key :: OfKey(s.jobs, s.started, key) <= OfKey(s.jobs, AllIds(|s.jobs|), key)
  {
    var s := Exec(Init(maxConcurrent), run);
    InitInv(maxConcurrent);
    RunKeepsInv(Init(maxConcurrent), run);
    forall key ensures OfKey(s.jobs, s.started, key) <= OfKey(s.jobs, AllIds(|s.jobs|), key) {
      StartsInEnqueueOrder(s, key);
    }
  }

  lemma {:induction false} OfKeyMembers(jobs: seq<Job>, ids: seq<JobId>, key: string)
    requires forall a :: 0 <= a < |ids| ==> ids[a] < |jobs|
    ensures forall x :: x in OfKey(jobs, ids, key) <==> x in ids && jobs[x].key == key
  {
    if ids != [] {
      var n := |ids| - 1;
      OfKeyMembers(jobs, ids[..n], key);
      assert ids == ids[..n] + [ids[n]];
    }
  }

  ghost predicate Ascending(ids: seq<JobId>) {
    forall a, b :: 0 <= a < b < |ids| ==> ids[a] < ids[b]
  }

  lemma {:induction false} OfKeyAscends(jobs: seq<Job>, ids: seq<JobId>, key: string)
    requires forall a :: 0 <= a < |ids| ==> ids[a] < |jobs|
    requires forall a, b :: 0 <= a < b < |ids| && jobs[ids[a]].key == jobs[ids[b]].key ==> ids[a] < ids[b]
    ensures Ascending(OfKey(jobs, ids, key))
  {
    if ids != [] {
      var n := |ids| - 1;
      var front := OfKey(jobs, ids[..n], key);
      OfKeyAscends(jobs, ids[..n], key);
      OfKeyMembers(jobs, ids[..n], key);
      forall a | 0 <= a < |front| && jobs[ids[n]].key == key
        ensures front[a] < ids[n]
      {
        assert front[a] in ids[..n];
      }
    }
  }

  /** An ascending sequence that has everything of `all` below its own members is a prefix of it. */
  lemma {:induction false} AscendingPrefix(some: seq<JobId>, all: seq<JobId>)
    requires Ascending(some) && Ascending(all)
    requires forall x :: x in some ==> x in all
    requires forall x, y :: x in all && y in some && x < y ==> x in some
    ensures some <= all
  {
    if some != [] {
      var n := |some| - 1;
      assert some == some[..n] + [some[n]];
      forall x, y | x in all && y in some[..n] && x < y
        ensures x in some[..n]
      {
        assert y in some && x in some && y < some[n];
      }
      AscendingPrefix(some[..n], all);
      assert some[n] in some;
      var m :| 0 <= m < |all| && all[m] == some[n];
      assert n <= m && all[n] <= some[n];
      assert all[n] in some;
    }
  }

  lemma StartsInEnqueueOrder(s: State, key: string)
    requires Inv(s)
    ensures OfKey(s.jobs, s.started, key) <= OfKey(s.jobs, AllIds(|s.jobs|), key)
  {
    var ids := AllIds(|s.jobs|);
    OfKeyMembers(s.jobs, s.started, key);
    OfKeyMembers(s.jobs, ids, key);
    OfKeyAscends(s.jobs, s.started, key);
    OfKeyAscends(s.jobs, ids, key);
    forall x | x in s.started && s.jobs[x].key == key ensures x in ids { assert ids[x] == x; }
    AscendingPrefix(OfKey(s.jobs, s.started, key), OfKey(s.jobs, ids, key));
  }

  // ---------- Progress ----------

  predicate AllSettled(jobs: seq<Job>) {
    forall i :: 0 <= i < |jobs| ==> jobs[i].phase.Settled?
  }

  /** Something other than a new enqueue can happen. */
  ghost predicate CanMove(s: State)
    requires WellFormed(s)
  {
    exists e: Event :: !e.Enqueue? && Enabled(s, e)
  }

  /** With a slot to hand out, a job that is not done never leaves the queue stuck. */
  lemma NoDeadlock(s: State)
    requires Inv(s) && s.maxConcurrent >= 1 && !AllSettled(s.jobs)
    ensures CanMove(s)
  {
    var j: JobId := FirstUnsettled(s.jobs);
    if s.jobs[j].phase.Chained? {
      ChainedMoves(s, j);
    } else if s.jobs[j].phase.Waiting? {
      WaitingMoves(s, j);
    } else {
      HolderMoves(s, j);
    }
  }

  lemma ChainedMoves(s: State, j: JobId)
    requires Inv(s) && j < |s.jobs| && s.jobs[j].phase.Chained?
    requires forall i :: 0 <= i < j ==> s.jobs[i].phase.Settled?
    ensures CanMove(s)
  {
    LastOfKeyIsLast(s.jobs, j, s.jobs[j].key);
    assert Enabled(s, PreviousSettled(j));
  }

  lemma HolderMoves(s: State, j: JobId)
    requires WellFormed(s) && j < |s.jobs| && (s.jobs[j].phase.Granted? || s.jobs[j].phase.Running?)
    ensures CanMove(s)
  {
    assert Enabled(s, if s.jobs[j].phase.Granted? then Begin(j) else End(j, true));
  }

  /** A job waits while others hold all the slots. */
  lemma WaitingMoves(s: State, j: JobId)
    requires Inv(s) && s.maxConcurrent >= 1 && j < |s.jobs| && s.jobs[j].phase.Waiting?
    ensures CanMove(s)
  {
    assert j in s.waiters;
    assert Holders(s.jobs) != {};
    var h :| h in Holders(s.jobs);
    HolderMoves(s, h);
  }

  lemma {:induction false} FirstUnsettled(jobs: seq<Job>) returns (j: JobId)
    requires !AllSettled(jobs)
    ensures j < |jobs| && !jobs[j].phase.Settled? && forall i :: 0 <= i < j ==> jobs[i].phase.Settled?
  {
    j := 0;
    while jobs[j].phase.Settled?
      invariant j < |jobs| && forall i :: 0 <= i < j ==> jobs[i].phase.Settled?
      decreases |jobs| - j
    {
      j := j + 1;
      assert j < |jobs|;
    }
  }

  /** The steps a job still has to take. */
  function StepsLeft(p: Phase): nat {
    match p
    case Chained => 4
    case Waiting => 3
    case Granted => 2
    case Running => 1
    case Settled(_) => 0
  }

  ghost function Work(jobs: seq<Job>): nat {
    if jobs == [] then 0 else Work(jobs[..|jobs| - 1]) + StepsLeft(jobs[|jobs| - 1].phase)
  }

  lemma {:induction false} WorkAfter(jobs: seq<Job>, id: JobId, phase: Phase)
    requires id < |jobs|
    ensures Work(WithPhase(jobs, id, phase)) == Work(jobs) - StepsLeft(jobs[id].phase) + StepsLeft(phase)
  {
    var n := |jobs| - 1;
    var r := WithPhase(jobs, id, phase);
    if id < n {
      assert r[..n] == WithPhase(jobs[..n], id, phase);
      WorkAfter(jobs[..n], id, phase);
    } else {
      assert r[..n] == jobs[..n];
    }
  }

  lemma ReleaseDoesWork(s: State)
    requires WellFormed(s) && WaitersExact(s.jobs, s.waiters)
    ensures Work(Released(s).jobs) <= Work(s.jobs)
    ensures forall i :: 0 <= i < |s.jobs| && s.jobs[i].phase.Running? ==> Released(s).jobs[i].phase.Running?
  {
    if s.waiters != [] {
      WaitersAfterGrant(s.jobs, s.waiters);
      WorkAfter(s.jobs, s.waiters[0], Granted);
    }
  }

  lemma MoveDoesWork(s: State, e: Event)
    requires Ready(s, e) && !e.Enqueue? && WaitersExact(s.jobs, s.waiters)
    ensures Work(Next(s, e).jobs) < Work(s.jobs)
  {
    match e
    case PreviousSettled(id) => WorkAfter(s.jobs, id, Next(s, e).jobs[id].phase);
    case Begin(id) => WorkAfter(s.jobs, id, Running);
    case End(id, ok) => EndDoesWork(s, id, ok);
  }

  lemma EndDoesWork(s: State, id: JobId, ok: bool)
    requires Ready(s, End(id, ok)) && WaitersExact(s.jobs, s.waiters)
    ensures Work(Next(s, End(id, ok)).jobs) < Work(s.jobs)
  {
    ReleaseDoesWork(s);
    WorkAfter(Released(s).jobs, id, Settled(ok));
  }

  /** Every started task ends, so every job does: from any reachable state a run without new jobs is
      no longer than the work left, and a run that cannot go on has settled every job. */
  lemma {:induction false} EveryRunDrains(s: State, run: seq<Event>)
    requires Inv(s) && s.maxConcurrent >= 1 && Legal(s, run)
    requires forall i :: 0 <= i < |run| ==> !run[i].Enqueue?
    ensures |run| + Work(Exec(s, run).jobs) <= Work(s.jobs)
    ensures !CanMove(Exec(s, run)) ==> AllSettled(Exec(s, run).jobs)
    decreases |run|
  {
    if run == [] {
      if !AllSettled(s.jobs) { NoDeadlock(s); }
    } else {
      StepKeepsInv(s, run[0]);
      MoveDoesWork(s, run[0]);
      EveryRunDrains(Next(s, run[0]), run[1..]);
    }
  }

  /** The same for every run: once nothing more is enqueued, no more steps are taken than there was work left, and
      where no step is possible every job has settled. */
  lemma QueueDrains(maxConcurrent: nat, before: seq<Event>, run: seq<Event>)
    requires maxConcurrent >= 1 && Legal(Init(maxConcurrent), before)
    requires Legal(Exec(Init(maxConcurrent), before), run) && forall i :: 0 <= i < |run| ==> !run[i].Enqueue?
    ensures var s := Exec(Init(maxConcurrent), before);
            && |run| <= Work(s.jobs)
            && (!CanMove(Exec(s, run)) ==> AllSettled(Exec(s, run).jobs))
  {
    InitInv(maxConcurrent);
    RunKeepsInv(Init(maxConcurrent), before);
    EveryRunDrains(Exec(Init(maxConcurrent), before), run);
  }

  ghost predicate NeverStuck(maxConcurrent: nat) {
    forall run: seq<Event> :: Legal(Init(maxConcurrent), run) ==>
      AllSettled(Exec(Init(maxConcurrent), run).jobs) || CanMove(Exec(Init(maxConcurrent), run))
  }

  /** The limit comes unchecked from the configuration: the queue is live exactly when it is positive. */
  lemma LiveIffSlots(maxConcurrent: nat)
    ensures NeverStuck(maxConcurrent) <==> maxConcurrent >= 1
  {
    var s0 := Init(maxConcurrent);
    if maxConcurrent >= 1 {
      forall run: seq<Event> | Legal(s0, run)
        ensures AllSettled(Exec(s0, run).jobs) || CanMove(Exec(s0, run))
      {
        InitInv(maxConcurrent);
        RunKeepsInv(s0, run);
        if !AllSettled(Exec(s0, run).jobs) { NoDeadlock(Exec(s0, run)); }
      }
    } else {
      var e0, e1 := Enqueue("volume"), PreviousSettled(0);
      var s1 := Next(s0, e0);
      var s2 := Next(s1, e1);
      assert Legal(s2, []);
      assert Legal(s1, [e1]) by { assert [e1][1..] == []; }
      assert Legal(s0, [e0, e1]) by { assert [e0, e1][1..] == [e1]; }
      assert Exec(s0, [e0, e1]) == s2 by {
        assert [e0, e1][1..] == [e1] && [e1][1..] == [];
        assert Exec(s1, [e1]) == s2;
      }
      assert s2.jobs[0].phase == Waiting && |s2.jobs| == 1;
      assert !CanMove(s2);
    }
  }

  /** A task that throws leaves the queue exactly as one that returns, but for its own result. */
  lemma ThrowingFreesSlotAndKey(s: State, id: JobId)
    requires Ready(s, End(id, true)) && WaitersExact(s.jobs, s.waiters)
    ensures var kept, thrown := Next(s, End(id, true)), Next(s, End(id, false));
            && thrown == kept.(jobs := WithPhase(kept.jobs, id, Settled(false)))
            && thrown.active == s.active - (if s.waiters == [] then 1 else 0)
  {
    var mid := Released(s).jobs;
    assert WithPhase(WithPhase(mid, id, Settled(true)), id, Settled(false)) == WithPhase(mid, id, Settled(false));
  }

  /** The next job of the key goes on whether the one before it returned or threw. */
  lemma ChainOutlivesError(s: State, id: JobId, ok: bool, j: JobId)
    requires Ready(s, End(id, ok)) && WaitersExact(s.jobs, s.waiters)
    requires j < |s.jobs| && s.jobs[j].phase.Chained? && s.jobs[j].previous == Some(id)
    ensures Enabled(Next(s, End(id, ok)), PreviousSettled(j))
  {
    if s.waiters != [] { WaitersAfterGrant(s.jobs, s.waiters); }
  }
}
