/**
 What every run keeps of the status of a backup: it tells how its tar ended, and goes forward only.
 */
module BackupStatuses {
  import opened Options
  import opened BackupRuns
  import Q = BackupQueues
  import T = Tasks

  // ---------- The status of a row ----------

  /** The status of the row of a tar, if it is still there, while its body is at this point. */
  predicate StatusFits(backups: map<BackupId, Backup>, b: BackupId, p: Progress) {
    b in backups ==>
      match p
      case NotStarted => backups[b].status.PENDING?
      case TaskStarted => backups[b].status.PENDING?
      case TarRunning => backups[b].status.RUNNING?
      case WorkEnded(ok) => if ok then backups[b].status.SUCCESS? else backups[b].status.FAILED?
      case TaskEnded(ok) => if ok then backups[b].status.SUCCESS? else backups[b].status.FAILED?
      case Pruning(_, _) => false
  }

  predicate IsTar(body: Body) { body.Tracked? && body.work.VolumeTar? }

  ghost predicate TarsFit(bodies: seq<Body>, progress: seq<Progress>, backups: map<BackupId, Backup>)
    requires |bodies| == |progress|
  {
    forall j :: 0 <= j < |bodies| && IsTar(bodies[j]) ==> StatusFits(backups, bodies[j].work.backup, progress[j])
  }

  /** No two jobs have the same row. */
  ghost predicate OneTarEach(bodies: seq<Body>) {
    forall i, j :: 0 <= i < j < |bodies| && IsTar(bodies[i]) && IsTar(bodies[j]) ==>
      bodies[i].work.backup != bodies[j].work.backup
  }

  ghost predicate RecordedPending(recorded: set<BackupId>, bodies: seq<Body>, backups: map<BackupId, Backup>,
                               created: map<BackupId, Backup>) {
    && (forall b <- recorded :: b in created && (b in backups ==> backups[b].status.PENDING?))
    && (forall j :: 0 <= j < |bodies| && IsTar(bodies[j]) ==>
          bodies[j].work.backup in created && bodies[j].work.backup !in recorded)
  }

  ghost predicate StatusInv(s: State)
    requires Shaped(s)
  {
    && TarsFit(s.bodies, s.progress, s.backups)
    && OneTarEach(s.bodies)
    && RecordedPending(s.recorded, s.bodies, s.backups, s.created)
  }

  // ---------- Every step ----------

  /** A row changes, and its own job moves on with it. */
  lemma TarsWithProgress(bodies: seq<Body>, progress: seq<Progress>, backups: map<BackupId, Backup>, j: nat,
                         p: Progress, after: map<BackupId, Backup>)
    requires |bodies| == |progress| && j < |bodies| && TarsFit(bodies, progress, backups) && OneTarEach(bodies)
    requires IsTar(bodies[j]) ==> StatusFits(after, bodies[j].work.backup, p)
    requires forall b <- after :: !(IsTar(bodies[j]) && b == bodies[j].work.backup) ==>
               b in backups && after[b] == backups[b]
    ensures TarsFit(bodies, progress[j := p], after)
  {
    forall i | 0 <= i < |bodies| && IsTar(bodies[i])
      ensures StatusFits(after, bodies[i].work.backup, progress[j := p][i])
    {
      assert StatusFits(backups, bodies[i].work.backup, progress[i]);
    }
  }

  lemma TarsWithRows(bodies: seq<Body>, progress: seq<Progress>, backups: map<BackupId, Backup>,
                     after: map<BackupId, Backup>)
    requires |bodies| == |progress| && TarsFit(bodies, progress, backups)
    requires forall j :: 0 <= j < |bodies| && IsTar(bodies[j]) && bodies[j].work.backup in after ==>
               bodies[j].work.backup in backups && after[bodies[j].work.backup] == backups[bodies[j].work.backup]
    ensures TarsFit(bodies, progress, after)
  {
    forall i | 0 <= i < |bodies| && IsTar(bodies[i]) ensures StatusFits(after, bodies[i].work.backup, progress[i]) {
      assert StatusFits(backups, bodies[i].work.backup, progress[i]);
    }
  }

  predicate MovesJob(e: Event, j: Q.JobId) {
    || e == StartTask(j) || e == MarkRunning(j) || (e.TarEnds? && e.job == j) || (e.OtherWorkEnds? && e.job == j)
    || e == RecordResult(j) || (e.PruneRead? && e.job == j) || e == PruneDelete(j)
  }

  lemma JobKeepsTars(s: State, e: Event, j: Q.JobId)
    requires Shaped(s) && Enabled(s, e) && StatusInv(s) && MovesJob(e, j)
    ensures TarsFit(Next(s, e).bodies, Next(s, e).progress, Next(s, e).backups)
  {
    var r := Next(s, e);
    assert IsTar(s.bodies[j]) ==> StatusFits(s.backups, s.bodies[j].work.backup, s.progress[j]);
    TarsWithProgress(s.bodies, s.progress, s.backups, j, r.progress[j], r.backups);
  }

  lemma EnqueueKeepsTars(s: State, e: Event)
    requires Shaped(s) && Enabled(s, e) && StatusInv(s) && (e.EnqueueTracked? || e.SchedulePrune?)
    ensures TarsFit(Next(s, e).bodies, Next(s, e).progress, Next(s, e).backups) && OneTarEach(Next(s, e).bodies)
  {
  }

  lemma RowsKeepTars(s: State, e: Event)
    requires Shaped(s) && Enabled(s, e) && StatusInv(s) && (e.InsertBackup? || e.UserRemove?)
    ensures TarsFit(Next(s, e).bodies, Next(s, e).progress, Next(s, e).backups)
  {
    TarsWithRows(s.bodies, s.progress, s.backups, Next(s, e).backups);
  }

  lemma TarsKept(s: State, e: Event)
    requires Shaped(s) && Enabled(s, e) && StatusInv(s)
    ensures TarsFit(Next(s, e).bodies, Next(s, e).progress, Next(s, e).backups) && OneTarEach(Next(s, e).bodies)
  {
    match e
    case EnqueueTracked(_, _, _) | SchedulePrune(_, _) => EnqueueKeepsTars(s, e);
    case StartTask(j) => JobKeepsTars(s, e, j);
    case MarkRunning(j) => JobKeepsTars(s, e, j);
    case TarEnds(j, _) => JobKeepsTars(s, e, j);
    case OtherWorkEnds(j, _) => JobKeepsTars(s, e, j);
    case RecordResult(j) => JobKeepsTars(s, e, j);
    case PruneRead(j, _) => JobKeepsTars(s, e, j);
    case PruneDelete(j) => JobKeepsTars(s, e, j);
    case InsertBackup(_, _, _) | UserRemove(_) => RowsKeepTars(s, e);
    case _ =>
  }

  lemma RecordedKept(s: State, e: Event)
    requires Shaped(s) && Enabled(s, e) && StatusInv(s)
    ensures var r := Next(s, e); RecordedPending(r.recorded, r.bodies, r.backups, r.created)
  {
  }

  lemma {:induction false} RunKeepsStatuses(s: State, run: seq<Event>)
    requires Shaped(s) && Legal(s, run) && StatusInv(s)
    ensures StatusInv(Exec(s, run))
    decreases |run|
  {
    if run != [] {
      TarsKept(s, run[0]);
      RecordedKept(s, run[0]);
      RunKeepsStatuses(Next(s, run[0]), run[1..]);
    }
  }

  // ---------- Every run ----------

  /** Once the job of a tar has settled, the row of its backup, if it has not been removed, says SUCCESS when the work
      returned and FAILED when it threw, and so does the row of its task; the backup is otherwise as it was recorded. */
  lemma FinishedBackupTellsResult(maxConcurrent: nat, run: seq<Event>, j: Q.JobId)
    requires Legal(Init(maxConcurrent), run)
    requires var s := Exec(Init(maxConcurrent), run);
             j < |s.bodies| && IsTar(s.bodies[j]) && s.queue.jobs[j].phase.Settled?
    ensures var s := Exec(Init(maxConcurrent), run);
            var b, ok := s.bodies[j].work.backup, s.queue.jobs[j].phase.ok;
            && s.progress[j] == TaskEnded(ok)
            && (b in s.backups ==>
                  && s.backups[b].status == (if ok then SUCCESS else FAILED)
                  && b in s.created && s.backups[b].target == s.created[b].target
                  && s.backups[b].createdAt == s.created[b].createdAt)
            && (s.bodies[j].task in s.tasks ==> s.tasks[s.bodies[j].task] == if ok then T.Success else T.Failed)
  {
    var s := Exec(Init(maxConcurrent), run);
    FinishedTaskTellsResult(maxConcurrent, run, j);
    EveryRunKeepsInv(maxConcurrent, run);
    RunKeepsStatuses(Init(maxConcurrent), run);
    assert StatusFits(s.backups, s.bodies[j].work.backup, s.progress[j]);
  }

  /** What the status of a backup may become. */
  predicate MayBecome(before: BackupStatus, after: BackupStatus) {
    || after == before
    || (before.PENDING? && after.RUNNING?)
    || (before.RUNNING? && (after.SUCCESS? || after.FAILED?))
  }

  /** After any run, a step adds a row only as PENDING and with what was recorded, moves a row only forward, and takes
      away exactly the row that a user removes or that a prune has come to, which is not among the first `keep`. */
  lemma BackupsOnlyMoveForward(maxConcurrent: nat, run: seq<Event>, e: Event, b: BackupId)
    requires Legal(Init(maxConcurrent), run) && Enabled(Exec(Init(maxConcurrent), run), e)
    ensures var s := Exec(Init(maxConcurrent), run);
            var r := Next(s, e);
            && (b in s.backups && b in r.backups ==>
                  && r.backups[b].target == s.backups[b].target && r.backups[b].createdAt == s.backups[b].createdAt
                  && MayBecome(s.backups[b].status, r.backups[b].status))
            && (b !in s.backups && b in r.backups ==>
                  e.InsertBackup? && e.id == b && r.backups[b] == Backup(e.target, e.createdAt, PENDING))
            && (b in s.backups && b !in r.backups <==> b in s.backups && (e == UserRemove(b) || PruneTakes(s, e, b)))
  {
    RunKeepsStatuses(Init(maxConcurrent), run);
    EveryRunKeepsInv(maxConcurrent, run);
    BackupStep(Exec(Init(maxConcurrent), run), e, b);
  }

  /** A prune is at this row, past the first `keep` of those it read. */
  ghost predicate PruneTakes(s: State, e: Event, b: BackupId)
    requires Shaped(s) && Enabled(s, e)
  {
    && e.PruneDelete?
    && var p, body := s.progress[e.job], s.bodies[e.job];
       p.rows[p.next] == b && p.next >= body.keep
  }

  lemma BackupStep(s: State, e: Event, b: BackupId)
    requires Inv(s) && Enabled(s, e) && StatusInv(s)
    ensures var r := Next(s, e);
            && (b in s.backups && b in r.backups ==>
                  && r.backups[b].target == s.backups[b].target && r.backups[b].createdAt == s.backups[b].createdAt
                  && MayBecome(s.backups[b].status, r.backups[b].status))
            && (b !in s.backups && b in r.backups ==>
                  e.InsertBackup? && e.id == b && r.backups[b] == Backup(e.target, e.createdAt, PENDING))
            && (b in s.backups && b !in r.backups <==> b in s.backups && (e == UserRemove(b) || PruneTakes(s, e, b)))
  {
    if e.MarkRunning? || e.TarEnds? {
      TarStep(s, e, b);
    } else {
      OtherBackupStep(s, e, b);
    }
  }

  lemma OtherBackupStep(s: State, e: Event, b: BackupId)
    requires Shaped(s) && Enabled(s, e) && BodiesFit(s.bodies, s.progress) && !e.MarkRunning? && !e.TarEnds?
    ensures var was, after := s.backups, Next(s, e).backups;
            && (b in was && b in after ==> after[b] == was[b])
            && (b !in was && b in after ==>
                  e.InsertBackup? && e.id == b && after[b] == Backup(e.target, e.createdAt, PENDING))
            && (b in was && b !in after <==> b in was && (e == UserRemove(b) || PruneTakes(s, e, b)))
  {
  }

  lemma TarStep(s: State, e: Event, b: BackupId)
    requires Shaped(s) && Enabled(s, e) && StatusInv(s) && (e.MarkRunning? || e.TarEnds?)
    ensures b in Next(s, e).backups <==> b in s.backups
    ensures b in s.backups ==>
              && Next(s, e).backups[b].target == s.backups[b].target
              && Next(s, e).backups[b].createdAt == s.backups[b].createdAt
              && MayBecome(s.backups[b].status, Next(s, e).backups[b].status)
  {
    assert StatusFits(s.backups, s.bodies[e.job].work.backup, s.progress[e.job]);
  }

  // ---------- The other rows, and the jobs ----------

  /** What one step does to the task rows, in full. */
  lemma TaskRowsStep(s: State, e: Event, t: T.TaskId)
    requires Shaped(s) && Enabled(s, e)
    ensures var was, after := s.tasks, Next(s, e).tasks;
            match e
            case InsertTask => t == s.nextTask ==> t in after && after[t].Pending?
            case ClearDelete(u) => t in after <==> t in was && t != u
            case ClearFinished => t in after <==> t in was && T.Active(was[t])
            case _ => t in after <==> t in was
    ensures var was, after := s.tasks, Next(s, e).tasks;
            t in was && t in after && after[t] != was[t] ==>
              || e == InsertTask
              || (e.StartTask? && s.bodies[e.job].task == t && after[t].Running?)
              || (e.RecordResult? && s.bodies[e.job].task == t
                  && after[t] == if s.progress[e.job].ok then T.Success else T.Failed)
              || (e == Restart(true) && T.Active(was[t]) && after[t].Failed?)
  {
  }

  /** A new job has the key and the body that were asked for; a restart leaves an empty queue with the same limit. */
  lemma QueueStepped(s: State, e: Event)
    requires Shaped(s) && Enabled(s, e)
    ensures e.EnqueueTracked? ==>
              Next(s, e).bodies == s.bodies + [Tracked(e.task, e.work)]
              && Next(s, e).queue.jobs[|s.queue.jobs|].key == e.key
    ensures e.SchedulePrune? ==>
              Next(s, e).bodies == s.bodies + [Prune(e.keep)]
              && Next(s, e).queue.jobs[|s.queue.jobs|].key == e.target
    ensures e.Restart? ==> Next(s, e).queue.jobs == [] && Next(s, e).queue.maxConcurrent == s.queue.maxConcurrent
    ensures !e.EnqueueTracked? && !e.SchedulePrune? && !e.Restart? ==> Next(s, e).bodies == s.bodies
  {
  }

  /** A prune never throws, whatever the deletions do. */
  lemma PrunesReturn(maxConcurrent: nat, run: seq<Event>, j: Q.JobId)
    requires Legal(Init(maxConcurrent), run)
    requires var s := Exec(Init(maxConcurrent), run);
             j < |s.bodies| && s.bodies[j].Prune? && s.queue.jobs[j].phase.Settled?
    ensures Exec(Init(maxConcurrent), run).queue.jobs[j].phase.ok
  {
    EveryRunKeepsInv(maxConcurrent, run);
    PruneReturns(Exec(Init(maxConcurrent), run), j);
  }

  lemma PruneReturns(s: State, j: Q.JobId)
    requires Inv(s) && j < |s.bodies| && s.bodies[j].Prune? && s.queue.jobs[j].phase.Settled?
    ensures s.queue.jobs[j].phase.ok
  {
    assert BodyEnded(s.progress[j]) && s.queue.jobs[j].phase.ok == BodyResult(s.progress[j]);
  }
}
