/**
 The jobs that BackupsService and BackupSchedulesService put on the queue, run against the backup and
 task tables.  Every database statement and every container run is one step, and the steps of all jobs,
 of user requests and of restarts interleave in any order the queue allows.
 */
module BackupRuns {
  import opened Options
  import Q = BackupQueues
  import T = Tasks

  type BackupId = nat

  datatype BackupStatus = PENDING | RUNNING | SUCCESS | FAILED

  datatype Backup = Backup(target: string, createdAt: int, status: BackupStatus)

  /** What tracked work does besides its task row: a volume tar writes its backup row; restores, resets
      and offsite pushes leave the status of every backup alone. */
  datatype Work = VolumeTar(backup: BackupId) | OtherWork

  datatype Body = Tracked(task: T.TaskId, work: Work) | Prune(keep: int)

  /** How far the body of a started job has come. */
  datatype Progress =
    | NotStarted
    | TaskStarted
    | TarRunning
    | WorkEnded(ok: bool)
    | TaskEnded(ok: bool)
    | Pruning(rows: seq<BackupId>, next: nat) // `rows` as read, deleting rows[next] next

  /** `unqueued` has the tasks inserted but not yet enqueued, and `recorded` the backups inserted whose tar is not yet;
      `clears` has the clear requests between their read and their delete; `created` remembers every row ever inserted,
      as inserted. */
  datatype State = State(
    queue: Q.State,
    bodies: seq<Body>,
    progress: seq<Progress>,
    backups: map<BackupId, Backup>,
    created: map<BackupId, Backup>,
    tasks: T.Rows,
    nextTask: T.TaskId,
    unqueued: set<T.TaskId>,
    recorded: set<BackupId>,
    clears: set<T.TaskId>)

  datatype Event =
    | InsertBackup(id: BackupId, target: string, createdAt: int)
    | InsertTask
    | EnqueueTracked(key: string, task: T.TaskId, work: Work)
    | SchedulePrune(target: string, keep: int)
    | QueueStep(step: Q.Event)               // a predecessor settled, or a task is called
    | StartTask(job: Q.JobId)
    | MarkRunning(job: Q.JobId)
    | TarEnds(job: Q.JobId, ok: bool)
    | OtherWorkEnds(job: Q.JobId, ok: bool)
    | RecordResult(job: Q.JobId)
    | PruneRead(job: Q.JobId, rows: seq<BackupId>)
    | PruneDelete(job: Q.JobId)
    | Finish(job: Q.JobId)
    | UserRemove(backup: BackupId)
    | ClearRead(task: T.TaskId)
    | ClearDelete(task: T.TaskId)
    | ClearFinished
    | Restart(dockerUp: bool)

  // ---------- Steps ----------

  function Max(a: int, b: int): int { if a < b then b else a }

  /** The SELECT of pruneTarget: the SUCCESS rows of the target, newest first. */
  ghost predicate NewestFirst(rows: seq<BackupId>, backups: map<BackupId, Backup>, target: string) {
    && (forall b: BackupId :: b in rows <==> IsDone(backups, b, target))
    && (forall i, j :: 0 <= i < j < |rows| && rows[i] in backups && rows[j] in backups ==>
          backups[rows[i]].createdAt > backups[rows[j]].createdAt)
  }

  predicate IsDone(backups: map<BackupId, Backup>, b: BackupId, target: string) {
    b in backups && backups[b].target == target && backups[b].status.SUCCESS?
  }

  function WithBackupStatus(backups: map<BackupId, Backup>, b: BackupId, status: BackupStatus): map<BackupId, Backup> {
    if b in backups then backups[b := backups[b].(status := status)] else backups
  }

  ghost predicate Shaped(s: State) {
    && Q.WellFormed(s.queue)
    && |s.bodies| == |s.progress| == |s.queue.jobs|
  }

  ghost predicate AtStep(s: State, job: Q.JobId)
    requires Shaped(s)
  {
    job < |s.queue.jobs| && s.queue.jobs[job].phase.Running?
  }

  ghost predicate Enabled(s: State, e: Event)
    requires Shaped(s)
  {
    match e
    case InsertBackup(id, _, createdAt) =>
      && id !in s.created && id !in s.backups
      && forall b <- s.backups :: s.backups[b].createdAt != createdAt
    case InsertTask => true
    case EnqueueTracked(key, task, work) =>
      && task in s.unqueued
      && (work.VolumeTar? ==>
            work.backup in s.recorded && work.backup in s.created && s.created[work.backup].target == key)
    case SchedulePrune(_, _) => true
    case QueueStep(step) => (step.PreviousSettled? || step.Begin?) && Q.Enabled(s.queue, step)
    case StartTask(j) => AtStep(s, j) && s.bodies[j].Tracked? && s.progress[j].NotStarted?
    case MarkRunning(j) =>
      AtStep(s, j) && s.bodies[j].Tracked? && s.bodies[j].work.VolumeTar? && s.progress[j].TaskStarted?
    case TarEnds(j, _) =>
      AtStep(s, j) && s.bodies[j].Tracked? && s.bodies[j].work.VolumeTar? && s.progress[j].TarRunning?
    case OtherWorkEnds(j, _) =>
      AtStep(s, j) && s.bodies[j].Tracked? && s.bodies[j].work.OtherWork? && s.progress[j].TaskStarted?
    case RecordResult(j) => AtStep(s, j) && s.bodies[j].Tracked? && s.progress[j].WorkEnded?
    case PruneRead(j, rows) =>
      && AtStep(s, j) && s.bodies[j].Prune? && s.progress[j].NotStarted?
      && NewestFirst(rows, s.backups, s.queue.jobs[j].key)
    case PruneDelete(j) =>
      AtStep(s, j) && s.bodies[j].Prune? && s.progress[j].Pruning? && s.progress[j].next < |s.progress[j].rows|
    case Finish(j) => AtStep(s, j) && BodyEnded(s.progress[j])
    case UserRemove(_) => true
    case ClearRead(t) => t in s.tasks && !T.Active(s.tasks[t])
    case ClearDelete(t) => t in s.clears
    case ClearFinished => true
    case Restart(_) => true
  }

  predicate BodyEnded(p: Progress) {
    p.TaskEnded? || (p.Pruning? && p.next >= |p.rows|)
  }

  /** Tracked work rethrows its error; a prune catches all of its own. */
  predicate BodyResult(p: Progress) {
    p.TaskEnded? ==> p.ok
  }

  function Init(maxConcurrent: nat): State {
    State(Q.Init(maxConcurrent), [], [], map[], map[], map[], 0, {}, {}, {})
  }

  ghost function Next(s: State, e: Event): (r: State)
    requires Shaped(s) && Enabled(s, e)
    ensures Shaped(r)
  {
    match e
    case InsertBackup(id, target, createdAt) =>
      var row := Backup(target, createdAt, PENDING);
      s.(backups := s.backups[id := row], created := s.created[id := row], recorded := s.recorded + {id})
    case InsertTask =>
      s.(tasks := s.tasks[s.nextTask := T.Pending], nextTask := s.nextTask + 1, unqueued := s.unqueued + {s.nextTask})
    case EnqueueTracked(key, task, work) =>
      Enqueued(s, key, Tracked(task, work)).(unqueued := s.unqueued - {task},
                                             recorded := if work.VolumeTar? then s.recorded - {work.backup}
                                                         else s.recorded)
    case SchedulePrune(target, keep) => Enqueued(s, target, Prune(keep))
    case QueueStep(step) => s.(queue := Q.Next(s.queue, step))
    case StartTask(j) =>
      s.(tasks := T.WithStatus(s.tasks, s.bodies[j].task, T.Running), progress := s.progress[j := TaskStarted])
    case MarkRunning(j) =>
      s.(backups := WithBackupStatus(s.backups, s.bodies[j].work.backup, RUNNING),
         progress := s.progress[j := TarRunning])
    case TarEnds(j, ok) =>
      s.(backups := WithBackupStatus(s.backups, s.bodies[j].work.backup, if ok then SUCCESS else FAILED),
         progress := s.progress[j := WorkEnded(ok)])
    case OtherWorkEnds(j, ok) => s.(progress := s.progress[j := WorkEnded(ok)])
    case RecordResult(j) =>
      var ok := s.progress[j].ok;
      s.(tasks := T.WithStatus(s.tasks, s.bodies[j].task, if ok then T.Success else T.Failed),
         progress := s.progress[j := TaskEnded(ok)])
    case PruneRead(j, rows) => s.(progress := s.progress[j := Pruning(rows, Max(s.bodies[j].keep, 0))])
    case PruneDelete(j) =>
      var p := s.progress[j];
      s.(backups := s.backups - {p.rows[p.next]}, progress := s.progress[j := p.(next := p.next + 1)])
    case Finish(j) =>
      s.(queue := Q.Next(s.queue, Q.End(j, BodyResult(s.progress[j]))))
    case UserRemove(b) => s.(backups := s.backups - {b})
    case ClearRead(t) => s.(clears := s.clears + {t})
    case ClearDelete(t) => s.(tasks := s.tasks - {t}, clears := s.clears - {t})
    case ClearFinished => s.(tasks := T.Unfinished(s.tasks))
    case Restart(dockerUp) =>
      s.(queue := Q.Init(s.queue.maxConcurrent), bodies := [], progress := [],
         unqueued := {}, recorded := {}, clears := {},
         tasks := if dockerUp then T.Interrupted(s.tasks) else s.tasks)
  }

  ghost function Enqueued(s: State, key: string, body: Body): (r: State)
    requires Shaped(s)
    ensures Shaped(r)
  {
    s.(queue := Q.Next(s.queue, Q.Enqueue(key)), bodies := s.bodies + [body], progress := s.progress + [NotStarted])
  }

  // ---------- Tasks ----------

  /** The status the task of a job must have while its body is at this point. */
  ghost predicate TaskFits(tasks: T.Rows, t: T.TaskId, p: Progress) {
    match p
    case NotStarted => t in tasks && tasks[t].Pending?
    case TaskStarted => t in tasks && tasks[t].Running?
    case TarRunning => t in tasks && tasks[t].Running?
    case WorkEnded(_) => t in tasks && tasks[t].Running?
    case TaskEnded(ok) => t in tasks ==> tasks[t] == if ok then T.Success else T.Failed
    case Pruning(_, _) => false
  }

  ghost predicate TasksOfJobs(bodies: seq<Body>, progress: seq<Progress>, tasks: T.Rows, nextTask: T.TaskId)
    requires |bodies| == |progress|
  {
    && (forall j :: 0 <= j < |bodies| && bodies[j].Tracked? ==>
          bodies[j].task < nextTask && TaskFits(tasks, bodies[j].task, progress[j]))
    && (forall i, j :: 0 <= i < j < |bodies| && bodies[i].Tracked? && bodies[j].Tracked? ==>
          bodies[i].task != bodies[j].task)
  }

  ghost predicate UnqueuedTasks(bodies: seq<Body>, tasks: T.Rows, nextTask: T.TaskId, unqueued: set<T.TaskId>) {
    && (forall t <- tasks :: t < nextTask)
    && (forall t <- unqueued :: t in tasks && tasks[t].Pending?)
    && (forall j :: 0 <= j < |bodies| && bodies[j].Tracked? ==> bodies[j].task !in unqueued)
  }

  /** A clear request past its check targets a row that is finished or gone, for good. */
  ghost predicate ClearsFinished(tasks: T.Rows, nextTask: T.TaskId, clears: set<T.TaskId>) {
    forall t <- clears :: t < nextTask && (t in tasks ==> !T.Active(tasks[t]))
  }

  ghost predicate TaskInv(s: State) {
    && |s.bodies| == |s.progress|
    && TasksOfJobs(s.bodies, s.progress, s.tasks, s.nextTask)
    && UnqueuedTasks(s.bodies, s.tasks, s.nextTask, s.unqueued)
    && ClearsFinished(s.tasks, s.nextTask, s.clears)
  }

  lemma TaskInvKept(s: State, e: Event)
    requires Shaped(s) && Enabled(s, e) && TaskInv(s)
    ensures TaskInv(Next(s, e))
  {
    TasksOfJobsKept(s, e);
    UnqueuedTasksKept(s, e);
    ClearsFinishedKept(s, e);
  }

  /** A new job whose task is pending and not queued yet, if it has one. */
  lemma TasksWithJob(bodies: seq<Body>, progress: seq<Progress>, tasks: T.Rows, nextTask: T.TaskId, body: Body)
    requires |bodies| == |progress| && TasksOfJobs(bodies, progress, tasks, nextTask)
    requires body.Tracked? ==> body.task < nextTask && TaskFits(tasks, body.task, NotStarted)
    requires forall j :: 0 <= j < |bodies| && bodies[j].Tracked? && body.Tracked? ==> bodies[j].task != body.task
    ensures TasksOfJobs(bodies + [body], progress + [NotStarted], tasks, nextTask)
  {
  }

  /** A job moves on, and its own task row with it. */
  lemma TasksWithProgress(bodies: seq<Body>, progress: seq<Progress>, tasks: T.Rows, nextTask: T.TaskId, j: nat,
                          p: Progress, tasks': T.Rows)
    requires |bodies| == |progress| && j < |bodies| && TasksOfJobs(bodies, progress, tasks, nextTask)
    requires bodies[j].Tracked? ==> TaskFits(tasks', bodies[j].task, p)
    requires forall t :: !(bodies[j].Tracked? && t == bodies[j].task) ==>
               (t in tasks' <==> t in tasks) && (t in tasks ==> tasks'[t] == tasks[t])
    ensures TasksOfJobs(bodies, progress[j := p], tasks', nextTask)
  {
  }

  /** A new row, or finished rows that go. */
  lemma TasksWithRows(bodies: seq<Body>, progress: seq<Progress>, tasks: T.Rows, nextTask: T.TaskId,
                      tasks': T.Rows, nextTask': T.TaskId)
    requires |bodies| == |progress| && TasksOfJobs(bodies, progress, tasks, nextTask) && nextTask <= nextTask'
    requires forall t :: t < nextTask && t in tasks' ==> t in tasks && tasks'[t] == tasks[t]
    requires forall t <- tasks :: T.Active(tasks[t]) ==> t in tasks'
    ensures TasksOfJobs(bodies, progress, tasks', nextTask')
  {
    forall j | 0 <= j < |bodies| && bodies[j].Tracked? ensures TaskFits(tasks', bodies[j].task, progress[j]) {
      assert TaskFits(tasks, bodies[j].task, progress[j]);
    }
  }

  lemma EnqueueKeepsTasksOfJobs(s: State, e: Event)
    requires Shaped(s) && Enabled(s, e) && TaskInv(s) && (e.EnqueueTracked? || e.SchedulePrune?)
    ensures var r := Next(s, e); TasksOfJobs(r.bodies, r.progress, r.tasks, r.nextTask)
  {
    TasksWithJob(s.bodies, s.progress, s.tasks, s.nextTask,
                 if e.EnqueueTracked? then Tracked(e.task, e.work) else Prune(e.keep));
  }

  lemma JobKeepsTasksOfJobs(s: State, e: Event, j: Q.JobId)
    requires Shaped(s) && Enabled(s, e) && TaskInv(s)
    requires e == StartTask(j) || e == MarkRunning(j) || (e.TarEnds? && e.job == j) || (e.OtherWorkEnds? && e.job == j)
          || e == RecordResult(j) || (e.PruneRead? && e.job == j) || e == PruneDelete(j)
    ensures var r := Next(s, e); TasksOfJobs(r.bodies, r.progress, r.tasks, r.nextTask)
  {
    var r := Next(s, e);
    assert s.bodies[j].Tracked? ==> TaskFits(s.tasks, s.bodies[j].task, s.progress[j]);
    TasksWithProgress(s.bodies, s.progress, s.tasks, s.nextTask, j, r.progress[j], r.tasks);
  }

  lemma RowsKeepTasksOfJobs(s: State, e: Event)
    requires Shaped(s) && Enabled(s, e) && TaskInv(s) && (e.InsertTask? || e.ClearDelete? || e.ClearFinished?)
    ensures var r := Next(s, e); TasksOfJobs(r.bodies, r.progress, r.tasks, r.nextTask)
  {
    TasksWithRows(s.bodies, s.progress, s.tasks, s.nextTask, Next(s, e).tasks, Next(s, e).nextTask);
  }

  lemma TasksOfJobsKept(s: State, e: Event)
    requires Shaped(s) && Enabled(s, e) && TaskInv(s)
    ensures var r := Next(s, e); TasksOfJobs(r.bodies, r.progress, r.tasks, r.nextTask)
  {
    match e
    case EnqueueTracked(_, _, _) | SchedulePrune(_, _) => EnqueueKeepsTasksOfJobs(s, e);
    case StartTask(j) => JobKeepsTasksOfJobs(s, e, j);
    case MarkRunning(j) => JobKeepsTasksOfJobs(s, e, j);
    case TarEnds(j, _) => JobKeepsTasksOfJobs(s, e, j);
    case OtherWorkEnds(j, _) => JobKeepsTasksOfJobs(s, e, j);
    case RecordResult(j) => JobKeepsTasksOfJobs(s, e, j);
    case PruneRead(j, _) => JobKeepsTasksOfJobs(s, e, j);
    case PruneDelete(j) => JobKeepsTasksOfJobs(s, e, j);
    case InsertTask | ClearDelete(_) | ClearFinished => RowsKeepTasksOfJobs(s, e);
    case _ =>
  }

  lemma UnqueuedTasksKept(s: State, e: Event)
    requires Shaped(s) && Enabled(s, e) && TaskInv(s)
    ensures var r := Next(s, e); UnqueuedTasks(r.bodies, r.tasks, r.nextTask, r.unqueued)
  {
  }

  lemma ClearsFinishedKept(s: State, e: Event)
    requires Shaped(s) && Enabled(s, e) && TaskInv(s)
    ensures var r := Next(s, e); ClearsFinished(r.tasks, r.nextTask, r.clears)
  {
  }

  // ---------- Retention ----------

  ghost predicate RowsAsCreated(backups: map<BackupId, Backup>, created: map<BackupId, Backup>) {
    && (forall b <- backups ::
          && b in created
          && backups[b].target == created[b].target && backups[b].createdAt == created[b].createdAt)
    && (forall a, b :: a in backups && b in backups && a != b ==> backups[a].createdAt != backups[b].createdAt)
  }

  /** A tar job runs under the key of the volume its row was recorded for. */
  ghost predicate TarsKeyed(jobs: seq<Q.Job>, bodies: seq<Body>, created: map<BackupId, Backup>)
    requires |jobs| == |bodies|
  {
    forall j :: 0 <= j < |bodies| && bodies[j].Tracked? && bodies[j].work.VolumeTar? ==>
      bodies[j].work.backup in created && created[bodies[j].work.backup].target == jobs[j].key
  }

  /** A body is on its way only between the call of its task and the end of its job. */
  ghost predicate ProgressFits(jobs: seq<Q.Job>, progress: seq<Progress>)
    requires |jobs| == |progress|
  {
    && (forall j :: 0 <= j < |jobs| && !progress[j].NotStarted? ==> Q.HasStarted(jobs[j].phase))
    && (forall j :: 0 <= j < |jobs| && jobs[j].phase.Settled? ==>
          BodyEnded(progress[j]) && jobs[j].phase.ok == BodyResult(progress[j]))
  }

  ghost predicate BodiesFit(bodies: seq<Body>, progress: seq<Progress>)
    requires |bodies| == |progress|
  {
    forall j :: 0 <= j < |bodies| && !progress[j].NotStarted? ==>
      if progress[j].Pruning? then bodies[j].Prune? && Max(bodies[j].keep, 0) <= progress[j].next
      else bodies[j].Tracked?
  }

  /** What a prune has read stays ordered by creation, and what it has deleted stays deleted. */
  ghost predicate PruneHistory(keep: int, rows: seq<BackupId>, next: nat, target: string,
                               backups: map<BackupId, Backup>, created: map<BackupId, Backup>) {
    && (forall i :: 0 <= i < |rows| ==> rows[i] in created && created[rows[i]].target == target)
    && (forall i, j :: 0 <= i < j < |rows| ==> created[rows[i]].createdAt > created[rows[j]].createdAt)
    && (forall i :: Max(keep, 0) <= i < next && i < |rows| ==> rows[i] !in backups)
  }

  /** While a prune runs, every SUCCESS row of its target is one that it read. */
  ghost predicate NothingNew(rows: seq<BackupId>, target: string, backups: map<BackupId, Backup>) {
    forall b: BackupId :: IsDone(backups, b, target) ==> b in rows
  }

  ghost predicate PrunesFit(jobs: seq<Q.Job>, bodies: seq<Body>, progress: seq<Progress>,
                            backups: map<BackupId, Backup>, created: map<BackupId, Backup>)
    requires |jobs| == |bodies| == |progress|
  {
    forall j :: 0 <= j < |bodies| && bodies[j].Prune? && progress[j].Pruning? ==>
      && PruneHistory(bodies[j].keep, progress[j].rows, progress[j].next, jobs[j].key, backups, created)
      && (jobs[j].phase.Running? ==> NothingNew(progress[j].rows, jobs[j].key, backups))
  }

  ghost predicate BackupInv(s: State)
    requires Shaped(s)
  {
    && RowsAsCreated(s.backups, s.created)
    && TarsKeyed(s.queue.jobs, s.bodies, s.created)
    && ProgressFits(s.queue.jobs, s.progress)
    && BodiesFit(s.bodies, s.progress)
    && PrunesFit(s.queue.jobs, s.bodies, s.progress, s.backups, s.created)
  }

  ghost predicate Inv(s: State) {
    Shaped(s) && Q.Inv(s.queue) && TaskInv(s) && BackupInv(s)
  }

  lemma QueueInvKept(s: State, e: Event)
    requires Shaped(s) && Enabled(s, e) && Q.Inv(s.queue)
    ensures Q.Inv(Next(s, e).queue)
  {
    match e
    case EnqueueTracked(key, _, _) => Q.StepKeepsInv(s.queue, Q.Enqueue(key));
    case SchedulePrune(target, _) => Q.StepKeepsInv(s.queue, Q.Enqueue(target));
    case QueueStep(step) => Q.StepKeepsInv(s.queue, step);
    case Finish(j) => Q.StepKeepsInv(s.queue, Q.End(j, BodyResult(s.progress[j])));
    case Restart(_) => Q.InitInv(s.queue.maxConcurrent);
    case _ =>
  }

  lemma RowsWithInsert(backups: map<BackupId, Backup>, created: map<BackupId, Backup>, id: BackupId, row: Backup)
    requires RowsAsCreated(backups, created) && id !in created
    requires forall b <- backups :: backups[b].createdAt != row.createdAt
    ensures RowsAsCreated(backups[id := row], created[id := row])
  {
  }

  lemma RowsWithStatus(backups: map<BackupId, Backup>, created: map<BackupId, Backup>, b: BackupId,
                       status: BackupStatus)
    requires RowsAsCreated(backups, created)
    ensures RowsAsCreated(WithBackupStatus(backups, b, status), created)
  {
  }

  lemma RowsWithout(backups: map<BackupId, Backup>, created: map<BackupId, Backup>, b: BackupId)
    requires RowsAsCreated(backups, created)
    ensures RowsAsCreated(backups - {b}, created)
  {
  }

  lemma RowsAsCreatedKept(s: State, e: Event)
    requires Shaped(s) && Enabled(s, e) && RowsAsCreated(s.backups, s.created)
    ensures RowsAsCreated(Next(s, e).backups, Next(s, e).created)
  {
    match e
    case InsertBackup(id, target, createdAt) =>
      RowsWithInsert(s.backups, s.created, id, Backup(target, createdAt, PENDING));
    case MarkRunning(j) => RowsWithStatus(s.backups, s.created, s.bodies[j].work.backup, RUNNING);
    case TarEnds(j, ok) =>
      RowsWithStatus(s.backups, s.created, s.bodies[j].work.backup, if ok then SUCCESS else FAILED);
    case PruneDelete(j) => RowsWithout(s.backups, s.created, s.progress[j].rows[s.progress[j].next]);
    case UserRemove(b) => RowsWithout(s.backups, s.created, b);
    case _ =>
  }

  /** The queue step behind an event, if there is one. */
  ghost function QueueEvent(s: State, e: Event): Option<Q.Event>
    requires Shaped(s) && Enabled(s, e)
  {
    match e
    case EnqueueTracked(key, _, _) => Some(Q.Enqueue(key))
    case SchedulePrune(target, _) => Some(Q.Enqueue(target))
    case QueueStep(step) => Some(step)
    case Finish(j) => Some(Q.End(j, BodyResult(s.progress[j])))
    case _ => None
  }

  lemma JobsAfter(s: State, e: Event)
    requires Shaped(s) && Enabled(s, e) && Q.WaitersExact(s.queue.jobs, s.queue.waiters) && !e.Restart?
    ensures var r := Next(s, e);
            && |r.queue.jobs| >= |s.queue.jobs|
            && forall i :: 0 <= i < |s.queue.jobs| ==>
                 && r.queue.jobs[i].key == s.queue.jobs[i].key
                 && (Q.HasStarted(s.queue.jobs[i].phase) ==> Q.HasStarted(r.queue.jobs[i].phase))
                 && (r.queue.jobs[i].phase.Running? ==>
                       s.queue.jobs[i].phase.Running? || e == QueueStep(Q.Begin(i)))
                 && (r.queue.jobs[i].phase.Settled? ==>
                       s.queue.jobs[i].phase == r.queue.jobs[i].phase
                       || (e == Finish(i) && r.queue.jobs[i].phase.ok == BodyResult(s.progress[i])))
  {
    if QueueEvent(s, e).Some? { Q.PhasesAfter(s.queue, QueueEvent(s, e).value); }
  }

  lemma TarsKeyedKept(s: State, e: Event)
    requires Shaped(s) && Enabled(s, e) && TarsKeyed(s.queue.jobs, s.bodies, s.created)
    requires Q.WaitersExact(s.queue.jobs, s.queue.waiters)
    ensures var r := Next(s, e); TarsKeyed(r.queue.jobs, r.bodies, r.created)
  {
    if !e.Restart? { JobsAfter(s, e); }
  }

  /** The queue has moved, and the bodies have not. */
  lemma ProgressFitsQueue(jobs: seq<Q.Job>, progress: seq<Progress>, jobs': seq<Q.Job>)
    requires |jobs| == |progress| == |jobs'| && ProgressFits(jobs, progress)
    requires forall i :: 0 <= i < |jobs| ==> Q.HasStarted(jobs[i].phase) ==> Q.HasStarted(jobs'[i].phase)
    requires forall i :: 0 <= i < |jobs| && jobs'[i].phase.Settled? ==>
               || jobs[i].phase == jobs'[i].phase
               || (BodyEnded(progress[i]) && jobs'[i].phase.ok == BodyResult(progress[i]))
    ensures ProgressFits(jobs', progress)
  {
  }

  lemma QueueKeepsProgressFits(s: State, e: Event)
    requires Shaped(s) && Enabled(s, e) && ProgressFits(s.queue.jobs, s.progress) && (e.QueueStep? || e.Finish?)
    requires Q.WaitersExact(s.queue.jobs, s.queue.waiters)
    ensures var r := Next(s, e); ProgressFits(r.queue.jobs, r.progress)
  {
    JobsAfter(s, e);
    ProgressFitsQueue(s.queue.jobs, s.progress, Next(s, e).queue.jobs);
  }

  lemma EnqueueKeepsProgressFits(s: State, key: string, body: Body)
    requires Shaped(s) && ProgressFits(s.queue.jobs, s.progress)
    ensures var r := Enqueued(s, key, body); ProgressFits(r.queue.jobs, r.progress)
  {
  }

  lemma ProgressFitsKept(s: State, e: Event)
    requires Shaped(s) && Enabled(s, e) && ProgressFits(s.queue.jobs, s.progress)
    requires Q.WaitersExact(s.queue.jobs, s.queue.waiters)
    ensures var r := Next(s, e); ProgressFits(r.queue.jobs, r.progress)
  {
    match e
    case QueueStep(_) | Finish(_) => QueueKeepsProgressFits(s, e);
    case EnqueueTracked(key, task, work) => EnqueueKeepsProgressFits(s, key, Tracked(task, work));
    case SchedulePrune(target, keep) => EnqueueKeepsProgressFits(s, target, Prune(keep));
    case _ =>
  }

  lemma BodiesFitKept(s: State, e: Event)
    requires Shaped(s) && Enabled(s, e) && BodiesFit(s.bodies, s.progress)
    ensures var r := Next(s, e); BodiesFit(r.bodies, r.progress)
  {
  }

  /** No statement makes an old row SUCCESS again or anew, except the end of a tar. */
  lemma DoneAfter(s: State, e: Event, b: BackupId, target: string)
    requires Shaped(s) && Enabled(s, e) && IsDone(Next(s, e).backups, b, target)
    ensures IsDone(s.backups, b, target)
         || (e.TarEnds? && e.ok && b == s.bodies[e.job].work.backup
             && b in s.backups && s.backups[b].target == target)
  {
  }

  lemma PruneHistoryKept(s: State, e: Event, j: Q.JobId)
    requires Shaped(s) && Enabled(s, e) && BackupInv(s) && !e.Restart?
    requires j < |s.bodies| && s.bodies[j].Prune? && s.progress[j].Pruning?
    ensures var r := Next(s, e);
            PruneHistory(r.bodies[j].keep, r.progress[j].rows, r.progress[j].next, s.queue.jobs[j].key,
                         r.backups, r.created)
  {
    var r, p := Next(s, e), s.progress[j];
    RowsAreRemembered(s, e);
    PruneAdvances(s, e, j);
    PruneHistoryAfter(s.bodies[j].keep, p.rows, p.next, r.progress[j].next, s.queue.jobs[j].key,
                      s.backups, s.created, r.backups, r.created);
  }

  lemma PruneHistoryAfter(keep: int, rows: seq<BackupId>, next: nat, after: nat, target: string,
                          backups: map<BackupId, Backup>, created: map<BackupId, Backup>,
                          backups': map<BackupId, Backup>, created': map<BackupId, Backup>)
    requires PruneHistory(keep, rows, next, target, backups, created)
    requires forall b <- created :: b in created' && created'[b] == created[b]
    requires forall b <- created :: b !in backups ==> b !in backups'
    requires after == next || (after == next + 1 && next < |rows| && rows[next] !in backups')
    ensures PruneHistory(keep, rows, after, target, backups', created')
  {
  }

  /** Ids are never used again: what is created stays so, and what is deleted stays deleted. */
  lemma RowsAreRemembered(s: State, e: Event)
    requires Shaped(s) && Enabled(s, e)
    ensures var r := Next(s, e);
            && (forall b <- s.created :: b in r.created && r.created[b] == s.created[b])
            && (forall b <- s.created :: b !in s.backups ==> b !in r.backups)
  {
  }

  lemma PruneAdvances(s: State, e: Event, j: Q.JobId)
    requires Shaped(s) && Enabled(s, e) && !e.Restart?
    requires j < |s.bodies| && s.bodies[j].Prune? && s.progress[j].Pruning?
    ensures var r, p := Next(s, e), s.progress[j];
            && r.bodies[j] == s.bodies[j] && r.progress[j].Pruning? && r.progress[j].rows == p.rows
            && (r.progress[j].next == p.next
                || (r.progress[j].next == p.next + 1 && p.next < |p.rows| && p.rows[p.next] !in r.backups))
  {
  }

  lemma NothingNewKept(s: State, e: Event, j: Q.JobId)
    requires Shaped(s) && Enabled(s, e) && BackupInv(s) && !e.Restart? && Q.Inv(s.queue)
    requires j < |s.bodies| && s.bodies[j].Prune? && s.progress[j].Pruning? && s.queue.jobs[j].phase.Running?
    ensures NothingNew(Next(s, e).progress[j].rows, s.queue.jobs[j].key, Next(s, e).backups)
  {
    var r := Next(s, e);
    var target := s.queue.jobs[j].key;
    assert r.progress[j].rows == s.progress[j].rows;
    forall b: BackupId | IsDone(r.backups, b, target)
      ensures IsDone(s.backups, b, target)
    {
      DoneAfter(s, e, b, target);
      if e.TarEnds? { NotTheTarget(s, e, j); }
    }
  }

  /** Two jobs of one key are never running together, so no tar of a target ends during its prune. */
  lemma NotTheTarget(s: State, e: Event, j: Q.JobId)
    requires Shaped(s) && Enabled(s, e) && BackupInv(s) && Q.Inv(s.queue) && e.TarEnds?
    requires j < |s.bodies| && s.bodies[j].Prune? && s.queue.jobs[j].phase.Running?
    ensures s.bodies[e.job].work.backup in s.backups ==>
              s.backups[s.bodies[e.job].work.backup].target != s.queue.jobs[j].key
  {
    assert Q.OneAtATimePerKey(s.queue.jobs);
    assert s.queue.jobs[e.job].key != s.queue.jobs[j].key;
  }

  lemma PruneJustRead(s: State, e: Event)
    requires Shaped(s) && Enabled(s, e) && e.PruneRead? && RowsAsCreated(s.backups, s.created)
    ensures PruneHistory(s.bodies[e.job].keep, e.rows, Max(s.bodies[e.job].keep, 0), s.queue.jobs[e.job].key,
                         s.backups, s.created)
    ensures NothingNew(e.rows, s.queue.jobs[e.job].key, s.backups)
  {
    forall i | 0 <= i < |e.rows| ensures IsDone(s.backups, e.rows[i], s.queue.jobs[e.job].key) {
      assert e.rows[i] in e.rows;
    }
  }

  lemma PruneFitKept(s: State, e: Event, j: Q.JobId)
    requires Inv(s) && Enabled(s, e) && !e.Restart?
    requires j < |s.bodies| && s.bodies[j].Prune? && Next(s, e).progress[j].Pruning?
    ensures var r := Next(s, e);
            && PruneHistory(s.bodies[j].keep, r.progress[j].rows, r.progress[j].next, s.queue.jobs[j].key,
                            r.backups, r.created)
            && (r.queue.jobs[j].phase.Running? ==>
                  NothingNew(r.progress[j].rows, s.queue.jobs[j].key, r.backups))
  {
    if e.PruneRead? && e.job == j {
      PruneJustRead(s, e);
    } else {
      assert s.progress[j].Pruning?;
      PruneHistoryKept(s, e, j);
      JobsAfter(s, e);
      if s.queue.jobs[j].phase.Running? { NothingNewKept(s, e, j); }
    }
  }

  lemma PrunesFitKept(s: State, e: Event)
    requires Inv(s) && Enabled(s, e)
    ensures var r := Next(s, e); PrunesFit(r.queue.jobs, r.bodies, r.progress, r.backups, r.created)
  {
    var r := Next(s, e);
    if !e.Restart? {
      forall j | 0 <= j < |r.bodies| && r.bodies[j].Prune? && r.progress[j].Pruning?
        ensures PruneHistory(r.bodies[j].keep, r.progress[j].rows, r.progress[j].next, r.queue.jobs[j].key,
                             r.backups, r.created)
        ensures r.queue.jobs[j].phase.Running? ==> NothingNew(r.progress[j].rows, r.queue.jobs[j].key, r.backups)
      {
        assert j < |s.bodies| && r.bodies[j] == s.bodies[j];
        JobsAfter(s, e);
        PruneFitKept(s, e, j);
      }
    }
  }

  lemma StepKeepsInv(s: State, e: Event)
    requires Inv(s) && Enabled(s, e)
    ensures Inv(Next(s, e))
  {
    QueueInvKept(s, e);
    TaskInvKept(s, e);
    RowsAsCreatedKept(s, e);
    TarsKeyedKept(s, e);
    ProgressFitsKept(s, e);
    BodiesFitKept(s, e);
    PrunesFitKept(s, e);
  }

  // ---------- Every run ----------

  ghost predicate Legal(s: State, run: seq<Event>)
    requires Shaped(s)
    decreases |run|
  {
    run == [] || (Enabled(s, run[0]) && Legal(Next(s, run[0]), run[1..]))
  }

  ghost function Exec(s: State, run: seq<Event>): (r: State)
    requires Shaped(s) && Legal(s, run)
    ensures Shaped(r)
    decreases |run|
  {
    if run == [] then s else Exec(Next(s, run[0]), run[1..])
  }

  lemma {:induction false} RunKeepsInv(s: State, run: seq<Event>)
    requires Inv(s) && Legal(s, run)
    ensures Inv(Exec(s, run))
    decreases |run|
  {
    if run != [] {
      StepKeepsInv(s, run[0]);
      RunKeepsInv(Next(s, run[0]), run[1..]);
    }
  }

  lemma EveryRunKeepsInv(maxConcurrent: nat, run: seq<Event>)
    requires Legal(Init(maxConcurrent), run)
    ensures Inv(Exec(Init(maxConcurrent), run))
  {
    Q.InitInv(maxConcurrent);
    RunKeepsInv(Init(maxConcurrent), run);
  }

  /** After any run, one more step of anyone moves a task only forward, never removes an active task,
      and leaves a finished one as it is until it is cleared. */
  lemma TasksOnlyMoveForward(maxConcurrent: nat, run: seq<Event>, e: Event, t: T.TaskId)
    requires Legal(Init(maxConcurrent), run)
    requires Enabled(Exec(Init(maxConcurrent), run), e) && !e.Restart?
    requires t in Exec(Init(maxConcurrent), run).tasks
    ensures var s := Exec(Init(maxConcurrent), run);
            var r := Next(s, e);
            && (T.Active(s.tasks[t]) ==> t in r.tasks)
            && (t in r.tasks ==> T.MayBecome(s.tasks[t], r.tasks[t]))
  {
    EveryRunKeepsInv(maxConcurrent, run);
    TaskStep(Exec(Init(maxConcurrent), run), e, t);
  }

  lemma TaskStep(s: State, e: Event, t: T.TaskId)
    requires Shaped(s) && Enabled(s, e) && TaskInv(s) && !e.Restart? && t in s.tasks
    ensures T.Active(s.tasks[t]) ==> t in Next(s, e).tasks
    ensures t in Next(s, e).tasks ==> T.MayBecome(s.tasks[t], Next(s, e).tasks[t])
  {
  }

  /** Once the job of a task has settled, its row says SUCCESS exactly when the work returned, which is
      also how the job's own promise settled. */
  lemma FinishedTaskTellsResult(maxConcurrent: nat, run: seq<Event>, j: Q.JobId)
    requires Legal(Init(maxConcurrent), run)
    requires var s := Exec(Init(maxConcurrent), run);
             j < |s.bodies| && s.bodies[j].Tracked? && s.queue.jobs[j].phase.Settled?
    ensures var s := Exec(Init(maxConcurrent), run);
            && s.progress[j].TaskEnded?
            && s.queue.jobs[j].phase.ok == s.progress[j].ok
            && (s.bodies[j].task in s.tasks ==>
                  s.tasks[s.bodies[j].task] == if s.progress[j].ok then T.Success else T.Failed)
  {
    EveryRunKeepsInv(maxConcurrent, run);
    var s := Exec(Init(maxConcurrent), run);
    assert TaskFits(s.tasks, s.bodies[j].task, s.progress[j]);
  }

  ghost predicate NoneActive(tasks: T.Rows) {
    forall t <- tasks :: !T.Active(tasks[t])
  }

  /** The reconciler fails the tasks of the previous process only when it reaches Docker: a restart
      leaves no task active exactly when it does, or when there was none. */
  lemma RestartLeavesNoneActive(s: State, dockerUp: bool)
    requires Shaped(s)
    ensures NoneActive(Next(s, Restart(dockerUp)).tasks) <==> dockerUp || NoneActive(s.tasks)
    ensures forall t <- s.tasks :: !T.Active(s.tasks[t]) ==>
              t in Next(s, Restart(dockerUp)).tasks && Next(s, Restart(dockerUp)).tasks[t] == s.tasks[t]
  {
    var after := Next(s, Restart(dockerUp)).tasks;
    if dockerUp {
      assert forall t <- after :: !T.Active(after[t]);
    }
  }

  ghost function Done(backups: map<BackupId, Backup>, target: string): set<BackupId> {
    set b | b in backups && IsDone(backups, b, target)
  }

  ghost function Members(ids: seq<BackupId>): set<BackupId> {
    set b | b in ids
  }

  lemma {:induction false} AtMostLength(ids: seq<BackupId>)
    ensures |Members(ids)| <= |ids|
  {
    if ids != [] {
      var n := |ids| - 1;
      AtMostLength(ids[..n]);
      assert ids == ids[..n] + [ids[n]];
      assert Members(ids) == Members(ids[..n]) + {ids[n]};
    }
  }

  function Min(a: nat, b: nat): nat { if a < b then a else b }

  lemma {:induction false} CardinalityOfSubset(small: set<BackupId>, big: set<BackupId>)
    requires small <= big
    ensures |small| <= |big|
  {
    if small != {} {
      var x :| x in small;
      CardinalityOfSubset(small - {x}, big - {x});
    }
  }

  /** The target is down to at most `keep` SUCCESS backups, all among the first `keep` that the prune
      read, and each row it deleted was created before each of those. */
  ghost predicate KeptNewest(keep: nat, rows: seq<BackupId>, target: string,
                             backups: map<BackupId, Backup>, created: map<BackupId, Backup>) {
    && |Done(backups, target)| <= keep
    && (forall b <- Done(backups, target) :: b in rows[..Min(keep, |rows|)])
    && (forall k :: keep <= k < |rows| ==> rows[k] !in backups)
    && (forall i, k :: 0 <= i < keep <= k < |rows| ==>
          rows[i] in created && rows[k] in created && created[rows[k]].createdAt < created[rows[i]].createdAt)
  }

  lemma EndedPruneKeptNewest(keep: int, rows: seq<BackupId>, next: nat, target: string,
                             backups: map<BackupId, Backup>, created: map<BackupId, Backup>)
    requires PruneHistory(keep, rows, next, target, backups, created) && next >= |rows|
    requires NothingNew(rows, target, backups)
    ensures KeptNewest(Max(keep, 0), rows, target, backups, created)
  {
    var first := rows[..Min(Max(keep, 0), |rows|)];
    forall b | b in Done(backups, target)
      ensures b in first
    {
      var i :| 0 <= i < |rows| && rows[i] == b;
      assert first[i] == b;
    }
    AtMostLength(first);
    CardinalityOfSubset(Done(backups, target), Members(first));
  }

  /** Retention, in any run: what a prune that ends leaves behind. */
  lemma PruneLeavesNewest(maxConcurrent: nat, run: seq<Event>, j: Q.JobId)
    requires Legal(Init(maxConcurrent), run)
    requires var s := Exec(Init(maxConcurrent), run);
             j < |s.bodies| && s.bodies[j].Prune? && Enabled(s, Finish(j))
    ensures var s := Exec(Init(maxConcurrent), run);
            && s.progress[j].Pruning?
            && KeptNewest(Max(s.bodies[j].keep, 0), s.progress[j].rows, s.queue.jobs[j].key, s.backups, s.created)
  {
    EveryRunKeepsInv(maxConcurrent, run);
    PruneEnds(Exec(Init(maxConcurrent), run), j);
  }

  lemma PruneEnds(s: State, j: Q.JobId)
    requires Shaped(s) && BackupInv(s) && TaskInv(s)
    requires j < |s.bodies| && s.bodies[j].Prune? && Enabled(s, Finish(j))
    ensures s.progress[j].Pruning?
    ensures KeptNewest(Max(s.bodies[j].keep, 0), s.progress[j].rows, s.queue.jobs[j].key, s.backups, s.created)
  {
    EndedPruneKeptNewest(s.bodies[j].keep, s.progress[j].rows, s.progress[j].next, s.queue.jobs[j].key,
                         s.backups, s.created);
  }

  /** A tick enqueues its backup and then its prune: when the prune reads the table, the backup has
      written its final status and its task has ended. */
  lemma PruneWaitsForBackup(maxConcurrent: nat, run: seq<Event>, backup: Q.JobId, prune: Q.JobId)
    requires Legal(Init(maxConcurrent), run)
    requires var s := Exec(Init(maxConcurrent), run);
             && backup < prune < |s.bodies|
             && s.queue.jobs[backup].key == s.queue.jobs[prune].key
             && s.bodies[backup].Tracked? && s.queue.jobs[prune].phase.Running?
    ensures var s := Exec(Init(maxConcurrent), run);
            s.queue.jobs[backup].phase.Settled? && s.progress[backup].TaskEnded?
  {
    EveryRunKeepsInv(maxConcurrent, run);
  }
}
