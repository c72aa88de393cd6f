/**
 The work of the jobs on their own: BackupsService with its table, one statement after the other.
 */
module BackupsServices {
  import opened BackupRuns
  import T = Tasks

  /** No two rows of the table were created at the same time. */
  ghost predicate DistinctTimes(backups: map<BackupId, Backup>) {
    forall a, b :: a in backups && b in backups && a != b ==> backups[a].createdAt != backups[b].createdAt
  }

  class BackupsService {
    var backups: map<BackupId, Backup>
    const tasks: T.TasksService

    constructor (tasks: T.TasksService)
      ensures backups == map[] && this.tasks == tasks
    {
      backups, this.tasks := map[], tasks;
    }

    method Remove(id: BackupId)
      modifies this
      ensures backups == old(backups) - {id}
    {
      backups := backups - {id};
    }

    /** The job of a volume tar; `exited` tells whether the container produced the archive. */
    method RunVolumeTar(id: BackupId, exited: bool) returns (threw: bool)
      modifies this
      ensures threw == !exited
      ensures backups == WithBackupStatus(old(backups), id, if exited then SUCCESS else FAILED)
      ensures backups.Keys == old(backups).Keys
      ensures id in backups ==> backups[id] == Backup(old(backups)[id].target, old(backups)[id].createdAt,
                                                      if exited then SUCCESS else FAILED)
      ensures forall b <- backups :: b != id ==> backups[b] == old(backups)[b]
    {
      backups := WithBackupStatus(backups, id, RUNNING);
      if exited {
        backups := WithBackupStatus(backups, id, SUCCESS);
      } else {
        backups := WithBackupStatus(backups, id, FAILED);
      }
      threw := !exited;
    }

    /** The body of tracked work that is a volume tar: the task row ends as the backup row does. */
    method RunTracked(task: T.TaskId, id: BackupId, exited: bool) returns (threw: bool)
      modifies this, tasks
      ensures threw == !exited
      ensures backups == WithBackupStatus(old(backups), id, if exited then SUCCESS else FAILED)
      ensures id in backups ==> backups[id].status == if exited then SUCCESS else FAILED
      ensures tasks.rows == T.WithStatus(old(tasks.rows), task, if exited then T.Success else T.Failed)
    {
      tasks.Start(task);
      threw := RunVolumeTar(id, exited);
      if threw {
        tasks.Fail(task);
      } else {
        tasks.Succeed(task);
      }
    }

    /** `rows` is the answer of the SELECT. */
    method PruneTarget(target: string, keep: int, rows: seq<BackupId>)
      requires NewestFirst(rows, backups, target) && DistinctTimes(backups)
      modifies this
      ensures KeptNewest(Max(keep, 0), rows, target, backups, old(backups))
      ensures forall b :: b in backups <==> b in old(backups) && b !in rows[Min(Max(keep, 0), |rows|)..]
      ensures forall b <- backups :: backups[b] == old(backups)[b]
    {
      var from := Max(keep, 0);
      var doomed := if from <= |rows| then rows[from..] else [];
      for i := 0 to |doomed|
        invariant forall b :: b in backups <==> b in old(backups) && b !in doomed[..i]
        invariant forall b <- backups :: backups[b] == old(backups)[b]
      {
        assert doomed[..i + 1] == doomed[..i] + [doomed[i]];
        Remove(doomed[i]);
      }
      assert doomed[..|doomed|] == doomed == rows[Min(from, |rows|)..];
      RowsInOrder(target, keep, rows, old(backups));
      AllDeleted(target, keep, rows, old(backups), backups);
    }
  }

  lemma RowsInOrder(target: string, keep: int, rows: seq<BackupId>, backups: map<BackupId, Backup>)
    requires NewestFirst(rows, backups, target) && DistinctTimes(backups)
    ensures PruneHistory(keep, rows, 0, target, backups, backups)
  {
    assert forall i :: 0 <= i < |rows| ==> rows[i] in rows;
  }

  lemma AllDeleted(target: string, keep: int, rows: seq<BackupId>, before: map<BackupId, Backup>,
                   after: map<BackupId, Backup>)
    requires NewestFirst(rows, before, target) && PruneHistory(keep, rows, 0, target, before, before)
    requires forall b :: b in after <==> b in before && b !in rows[Min(Max(keep, 0), |rows|)..]
    requires forall b <- after :: after[b] == before[b]
    ensures KeptNewest(Max(keep, 0), rows, target, after, before)
  {
    DoomedAreGone(target, keep, rows, before, after);
    StillNothingNew(target, rows, before, after);
    EndedPruneKeptNewest(keep, rows, |rows|, target, after, before);
  }

  lemma DoomedAreGone(target: string, keep: int, rows: seq<BackupId>, before: map<BackupId, Backup>,
                      after: map<BackupId, Backup>)
    requires PruneHistory(keep, rows, 0, target, before, before)
    requires forall b :: b in after ==> b !in rows[Min(Max(keep, 0), |rows|)..]
    ensures PruneHistory(keep, rows, |rows|, target, after, before)
  {
    forall i | Max(keep, 0) <= i < |rows| ensures rows[i] !in after {
      assert rows[i] == rows[Max(keep, 0)..][i - Max(keep, 0)];
    }
  }

  lemma StillNothingNew(target: string, rows: seq<BackupId>, before: map<BackupId, Backup>,
                        after: map<BackupId, Backup>)
    requires NewestFirst(rows, before, target)
    requires forall b <- after :: b in before && after[b] == before[b]
    ensures NothingNew(rows, target, after)
  {
    assert forall b :: IsDone(after, b, target) ==> IsDone(before, b, target);
  }
}
