/** Activity tasks: the rows behind the activity tracker and their status changes. */
module Tasks {
  type TaskId = nat

  datatype Status = Pending | Running | Success | Failed

  datatype ClearError = NotFound | Conflict

  predicate Active(s: Status) { s.Pending? || s.Running? }

  type Rows = map<TaskId, Status>

  /** An UPDATE by id: nothing happens when the row is gone. */
  function WithStatus(rows: Rows, id: TaskId, status: Status): Rows {
    if id in rows then rows[id := status] else rows
  }

  function Interrupted(rows: Rows): Rows {
    map t | t in rows :: if Active(rows[t]) then Failed else rows[t]
  }

  function Unfinished(rows: Rows): Rows {
    map t | t in rows && Active(rows[t]) :: rows[t]
  }

  /** What a task may become while the process lives. */
  predicate MayBecome(before: Status, after: Status) {
    || after == before
    || (before.Pending? && after.Running?)
    || (before.Running? && !Active(after))
  }

  class TasksService {
    var rows: Rows
    var nextId: TaskId

    constructor ()
      ensures rows == map[] && nextId == 0
    {
      rows, nextId := map[], 0;
    }

    method Create() returns (id: TaskId)
      modifies this
      ensures id == old(nextId) && nextId == id + 1
      ensures rows == old(rows)[id := Pending]
    {
      id := nextId;
      nextId := nextId + 1;
      rows := rows[id := Pending];
    }

    method Start(id: TaskId)
      modifies this`rows
      ensures rows == WithStatus(old(rows), id, Running)
      ensures rows.Keys == old(rows).Keys && (id in rows ==> rows[id] == Running)
      ensures forall t <- rows :: t != id ==> rows[t] == old(rows)[t]
    {
      if id in rows { rows := rows[id := Running]; }
    }

    method Succeed(id: TaskId)
      modifies this`rows
      ensures rows == WithStatus(old(rows), id, Success)
      ensures rows.Keys == old(rows).Keys && (id in rows ==> rows[id] == Success)
      ensures forall t <- rows :: t != id ==> rows[t] == old(rows)[t]
    {
      if id in rows { rows := rows[id := Success]; }
    }

    method Fail(id: TaskId)
      modifies this`rows
      ensures rows == WithStatus(old(rows), id, Failed)
      ensures rows.Keys == old(rows).Keys && (id in rows ==> rows[id] == Failed)
      ensures forall t <- rows :: t != id ==> rows[t] == old(rows)[t]
    {
      if id in rows { rows := rows[id := Failed]; }
    }

    /** Called on boot: no row is active afterwards, and no finished row has changed. */
    method MarkInterrupted()
      modifies this`rows
      ensures rows == Interrupted(old(rows))
      ensures rows.Keys == old(rows).Keys && forall t <- rows :: !Active(rows[t])
      ensures forall t <- rows :: rows[t] == if Active(old(rows)[t]) then Failed else old(rows)[t]
    {
      rows := map t | t in rows :: if Active(rows[t]) then Failed else rows[t];
    }

    /** The read half of `clear`; the delete half runs after an await. */
    method ClearRead(id: TaskId) returns (refused: bool, error: ClearError)
      ensures refused <==> id !in rows || Active(rows[id])
      ensures refused ==> (error.NotFound? <==> id !in rows)
    {
      refused, error := true, NotFound;
      if id in rows {
        error := Conflict;
        refused := Active(rows[id]);
      }
    }

    method ClearDelete(id: TaskId)
      modifies this`rows
      ensures rows == old(rows) - {id}
      ensures id !in rows && forall t <- old(rows) :: t != id ==> t in rows && rows[t] == old(rows)[t]
    {
      rows := rows - {id};
    }

    method ClearFinished()
      modifies this`rows
      ensures rows == Unfinished(old(rows))
      ensures forall t :: t in rows <==> t in old(rows) && Active(old(rows)[t])
      ensures forall t <- rows :: rows[t] == old(rows)[t]
    {
      rows := map t | t in rows && Active(rows[t]) :: rows[t];
    }
  }
}
