/**
 * The external backend-as-a-service as the handlers see it: the `users`, `tasks` and
 * `screenshots` tables, the screenshot storage bucket, and a log of every write the
 * handlers issue to it. Each write takes the platform's reply as an input, so success,
 * an empty answer and a raised exception are all in the model.
 */
module Platform {
  import opened Wrappers

  /** A row of the `users` table: the role metadata this backend keeps beside an identity. */
  datatype UserRow = UserRow(id: string, fullName: string, role: string, email: string)

  /** The columns `assign_task` sends when it inserts a task. */
  datatype TaskPayload = TaskPayload(assignedBy: string, assignedTo: string, title: string,
                                     description: Option<string>, estimatedMinutes: int)

  /** A row of the `tasks` table. */
  datatype TaskRow = TaskRow(id: string, assignedBy: string, assignedTo: string, title: string,
                             description: Option<string>, estimatedMinutes: int,
                             status: string, completedAt: Option<string>)

  /** The status a freshly inserted task gets from the table's default. */
  const DefaultStatus := "pending"

  /** The row the table stores for an inserted payload under the id the table assigns. */
  function TaskRowOf(id: string, p: TaskPayload): TaskRow {
    TaskRow(id, p.assignedBy, p.assignedTo, p.title, p.description, p.estimatedMinutes,
            DefaultStatus, None)
  }

  /** The columns `update_task_status` sends: always `status`, `completed_at` only when present. */
  datatype StatusPayload = StatusPayload(status: string, completedAt: Option<string>)

  /** An update writes the columns in its payload and leaves all others as they were. */
  function ApplyStatus(t: TaskRow, p: StatusPayload): (u: TaskRow)
    ensures u.id == t.id && u.assignedBy == t.assignedBy && u.assignedTo == t.assignedTo
    ensures u.title == t.title && u.description == t.description
    ensures u.estimatedMinutes == t.estimatedMinutes
    ensures u.status == p.status
    ensures u.completedAt == if p.completedAt.Some? then p.completedAt else t.completedAt
  {
    t.(status := p.status, completedAt := if p.completedAt.Some? then p.completedAt else t.completedAt)
  }

  /** A row of the `screenshots` table; `id` is assigned by the table (None before insertion). */
  datatype ShotRow = ShotRow(id: Option<string>, userId: string, imageUrl: string, capturedAt: string)

  /** Every mutating call a handler issues, in the order issued. */
  datatype Write =
    | InsertTask(task: TaskPayload)
    | UpdateTask(taskId: string, change: StatusPayload)
    | InsertUser(user: UserRow)
    | UploadObject(path: string, contentType: string)
    | InsertScreenshot(shot: ShotRow)
    | RemoveObjects(paths: seq<string>)

  /** The platform's answer to a table insert or update. */
  datatype WriteReply =
    | Written                   // the write was applied and the rows came back
    | NothingReturned           // no rows came back and nothing was written
    | WriteRaised(message: string)  // the client raised; nothing was written

  /** The storage answer to an upload. */
  datatype UploadReply =
    | UploadAccepted
    | UploadErrorDict(message: string)  // a dict with an "error" entry came back
    | UploadRaised(message: string)

  /** The table's answer to a `screenshots` insert. */
  datatype ShotReply =
    | ShotInserted(id: string, echoed: bool)  // written under `id`; `echoed`: the row came back as data
    // the response carries an `error`; nothing written. `message` is the text the calling route
    // renders from it: `error.message` in the upload, `str(error)` in the record-only route
    | ShotErrorReported(message: string)
    | ShotInsertRaised(message: string)       // the client raised; nothing written

  /** The storage answer to a removal. */
  datatype RemoveReply = RemoveDone | RemoveRaised(message: string)

  /** What storage reports when an upload without upsert targets a path that already holds an object. */
  const DuplicateObject := "The resource already exists"

  class Backend {
    var users: map<string, UserRow>
    var tasks: map<string, TaskRow>
    var screenshots: seq<ShotRow>
    var objects: map<string, seq<bv8>>
    var writes: seq<Write>

    constructor ()
      ensures users == map[] && tasks == map[] && screenshots == [] && objects == map[] && writes == []
    {
      users, tasks, screenshots, objects, writes := map[], map[], [], map[], [];
    }

    method InsertTask(id: string, payload: TaskPayload, reply: WriteReply)
      modifies this`tasks, this`writes
      ensures writes == old(writes) + [Write.InsertTask(payload)]
      ensures tasks == if reply.Written? then old(tasks)[id := TaskRowOf(id, payload)] else old(tasks)
    {
      writes := writes + [Write.InsertTask(payload)];
      if reply.Written? {
        tasks := tasks[id := TaskRowOf(id, payload)];
      }
    }

    /** `update(payload).eq("id", id)`: touches the row with that id, if there is one. */
    method UpdateTask(id: string, payload: StatusPayload, reply: WriteReply)
      modifies this`tasks, this`writes
      ensures writes == old(writes) + [Write.UpdateTask(id, payload)]
      ensures tasks == if reply.Written? && id in old(tasks)
                       then old(tasks)[id := ApplyStatus(old(tasks)[id], payload)]
                       else old(tasks)
    {
      writes := writes + [Write.UpdateTask(id, payload)];
      if reply.Written? && id in tasks {
        tasks := tasks[id := ApplyStatus(tasks[id], payload)];
      }
    }

    method InsertUser(row: UserRow, reply: WriteReply)
      modifies this`users, this`writes
      ensures writes == old(writes) + [Write.InsertUser(row)]
      ensures users == if reply.Written? then old(users)[row.id := row] else old(users)
    {
      writes := writes + [Write.InsertUser(row)];
      if reply.Written? {
        users := users[row.id := row];
      }
    }

    /** An upload with upsert off: an occupied path is refused and its object is kept. */
    method UploadObject(path: string, data: seq<bv8>, contentType: string, reply: UploadReply)
      returns (outcome: UploadReply)
      modifies this`objects, this`writes
      ensures writes == old(writes) + [Write.UploadObject(path, contentType)]
      ensures outcome == if path in old(objects) && reply.UploadAccepted?
                         then UploadErrorDict(DuplicateObject) else reply
      ensures objects == if outcome.UploadAccepted? then old(objects)[path := data] else old(objects)
      ensures path in old(objects) ==> objects == old(objects)
    {
      writes := writes + [Write.UploadObject(path, contentType)];
      if path in objects && reply.UploadAccepted? {
        outcome := UploadErrorDict(DuplicateObject);
      } else {
        outcome := reply;
      }
      if outcome.UploadAccepted? {
        objects := objects[path := data];
      }
    }

    method RemoveObjects(paths: seq<string>, reply: RemoveReply)
      modifies this`objects, this`writes
      ensures writes == old(writes) + [Write.RemoveObjects(paths)]
      ensures objects == if reply.RemoveDone? then old(objects) - (set p | p in paths) else old(objects)
    {
      writes := writes + [Write.RemoveObjects(paths)];
      if reply.RemoveDone? {
        objects := objects - (set p | p in paths);
      }
    }

    method InsertScreenshot(row: ShotRow, reply: ShotReply)
      modifies this`screenshots, this`writes
      ensures writes == old(writes) + [Write.InsertScreenshot(row)]
      ensures screenshots == if reply.ShotInserted? then old(screenshots) + [row.(id := Some(reply.id))]
                             else old(screenshots)
    {
      writes := writes + [Write.InsertScreenshot(row)];
      if reply.ShotInserted? {
        screenshots := screenshots + [row.(id := Some(reply.id))];
      }
    }
  }
}
