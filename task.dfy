/**
 * Task assignment, listing and status updates over the `users` and `tasks` tables.
 * Each route is a method over the platform whose outcome equals a pure effect function;
 * the properties of the routes are stated on those functions.
 */
module Task {
  import opened Wrappers
  import opened Http
  import opened Platform
  import Auth
  import UtcTime

  // ---------------------------------------------------------------------------
  // Request bodies and their declared constraints

  datatype AssignBody = AssignBody(title: string, description: Option<string>,
                                   estimatedMinutes: int, assignedTo: string)

  /** `title: str = Field(min_length=1)` and `estimated_minutes: int = Field(ge=1)`. */
  predicate ValidAssignBody(body: AssignBody) {
    |body.title| >= 1 && body.estimatedMinutes >= 1
  }

  datatype StatusBody = StatusBody(taskId: string, newStatus: string)

  const InProgress := "in_progress"
  const Completed := "completed"

  /** `new_status: str = Field(pattern="^(in_progress|completed)$")`. */
  predicate ValidNewStatus(s: string) {
    s == InProgress || s == Completed
  }

  // ---------------------------------------------------------------------------
  // Outcomes

  /** A route's answer together with the `tasks` table and the writes it issued. */
  datatype TaskEffect = TaskEffect(result: Result<TaskRow, HttpError>, tasks: map<string, TaskRow>,
                                   writes: seq<Write>)

  /** The role check of `assign_task`: the caller's `users` row exists and says superuser. */
  predicate IsSuperuser(users: map<string, UserRow>, id: string) {
    id in users && users[id].role == Auth.SuperuserRole
  }

  const OnlySuperusers := HttpError(Forbidden, "Only superusers can assign tasks.")
  const CreationFailed := HttpError(BadRequest, "Task creation failed.")
  const TaskNotFound := HttpError(NotFound, "Task not found.")
  const NotYourTask := HttpError(Forbidden, "You can only update your own tasks.")
  const UpdateFailed := HttpError(BadRequest, "Task update failed.")

  function AssignPayload(caller: Auth.User, body: AssignBody): TaskPayload {
    TaskPayload(caller.id, body.assignedTo, body.title, body.description, body.estimatedMinutes)
  }

  /**
   * `assign_task`. `newId` is the id the table assigns to an inserted row; `reply` is the
   * table's answer to the insert.
   */
  function AssignSpec(users: map<string, UserRow>, tasks: map<string, TaskRow>, caller: Auth.User,
                      body: AssignBody, newId: string, reply: WriteReply): (e: TaskEffect)
    requires newId !in tasks
    ensures !ValidAssignBody(body) ==> e == TaskEffect(Failure(ValidationFailed), tasks, [])
    ensures ValidAssignBody(body) && !IsSuperuser(users, caller.id) ==>
              e == TaskEffect(Failure(OnlySuperusers), tasks, [])
    ensures e.writes != [] ==> IsSuperuser(users, caller.id)
    ensures e.result.Success? <==> ValidAssignBody(body) && IsSuperuser(users, caller.id) && reply.Written?
    ensures e.result.Success? ==>
              && e.result.value.id == newId
              && e.result.value.assignedBy == caller.id
              && e.result.value.assignedTo == body.assignedTo
              && e.result.value.title == body.title
              && e.result.value.description == body.description
              && e.result.value.estimatedMinutes == body.estimatedMinutes
              && e.result.value.status == DefaultStatus
              && e.tasks == tasks[newId := e.result.value]
    ensures e.result.Failure? ==> e.tasks == tasks
    ensures |e.tasks| == |tasks| + (if e.result.Success? then 1 else 0)
    ensures ValidAssignBody(body) && IsSuperuser(users, caller.id) ==>
              && e.writes == [InsertTask(AssignPayload(caller, body))]
              && (reply.NothingReturned? ==> e.result == Failure(CreationFailed))
              && (reply.WriteRaised? ==> e.result == Failure(Unhandled))
  {
    if !ValidAssignBody(body) then TaskEffect(Failure(ValidationFailed), tasks, [])
    else if !IsSuperuser(users, caller.id) then TaskEffect(Failure(OnlySuperusers), tasks, [])
    else
      var payload := AssignPayload(caller, body);
      match reply
      case Written =>
        var row := TaskRowOf(newId, payload);
        TaskEffect(Success(row), tasks[newId := row], [InsertTask(payload)])
      case NothingReturned => TaskEffect(Failure(CreationFailed), tasks, [InsertTask(payload)])
      case WriteRaised(_) => TaskEffect(Failure(Unhandled), tasks, [InsertTask(payload)])
  }

  /** The answer of `get_my_tasks`: the caller's tasks keyed by id, and how many there are. */
  datatype MyTasks = MyTasks(count: nat, tasks: map<string, TaskRow>)

  function GetMyTasks(tasks: map<string, TaskRow>, caller: Auth.User): (r: MyTasks)
    ensures forall id :: id in r.tasks <==> id in tasks && tasks[id].assignedTo == caller.id
    ensures forall id :: id in r.tasks ==> r.tasks[id] == tasks[id]
    ensures r.count == |r.tasks|
  {
    var mine := map id | id in tasks && tasks[id].assignedTo == caller.id :: tasks[id];
    MyTasks(|mine|, mine)
  }

  /** The `completed_at` entry of the update payload: present only when completing. */
  function CompletedAtFor(newStatus: string, now: UtcTime.Instant): Option<string> {
    if newStatus == Completed then Some(UtcTime.IsoFormat(now)) else None
  }

  /** Two task rows agree on everything except `status` and `completed_at`. */
  predicate SameTaskApartFromProgress(a: TaskRow, b: TaskRow) {
    && a.id == b.id && a.assignedBy == b.assignedBy && a.assignedTo == b.assignedTo
    && a.title == b.title && a.description == b.description && a.estimatedMinutes == b.estimatedMinutes
  }

  /**
   * `update_task_status`. `now` is the clock reading taken for `completed_at`; `reply` is the
   * table's answer to the update. The current status of the task plays no part.
   */
  function UpdateSpec(tasks: map<string, TaskRow>, caller: Auth.User, body: StatusBody,
                      now: UtcTime.Instant, reply: WriteReply): (e: TaskEffect)
    ensures !ValidNewStatus(body.newStatus) ==> e == TaskEffect(Failure(ValidationFailed), tasks, [])
    ensures ValidNewStatus(body.newStatus) && body.taskId !in tasks ==>
              e == TaskEffect(Failure(TaskNotFound), tasks, [])
    ensures ValidNewStatus(body.newStatus) && body.taskId in tasks && tasks[body.taskId].assignedTo != caller.id ==>
              e == TaskEffect(Failure(NotYourTask), tasks, [])
    ensures e.writes != [] ==>
              && ValidNewStatus(body.newStatus) && body.taskId in tasks
              && tasks[body.taskId].assignedTo == caller.id
              && e.writes == [UpdateTask(body.taskId, StatusPayload(body.newStatus, CompletedAtFor(body.newStatus, now)))]
    ensures e.result.Success? <==>
              && ValidNewStatus(body.newStatus) && body.taskId in tasks
              && tasks[body.taskId].assignedTo == caller.id && reply.Written?
    ensures e.result.Success? ==>
              var old_ := tasks[body.taskId];
              var new_ := e.result.value;
              && e.tasks == tasks[body.taskId := new_]
              && SameTaskApartFromProgress(old_, new_)
              && new_.status == body.newStatus
              && (body.newStatus == Completed ==> new_.completedAt == Some(UtcTime.IsoFormat(now)))
              && (body.newStatus != Completed ==> new_.completedAt == old_.completedAt)
    ensures e.result.Failure? ==> e.tasks == tasks
    ensures e.tasks.Keys == tasks.Keys
    ensures forall id :: id in tasks && id != body.taskId ==> e.tasks[id] == tasks[id]
    ensures ValidNewStatus(body.newStatus) && body.taskId in tasks && tasks[body.taskId].assignedTo == caller.id ==>
              && e.writes == [UpdateTask(body.taskId, StatusPayload(body.newStatus, CompletedAtFor(body.newStatus, now)))]
              && (reply.NothingReturned? ==> e.result == Failure(UpdateFailed))
              && (reply.WriteRaised? ==> e.result == Failure(Unhandled))
  {
    if !ValidNewStatus(body.newStatus) then TaskEffect(Failure(ValidationFailed), tasks, [])
    else if body.taskId !in tasks then TaskEffect(Failure(TaskNotFound), tasks, [])
    else if tasks[body.taskId].assignedTo != caller.id then TaskEffect(Failure(NotYourTask), tasks, [])
    else
      var payload := StatusPayload(body.newStatus, CompletedAtFor(body.newStatus, now));
      var writes := [UpdateTask(body.taskId, payload)];
      match reply
      case Written =>
        var row := ApplyStatus(tasks[body.taskId], payload);
        TaskEffect(Success(row), tasks[body.taskId := row], writes)
      case NothingReturned => TaskEffect(Failure(UpdateFailed), tasks, writes)
      case WriteRaised(_) => TaskEffect(Failure(Unhandled), tasks, writes)
  }

  // ---------------------------------------------------------------------------
  // The routes over the platform

  method AssignTask(b: Backend, caller: Auth.User, body: AssignBody, newId: string, reply: WriteReply)
    returns (r: Result<TaskRow, HttpError>)
    requires newId !in b.tasks
    modifies b`tasks, b`writes
    ensures var e := AssignSpec(old(b.users), old(b.tasks), caller, body, newId, reply);
            r == e.result && b.tasks == e.tasks && b.writes == old(b.writes) + e.writes
  {
    if !ValidAssignBody(body) {
      return Failure(ValidationFailed);
    }
    var roleRow: Option<UserRow> := if caller.id in b.users then Some(b.users[caller.id]) else None;
    if roleRow.None? || roleRow.value.role != Auth.SuperuserRole {
      return Failure(OnlySuperusers);
    }
    var payload := AssignPayload(caller, body);
    b.InsertTask(newId, payload, reply);
    match reply {
      case Written => r := Success(b.tasks[newId]);
      case NothingReturned => r := Failure(CreationFailed);
      case WriteRaised(_) => r := Failure(Unhandled);
    }
  }

  method UpdateTaskStatus(b: Backend, caller: Auth.User, body: StatusBody, now: UtcTime.Instant,
                          reply: WriteReply)
    returns (r: Result<TaskRow, HttpError>)
    modifies b`tasks, b`writes
    ensures var e := UpdateSpec(old(b.tasks), caller, body, now, reply);
            r == e.result && b.tasks == e.tasks && b.writes == old(b.writes) + e.writes
  {
    if !ValidNewStatus(body.newStatus) {
      return Failure(ValidationFailed);
    }
    if body.taskId !in b.tasks {
      return Failure(TaskNotFound);
    }
    if b.tasks[body.taskId].assignedTo != caller.id {
      return Failure(NotYourTask);
    }
    var completedAt: Option<string> := None;
    if body.newStatus == Completed {
      completedAt := Some(UtcTime.IsoFormat(now));
    }
    var payload := StatusPayload(body.newStatus, completedAt);
    b.UpdateTask(body.taskId, payload, reply);
    match reply {
      case Written => r := Success(b.tasks[body.taskId]);
      case NothingReturned => r := Failure(UpdateFailed);
      case WriteRaised(_) => r := Failure(Unhandled);
    }
  }

  // ---------------------------------------------------------------------------
  // How the routes relate

  /** A successful assignment adds exactly one task to the assignee's list and none to anyone else's. */
  lemma AssignGrowsOnlyAssigneeList(users: map<string, UserRow>, tasks: map<string, TaskRow>, caller: Auth.User,
                                    body: AssignBody, newId: string, reply: WriteReply, viewer: Auth.User)
    requires newId !in tasks
    ensures var e := AssignSpec(users, tasks, caller, body, newId, reply);
            GetMyTasks(e.tasks, viewer).count ==
              GetMyTasks(tasks, viewer).count + (if e.result.Success? && body.assignedTo == viewer.id then 1 else 0)
  {
    var e := AssignSpec(users, tasks, caller, body, newId, reply);
    var before := GetMyTasks(tasks, viewer).tasks;
    var after := GetMyTasks(e.tasks, viewer).tasks;
    if e.result.Success? {
      var row := e.result.value;
      if body.assignedTo == viewer.id {
        assert after == before[newId := row];
      } else {
        assert after == before;
      }
    }
  }

  /** A status update never moves a task between users' lists. */
  lemma UpdateKeepsEveryList(tasks: map<string, TaskRow>, caller: Auth.User, body: StatusBody,
                             now: UtcTime.Instant, reply: WriteReply, viewer: Auth.User)
    ensures GetMyTasks(UpdateSpec(tasks, caller, body, now, reply).tasks, viewer).tasks.Keys
         == GetMyTasks(tasks, viewer).tasks.Keys
  {
  }

  /** The current status is never consulted: a completed task can be put back in progress by its owner. */
  lemma NoTransitionOrder(tasks: map<string, TaskRow>, caller: Auth.User, taskId: string, now: UtcTime.Instant)
    requires taskId in tasks && tasks[taskId].assignedTo == caller.id && tasks[taskId].status == Completed
    ensures var e := UpdateSpec(tasks, caller, StatusBody(taskId, InProgress), now, Written);
            e.result.Success? && e.result.value.status == InProgress
            && e.result.value.completedAt == tasks[taskId].completedAt
  {
  }
}
