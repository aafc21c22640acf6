/** The task endpoints (package internal/handlers). Each handler is a chain
    of checks that stops at the first failing one and otherwise answers with
    mock data.

    GetTasks checks nothing and is a single function. Every other handler
    has two parts here. A function `...Outcome` states what
    the request yields: a reply (status and body), or a Fault, which names
    the shared error returned and the details installed on it first. A
    method runs the checks against the shared error objects of a Catalog,
    calling WithDetails (directly or through ValidateStruct) as the handler
    does, and is proved to realise its Outcome.

    The request context is replaced by inputs: the path id, the body as
    parsed (None when the body parser fails), the clock reading `now` in
    nanoseconds, a freshly generated id, the UUID test `isUuid` (standing
    for `uuid.Parse` succeeding) and the datetime test `parsesTime`. */
module Handlers {
  import opened Wrappers
  import opened Dto
  import opened Errors
  import opened Validator

  /** `time.Hour` in nanoseconds. */
  const Hour: int := 3_600_000_000_000

  const NilUuid: string := "00000000-0000-0000-0000-000000000000"
  const IdRequired: string := "Task ID is required"
  const IdNotUuid: string := "Task ID must be a valid UUID"
  const NothingToUpdate: string := "At least one field must be provided to update"

  /** What a handler hands to `c.JSON`. */
  datatype Body =
    | List(list: TaskListResponse)
    | Bare(task: TaskResponse)
    | Envelope(response: SuccessResponse)

  datatype Reply = Reply(status: int, body: Body)

  /** A returned shared error and the details installed on it beforehand;
      None when it is returned as it stands. */
  datatype Fault = Fault(kind: Kind, details: Option<map<string, string>>)

  type Outcome = Result<Reply, Fault>

  /** The id check failures: ErrInvalidInput with a message under "id". */
  function IdFault(message: string): Fault {
    Fault(InvalidInput, Some(map["id" := message]))
  }

  /** The method's result is the Outcome's reply, or the very shared error
      object the Outcome names. */
  predicate Realises(cat: Catalog, r: Result<Reply, AppError>, o: Outcome) {
    match o
    case Success(reply) => r == Success(reply)
    case Failure(f) => r == Failure(cat.Get(f.kind))
  }

  /** The details of shared error k after a request with outcome o. */
  function DetailsAfter(o: Outcome, k: Kind, before: map<string, string>): map<string, string> {
    if o.Failure? && o.error.kind == k && o.error.details.Some? then o.error.details.value else before
  }

  function Success200(message: string, data: Data): Reply {
    Reply(200, Envelope(SuccessResponse(true, message, data)))
  }

  // ---------------------------------------------------------------------
  // GET /tasks

  /** `GetTasks`: two mock tasks; Total counts them, page 1 of size 10. */
  function GetTasks(now: int): (r: Reply)
    ensures r.status == 200 && r.body.List?
    ensures r.body.list.total == |r.body.list.tasks| && r.body.list.page == 1 && r.body.list.limit == 10
    ensures |r.body.list.tasks| == 2 && r.body.list.tasks[0].id == "1" && r.body.list.tasks[1].id == "2"
    ensures forall i :: 0 <= i < |r.body.list.tasks| ==> r.body.list.tasks[i].dueDate.None?
  {
    var tasks := [
      TaskResponse("1", "Learn Go", "Study Go programming language", "high", false, None, now - 24 * Hour, now - 24 * Hour),
      TaskResponse("2", "Build API", "Create REST API with Fiber", "medium", true, None, now - 12 * Hour, now - 6 * Hour)
    ];
    Reply(200, List(TaskListResponse(tasks, |tasks|, 1, 10)))
  }

  // ---------------------------------------------------------------------
  // GET /tasks/:id (GetTaskByID)

  function LearnGo(id: string, now: int): TaskResponse {
    TaskResponse(id, "Learn Go", "Study Go programming language", "high", false, None, now - 24 * Hour, now - 24 * Hour)
  }

  function TaskByIdOutcome(id: string, isUuid: string -> bool, now: int): Outcome {
    if id == "" then Failure(IdFault(IdRequired))
    else if !isUuid(id) then Failure(IdFault(IdNotUuid))
    else if id == "non-existent" then Failure(Fault(TaskNotFound, None))
    else Success(Success200("Task retrieved successfully", TaskData(LearnGo(id, now))))
  }

  method GetTaskByID(cat: Catalog, id: string, isUuid: string -> bool, now: int) returns (r: Result<Reply, AppError>)
    requires cat.Valid()
    modifies cat.ErrInvalidInput`Details
    ensures Realises(cat, r, TaskByIdOutcome(id, isUuid, now))
    ensures cat.ErrInvalidInput.Details == DetailsAfter(TaskByIdOutcome(id, isUuid, now), InvalidInput, old(cat.ErrInvalidInput.Details))
  {
    if id == "" {
      var e := cat.ErrInvalidInput.WithDetails(map["id" := IdRequired]);
      return Failure(e);
    }
    if !isUuid(id) {
      var e := cat.ErrInvalidInput.WithDetails(map["id" := IdNotUuid]);
      return Failure(e);
    }
    if id == "non-existent" {
      return Failure(cat.ErrTaskNotFound);
    }
    return Success(Success200("Task retrieved successfully", TaskData(LearnGo(id, now))));
  }

  // ---------------------------------------------------------------------
  // POST /tasks

  /** The task CreateTask builds from a request that passed validation. */
  function CreatedTask(req: CreateTaskRequest, freshId: string, now: int): TaskResponse {
    TaskResponse(freshId, req.title, req.description, if req.priority == "" then "medium" else req.priority,
                 false, Some(req.dueDate), now, now)
  }

  function CreateOutcome(body: Option<CreateTaskRequest>, freshId: string, now: int,
                         parsesTime: (string, string) -> bool): Outcome
  {
    match body
    case None => Failure(Fault(InvalidJSON, None))
    case Some(req) =>
      var vs := Violations(CreateTaskRules, req.Values(), parsesTime);
      if vs != [] then Failure(Fault(ValidationFailed, Some(DetailsOf(vs))))
      else Success(Reply(201, Envelope(SuccessResponse(true, "Task created successfully",
                                                        TaskData(CreatedTask(req, freshId, now))))))
  }

  method CreateTask(cat: Catalog, body: Option<CreateTaskRequest>, freshId: string, now: int,
                    parsesTime: (string, string) -> bool) returns (r: Result<Reply, AppError>)
    requires cat.Valid()
    modifies cat.ErrValidationFailed`Details
    ensures Realises(cat, r, CreateOutcome(body, freshId, now, parsesTime))
    ensures cat.ErrValidationFailed.Details == DetailsAfter(CreateOutcome(body, freshId, now, parsesTime), ValidationFailed, old(cat.ErrValidationFailed.Details))
  {
    if body.None? {
      return Failure(cat.ErrInvalidJSON);
    }
    var req := body.value;
    var err := ValidateStruct(cat, CreateTaskRules, req.Values(), parsesTime);
    if err.Some? {
      return Failure(err.value);
    }
    var task := TaskResponse(freshId, req.title, req.description, req.priority, false, Some(req.dueDate), now, now);
    if task.priority == "" {
      task := task.(priority := "medium");
    }
    return Success(Reply(201, Envelope(SuccessResponse(true, "Task created successfully", TaskData(task)))));
  }

  // ---------------------------------------------------------------------
  // DELETE /tasks/:id

  function DeleteOutcome(id: string, isUuid: string -> bool): Outcome {
    if id == "" then Failure(IdFault(IdRequired))
    else if !isUuid(id) then Failure(IdFault(IdNotUuid))
    else if id == "non-existent" then Failure(Fault(TaskNotFound, None))
    else Success(Success200("Task deleted successfully", Deleted(id)))
  }

  method DeleteTask(cat: Catalog, id: string, isUuid: string -> bool) returns (r: Result<Reply, AppError>)
    requires cat.Valid()
    modifies cat.ErrInvalidInput`Details
    ensures Realises(cat, r, DeleteOutcome(id, isUuid))
    ensures cat.ErrInvalidInput.Details == DetailsAfter(DeleteOutcome(id, isUuid), InvalidInput, old(cat.ErrInvalidInput.Details))
  {
    if id == "" {
      var e := cat.ErrInvalidInput.WithDetails(map["id" := IdRequired]);
      return Failure(e);
    }
    if !isUuid(id) {
      var e := cat.ErrInvalidInput.WithDetails(map["id" := IdNotUuid]);
      return Failure(e);
    }
    if id == "non-existent" {
      return Failure(cat.ErrTaskNotFound);
    }
    return Success(Success200("Task deleted successfully", Deleted(id)));
  }

  // ---------------------------------------------------------------------
  // GET /tasks/:id (GetTask)

  function IndividualTask(id: string, now: int): TaskResponse {
    TaskResponse(id, "Individual Task", "Retrieved by ID", "medium", false, None, now - 2 * Hour, now - Hour)
  }

  /** GetTask has no empty-id check and answers with the bare task. */
  function GetOutcome(id: string, isUuid: string -> bool, now: int): Outcome {
    if !isUuid(id) then Failure(IdFault(IdNotUuid))
    else if id == NilUuid then Failure(Fault(TaskNotFound, None))
    else Success(Reply(200, Bare(IndividualTask(id, now))))
  }

  method GetTask(cat: Catalog, id: string, isUuid: string -> bool, now: int) returns (r: Result<Reply, AppError>)
    requires cat.Valid()
    modifies cat.ErrInvalidInput`Details
    ensures Realises(cat, r, GetOutcome(id, isUuid, now))
    ensures cat.ErrInvalidInput.Details == DetailsAfter(GetOutcome(id, isUuid, now), InvalidInput, old(cat.ErrInvalidInput.Details))
  {
    if !isUuid(id) {
      var e := cat.ErrInvalidInput.WithDetails(map["id" := IdNotUuid]);
      return Failure(e);
    }
    if id == NilUuid {
      return Failure(cat.ErrTaskNotFound);
    }
    return Success(Reply(200, Bare(IndividualTask(id, now))));
  }

  // ---------------------------------------------------------------------
  // PUT /tasks/:id (the UpdateTask defined second)

  /** The updated task: each field the request sets replaces the mock
      default; due_date is not carried over. */
  function UpdatedTask(id: string, req: UpdateTaskRequest, now: int): TaskResponse {
    TaskResponse(id, req.title.GetOr("Updated Task"), req.description.GetOr("Task has been updated"),
                 req.priority.GetOr("high"), req.completed.GetOr(true), None, now - 24 * Hour, now)
  }

  function UpdateOutcome(id: string, body: Option<UpdateTaskRequest>, isUuid: string -> bool, now: int,
                         parsesTime: (string, string) -> bool): Outcome
  {
    if !isUuid(id) then Failure(IdFault(IdNotUuid))
    else match body
      case None => Failure(Fault(InvalidJSON, None))
      case Some(req) =>
        var vs := Violations(UpdateTaskRules, req.Values(), parsesTime);
        if vs != [] then Failure(Fault(ValidationFailed, Some(DetailsOf(vs))))
        else if req.IsEmpty() then Failure(Fault(InvalidInput, Some(map["update" := NothingToUpdate])))
        else if id == NilUuid then Failure(Fault(TaskNotFound, None))
        else Success(Success200("Task updated successfully", TaskData(UpdatedTask(id, req, now))))
  }

  method UpdateTask(cat: Catalog, id: string, body: Option<UpdateTaskRequest>, isUuid: string -> bool, now: int,
                    parsesTime: (string, string) -> bool) returns (r: Result<Reply, AppError>)
    requires cat.Valid()
    modifies cat.ErrInvalidInput`Details, cat.ErrValidationFailed`Details
    ensures Realises(cat, r, UpdateOutcome(id, body, isUuid, now, parsesTime))
    ensures cat.ErrInvalidInput.Details == DetailsAfter(UpdateOutcome(id, body, isUuid, now, parsesTime), InvalidInput, old(cat.ErrInvalidInput.Details))
    ensures cat.ErrValidationFailed.Details == DetailsAfter(UpdateOutcome(id, body, isUuid, now, parsesTime), ValidationFailed, old(cat.ErrValidationFailed.Details))
  {
    ghost var o := UpdateOutcome(id, body, isUuid, now, parsesTime);
    assert cat.Get(InvalidInput) != cat.Get(ValidationFailed);
    if !isUuid(id) {
      assert o == Failure(IdFault(IdNotUuid));
      var e := cat.ErrInvalidInput.WithDetails(map["id" := IdNotUuid]);
      return Failure(e);
    }
    if body.None? {
      assert o == Failure(Fault(InvalidJSON, None));
      return Failure(cat.ErrInvalidJSON);
    }
    var req := body.value;
    ghost var vs := Violations(UpdateTaskRules, req.Values(), parsesTime);
    var err := ValidateStruct(cat, UpdateTaskRules, req.Values(), parsesTime);
    if err.Some? {
      assert o == Failure(Fault(ValidationFailed, Some(DetailsOf(vs))));
      return Failure(err.value);
    }
    if req.title.None? && req.description.None? && req.priority.None? && req.dueDate.None? && req.completed.None? {
      assert o == Failure(Fault(InvalidInput, Some(map["update" := NothingToUpdate])));
      var e := cat.ErrInvalidInput.WithDetails(map["update" := NothingToUpdate]);
      return Failure(e);
    }
    if id == NilUuid {
      assert o == Failure(Fault(TaskNotFound, None));
      return Failure(cat.ErrTaskNotFound);
    }
    var task := TaskResponse(id, "Updated Task", "Task has been updated", "high", true, None, now - 24 * Hour, now);
    if req.title.Some? {
      task := task.(title := req.title.value);
    }
    if req.description.Some? {
      task := task.(description := req.description.value);
    }
    if req.priority.Some? {
      task := task.(priority := req.priority.value);
    }
    if req.completed.Some? {
      task := task.(completed := req.completed.value);
    }
    assert o == Success(Success200("Task updated successfully", TaskData(task)));
    return Success(Success200("Task updated successfully", TaskData(task)));
  }

  // ---------------------------------------------------------------------
  // Properties of the handlers

  /** An empty id is reported as missing before the UUID test is taken,
      whatever that test would say of "". */
  lemma EmptyIdCheckedFirst(isUuid: string -> bool, now: int)
    ensures TaskByIdOutcome("", isUuid, now) == Failure(IdFault(IdRequired))
    ensures DeleteOutcome("", isUuid) == Failure(IdFault(IdRequired))
  {
  }

  /** An id the UUID parser rejects gets 400 with the UUID message in every
      handler that takes an id; UpdateTask says so before it looks at the
      body, and GetTask, which has no empty-id check, says so for "" too. */
  lemma NonUuidRejected(id: string, isUuid: string -> bool, now: int, body: Option<UpdateTaskRequest>,
                        parsesTime: (string, string) -> bool)
    requires !isUuid(id)
    ensures id != "" ==> TaskByIdOutcome(id, isUuid, now) == Failure(IdFault(IdNotUuid))
    ensures id != "" ==> DeleteOutcome(id, isUuid) == Failure(IdFault(IdNotUuid))
    ensures GetOutcome(id, isUuid, now) == Failure(IdFault(IdNotUuid))
    ensures UpdateOutcome(id, body, isUuid, now, parsesTime) == Failure(IdFault(IdNotUuid))
  {
  }

  /** "non-existent" is no UUID, so the not-found branch of GetTaskByID and
      DeleteTask can never be taken: both fail only with 400. */
  lemma NotFoundUnreachable(id: string, isUuid: string -> bool, now: int)
    requires !isUuid("non-existent")
    ensures TaskByIdOutcome(id, isUuid, now).Failure? ==> KindCode(TaskByIdOutcome(id, isUuid, now).error.kind) == 400
    ensures DeleteOutcome(id, isUuid).Failure? ==> KindCode(DeleteOutcome(id, isUuid).error.kind) == 400
  {
  }

  /** GetTaskByID and DeleteTask succeed exactly for a non-empty UUID, echo
      it in the task and as deleted_id, and never send a due_date. */
  lemma IdHandlersEcho(id: string, isUuid: string -> bool, now: int)
    requires !isUuid("non-existent")
    ensures TaskByIdOutcome(id, isUuid, now).Success? <==> id != "" && isUuid(id)
    ensures DeleteOutcome(id, isUuid).Success? <==> id != "" && isUuid(id)
    ensures TaskByIdOutcome(id, isUuid, now).Success? ==>
              var t := TaskByIdOutcome(id, isUuid, now).value.body.response.data.task;
              t.id == id && "due_date" !in t.JsonKeys()
    ensures DeleteOutcome(id, isUuid).Success? ==>
              DeleteOutcome(id, isUuid).value.body.response.data == Deleted(id)
  {
  }

  /** GetTask succeeds exactly for a UUID other than the nil UUID, which is
      the one id it reports as not found. */
  lemma GetTaskIff(id: string, isUuid: string -> bool, now: int)
    ensures GetOutcome(id, isUuid, now).Success? <==> isUuid(id) && id != NilUuid
    ensures isUuid(NilUuid) ==> GetOutcome(NilUuid, isUuid, now) == Failure(Fault(TaskNotFound, None))
    ensures GetOutcome(id, isUuid, now).Success? ==>
              GetOutcome(id, isUuid, now).value.body.task.id == id
              && "due_date" !in GetOutcome(id, isUuid, now).value.body.task.JsonKeys()
  {
  }

  // ---------------------------------------------------------------------
  // Creating

  /** The rules of CreateTaskRequest, stated field by field. */
  predicate CreateAccepts(req: CreateTaskRequest, parsesTime: (string, string) -> bool) {
    && 1 <= |req.title| <= 100
    && |req.description| <= 500
    && (req.priority == "" || req.priority in Priorities)
    && (req.dueDate == "" || parsesTime(GoRFC3339, req.dueDate))
  }

  /** A parsed request is accepted exactly when it keeps the rules. */
  lemma CreateValidIff(req: CreateTaskRequest, parsesTime: (string, string) -> bool)
    ensures Violations(CreateTaskRules, req.Values(), parsesTime) == [] <==> CreateAccepts(req, parsesTime)
  {
    CreateReports(req, parsesTime);
    ViolationsEmpty(CreateTaskRules, req.Values(), parsesTime);
    if CreateAccepts(req, parsesTime) {
      forall j | 0 <= j < |CreateTaskRules|
        ensures Reported(CreateTaskRules, req.Values(), parsesTime, j).None?
      {
      }
    }
  }

  /** A body that does not parse is ErrInvalidJSON as it stands, and a
      request that breaks a rule is ErrValidationFailed: no task is built. */
  lemma CreateRejects(body: Option<CreateTaskRequest>, freshId: string, now: int, parsesTime: (string, string) -> bool)
    ensures body.None? ==> CreateOutcome(body, freshId, now, parsesTime) == Failure(Fault(InvalidJSON, None))
    ensures body.Some? ==>
              (CreateOutcome(body, freshId, now, parsesTime).Success? <==> CreateAccepts(body.value, parsesTime))
    ensures body.Some? && !CreateAccepts(body.value, parsesTime) ==>
              CreateOutcome(body, freshId, now, parsesTime).error.kind == ValidationFailed
  {
    if body.Some? {
      CreateValidIff(body.value, parsesTime);
    }
  }

  /** A created task: status 201, the fresh id, title and description as
      sent, never completed, priority "medium" when none was sent, and
      due_date always present, even when the request's is "". */
  lemma CreateSuccess(req: CreateTaskRequest, freshId: string, now: int, parsesTime: (string, string) -> bool)
    requires CreateAccepts(req, parsesTime)
    ensures var o := CreateOutcome(Some(req), freshId, now, parsesTime);
      && o.Success? && o.value.status == 201 && o.value.body.Envelope?
      && o.value.body.response.success && o.value.body.response.data.TaskData?
      && var t := o.value.body.response.data.task;
      && t.id == freshId && t.title == req.title && t.description == req.description && !t.completed
      && 1 <= |t.title| <= 100
      && t.priority in Priorities
      && (req.priority == "" ==> t.priority == "medium")
      && (req.priority != "" ==> t.priority == req.priority)
      && t.dueDate == Some(req.dueDate) && "due_date" in t.JsonKeys()
  {
    CreateValidIff(req, parsesTime);
  }

  /** A request with only a title creates a task with priority "medium",
      not completed, and an empty due_date that is still sent. */
  lemma CreateTitleOnly(freshId: string, now: int, parsesTime: (string, string) -> bool)
    ensures var o := CreateOutcome(Some(CreateTaskRequest("Write spec", "", "", "")), freshId, now, parsesTime);
      && o.Success? && o.value.status == 201
      && o.value.body.response.data.task
         == TaskResponse(freshId, "Write spec", "", "medium", false, Some(""), now, now)
  {
    CreateSuccess(CreateTaskRequest("Write spec", "", "", ""), freshId, now, parsesTime);
  }

  /** The details map ValidateStruct builds for a create request. */
  function CreateDetailsMap(req: CreateTaskRequest, parsesTime: (string, string) -> bool): map<string, string> {
    DetailsOf(Violations(CreateTaskRules, req.Values(), parsesTime))
  }

  /** Field j's entry in it, and no key beyond the four fields' keys. */
  lemma CreateDetailsAt(req: CreateTaskRequest, parsesTime: (string, string) -> bool, j: nat)
    requires j < 4
    ensures var d := CreateDetailsMap(req, parsesTime);
      && (forall key :: key in d ==> key in TaskKeys[..4])
      && (TaskKeys[j] in d <==> Reported(CreateTaskRules, req.Values(), parsesTime, j).Some?)
      && (Reported(CreateTaskRules, req.Values(), parsesTime, j).Some? ==>
            d[TaskKeys[j]] == Message(Reported(CreateTaskRules, req.Values(), parsesTime, j).value))
  {
    TableKeys();
    DetailsOfViolations(CreateTaskRules, req.Values(), parsesTime);
  }

  /** The details of a rejected creation: one entry per broken field, under
      the lower-cased Go field name ("duedate", never "due_date"), holding
      the message of the first rule that field breaks. */
  lemma CreateDetails(req: CreateTaskRequest, freshId: string, now: int, parsesTime: (string, string) -> bool)
    requires !CreateAccepts(req, parsesTime)
    ensures CreateOutcome(Some(req), freshId, now, parsesTime)
         == Failure(Fault(ValidationFailed, Some(CreateDetailsMap(req, parsesTime))))
    ensures var d := CreateDetailsMap(req, parsesTime);
      && |d| > 0
      && (forall key :: key in d ==> key in TaskKeys[..4])
      && ("title" in d <==> req.title == "" || |req.title| > 100)
      && (req.title == "" ==> d["title"] == Message(Required))
      && (|req.title| > 100 ==> d["title"] == Message(Max(100)))
      && ("description" in d <==> |req.description| > 500)
      && ("description" in d ==> d["description"] == Message(Max(500)))
      && ("priority" in d <==> req.priority != "" && req.priority !in Priorities)
      && ("priority" in d ==> d["priority"] == Message(OneOf(Priorities)))
      && ("duedate" in d <==> req.dueDate != "" && !parsesTime(GoRFC3339, req.dueDate))
      && ("duedate" in d ==> d["duedate"] == Message(DateTime(GoRFC3339)))
  {
    CreateValidIff(req, parsesTime);
    CreateReports(req, parsesTime);
    CreateDetailsAt(req, parsesTime, 0);
    CreateDetailsAt(req, parsesTime, 1);
    CreateDetailsAt(req, parsesTime, 2);
    CreateDetailsAt(req, parsesTime, 3);
    var d := CreateDetailsMap(req, parsesTime);
    if req.title == "" || |req.title| > 100 {
      assert "title" in d;
    } else if |req.description| > 500 {
      assert "description" in d;
    } else if req.priority != "" && req.priority !in Priorities {
      assert "priority" in d;
    } else {
      assert "duedate" in d;
    }
  }

  /** A request with no title is answered with exactly one complaint when
      the other fields keep their rules. */
  lemma CreateMissingTitle(req: CreateTaskRequest, freshId: string, now: int, parsesTime: (string, string) -> bool)
    requires req.title == "" && |req.description| <= 500
    requires req.priority == "" || req.priority in Priorities
    requires req.dueDate == "" || parsesTime(GoRFC3339, req.dueDate)
    ensures CreateOutcome(Some(req), freshId, now, parsesTime)
         == Failure(Fault(ValidationFailed, Some(map["title" := "This field is required"])))
  {
    CreateDetails(req, freshId, now, parsesTime);
    var d := CreateDetailsMap(req, parsesTime);
    assert TaskKeys[..4] == ["title", "description", "priority", "duedate"];
    forall key | key in d
      ensures key == "title"
    {
    }
    assert d["title"] == Message(Required) == "This field is required";
    assert d == map["title" := "This field is required"];
  }

  // ---------------------------------------------------------------------
  // Updating

  /** The rules of UpdateTaskRequest: each field is checked only when sent. */
  predicate UpdateAccepts(req: UpdateTaskRequest, parsesTime: (string, string) -> bool) {
    && (req.title.Some? ==> 1 <= |req.title.value| <= 100)
    && (req.description.Some? ==> |req.description.value| <= 500)
    && (req.priority.Some? ==> req.priority.value in Priorities)
    && (req.dueDate.Some? ==> parsesTime(GoRFC3339, req.dueDate.value))
  }

  lemma UpdateValidIff(req: UpdateTaskRequest, parsesTime: (string, string) -> bool)
    ensures Violations(UpdateTaskRules, req.Values(), parsesTime) == [] <==> UpdateAccepts(req, parsesTime)
  {
    UpdateReports(req, parsesTime);
    ViolationsEmpty(UpdateTaskRules, req.Values(), parsesTime);
    if UpdateAccepts(req, parsesTime) {
      forall j | 0 <= j < |UpdateTaskRules|
        ensures Reported(UpdateTaskRules, req.Values(), parsesTime, j).None?
      {
      }
    }
  }

  /** The details map ValidateStruct builds for an update request. */
  function UpdateDetailsMap(req: UpdateTaskRequest, parsesTime: (string, string) -> bool): map<string, string> {
    DetailsOf(Violations(UpdateTaskRules, req.Values(), parsesTime))
  }

  /** Field j's entry in it, and no key beyond the five fields' keys. */
  lemma UpdateDetailsAt(req: UpdateTaskRequest, parsesTime: (string, string) -> bool, j: nat)
    requires j < 5
    ensures var d := UpdateDetailsMap(req, parsesTime);
      && (forall key :: key in d ==> key in TaskKeys)
      && (TaskKeys[j] in d <==> Reported(UpdateTaskRules, req.Values(), parsesTime, j).Some?)
      && (Reported(UpdateTaskRules, req.Values(), parsesTime, j).Some? ==>
            d[TaskKeys[j]] == Message(Reported(UpdateTaskRules, req.Values(), parsesTime, j).value))
  {
    TableKeys();
    DetailsOfViolations(UpdateTaskRules, req.Values(), parsesTime);
  }

  /** The details of an update the rules reject: one entry per broken field
      that was sent, a title sent as "" included, holding the message of the
      first rule it breaks; completed never has an entry. */
  lemma UpdateDetails(id: string, req: UpdateTaskRequest, isUuid: string -> bool, now: int,
                      parsesTime: (string, string) -> bool)
    requires isUuid(id) && !UpdateAccepts(req, parsesTime)
    ensures UpdateOutcome(id, Some(req), isUuid, now, parsesTime)
         == Failure(Fault(ValidationFailed, Some(UpdateDetailsMap(req, parsesTime))))
    ensures var d := UpdateDetailsMap(req, parsesTime);
      && |d| > 0 && "completed" !in d
      && (forall key :: key in d ==> key in TaskKeys)
      && ("title" in d <==> req.title.Some? && (req.title.value == "" || |req.title.value| > 100))
      && (req.title == Some("") ==> d["title"] == Message(Min(1)))
      && (req.title.Some? && |req.title.value| > 100 ==> d["title"] == Message(Max(100)))
      && ("description" in d <==> req.description.Some? && |req.description.value| > 500)
      && ("description" in d ==> d["description"] == Message(Max(500)))
      && ("priority" in d <==> req.priority.Some? && req.priority.value !in Priorities)
      && ("priority" in d ==> d["priority"] == Message(OneOf(Priorities)))
      && ("duedate" in d <==> req.dueDate.Some? && !parsesTime(GoRFC3339, req.dueDate.value))
      && ("duedate" in d ==> d["duedate"] == Message(DateTime(GoRFC3339)))
  {
    UpdateValidIff(req, parsesTime);
    UpdateReports(req, parsesTime);
    UpdateDetailsAt(req, parsesTime, 0);
    UpdateDetailsAt(req, parsesTime, 1);
    UpdateDetailsAt(req, parsesTime, 2);
    UpdateDetailsAt(req, parsesTime, 3);
    UpdateDetailsAt(req, parsesTime, 4);
    var d := UpdateDetailsMap(req, parsesTime);
    if req.title.Some? && (req.title.value == "" || |req.title.value| > 100) {
      assert "title" in d;
    } else if req.description.Some? && |req.description.value| > 500 {
      assert "description" in d;
    } else if req.priority.Some? && req.priority.value !in Priorities {
      assert "priority" in d;
    } else {
      assert "duedate" in d;
    }
  }

  /** UpdateTask takes its checks in this order and stops at the first that
      fails: the UUID, the body, the rules, at least one field sent, and
      last the nil UUID, which it reports as not found. */
  lemma UpdateCheckOrder(id: string, body: Option<UpdateTaskRequest>, isUuid: string -> bool, now: int,
                         parsesTime: (string, string) -> bool)
    ensures var o := UpdateOutcome(id, body, isUuid, now, parsesTime);
      && (!isUuid(id) ==> o == Failure(IdFault(IdNotUuid)))
      && (isUuid(id) && body.None? ==> o == Failure(Fault(InvalidJSON, None)))
      && (isUuid(id) && body.Some? && !UpdateAccepts(body.value, parsesTime) ==>
            o.Failure? && o.error.kind == ValidationFailed)
      && (isUuid(id) && body.Some? && UpdateAccepts(body.value, parsesTime) && body.value.IsEmpty() ==>
            o == Failure(Fault(InvalidInput, Some(map["update" := NothingToUpdate]))))
      && (isUuid(id) && body.Some? && UpdateAccepts(body.value, parsesTime) && !body.value.IsEmpty() && id == NilUuid ==>
            o == Failure(Fault(TaskNotFound, None)))
      && (o.Success? <==>
            isUuid(id) && body.Some? && UpdateAccepts(body.value, parsesTime) && !body.value.IsEmpty() && id != NilUuid)
  {
    if body.Some? {
      UpdateValidIff(body.value, parsesTime);
    }
  }

  /** An empty body `{}` keeps every rule, so it is refused for sending no
      field, even for the nil UUID, which would otherwise be not found. */
  lemma UpdateEmptyBody(id: string, isUuid: string -> bool, now: int, parsesTime: (string, string) -> bool)
    requires isUuid(id)
    ensures UpdateOutcome(id, Some(UpdateTaskRequest(None, None, None, None, None)), isUuid, now, parsesTime)
         == Failure(Fault(InvalidInput, Some(map["update" := NothingToUpdate])))
  {
    UpdateValidIff(UpdateTaskRequest(None, None, None, None, None), parsesTime);
  }

  /** An updated task: the path id, each field the request sent in place of
      the mock default, the defaults for the rest, and no due_date even when
      one was sent. The result again keeps the update rules. */
  lemma UpdateSuccess(id: string, req: UpdateTaskRequest, isUuid: string -> bool, now: int,
                      parsesTime: (string, string) -> bool)
    requires UpdateOutcome(id, Some(req), isUuid, now, parsesTime).Success?
    ensures var reply := UpdateOutcome(id, Some(req), isUuid, now, parsesTime).value;
      reply.status == 200 && reply.body.Envelope? && reply.body.response.data.TaskData?
    ensures var t := UpdateOutcome(id, Some(req), isUuid, now, parsesTime).value.body.response.data.task;
      && t.id == id && id != NilUuid
      && t.title == (if req.title.Some? then req.title.value else "Updated Task")
      && t.description == (if req.description.Some? then req.description.value else "Task has been updated")
      && t.priority == (if req.priority.Some? then req.priority.value else "high")
      && t.completed == (if req.completed.Some? then req.completed.value else true)
      && t.dueDate.None? && "due_date" !in t.JsonKeys()
      && 1 <= |t.title| <= 100 && |t.description| <= 500 && t.priority in Priorities
  {
    UpdateValidIff(req, parsesTime);
  }

  // ---------------------------------------------------------------------
  // The shared error objects

  /** Two requests in a row that fail with ErrInvalidInput get the very same
      object back, whatever their ids; once the second has run, that object
      holds only the details the second request installed, so whoever still
      holds the first result sees them too. */
  method SharedDetailsOverwritten(cat: Catalog, firstId: string, secondId: string, isUuid: string -> bool, now: int)
    returns (first: Result<Reply, AppError>, second: Result<Reply, AppError>)
    requires cat.Valid()
    requires TaskByIdOutcome(firstId, isUuid, now).Failure? && TaskByIdOutcome(firstId, isUuid, now).error.kind == InvalidInput
    requires DeleteOutcome(secondId, isUuid).Failure? && DeleteOutcome(secondId, isUuid).error.kind == InvalidInput
    modifies cat.ErrInvalidInput`Details
    ensures first.Failure? && second.Failure? && first.error == second.error == cat.ErrInvalidInput
    ensures first.error.Details == DeleteOutcome(secondId, isUuid).error.details.value
    ensures first.error.Details == map["id" := if secondId == "" then IdRequired else IdNotUuid]
  {
    first := GetTaskByID(cat, firstId, isUuid, now);
    second := DeleteTask(cat, secondId, isUuid);
  }
}
