/** The request and response shapes (package internal/dto), and the
    `validate` struct tags of the two request types written out as an
    explicit rule table: one entry per struct field, in declaration order,
    each with its rules in the order the tag lists them. */
module Dto {
  import opened Wrappers

  /** One rule of a `validate` tag. */
  datatype Rule =
    | OmitEmpty
    | Required
    | Min(bound: nat)
    | Max(bound: nat)
    | OneOf(options: seq<string>)
    | DateTime(layout: string)

  /** A struct field's Go name and its rules. */
  datatype FieldRules = FieldRules(name: string, rules: seq<Rule>)

  /** Go's RFC 3339 layout (date-time of section 5.6 of RFC 3339). */
  const GoRFC3339: string := "2006-01-02T15:04:05Z07:00"

  const Priorities: seq<string> := ["low", "medium", "high"]

  /** The tags of CreateTaskRequest. */
  const CreateTaskRules: seq<FieldRules> := [
    FieldRules("Title", [Required, Min(1), Max(100)]),
    FieldRules("Description", [Max(500)]),
    FieldRules("Priority", [OmitEmpty, OneOf(Priorities)]),
    FieldRules("DueDate", [OmitEmpty, DateTime(GoRFC3339)])
  ]

  /** The tags of UpdateTaskRequest; Completed has no tag at all. */
  const UpdateTaskRules: seq<FieldRules> := [
    FieldRules("Title", [OmitEmpty, Min(1), Max(100)]),
    FieldRules("Description", [OmitEmpty, Max(500)]),
    FieldRules("Priority", [OmitEmpty, OneOf(Priorities)]),
    FieldRules("DueDate", [OmitEmpty, DateTime(GoRFC3339)]),
    FieldRules("Completed", [])
  ]

  /** The value of one struct field: a plain string, or a pointer that may be nil. */
  datatype FieldValue =
    | Str(s: string)
    | StrPtr(p: Option<string>)
    | BoolPtr(b: Option<bool>)

  datatype CreateTaskRequest = CreateTaskRequest(title: string, description: string, priority: string, dueDate: string)
  {
    /** The field values, in the order of CreateTaskRules. */
    function Values(): (vs: seq<FieldValue>)
      ensures |vs| == |CreateTaskRules|
    {
      [Str(title), Str(description), Str(priority), Str(dueDate)]
    }
  }

  /** An absent JSON key leaves its pointer nil. */
  datatype UpdateTaskRequest = UpdateTaskRequest(
    title: Option<string>,
    description: Option<string>,
    priority: Option<string>,
    dueDate: Option<string>,
    completed: Option<bool>)
  {
    /** The field values, in the order of UpdateTaskRules. */
    function Values(): (vs: seq<FieldValue>)
      ensures |vs| == |UpdateTaskRules|
    {
      [StrPtr(title), StrPtr(description), StrPtr(priority), StrPtr(dueDate), BoolPtr(completed)]
    }

    /** True when the body sets no field at all. */
    predicate IsEmpty() {
      title.None? && description.None? && priority.None? && dueDate.None? && completed.None?
    }
  }

  /** A task as the API returns it. Timestamps are instants in nanoseconds. */
  datatype TaskResponse = TaskResponse(
    id: string,
    title: string,
    description: string,
    priority: string,
    completed: bool,
    dueDate: Option<string>,
    createdAt: int,
    updatedAt: int)
  {
    /** The keys `encoding/json` writes: due_date is `omitempty` on a pointer,
        so only a nil pointer drops it, whatever string it points to. */
    function JsonKeys(): (keys: set<string>)
      ensures "due_date" in keys <==> dueDate.Some?
      ensures {"id", "title", "description", "priority", "completed", "created_at", "updated_at"} <= keys
    {
      {"id", "title", "description", "priority", "completed", "created_at", "updated_at"}
        + (if dueDate.Some? then {"due_date"} else {})
    }
  }

  datatype TaskListResponse = TaskListResponse(tasks: seq<TaskResponse>, total: int, page: int, limit: int)

  /** The error body every error response carries. */
  datatype ErrorResponse = ErrorResponse(error: string, message: string, code: int, details: map<string, string>)
  {
    /** details is `omitempty` on a map: dropped exactly when it has no entry. */
    function JsonKeys(): (keys: set<string>)
      ensures "details" in keys <==> |details| > 0
      ensures {"error", "message", "code"} <= keys
    {
      {"error", "message", "code"} + (if |details| > 0 then {"details"} else {})
    }
  }

  /** What a SuccessResponse carries under "data". */
  datatype Data = TaskData(task: TaskResponse) | Deleted(deletedId: string)

  datatype SuccessResponse = SuccessResponse(success: bool, message: string, data: Data)
}
