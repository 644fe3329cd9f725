/** `/api/tasks` (src/app/api/tasks/route.ts).

    GET builds its statement in place: each optional filter that is present appends
    ` AND t.<column> = $<paramIndex>`, pushes its value and advances `paramIndex`; the
    statement ends with `LIMIT $<paramIndex>` and the parsed limit as last parameter.
    POST checks the title, fills JavaScript-falsy fields with their defaults and inserts
    the task. */
module TasksApi {
  import opened Js
  import opened Http
  import opened Sql
  import opened Database

  /** The statement before any filter (the JOINs with projects and users, `WHERE 1=1`). */
  const TaskSelect := "SELECT t.*, p.name as project_name, u.full_name as assignee_name, " +
                      "u.avatar_url as assignee_avatar FROM tasks t " +
                      "LEFT JOIN projects p ON t.project_id = p.id " +
                      "LEFT JOIN users u ON t.assignee_id = u.id WHERE 1=1"
  const ByProject := " AND t.project_id = "
  const ByStatus := " AND t.status = "
  const ByAssignee := " AND t.assignee_id = "
  const NewestFirst := " ORDER BY t.created_at DESC LIMIT "

  /** The query-string parameters `project_id`, `status`, `assignee_id`, `limit`. */
  datatype TaskFilters = TaskFilters(projectId: Option<string>, status: Option<string>,
                                     assigneeId: Option<string>, limit: Option<string>)

  /** The statement GET means to run, with each value written where it belongs: the present
      filters in the order project, status, assignee, then the ordering and the limit. */
  function IntendedTaskQuery(f: TaskFilters): seq<Bound> {
    [Code(TaskSelect)] + Condition(ByProject, f.projectId) + Condition(ByStatus, f.status) +
    Condition(ByAssignee, f.assigneeId) + [Code(NewestFirst), Inline(LimitParam(f.limit))]
  }

  /** The number of filters that are present. */
  function FilterCount(f: TaskFilters): nat {
    (if Truthy(f.projectId) then 1 else 0) + (if Truthy(f.status) then 1 else 0) +
    (if Truthy(f.assigneeId) then 1 else 0)
  }

  /** One optional filter of the builder: when the value is present, append
      `text $paramIndex`, push the value and advance the index. */
  method FilterStep(sql: seq<Piece>, params: seq<Value>, paramIndex: nat, ghost want: seq<Bound>,
                    text: string, v: Option<string>)
    returns (sql': seq<Piece>, params': seq<Value>, paramIndex': nat)
    requires paramIndex == |params| + 1 && Builds(sql, params, want)
    ensures paramIndex' == |params'| + 1 && Builds(sql', params', want + Condition(text, v))
    ensures |params'| == |params| + (if Truthy(v) then 1 else 0)
  {
    sql', params', paramIndex' := sql, params, paramIndex;
    if Truthy(v) {
      PushFilter(sql, params, want, text, Str(v.value));
      sql' := sql + [Lit(text), Placeholder(paramIndex)];
      params' := params + [Str(v.value)];
      paramIndex' := paramIndex + 1;
    } else {
      assert want + Condition(text, v) == want;
    }
  }

  /** The GET handler's statement and parameters. */
  method BuildTaskQuery(f: TaskFilters) returns (q: Query)
    ensures WellNumbered(q)
    ensures Bind(q) == IntendedTaskQuery(f)
    ensures |q.params| == FilterCount(f) + 1
    ensures q.sql[|q.sql| - 1] == Placeholder(FilterCount(f) + 1)
    ensures q.params[|q.params| - 1] == LimitParam(f.limit)
  {
    var sql := [Lit(TaskSelect)];
    var params: seq<Value> := [];
    var paramIndex := 1;
    ghost var want := [Code(TaskSelect)];
    StartBuild(TaskSelect);

    sql, params, paramIndex := FilterStep(sql, params, paramIndex, want, ByProject, f.projectId);
    want := want + Condition(ByProject, f.projectId);
    sql, params, paramIndex := FilterStep(sql, params, paramIndex, want, ByStatus, f.status);
    want := want + Condition(ByStatus, f.status);
    sql, params, paramIndex := FilterStep(sql, params, paramIndex, want, ByAssignee, f.assigneeId);
    want := want + Condition(ByAssignee, f.assigneeId);

    PushFilter(sql, params, want, NewestFirst, LimitParam(f.limit));
    sql := sql + [Lit(NewestFirst), Placeholder(paramIndex)];
    params := params + [LimitParam(f.limit)];
    want := want + [Code(NewestFirst), Inline(LimitParam(f.limit))];
    q := Query(sql, params);
  }

  /** The parsed JSON body of POST. */
  datatype TaskBody = TaskBody(title: Option<string>, description: Option<string>,
                               projectId: Option<int>, assigneeId: Option<int>,
                               status: Option<string>, priority: Option<string>,
                               dueDate: Option<Date>)

  const TitleRequired := "Task title is required"
  const CreateFailed := "Failed to create task"

  /** The defaults POST applies: a falsy field becomes NULL, 'pending' or 'medium'. */
  predicate TaskDefaults(b: TaskBody, row: TaskRow) {
    b.title == Some(row.title) &&
    (Truthy(b.description) ==> row.description == b.description) &&
    (!Truthy(b.description) ==> row.description.None?) &&
    (TruthyInt(b.projectId) ==> row.projectId == b.projectId) &&
    (!TruthyInt(b.projectId) ==> row.projectId.None?) &&
    (TruthyInt(b.assigneeId) ==> row.assigneeId == b.assigneeId) &&
    (!TruthyInt(b.assigneeId) ==> row.assigneeId.None?) &&
    (Truthy(b.status) ==> row.status == b.status.value) &&
    (!Truthy(b.status) ==> row.status == "pending") &&
    (Truthy(b.priority) ==> row.priority == b.priority.value) &&
    (!Truthy(b.priority) ==> row.priority == "medium") &&
    row.dueDate == b.dueDate
  }

  /** POST's response and the database after it, from the database before it. */
  function CreateTaskSpec(s: Snapshot, body: Option<TaskBody>, now: Date): (r: (Response<TaskRow>, Snapshot))
    ensures r.0.status in {201, 400, 500} && r.0.cookie.None?
    ensures r.0.status == 400 <==> body.Some? && !Truthy(body.value.title)
    ensures r.0.status == 400 ==> r.0 == Error(400, TitleRequired)
    ensures r.0.status == 500 <==> body.None? || (Truthy(body.value.title) && !s.up)
    ensures r.0.status == 500 ==> r.0 == Error(500, CreateFailed)
    ensures r.0.status != 201 ==> r.1 == s
    ensures r.0.status == 201 ==>
              r.0.body.Success? && r.0.body.data.id == s.nextTaskId &&
              TaskDefaults(body.value, r.0.body.data) &&
              r.1 == s.(tasks := s.tasks + [r.0.body.data], nextTaskId := s.nextTaskId + 1)
  {
    match body
    case None => (Error(500, CreateFailed), s)
    case Some(b) =>
      if !Truthy(b.title) then (Error(400, TitleRequired), s)
      else if !s.up then (Error(500, CreateFailed), s)
      else
        var row := TaskRow(s.nextTaskId, b.title.value, OrNull(b.description), OrNullInt(b.projectId),
                           OrNullInt(b.assigneeId), Or(b.status, "pending"), Or(b.priority, "medium"),
                           b.dueDate, now, now);
        (Ok(201, row), s.(tasks := s.tasks + [row], nextTaskId := s.nextTaskId + 1))
  }

  /** The POST handler itself, on a live database. */
  method CreateTask(db: Db, body: Option<TaskBody>, now: Date) returns (r: Response<TaskRow>)
    requires db.Valid()
    modifies db
    ensures db.Valid()
    ensures (r, db.Contents()) == CreateTaskSpec(old(db.Contents()), body, now)
  {
    if body.None? {
      return Error(500, CreateFailed);
    }
    var b := body.value;
    if !Truthy(b.title) {
      return Error(400, TitleRequired);
    }
    if !db.up {
      return Error(500, CreateFailed);
    }
    var row := db.InsertTask(b.title.value, OrNull(b.description), OrNullInt(b.projectId),
                             OrNullInt(b.assigneeId), Or(b.status, "pending"), Or(b.priority, "medium"),
                             b.dueDate, now);
    r := Ok(201, row);
  }
}
