/** `/api/projects` (src/app/api/projects/route.ts).

    GET appends ` WHERE p.status = $1` when a status is given, and then
    `LIMIT $<params.length + 1>` with the parsed limit as last parameter. POST checks the
    name, fills falsy fields with their defaults and inserts the project. */
module ProjectsApi {
  import opened Js
  import opened Http
  import opened Sql
  import opened Database

  /** The statement before the filter (the JOINs with users, members and tasks). */
  const ProjectSelect := "SELECT p.*, u.full_name as created_by_name, " +
                         "COUNT(DISTINCT pm.user_id) as member_count, COUNT(DISTINCT t.id) as task_count " +
                         "FROM projects p LEFT JOIN users u ON p.created_by = u.id " +
                         "LEFT JOIN project_members pm ON p.id = pm.project_id " +
                         "LEFT JOIN tasks t ON p.id = t.project_id"
  const ByStatus := " WHERE p.status = "
  const GroupNewestFirst := " GROUP BY p.id, u.full_name ORDER BY p.created_at DESC LIMIT "

  /** The statement GET means to run, with the values written where they belong. */
  function IntendedProjectQuery(status: Option<string>, limit: Option<string>): seq<Bound> {
    [Code(ProjectSelect)] + Condition(ByStatus, status) + [Code(GroupNewestFirst), Inline(LimitParam(limit))]
  }

  /** The GET handler's statement and parameters. The status placeholder is written as the
      literal `$1`, which is right because it is always the first parameter. */
  method BuildProjectQuery(status: Option<string>, limit: Option<string>) returns (q: Query)
    ensures WellNumbered(q)
    ensures Bind(q) == IntendedProjectQuery(status, limit)
    ensures q.params == (if Truthy(status) then [Str(status.value)] else []) + [LimitParam(limit)]
    ensures q.sql[|q.sql| - 1] == Placeholder(|q.params|)
  {
    var sql := [Lit(ProjectSelect)];
    var params: seq<Value> := [];
    ghost var want := [Code(ProjectSelect)];
    StartBuild(ProjectSelect);

    if Truthy(status) {
      PushFilter(sql, params, want, ByStatus, Str(status.value));
      sql := sql + [Lit(ByStatus), Placeholder(1)];
      params := params + [Str(status.value)];
    }
    want := want + Condition(ByStatus, status);
    assert Builds(sql, params, want);

    PushFilter(sql, params, want, GroupNewestFirst, LimitParam(limit));
    sql := sql + [Lit(GroupNewestFirst), Placeholder(|params| + 1)];
    params := params + [LimitParam(limit)];
    want := want + [Code(GroupNewestFirst), Inline(LimitParam(limit))];
    q := Query(sql, params);
  }

  /** The parsed JSON body of POST. */
  datatype ProjectBody = ProjectBody(name: Option<string>, client: Option<string>,
                                     description: Option<string>, status: Option<string>,
                                     dueDate: Option<Date>, createdBy: Option<int>)

  const NameRequired := "Project name is required"
  const CreateFailed := "Failed to create project"

  /** The defaults POST applies: a falsy client or description becomes NULL, a falsy status
      'planning', a falsy creator user 1; progress takes its column default 0. */
  predicate ProjectDefaults(b: ProjectBody, row: ProjectRow) {
    b.name == Some(row.name) &&
    (Truthy(b.client) ==> row.client == b.client) && (!Truthy(b.client) ==> row.client.None?) &&
    (Truthy(b.description) ==> row.description == b.description) &&
    (!Truthy(b.description) ==> row.description.None?) &&
    (Truthy(b.status) ==> row.status == b.status.value) && (!Truthy(b.status) ==> row.status == "planning") &&
    row.dueDate == b.dueDate &&
    (TruthyInt(b.createdBy) ==> row.createdBy == b.createdBy) &&
    (!TruthyInt(b.createdBy) ==> row.createdBy == Some(1)) &&
    row.progress == 0
  }

  /** POST's response and the database after it, from the database before it. */
  function CreateProjectSpec(s: Snapshot, body: Option<ProjectBody>, now: Date)
    : (r: (Response<ProjectRow>, Snapshot))
    ensures r.0.status in {201, 400, 500} && r.0.cookie.None?
    ensures r.0.status == 400 <==> body.Some? && !Truthy(body.value.name)
    ensures r.0.status == 400 ==> r.0 == Error(400, NameRequired)
    ensures r.0.status == 500 <==> body.None? || (Truthy(body.value.name) && !s.up)
    ensures r.0.status == 500 ==> r.0 == Error(500, CreateFailed)
    ensures r.0.status != 201 ==> r.1 == s
    ensures r.0.status == 201 ==>
              r.0.body.Success? && r.0.body.data.id == s.nextProjectId &&
              ProjectDefaults(body.value, r.0.body.data) &&
              r.1 == s.(projects := s.projects + [r.0.body.data], nextProjectId := s.nextProjectId + 1)
  {
    match body
    case None => (Error(500, CreateFailed), s)
    case Some(b) =>
      if !Truthy(b.name) then (Error(400, NameRequired), s)
      else if !s.up then (Error(500, CreateFailed), s)
      else
        var row := ProjectRow(s.nextProjectId, b.name.value, OrNull(b.client), OrNull(b.description), 0,
                              Or(b.status, "planning"), b.dueDate, Some(OrInt(b.createdBy, 1)), now, now);
        (Ok(201, row), s.(projects := s.projects + [row], nextProjectId := s.nextProjectId + 1))
  }

  /** The POST handler itself, on a live database. */
  method CreateProject(db: Db, body: Option<ProjectBody>, now: Date) returns (r: Response<ProjectRow>)
    requires db.Valid()
    modifies db
    ensures db.Valid()
    ensures (r, db.Contents()) == CreateProjectSpec(old(db.Contents()), body, now)
  {
    if body.None? {
      return Error(500, CreateFailed);
    }
    var b := body.value;
    if !Truthy(b.name) {
      return Error(400, NameRequired);
    }
    if !db.up {
      return Error(500, CreateFailed);
    }
    var row := db.InsertProject(b.name.value, OrNull(b.client), OrNull(b.description),
                                Or(b.status, "planning"), b.dueDate, OrInt(b.createdBy, 1), now);
    r := Ok(201, row);
  }
}
