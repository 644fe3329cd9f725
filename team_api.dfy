/** `/api/team` (src/app/api/team/route.ts).

    GET selects every user, with ` AND u.role = $1` when a role is given, newest first, and
    strips `password_hash` from each returned row. POST checks the required fields, refuses
    a taken email, and creates the member with the fixed password 'password123' and the
    client's role, or 'user' when none is given. */
module TeamApi {
  import opened Js
  import opened Http
  import opened Bcrypt
  import opened Sql
  import opened Database

  const TeamSelect := "SELECT u.*, " +
                      "(SELECT COUNT(*) FROM project_members pm WHERE pm.user_id = u.id) as project_count, " +
                      "(SELECT COUNT(*) FROM tasks t WHERE t.assignee_id = u.id) as task_count, " +
                      "(SELECT COUNT(*) FROM tasks t WHERE t.assignee_id = u.id AND t.status = 'completed') " +
                      "as completed_tasks FROM users u WHERE 1=1"
  const ByRole := " AND u.role = "
  const NewestFirst := " ORDER BY u.created_at DESC"

  function IntendedTeamQuery(role: Option<string>): seq<Bound> {
    [Code(TeamSelect)] + Condition(ByRole, role) + [Code(NewestFirst)]
  }

  /** The GET handler's statement and parameters. */
  method BuildTeamQuery(role: Option<string>) returns (q: Query)
    ensures WellNumbered(q)
    ensures Bind(q) == IntendedTeamQuery(role)
    ensures q.params == if Truthy(role) then [Str(role.value)] else []
  {
    var sql := [Lit(TeamSelect)];
    var params: seq<Value> := [];
    ghost var want := [Code(TeamSelect)];
    StartBuild(TeamSelect);

    if Truthy(role) {
      PushFilter(sql, params, want, ByRole, Str(role.value));
      sql := sql + [Lit(ByRole), Placeholder(1)];
      params := params + [Str(role.value)];
    }
    want := want + Condition(ByRole, role);
    assert Builds(sql, params, want);

    PushText(sql, params, want, NewestFirst);
    sql := sql + [Lit(NewestFirst)];
    want := want + [Code(NewestFirst)];
    q := Query(sql, params);
  }

  /** A row as GET's statement returns it: every column of `users` and the three counts. */
  datatype MemberRow = MemberRow(user: UserRow, projectCount: int, taskCount: int, completedTasks: int)

  /** A row as GET answers it: the same, without `password_hash`. */
  datatype Member = Member(id: nat, email: string, fullName: string, role: string,
                           avatarUrl: Option<string>, position: Option<string>,
                           createdAt: Date, updatedAt: Date,
                           projectCount: int, taskCount: int, completedTasks: int)

  /** `const {password_hash, ...userWithoutPassword} = user`. */
  function WithoutPassword(r: MemberRow): (m: Member)
    ensures WithPassword(m, r.user.passwordHash) == r
  {
    var u := r.user;
    Member(u.id, u.email, u.fullName, u.role, u.avatarUrl, u.position, u.createdAt, u.updatedAt,
           r.projectCount, r.taskCount, r.completedTasks)
  }

  /** Puts a hash back into a member: the inverse of `WithoutPassword`. */
  function WithPassword(m: Member, h: Digest): MemberRow {
    MemberRow(UserRow(m.id, m.email, h, m.fullName, m.role, m.avatarUrl, m.position, m.createdAt,
                      m.updatedAt), m.projectCount, m.taskCount, m.completedTasks)
  }

  /** `result.rows.map(...)`: the answer keeps every row, in order, and of each row everything
      but its hash, which putting the hash back restores exactly. */
  function StripPasswords(rows: seq<MemberRow>): (ms: seq<Member>)
    ensures |ms| == |rows|
    ensures forall i :: 0 <= i < |rows| ==> WithPassword(ms[i], rows[i].user.passwordHash) == rows[i]
  {
    seq(|rows|, i requires 0 <= i < |rows| => WithoutPassword(rows[i]))
  }

  /** Two rows that differ only in their hash are answered identically. */
  lemma HashIsInvisible(r: MemberRow, h: Digest)
    ensures WithoutPassword(r.(user := r.user.(passwordHash := h))) == WithoutPassword(r)
  {
  }

  /** The parsed JSON body of POST. A `password` in it is read by nobody. */
  datatype TeamBody = TeamBody(email: Option<string>, fullName: Option<string>, role: Option<string>,
                               position: Option<string>, avatarUrl: Option<string>,
                               password: Option<string>)

  /** Every member created here gets this password. */
  const DefaultPassword := "password123"

  const MissingFields := "Email and full name are required"
  const EmailExists := "Email already exists"
  const CreateFailed := "Failed to create team member"

  predicate HasFields(body: Option<TeamBody>) {
    body.Some? && Truthy(body.value.email) && Truthy(body.value.fullName)
  }

  /** POST's response and the database after it, from the database before it; `salt` is
      the salt bcrypt draws. */
  function CreateMemberSpec(s: Snapshot, body: Option<TeamBody>, salt: nat, now: nat)
    : (r: (Response<PublicUser>, Snapshot))
    ensures r.0.status in {201, 400, 409, 500} && r.0.cookie.None?
    ensures r.0.status == 400 <==> body.Some? && !HasFields(body)
    ensures r.0.status == 400 ==> r.0 == Error(400, MissingFields)
    ensures r.0.status == 500 <==> body.None? || (HasFields(body) && !s.up)
    ensures r.0.status == 500 ==> r.0 == Error(500, CreateFailed)
    ensures r.0.status == 409 <==>
              HasFields(body) && s.up && FindUserByEmail(s.users, body.value.email.value).Some?
    ensures r.0.status == 409 ==> r.0 == Error(409, EmailExists)
    ensures r.0.status != 201 ==> r.1 == s
    ensures r.0.status == 201 ==>
              |r.1.users| == |s.users| + 1 && r.1.users[..|s.users|] == s.users &&
              r.1 == s.(users := r.1.users, nextUserId := s.nextUserId + 1) &&
              var u := r.1.users[|s.users|];
              u.id == s.nextUserId && u.email == body.value.email.value &&
              u.fullName == body.value.fullName.value &&
              (Truthy(body.value.role) ==> u.role == body.value.role.value) &&
              (!Truthy(body.value.role) ==> u.role == "user") &&
              u.position == OrNull(body.value.position) && u.avatarUrl == OrNull(body.value.avatarUrl) &&
              u.passwordHash == Hash(DefaultPassword, salt) &&
              r.0 == Ok(201, Profile(u))
  {
    match body
    case None => (Error(500, CreateFailed), s)
    case Some(b) =>
      if !Truthy(b.email) || !Truthy(b.fullName) then (Error(400, MissingFields), s)
      else if !s.up then (Error(500, CreateFailed), s)
      else if FindUserByEmail(s.users, b.email.value).Some? then (Error(409, EmailExists), s)
      else
        var u := UserRow(s.nextUserId, b.email.value, Hash(DefaultPassword, salt), b.fullName.value,
                         Or(b.role, "user"), OrNull(b.avatarUrl), OrNull(b.position), now, now);
        assert (s.users + [u])[..|s.users|] == s.users;
        (Ok(201, Profile(u)), s.(users := s.users + [u], nextUserId := s.nextUserId + 1))
  }

  /** The POST handler itself, on a live database. */
  method CreateMember(db: Db, body: Option<TeamBody>, salt: nat, now: nat) returns (r: Response<PublicUser>)
    requires db.Valid()
    modifies db
    ensures db.Valid()
    ensures (r, db.Contents()) == CreateMemberSpec(old(db.Contents()), body, salt, now)
  {
    if body.None? {
      return Error(500, CreateFailed);
    }
    var b := body.value;
    if !Truthy(b.email) || !Truthy(b.fullName) {
      return Error(400, MissingFields);
    }
    if !db.up {
      return Error(500, CreateFailed);
    }
    if FindUserByEmail(db.users, b.email.value).Some? {
      return Error(409, EmailExists);
    }
    var passwordHash := Hash(DefaultPassword, salt);
    var user := db.InsertUser(b.email.value, passwordHash, b.fullName.value, Or(b.role, "user"),
                              OrNull(b.position), OrNull(b.avatarUrl), now);
    r := Ok(201, Profile(user));
  }

  /** Whatever password the client sends, the outcome is the same. */
  lemma PasswordInBodyIsIgnored(s: Snapshot, b: TeamBody, p: Option<string>, salt: nat, now: nat)
    ensures CreateMemberSpec(s, Some(b.(password := p)), salt, now) == CreateMemberSpec(s, Some(b), salt, now)
  {
  }

  /** A member created here accepts 'password123' and no other password. */
  lemma NewMemberHasDefaultPassword(s: Snapshot, body: Option<TeamBody>, salt: nat, now: nat, password: string)
    requires CreateMemberSpec(s, body, salt, now).0.status == 201
    ensures Compare(password, CreateMemberSpec(s, body, salt, now).1.users[|s.users|].passwordHash) <==>
            password == DefaultPassword
  {
    CompareHash(password, DefaultPassword, salt);
  }
}
