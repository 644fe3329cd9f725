/** The tables the handlers read and write (scripts/init-db.js), as an object whose fields
    the INSERT statements update in place. A table is the sequence of its rows in insertion
    order; each SERIAL column is a counter. `up` is false when the connection pool cannot
    serve queries, in which case every query throws. */
module Database {
  import opened Js
  import Bcrypt

  /** A calendar date or timestamp, as a number (days or seconds). */
  type Date = int

  /** A row of `users`. */
  datatype UserRow = UserRow(id: nat, email: string, passwordHash: Bcrypt.Digest, fullName: string,
                             role: string, avatarUrl: Option<string>, position: Option<string>,
                             createdAt: Date, updatedAt: Date)

  /** A row of `projects`. */
  datatype ProjectRow = ProjectRow(id: nat, name: string, client: Option<string>,
                                   description: Option<string>, progress: int, status: string,
                                   dueDate: Option<Date>, createdBy: Option<int>,
                                   createdAt: Date, updatedAt: Date)

  /** A row of `tasks`. */
  datatype TaskRow = TaskRow(id: nat, title: string, description: Option<string>,
                             projectId: Option<int>, assigneeId: Option<int>, status: string,
                             priority: string, dueDate: Option<Date>, createdAt: Date, updatedAt: Date)

  /** A row of `meetings`. */
  datatype MeetingRow = MeetingRow(id: nat, title: string, projectId: Option<int>, meetingDate: Date,
                                   durationMinutes: Option<int>, notes: Option<string>,
                                   zoomLink: Option<string>, createdBy: Option<int>, createdAt: Date)

  /** `SELECT ... FROM users WHERE <column> = $1`: the first row whose `key` column is `k`,
      if any. */
  function FindFirst<K(==)>(users: seq<UserRow>, key: UserRow -> K, k: K): (r: Option<UserRow>)
    ensures r.Some? ==> r.value in users && key(r.value) == k
    ensures r.None? <==> forall i :: 0 <= i < |users| ==> key(users[i]) != k
  {
    if users == [] then None
    else if key(users[0]) == k then Some(users[0])
    else FindFirst(users[1..], key, k)
  }

  function UserEmail(u: UserRow): string { u.email }
  function UserId(u: UserRow): int { u.id }

  /** `SELECT ... FROM users WHERE email = $1`. */
  function FindUserByEmail(users: seq<UserRow>, email: string): Option<UserRow> {
    FindFirst(users, UserEmail, email)
  }

  /** `SELECT ... FROM users WHERE id = $1`. */
  function FindUserById(users: seq<UserRow>, id: int): Option<UserRow> {
    FindFirst(users, UserId, id)
  }

  /** The UNIQUE constraint on `users.email`. */
  ghost predicate UniqueEmails(users: seq<UserRow>) {
    forall i, j :: 0 <= i < j < |users| ==> users[i].email != users[j].email
  }

  /** Ids handed out by a SERIAL column increase and stay below its next value. */
  ghost predicate SerialIds(ids: seq<nat>, next: nat) {
    (forall i, j :: 0 <= i < j < |ids| ==> ids[i] < ids[j]) &&
    (forall i :: 0 <= i < |ids| ==> ids[i] < next)
  }

  /** The foreign key `meeting_attendees.meeting_id REFERENCES meetings(id)`: every
      attendance names a meeting id already handed out. */
  ghost predicate AttendeesReferToMeetings(attendees: set<(nat, int)>, nextMeetingId: nat) {
    forall p | p in attendees :: p.0 < nextMeetingId
  }

  function UserIds(users: seq<UserRow>): (ids: seq<nat>)
    ensures |ids| == |users| && forall i :: 0 <= i < |users| ==> ids[i] == users[i].id
  {
    if users == [] then [] else [users[0].id] + UserIds(users[1..])
  }

  /** A table of unique emails stays so when a row with a new email is added. */
  lemma AppendNewEmail(users: seq<UserRow>, row: UserRow)
    requires UniqueEmails(users)
    requires FindUserByEmail(users, row.email).None?
    ensures UniqueEmails(users + [row])
  {
  }

  lemma UserIdsAppend(users: seq<UserRow>, row: UserRow)
    ensures UserIds(users + [row]) == UserIds(users) + [row.id]
  {
    var ids := UserIds(users + [row]);
    assert forall i :: 0 <= i < |users| ==> ids[i] == users[i].id;
  }

  /** Adding a user under a new email and the next SERIAL id keeps the users table valid. */
  lemma AppendUserKeepsValid(users: seq<UserRow>, next: nat, row: UserRow)
    requires UniqueEmails(users) && SerialIds(UserIds(users), next)
    requires FindUserByEmail(users, row.email).None? && row.id == next
    ensures UniqueEmails(users + [row]) && SerialIds(UserIds(users + [row]), next + 1)
  {
    AppendNewEmail(users, row);
    UserIdsAppend(users, row);
  }

  /** The columns `register`, `team` and `me` return (`id, email, full_name, role, position,
      avatar_url, created_at`): the password hash is not among them. */
  datatype PublicUser = PublicUser(id: nat, email: string, fullName: string, role: string,
                                   position: Option<string>, avatarUrl: Option<string>,
                                   createdAt: Date)

  function Profile(u: UserRow): PublicUser {
    PublicUser(u.id, u.email, u.fullName, u.role, u.position, u.avatarUrl, u.createdAt)
  }

  /** A row added under a key the table did not have is what a lookup by that key finds. */
  lemma {:induction false} FindAppended<K>(users: seq<UserRow>, key: UserRow -> K, row: UserRow)
    requires FindFirst(users, key, key(row)).None?
    ensures FindFirst(users + [row], key, key(row)) == Some(row)
  {
    if users != [] {
      assert (users + [row])[1..] == users[1..] + [row];
      FindAppended(users[1..], key, row);
    }
  }

  /** With SERIAL ids every stored row is found by its own id. */
  lemma {:induction false} FindStoredId(users: seq<UserRow>, next: nat, k: nat)
    requires SerialIds(UserIds(users), next)
    requires k < |users|
    ensures FindUserById(users, users[k].id) == Some(users[k])
  {
    if k > 0 {
      assert users[0].id < users[k].id;
      var ids := UserIds(users);
      assert UserIds(users[1..]) == ids[1..];
      FindStoredId(users[1..], next, k - 1);
    }
  }

  /** With SERIAL ids, the next id is not in the table yet. */
  lemma NextIdIsFree(users: seq<UserRow>, next: nat)
    requires SerialIds(UserIds(users), next)
    ensures FindUserById(users, next).None?
  {
  }

  /** Everything a `Db` holds, as one value. */
  datatype Snapshot = Snapshot(up: bool, users: seq<UserRow>, projects: seq<ProjectRow>,
                               tasks: seq<TaskRow>, meetings: seq<MeetingRow>,
                               attendees: set<(nat, int)>, nextUserId: nat, nextProjectId: nat,
                               nextTaskId: nat, nextMeetingId: nat)

  class Db {
    var up: bool
    var users: seq<UserRow>
    var projects: seq<ProjectRow>
    var tasks: seq<TaskRow>
    var meetings: seq<MeetingRow>
    /** `meeting_attendees`, whose primary key is (meeting_id, user_id). */
    var attendees: set<(nat, int)>
    var nextUserId: nat
    var nextProjectId: nat
    var nextTaskId: nat
    var nextMeetingId: nat

    function Contents(): Snapshot
      reads this
    {
      Snapshot(up, users, projects, tasks, meetings, attendees,
            nextUserId, nextProjectId, nextTaskId, nextMeetingId)
    }

    ghost predicate Valid()
      reads this
    {
      UniqueEmails(users) && SerialIds(UserIds(users), nextUserId) &&
      AttendeesReferToMeetings(attendees, nextMeetingId)
    }

    /** An empty database; SERIAL columns start at 1. */
    constructor (up: bool)
      ensures Valid()
      ensures Contents() == Snapshot(up, [], [], [], [], {}, 1, 1, 1, 1)
    {
      this.up := up;
      users, projects, tasks, meetings, attendees := [], [], [], [], {};
      nextUserId, nextProjectId, nextTaskId, nextMeetingId := 1, 1, 1, 1;
    }

    /** `INSERT INTO users ... RETURNING ...`, for an email that is not yet taken. */
    method InsertUser(email: string, passwordHash: Bcrypt.Digest, fullName: string, role: string,
                      position: Option<string>, avatarUrl: Option<string>, now: Date)
      returns (row: UserRow)
      requires Valid() && up
      requires FindUserByEmail(users, email).None?
      modifies this
      ensures Valid()
      ensures row == UserRow(old(nextUserId), email, passwordHash, fullName, role, avatarUrl,
                             position, now, now)
      ensures Contents() == old(Contents()).(users := old(users) + [row], nextUserId := old(nextUserId) + 1)
    {
      row := UserRow(nextUserId, email, passwordHash, fullName, role, avatarUrl, position, now, now);
      AppendUserKeepsValid(users, nextUserId, row);
      users := users + [row];
      nextUserId := nextUserId + 1;
    }

    /** `INSERT INTO projects ... RETURNING *`; `progress` takes its column default, 0. */
    method InsertProject(name: string, client: Option<string>, description: Option<string>,
                         status: string, dueDate: Option<Date>, createdBy: int, now: Date)
      returns (row: ProjectRow)
      requires Valid() && up
      modifies this
      ensures Valid()
      ensures row == ProjectRow(old(nextProjectId), name, client, description, 0, status, dueDate,
                                Some(createdBy), now, now)
      ensures Contents() == old(Contents()).(projects := old(projects) + [row],
                                       nextProjectId := old(nextProjectId) + 1)
    {
      row := ProjectRow(nextProjectId, name, client, description, 0, status, dueDate,
                        Some(createdBy), now, now);
      projects := projects + [row];
      nextProjectId := nextProjectId + 1;
    }

    /** `INSERT INTO tasks ... RETURNING *`. */
    method InsertTask(title: string, description: Option<string>, projectId: Option<int>,
                      assigneeId: Option<int>, status: string, priority: string,
                      dueDate: Option<Date>, now: Date)
      returns (row: TaskRow)
      requires Valid() && up
      modifies this
      ensures Valid()
      ensures row == TaskRow(old(nextTaskId), title, description, projectId, assigneeId, status,
                             priority, dueDate, now, now)
      ensures Contents() == old(Contents()).(tasks := old(tasks) + [row], nextTaskId := old(nextTaskId) + 1)
    {
      row := TaskRow(nextTaskId, title, description, projectId, assigneeId, status, priority,
                     dueDate, now, now);
      tasks := tasks + [row];
      nextTaskId := nextTaskId + 1;
    }

    /** `INSERT INTO meetings ... RETURNING *`. */
    method InsertMeeting(title: string, projectId: Option<int>, meetingDate: Date,
                         durationMinutes: int, notes: Option<string>, zoomLink: Option<string>,
                         createdBy: int, now: Date)
      returns (row: MeetingRow)
      requires Valid() && up
      modifies this
      ensures Valid()
      ensures row == MeetingRow(old(nextMeetingId), title, projectId, meetingDate,
                                Some(durationMinutes), notes, zoomLink, Some(createdBy), now)
      ensures Contents() == old(Contents()).(meetings := old(meetings) + [row],
                                       nextMeetingId := old(nextMeetingId) + 1)
    {
      row := MeetingRow(nextMeetingId, title, projectId, meetingDate, Some(durationMinutes), notes,
                        zoomLink, Some(createdBy), now);
      meetings := meetings + [row];
      nextMeetingId := nextMeetingId + 1;
    }

    /** `INSERT INTO meeting_attendees (meeting_id, user_id) VALUES ($1, $2) ON CONFLICT DO NOTHING`:
        a pair already present is left as it is, without an error. */
    method InsertAttendee(meetingId: nat, userId: int)
      requires Valid() && up
      requires meetingId < nextMeetingId
      modifies this
      ensures Valid()
      ensures Contents() == old(Contents()).(attendees := old(attendees) + {(meetingId, userId)})
    {
      attendees := attendees + {(meetingId, userId)};
    }
  }
}
