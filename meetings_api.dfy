/** `/api/meetings` (src/app/api/meetings/route.ts).

    GET selects the meetings, with ` AND m.project_id = $1` when a project is given, by
    meeting date, latest first. POST checks the title and date, inserts the meeting with
    its defaults, and then inserts one attendance per listed user id, one at a time, where
    a pair already present is skipped (`ON CONFLICT DO NOTHING`). */
module MeetingsApi {
  import opened Js
  import opened Http
  import opened Sql
  import opened Database

  const MeetingSelect := "SELECT m.*, p.name as project_name, u.full_name as created_by_name, " +
                         "(SELECT COUNT(*) FROM meeting_attendees ma WHERE ma.meeting_id = m.id) as attendee_count, " +
                         "(SELECT COUNT(*) FROM meeting_actions act WHERE act.meeting_id = m.id) as action_count " +
                         "FROM meetings m LEFT JOIN projects p ON m.project_id = p.id " +
                         "LEFT JOIN users u ON m.created_by = u.id WHERE 1=1"
  const ByProject := " AND m.project_id = "
  const LatestFirst := " ORDER BY m.meeting_date DESC"

  function IntendedMeetingQuery(projectId: Option<string>): seq<Bound> {
    [Code(MeetingSelect)] + Condition(ByProject, projectId) + [Code(LatestFirst)]
  }

  /** The GET handler's statement and parameters. */
  method BuildMeetingQuery(projectId: Option<string>) returns (q: Query)
    ensures WellNumbered(q)
    ensures Bind(q) == IntendedMeetingQuery(projectId)
    ensures q.params == if Truthy(projectId) then [Str(projectId.value)] else []
  {
    var sql := [Lit(MeetingSelect)];
    var params: seq<Value> := [];
    ghost var want := [Code(MeetingSelect)];
    StartBuild(MeetingSelect);

    if Truthy(projectId) {
      PushFilter(sql, params, want, ByProject, Str(projectId.value));
      sql := sql + [Lit(ByProject), Placeholder(1)];
      params := params + [Str(projectId.value)];
    }
    want := want + Condition(ByProject, projectId);
    assert Builds(sql, params, want);

    PushText(sql, params, want, LatestFirst);
    sql := sql + [Lit(LatestFirst)];
    want := want + [Code(LatestFirst)];
    q := Query(sql, params);
  }

  /** The parsed JSON body of POST. `meetingDate` is `None` when the date is absent or empty. */
  datatype MeetingBody = MeetingBody(title: Option<string>, projectId: Option<int>,
                                     meetingDate: Option<Date>, durationMinutes: Option<int>,
                                     notes: Option<string>, zoomLink: Option<string>,
                                     createdBy: Option<int>, attendeeIds: Option<seq<int>>)

  const MissingFields := "Title and meeting date are required"
  const CreateFailed := "Failed to create meeting"

  /** The attendances `(meeting, user)` for each listed user. */
  function Attendances(meetingId: nat, ids: seq<int>): (a: set<(nat, int)>)
    ensures forall m: nat, u :: (m, u) in a <==> m == meetingId && u in ids
  {
    set u | u in ids :: (meetingId, u)
  }

  /** The attendances POST adds: none unless `attendee_ids` is a non-empty list. */
  function ListedAttendances(meetingId: nat, ids: Option<seq<int>>): set<(nat, int)> {
    if ids.Some? && |ids.value| > 0 then Attendances(meetingId, ids.value) else {}
  }

  predicate HasFields(body: Option<MeetingBody>) {
    body.Some? && Truthy(body.value.title) && body.value.meetingDate.Some?
  }

  /** The defaults POST applies: a falsy project, note or link becomes NULL, a falsy
      duration (0 included) 60 minutes, a falsy creator user 1. */
  predicate MeetingDefaults(b: MeetingBody, row: MeetingRow) {
    b.title == Some(row.title) && b.meetingDate == Some(row.meetingDate) &&
    (TruthyInt(b.projectId) ==> row.projectId == b.projectId) &&
    (!TruthyInt(b.projectId) ==> row.projectId.None?) &&
    (TruthyInt(b.durationMinutes) ==> row.durationMinutes == b.durationMinutes) &&
    (!TruthyInt(b.durationMinutes) ==> row.durationMinutes == Some(60)) &&
    (Truthy(b.notes) ==> row.notes == b.notes) && (!Truthy(b.notes) ==> row.notes.None?) &&
    (Truthy(b.zoomLink) ==> row.zoomLink == b.zoomLink) && (!Truthy(b.zoomLink) ==> row.zoomLink.None?) &&
    (TruthyInt(b.createdBy) ==> row.createdBy == b.createdBy) &&
    (!TruthyInt(b.createdBy) ==> row.createdBy == Some(1))
  }

  /** POST's response and the database after it, from the database before it. */
  function CreateMeetingSpec(s: Snapshot, body: Option<MeetingBody>, now: Date)
    : (r: (Response<MeetingRow>, Snapshot))
    ensures r.0.status in {201, 400, 500} && r.0.cookie.None?
    ensures r.0.status == 400 <==> body.Some? && !HasFields(body)
    ensures r.0.status == 400 ==> r.0 == Error(400, MissingFields)
    ensures r.0.status == 500 <==> body.None? || (HasFields(body) && !s.up)
    ensures r.0.status == 500 ==> r.0 == Error(500, CreateFailed)
    ensures r.0.status != 201 ==> r.1 == s
    ensures r.0.status == 201 ==>
              r.0.body.Success? && r.0.body.data.id == s.nextMeetingId &&
              MeetingDefaults(body.value, r.0.body.data) &&
              r.1 == s.(meetings := s.meetings + [r.0.body.data], nextMeetingId := s.nextMeetingId + 1,
                        attendees := s.attendees + ListedAttendances(s.nextMeetingId, body.value.attendeeIds))
  {
    match body
    case None => (Error(500, CreateFailed), s)
    case Some(b) =>
      if !Truthy(b.title) || b.meetingDate.None? then (Error(400, MissingFields), s)
      else if !s.up then (Error(500, CreateFailed), s)
      else
        var row := MeetingRow(s.nextMeetingId, b.title.value, OrNullInt(b.projectId), b.meetingDate.value,
                              Some(OrInt(b.durationMinutes, 60)), OrNull(b.notes), OrNull(b.zoomLink),
                              Some(OrInt(b.createdBy, 1)), now);
        (Ok(201, row),
         s.(meetings := s.meetings + [row], nextMeetingId := s.nextMeetingId + 1,
            attendees := s.attendees + ListedAttendances(row.id, b.attendeeIds)))
  }

  /** The POST handler itself, on a live database. */
  method CreateMeeting(db: Db, body: Option<MeetingBody>, now: Date) returns (r: Response<MeetingRow>)
    requires db.Valid()
    modifies db
    ensures db.Valid()
    ensures (r, db.Contents()) == CreateMeetingSpec(old(db.Contents()), body, now)
  {
    if body.None? {
      return Error(500, CreateFailed);
    }
    var b := body.value;
    if !Truthy(b.title) || b.meetingDate.None? {
      return Error(400, MissingFields);
    }
    if !db.up {
      return Error(500, CreateFailed);
    }
    var meeting := db.InsertMeeting(b.title.value, OrNullInt(b.projectId), b.meetingDate.value,
                                    OrInt(b.durationMinutes, 60), OrNull(b.notes), OrNull(b.zoomLink),
                                    OrInt(b.createdBy, 1), now);
    ghost var inserted := db.Contents();
    if b.attendeeIds.Some? && |b.attendeeIds.value| > 0 {
      var ids := b.attendeeIds.value;
      for i := 0 to |ids|
        invariant db.Valid() && db.up && meeting.id < db.nextMeetingId
        invariant db.Contents() == inserted.(attendees := inserted.attendees + Attendances(meeting.id, ids[..i]))
      {
        assert ids[..i + 1] == ids[..i] + [ids[i]];
        db.InsertAttendee(meeting.id, ids[i]);
      }
      assert ids[..|ids|] == ids;
    } else {
      assert inserted.attendees + ListedAttendances(meeting.id, b.attendeeIds) == inserted.attendees;
    }
    assert db.Contents() ==
           inserted.(attendees := inserted.attendees + ListedAttendances(meeting.id, b.attendeeIds));
    r := Ok(201, meeting);
  }

  /** Attendances already present are not a problem: inserting a meeting's list adds each
      listed user once, and the new meeting's attendees are exactly the listed users. */
  lemma NewMeetingAttendees(s: Snapshot, body: Option<MeetingBody>, now: Date, u: int)
    requires AttendeesReferToMeetings(s.attendees, s.nextMeetingId)
    requires CreateMeetingSpec(s, body, now).0.status == 201
    ensures var ids := body.value.attendeeIds;
            (s.nextMeetingId, u) in CreateMeetingSpec(s, body, now).1.attendees <==> ids.Some? && u in ids.value
  {
  }

  /** Listing a user twice gives the same outcome as listing them once. */
  lemma RepeatedIdsAreHarmless(s: Snapshot, b: MeetingBody, ids: seq<int>, k: nat, now: Date)
    requires k < |ids|
    ensures CreateMeetingSpec(s, Some(b.(attendeeIds := Some(ids + [ids[k]]))), now) ==
            CreateMeetingSpec(s, Some(b.(attendeeIds := Some(ids))), now)
  {
    assert Attendances(s.nextMeetingId, ids + [ids[k]]) == Attendances(s.nextMeetingId, ids);
  }
}
