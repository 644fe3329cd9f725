/** The team page (src/app/dashboard/team/page.tsx): the member cards and the delete
    button, which asks for confirmation, calls `DELETE /api/team/:id` and on success drops
    the member from the list it shows. The user's answer to the confirmation and the reply of
    the request are parameters. */
module TeamPage {
  import opened Js
  import opened Decimal

  /** A member as the page holds it (`TeamMember`). */
  datatype TeamMember = TeamMember(id: nat, email: string, fullName: string, role: string,
                                   position: Option<string>, avatarUrl: Option<string>,
                                   projectCount: Option<int>, taskCount: Option<int>,
                                   completedTasks: Option<int>)

  /** `members.filter(m => m.id !== id)`. */
  function RemoveMember(members: seq<TeamMember>, id: nat): (r: seq<TeamMember>)
    ensures |r| <= |members|
    ensures forall i :: 0 <= i < |r| ==> r[i].id != id
  {
    if members == [] then []
    else if members[0].id == id then RemoveMember(members[1..], id)
    else [members[0]] + RemoveMember(members[1..], id)
  }

  /** Removal works piece by piece: the members left from a list are those left from its
      first part followed by those left from the rest, so their relative order is kept. */
  lemma {:induction false} RemoveDistributes(a: seq<TeamMember>, b: seq<TeamMember>, id: nat)
    ensures RemoveMember(a + b, id) == RemoveMember(a, id) + RemoveMember(b, id)
  {
    if a == [] {
      assert a + b == b;
    } else {
      var ab := a + b;
      assert ab[0] == a[0] && ab[1..] == a[1..] + b;
      RemoveDistributes(a[1..], b, id);
      if a[0].id != id {
        assert RemoveMember(ab, id) == [a[0]] + RemoveMember(a[1..] + b, id);
        assert RemoveMember(a, id) == [a[0]] + RemoveMember(a[1..], id);
      }
    }
  }

  /** Exactly the members with another id are left. */
  lemma {:induction false} RemoveKeepsOthers(members: seq<TeamMember>, id: nat, m: TeamMember)
    ensures m in RemoveMember(members, id) <==> m in members && m.id != id
  {
    if members != [] {
      RemoveKeepsOthers(members[1..], id, m);
      assert members == [members[0]] + members[1..];
    }
  }

  /** Deleting an id that is not shown changes nothing. */
  lemma {:induction false} RemoveAbsent(members: seq<TeamMember>, id: nat)
    requires forall i :: 0 <= i < |members| ==> members[i].id != id
    ensures RemoveMember(members, id) == members
  {
    if members != [] {
      RemoveAbsent(members[1..], id);
      assert members == [members[0]] + members[1..];
    }
  }

  /** Deleting twice is deleting once. */
  lemma RemoveIdempotent(members: seq<TeamMember>, id: nat)
    ensures RemoveMember(RemoveMember(members, id), id) == RemoveMember(members, id)
  {
    RemoveAbsent(RemoveMember(members, id), id);
  }

  /** What a member card shows besides name and email. */
  datatype Card = Card(avatar: string, subtitle: string, projects: int, tasks: int)

  function CardOf(m: TeamMember): (c: Card)
    ensures Truthy(m.avatarUrl) ==> c.avatar == m.avatarUrl.value
    ensures !Truthy(m.avatarUrl) ==> c.avatar == "https://picsum.photos/id/" + Dec(m.id + 60) + "/80/80"
    ensures Truthy(m.position) ==> c.subtitle == m.position.value
    ensures !Truthy(m.position) ==> c.subtitle == m.role
    ensures c.projects == (if TruthyInt(m.projectCount) then m.projectCount.value else 0)
    ensures c.tasks == (if TruthyInt(m.taskCount) then m.taskCount.value else 0)
  {
    Card(Or(m.avatarUrl, "https://picsum.photos/id/" + Dec(m.id + 60) + "/80/80"),
         Or(m.position, m.role), OrInt(m.projectCount, 0), OrInt(m.taskCount, 0))
  }

  /** The reply to `DELETE /api/team/:id`: success, `{success: false, error}`, or no answer
      at all (the fetch or the JSON parse threw). */
  datatype DeleteReply = Deleted | Refused(error: Option<string>) | NoConnection

  const DeleteFailed := "Không thể xóa thành viên"
  const ConnectionFailed := "Không thể kết nối đến server"

  class TeamView {
    var members: seq<TeamMember>
    /** The text of the last `alert`, if one was shown. */
    var alert: Option<string>

    constructor (members: seq<TeamMember>)
      ensures this.members == members && alert.None?
    {
      this.members := members;
      alert := None;
    }

    /** `handleDelete(id, name)`. `confirmed` is the answer to `confirm`; `reply` is what the
        request returned, used only when one is sent. Returns whether a request was sent. */
    method HandleDelete(id: nat, confirmed: bool, reply: DeleteReply) returns (sent: bool)
      modifies this
      ensures sent == confirmed
      ensures !confirmed ==> members == old(members) && alert == old(alert)
      ensures confirmed && reply == Deleted ==>
                members == RemoveMember(old(members), id) && alert == old(alert)
      ensures confirmed && reply.Refused? ==>
                members == old(members) && alert == Some(Or(reply.error, DeleteFailed))
      ensures confirmed && reply == NoConnection ==>
                members == old(members) && alert == Some(ConnectionFailed)
    {
      if !confirmed {
        return false;
      }
      sent := true;
      match reply
      case Deleted => members := RemoveMember(members, id);
      case Refused(error) => alert := Some(Or(error, DeleteFailed));
      case NoConnection => alert := Some(ConnectionFailed);
    }
  }
}
