/** The badge tables and fallbacks of the task list page (src/app/dashboard/tasks/page.tsx). */
module TasksPage {
  import opened Js
  import opened Decimal

  /** The colour family of a badge; `ToneClass` gives its CSS classes. */
  datatype Tone = Blue | Yellow | Emerald | Slate | Red | Orange | Plain

  datatype Badge = Badge(caption: string, tone: Tone)

  function ToneClass(t: Tone): string {
    match t
    case Blue => "bg-blue-50 text-blue-700 dark:bg-blue-900/30 dark:text-blue-300"
    case Yellow => "bg-yellow-50 text-yellow-700 dark:bg-yellow-900/30 dark:text-yellow-300"
    case Emerald => "bg-emerald-50 text-emerald-700 dark:bg-emerald-900/30 dark:text-emerald-300"
    case Slate => "bg-slate-100 text-slate-600 dark:bg-slate-700 dark:text-slate-300"
    case Red => "bg-red-50 text-red-700 dark:bg-red-900/30 dark:text-red-300"
    case Orange => "bg-orange-50 text-orange-700 dark:bg-orange-900/30 dark:text-orange-300"
    case Plain => "bg-slate-100 text-slate-600"
  }

  const KnownStatuses: set<string> := {"in_progress", "in_review", "completed", "pending"}
  const KnownPriorities: set<string> := {"urgent", "high", "medium", "low"}

  /** `getStatusBadge`. */
  function StatusBadge(status: string): (b: Badge)
    ensures status == "in_progress" ==> b == Badge("Đang thực hiện", Blue)
    ensures status == "in_review" ==> b == Badge("Đang duyệt", Yellow)
    ensures status == "completed" ==> b == Badge("Hoàn thành", Emerald)
    ensures status == "pending" ==> b == Badge("Chờ xử lý", Slate)
    ensures status !in KnownStatuses ==> b == Badge(status, Plain)
  {
    if status == "in_progress" then Badge("Đang thực hiện", Blue)
    else if status == "in_review" then Badge("Đang duyệt", Yellow)
    else if status == "completed" then Badge("Hoàn thành", Emerald)
    else if status == "pending" then Badge("Chờ xử lý", Slate)
    else Badge(status, Plain)
  }

  /** `getPriorityBadge`. */
  function PriorityBadge(priority: string): (b: Badge)
    ensures priority == "urgent" ==> b == Badge("Khẩn cấp", Red)
    ensures priority == "high" ==> b == Badge("Cao", Orange)
    ensures priority == "medium" ==> b == Badge("Trung bình", Blue)
    ensures priority == "low" ==> b == Badge("Thấp", Slate)
    ensures priority !in KnownPriorities ==> b == Badge(priority, Plain)
  {
    if priority == "urgent" then Badge("Khẩn cấp", Red)
    else if priority == "high" then Badge("Cao", Orange)
    else if priority == "medium" then Badge("Trung bình", Blue)
    else if priority == "low" then Badge("Thấp", Slate)
    else Badge(priority, Plain)
  }

  /** Reads a priority back from its label. */
  function PriorityOfLabel(caption: string): string {
    if caption == "Khẩn cấp" then "urgent"
    else if caption == "Cao" then "high"
    else if caption == "Trung bình" then "medium"
    else if caption == "Thấp" then "low"
    else caption
  }

  /** The four priorities are told apart by their labels: each label reads back to its priority. */
  lemma PriorityLabelsAreDistinct(p: string)
    requires p in KnownPriorities
    ensures PriorityOfLabel(PriorityBadge(p).caption) == p
  {
    var c := PriorityBadge(p).caption;
    if p == "urgent" { assert c == "Khẩn cấp"; }
    else if p == "high" { assert c == "Cao" && |c| != |"Khẩn cấp"|; }
    else if p == "medium" { assert c == "Trung bình" && c[0] != "Khẩn cấp"[0] && c[0] != "Cao"[0]; }
    else {
      assert c == "Thấp" && c[0] != "Khẩn cấp"[0] && c[0] != "Cao"[0] && c[1] != "Trung bình"[1];
    }
  }

  /** Reads a status back from its label. */
  function StatusOfLabel(caption: string): string {
    if caption == "Đang thực hiện" then "in_progress"
    else if caption == "Đang duyệt" then "in_review"
    else if caption == "Hoàn thành" then "completed"
    else if caption == "Chờ xử lý" then "pending"
    else caption
  }

  /** The four statuses are told apart by their labels: each label reads back to its status. */
  lemma StatusLabelsAreDistinct(s: string)
    requires s in KnownStatuses
    ensures StatusOfLabel(StatusBadge(s).caption) == s
  {
    var c := StatusBadge(s).caption;
    if s == "in_progress" { assert c == "Đang thực hiện"; }
    else if s == "in_review" { assert c == "Đang duyệt" && |c| != |"Đang thực hiện"|; }
    else if s == "completed" {
      assert c == "Hoàn thành" && c[0] != "Đang thực hiện"[0] && c[0] != "Đang duyệt"[0];
    } else {
      assert c == "Chờ xử lý" && c[0] != "Đang thực hiện"[0] && c[0] != "Đang duyệt"[0] &&
             c[0] != "Hoàn thành"[0];
    }
  }

  /** The server's 'overdue' status has no entry: it is shown as the raw word. */
  lemma OverdueIsShownRaw()
    ensures StatusBadge("overdue") == Badge("overdue", Plain)
  {
  }

  const Unassigned := "Chưa gán"

  /** The project column: `project_name || 'Chưa gán'`. */
  function ProjectCell(projectName: Option<string>): (c: string)
    ensures Truthy(projectName) ==> c == projectName.value
    ensures !Truthy(projectName) ==> c == Unassigned
  {
    Or(projectName, Unassigned)
  }

  /** The assignee column: the name with an avatar (a placeholder picture keyed by the task
      id when there is none), or 'Chưa gán' without one. */
  datatype AssigneeCell = Assignee(name: string, avatar: string) | NoAssignee(text: string)

  function AssigneeCellOf(taskId: nat, assigneeName: Option<string>, avatar: Option<string>): (c: AssigneeCell)
    ensures !Truthy(assigneeName) <==> c == NoAssignee(Unassigned)
    ensures Truthy(assigneeName) ==> c.Assignee? && c.name == assigneeName.value &&
                                     (Truthy(avatar) ==> c.avatar == avatar.value)
  {
    if Truthy(assigneeName) then
      Assignee(assigneeName.value,
               Or(avatar, "https://picsum.photos/id/" + Dec(taskId + 10) + "/32/32"))
    else NoAssignee(Unassigned)
  }
}
