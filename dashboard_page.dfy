/** The display helpers of the dashboard page (src/app/dashboard/page.tsx): the status
    colour and label of a recent task, its overdue mark, the colour band and label of a
    project's progress, the overview shown before any data arrives, and the two cards whose
    text depends on the numbers. */
module DashboardPage {
  import opened Js
  import opened DashboardApi

  /** The keys of the `colors` table. */
  const ColorKeys: set<string> := {"blue", "yellow", "red", "emerald"}

  /** The statuses the label switch knows. */
  const KnownStatuses: set<string> := {"in_progress", "in_review", "completed", "overdue", "pending"}

  /** `getStatusColor`: every status gets a colour the table has, blue by default. */
  function StatusColor(status: string): (c: string)
    ensures c in ColorKeys
    ensures status !in {"in_review", "completed", "overdue"} ==> c == "blue"
  {
    match status
    case "in_progress" => "blue"
    case "in_review" => "yellow"
    case "completed" => "emerald"
    case "overdue" => "red"
    case _ => "blue"
  }

  /** `getStatusLabel` of a recent task: an unknown status is shown as it is. */
  function StatusLabel(status: string): (l: string)
    ensures status !in KnownStatuses ==> l == status
  {
    match status
    case "in_progress" => "Đang thực hiện"
    case "in_review" => "Đang duyệt"
    case "completed" => "Hoàn thành"
    case "overdue" => "Quá hạn"
    case "pending" => "Chờ xử lý"
    case _ => status
  }

  /** The known statuses get five different labels, none of which is a known status. */
  lemma KnownLabelsAreDistinct(s: string, t: string)
    requires s in KnownStatuses && t in KnownStatuses && s != t
    ensures StatusLabel(s) != StatusLabel(t)
    ensures StatusLabel(s) !in KnownStatuses
  {
  }

  /** `isOverdue`: marked overdue by status, or by a due date before `now` unless completed. */
  predicate IsOverdue(status: string, dueDate: Option<int>, now: int): (overdue: bool)
    ensures status == "overdue" ==> overdue
    ensures status == "completed" ==> !overdue
    ensures status != "overdue" && status != "completed" ==>
              (overdue <==> dueDate.Some? && dueDate.value < now)
  {
    status == "overdue" || (dueDate.Some? && dueDate.value < now && status != "completed")
  }

  /** Once overdue, a task stays overdue as time goes on. */
  lemma OverdueStaysOverdue(status: string, dueDate: Option<int>, now: int, later: int)
    requires IsOverdue(status, dueDate, now) && now <= later
    ensures IsOverdue(status, dueDate, later)
  {
  }

  /** `getProgressColor`, by bands of 25. */
  function ProgressColor(progress: int): (c: string)
    ensures c == "bg-emerald-500" <==> progress >= 75
    ensures c == "bg-primary" <==> 50 <= progress < 75
    ensures c == "bg-yellow-500" <==> 25 <= progress < 50
    ensures c == "bg-red-500" <==> progress < 25
  {
    if progress >= 75 then "bg-emerald-500"
    else if progress >= 50 then "bg-primary"
    else if progress >= 25 then "bg-yellow-500"
    else "bg-red-500"
  }

  /** The bands in order, worst first. */
  function BandRank(c: string): nat {
    if c == "bg-red-500" then 0 else if c == "bg-yellow-500" then 1 else if c == "bg-primary" then 2 else 3
  }

  /** More progress never shows a worse band. */
  lemma ProgressColorMonotone(p: int, q: int)
    requires p <= q
    ensures BandRank(ProgressColor(p)) <= BandRank(ProgressColor(q))
  {
  }

  /** The HealthItem `getStatusLabel`: progress decides before status does. */
  function HealthLabel(status: string, progress: int): (l: string)
    ensures progress >= 75 ==> l == "Sắp hoàn thành"
    ensures progress < 75 && status == "in_progress" ==> l == "Đang tiến hành"
    ensures progress < 75 && status == "planning" ==> l == "Đang lập kế hoạch"
    ensures progress < 75 && status != "in_progress" && status != "planning" ==> l == "Đúng tiến độ"
  {
    if progress >= 75 then "Sắp hoàn thành"
    else if status == "in_progress" then "Đang tiến hành"
    else if status == "planning" then "Đang lập kế hoạch"
    else "Đúng tiến độ"
  }

  /** `data?.overview || {...zeros}`. */
  function ShownOverview(data: Option<Overview>): (o: Overview)
    ensures data.None? ==> o == Overview(0, 0, 0, 0, 0, 0, 0)
    ensures data.Some? ==> o == data.value
  {
    if data.Some? then data.value else Overview(0, 0, 0, 0, 0, 0, 0)
  }

  /** The overdue card: in warning state exactly when some task is overdue. */
  function OverdueCard(o: Overview): (card: (bool, string))
    ensures card.0 <==> o.overdueTasks > 0
    ensures card.1 == (if card.0 then "Cần chú ý" else "Tốt!")
  {
    var warning := o.overdueTasks > 0;
    (warning, if warning then "Cần chú ý" else "Tốt!")
  }

  /** The performance card's trend text. */
  function PerformanceTrend(performance: int): (t: string)
    ensures performance >= 90 ==> t == "Xuất sắc!"
    ensures performance < 90 ==> t == "+12% tuần này"
  {
    if performance >= 90 then "Xuất sắc!" else "+12% tuần này"
  }

  /** A team that has completed none of its assigned tasks is congratulated: the server
      reports 94 and the card calls that excellent. */
  lemma NoProgressLooksExcellent(tasks: seq<Database.TaskRow>)
    requires forall i :: 0 <= i < |tasks| ==> !AssignedAndCompleted(tasks[i])
    ensures PerformanceTrend(ReportedPerformance(TeamPerformance(tasks))) == "Xuất sắc!"
  {
    NothingCompletedShows94(tasks);
  }
}
