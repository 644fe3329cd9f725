/** `GET /api/dashboard` (src/app/api/dashboard/route.ts): statistics over the projects,
    tasks and users tables. Each `COUNT(*) FILTER (WHERE ...)` is a count of the rows
    satisfying a condition; dates are day numbers and `today` is CURRENT_DATE. A NULL due
    date makes both date comparisons unknown, so such a task is counted by neither. */
module DashboardApi {
  import opened Js
  import opened Http
  import opened Database

  // ---------------------------------------------------------------- counting

  /** `COUNT(*) FILTER (WHERE p)`. */
  function Count<T>(xs: seq<T>, p: T -> bool): (n: nat)
    ensures n <= |xs|
  {
    if xs == [] then 0 else (if p(xs[0]) then 1 else 0) + Count(xs[1..], p)
  }

  /** The rows satisfying `p`, in order. */
  function Filter<T>(xs: seq<T>, p: T -> bool): (r: seq<T>)
    ensures |r| == Count(xs, p)
    ensures forall i :: 0 <= i < |r| ==> p(r[i]) && r[i] in xs
  {
    if xs == [] then []
    else (if p(xs[0]) then [xs[0]] else []) + Filter(xs[1..], p)
  }

  function Either<T>(p: T -> bool, q: T -> bool): T -> bool {
    x => p(x) || q(x)
  }

  /** Two conditions no row meets together count, added up, the rows meeting either. */
  lemma {:induction false} CountDisjoint<T>(xs: seq<T>, p: T -> bool, q: T -> bool)
    requires forall i :: 0 <= i < |xs| ==> !(p(xs[i]) && q(xs[i]))
    ensures Count(xs, p) + Count(xs, q) == Count(xs, Either(p, q))
  {
    if xs != [] {
      CountDisjoint(xs[1..], p, q);
    }
  }

  /** A weaker condition counts at least as many rows. */
  lemma {:induction false} CountMonotone<T>(xs: seq<T>, p: T -> bool, q: T -> bool)
    requires forall i :: 0 <= i < |xs| ==> p(xs[i]) ==> q(xs[i])
    ensures Count(xs, p) <= Count(xs, q)
  {
    if xs != [] {
      CountMonotone(xs[1..], p, q);
    }
  }

  // ---------------------------------------------------------------- conditions

  function HasStatus<T>(status: string, statusOf: T -> string): T -> bool {
    x => statusOf(x) == status
  }

  function ProjectStatus(p: ProjectRow): string { p.status }
  function TaskStatus(t: TaskRow): string { t.status }

  /** `due_date < CURRENT_DATE AND status != 'completed'`. */
  predicate Overdue(today: Date, t: TaskRow) {
    t.dueDate.Some? && t.dueDate.value < today && t.status != "completed"
  }

  /** `due_date = CURRENT_DATE AND status != 'completed'`. */
  predicate DueToday(today: Date, t: TaskRow) {
    t.dueDate.Some? && t.dueDate.value == today && t.status != "completed"
  }

  /** The `overdue_tasks` and `due_today` conditions at a given date. */
  function OverdueOn(today: Date): TaskRow -> bool { t => Overdue(today, t) }
  function DueTodayOn(today: Date): TaskRow -> bool { t => DueToday(today, t) }

  /** Open tasks whose due date has been reached. */
  predicate DueByToday(today: Date, t: TaskRow) {
    t.dueDate.Some? && t.dueDate.value <= today && t.status != "completed"
  }

  /** No task is both overdue and due today; together they are the open tasks due by today,
      so the two counts never add up to more than the tasks there are. */
  lemma OverdueAndDueTodayPartition(tasks: seq<TaskRow>, today: Date)
    ensures Count(tasks, OverdueOn(today)) + Count(tasks, DueTodayOn(today)) ==
            Count(tasks, t => DueByToday(today, t))
    ensures Count(tasks, OverdueOn(today)) + Count(tasks, DueTodayOn(today)) <= |tasks|
  {
    var o, d := OverdueOn(today), DueTodayOn(today);
    CountDisjoint(tasks, o, d);
    CountSame(tasks, Either(o, d), t => DueByToday(today, t));
  }

  lemma {:induction false} CountSame<T>(xs: seq<T>, p: T -> bool, q: T -> bool)
    requires forall i :: 0 <= i < |xs| ==> p(xs[i]) == q(xs[i])
    ensures Count(xs, p) == Count(xs, q)
  {
    CountMonotone(xs, p, q);
    CountMonotone(xs, q, p);
  }

  /** A task without a due date is neither overdue nor due today, whatever its status. */
  lemma NoDueDateIsNeverLate(today: Date, t: TaskRow)
    requires t.dueDate.None?
    ensures !Overdue(today, t) && !DueToday(today, t)
  {
  }

  // ---------------------------------------------------------------- performance

  lemma MulMonotone(k: nat, x: nat, y: nat)
    requires x <= y
    ensures k * x <= k * y
  {
    assert k * y == k * x + k * (y - x);
  }

  lemma DivideAbove(a: nat, d: nat, q: nat)
    requires d > 0 && q * d <= a
    ensures q <= a / d
  {
    var p := a / d;
    assert d * (p + 1) == d * p + d;
    if p < q {
      MulMonotone(d, p + 1, q);
    }
  }

  lemma DivideBelow(a: nat, d: nat, q: nat)
    requires d > 0 && a < q * d
    ensures a / d < q
  {
  }

  /** The arithmetic of rounding 100·completed/count to the nearest integer as
      (200·completed + count) div (2·count). */
  lemma RoundedPercent(completed: nat, count: nat)
    requires 0 < count && completed <= count
    ensures var p := (200 * completed + count) / (2 * count);
            -(count as int) <= 200 * completed - 2 * count * p < count &&
            p <= 100 && (completed == count ==> p == 100)
  {
    var d := 2 * count;
    var a := 200 * completed + count;
    var p := a / d;
    var r := a % d;
    assert a == d * p + r && 0 <= r < d;
    assert 2 * count * p == d * p;
    DivideBelow(a, d, 101);
    if completed == count {
      DivideAbove(a, d, 100);
    }
  }

  /** `ROUND(completed * 100.0 / count, 0)`, or 0 when no task is assigned. Postgres
      `numeric` is exact and rounds halves away from zero, so the result is the integer
      nearest to 100·completed/count, halves rounded up. */
  function Performance(completed: nat, count: nat): (p: nat)
    requires completed <= count
    ensures count == 0 ==> p == 0
    ensures count > 0 ==> -(count as int) <= 200 * completed - 2 * count * p < count
    ensures p <= 100
    ensures completed == count && count > 0 ==> p == 100
  {
    if count == 0 then 0
    else
      RoundedPercent(completed, count);
      (200 * completed + count) / (2 * count)
  }

  /** `parseInt(performance) || 94`: a computed 0 is shown as 94. */
  function ReportedPerformance(p: nat): (r: nat)
    ensures p == 0 ==> r == 94
    ensures p != 0 ==> r == p
  {
    if p == 0 then 94 else p
  }

  function Assigned(t: TaskRow): bool { t.assigneeId.Some? }
  function AssignedAndCompleted(t: TaskRow): bool { t.assigneeId.Some? && t.status == "completed" }

  /** The performance over the tasks that have an assignee. */
  function TeamPerformance(tasks: seq<TaskRow>): (p: nat)
    ensures p <= 100
  {
    CountMonotone(tasks, AssignedAndCompleted, Assigned);
    Performance(Count(tasks, AssignedAndCompleted), Count(tasks, Assigned))
  }

  // ---------------------------------------------------------------- the handler

  datatype Overview = Overview(totalProjects: nat, activeProjects: nat, pendingTasks: nat,
                               tasksDueToday: nat, overdueTasks: nat, teamPerformance: nat,
                               totalMembers: nat)

  /** A row of `project_health`: `id, name, progress, status`. */
  datatype HealthRow = HealthRow(id: nat, name: string, progress: int, status: string)

  /** A row of `recent_tasks`: `t.id, t.title, t.status, t.due_date`. */
  datatype RecentTask = RecentTask(id: nat, title: string, status: string, dueDate: Option<Date>)

  datatype DashboardData = DashboardData(overview: Overview, recentTasks: seq<RecentTask>,
                                         projectHealth: seq<HealthRow>)

  const StatsFailed := "Failed to fetch dashboard statistics"

  /** `LIMIT 5`. */
  function TopFive<T>(xs: seq<T>): (r: seq<T>)
    ensures |r| <= 5 && (|xs| >= 5 ==> |r| == 5) && (|xs| < 5 ==> r == xs)
    ensures forall i :: 0 <= i < |r| ==> r[i] == xs[i]
  {
    if |xs| <= 5 then xs else xs[..5]
  }

  function Recent(t: TaskRow): RecentTask {
    RecentTask(t.id, t.title, t.status, t.dueDate)
  }

  /** The selected columns of the first five tasks. */
  function RecentTasks(tasks: seq<TaskRow>): (r: seq<RecentTask>)
    ensures |r| == if |tasks| < 5 then |tasks| else 5
    ensures forall i :: 0 <= i < |r| ==> r[i] == Recent(tasks[i])
  {
    var top := TopFive(tasks);
    seq(|top|, i requires 0 <= i < |top| => Recent(top[i]))
  }

  function Health(p: ProjectRow): HealthRow {
    HealthRow(p.id, p.name, p.progress, p.status)
  }

  function NotCompleted(p: ProjectRow): bool { p.status != "completed" }

  function HealthRows(projects: seq<ProjectRow>): (r: seq<HealthRow>)
    ensures |r| == if Count(projects, NotCompleted) < 5 then Count(projects, NotCompleted) else 5
    ensures forall i :: 0 <= i < |r| ==> r[i].status != "completed" &&
                                          exists p :: p in projects && r[i] == Health(p)
  {
    var open := TopFive(Filter(projects, NotCompleted));
    assert forall i :: 0 <= i < |open| ==> NotCompleted(open[i]) && open[i] in projects;
    var r := seq(|open|, i requires 0 <= i < |open| => Health(open[i]));
    assert forall i :: 0 <= i < |r| ==> r[i] == Health(open[i]) && open[i] in projects;
    r
  }

  function Dashboard(s: Snapshot, today: Date): (r: Response<DashboardData>)
    ensures r.status == 200 <==> s.up
    ensures !s.up ==> r == Error(500, StatsFailed)
    ensures s.up ==>
              r.body.Success? &&
              var o := r.body.data.overview;
              o.totalProjects == |s.projects| &&
              o.activeProjects == Count(s.projects, HasStatus("in_progress", ProjectStatus)) &&
              o.pendingTasks == Count(s.tasks, HasStatus("pending", TaskStatus)) &&
              o.tasksDueToday == Count(s.tasks, DueTodayOn(today)) &&
              o.overdueTasks == Count(s.tasks, OverdueOn(today)) &&
              o.overdueTasks + o.tasksDueToday == Count(s.tasks, t => DueByToday(today, t)) &&
              o.overdueTasks + o.tasksDueToday <= |s.tasks| &&
              o.teamPerformance == ReportedPerformance(TeamPerformance(s.tasks)) &&
              1 <= o.teamPerformance <= 100 &&
              o.totalMembers == |s.users| &&
              r.body.data.recentTasks == RecentTasks(s.tasks) &&
              r.body.data.projectHealth == HealthRows(s.projects)
  {
    if !s.up then Error(500, StatsFailed)
    else
      OverdueAndDueTodayPartition(s.tasks, today);
      var overview := Overview(
        |s.projects|,
        Count(s.projects, HasStatus("in_progress", ProjectStatus)),
        Count(s.tasks, HasStatus("pending", TaskStatus)),
        Count(s.tasks, DueTodayOn(today)),
        Count(s.tasks, OverdueOn(today)),
        ReportedPerformance(TeamPerformance(s.tasks)),
        |s.users|);
      Ok(200, DashboardData(overview, RecentTasks(s.tasks), HealthRows(s.projects)))
  }

  /** When no assigned task is completed, the computed performance is 0 and the dashboard
      reports 94 instead. */
  lemma NothingCompletedShows94(tasks: seq<TaskRow>)
    requires forall i :: 0 <= i < |tasks| ==> !AssignedAndCompleted(tasks[i])
    ensures ReportedPerformance(TeamPerformance(tasks)) == 94
  {
    CountMonotone(tasks, AssignedAndCompleted, t => false);
    ZeroCount(tasks);
  }

  /** When no assigned task is completed, the dashboard's `team_performance` is 94. */
  lemma DashboardShows94(s: Snapshot, today: Date)
    requires s.up
    requires forall i :: 0 <= i < |s.tasks| ==> !AssignedAndCompleted(s.tasks[i])
    ensures Dashboard(s, today).body.Success?
    ensures Dashboard(s, today).body.data.overview.teamPerformance == 94
  {
    NothingCompletedShows94(s.tasks);
  }

  /** A condition no row meets counts nothing. */
  lemma {:induction false} ZeroCount(xs: seq<TaskRow>)
    ensures Count(xs, (t: TaskRow) => false) == 0
  {
    if xs != [] {
      ZeroCount(xs[1..]);
    }
  }
}
