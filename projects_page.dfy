/** The badge table and card fields of the project list page
    (src/app/dashboard/projects/page.tsx). */
module ProjectsPage {
  import opened Js

  datatype Badge = Badge(caption: string, style: string)

  const KnownStatuses: set<string> := {"in_progress", "planning", "completed", "on_hold"}

  /** `getStatusBadge`. */
  function StatusBadge(status: string): (b: Badge)
    ensures status == "in_progress" ==> b == Badge("Đang thực hiện", "bg-primary")
    ensures status == "planning" ==> b == Badge("Lập kế hoạch", "bg-orange-400")
    ensures status == "completed" ==> b == Badge("Hoàn thành", "bg-emerald-500")
    ensures status == "on_hold" ==> b == Badge("Tạm dừng", "bg-slate-500")
    ensures status !in KnownStatuses ==> b == Badge(status, "bg-primary")
  {
    match status
    case "in_progress" => Badge("Đang thực hiện", "bg-primary")
    case "planning" => Badge("Lập kế hoạch", "bg-orange-400")
    case "completed" => Badge("Hoàn thành", "bg-emerald-500")
    case "on_hold" => Badge("Tạm dừng", "bg-slate-500")
    case _ => Badge(status, "bg-primary")
  }

  /** An unknown status looks like an in-progress project except for its label. */
  lemma UnknownStatusLooksInProgress(status: string)
    requires status !in KnownStatuses
    ensures StatusBadge(status).style == StatusBadge("in_progress").style
    ensures StatusBadge(status).caption == status
  {
  }

  /** The card of a project. */
  datatype Card = Card(client: string, percentClass: string, barClass: string, members: int)

  function CardOf(client: Option<string>, progress: int, memberCount: Option<int>): (c: Card)
    ensures Truthy(client) ==> c.client == client.value
    ensures !Truthy(client) ==> c.client == "Nội bộ"
    ensures c.percentClass == "text-emerald-500" <==> progress == 100
    ensures progress != 100 ==> c.percentClass == "text-primary"
    ensures c.barClass == "bg-emerald-500" <==> progress == 100
    ensures progress != 100 ==> c.barClass == "bg-primary"
    ensures !TruthyInt(memberCount) ==> c.members == 0
    ensures TruthyInt(memberCount) ==> c.members == memberCount.value
  {
    Card(Or(client, "Nội bộ"),
         if progress == 100 then "text-emerald-500" else "text-primary",
         if progress == 100 then "bg-emerald-500" else "bg-primary",
         OrInt(memberCount, 0))
  }
}
