/** The dashboard: the time-of-day greeting and the role's title and four
    headline figures. */
module Dashboard {
  import opened Types

  /** `hour` stands for the local clock's hour. */
  function Greeting(hour: int): (g: string)
    ensures g == "Good morning" <==> hour < 12
    ensures g == "Good afternoon" <==> 12 <= hour < 18
    ensures g == "Good evening" <==> 18 <= hour
  {
    if hour < 12 then "Good morning"
    else if hour < 18 then "Good afternoon"
    else "Good evening"
  }

  datatype Stat = Stat(title: string, value: string)

  datatype Content = Content(title: string, stats: seq<Stat>)

  function RoleContent(role: Option<Role>): (c: Content)
    ensures |c.stats| == 4
    ensures c.title == "Dashboard" <==> role.None?
    ensures c.title == "Your Overview" <==> role == Some(CompanyEmployee) || role == Some(DealerEmployee)
  {
    match role
    case Some(ApplicationAdmin) =>
      Content("System Overview", [Stat("Total Users", "28"), Stat("Total Companies", "4"),
                                  Stat("Total Dealers", "7"), Stat("Total Machines", "45")])
    case Some(CompanyAdmin) =>
      Content("Company Overview", [Stat("Total Employees", "12"), Stat("Active Dealers", "5"),
                                   Stat("Active Machines", "32"), Stat("Open Tickets", "6")])
    case Some(CompanyEmployee) =>
      Content("Your Overview", [Stat("Assigned Tasks", "8"), Stat("Machines Installed", "15"),
                                Stat("Open Tickets", "3"), Stat("Pending Installation", "2")])
    case Some(DealerAdmin) =>
      Content("Dealer Overview", [Stat("Total Employees", "6"), Stat("Managed Machines", "18"),
                                  Stat("Open Tasks", "4"), Stat("Active Tickets", "2")])
    case Some(DealerEmployee) =>
      Content("Your Overview", [Stat("Assigned Tasks", "5"), Stat("Installations Assisted", "8"),
                                Stat("Open Tickets", "2"), Stat("Pending Tasks", "3")])
    case None =>
      Content("Dashboard", [Stat("Tasks", "0"), Stat("Machines", "0"), Stat("Tickets", "0"), Stat("Users", "0")])
  }

  /** Every role, and no role, gets four figures; without a role the title
      is "Dashboard" and every figure is "0". */
  lemma FourStatsForEveryone(role: Option<Role>)
    ensures |RoleContent(role).stats| == 4
    ensures role.None? ==> RoleContent(role).title == "Dashboard"
    ensures role.None? ==> forall i :: 0 <= i < 4 ==> RoleContent(role).stats[i].value == "0"
  {
  }

  /** Two roles share a title exactly when both are employee roles; the
      no-role title is shared with none. */
  lemma {:induction false} TitlesSeparateRoles(a: Option<Role>, b: Option<Role>)
    ensures RoleContent(a).title == RoleContent(b).title <==>
            a == b || (a in {Some(CompanyEmployee), Some(DealerEmployee)} && b in {Some(CompanyEmployee), Some(DealerEmployee)})
  {
    if a != b && RoleContent(a).title == RoleContent(b).title {
      var ta, tb := RoleContent(a).title, RoleContent(b).title;
      assert |ta| == |tb| && ta[0] == tb[0];
      if a.Some? { RoleCases(a.value); }
      if b.Some? { RoleCases(b.value); }
    }
  }
}
