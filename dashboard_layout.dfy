/** The dashboard frame: the sidebar links for the signed-in role, the role
    badge's colour group and display name, and the logout button. */
module DashboardLayout {
  import opened Types
  import Seqs
  import AuthContext

  datatype NavLink = NavLink(path: string, caption: string)

  /** The sidebar, per role; no links without a role. */
  function NavLinks(role: Option<Role>): (links: seq<NavLink>)
    ensures links == [] <==> role.None?
    ensures role.Some? ==> 4 <= |links| <= 7 && links[0] == NavLink("/dashboard", "Dashboard")
    ensures role.Some? ==> links[|links| - 1] == NavLink("/tickets", "Tickets")
  {
    match role
    case Some(ApplicationAdmin) =>
      [NavLink("/dashboard", "Dashboard"), NavLink("/users", "Users"), NavLink("/companies", "Companies"),
       NavLink("/dealers", "Dealers"), NavLink("/machines", "Machines"), NavLink("/tasks", "Tasks"),
       NavLink("/tickets", "Tickets")]
    case Some(CompanyAdmin) =>
      [NavLink("/dashboard", "Dashboard"), NavLink("/users", "Employees"), NavLink("/dealers", "Dealers"),
       NavLink("/machines", "Machines"), NavLink("/tasks", "Tasks"), NavLink("/tickets", "Tickets")]
    case Some(CompanyEmployee) =>
      [NavLink("/dashboard", "Dashboard"), NavLink("/machines", "Machines"), NavLink("/tasks", "Tasks"),
       NavLink("/tickets", "Tickets")]
    case Some(DealerAdmin) =>
      [NavLink("/dashboard", "Dashboard"), NavLink("/users", "Employees"), NavLink("/machines", "Machines"),
       NavLink("/tasks", "Tasks"), NavLink("/tickets", "Tickets")]
    case Some(DealerEmployee) =>
      [NavLink("/dashboard", "Dashboard"), NavLink("/machines", "Machines"), NavLink("/tasks", "Tasks"),
       NavLink("/tickets", "Tickets")]
    case None => []
  }

  /** The link targets, in sidebar order. */
  function NavPaths(links: seq<NavLink>): seq<string> {
    seq(|links|, i requires 0 <= i < |links| => links[i].path)
  }

  /** Every role's sidebar links the four main pages, without repeats, and
      never the installation form or the bare root; it opens on the
      dashboard and links nothing outside the seven sidebar pages; without
      a role it is empty. */
  lemma SidebarCore(role: Option<Role>)
    ensures role.None? <==> NavLinks(role) == []
    ensures role.Some? ==> forall p :: p in ["/dashboard", "/machines", "/tasks", "/tickets"] ==> p in NavPaths(NavLinks(role))
    ensures "/machine-installation" !in NavPaths(NavLinks(role)) && "/" !in NavPaths(NavLinks(role))
    ensures forall i, j :: 0 <= i < j < |NavLinks(role)| ==> NavPaths(NavLinks(role))[i] != NavPaths(NavLinks(role))[j]
    ensures forall p :: p in NavPaths(NavLinks(role)) ==> p in SidebarOrder
    ensures role.Some? ==> NavPaths(NavLinks(role))[0] == "/dashboard"
  {
    if role.Some? {
      var r := role.value;
      var ps := NavPaths(NavLinks(role));
      SidebarDistinct(r);
      forall p | p in ["/dashboard", "/machines", "/tasks", "/tickets"] ensures p in ps {
        SidebarHas(r, p);
      }
      forall p | p in ps ensures p in SidebarOrder {
        SidebarHas(r, p);
      }
      SidebarHas(r, "/machine-installation");
      SidebarHas(r, "/");
    }
  }

  /** The extra links: /users for the three admins (labelled "Employees"
      for the company and dealer admins), /dealers for the application and
      company admins, /companies only for the application admin. */
  lemma {:induction false} SidebarExtras(r: Role)
    ensures "/users" in NavPaths(NavLinks(Some(r))) <==> r in {ApplicationAdmin, CompanyAdmin, DealerAdmin}
    ensures NavLink("/users", "Employees") in NavLinks(Some(r)) <==> r in {CompanyAdmin, DealerAdmin}
    ensures "/dealers" in NavPaths(NavLinks(Some(r))) <==> r in {ApplicationAdmin, CompanyAdmin}
    ensures "/companies" in NavPaths(NavLinks(Some(r))) <==> r == ApplicationAdmin
  {
    SidebarHas(r, "/users");
    SidebarHas(r, "/dealers");
    SidebarHas(r, "/companies");
    match r
    case ApplicationAdmin =>
      assert NavLinks(Some(r))[1] == NavLink("/users", "Users");
    case CompanyAdmin =>
    case CompanyEmployee =>
    case DealerAdmin =>
    case DealerEmployee =>
  }

  /** The seven sidebar pages in the order every sidebar lists them. */
  const SidebarOrder: seq<string> := ["/dashboard", "/users", "/companies", "/dealers", "/machines", "/tasks", "/tickets"]

  /** Which sidebar pages a role links: the four main pages for everyone,
      and the extras of `SidebarExtras`. */
  predicate Linked(r: Role, p: string) {
    p in {"/dashboard", "/machines", "/tasks", "/tickets"}
    || (p == "/users" && r in {ApplicationAdmin, CompanyAdmin, DealerAdmin})
    || (p == "/dealers" && r in {ApplicationAdmin, CompanyAdmin})
    || (p == "/companies" && r == ApplicationAdmin)
  }

  /** No page appears twice in the common order. */
  lemma SidebarOrderDistinct()
    ensures Seqs.Distinct(SidebarOrder)
  {
  }

  /** `Linked` for one role, as a filter test. */
  function LinkedBy(r: Role): string -> bool {
    p => Linked(r, p)
  }

  /** Each role's sidebar is the common order with the pages the role does
      not link dropped. */
  lemma {:induction false} SidebarIsOrderFiltered(r: Role)
    ensures NavPaths(NavLinks(Some(r))) == Seqs.Filter(LinkedBy(r), SidebarOrder)
    ensures forall p :: p in NavPaths(NavLinks(Some(r))) <==> p in SidebarOrder && Linked(r, p)
  {
    Seqs.FilterSeven(LinkedBy(r), SidebarOrder);
    ExtrasKept(r);
    SidebarShape(r);
    forall p
      ensures p in NavPaths(NavLinks(Some(r))) <==> p in SidebarOrder && Linked(r, p)
    {
      Seqs.FilterMembers(LinkedBy(r), SidebarOrder, p);
    }
  }

  /** One page at a time: a role's sidebar links a page exactly when it is
      in the common order and the role links it. */
  lemma SidebarHas(r: Role, p: string)
    ensures p in NavPaths(NavLinks(Some(r))) <==> p in SidebarOrder && Linked(r, p)
  {
    SidebarIsOrderFiltered(r);
  }

  /** No sidebar repeats a page. */
  lemma SidebarDistinct(r: Role)
    ensures Seqs.Distinct(NavPaths(NavLinks(Some(r))))
  {
    SidebarIsOrderFiltered(r);
    SidebarOrderDistinct();
    Seqs.FilterKeepsDistinct(LinkedBy(r), SidebarOrder);
  }

  /** Which of the three middle pages of the common order `r` keeps. */
  lemma ExtrasKept(r: Role)
    ensures Seqs.Keep(LinkedBy(r), SidebarOrder[1]) == (if r in {ApplicationAdmin, CompanyAdmin, DealerAdmin} then ["/users"] else [])
    ensures Seqs.Keep(LinkedBy(r), SidebarOrder[2]) == (if r == ApplicationAdmin then ["/companies"] else [])
    ensures Seqs.Keep(LinkedBy(r), SidebarOrder[3]) == (if r in {ApplicationAdmin, CompanyAdmin} then ["/dealers"] else [])
  {
  }

  /** Each sidebar as its first page, the role's extras and the last three. */
  lemma SidebarShape(r: Role)
    ensures NavPaths(NavLinks(Some(r))) ==
      ["/dashboard"] + ((if r in {ApplicationAdmin, CompanyAdmin, DealerAdmin} then ["/users"] else [])
      + ((if r == ApplicationAdmin then ["/companies"] else [])
      + ((if r in {ApplicationAdmin, CompanyAdmin} then ["/dealers"] else []) + ["/machines", "/tasks", "/tickets"])))
  {
    var ps := NavPaths(NavLinks(Some(r)));
    match r
    case ApplicationAdmin =>
      assert ps == ["/dashboard", "/users", "/companies", "/dealers", "/machines", "/tasks", "/tickets"];
    case CompanyAdmin =>
      assert ps == ["/dashboard", "/users", "/dealers", "/machines", "/tasks", "/tickets"];
    case CompanyEmployee =>
      assert ps == ["/dashboard", "/machines", "/tasks", "/tickets"];
    case DealerAdmin =>
      assert ps == ["/dashboard", "/users", "/machines", "/tasks", "/tickets"];
    case DealerEmployee =>
      assert ps == ["/dashboard", "/machines", "/tasks", "/tickets"];
  }

  /** The badge colour: one colour for the application admin, one shared by
      the company roles, one shared by the dealer roles, a fallback without
      a role. */
  function RoleColor(role: Option<Role>): (c: string)
    ensures c == "bg-primary" <==> role.None?
    ensures c == "bg-company-DEFAULT" <==> role == Some(CompanyAdmin) || role == Some(CompanyEmployee)
    ensures c == "bg-dealer-DEFAULT" <==> role == Some(DealerAdmin) || role == Some(DealerEmployee)
  {
    match role
    case Some(ApplicationAdmin) => "bg-admin-DEFAULT"
    case Some(CompanyAdmin) => "bg-company-DEFAULT"
    case Some(CompanyEmployee) => "bg-company-DEFAULT"
    case Some(DealerAdmin) => "bg-dealer-DEFAULT"
    case Some(DealerEmployee) => "bg-dealer-DEFAULT"
    case None => "bg-primary"
  }

  /** Which side of the organisation a role belongs to. */
  datatype Side = System | Company | Dealer

  function SideOf(r: Role): Side {
    match r
    case ApplicationAdmin => System
    case CompanyAdmin => Company
    case CompanyEmployee => Company
    case DealerAdmin => Dealer
    case DealerEmployee => Dealer
  }

  /** Two roles share a colour exactly when they are on the same side. */
  lemma {:induction false} ColorGroupsBySide(a: Role, b: Role)
    ensures RoleColor(Some(a)) == RoleColor(Some(b)) <==> SideOf(a) == SideOf(b)
    ensures RoleColor(Some(a)) != RoleColor(None)
  {
    var ca, cb := RoleColor(Some(a)), RoleColor(Some(b));
    if SideOf(a) != SideOf(b) {
      assert ca[3] != cb[3];
    }
  }

  function RoleName(role: Option<Role>): (n: string)
    ensures n == "User" <==> role.None?
  {
    match role
    case Some(ApplicationAdmin) => "System Admin"
    case Some(CompanyAdmin) => "Company Admin"
    case Some(CompanyEmployee) => "Company Employee"
    case Some(DealerAdmin) => "Dealer Admin"
    case Some(DealerEmployee) => "Dealer Employee"
    case None => "User"
  }

  /** Display names tell every role apart, and from the "User" fallback. */
  lemma {:induction false} RoleNamesDistinct(a: Option<Role>, b: Option<Role>)
    ensures RoleName(a) == RoleName(b) <==> a == b
  {
    if a != b && RoleName(a) == RoleName(b) {
      var na, nb := RoleName(a), RoleName(b);
      assert |na| == |nb| && na[0] == nb[0] && na[|na| - 1] == nb[|nb| - 1];
      if a.Some? { RoleCases(a.value); }
      if b.Some? { RoleCases(b.value); }
    }
  }

  /** Logout, then go to /login. */
  method HandleLogout(auth: AuthContext.Session) returns (target: string)
    modifies auth
    ensures auth.user == None && auth.stored == None && auth.isLoading == old(auth.isLoading)
    ensures target == "/login"
  {
    auth.Logout();
    target := "/login";
  }
}
