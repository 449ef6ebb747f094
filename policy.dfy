/** The access-control policy as one table: the capability record of each
    role, assembled from the route table and the per-page predicates, and
    the facts that tie the pages' rules together. */
module Policy {
  import opened Types
  import Seqs
  import App
  import Tasks
  import Tickets
  import Machines
  import MachineInstallation
  import DashboardLayout

  /** The declared paths the route table opens to the role, in table order. */
  function Pages(r: Role): seq<string> {
    Seqs.Filter(p => App.RoleOpens(r, p), App.DeclaredPaths)
  }

  /** User management is read off the sidebar's /users link. */
  predicate ManagesUsers(r: Role) {
    "/users" in DashboardLayout.NavPaths(DashboardLayout.NavLinks(Some(r)))
  }

  /** The capability record of a role; installing means filling the
      installation form. */
  function Access(r: Role): (a: RoleAccess)
    ensures a.role == r
    ensures a.canCreateTickets != a.canCloseTickets
    ensures a.canInstallMachines ==> !Machines.CanAddMachine(Some(r))
  {
    RoleAccess(
      r,
      Pages(r),
      ManagesUsers(r),
      Tasks.CanAssignTasks(Some(r)),
      Tickets.CanCreateTickets(Some(r)),
      Tickets.CanCloseTickets(Some(r)),
      MachineInstallation.CanFillForm(Some(r)))
  }

  /** A page is in the record exactly when the table declares it and
      opens it to the role. */
  lemma AccessPagesMembers(r: Role, p: string)
    ensures p in Pages(r) <==> p in App.DeclaredPaths && App.RoleOpens(r, p)
  {
    Seqs.FilterMembers(p => App.RoleOpens(r, p), App.DeclaredPaths, p);
  }

  /** The public and main pages are in every role's record. */
  lemma OpenPagesInAccess(r: Role, p: string)
    requires p in ["/login", "/register", "/unauthorized", "/dashboard", "/machines", "/tasks", "/tickets"]
    ensures p in Pages(r)
  {
    AccessPagesMembers(r, p);
    App.OpenToEveryRole(r, p);
  }

  /** The installation form is in the record unless the role is dealer
      admin. */
  lemma InstallationPageInAccess(r: Role)
    ensures "/machine-installation" in Pages(r) <==> r != DealerAdmin
  {
    AccessPagesMembers(r, "/machine-installation");
    App.MachineInstallationAccess(false, Some(User("", "", "", r, None, None)));
  }

  /** The bare redirect is in no role's record. */
  lemma RedirectNotInAccess(r: Role)
    ensures "/" !in Pages(r)
  {
    AccessPagesMembers(r, "/");
  }

  /** The flags of the record: the three admins manage users, everyone but
      the dealer employee assigns tasks, the dealer roles raise tickets and
      the others close them, the employees install. */
  lemma AccessFlags(r: Role)
    ensures Access(r).role == r && Access(r).canAccessPages == Pages(r)
    ensures Access(r).canManageUsers <==> r in {ApplicationAdmin, CompanyAdmin, DealerAdmin}
    ensures Access(r).canAssignTasks <==> r != DealerEmployee
    ensures Access(r).canCreateTickets <==> r in {DealerAdmin, DealerEmployee}
    ensures Access(r).canCloseTickets <==> r in {ApplicationAdmin, CompanyAdmin, CompanyEmployee}
    ensures Access(r).canInstallMachines <==> r in {CompanyEmployee, DealerEmployee}
  {
    DashboardLayout.SidebarExtras(r);
    RoleCases(r);
  }

  /** Ticket roles split the five roles in two: every role either raises
      tickets or closes them, never both; without a user, neither. */
  lemma TicketRolesPartition(r: Role)
    ensures Tickets.CanCreateTickets(Some(r)) != Tickets.CanCloseTickets(Some(r))
    ensures !Tickets.CanCreateTickets(None) && !Tickets.CanCloseTickets(None)
  {
  }

  /** The two installation capabilities never meet: the admins who may start
      an installation may not fill the form, and the employees who fill it
      may not start one. Both groups reach the form's route; the dealer
      admin has neither and is refused the route. */
  lemma InstallationRolesDisjoint(r: Role)
    ensures !(Machines.CanAddMachine(Some(r)) && MachineInstallation.CanFillForm(Some(r)))
    ensures Machines.CanAddMachine(Some(r)) || MachineInstallation.CanFillForm(Some(r))
            ==> App.RoleOpens(r, "/machine-installation")
    ensures !Machines.CanAddMachine(Some(r)) && !MachineInstallation.CanFillForm(Some(r)) <==> r == DealerAdmin
    ensures App.RoleOpens(r, "/machine-installation") <==> r != DealerAdmin
  {
    RoleCases(r);
  }

  /** An admin who opens the installation form from the machine list finds
      every input and the submit button disabled. */
  lemma AdminsGetReadOnlyForm(r: Role, isSubmitting: bool, field: string)
    requires Machines.CanAddMachine(Some(r))
    requires field in MachineInstallation.EditableFields
    ensures MachineInstallation.FieldDisabled(Some(r), isSubmitting, field)
    ensures MachineInstallation.SubmitDisabled(Some(r), isSubmitting)
  {
  }

  /** A signed-in user following a sidebar link is never sent to /login or
      /unauthorized; the link leads to the not-found page exactly for
      /users, /companies and /dealers, which the route table does not
      declare. */
  lemma SidebarLinksResolve(u: User, i: int)
    requires 0 <= i < |DashboardLayout.NavLinks(Some(u.role))|
    ensures App.Render(DashboardLayout.NavLinks(Some(u.role))[i].path, false, Some(u)).Show?
    ensures App.Render(DashboardLayout.NavLinks(Some(u.role))[i].path, false, Some(u)) == App.Show(App.NotFoundPage)
            <==> DashboardLayout.NavLinks(Some(u.role))[i].path in {"/users", "/companies", "/dealers"}
  {
    RoleCases(u.role);
  }

  /** Every declared page in a role's sidebar is one of its pages. */
  lemma SidebarWithinAccess(r: Role, p: string)
    requires p in DashboardLayout.NavPaths(DashboardLayout.NavLinks(Some(r)))
    requires p in App.DeclaredPaths
    ensures p in Pages(r)
  {
    DashboardLayout.SidebarCore(Some(r));
    assert p != "/machine-installation" && p != "/";
    assert p in ["/login", "/register", "/unauthorized", "/dashboard", "/machines", "/tasks", "/tickets"];
    OpenPagesInAccess(r, p);
  }
}
