/** Data shapes of the machine-management dashboard: the five roles, signed-in
    users, and the machine, task and ticket records the pages list. */
module Types {

  /** A value that may be missing (`undefined` / `null` / an optional field). */
  datatype Option<+T> = None | Some(value: T) {
    function GetOr(default: T): T {
      if Some? then value else default
    }
  }

  /** The five roles. The order of the constructors encodes no privilege
      ranking: every permission is an explicit per-role table elsewhere. */
  datatype Role = ApplicationAdmin | CompanyAdmin | CompanyEmployee | DealerAdmin | DealerEmployee

  /** A role is one of the five constructors. */
  lemma RoleCases(r: Role)
    ensures r == ApplicationAdmin || r == CompanyAdmin || r == CompanyEmployee || r == DealerAdmin || r == DealerEmployee
  {
    match r
    case ApplicationAdmin =>
    case CompanyAdmin =>
    case CompanyEmployee =>
    case DealerAdmin =>
    case DealerEmployee =>
  }

  datatype User = User(
    id: string,
    name: string,
    email: string,
    role: Role,
    companyId: Option<string>,
    dealerId: Option<string>)

  datatype MachineStatus = Pending | Installed | Servicing | Decommissioned

  datatype Machine = Machine(
    id: string,
    model: string,
    serialNumber: string,
    installationDate: Option<string>,
    installedById: Option<string>,
    location: Option<string>,
    notes: Option<string>,
    status: MachineStatus)

  datatype TaskPriority = Low | Medium | High | Urgent

  datatype TaskStatus = Pending | InProgress | Completed | Cancelled

  datatype Task = Task(
    id: string,
    title: string,
    description: string,
    createdAt: string,
    deadline: string,
    priority: TaskPriority,
    status: TaskStatus,
    assignerId: string,
    assigneeId: string,
    machineId: Option<string>)

  datatype TicketStatus = Open | InProgress | Resolved | Closed

  datatype TicketUrgency = Low | Medium | High | Critical

  datatype Ticket = Ticket(
    id: string,
    machineId: string,
    issueDescription: string,
    dateReported: string,
    reportedById: string,
    assignedToId: Option<string>,
    status: TicketStatus,
    urgency: TicketUrgency,
    resolutionNotes: Option<string>)

  /** The capability record: pages a role may open and its action flags. */
  datatype RoleAccess = RoleAccess(
    role: Role,
    canAccessPages: seq<string>,
    canManageUsers: bool,
    canAssignTasks: bool,
    canCreateTickets: bool,
    canCloseTickets: bool,
    canInstallMachines: bool)

  /** The string literals of the status unions, which the pages' status
      filters compare against. */
  function MachineStatusName(s: MachineStatus): string {
    match s
    case Pending => "pending"
    case Installed => "installed"
    case Servicing => "servicing"
    case Decommissioned => "decommissioned"
  }

  function TaskStatusName(s: TaskStatus): string {
    match s
    case Pending => "pending"
    case InProgress => "in-progress"
    case Completed => "completed"
    case Cancelled => "cancelled"
  }

  function TicketStatusName(s: TicketStatus): string {
    match s
    case Open => "open"
    case InProgress => "in-progress"
    case Resolved => "resolved"
    case Closed => "closed"
  }

  /** Each status union has four distinct literals, so comparing names is
      comparing statuses. */
  lemma StatusNamesInjective(m1: MachineStatus, m2: MachineStatus, t1: TaskStatus, t2: TaskStatus, k1: TicketStatus, k2: TicketStatus)
    ensures MachineStatusName(m1) == MachineStatusName(m2) <==> m1 == m2
    ensures TaskStatusName(t1) == TaskStatusName(t2) <==> t1 == t2
    ensures TicketStatusName(k1) == TicketStatusName(k2) <==> k1 == k2
  {
  }

}
