/** The service-tickets page: who may raise and close tickets, which tickets
    a user sees, the per-row action, and the create-ticket dialog. */
module Tickets {
  import opened Types
  import opened Search
  import opened Forms
  import Seqs

  /** Raising tickets is for the two dealer roles. */
  function CanCreateTickets(role: Option<Role>): (b: bool)
    ensures b <==> role.Some? && (role.value == DealerAdmin || role.value == DealerEmployee)
  {
    role == Some(DealerAdmin) || role == Some(DealerEmployee)
  }

  /** Closing tickets is for the three company-side roles: every signed-in
      role that cannot raise tickets. */
  function CanCloseTickets(role: Option<Role>): (b: bool)
    ensures b <==> role.Some? && !CanCreateTickets(role)
  {
    if role.None? then false
    else
      RoleCases(role.value);
      role == Some(ApplicationAdmin) || role == Some(CompanyAdmin) || role == Some(CompanyEmployee)
  }

  /** Search over the issue description only, then the status filter. */
  predicate TicketMatches(t: Ticket, term: string, statusFilter: Option<string>) {
    Matches(t.issueDescription, term) && StatusPasses(statusFilter, TicketStatusName(t.status))
  }

  /** The role rule: company-side roles see every ticket, dealer roles only
      those they reported; a missing user is not narrowed. */
  predicate RoleSees(user: Option<User>, t: Ticket) {
    if user.Some? && (user.value.role == ApplicationAdmin || user.value.role == CompanyAdmin || user.value.role == CompanyEmployee) then
      true
    else if user.Some? && (user.value.role == DealerAdmin || user.value.role == DealerEmployee) then
      t.reportedById == user.value.id
    else true
  }

  predicate Visible(user: Option<User>, term: string, statusFilter: Option<string>, t: Ticket) {
    TicketMatches(t, term, statusFilter) && RoleSees(user, t)
  }

  /** `mockTickets.filter(...)`: every shown ticket is visible. */
  function FilteredTickets(tickets: seq<Ticket>, user: Option<User>, term: string, statusFilter: Option<string>): (r: seq<Ticket>)
    ensures |r| <= |tickets|
    ensures forall i :: 0 <= i < |r| ==> Visible(user, term, statusFilter, r[i])
  {
    Seqs.Filter(t => Visible(user, term, statusFilter, t), tickets)
  }

  /** The visible tickets are the input tickets, in their order, minus some. */
  lemma FilteredTicketsIsSubsequence(tickets: seq<Ticket>, user: Option<User>, term: string, statusFilter: Option<string>)
    ensures Seqs.IsSubsequence(FilteredTickets(tickets, user, term, statusFilter), tickets)
  {
    Seqs.FilterIsSubsequence(t => Visible(user, term, statusFilter, t), tickets);
  }

  /** Company-side roles, and a missing user, see every ticket that matches
      search and status. */
  lemma UnnarrowedTicketList(tickets: seq<Ticket>, user: Option<User>, term: string, statusFilter: Option<string>)
    requires user.None? || CanCloseTickets(Some(user.value.role))
    ensures FilteredTickets(tickets, user, term, statusFilter) == Seqs.Filter(t => TicketMatches(t, term, statusFilter), tickets)
  {
    Seqs.FilterCongruent(t => Visible(user, term, statusFilter, t), t => TicketMatches(t, term, statusFilter), tickets);
  }

  /** A dealer-side user sees exactly the matching tickets they reported. */
  lemma DealerSeesOwnTickets(tickets: seq<Ticket>, u: User, term: string, statusFilter: Option<string>, t: Ticket)
    requires CanCreateTickets(Some(u.role))
    ensures t in FilteredTickets(tickets, Some(u), term, statusFilter) <==>
            t in tickets && TicketMatches(t, term, statusFilter) && t.reportedById == u.id
  {
    Seqs.FilterMembers(t => Visible(Some(u), term, statusFilter, t), tickets, t);
  }

  /** A ticket reported by dealer admin 4 is hidden from dealer employee 5
      and shown to an application admin whatever the admin's id. */
  lemma ReporterScenario(t: Ticket, adminId: string)
    requires t.reportedById == "4"
    ensures FilteredTickets([t], Some(User("5", "Dealer Employee", "employee@dealer.com", DealerEmployee, Some("1"), Some("1"))), "", None) == []
    ensures FilteredTickets([t], Some(User("4", "Dealer Admin", "admin@dealer.com", DealerAdmin, Some("1"), Some("1"))), "", None) == [t]
    ensures FilteredTickets([t], Some(User(adminId, "System Admin", "admin@system.com", ApplicationAdmin, None, None)), "", None) == [t]
  {
    EmptyTermMatches(t.issueDescription);
  }

  datatype RowAction = Close | Resolve

  /** The row button: shown to ticket closers on tickets not yet closed;
      "Close" on a resolved ticket, "Resolve" on any other. */
  function RowActionFor(role: Option<Role>, status: TicketStatus): (a: Option<RowAction>)
    ensures a.Some? <==> CanCloseTickets(role) && status != Closed
    ensures a == Some(Close) <==> CanCloseTickets(role) && status == Resolved
    ensures a == Some(Resolve) <==> CanCloseTickets(role) && (status == Open || status == TicketStatus.InProgress)
  {
    if CanCloseTickets(role) && status != Closed then
      Some(if status == Resolved then Close else Resolve)
    else None
  }

  /** Dealer users never get a row action; that includes every reporter. */
  lemma DealersNeverActOnTickets(r: Role, status: TicketStatus)
    requires r == DealerAdmin || r == DealerEmployee
    ensures RowActionFor(Some(r), status).None?
  {
  }

  /** The required fields of a new ticket. */
  predicate TicketDraftComplete(d: Draft) {
    Filled(d, "machineId") && Filled(d, "issueDescription") && Filled(d, "urgency")
  }

  /** The draft the dialog starts from and is reset to; `today` stands for
      the current date. The reporter key is absent when there is no user. */
  function FreshTicketDraft(userId: Option<string>, today: string): (d: Draft)
    ensures !TicketDraftComplete(d)
    ensures "reportedById" in d <==> userId.Some?
    ensures userId.Some? ==> d["reportedById"] == userId.value
    ensures "dateReported" in d && d["dateReported"] == today
  {
    var base := map["dateReported" := today, "status" := "open", "urgency" := "medium"];
    if userId.Some? then base["reportedById" := userId.value] else base
  }

  /** A reset draft is open, of medium urgency, reported by the current user,
      and becomes submittable exactly once a machine and a description are
      entered. */
  lemma FreshTicketDraftProperties(userId: Option<string>, today: string, machineId: string, issue: string)
    ensures FreshTicketDraft(userId, today)["status"] == "open" && FreshTicketDraft(userId, today)["urgency"] == "medium"
    ensures userId.Some? ==> FreshTicketDraft(userId, today)["reportedById"] == userId.value
    ensures !TicketDraftComplete(FreshTicketDraft(userId, today))
    ensures TicketDraftComplete(SetField(SetField(FreshTicketDraft(userId, today), "machineId", machineId), "issueDescription", issue))
            <==> machineId != "" && issue != ""
  {
  }

  /** The page's create-ticket state: the draft and whether the dialog is open. */
  class TicketBoard {
    var newTicket: Draft
    var dialogOpen: bool

    constructor (userId: Option<string>, today: string)
      ensures newTicket == FreshTicketDraft(userId, today) && !dialogOpen
    {
      newTicket := FreshTicketDraft(userId, today);
      dialogOpen := false;
    }

    /** The create button; disabled (so a no-op) without the capability. */
    method OpenCreateDialog(role: Option<Role>)
      modifies this
      ensures dialogOpen == (old(dialogOpen) || CanCreateTickets(role))
      ensures newTicket == old(newTicket)
    {
      if CanCreateTickets(role) {
        dialogOpen := true;
      }
    }

    method HandleTicketChange(field: string, value: string)
      modifies this
      ensures newTicket == SetField(old(newTicket), field, value)
      ensures dialogOpen == old(dialogOpen)
    {
      newTicket := SetField(newTicket, field, value);
    }

    /** Rejects a draft missing a required field, touching nothing; otherwise
        closes the dialog and resets the draft. */
    method HandleCreateTicket(userId: Option<string>, today: string) returns (created: bool)
      modifies this
      ensures created <==> TicketDraftComplete(old(newTicket))
      ensures !created ==> newTicket == old(newTicket) && dialogOpen == old(dialogOpen)
      ensures created ==> !dialogOpen && newTicket == FreshTicketDraft(userId, today)
    {
      if !Filled(newTicket, "machineId") || !Filled(newTicket, "issueDescription") || !Filled(newTicket, "urgency") {
        return false;
      }
      dialogOpen := false;
      newTicket := FreshTicketDraft(userId, today);
      return true;
    }
  }
}
