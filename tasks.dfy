/** The tasks page: who may create tasks, which tasks a user sees, and the
    create-task dialog. */
module Tasks {
  import opened Types
  import opened Search
  import opened Forms
  import Seqs

  /** The create-task button is enabled for every role but the dealer
      employee, and never without a user. */
  function CanAssignTasks(role: Option<Role>): (b: bool)
    ensures b <==> role.Some? && role.value != DealerEmployee
  {
    // with no user every `user?.role === ...` comparison is false
    if role.None? then false
    else
      RoleCases(role.value);
      role == Some(ApplicationAdmin) || role == Some(CompanyAdmin) || role == Some(DealerAdmin) || role == Some(CompanyEmployee)
  }

  /** Search over title or description, then the status filter. */
  predicate TaskMatches(t: Task, term: string, statusFilter: Option<string>) {
    (Matches(t.title, term) || Matches(t.description, term)) && StatusPasses(statusFilter, TaskStatusName(t.status))
  }

  /** The role rule: employees see what is assigned to them, a dealer admin
      what they assigned or were assigned; everyone else, and a missing
      user, is not narrowed. */
  predicate RoleSees(user: Option<User>, t: Task) {
    if user.Some? && (user.value.role == CompanyEmployee || user.value.role == DealerEmployee) then
      t.assigneeId == user.value.id
    else if user.Some? && user.value.role == DealerAdmin then
      t.assignerId == user.value.id || t.assigneeId == user.value.id
    else true
  }

  predicate Visible(user: Option<User>, term: string, statusFilter: Option<string>, t: Task) {
    TaskMatches(t, term, statusFilter) && RoleSees(user, t)
  }

  /** `mockTasks.filter(...)`: every shown task is visible, none is invented. */
  function FilteredTasks(tasks: seq<Task>, user: Option<User>, term: string, statusFilter: Option<string>): (r: seq<Task>)
    ensures |r| <= |tasks|
    ensures forall i :: 0 <= i < |r| ==> Visible(user, term, statusFilter, r[i])
  {
    Seqs.Filter(t => Visible(user, term, statusFilter, t), tasks)
  }

  /** The visible list is the search-and-status matches, narrowed further by
      the role rule: the two tests may be applied one after the other. */
  lemma FilteredTasksInStages(tasks: seq<Task>, user: Option<User>, term: string, statusFilter: Option<string>)
    ensures FilteredTasks(tasks, user, term, statusFilter)
            == Seqs.Filter(t => RoleSees(user, t), Seqs.Filter(t => TaskMatches(t, term, statusFilter), tasks))
  {
    Seqs.FilterConjunction(t => TaskMatches(t, term, statusFilter), t => RoleSees(user, t),
                           t => Visible(user, term, statusFilter, t), tasks);
  }

  /** The visible tasks are the input tasks, in their order, minus some. */
  lemma FilteredTasksIsSubsequence(tasks: seq<Task>, user: Option<User>, term: string, statusFilter: Option<string>)
    ensures Seqs.IsSubsequence(FilteredTasks(tasks, user, term, statusFilter), tasks)
  {
    Seqs.FilterIsSubsequence(t => Visible(user, term, statusFilter, t), tasks);
  }

  /** An employee sees exactly the matching tasks assigned to them. */
  lemma EmployeeSeesAssignedTasks(tasks: seq<Task>, u: User, term: string, statusFilter: Option<string>, t: Task)
    requires u.role == CompanyEmployee || u.role == DealerEmployee
    ensures t in FilteredTasks(tasks, Some(u), term, statusFilter) <==>
            t in tasks && TaskMatches(t, term, statusFilter) && t.assigneeId == u.id
  {
    Seqs.FilterMembers(t => Visible(Some(u), term, statusFilter, t), tasks, t);
  }

  /** A dealer admin sees exactly the matching tasks they assigned or were
      assigned. */
  lemma DealerAdminSeesOwnTasks(tasks: seq<Task>, u: User, term: string, statusFilter: Option<string>, t: Task)
    requires u.role == DealerAdmin
    ensures t in FilteredTasks(tasks, Some(u), term, statusFilter) <==>
            t in tasks && TaskMatches(t, term, statusFilter) && (t.assignerId == u.id || t.assigneeId == u.id)
  {
    Seqs.FilterMembers(t => Visible(Some(u), term, statusFilter, t), tasks, t);
  }

  /** For the two company-wide admins, and with no user at all, only search
      and status decide; with an empty search and no status filter that is
      the whole list. */
  lemma UnnarrowedTaskList(tasks: seq<Task>, user: Option<User>, term: string, statusFilter: Option<string>)
    requires user.None? || user.value.role == ApplicationAdmin || user.value.role == CompanyAdmin
    ensures FilteredTasks(tasks, user, term, statusFilter) == Seqs.Filter(t => TaskMatches(t, term, statusFilter), tasks)
    ensures FilteredTasks(tasks, user, "", None) == tasks
  {
    Seqs.FilterCongruent(t => Visible(user, term, statusFilter, t), t => TaskMatches(t, term, statusFilter), tasks);
    forall i | 0 <= i < |tasks|
      ensures Visible(user, "", None, tasks[i])
    {
      EmptyTermMatches(tasks[i].title);
    }
    Seqs.FilterKeepsAll(t => Visible(user, "", None, t), tasks);
  }

  /** A task assigned by user 2 to user 3 is seen by company employee 3 and
      not by company employee 9. */
  lemma AssigneeScenario(t: Task)
    requires t.assignerId == "2" && t.assigneeId == "3"
    ensures FilteredTasks([t], Some(User("3", "Company Employee", "employee@company.com", CompanyEmployee, Some("1"), None)), "", None) == [t]
    ensures FilteredTasks([t], Some(User("9", "Other Employee", "other@company.com", CompanyEmployee, Some("1"), None)), "", None) == []
  {
    EmptyTermMatches(t.title);
  }

  /** The required fields of a new task. */
  predicate TaskDraftComplete(d: Draft) {
    Filled(d, "title") && Filled(d, "description") && Filled(d, "assigneeId")
  }

  /** The draft the dialog starts from and is reset to; `today` stands for
      the current date. The assigner key is absent when there is no user. */
  function FreshTaskDraft(userId: Option<string>, today: string): (d: Draft)
    ensures !TaskDraftComplete(d)
    ensures "assignerId" in d <==> userId.Some?
    ensures userId.Some? ==> d["assignerId"] == userId.value
    ensures "deadline" in d && d["deadline"] == today
  {
    var base := map["title" := "", "description" := "", "deadline" := today, "priority" := "medium", "status" := "pending"];
    if userId.Some? then base["assignerId" := userId.value] else base
  }

  /** A reset draft names the current user as assigner and cannot be
      submitted again until title, description and assignee are filled. */
  lemma FreshTaskDraftProperties(userId: Option<string>, today: string)
    ensures !TaskDraftComplete(FreshTaskDraft(userId, today))
    ensures userId.Some? ==> FreshTaskDraft(userId, today)["assignerId"] == userId.value
    ensures userId.None? ==> "assignerId" !in FreshTaskDraft(userId, today)
    ensures FreshTaskDraft(userId, today)["priority"] == "medium" && FreshTaskDraft(userId, today)["status"] == "pending"
  {
  }

  /** The page's create-task state: the draft and whether the dialog is open. */
  class TaskBoard {
    var newTask: Draft
    var dialogOpen: bool

    constructor (userId: Option<string>, today: string)
      ensures newTask == FreshTaskDraft(userId, today) && !dialogOpen
    {
      newTask := FreshTaskDraft(userId, today);
      dialogOpen := false;
    }

    /** The create button; disabled (so a no-op) without the capability. */
    method OpenCreateDialog(role: Option<Role>)
      modifies this
      ensures dialogOpen == (old(dialogOpen) || CanAssignTasks(role))
      ensures newTask == old(newTask)
    {
      if CanAssignTasks(role) {
        dialogOpen := true;
      }
    }

    method HandleTaskChange(field: string, value: string)
      modifies this
      ensures newTask == SetField(old(newTask), field, value)
      ensures dialogOpen == old(dialogOpen)
    {
      newTask := SetField(newTask, field, value);
    }

    /** Rejects a draft missing a required field, touching nothing; otherwise
        closes the dialog and resets the draft. */
    method HandleCreateTask(userId: Option<string>, today: string) returns (created: bool)
      modifies this
      ensures created <==> TaskDraftComplete(old(newTask))
      ensures !created ==> newTask == old(newTask) && dialogOpen == old(dialogOpen)
      ensures created ==> !dialogOpen && newTask == FreshTaskDraft(userId, today)
    {
      if !Filled(newTask, "title") || !Filled(newTask, "description") || !Filled(newTask, "assigneeId") {
        return false;
      }
      dialogOpen := false;
      newTask := FreshTaskDraft(userId, today);
      return true;
    }
  }
}
