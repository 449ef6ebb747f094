# Role-based access control of the machine-management dashboard

This project models the access-control core of a small React dashboard in
which five roles (application admin, company admin, company employee, dealer
admin, dealer employee) manage machines, installation tasks and service
tickets. The model covers:

- the data shapes (`Types`): roles, users, machines, tasks, tickets and the
  capability record `RoleAccess`;
- the route guard (`PrivateRoute`) and the route table (`App`), including the
  role list of the installation route and the not-found fallback;
- the index page's redirect (`Index`);
- the session store (`AuthContext`): a class holding the signed-in user, the
  loading flag and the persisted slot, with restore, login against the fixed
  user directory, logout and register;
- the three list pages (`Tasks`, `Tickets`, `Machines`): the per-role
  capability predicates, the visibility filters (role rule, case-insensitive
  substring search, optional status filter) and, for tasks and tickets, the
  create dialog as a class whose methods edit and submit a draft;
- the installation form (`MachineInstallation`): who may fill it, which
  controls are disabled, field edits, and the submit cycle with its in-flight
  flag;
- the login page (`Login`): demo credentials and the submit handler with its
  submitting flag;
- the dashboard (`Dashboard`) and its frame (`DashboardLayout`): greeting by
  hour, per-role title and figures, sidebar links, badge colour and name,
  logout;
- `Policy`: the capability record of each role assembled from the scattered
  predicates, with the cross-page facts (ticket roles partition the five
  roles, installers and installation starters are disjoint, sidebar links
  never lead to /login or /unauthorized).

Shared helpers: `Seqs` is `Array.prototype.filter` with its membership,
order and conjunction lemmas; `Search` is `toLowerCase` and `includes`, with
`includes` proved equivalent to "occurs at some position"; `Forms` is the
object-spread update of a draft record.

Modelling choices:

- `user?.role` is an `Option<Role>`, with `None` for no user. `Role` has
  exactly the five enum values, so a `switch` default or a chain of failed
  `===` comparisons is reached in the model only when there is no user.
- A status filter is an `Option<string>` read with JavaScript truthiness:
  `None` and `""` pass every record, and any other string must equal the
  status literal.
- Drafts (`Partial<Task>`, `Partial<Ticket>`, the installation form data)
  are `map<string, string>`. A key holding `undefined` is absent, so the
  `assignerId`/`reportedById` key is absent when there is no user.
- The session's persisted slot is an `Option<User>` field; serialisation is
  not modelled.
- Awaited steps of login and register that may throw are selected by a
  `Fault` parameter. `DelayFault` is a rejected delay. `StorageFault` is a
  storage write that throws after the user was already set. In that case
  login returns false while the user stays signed in, as the code does.
- Clock readings (`new Date()`, `getHours()`) are parameters (`today`,
  `hour`).
- `RoleAccess` is declared by the code but never built. `Policy.Access`
  fills it in. The pages are the declared paths the route table opens to
  the role. User management means having the sidebar's /users link.
  Installing means being allowed to fill the installation form.
- With no user, the task and ticket filters do not narrow by role, and the
  machine list never looks at the user.

## Model

| member | source | states |
|---|---|---|
| Types.RoleCases | src/types/index.ts:3-9 | every role is one of the five enum values |
| Types.StatusNamesInjective | src/types/index.ts:39-73 | the four literals of each status union are pairwise distinct, so comparing names is comparing statuses |
| Search.Lower | src/pages/Tasks.tsx:107-109 | lower-casing keeps the length and folds every character independently |
| Search.LowerIdempotent | src/pages/Tasks.tsx:107-109 | lower-casing twice is lower-casing once |
| Search.LowerSlice | src/pages/Tasks.tsx:107-109 | lower-casing commutes with taking a slice |
| Search.Includes | src/pages/Tasks.tsx:108-109 | a needle that is included is no longer than the haystack; the empty needle is included everywhere |
| Search.Matches | src/pages/Tasks.tsx:107-109 | a matching term is no longer than the field; the empty term matches every field |
| Search.StatusPasses | src/pages/Tasks.tsx:111 | no filter or an empty filter passes every status; a non-empty filter passes only the status it names |
| Search.IncludesIff | src/pages/Tasks.tsx:107-109 | `includes` holds exactly when the needle occurs at some position of the haystack |
| Search.EmptyTermMatches | src/pages/Tasks.tsx:107-109 | an empty search term matches every field |
| Search.SubstringMatches | src/pages/Tickets.tsx:93-94 | a term occurring verbatim in a field matches it |
| Search.MatchesIgnoresTermCase | src/pages/Machines.tsx:63-66 | folding the search term first does not change any outcome |
| Seqs.Filter | src/pages/Tasks.tsx:106-126 | the filtered list is no longer than the input and every kept element passes the predicate |
| Seqs.FilterIsSubsequence | src/pages/Tasks.tsx:106-126 | the filtered list is an order-preserving subsequence of the input |
| Seqs.FilterMembers | src/pages/Tickets.tsx:92-114 | an element is kept exactly when it is in the input and passes the predicate |
| Seqs.FilterKeepsAll | src/pages/Machines.tsx:62-71 | when every element passes, the whole list is returned |
| Seqs.FilterCongruent | src/pages/Tickets.tsx:92-114 | predicates that agree on the elements give the same list |
| Seqs.FilterKeepsDistinct | src/components/Layout/DashboardLayout.tsx:51-112 | filtering a list without repeats gives a list without repeats |
| Seqs.FilterConjunction | src/pages/Tasks.tsx:106-126 | filtering by a conjunction equals filtering by one conjunct and then the other |
| Forms.SetField | src/pages/Tasks.tsx:180-185 | the named field takes the new value, one key at most is added, every other field is unchanged |
| AuthContext.FindByEmail | src/context/AuthContext.tsx:78 | a found user is in the directory with that email; nothing is found exactly when no user has the email |
| AuthContext.FindByEmailFirst | src/context/AuthContext.tsx:78 | the lookup returns the first user carrying the email |
| AuthContext.MockUsersDistinctEmails | src/context/AuthContext.tsx:6-43 | no two directory accounts share an email |
| AuthContext.MockUsersDistinctRoles | src/context/AuthContext.tsx:6-43 | no two directory accounts share a role |
| AuthContext.MockUsersWellFormed | src/context/AuthContext.tsx:6-43 | the directory's emails are distinct, its roles are distinct, company roles carry a company id and dealer roles carry both ids |
| AuthContext.MockUsersCoverRoles | src/context/AuthContext.tsx:6-43 | every role has an account in the directory |
| AuthContext.FindByEmailFindsMember | src/context/AuthContext.tsx:78-86 | in a directory with distinct emails, looking up a member's email finds that member |
| AuthContext.Session.constructor | src/context/AuthContext.tsx:57-58 | a new session has no user and is loading; the persisted slot is as found |
| AuthContext.Session.Restore | src/context/AuthContext.tsx:60-67 | a stored user is adopted, otherwise the user is kept; loading always ends |
| AuthContext.Session.Login | src/context/AuthContext.tsx:69-95 | succeeds exactly when the email is in the directory and nothing throws; the password is never read; a found user is set unless the delay threw; storage is written only on success; loading ends on every path |
| AuthContext.Session.IsAuthenticated | src/context/AuthContext.tsx:127 | the session is authenticated exactly when it holds a user |
| AuthContext.Session.Logout | src/context/AuthContext.tsx:97-100 | the user and the persisted slot are cleared, the loading flag is untouched |
| AuthContext.Session.Register | src/context/AuthContext.tsx:102-118 | user and storage never change; succeeds exactly when the delay does not throw; loading ends |
| PrivateRoute.Decide | src/components/PrivateRoute.tsx:21-46 | spinner exactly while loading; /login exactly when loaded without a user; /unauthorized exactly when a user's role is not in a non-empty role list; the outlet otherwise |
| PrivateRoute.EffectNavigation | src/components/PrivateRoute.tsx:15-19 | the effect navigates exactly when loading has ended without a user, and then to /login |
| PrivateRoute.EffectAgreesWithRender | src/components/PrivateRoute.tsx:15-46 | the effect navigates to /login exactly when the render redirects there, and never to /unauthorized |
| App.RouteOf | src/App.tsx:35-67 | / is the only redirect; exactly the five main and installation paths are guarded; only the installation route carries a role list; exactly the undeclared paths fall to the not-found page |
| App.Render | src/App.tsx:35-67 | public routes show their page; a guarded route shows the spinner exactly while loading, shows its page only to a signed-in user, and sends to /login exactly when loaded without a user |
| App.OpenToEveryRole | src/App.tsx:35-48 | the public and main paths are declared and open to every role |
| App.RenderShowsIffRoleOpens | src/App.tsx:35-67 | once loaded, a signed-in user sees a page at a path exactly when the route table opens it to their role |
| App.PublicRoutesIgnoreSession | src/App.tsx:35-37 | /login, /register and /unauthorized render whatever the session |
| App.RootRedirectsToDashboard | src/App.tsx:40 | / always redirects to /dashboard |
| App.MainPagesNeedOnlyAUser | src/App.tsx:43-48 | the four main pages show a spinner while loading, the page to any user, and /login without one |
| App.MachineInstallationAccess | src/App.tsx:51-64 | the installation route is shown to every role but the dealer admin, who is sent to /unauthorized; without a user, to /login |
| App.UndeclaredPathsNotFound | src/App.tsx:67 | any undeclared path renders the not-found page |
| App.NoGuardedPageWhileLoading | src/App.tsx:43-64 | while loading, every guarded path shows the spinner and only public pages are shown |
| Index.IndexNavigation | src/pages/Index.tsx:10-18 | no navigation while loading; /dashboard exactly when loaded and signed in; /login exactly when loaded and signed out |
| Tasks.CanAssignTasks | src/pages/Tasks.tsx:99-103 | true exactly for a user whose role is not dealer employee |
| Tasks.FilteredTasks | src/pages/Tasks.tsx:106-126 | the visible list is no longer than the task list and every task in it passes the role rule, the search and the status filter |
| Tasks.FilteredTasksInStages | src/pages/Tasks.tsx:106-126 | the visible tasks are the search-and-status matches narrowed by the role rule, applied one after the other |
| Tasks.FilteredTasksIsSubsequence | src/pages/Tasks.tsx:106-126 | the visible tasks are an order-preserving subsequence of the task list |
| Tasks.EmployeeSeesAssignedTasks | src/pages/Tasks.tsx:113-116 | an employee sees exactly the matching tasks assigned to them |
| Tasks.DealerAdminSeesOwnTasks | src/pages/Tasks.tsx:118-123 | a dealer admin sees exactly the matching tasks they assigned or were assigned |
| Tasks.UnnarrowedTaskList | src/pages/Tasks.tsx:105-126 | for the two company-wide admins and for no user only search and status decide; an empty search with no status filter shows every task |
| Tasks.AssigneeScenario | src/pages/Tasks.tsx:113-116 | a task assigned to user 3 is shown to employee 3 and hidden from another employee |
| Tasks.FreshTaskDraft | src/pages/Tasks.tsx:89-96 | the reset draft cannot be submitted, holds the assigner key exactly when there is a user (and then the user's id), and is due today |
| Tasks.FreshTaskDraftProperties | src/pages/Tasks.tsx:89-96 | the reset draft names the user as assigner (no key without a user), has medium priority and pending status, and is not submittable |
| Tasks.TaskBoard.constructor | src/pages/Tasks.tsx:88-96 | the dialog starts closed with the fresh draft |
| Tasks.TaskBoard.OpenCreateDialog | src/pages/Tasks.tsx:220-222 | the dialog opens only for a user who may assign tasks; the draft is untouched |
| Tasks.TaskBoard.HandleTaskChange | src/pages/Tasks.tsx:180-185 | only the named draft field changes |
| Tasks.TaskBoard.HandleCreateTask | src/pages/Tasks.tsx:187-212 | succeeds exactly when title, description and assignee are filled; a rejection changes nothing; a success closes the dialog and resets the draft |
| Tickets.CanCreateTickets | src/pages/Tickets.tsx:81-83 | true exactly for the two dealer roles |
| Tickets.CanCloseTickets | src/pages/Tickets.tsx:86-89 | true exactly for a user who cannot raise tickets |
| Tickets.FilteredTickets | src/pages/Tickets.tsx:92-114 | the visible list is no longer than the ticket list and every ticket in it passes the role rule, the search and the status filter |
| Tickets.FilteredTicketsIsSubsequence | src/pages/Tickets.tsx:92-114 | the visible tickets are an order-preserving subsequence of the ticket list |
| Tickets.UnnarrowedTicketList | src/pages/Tickets.tsx:98-103 | company-side roles and no user see every ticket matching search and status |
| Tickets.DealerSeesOwnTickets | src/pages/Tickets.tsx:105-111 | a dealer-side user sees exactly the matching tickets they reported |
| Tickets.ReporterScenario | src/pages/Tickets.tsx:98-111 | a ticket reported by dealer admin 4 is hidden from dealer employee 5 and shown to its reporter and to an application admin |
| Tickets.RowActionFor | src/pages/Tickets.tsx:324-327 | a row button appears exactly for ticket closers on unclosed tickets: "Close" on resolved ones, "Resolve" on open or in-progress ones |
| Tickets.DealersNeverActOnTickets | src/pages/Tickets.tsx:324-327 | dealer roles never get a row action |
| Tickets.FreshTicketDraft | src/pages/Tickets.tsx:73-78 | the reset draft cannot be submitted, holds the reporter key exactly when there is a user (and then the user's id), and is dated today |
| Tickets.FreshTicketDraftProperties | src/pages/Tickets.tsx:73-78 | the reset draft is open, of medium urgency, reported by the user, and becomes submittable exactly once a machine and a description are entered |
| Tickets.TicketBoard.constructor | src/pages/Tickets.tsx:72-78 | the dialog starts closed with the fresh draft |
| Tickets.TicketBoard.OpenCreateDialog | src/pages/Tickets.tsx:206-208 | the dialog opens only for a user who may raise tickets |
| Tickets.TicketBoard.HandleTicketChange | src/pages/Tickets.tsx:168-173 | only the named draft field changes |
| Tickets.TicketBoard.HandleCreateTicket | src/pages/Tickets.tsx:175-198 | succeeds exactly when machine, description and urgency are filled; a rejection changes nothing; a success closes the dialog and resets the draft |
| Machines.CanAddMachine | src/pages/Machines.tsx:59 | true exactly for the application and company admins |
| Machines.NewInstallationTarget | src/pages/Machines.tsx:113-116 | the button leads somewhere exactly when the user may add machines, and then to /machine-installation |
| Machines.FilteredMachines | src/pages/Machines.tsx:62-71 | the listed machines are no more than the input and each matches the search and the status filter |
| Machines.FilteredMachinesMembers | src/pages/Machines.tsx:62-71 | a machine is listed exactly when it matches search and status, whoever the user is, in input order |
| Machines.NoLocationSearch | src/pages/Machines.tsx:63-66 | a machine without a location is found only by model or serial number |
| Machines.StatusFilterSelectsStatus | src/pages/Machines.tsx:68 | a filter naming a status keeps exactly the machines in that status |
| Machines.UnfilteredMachineList | src/pages/Machines.tsx:62-71 | an empty search with no status filter lists every machine in order |
| MachineInstallation.CanFillForm | src/pages/MachineInstallation.tsx:29 | true exactly for the two employee roles |
| MachineInstallation.FieldDisabled | src/pages/MachineInstallation.tsx:88-175 | the installer field is always disabled; every editable input is disabled exactly when the user may not fill the form or a submission is in flight |
| MachineInstallation.SubmitDisabled | src/pages/MachineInstallation.tsx:187-191 | submit is disabled exactly when the user may not fill the form or a submission is in flight |
| MachineInstallation.FreshForm | src/pages/MachineInstallation.tsx:19-26 | the fresh form has exactly the editable fields and the installer, names the user (or "") as installer, is dated today, and is incomplete |
| MachineInstallation.RequiredFieldsOnly | src/pages/MachineInstallation.tsx:19-43 | a fresh form is incomplete and names the user as installer; the handler's check passes exactly when model, serial number and location are filled, whatever notes and date hold |
| MachineInstallation.InstallationForm.constructor | src/pages/MachineInstallation.tsx:18-26 | the form starts fresh and not submitting |
| MachineInstallation.InstallationForm.HandleChange | src/pages/MachineInstallation.tsx:31-34 | only the named field changes |
| MachineInstallation.InstallationForm.HandleSelectChange | src/pages/MachineInstallation.tsx:36-38 | the select updates the named field the same way |
| MachineInstallation.InstallationForm.HandleSubmit | src/pages/MachineInstallation.tsx:40-53 | once the handler runs, a form failing its check aborts without setting the flag; one passing it starts the submission |
| MachineInstallation.InstallationForm.SubmitCompleted | src/pages/MachineInstallation.tsx:56-63 | completion clears the flag and leads to /machines |
| Login.DemoCredentials | src/pages/Login.tsx:60-82 | credentials exist exactly for the five demo keys, always with password "password" |
| Login.DemoCredentialsSignIn | src/pages/Login.tsx:60-82 | each of the five demo keys fills a directory email of the named role with password "password"; other keys fill nothing |
| Login.LoginForm.constructor | src/pages/Login.tsx:12-14 | both fields start empty and not submitting |
| Login.LoginForm.FillCredentials | src/pages/Login.tsx:60-82 | a demo key sets both fields; an unknown key leaves them unchanged |
| Login.LoginForm.HandleSubmit | src/pages/Login.tsx:18-57 | an empty field aborts before login and changes nothing; otherwise the session is updated as by login (the found user is set unless the delay threw, storage is written only on success), success goes to /dashboard signed in as the typed email, failure stays, and the flag ends cleared |
| Dashboard.Greeting | src/pages/Dashboard.tsx:48-53 | morning before 12, afternoon from 12 to before 18, evening from 18 |
| Dashboard.RoleContent | src/pages/Dashboard.tsx:56-124 | every role and no role get four figures; the title is "Dashboard" exactly without a role and "Your Overview" exactly for the two employee roles |
| Dashboard.FourStatsForEveryone | src/pages/Dashboard.tsx:56-124 | every role and no role get four figures; without a role the title is "Dashboard" and every figure is "0" |
| Dashboard.TitlesSeparateRoles | src/pages/Dashboard.tsx:56-124 | two roles share a title exactly when both are employee roles |
| DashboardLayout.NavLinks | src/components/Layout/DashboardLayout.tsx:51-112 | no links exactly without a role; otherwise four to seven links, from Dashboard first to Tickets last |
| DashboardLayout.SidebarCore | src/components/Layout/DashboardLayout.tsx:51-112 | every role's sidebar links the four main pages without repeats, starts at /dashboard, links only the seven sidebar pages and never the installation form or /; no role, no links |
| DashboardLayout.SidebarIsOrderFiltered | src/components/Layout/DashboardLayout.tsx:51-112 | each role's sidebar is the common seven-page order with the pages the role does not link dropped, so the order never differs between roles |
| DashboardLayout.SidebarExtras | src/components/Layout/DashboardLayout.tsx:51-112 | /users for the three admins (captioned "Employees" for company and dealer admins), /dealers for application and company admins, /companies for the application admin only |
| DashboardLayout.RoleColor | src/components/Layout/DashboardLayout.tsx:115-128 | the fallback colour exactly without a role; one colour exactly for the company side and another exactly for the dealer side |
| DashboardLayout.ColorGroupsBySide | src/components/Layout/DashboardLayout.tsx:115-128 | two roles share a badge colour exactly when they are on the same side; no role colour equals the fallback |
| DashboardLayout.RoleName | src/components/Layout/DashboardLayout.tsx:131-146 | the name is "User" exactly without a role |
| DashboardLayout.RoleNamesDistinct | src/components/Layout/DashboardLayout.tsx:131-146 | display names tell every role apart and from the "User" fallback |
| DashboardLayout.HandleLogout | src/components/Layout/DashboardLayout.tsx:45-48 | logout clears user and storage, then leads to /login |
| Policy.Access | src/types/index.ts:76-84 | the record is for the given role; a role either raises or closes tickets; a role that installs machines cannot add them |
| Policy.AccessPagesMembers | src/types/index.ts:76-84 | a path is in a role's page list exactly when the route table declares it and opens it to the role |
| Policy.OpenPagesInAccess | src/App.tsx:35-48 | the public and main pages are in every role's page list |
| Policy.InstallationPageInAccess | src/App.tsx:51-64 | the installation page is in the list exactly for roles other than dealer admin |
| Policy.RedirectNotInAccess | src/App.tsx:40 | the bare redirect is in no role's page list |
| Policy.AccessFlags | src/types/index.ts:76-84 | the record's flags: admins manage users, all but dealer employees assign tasks, dealer roles raise tickets, the others close them, employees install |
| Policy.TicketRolesPartition | src/pages/Tickets.tsx:81-89 | every role either raises or closes tickets, never both; without a user, neither |
| Policy.InstallationRolesDisjoint | src/pages/MachineInstallation.tsx:29 | no role both starts and fills an installation; both groups reach the route; the dealer admin has neither and is refused |
| Policy.AdminsGetReadOnlyForm | src/pages/MachineInstallation.tsx:88-191 | an admin who may add machines finds every input and the submit button disabled |
| Policy.SidebarLinksResolve | src/components/Layout/DashboardLayout.tsx:51-112 | a signed-in user following a sidebar link always sees a page, and it is the not-found page exactly for /users, /companies and /dealers |
| Policy.SidebarWithinAccess | src/components/Layout/DashboardLayout.tsx:51-112 | every declared page in a role's sidebar is in the role's page list |

## Left out

- JSX rendering, badge classes of the status/priority/urgency badges, icons, dialogs' markup, toasts and styling: presentation only.
- The dashboard charts and their mock data: a foreign charting library with floating-point percent labels.
- The Unauthorized and NotFound pages: static presentation; only the routes that lead to them are modelled.
- The Register page: not modelled; only the route that leads to it is. The session's `register` itself is modelled as `AuthContext.Session.Register`.
- The mock task, ticket and machine lists of the pages: the filters are proved for every input list instead.
- Asynchronous scheduling: each awaited step of login and register is one atomic step, with a `Fault` parameter choosing where an exception is raised; only the installation submit keeps its in-flight state between `HandleSubmit` and `SubmitCompleted`.
- Local storage and JSON serialisation: the persisted entry is an `Option<User>` field.
- `Date`, `toISOString` and `getHours`: the current date and hour are parameters.
- Search.Lower: folds ASCII letters only; Unicode case mapping of `toLowerCase` is not modelled.
- AuthContext.Session.Restore: the model adopts only users whose role is one of the five, because `Role` has five values; the code adopts whatever `JSON.parse` yields, and a stored user with any other role string would be authenticated, pass the guard of the four main pages, and see every task and ticket, because the role branches of the filters fall through to "show all" (src/pages/Tasks.tsx:125, src/pages/Tickets.tsx:113).
- App.RouteOf: paths are compared as exact strings and taken to be normalised already; the router's case-insensitive matching and its tolerance of a trailing slash are not modelled.
- React Router matching and navigation, the `useAuth` missing-provider throw and hook lifecycles: a navigation is returned as a target path instead.
- MachineInstallation.InstallationForm.HandleSubmit and Login.LoginForm.HandleSubmit: the browser's own form checks (`required` on the installation date, `required` and `type="email"` on the login email) run before the handler and are not modelled. The model's "complete" is the handler's check only: a form with an empty date starts a submission in the model, and a malformed email reaches login and fails, where the browser would not fire the submit at all.
- Login.LoginForm.HandleSubmit: the catch branch is not modelled, because login catches its own exceptions and never rejects.
- Machines: the optional install fields of a pending machine are not tied to its status, because the source types do not tie them either.
- MachineInstallation.CancelDisabled: carries no contract of its own; it is the in-flight flag, and the cancel button's go-back navigation is router behaviour.
- Policy.Access: the source declares the capability record but never builds one; the model's way of filling its page list and its user-management flag is a reading of the route table and the sidebar, not a rule the source states.
