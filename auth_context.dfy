/** The session store: the signed-in user, the loading flag and the one
    persisted slot ("user" in local storage), with the fixed user directory
    that login consults. */
module AuthContext {
  import opened Types

  /** The hard-coded user directory, one account per role. */
  const MockUsers: seq<User> := [
    User("1", "System Admin", "admin@system.com", ApplicationAdmin, None, None),
    User("2", "Company Admin", "admin@company.com", CompanyAdmin, Some("1"), None),
    User("3", "Company Employee", "employee@company.com", CompanyEmployee, Some("1"), None),
    User("4", "Dealer Admin", "admin@dealer.com", DealerAdmin, Some("1"), Some("1")),
    User("5", "Dealer Employee", "employee@dealer.com", DealerEmployee, Some("1"), Some("1"))
  ]

  /** `users.find(u => u.email === email)`: the first user with that email. */
  function FindByEmail(users: seq<User>, email: string): (r: Option<User>)
    ensures r.Some? ==> r.value in users && r.value.email == email
    ensures r.None? <==> forall i :: 0 <= i < |users| ==> users[i].email != email
  {
    if users == [] then None
    else if users[0].email == email then Some(users[0])
    else FindByEmail(users[1..], email)
  }

  /** The found user is the first one carrying the email. */
  lemma {:induction false} FindByEmailFirst(users: seq<User>, email: string, k: int)
    requires 0 <= k < |users| && users[k].email == email
    requires forall j :: 0 <= j < k ==> users[j].email != email
    ensures FindByEmail(users, email) == Some(users[k])
    decreases |users|
  {
    if k > 0 {
      FindByEmailFirst(users[1..], email, k - 1);
    }
  }

  /** A directory in which login is unambiguous and every account carries the
      organisation ids its role needs. */
  ghost predicate WellFormedDirectory(users: seq<User>) {
    DistinctEmails(users) && DistinctRoles(users) && OrganisationIds(users)
  }

  ghost predicate DistinctEmails(users: seq<User>) {
    forall i, j :: 0 <= i < j < |users| ==> users[i].email != users[j].email
  }

  ghost predicate DistinctRoles(users: seq<User>) {
    forall i, j :: 0 <= i < j < |users| ==> users[i].role != users[j].role
  }

  ghost predicate OrganisationIds(users: seq<User>) {
    && (forall i :: 0 <= i < |users| && users[i].role in {CompanyAdmin, CompanyEmployee} ==> users[i].companyId.Some?)
    && (forall i :: 0 <= i < |users| && users[i].role in {DealerAdmin, DealerEmployee} ==>
          users[i].companyId.Some? && users[i].dealerId.Some?)
  }

  /** The directory's emails tell its accounts apart: they differ in length,
      or (the two sixteen-character ones) in the character after "admin@". */
  lemma MockUsersDistinctEmails()
    ensures DistinctEmails(MockUsers)
  {
    var es := [|MockUsers[0].email|, |MockUsers[1].email|, |MockUsers[2].email|, |MockUsers[3].email|, |MockUsers[4].email|];
    assert es == [16, 17, 20, 16, 19];
    assert MockUsers[0].email[6] != MockUsers[3].email[6];
  }

  /** The directory holds the five roles once each. */
  lemma MockUsersDistinctRoles()
    ensures DistinctRoles(MockUsers)
  {
    var rs := [MockUsers[0].role, MockUsers[1].role, MockUsers[2].role, MockUsers[3].role, MockUsers[4].role];
    assert rs == [ApplicationAdmin, CompanyAdmin, CompanyEmployee, DealerAdmin, DealerEmployee];
  }

  /** The directory is well formed. */
  lemma MockUsersWellFormed()
    ensures WellFormedDirectory(MockUsers)
  {
    MockUsersDistinctEmails();
    MockUsersDistinctRoles();
  }

  /** Every role has an account in the directory. */
  lemma MockUsersCoverRoles(r: Role)
    ensures exists i :: 0 <= i < |MockUsers| && MockUsers[i].role == r
  {
    match r
    case ApplicationAdmin => assert MockUsers[0].role == r;
    case CompanyAdmin => assert MockUsers[1].role == r;
    case CompanyEmployee => assert MockUsers[2].role == r;
    case DealerAdmin => assert MockUsers[3].role == r;
    case DealerEmployee => assert MockUsers[4].role == r;
  }

  /** In a directory with distinct emails, looking up a member's email finds
      that member. */
  lemma {:induction false} FindByEmailFindsMember(users: seq<User>, k: int)
    requires DistinctEmails(users)
    requires 0 <= k < |users|
    ensures FindByEmail(users, users[k].email) == Some(users[k])
  {
    FindByEmailFirst(users, users[k].email, k);
  }

  /** Where an awaited step of login or register throws, if anywhere: the
      simulated delay itself, or the storage write after the user was set. */
  datatype Fault = NoFault | DelayFault | StorageFault

  class Session {
    var user: Option<User>
    var isLoading: bool
    /** The persisted slot; `None` when nothing is stored. */
    var stored: Option<User>

    /** Mount: no user yet and loading until the restore step runs. */
    constructor (persisted: Option<User>)
      ensures user == None && isLoading && stored == persisted
    {
      user := None;
      isLoading := true;
      stored := persisted;
    }

    /** `!!user`. */
    predicate IsAuthenticated()
      reads this
      ensures IsAuthenticated() <==> user != None
    {
      user.Some?
    }

    /** The mount effect: adopt a stored user, then stop loading. */
    method Restore()
      modifies this
      ensures !isLoading && stored == old(stored)
      ensures user == if old(stored).Some? then old(stored) else old(user)
      ensures old(stored).Some? ==> IsAuthenticated()
    {
      if stored.Some? {
        user := stored;
      }
      isLoading := false;
    }

    /** Looks the email up in the directory; the password is never read. */
    method Login(email: string, password: string, fault: Fault) returns (ok: bool)
      modifies this
      ensures !isLoading
      ensures ok <==> fault == NoFault && FindByEmail(MockUsers, email).Some?
      ensures user == if fault != DelayFault && FindByEmail(MockUsers, email).Some?
                      then FindByEmail(MockUsers, email) else old(user)
      ensures stored == if ok then user else old(stored)
      ensures ok ==> IsAuthenticated() && user.value.email == email
    {
      isLoading := true;
      // the simulated network delay resumes here
      if fault == DelayFault {
        isLoading := false;
        return false;
      }
      var found := FindByEmail(MockUsers, email);
      if found.Some? {
        user := found;
        if fault == StorageFault {
          // the storage write threw: the catch clause reports failure
          isLoading := false;
          return false;
        }
        stored := found;
        isLoading := false;
        return true;
      }
      isLoading := false;
      return false;
    }

    /** Clears the user and the persisted slot at once. */
    method Logout()
      modifies this
      ensures user == None && stored == None && isLoading == old(isLoading)
      ensures !IsAuthenticated()
    {
      user := None;
      stored := None;
    }

    /** Simulated account creation: writes nothing, so only the delay can
        throw, and it succeeds unless the delay does. */
    method Register(newUser: map<string, string>, fault: Fault) returns (ok: bool)
      modifies this
      ensures !isLoading && user == old(user) && stored == old(stored)
      ensures ok <==> fault != DelayFault
    {
      isLoading := true;
      // the simulated network delay resumes here
      if fault == DelayFault {
        isLoading := false;
        return false;
      }
      isLoading := false;
      return true;
    }
  }
}
