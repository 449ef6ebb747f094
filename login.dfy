/** The login page: the demo-credential buttons and the submit handler with
    its submitting flag. */
module Login {
  import opened Types
  import AuthContext

  datatype Credentials = Credentials(email: string, password: string)

  /** The five demo buttons; any other key fills nothing. */
  function DemoCredentials(key: string): (c: Option<Credentials>)
    ensures c.Some? <==> key in {"admin", "company_admin", "company_employee", "dealer_admin", "dealer_employee"}
    ensures c.Some? ==> c.value.password == "password"
  {
    if key == "admin" then Some(Credentials("admin@system.com", "password"))
    else if key == "company_admin" then Some(Credentials("admin@company.com", "password"))
    else if key == "company_employee" then Some(Credentials("employee@company.com", "password"))
    else if key == "dealer_admin" then Some(Credentials("admin@dealer.com", "password"))
    else if key == "dealer_employee" then Some(Credentials("employee@dealer.com", "password"))
    else None
  }

  /** The role each demo button signs in as. */
  function DemoRole(key: string): Option<Role> {
    if key == "admin" then Some(ApplicationAdmin)
    else if key == "company_admin" then Some(CompanyAdmin)
    else if key == "company_employee" then Some(CompanyEmployee)
    else if key == "dealer_admin" then Some(DealerAdmin)
    else if key == "dealer_employee" then Some(DealerEmployee)
    else None
  }

  /** Every demo button fills an email the directory knows, for the role the
      button names, with the password "password"; every other key fills
      nothing. */
  lemma DemoCredentialsSignIn(key: string)
    ensures DemoCredentials(key).Some? <==> DemoRole(key).Some?
    ensures DemoCredentials(key).Some? ==>
      var found := AuthContext.FindByEmail(AuthContext.MockUsers, DemoCredentials(key).value.email);
      && DemoCredentials(key).value.password == "password"
      && found.Some?
      && Some(found.value.role) == DemoRole(key)
  {
    if DemoCredentials(key).Some? {
      var email := DemoCredentials(key).value.email;
      var users := AuthContext.MockUsers;
      var k := if key == "admin" then 0 else if key == "company_admin" then 1
               else if key == "company_employee" then 2 else if key == "dealer_admin" then 3 else 4;
      AuthContext.MockUsersDistinctEmails();
      AuthContext.FindByEmailFindsMember(users, k);
      assert users[k].email == email;
    }
  }

  datatype SubmitResult = Rejected | Failed | SignedIn(target: string)

  class LoginForm {
    var email: string
    var password: string
    var isSubmitting: bool

    constructor ()
      ensures email == "" && password == "" && !isSubmitting
    {
      email := "";
      password := "";
      isSubmitting := false;
    }

    method FillCredentials(key: string)
      modifies this
      ensures DemoCredentials(key).Some? ==>
        email == DemoCredentials(key).value.email && password == DemoCredentials(key).value.password
      ensures DemoCredentials(key).None? ==> email == old(email) && password == old(password)
      ensures isSubmitting == old(isSubmitting)
    {
      var c := DemoCredentials(key);
      if c.Some? {
        email := c.value.email;
        password := c.value.password;
      }
    }

    /** An empty field aborts before login is called and before the flag is
        set; otherwise login runs, success goes to /dashboard, failure stays,
        and the flag is cleared on every path. */
    method HandleSubmit(auth: AuthContext.Session, fault: AuthContext.Fault) returns (result: SubmitResult)
      modifies this, auth
      ensures email == old(email) && password == old(password)
      ensures result == Rejected <==> old(email) == "" || old(password) == ""
      ensures result == Rejected ==>
        isSubmitting == old(isSubmitting) && auth.user == old(auth.user)
        && auth.isLoading == old(auth.isLoading) && auth.stored == old(auth.stored)
      ensures result != Rejected ==> !isSubmitting && !auth.isLoading
      ensures result != Rejected ==>
        var found := AuthContext.FindByEmail(AuthContext.MockUsers, old(email));
        && auth.user == (if fault != AuthContext.DelayFault && found.Some? then found else old(auth.user))
        && auth.stored == (if result.SignedIn? then auth.user else old(auth.stored))
      ensures result.SignedIn? <==> result != Rejected && fault == AuthContext.NoFault
                                     && AuthContext.FindByEmail(AuthContext.MockUsers, old(email)).Some?
      ensures result.SignedIn? ==> result.target == "/dashboard" && auth.IsAuthenticated() && auth.user.value.email == old(email)
    {
      if email == "" || password == "" {
        return Rejected;
      }
      isSubmitting := true;
      var ok := auth.Login(email, password, fault);
      if ok {
        result := SignedIn("/dashboard");
      } else {
        result := Failed;
      }
      isSubmitting := false;
    }
  }
}
