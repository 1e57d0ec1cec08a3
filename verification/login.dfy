/** The login page: the redirect it performs for a signed-in user and its
    form submission. */
module Login {
  import opened Js
  import opened Records
  import opened Routing
  import opened Auth

  /** The redirect effect: faculty and students go to their dashboards, every
      other role to "/admin-dashboard"; with no user there is no navigation. */
  function LoginRedirect(user: Option<Account>): (target: Option<string>)
    ensures target.None? <==> user.None?
    ensures user.Some? && user.value.role == FacultyRole ==> target == Some("/faculty-dashboard")
    ensures user.Some? && user.value.role == StudentRole ==> target == Some("/student-dashboard")
    ensures user.Some? && user.value.role !in [FacultyRole, StudentRole] ==> target == Some("/admin-dashboard")
  {
    if user.None? then None
    else if user.value.role == FacultyRole then Some("/faculty-dashboard")
    else if user.value.role == StudentRole then Some("/student-dashboard")
    else Some("/admin-dashboard")
  }

  /** Each of the four known roles lands on a page that admits it. */
  lemma LoginLandsWhereAdmitted(u: Account)
    requires u.role in KnownRoles
    ensures LoginRedirect(Some(u)).Some?
    ensures Route(LoginRedirect(Some(u)).value, Some(u)).Show?
  {
  }

  /** Any other role is sent to "/admin-dashboard", which refuses it and sends
      it back to the login page, which redirects it again. */
  lemma LoginBouncesUnknownRoles(u: Account)
    requires u.role !in KnownRoles
    ensures LoginRedirect(Some(u)) == Some("/admin-dashboard")
    ensures Route("/admin-dashboard", Some(u)) == Redirect("/")
    ensures Route("/", Some(u)) == Show(LoginPage)
  {
  }

  datatype Credentials = Credentials(email: string, password: string)

  /** `handleLogin`: post the credentials; only a successful answer signs in,
      with exactly the response body; a failure (an alert) leaves the session
      as it was. The redirect then follows from the new user. */
  method HandleLogin(auth: AuthProvider, email: string, password: string, response: Option<Account>)
    returns (request: Credentials)
    modifies auth
    ensures request == Credentials(email, password)
    ensures response.Some? ==>
      auth.user == response && auth.storage == StoreUser(old(auth.storage), auth.encode(response.value))
    ensures response.None? ==> auth.user == old(auth.user) && auth.storage == old(auth.storage)
    ensures response.Some? && response.value.role in KnownRoles ==>
      Route(LoginRedirect(auth.user).value, auth.user).Show?
  {
    request := Credentials(email, password);
    if response.Some? {
      auth.Login(response.value);
      if response.value.role in KnownRoles {
        LoginLandsWhereAdmitted(response.value);
      }
    }
  }
}
