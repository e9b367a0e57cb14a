/**
 * The authentication context of src/lib/AuthProvider.tsx: the signed-in
 * user, the loading flag and the last error, changed by login, register,
 * logout and updateUser. The router is reduced to the path last pushed;
 * a rejected promise is a `false` result with the error recorded.
 */
module AuthSession {
  import opened Wrappers
  import opened Types
  import TestApi

  const LoginFailed := "邮箱或密码错误"
  const DashboardPath := "/dashboard"
  const HomePath := "/"

  /** The registration draft that register hands to the service: the password is not passed on. */
  function RegistrationDraft(name: string, email: string): (d: UserDraft)
    ensures d.name == Some(name) && d.email == Some(email) && d.password.None?
    ensures d.bio == Some("") && d.role == Some("USER")
  {
    NoUserFields.(name := Some(name), email := Some(email), bio := Some(""), role := Some("USER"))
  }

  /** Updating with no fields leaves the user as it is. */
  lemma OverlayNothing(u: User)
    ensures Overlay(u, NoUserFields) == u
  {
  }

  /** Applying the same update twice is applying it once. */
  lemma OverlayIdempotent(u: User, d: UserDraft)
    ensures Overlay(Overlay(u, d), d) == Overlay(u, d)
  {
  }

  /** Fields absent from the update keep their values; present ones take the new value. */
  lemma OverlayFields(u: User, d: UserDraft)
    ensures var r := Overlay(u, d);
      && (if d.id.Some? then r.id == d.id.value else r.id == u.id)
      && (if d.name.Some? then r.name == d.name.value else r.name == u.name)
      && (if d.email.Some? then r.email == d.email.value else r.email == u.email)
      && (if d.bio.Some? then r.bio == d.bio.value else r.bio == u.bio)
      && (if d.role.Some? then r.role == d.role.value else r.role == u.role)
      && (if d.avatar.Some? then r.avatar == d.avatar else r.avatar == u.avatar)
      && (if d.createdAt.Some? then r.createdAt == d.createdAt.value else r.createdAt == u.createdAt)
      && (if d.password.Some? then r.password == d.password else r.password == u.password)
      && (if d.skills.Some? then r.skills == d.skills else r.skills == u.skills)
  {
  }

  class Session {
    /** The user service the provider calls. */
    const service: TestApi.Store
    var user: Option<User>
    var loading: bool
    var error: Option<string>
    var route: Option<string>

    /** The provider's initial state: nobody signed in, not loading, no error. */
    constructor (service: TestApi.Store)
      ensures this.service == service
      ensures user.None? && !loading && error.None? && route.None?
    {
      this.service := service;
      user := None;
      loading := false;
      error := None;
      route := None;
    }

    /** login: signs in the user the service accepts and goes to the dashboard; otherwise records the error and fails. */
    method Login(email: string, password: string) returns (ok: bool)
      modifies this`user, this`loading, this`error, this`route
      ensures ok <==> TestApi.Login(service, email, password).Some?
      ensures ok ==> user == TestApi.Login(service, email, password) && error.None? && route == Some(DashboardPath)
      ensures !ok ==> user == old(user) && error == Some(LoginFailed) && route == old(route)
      ensures password != TestApi.TestPassword ==> !ok
      ensures !loading
    {
      loading := true;
      error := None;
      var found := TestApi.Login(service, email, password);
      if found.None? {
        error := Some(LoginFailed);
        ok := false;
      } else {
        user := found;
        route := Some(DashboardPath);
        ok := true;
      }
      loading := false;
    }

    /** register: signs in the fresh user the service builds from the name and email, and goes to the dashboard. */
    method Register(name: string, email: string, password: string, now: string)
      modifies this`user, this`loading, this`error, this`route
      ensures user == Some(TestApi.Register(service, RegistrationDraft(name, email), now))
      ensures user.value.name == (if name == "" then "New User" else name)
      ensures user.value.bio == "" && user.value.role == "USER" && user.value.password.None?
      ensures error.None? && !loading && route == Some(DashboardPath)
    {
      loading := true;
      error := None;
      var newUser := TestApi.Register(service, RegistrationDraft(name, email), now);
      user := Some(newUser);
      route := Some(DashboardPath);
      loading := false;
    }

    /** logout: nobody is signed in and the home page is shown. */
    method Logout()
      modifies this`user, this`route
      ensures user.None? && route == Some(HomePath)
      ensures loading == old(loading) && error == old(error)
    {
      user := None;
      route := Some(HomePath);
    }

    /** updateUser: merges the fields into the signed-in user; does nothing when nobody is signed in. */
    method UpdateUser(d: UserDraft)
      modifies this`user
      ensures old(user).None? ==> user.None?
      ensures old(user).Some? ==> user == Some(Overlay(old(user).value, d))
      ensures loading == old(loading) && error == old(error) && route == old(route)
    {
      if user.None? {
        return;
      }
      user := Some(Overlay(user.value, d));
    }
  }
}
