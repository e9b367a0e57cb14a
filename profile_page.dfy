/**
 * The profile page (src/app/profile/page.tsx): the loaded profile, the
 * edit form over its eight text fields, edit mode, the user's projects and
 * ideas, and the logout dialog. Saving only updates the page's own copy;
 * the confirmation alert is not modelled.
 */
module ProfilePage {
  import opened Wrappers
  import opened Types
  import TestApi
  import AuthSession

  const LoadFailed := "无法加载用户信息"
  const LoginPath := "/login"

  /** A user with the three optional fields the page adds. */
  datatype ExtendedUser = ExtendedUser(base: User, company: Option<string>, location: Option<string>, website: Option<string>)

  /** The edit form: every field a string. */
  datatype ProfileForm = ProfileForm(
    name: string, email: string, bio: string, role: string,
    company: string, location: string, website: string, avatar: string)

  const EmptyForm := ProfileForm("", "", "", "", "", "", "", "")

  /** The `name` attribute of a form input. */
  datatype FormField = Name | Email | Bio | Role | Company | Location | Website | Avatar

  function Get(f: ProfileForm, field: FormField): string {
    match field
    case Name => f.name
    case Email => f.email
    case Bio => f.bio
    case Role => f.role
    case Company => f.company
    case Location => f.location
    case Website => f.website
    case Avatar => f.avatar
  }

  /** handleInputChange: the named field takes the value, every other field keeps its own. */
  function SetField(f: ProfileForm, field: FormField, value: string): (r: ProfileForm)
    ensures Get(r, field) == value
    ensures forall g :: g != field ==> Get(r, g) == Get(f, g)
  {
    match field
    case Name => f.(name := value)
    case Email => f.(email := value)
    case Bio => f.(bio := value)
    case Role => f.(role := value)
    case Company => f.(company := value)
    case Location => f.(location := value)
    case Website => f.(website := value)
    case Avatar => f.(avatar := value)
  }

  /** Two forms that agree on every field are the same form. */
  lemma FormExtensionality(f: ProfileForm, g: ProfileForm)
    requires forall field :: Get(f, field) == Get(g, field)
    ensures f == g
  {
    assert Get(f, Name) == Get(g, Name) && Get(f, Email) == Get(g, Email);
    assert Get(f, Bio) == Get(g, Bio) && Get(f, Role) == Get(g, Role);
    assert Get(f, Company) == Get(g, Company) && Get(f, Location) == Get(g, Location);
    assert Get(f, Website) == Get(g, Website) && Get(f, Avatar) == Get(g, Avatar);
  }

  /** Typing the value a field already holds changes nothing, and a later edit of the same field wins. */
  lemma SetFieldLaws(f: ProfileForm, field: FormField, a: string, b: string)
    ensures SetField(f, field, Get(f, field)) == f
    ensures SetField(SetField(f, field, a), field, b) == SetField(f, field, b)
  {
    FormExtensionality(SetField(f, field, Get(f, field)), f);
    FormExtensionality(SetField(SetField(f, field, a), field, b), SetField(f, field, b));
  }

  /** The form filled from a profile, `''` for each missing field. */
  function FormOf(p: ExtendedUser): ProfileForm {
    ProfileForm(p.base.name, p.base.email, p.base.bio, p.base.role,
                p.company.GetOr(""), p.location.GetOr(""), p.website.GetOr(""), p.base.avatar.GetOr(""))
  }

  /** `{...profileData, ...formData}`: every form field overwrites the profile's. */
  function Saved(p: ExtendedUser, f: ProfileForm): (r: ExtendedUser)
    ensures r.base.id == p.base.id && r.base.createdAt == p.base.createdAt
    ensures r.base.password == p.base.password && r.base.skills == p.base.skills
  {
    ExtendedUser(
      p.base.(name := f.name, email := f.email, bio := f.bio, role := f.role, avatar := Some(f.avatar)),
      Some(f.company), Some(f.location), Some(f.website))
  }

  /** Saving then cancelling leaves the form as it was saved. */
  lemma SaveThenCancel(p: ExtendedUser, f: ProfileForm)
    ensures FormOf(Saved(p, f)) == f
  {
  }

  /** Saving the form the profile was loaded into changes no field the form shows. */
  lemma SaveUnchangedForm(p: ExtendedUser)
    ensures FormOf(Saved(p, FormOf(p))) == FormOf(p)
  {
    SaveThenCancel(p, FormOf(p));
  }

  class ProfileView {
    const service: TestApi.Store
    /** The session's signed-in user and whether the session is still restoring. */
    const user: Option<User>
    const authLoading: bool
    var profile: Option<ExtendedUser>
    var editMode: bool
    var userProjects: seq<Project>
    var userIdeas: seq<Idea>
    var loading: bool
    var error: Option<string>
    var tabValue: int
    var form: ProfileForm
    var logoutDialog: bool
    var redirect: Option<string>

    constructor (service: TestApi.Store, user: Option<User>, authLoading: bool)
      ensures this.service == service && this.user == user && this.authLoading == authLoading
      ensures profile.None? && !editMode && userProjects == [] && userIdeas == [] && loading
      ensures error.None? && tabValue == 0 && form == EmptyForm && !logoutDialog && redirect.None?
    {
      this.service := service;
      this.user := user;
      this.authLoading := authLoading;
      profile := None;
      editMode := false;
      userProjects, userIdeas := [], [];
      loading := true;
      error := None;
      tabValue := 0;
      form := EmptyForm;
      logoutDialog := false;
      redirect := None;
    }

    /**
     * fetchProfileData: waits while the session restores, sends a visitor to
     * the login page, reports an unknown user, and otherwise loads the
     * profile, fills the form and fetches the user's projects and ideas.
     */
    method Load()
      modifies this`profile, this`form, this`userProjects, this`userIdeas, this`loading, this`error, this`redirect
      ensures authLoading ==>
        && profile == old(profile) && form == old(form) && loading == old(loading)
        && error == old(error) && redirect == old(redirect)
        && userProjects == old(userProjects) && userIdeas == old(userIdeas)
      ensures !authLoading && user.None? ==>
        && redirect == Some(LoginPath)
        && profile == old(profile) && form == old(form) && loading == old(loading) && error == old(error)
        && userProjects == old(userProjects) && userIdeas == old(userIdeas)
      ensures !authLoading && user.Some? && TestApi.UsersGetById(service, user.value.id).None? ==>
        && error == Some(LoadFailed) && !loading && profile == old(profile) && form == old(form)
        && userProjects == old(userProjects) && userIdeas == old(userIdeas) && redirect == old(redirect)
      ensures !authLoading && user.Some? && TestApi.UsersGetById(service, user.value.id).Some? ==>
        && profile == Some(ExtendedUser(TestApi.UsersGetById(service, user.value.id).value, None, None, None))
        && form == FormOf(profile.value)
        && userProjects == TestApi.ProjectsGetByUser(service, user.value.id)
        && userIdeas == TestApi.IdeasGetByUser(service, user.value.id)
        && !loading && error == old(error) && redirect == old(redirect)
      ensures editMode == old(editMode) && tabValue == old(tabValue) && logoutDialog == old(logoutDialog)
    {
      if authLoading {
        return;
      }
      if user.None? {
        redirect := Some(LoginPath);
        return;
      }
      loading := true;
      var userData := TestApi.UsersGetById(service, user.value.id);
      if userData.None? {
        error := Some(LoadFailed);
        loading := false;
        return;
      }
      Populate(userData.value, user.value.id);
    }

    /** The success path of fetchProfileData: profile, form, projects and ideas of the user. */
    method Populate(u: User, id: string)
      modifies this`profile, this`form, this`userProjects, this`userIdeas, this`loading
      ensures profile == Some(ExtendedUser(u, None, None, None)) && form == FormOf(profile.value)
      ensures userProjects == TestApi.ProjectsGetByUser(service, id) && userIdeas == TestApi.IdeasGetByUser(service, id)
      ensures !loading
    {
      var p := ExtendedUser(u, None, None, None);
      profile := Some(p);
      form := FormOf(p);
      userProjects := TestApi.ProjectsGetByUser(service, id);
      userIdeas := TestApi.IdeasGetByUser(service, id);
      loading := false;
    }

    /** handleInputChange. */
    method InputChange(field: FormField, value: string)
      modifies this`form
      ensures form == SetField(old(form), field, value)
      ensures profile == old(profile) && editMode == old(editMode) && error == old(error)
    {
      form := SetField(form, field, value);
    }

    /** The edit button. */
    method Edit()
      modifies this`editMode
      ensures editMode
      ensures form == old(form) && profile == old(profile)
    {
      editMode := true;
    }

    /** handleSaveProfile: nothing without a profile; otherwise the form is written into it and edit mode ends. */
    method SaveProfile()
      modifies this`profile, this`editMode
      ensures old(profile).None? ==> profile.None? && editMode == old(editMode)
      ensures old(profile).Some? ==> profile == Some(Saved(old(profile).value, old(form))) && !editMode
      ensures form == old(form) && error == old(error)
    {
      if profile.None? {
        return;
      }
      profile := Some(Saved(profile.value, form));
      editMode := false;
    }

    /** handleCancelEdit: nothing without a profile; otherwise the form is refilled from it and edit mode ends. */
    method CancelEdit()
      modifies this`form, this`editMode
      ensures old(profile).None? ==> form == old(form) && editMode == old(editMode)
      ensures old(profile).Some? ==> form == FormOf(old(profile).value) && !editMode
      ensures profile == old(profile) && error == old(error)
    {
      if profile.None? {
        return;
      }
      form := FormOf(profile.value);
      editMode := false;
    }

    /** handleTabChange. */
    method TabChange(v: int)
      modifies this`tabValue
      ensures tabValue == v
      ensures form == old(form) && profile == old(profile) && editMode == old(editMode)
    {
      tabValue := v;
    }

    /** handleLogout: asks for confirmation. */
    method AskLogout()
      modifies this`logoutDialog
      ensures logoutDialog
      ensures form == old(form) && profile == old(profile) && redirect == old(redirect)
    {
      logoutDialog := true;
    }

    /** confirmLogout: the session signs out, the dialog closes and the page goes to the login page. */
    method ConfirmLogout(session: AuthSession.Session)
      modifies this`logoutDialog, this`redirect, session`user, session`route
      ensures session.user.None? && session.route == Some(AuthSession.HomePath)
      ensures session.loading == old(session.loading) && session.error == old(session.error)
      ensures !logoutDialog && redirect == Some(LoginPath)
      ensures form == old(form) && profile == old(profile)
    {
      session.Logout();
      logoutDialog := false;
      redirect := Some(LoginPath);
    }
  }

  /** Saving, then cancelling, keeps what was typed. */
  method SaveThenCancelKeepsForm(view: ProfileView)
    requires view.profile.Some?
    modifies view`profile, view`editMode, view`form
    ensures view.form == old(view.form) && !view.editMode
  {
    view.SaveProfile();
    view.CancelEdit();
    SaveThenCancel(old(view.profile.value), old(view.form));
  }
}
