/** The profile page: how a stored role is displayed, the edit form built
    from the stored row, and the load and save cycle. */
module ProfilePage {
  import opened Common
  import opened Avatar

  /** The columns of `profiles` the page uses; every text column is
      nullable. */
  datatype ProfileRow = ProfileRow(
    fullName: Option<string>,
    instituteName: Option<string>,
    bio: Option<string>,
    role: Option<string>,
    avatarUrl: Option<string>)

  /** The badge variants `getRoleBadgeVariant` chooses between. */
  datatype BadgeVariant = DefaultVariant | SecondaryVariant | OutlineVariant

  function RoleBadgeVariant(role: Option<string>): (v: BadgeVariant)
    ensures v == DefaultVariant <==> role == Some("institute")
    ensures v == SecondaryVariant <==> role == Some("participant")
    ensures v == OutlineVariant <==> role != Some("institute") && role != Some("participant")
  {
    if role == Some("institute") then DefaultVariant
    else if role == Some("participant") then SecondaryVariant
    else OutlineVariant
  }

  /** The text inside the role badge. */
  function RoleLabel(role: Option<string>): (shown: string)
    ensures shown == "Institute" <==> role == Some("institute")
    ensures shown == "Participant" <==> role == Some("participant")
    ensures shown == "User" <==> role != Some("institute") && role != Some("participant")
  {
    if role == Some("institute") then "Institute"
    else if role == Some("participant") then "Participant"
    else "User"
  }

  /** The badge's variant and its text always describe the same role
      class: "User" is shown exactly in the outline badge, so "host" and
      "user" look alike here. */
  lemma LabelMatchesVariant(role: Option<string>)
    ensures RoleLabel(role) == "User" <==> RoleBadgeVariant(role) == OutlineVariant
    ensures RoleLabel(role) == "Institute" <==> RoleBadgeVariant(role) == DefaultVariant
    ensures RoleLabel(Some("host")) == RoleLabel(Some("user")) == RoleLabel(None)
  {
  }

  /** The tab values: the first trigger, the second trigger, and the one
      open by default. */
  function SecondTab(role: Option<string>): string {
    if role == Some("institute") then "hosting" else "submissions"
  }

  function DefaultTab(role: Option<string>): (tab: string)
    ensures tab == "hosting" <==> role == Some("institute")
    ensures tab == "battles" <==> role != Some("institute")
  {
    if role == Some("institute") then "hosting" else "battles"
  }

  /** The default tab is always one of the two triggers rendered, so some
      panel is open on first render. */
  lemma DefaultTabIsRendered(role: Option<string>)
    ensures DefaultTab(role) in ["battles", SecondTab(role)]
    ensures DefaultTab(role) == SecondTab(role) <==> role == Some("institute")
  {
  }

  /** The state of the edit form. */
  datatype EditForm = EditForm(fullName: string, instituteName: string, bio: string, role: string)

  const BlankForm: EditForm := EditForm("", "", "", "")

  /** `value || ''` on a nullable text column. */
  function OrEmpty(s: Option<string>): (r: string)
    ensures Truthy(s) ==> r == s.value
    ensures !Truthy(s) ==> r == ""
  {
    if s.Some? then s.value else ""
  }

  /** The form filled from a fetched row: null text becomes "", a null or
      empty role becomes "user". */
  function EditFormFrom(p: ProfileRow): (f: EditForm)
    ensures f.fullName == OrEmpty(p.fullName) && f.instituteName == OrEmpty(p.instituteName) && f.bio == OrEmpty(p.bio)
    ensures f.role == if Truthy(p.role) then p.role.value else "user"
    ensures f.role != ""
  {
    EditForm(OrEmpty(p.fullName), OrEmpty(p.instituteName), OrEmpty(p.bio),
             if Truthy(p.role) then p.role.value else "user")
  }

  /** The row after the update `handleSave` sends: the four form fields
      written as they are, the avatar untouched. */
  function Updated(p: ProfileRow, f: EditForm): (q: ProfileRow)
    ensures q.fullName == Some(f.fullName) && q.instituteName == Some(f.instituteName)
    ensures q.bio == Some(f.bio) && q.role == Some(f.role)
    ensures q.avatarUrl == p.avatarUrl
  {
    ProfileRow(Some(f.fullName), Some(f.instituteName), Some(f.bio), Some(f.role), p.avatarUrl)
  }

  /** Load, save unchanged, load again: the form comes back the same, and
      the stored role is no longer null. */
  lemma SaveUnchangedIsStable(p: ProfileRow)
    ensures EditFormFrom(Updated(p, EditFormFrom(p))) == EditFormFrom(p)
    ensures Truthy(Updated(p, EditFormFrom(p)).role)
  {
  }

  /** Whatever the form holds, saving it and loading again shows it; only
      an empty role is replaced by "user". */
  lemma SavedFormReloads(p: ProfileRow, f: EditForm)
    requires f.role != ""
    ensures EditFormFrom(Updated(p, f)) == f
  {
  }

  /** The roles the edit form's select offers. */
  const EditableRoles: seq<string> := ["participant", "institute"]

  /** Each role the select offers gets its own badge and label, while the
      default "user" given to a profile with no role is not among them. */
  lemma EditableRolesAreDisplayed(role: string)
    requires role in EditableRoles
    ensures RoleBadgeVariant(Some(role)) != OutlineVariant
    ensures RoleLabel(Some(role)) != "User"
    ensures EditFormFrom(ProfileRow(None, None, None, None, None)).role !in EditableRoles
  {
  }

  /** One keystroke or selection in the edit form. */
  datatype FormEdit = SetFullName(s: string) | SetInstituteName(s: string) | SetBio(s: string) | SetRole(s: string)

  function ApplyEdit(f: EditForm, e: FormEdit): (g: EditForm)
    ensures e.SetFullName? ==> g == f.(fullName := e.s)
    ensures e.SetInstituteName? ==> g == f.(instituteName := e.s)
    ensures e.SetBio? ==> g == f.(bio := e.s)
    ensures e.SetRole? ==> g == f.(role := e.s)
  {
    match e
    case SetFullName(s) => f.(fullName := s)
    case SetInstituteName(s) => f.(instituteName := s)
    case SetBio(s) => f.(bio := s)
    case SetRole(s) => f.(role := s)
  }

  /** What the page shows: a placeholder while loading, "Profile not
      found" without a row, otherwise the header. */
  datatype ProfileView =
    | LoadingPlaceholder
    | ProfileNotFound
    | ProfileHeader(name: string, roleText: string, variant: BadgeVariant, defaultTab: string, fallback: Fallback)

  /** The outcome of the update query. */
  datatype UpdateOutcome = UpdateOk | UpdateFailed | UpdateThrew

  /** The toast `handleSave` shows, if any. */
  datatype SaveNotice = NoNotice | ProfileUpdated | UpdateFailedNotice | SomethingWentWrong

  /** The `Profile` page's state. */
  class ProfileState {
    var profile: Option<ProfileRow>
    var loading: bool
    var editing: bool
    var editForm: EditForm

    constructor ()
      ensures profile == None && loading && !editing && editForm == BlankForm
    {
      profile := None;
      loading := true;
      editing := false;
      editForm := BlankForm;
    }

    /** `fetchProfile`. Without a user it returns before its `finally`, so
        `loading` is left as it was; a failed query clears `loading` and
        keeps the row and the form. */
    method FetchProfile(signedIn: bool, result: Response<ProfileRow>)
      modifies this
      ensures !signedIn ==> profile == old(profile) && editForm == old(editForm) && loading == old(loading)
      ensures signedIn ==> !loading
      ensures signedIn && result.Ok? ==> profile == Some(result.value) && editForm == EditFormFrom(result.value)
      ensures signedIn && result.Err? ==> profile == old(profile) && editForm == old(editForm)
      ensures editing == old(editing)
    {
      if !signedIn {
        return;
      }
      if result.Ok? {
        profile := Some(result.value);
        editForm := EditFormFrom(result.value);
      }
      loading := false;
    }

    /** The Edit Profile / Cancel button. */
    method ToggleEditing()
      modifies this
      ensures editing == !old(editing)
      ensures profile == old(profile) && editForm == old(editForm) && loading == old(loading)
    {
      editing := !editing;
    }

    method EditField(e: FormEdit)
      modifies this
      ensures editForm == ApplyEdit(old(editForm), e)
      ensures profile == old(profile) && editing == old(editing) && loading == old(loading)
    {
      editForm := ApplyEdit(editForm, e);
    }

    /** `handleSave`. Without a user or a row nothing happens. A failed
        update keeps editing on; a successful one refetches the row (the
        answer is `refetch`) and turns editing off. */
    method HandleSave(signedIn: bool, update: UpdateOutcome, refetch: Response<ProfileRow>) returns (notice: SaveNotice)
      modifies this
      ensures !signedIn || old(profile).None? ==>
        notice == NoNotice && profile == old(profile) && editing == old(editing) && editForm == old(editForm)
        && loading == old(loading)
      ensures signedIn && old(profile).Some? && update != UpdateOk ==>
        editing == old(editing) && profile == old(profile) && editForm == old(editForm)
        && loading == old(loading)
      ensures signedIn && old(profile).Some? && update == UpdateFailed ==> notice == UpdateFailedNotice
      ensures signedIn && old(profile).Some? && update == UpdateThrew ==> notice == SomethingWentWrong
      ensures signedIn && old(profile).Some? && update == UpdateOk ==>
        !editing && !loading && notice == ProfileUpdated
        && (refetch.Ok? ==> profile == Some(refetch.value) && editForm == EditFormFrom(refetch.value))
        && (refetch.Err? ==> profile == old(profile) && editForm == old(editForm))
    {
      notice := NoNotice;
      if !signedIn || profile.None? {
        return;
      }
      if update == UpdateFailed {
        notice := UpdateFailedNotice;
        return;
      }
      if update == UpdateThrew {
        notice := SomethingWentWrong;
        return;
      }
      FetchProfile(signedIn, refetch);
      editing := false;
      notice := ProfileUpdated;
    }

    /** The rendered header for the signed-in user's email. */
    function View(email: Option<string>): (v: ProfileView)
      reads this
      ensures v == LoadingPlaceholder <==> loading
      ensures v == ProfileNotFound <==> !loading && profile.None?
      ensures v.ProfileHeader? ==>
        v.roleText == RoleLabel(profile.value.role) && v.variant == RoleBadgeVariant(profile.value.role)
        && v.defaultTab == DefaultTab(profile.value.role)
        && v.fallback == AvatarFallback(profile.value.fullName, email)
    {
      if loading then LoadingPlaceholder
      else if profile.None? then ProfileNotFound
      else
        var p := profile.value;
        ProfileHeader(if Truthy(p.fullName) then p.fullName.value else "Anonymous User",
                      RoleLabel(p.role), RoleBadgeVariant(p.role), DefaultTab(p.role),
                      AvatarFallback(p.fullName, email))
    }
  }
}
