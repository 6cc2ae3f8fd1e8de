/** The navigation bar: which link sets it shows, decided from the role in
    the fetched profile, and the account area. */
module Navigation {
  import opened Common
  import opened Avatar
  import opened AppRoutes

  /** The signed-in user, as the auth provider gives it. */
  datatype AuthUser = AuthUser(id: string, email: Option<string>)

  /** The columns the navbar selects from `profiles`. */
  datatype NavProfile = NavProfile(
    fullName: Option<string>,
    instituteName: Option<string>,
    avatarUrl: Option<string>,
    role: Option<string>)

  const CompetitionsLink: string := "/join-competition"
  const ParticipantLinks: seq<string> := ["/generate", "/gallery", "/leaderboard", CompetitionsLink]
  const CreateLink: string := "/create-battle"

  /** `profile?.role`: absent when no profile has been loaded. */
  function ProfileRole(profile: Option<NavProfile>): Option<string> {
    if profile.Some? then profile.value.role else None
  }

  /** The participant link set is shown for "user", "participant", or a
      falsy role. */
  predicate ShowsParticipantLinks(role: Option<string>)
    ensures !Truthy(role) ==> ShowsParticipantLinks(role)
    ensures ShowsParticipantLinks(role) ==> !ShowsCreateLink(role)
  {
    role == Some("user") || role == Some("participant") || !Truthy(role)
  }

  /** The create link is shown for "host" or "institute". */
  predicate ShowsCreateLink(role: Option<string>)
    ensures ShowsCreateLink(role) ==> Truthy(role)
  {
    role == Some("host") || role == Some("institute")
  }

  /** The account area: the profile menu with the avatar fallback when a
      user is signed in, the Login / Sign Up links otherwise. */
  datatype AccountArea = ProfileMenu(fallback: Fallback) | LoginSignup

  datatype NavbarView = NavbarView(links: seq<string>, account: AccountArea)

  /** What the navbar renders for a user and a loaded profile. */
  function Render(user: Option<AuthUser>, profile: Option<NavProfile>): (v: NavbarView)
    ensures ShowsParticipantLinks(ProfileRole(profile)) ==> ParticipantLinks <= v.links
    ensures CreateLink in v.links <==> ShowsCreateLink(ProfileRole(profile))
    ensures "/generate" in v.links <==> ShowsParticipantLinks(ProfileRole(profile))
    ensures !("/generate" in v.links && CreateLink in v.links)
    ensures profile.None? ==> v.links == ParticipantLinks
    ensures v.account.ProfileMenu? <==> user.Some?
    ensures user.Some? ==>
      v.account.fallback == AvatarFallback(if profile.Some? then profile.value.fullName else None, user.value.email)
  {
    var role := ProfileRole(profile);
    var links :=
      (if ShowsParticipantLinks(role) then ParticipantLinks else [])
      + (if ShowsCreateLink(role) then [CreateLink] else []);
    var account :=
      if user.Some? then
        ProfileMenu(AvatarFallback(if profile.Some? then profile.value.fullName else None, user.value.email))
      else LoginSignup;
    NavbarView(links, account)
  }

  /** A non-empty role outside both vocabularies (say "admin") shows
      neither link set. */
  lemma UnknownRoleShowsNoRoleLinks(role: string)
    requires role != "" && role !in {"user", "participant", "host", "institute"}
    ensures Render(None, Some(NavProfile(None, None, None, Some(role)))).links == []
  {
  }

  /** The navbar offers "host" the create link, and the shell's guard
      redirects "host" away from that very page. */
  lemma HostSeesCreateLinkButIsRedirected(user: Option<AuthUser>, p: NavProfile)
    requires p.role == Some("host")
    ensures CreateLink in Render(user, Some(p)).links
    ensures Route(CreateLink, p.role) == Redirect(SelectRolePath)
  {
    GuardedPathsAreKeys();
  }

  /** The "Competitions" link is its own key. */
  lemma CompetitionsLinkIsKey()
    ensures RouteKey(CompetitionsLink) == CompetitionsLink
  {
    PlainPatternIsKey(CompetitionsLink);
  }

  /** No route is declared for the "Competitions" link. */
  lemma CompetitionsLinkUndeclared(role: Option<string>)
    ensures RouteOnKey(CompetitionsLink, role) == NotFound
  {
    assert CompetitionsLink !in RoutePatterns;
  }

  /** The "Competitions" link shown to participants leads to a path the
      shell declares no route for, so it always renders the catch-all. */
  lemma CompetitionsLinkIsDead(role: Option<string>)
    ensures CompetitionsLink in ParticipantLinks
    ensures Route(CompetitionsLink, role) == NotFound
  {
    CompetitionsLinkIsKey();
    CompetitionsLinkUndeclared(role);
    assert ParticipantLinks[3] == CompetitionsLink;
  }

  /** The `Navbar` component's state. */
  class Navbar {
    /** `profile`, `useState<Profile | null>(null)`. */
    var profile: Option<NavProfile>

    constructor ()
      ensures profile == None
    {
      profile := None;
    }

    /** `fetchProfile`: without a user, or when the query fails, the state
        is left as it was (and the participant links keep showing). */
    method FetchProfile(user: Option<AuthUser>, result: Response<NavProfile>)
      modifies this
      ensures profile == if user.Some? && result.Ok? then Some(result.value) else old(profile)
    {
      if user.None? {
        return;
      }
      if result.Err? {
        return;
      }
      profile := Some(result.value);
    }

    function View(user: Option<AuthUser>): NavbarView
      reads this
    {
      Render(user, profile)
    }
  }
}
