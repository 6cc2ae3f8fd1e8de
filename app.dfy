/** The application shell: the route table and the two role guards.
    The guard's role is component state, read from the "role" storage
    slot once, when the shell mounts. */
module AppRoutes {
  import opened Common
  import opened BrowserStorage

  /** The storage slot that holds the selected role. */
  const RoleSlot: string := "role"

  const SelectRolePath: string := "/select-role"
  const CreateBattlePath: string := "/create-battle"
  const ParticipatePath: string := "/participate"

  /** Routes that render the same page whatever the role. */
  const CommonPaths: set<string> :=
    {"/", "/generate", "/gallery", "/leaderboard", "/login", "/signup", "/profile", "/demo", "/select-role"}

  /** What the router shows for a path. */
  datatype View =
    | Landing | Generate | Gallery | Leaderboard | Login | Signup | Profile | Demo
    | RoleSelector | CreateBattle | Participate
    | Redirect(to: string)
    | NotFound

  /** The page of each unguarded route. */
  function CommonView(path: string): (v: View)
    requires path in CommonPaths
    ensures !v.Redirect? && v != NotFound && v != CreateBattle && v != Participate
  {
    match path
    case "/" => Landing
    case "/generate" => Generate
    case "/gallery" => Gallery
    case "/leaderboard" => Leaderboard
    case "/login" => Login
    case "/signup" => Signup
    case "/profile" => Profile
    case "/demo" => Demo
    case _ => RoleSelector
  }

  /** Every path a route is declared with. */
  const RoutePatterns: set<string> := CommonPaths + {CreateBattlePath, ParticipatePath}

  /** `s` with every trailing "/" removed. */
  function StripTrailingSlashes(s: string): (t: string)
    ensures t <= s
    ensures t == [] || t[|t| - 1] != '/'
    ensures forall i :: |t| <= i < |s| ==> s[i] == '/'
  {
    if s != [] && s[|s| - 1] == '/' then StripTrailingSlashes(s[..|s| - 1]) else s
  }

  /** The declared path a location is matched against. React Router v6
      matches without regard to case and accepts any number of trailing
      slashes, so the key is the lower-cased path without them; a path of
      slashes alone is the root. */
  function RouteKey(path: string): (key: string)
    ensures |key| <= |path|
    ensures key == [] <==> path == []
    ensures forall i :: 0 <= i < |key| ==> !('A' <= key[i] <= 'Z')
  {
    var t := StripTrailingSlashes(path);
    if t == [] && path != [] then "/" else Lower(t)
  }

  /** The router's own rule for a lower-case pattern: the location spells
      the pattern up to case and continues with slashes only. */
  predicate MatchesPattern(pattern: string, path: string) {
    |pattern| <= |path|
    && Lower(path[..|pattern|]) == pattern
    && forall i :: |pattern| <= i < |path| ==> path[i] == '/'
  }

  /** A pattern in lower case, not ending in "/" unless it is the root. */
  predicate WellFormedPattern(pattern: string) {
    pattern != []
    && (pattern == "/" || pattern[|pattern| - 1] != '/')
    && forall i :: 0 <= i < |pattern| ==> !('A' <= pattern[i] <= 'Z')
  }

  /** Lower-casing a string without upper-case letters changes nothing. */
  lemma LowerOfLowerCase(s: string)
    requires forall i :: 0 <= i < |s| ==> !('A' <= s[i] <= 'Z')
    ensures Lower(s) == s
  {
  }

  /** `RouteKey` selects a pattern exactly when the router's rule matches
      the location against it. */
  lemma RouteKeyMatches(pattern: string, path: string)
    requires WellFormedPattern(pattern)
    ensures RouteKey(path) == pattern <==> MatchesPattern(pattern, path)
  {
    var t := StripTrailingSlashes(path);
    var n := |pattern|;
    LowerOfLowerCase(pattern);
    if MatchesPattern(pattern, path) {
      var head := Lower(path[..n]);
      assert LowerChar(path[n - 1]) == head[n - 1] == pattern[n - 1];
      if pattern == "/" {
        assert path[0] == '/';
        assert t == [];
      } else {
        assert path[n - 1] != '/';
        assert t == path[..n];
      }
    }
    if RouteKey(path) == pattern {
      if t == [] && path != [] {
        assert pattern == "/";
        assert path[..1] == "/";
      } else {
        assert |t| == n;
        assert t == path[..n];
      }
    }
  }

  /** A declared path in lower case without a trailing slash is its own
      key. */
  lemma PlainPatternIsKey(p: string)
    requires p != [] && p[|p| - 1] != '/'
    requires forall i :: 0 <= i < |p| ==> !('A' <= p[i] <= 'Z')
    ensures RouteKey(p) == p
  {
    LowerOfLowerCase(p);
  }

  /** Each declared path is its own key, so linking to it reaches it. */
  lemma PatternsAreKeys()
    ensures forall p :: p in RoutePatterns ==> RouteKey(p) == p
  {
    forall p | p in RoutePatterns
      ensures RouteKey(p) == p
    {
      if p != "/" {
        PlainPatternIsKey(p);
      }
    }
  }

  /** Every declared path is a well-formed pattern. */
  lemma PatternsWellFormed()
    ensures forall p :: p in RoutePatterns ==> WellFormedPattern(p)
  {
  }

  /** For the declared paths, `RouteKey` agrees with the router's rule:
      a location is keyed to a declared path exactly when it matches it. */
  lemma KeyFollowsMatcher(path: string)
    ensures forall p :: p in RoutePatterns ==> (RouteKey(path) == p <==> MatchesPattern(p, path))
  {
    PatternsWellFormed();
    forall p | p in RoutePatterns
      ensures RouteKey(path) == p <==> MatchesPattern(p, path)
    {
      RouteKeyMatches(p, path);
    }
  }

  /** The two guarded paths, as the role selector and the navbar link to
      them, are their own keys. */
  lemma GuardedPathsAreKeys()
    ensures RouteKey(CreateBattlePath) == CreateBattlePath
    ensures RouteKey(ParticipatePath) == ParticipatePath
  {
    PatternsAreKeys();
    assert CreateBattlePath in RoutePatterns;
    assert ParticipatePath in RoutePatterns;
  }

  /** The `<Routes>` table on a matched key: the common routes, the two
      guarded routes compared with the role by exact string equality, and
      the catch-all. */
  function RouteOnKey(key: string, role: Option<string>): (v: View)
    ensures key == CreateBattlePath ==>
      (v == CreateBattle <==> role == Some("institute")) &&
      (v != CreateBattle ==> v == Redirect(SelectRolePath))
    ensures key == ParticipatePath ==>
      (v == Participate <==> role == Some("participant")) &&
      (v != Participate ==> v == Redirect(SelectRolePath))
    ensures key in CommonPaths ==> v == CommonView(key)
    ensures v == NotFound <==> key !in RoutePatterns
    ensures v.Redirect? ==> v.to == SelectRolePath
  {
    if key in CommonPaths then CommonView(key)
    else if key == CreateBattlePath then
      if role == Some("institute") then CreateBattle else Redirect(SelectRolePath)
    else if key == ParticipatePath then
      if role == Some("participant") then Participate else Redirect(SelectRolePath)
    else NotFound
  }

  /** What the router shows for a location: the table entry of the
      declared path it matches, or the catch-all when it matches none. */
  function Route(path: string, role: Option<string>): (v: View)
    ensures forall p :: p in RoutePatterns && MatchesPattern(p, path) ==> v == RouteOnKey(p, role)
    ensures (forall p :: p in RoutePatterns ==> !MatchesPattern(p, path)) ==> v == NotFound
  {
    KeyFollowsMatcher(path);
    RouteOnKey(RouteKey(path), role)
  }

  /** The two guarded paths as linked: each renders its page for exactly
      its role and redirects to role selection otherwise. */
  lemma GuardedRoutes(role: Option<string>)
    ensures Route(CreateBattlePath, role)
         == if role == Some("institute") then CreateBattle else Redirect(SelectRolePath)
    ensures Route(ParticipatePath, role)
         == if role == Some("participant") then Participate else Redirect(SelectRolePath)
  {
    GuardedPathsAreKeys();
  }

  /** Whatever the role, at most one of the two guarded pages can render,
      however the two locations are spelled. */
  lemma AtMostOneGuardedPage(p1: string, p2: string, role: Option<string>)
    ensures !(Route(p1, role) == CreateBattle && Route(p2, role) == Participate)
  {
  }

  /** The unguarded routes do not look at the role. */
  lemma CommonRoutesIgnoreRole(path: string, r1: Option<string>, r2: Option<string>)
    requires RouteKey(path) in CommonPaths
    ensures Route(path, r1) == Route(path, r2)
  {
  }

  /** The host vocabulary is not the guard's: "host", "user" and an absent
      role are all redirected from both guarded pages. */
  lemma HostIsRedirected(path: string)
    requires RouteKey(path) == CreateBattlePath || RouteKey(path) == ParticipatePath
    ensures Route(path, Some("host")) == Redirect(SelectRolePath)
    ensures Route(path, Some("user")) == Redirect(SelectRolePath)
    ensures Route(path, None) == Redirect(SelectRolePath)
  {
  }

  /** The `App` component's state. */
  class AppShell {
    /** `role`, `useState<string | null>(null)`. */
    var role: Option<string>

    constructor ()
      ensures role == None
    {
      role := None;
    }

    /** The mount effect: `setRole(localStorage.getItem("role"))`. It runs
        once; later writes to storage are not seen until the next mount. */
    method Mount(storage: LocalStorage)
      modifies this
      ensures role == Lookup(storage.items, RoleSlot)
    {
      role := storage.GetItem(RoleSlot);
    }

    /** What the router shows for `path` with the current role state. */
    function Show(path: string): (v: View)
      reads this
      ensures MatchesPattern(CreateBattlePath, path) ==>
        v == (if role == Some("institute") then CreateBattle else Redirect(SelectRolePath))
      ensures MatchesPattern(ParticipatePath, path) ==>
        v == (if role == Some("participant") then Participate else Redirect(SelectRolePath))
      ensures (forall p :: p in RoutePatterns ==> !MatchesPattern(p, path)) ==> v == NotFound
    {
      Route(path, role)
    }
  }

  /** The role selection page is its own key, and renders the selector. */
  lemma SelectRoleIsKey()
    ensures RouteKey(SelectRolePath) == SelectRolePath
  {
    PatternsAreKeys();
    assert SelectRolePath in RoutePatterns;
  }

  lemma SelectRoleEntry(role: Option<string>)
    ensures RouteOnKey(SelectRolePath, role) == RoleSelector
  {
  }

  lemma SelectRoleRendersSelector(role: Option<string>)
    ensures Route(SelectRolePath, role) == RoleSelector
  {
    SelectRoleIsKey();
    SelectRoleEntry(role);
  }

  /** The shell as written, on a direct load or reload of a location. The
      first render has no role yet; a guard's redirect runs in an effect
      of the child it renders, before the shell's own mount effect reads
      storage. The redirect has then already moved the location to role
      selection, so a stored role comes too late. */
  method DirectLoad(saved: map<string, string>, path: string) returns (first: View, final: View)
    ensures MatchesPattern(CreateBattlePath, path) || MatchesPattern(ParticipatePath, path) ==>
      first == Redirect(SelectRolePath) && final == RoleSelector
  {
    var storage := new LocalStorage(saved);
    var app := new AppShell();
    first := app.Show(path);
    var location := if first.Redirect? then first.to else path;
    app.Mount(storage);
    final := app.Show(location);
    SelectRoleRendersSelector(app.role);
  }

  /** A shell that reads the stored role before its first render: a
      direct load of a guarded page reaches it when the matching role is
      stored. */
  method DirectLoadReadingFirst(saved: map<string, string>, path: string) returns (shown: View)
    ensures MatchesPattern(CreateBattlePath, path) && Lookup(saved, RoleSlot) == Some("institute") ==>
      shown == CreateBattle
    ensures MatchesPattern(ParticipatePath, path) && Lookup(saved, RoleSlot) == Some("participant") ==>
      shown == Participate
  {
    var storage := new LocalStorage(saved);
    var app := new AppShell();
    app.Mount(storage);
    shown := app.Show(path);
  }
}

