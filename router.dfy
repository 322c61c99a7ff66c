/**
 * `frontend/src/router/index.js`: the global `beforeEach` guard and the
 * `beforeEnter` guard of the login route, as functions from the login
 * status and the two locations to the navigation decision.
 */
module Router {
  import opened Wrappers

  /**
   * The login status from the store getter, sorted by the two tests the
   * guards make of it: `beforeEach` asks `=== false`, `loginGuardian`
   * asks for truthiness. A falsy value other than `false` (null,
   * undefined) passes neither.
   */
  datatype LoginStatus = IsFalse | OtherFalsy | Truthy

  /** A route location: its name, its params, and the location it was redirected from. */
  datatype Location = Location(name: Option<string>, params: map<string, string>, redirectedFrom: Option<Location>)

  /** The argument given to `next`. */
  datatype Next =
    | Proceed                                     // next()
    | ToPath(path: string)                        // next({path})
    | ToNamed(name: string, profileId: Option<string>) // next({name, params: {profileId}})
    | ToLocation(location: Location)              // next(from)

  /** The mobile-menu state the guard commits, and where navigation goes. */
  datatype Decision = Decision(mobileMenuOpen: bool, next: Next)

  const LoginPath := "/login"
  const ProfilePrefix := "/profile/"

  /** An ASCII upper-case letter folded to lower case; every other character is kept. */
  function LowerAscii(c: char): char
  {
    if 'A' <= c <= 'Z' then (c as int - 'A' as int + 'a' as int) as char else c
  }

  /** A path with its ASCII letters folded, as a case-insensitive regex compares it. */
  function Fold(s: string): string
  {
    seq(|s|, i requires 0 <= i < |s| => LowerAscii(s[i]))
  }

  /** The folded path without the one trailing slash that non-strict matching admits. */
  function Trimmed(path: string): string
  {
    var p := Fold(path);
    if |p| > 0 && p[|p| - 1] == '/' then p[..|p| - 1] else p
  }

  /**
   * The route table as `createRouter` compiles it by default (neither
   * strict nor sensitive): `/` becomes `^/?$`, `/login` becomes
   * `^/login/?$` and `/profile/:profileId` becomes `^/profile/([^/]+?)/?$`,
   * each matched ignoring case.
   */
  function MatchPath(path: string): (r: Option<string>)
    ensures r == Some("Home") <==> Fold(path) == "" || Fold(path) == "/"
    ensures r == Some("Login") <==> Fold(path) == LoginPath || Fold(path) == LoginPath + "/"
    ensures r.Some? ==> r.value in {"Home", "Login", "Profile"}
  {
    var p := Trimmed(path);
    if p == "" then Some("Home")
    else if p == LoginPath then Some("Login")
    else if |ProfilePrefix| < |p| && p[..|ProfilePrefix|] == ProfilePrefix && '/' !in p[|ProfilePrefix|..] then Some("Profile")
    else None
  }

  /**
   * The `profileId` param a Profile path captures: one non-empty segment
   * without a slash, taken from the path as written (only the prefix is
   * compared ignoring case).
   */
  function ProfileParam(path: string): (r: Option<string>)
    ensures r.Some? <==> MatchPath(path) == Some("Profile")
    ensures r.Some? ==>
      && |r.value| > 0 && '/' !in r.value && |ProfilePrefix| < |path|
      && Fold(path[..|ProfilePrefix|]) == ProfilePrefix
      && (path[|ProfilePrefix|..] == r.value || path[|ProfilePrefix|..] == r.value + "/")
  {
    if MatchPath(path) == Some("Profile") then
      FoldSlices(path, |ProfilePrefix|);
      var rest := path[|ProfilePrefix|..];
      FoldKeepsSlashes(rest);
      Some(if rest[|rest| - 1] == '/' then rest[..|rest| - 1] else rest)
    else None
  }

  /** Folding commutes with slicing. */
  lemma FoldSlices(s: string, k: nat)
    requires k <= |s|
    ensures Fold(s)[..k] == Fold(s[..k]) && Fold(s)[k..] == Fold(s[k..])
  {
  }

  /** Folding moves no character to or from `/`. */
  lemma FoldKeepsSlashes(s: string)
    ensures forall i :: 0 <= i < |s| ==> (Fold(s)[i] == '/' <==> s[i] == '/')
  {
  }

  /** `from?.redirectedFrom?.name === 'Profile'`. */
  predicate CameFromProfile(from: Location)
  {
    from.redirectedFrom.Some? && from.redirectedFrom.value.name == Some("Profile")
  }

  /** `from?.redirectedFrom?.params?.profileId`, undefined when missing. */
  function RedirectedProfileId(from: Location): Option<string>
  {
    if from.redirectedFrom.Some? && "profileId" in from.redirectedFrom.value.params
    then Some(from.redirectedFrom.value.params["profileId"]) else None
  }

  /** `router.beforeEach`. */
  function BeforeEach(status: LoginStatus, to: Location, from: Location): (r: Decision)
    ensures !r.mobileMenuOpen
    ensures status == IsFalse && to.name != Some("Login") ==> r.next == ToPath(LoginPath)
    ensures status == IsFalse && to.name == Some("Login") ==> r.next == Proceed
    ensures status != IsFalse && to.name == Some("Home") && CameFromProfile(from) ==>
      r.next == ToNamed("Profile", RedirectedProfileId(from))
    ensures status != IsFalse && !(to.name == Some("Home") && CameFromProfile(from)) ==> r.next == Proceed
  {
    var next :=
      if status == IsFalse then
        if to.name != Some("Login") then ToPath(LoginPath) else Proceed
      else if to.name == Some("Home") && CameFromProfile(from) then ToNamed("Profile", RedirectedProfileId(from))
      else Proceed;
    Decision(false, next)
  }

  /** `loginGuardian`: a logged-in user is sent back where they came from. */
  function LoginGuardian(status: LoginStatus, from: Location): (r: Next)
    ensures status == Truthy <==> r == ToLocation(from)
    ensures status != Truthy <==> r == Proceed
  {
    if status == Truthy then ToLocation(from) else Proceed
  }

  /** Entering a location: the global guard, then the route's own guard when it is the login route. */
  function Navigate(status: LoginStatus, to: Location, from: Location): Next
  {
    var global := BeforeEach(status, to, from).next;
    if global == Proceed && to.name == Some("Login") then LoginGuardian(status, from) else global
  }

  /** The guard decides only by the status, the target's name and the redirect origin. */
  lemma DecisionIsBranchwise(status: LoginStatus, to: Location, from: Location)
    ensures status == IsFalse ==> BeforeEach(status, to, from).next in {ToPath(LoginPath), Proceed}
    ensures status != IsFalse ==>
      BeforeEach(status, to, from).next == Proceed || BeforeEach(status, to, from).next.ToNamed?
  {
  }

  /**
   * No redirect loop: a logged-out user sent to `/login` is let through
   * there, both by the global guard and by the login route's guard.
   */
  lemma LoginRedirectIsFinal(to: Location, from: Location, arrived: Location, resolvedFrom: Location)
    requires BeforeEach(IsFalse, to, from).next.ToPath?
    requires arrived.name == MatchPath(BeforeEach(IsFalse, to, from).next.path)
    ensures arrived.name == Some("Login")
    ensures Navigate(IsFalse, arrived, resolvedFrom) == Proceed
  {
  }

  /** The profile redirect is final too: its target is not `Home`, so a logged-in user proceeds. */
  lemma ProfileRedirectIsFinal(status: LoginStatus, to: Location, from: Location, arrived: Location, resolvedFrom: Location)
    requires status != IsFalse
    requires BeforeEach(status, to, from).next.ToNamed?
    requires arrived.name == Some(BeforeEach(status, to, from).next.name)
    ensures arrived.name == Some("Profile")
    ensures Navigate(status, arrived, resolvedFrom) == Proceed
  {
  }

  /** A `:profileId` of one segment matches, with or without a trailing slash; a second segment matches no route. */
  lemma ProfileIdIsOneSegment(seg: string)
    requires |seg| > 0 && '/' !in seg
    ensures MatchPath(ProfilePrefix + seg) == Some("Profile")
    ensures MatchPath(ProfilePrefix + seg + "/") == Some("Profile")
    ensures ProfileParam(ProfilePrefix + seg + "/") == Some(seg)
    ensures MatchPath(ProfilePrefix + seg + "/" + seg) == None
  {
    var path := ProfilePrefix + seg + "/";
    assert path[|ProfilePrefix|..] == seg + "/";
    assert (seg + "/")[..|seg|] == seg;
  }

  /** Trailing slashes and letter case as vue-router's default matching treats them. */
  lemma MatchingExamples()
    ensures MatchPath("/login/") == Some("Login")
    ensures MatchPath("/LOGIN") == Some("Login")
    ensures MatchPath("/profile/7/") == Some("Profile")
    ensures MatchPath("/profile/a/b") == None
  {
    assert Fold("/login/") == "/login/";
    assert Fold("/LOGIN") == "/login";
    assert Trimmed("/profile/7/") == "/profile/7";
    assert Trimmed("/profile/7/")[|ProfilePrefix|..] == "7";
    assert Trimmed("/profile/a/b")[|ProfilePrefix|..][1] == '/';
  }

  /** Whoever is logged in and opens the login page is sent back; anyone else sees it. */
  lemma LoginPageOnlyForLoggedOut(status: LoginStatus, to: Location, from: Location)
    requires to.name == Some("Login")
    ensures status == Truthy ==> Navigate(status, to, from) == ToLocation(from)
    ensures status != Truthy ==> Navigate(status, to, from) == Proceed
  {
  }
}
