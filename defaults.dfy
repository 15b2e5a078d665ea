/** The rule set the plugin installs on first start, and what it does to some requests. */
module Defaults {
  import opened FloodSpec
  import opened FloodProperties

  const AssetsPath: string := "^/assets/"
  const UserPath: string := "^/(?:api/)?user/"
  const PagePath: string := "^/(?!api/).*$"

  /** The first-start configuration (library.js:115-134): guest-only mode on, uploads untracked,
    * user profiles at most 5 requests per 30 seconds, other non-API pages at most 15 per 60 seconds. */
  function DefaultSettings(): (s: Settings)
    ensures Truthy(s.guestOnly) && |s.routes| == 3
    ensures s.routes[0].path == AssetsPath && s.routes[0].time == 0
    ensures s.routes[1].path == UserPath && s.routes[1].max == 5 && s.routes[1].time == 30
    ensures s.routes[2].path == PagePath && s.routes[2].max == 15 && s.routes[2].time == 60
  {
    Settings(1, [
      RouteConfig(AssetsPath, 0, 0, "uploaded files"),
      RouteConfig(UserPath, 5, 30, "user profiles"),
      RouteConfig(PagePath, 15, 60, "non-API (initial load)")
    ])
  }

  predicate StartsWith(s: string, prefix: string) {
    |prefix| <= |s| && s[..|prefix|] == prefix
  }

  lemma PrefixAt(s: string, prefix: string, i: nat)
    requires StartsWith(s, prefix) && i < |prefix|
    ensures s[i] == prefix[i]
  {
    assert s[..|prefix|][i] == s[i];
  }

  /** The characters the default patterns' literal prefixes fix. */
  lemma PrefixChars(url: string)
    ensures StartsWith(url, "/") <==> |url| >= 1 && url[0] == '/'
    ensures StartsWith(url, "/assets/") ==> url[0] == '/' && url[1] == 'a' && url[2] == 's'
    ensures StartsWith(url, "/user/") ==> url[0] == '/' && url[1] == 'u'
    ensures StartsWith(url, "/api/") ==> url[1] == 'a' && url[2] == 'p'
    ensures StartsWith(url, "/api/user/") ==> StartsWith(url, "/api/")
  {
    if |url| >= 1 && url[0] == '/' { assert url[..1] == "/"; }
    if StartsWith(url, "/assets/") { PrefixAt(url, "/assets/", 0); PrefixAt(url, "/assets/", 1); PrefixAt(url, "/assets/", 2); }
    if StartsWith(url, "/user/") { PrefixAt(url, "/user/", 0); PrefixAt(url, "/user/", 1); }
    if StartsWith(url, "/api/") { PrefixAt(url, "/api/", 1); PrefixAt(url, "/api/", 2); }
    if StartsWith(url, "/api/user/") { assert url[..5] == url[..10][..5]; }
  }

  /** Characters a regular-expression `.` does not match. */
  predicate IsLineTerminator(ch: char) {
    ch == '\n' || ch == '\r' || ch == '\U{2028}' || ch == '\U{2029}'
  }

  /** A URL without line terminators, all of which `.*$` can consume. */
  predicate SingleLine(url: string) {
    forall i :: 0 <= i < |url| ==> !IsLineTerminator(url[i])
  }

  /** `/^\/assets\//`. An upload path is neither a profile path nor an API path, and on a single
    * line it matches the page pattern too, so the uploads rule has to come first to shadow it. */
  predicate IsAsset(url: string): (b: bool)
    ensures b ==> !IsUserProfile(url) && !StartsWith(url, "/api/")
    ensures b && SingleLine(url) ==> IsPage(url)
  {
    PrefixChars(url);
    StartsWith(url, "/assets/")
  }

  /** `/^\/(?:api\/)?user\//`. A profile path matches the page pattern exactly when it is the
    * site's `/user/` form on a single line; the `/api/user/` form is no page. */
  predicate IsUserProfile(url: string): (b: bool)
    ensures b ==> (IsPage(url) <==> StartsWith(url, "/user/") && SingleLine(url))
  {
    PrefixChars(url);
    StartsWith(url, "/user/") || StartsWith(url, "/api/user/")
  }

  /** `/^\/(?!api\/).*$/`: a path that is not under `/api/`, on a single line. */
  predicate IsPage(url: string): (b: bool)
    ensures StartsWith(url, "/api/") ==> !b
    ensures StartsWith(url, "/") && !StartsWith(url, "/api/") && SingleLine(url) ==> b
  {
    StartsWith(url, "/") && !StartsWith(url, "/api/") &&
    forall i :: 1 <= i < |url| ==> !IsLineTerminator(url[i])
  }

  /** The compiled forms of the three default patterns; any other pattern matches nothing here. */
  function Compile(path: string): string -> bool {
    if path == AssetsPath then IsAsset
    else if path == UserPath then IsUserProfile
    else if path == PagePath then IsPage
    else _ => false
  }

  /** The detector's rules right after the default configuration is installed. */
  function DefaultRoutes(): (routes: seq<Route>)
    ensures |routes| == 3 && WellFormed(routes) && forall i :: 0 <= i < 3 ==> routes[i].clients == []
    ensures routes[0].re == IsAsset && routes[1].re == IsUserProfile && routes[2].re == IsPage
    ensures routes[0].time == 0 && routes[1].max == 5 && routes[1].time == 30
    ensures routes[2].max == 15 && routes[2].time == 60
  {
    Install(DefaultSettings().routes, Compile)
  }

  /** Upload paths hit the pass-through rule first: always allowed, nothing tracked, whatever
    * the detector has recorded so far. */
  lemma AssetsAlwaysAllowed(routes: seq<Route>, url: string, ip: string, now: int)
    requires |routes| == 3 && forall i :: 0 <= i < 3 ==> SameRule(routes[i], DefaultRoutes()[i])
    requires StartsWith(url, "/assets/")
    ensures Evaluate(routes, url, ip, now) == Outcome(routes, None)
  {
    assert routes[0].re(url);
    assert FirstMatch(routes, url) == Some(0);
  }

  /** API paths other than user profiles match no default rule and are never limited. */
  lemma ApiUnlimited(routes: seq<Route>, url: string, ip: string, now: int)
    requires |routes| == 3 && forall i :: 0 <= i < 3 ==> SameRule(routes[i], DefaultRoutes()[i])
    requires StartsWith(url, "/api/") && !StartsWith(url, "/api/user/")
    ensures Evaluate(routes, url, ip, now) == Outcome(routes, None)
  {
    assert url[..5] == "/api/";
    assert url[..1] == "/";
    assert !IsAsset(url) by {
      if |url| >= 8 { assert url[..8][2] == url[2] == 'p'; }
    }
    assert !IsUserProfile(url) by {
      if |url| >= 6 { assert url[..6][1] == url[1]; }
    }
    assert FirstMatch(routes, url).None?;
  }

  /** `/user/42` is governed by the user-profile rule. */
  lemma UserProfileMatch(routes: seq<Route>)
    requires |routes| == 3 && forall i :: 0 <= i < 3 ==> SameRule(routes[i], DefaultRoutes()[i])
    ensures FirstMatch(routes, "/user/42") == Some(1)
  {
    assert !routes[0].re("/user/42") by {
      assert !IsAsset("/user/42") by { assert "/user/42"[..8][1] != "/assets/"[1]; }
    }
    assert routes[1].re("/user/42") by {
      assert IsUserProfile("/user/42") by { assert "/user/42"[..6] == "/user/"; }
    }
  }

  /** A client opening `/user/42` again and again within 30 seconds of its first visit: the
    * first five requests are allowed and every later one is denied with a 30-second hint. */
  lemma UserProfileBurst(ip: string, times: seq<int>)
    requires |times| >= 1
    requires forall i :: 0 <= i < |times| ==> times[i] <= times[0] + 30000
    ensures Replay(DefaultRoutes(), "/user/42", ip, times).retryAfter ==
      if |times| > 5 then Some(30) else None
  {
    var routes := DefaultRoutes();
    UserProfileMatch(routes);
    BurstWithinWindow(routes, "/user/42", ip, times, 1);
  }

  /** A client loading `/home` again and again within a minute of its first visit: fifteen
    * requests are allowed and every later one is denied with a 60-second hint. */
  lemma HomePageBurst(ip: string, times: seq<int>)
    requires |times| >= 1
    requires forall i :: 0 <= i < |times| ==> times[i] <= times[0] + 60000
    ensures Replay(DefaultRoutes(), "/home", ip, times).retryAfter ==
      if |times| > 15 then Some(60) else None
  {
    var routes := DefaultRoutes();
    assert !IsAsset("/home");
    assert !IsUserProfile("/home");
    assert IsPage("/home") by {
      assert "/home"[..1] == "/";
      assert "/home"[..5] != "/api/" by { assert "/home"[..5][1] != "/api/"[1]; }
    }
    assert FirstMatch(routes, "/home") == Some(2);
    BurstWithinWindow(routes, "/home", ip, times, 2);
  }

  /** The same client, after its burst on `/user/42`, waits until the window opened by its first
    * request has passed: the next request starts a fresh window and is allowed. */
  lemma UserProfileCooldown(ip: string, times: seq<int>, later: int)
    requires |times| >= 1
    requires forall i :: 0 <= i < |times| ==> times[i] <= times[0] + 30000
    requires later > times[0] + 30000
    ensures var r := Evaluate(Replay(DefaultRoutes(), "/user/42", ip, times).routes, "/user/42", ip, later);
      r.retryAfter.None? && CountOf(r.routes[1].clients, ip) == 1
  {
    var routes := DefaultRoutes();
    UserProfileBurst(ip, times);
    UserProfileMatch(routes);
    BurstWithinWindow(routes, "/user/42", ip, times, 1);
    ReplayKeepsRules(routes, "/user/42", ip, times);
    var prev := Replay(routes, "/user/42", ip, times);
    FirstMatchSameRules(prev.routes, routes, "/user/42");
    var clients := prev.routes[1].clients;
    UniqueLookup(clients, ip);
    WindowReset(prev.routes, "/user/42", ip, later, 1);
  }
}
