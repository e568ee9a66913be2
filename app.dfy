// The application shell of src/App.tsx: the session-liveness guard run by
// every protected route (PrivateRoute's effect), the guard's
// redirect-or-render decision, the route table of AppContent and the rule
// that decides when the navigation chrome is shown.

module App {
  import opened Wrappers

  /** SESSION_TIMEOUT: one hour of inactivity, in milliseconds. */
  const SessionTimeout: int := 1000 * 60 * 60

  /** Notifications the guard shows to the user. */
  datatype Notice = SessionExpiredNotice

  /** A session is expired at `now` when a last-activity time is stored and
      strictly more than the timeout has passed since it. */
  predicate Expired(stored: Option<int>, now: int)
    ensures Expired(stored, now) ==> stored.Some?
    ensures stored.Some? ==> (Expired(stored, now) <==> now >= stored.value + 3_600_001)
  {
    stored.Some? && now - stored.value > SessionTimeout
  }

  /** The guard's state: the persisted last-activity timestamp, whether the
      auth store holds a user, whether the guard's activity listeners are
      installed, and the notices shown so far. */
  class SessionMonitor {
    var lastActivity: Option<int>
    var loggedIn: bool
    var listening: bool
    var notices: seq<Notice>

    /** Listeners are only ever installed on behalf of a present user. */
    ghost predicate Valid()
      reads this
    {
      listening ==> loggedIn
    }

    /** A page load: whatever the auth store and browser storage hold, and
        no guard mounted yet. */
    constructor (user: bool, stored: Option<int>)
      ensures Valid()
      ensures loggedIn == user && lastActivity == stored
      ensures !listening && notices == []
    {
      loggedIn := user;
      lastActivity := stored;
      listening := false;
      notices := [];
    }

    /** The guard's effect, run with the clock reading `now`. The previous
        run's listeners are removed first. Without a user nothing happens.
        An expired session shows a notice and logs out without refreshing
        the timestamp; otherwise the timestamp becomes `now` and the
        listeners are installed. */
    method Mount(now: int)
      requires Valid()
      modifies this
      ensures Valid()
      ensures !old(loggedIn) ==> unchanged(this)
      ensures old(loggedIn) && Expired(old(lastActivity), now) ==>
        && lastActivity == old(lastActivity)
        && !loggedIn && !listening
        && notices == old(notices) + [SessionExpiredNotice]
      ensures old(loggedIn) && !Expired(old(lastActivity), now) ==>
        && lastActivity == Some(now)
        && loggedIn && listening
        && notices == old(notices)
    {
      if !loggedIn {
        return;
      }
      listening := false;
      if Expired(lastActivity, now) {
        notices := notices + [SessionExpiredNotice];
        loggedIn := false;
        return;
      }
      lastActivity := Some(now);
      listening := true;
    }

    /** A mouse move or key press at clock reading `now`: an installed
        listener overwrites the timestamp; nothing else changes. */
    method Activity(now: int)
      requires Valid()
      modifies this`lastActivity
      ensures Valid()
      ensures lastActivity == if listening then Some(now) else old(lastActivity)
    {
      if listening {
        lastActivity := Some(now);
      }
    }

    /** The effect's cleanup when the guard unmounts: the listeners go. */
    method Unmount()
      requires Valid()
      modifies this`listening
      ensures Valid() && !listening
    {
      listening := false;
    }

    /** The auth store drops its user: the effect's dependency changes, so
        its cleanup removes the listeners and the re-run does nothing. */
    method Logout()
      requires Valid()
      modifies this`loggedIn, this`listening
      ensures Valid() && !loggedIn && !listening
    {
      loggedIn := false;
      listening := false;
    }

    /** The auth store gains a user; the stored timestamp stays as it is. */
    method SignIn()
      requires Valid()
      modifies this`loggedIn
      ensures Valid() && loggedIn
    {
      loggedIn := true;
    }
  }

  /** Exactly one hour of inactivity is still allowed: the comparison is
      strict, so expiry starts one millisecond later. */
  lemma ExpiryBoundary(t: int)
    ensures !Expired(Some(t), t + 3_600_000)
    ensures Expired(Some(t), t + 3_600_001)
  {
  }

  /** Once expired, a session stays expired as the clock moves on, and a
      timestamp never stored cannot expire. */
  lemma ExpiryIsMonotone(stored: Option<int>, now: int, later: int)
    requires now <= later
    ensures Expired(stored, now) ==> Expired(stored, later)
    ensures stored.None? ==> !Expired(stored, later)
  {
  }

  /** A user who was active within the last hour keeps the session when a
      protected route is mounted again. */
  method RemountAfterActivity(user: bool, stored: Option<int>, t0: int, t1: int, t2: int)
    returns (stillLoggedIn: bool, refreshed: Option<int>)
    requires !Expired(stored, t0)
    requires t2 - t1 <= SessionTimeout
    ensures stillLoggedIn == user
    ensures refreshed == if user then Some(t2) else stored
  {
    var s := new SessionMonitor(user, stored);
    s.Mount(t0);
    s.Activity(t1);
    s.Unmount();
    s.Mount(t2);
    stillLoggedIn, refreshed := s.loggedIn, s.lastActivity;
  }

  /** One millisecond over the hour: mounting logs the user out, shows the
      expiry notice and leaves the stored timestamp as it was. */
  method MountAfterTimeout(now: int)
    returns (stillLoggedIn: bool, stored: Option<int>, shown: seq<Notice>)
    ensures !stillLoggedIn
    ensures stored == Some(now - 3_600_001)
    ensures shown == [SessionExpiredNotice]
  {
    var s := new SessionMonitor(true, Some(now - 3_600_001));
    s.Mount(now);
    stillLoggedIn, stored, shown := s.loggedIn, s.lastActivity, s.notices;
  }

  /** Expiry is only checked when a guard mounts, and an installed listener
      writes without checking: activity after any idle time on a mounted
      page revives the session, and the next mount keeps the user. */
  method IdlePageRevivedByActivity(t0: int, idle: int) returns (stillLoggedIn: bool, stored: Option<int>)
    requires idle > SessionTimeout
    ensures stillLoggedIn
    ensures stored == Some(t0 + idle + 1)
  {
    var s := new SessionMonitor(true, None);
    s.Mount(t0);
    s.Activity(t0 + idle);
    s.Unmount();
    s.Mount(t0 + idle + 1);
    stillLoggedIn, stored := s.loggedIn, s.lastActivity;
  }

  /** An expired mount leaves the stale timestamp behind, so the first
      guarded mount after signing in again expires as well. */
  method SignInAgainAfterExpiry(stored: int, now: int, later: int)
    returns (stillLoggedIn: bool, shown: seq<Notice>)
    requires now - stored > SessionTimeout && now <= later
    ensures !stillLoggedIn
    ensures shown == [SessionExpiredNotice, SessionExpiredNotice]
  {
    var s := new SessionMonitor(true, Some(stored));
    s.Mount(now);
    s.SignIn();
    s.Mount(later);
    stillLoggedIn, shown := s.loggedIn, s.notices;
  }

  /** An expired mount neither refreshes the timestamp nor installs the
      listeners, so activity cannot repair it: every later guarded mount,
      after any number of sign-ins, expires on the same stale timestamp. */
  method ExpiryLocksOutLaterMounts(stored: int, now: int, later: int, evenLater: int)
    returns (stillLoggedIn: bool, kept: Option<int>, shown: seq<Notice>)
    requires now - stored > SessionTimeout && now <= later <= evenLater
    ensures !stillLoggedIn
    ensures kept == Some(stored)
    ensures shown == [SessionExpiredNotice, SessionExpiredNotice, SessionExpiredNotice]
  {
    var s := new SessionMonitor(true, Some(stored));
    s.Mount(now);
    s.SignIn();
    s.Activity(later);
    s.Mount(later);
    s.SignIn();
    s.Activity(evenLater);
    s.Mount(evenLater);
    stillLoggedIn, kept, shown := s.loggedIn, s.lastActivity, s.notices;
  }

  // ---------------------------------------------------------------------
  // Routing

  /** The pages AppContent can render. */
  datatype Page =
    | Login | Signup | BabysitterResponse(requestId: string) | ConfirmUpgrade
    | Index | Upgrade | BabysitterList | MyFamily | CreateRequest | RequestDashboard

  /** What a route yields: a page, a redirect (with or without replacing the
      history entry), or nothing when no route matches. */
  datatype View = Show(page: Page) | Navigate(to: string, replace: bool) | NoMatch

  /** The pages that may be shown without a signed-in user. */
  predicate IsPublic(p: Page) {
    p.Login? || p.Signup? || p.BabysitterResponse? || p.ConfirmUpgrade?
  }

  /** PrivateRoute's decision: no user means a replacing redirect to the
      login page, otherwise the wrapped page. */
  function PrivateRoute(user: bool, child: Page): (v: View)
    ensures v.Show? <==> user
    ensures v.Show? ==> v.page == child
    ensures !user ==> v == Navigate("/login", true)
  {
    if !user then Navigate("/login", true) else Show(child)
  }

  /** The root route: the index for a user, otherwise a replacing redirect
      to the sign-up page. */
  function RootRoute(user: bool): (v: View)
    ensures v.Show? <==> user
    ensures v.Show? ==> v.page == Index
    ensures !user ==> v == Navigate("/signup", true)
  {
    if user then Show(Index) else Navigate("/signup", true)
  }

  /** ASCII lower case: the router compares paths without regard to case. */
  function LowerAscii(c: char): (l: char)
    ensures l == '/' <==> c == '/'
    ensures l == 'r' <==> c == 'r' || c == 'R'
  {
    if 'A' <= c <= 'Z' then (c as int + 32) as char else c
  }

  /** A path folded to lower case, character by character. */
  function Lower(s: string): (t: string)
    ensures |t| == |s| && forall i :: 0 <= i < |s| ==> t[i] == LowerAscii(s[i])
  {
    seq(|s|, i requires 0 <= i < |s| => LowerAscii(s[i]))
  }

  /** The `:requestId` of a path matching "/r/:requestId": one non-empty
      segment after a prefix matched without regard to case. The id keeps
      its own case. */
  function ResponseRequestId(path: string): (id: Option<string>)
    ensures id.Some? ==> (path == "/r/" + id.value || path == "/R/" + id.value)
    ensures id.Some? ==> id.value != "" && '/' !in id.value
  {
    if |path| > 3 && Lower(path[..3]) == "/r/" && '/' !in path[3..] then
      assert path[0] == '/' && path[2] == '/' && (path[1] == 'r' || path[1] == 'R') by {
        assert Lower(path[..3])[0] == '/' && Lower(path[..3])[1] == 'r' && Lower(path[..3])[2] == '/';
      }
      assert path == path[..3] + path[3..];
      Some(path[3..])
    else None
  }

  /** AppContent's route table. Paths are compared after folding to lower
      case. Only a visitor without a user is ever redirected, always to the
      login or the sign-up page and replacing the history entry, and the
      response page gets the id taken from the path. */
  function Route(path: string, user: bool): (v: View)
    ensures v.Navigate? ==> !user && v.replace && (v.to == "/login" || v.to == "/signup")
    ensures v.Show? && v.page.BabysitterResponse? ==> ResponseRequestId(path) == Some(v.page.requestId)
  {
    var p := Lower(path);
    if p == "/login" then Show(Login)
    else if p == "/signup" then Show(Signup)
    else if ResponseRequestId(path).Some? then Show(BabysitterResponse(ResponseRequestId(path).value))
    else if p == "/confirm_upgrade" then Show(ConfirmUpgrade)
    else if p == "/" then RootRoute(user)
    else if p == "/upgrade" then PrivateRoute(user, Upgrade)
    else if p == "/babysitters" then PrivateRoute(user, BabysitterList)
    else if p == "/family" then PrivateRoute(user, MyFamily)
    else if p == "/create-request" then PrivateRoute(user, CreateRequest)
    else if p == "/requests" then PrivateRoute(user, RequestDashboard)
    else NoMatch
  }

  /** `isResponsePage`: the path starts with "/r/", compared with case, so
      a capital 'R' does not count. */
  predicate IsResponsePage(path: string)
    ensures IsResponsePage(path) <==> |path| >= 3 && path[0] == '/' && path[1] == 'r' && path[2] == '/'
  {
    "/r/" <= path
  }

  /** The navigation bar and the floating action button are shown together,
      for a signed-in user off the response pages. */
  predicate ShowsNavChrome(user: bool, path: string)
    ensures ShowsNavChrome(user, path) ==> user
    ensures user && |path| >= 3 && path[..3] == "/R/" ==> ShowsNavChrome(user, path)
  {
    user && !IsResponsePage(path)
  }

  /** A path that folds to something under "/r/" is none of the fixed paths
      of the route table ("/requests" shares the letter but not the slash). */
  lemma ResponsePrefixIsNotFixedPath(path: string)
    requires |path| >= 3 && Lower(path)[1] == 'r' && Lower(path)[2] == '/'
    ensures Lower(path) !in ["/login", "/signup", "/confirm_upgrade", "/",
                             "/upgrade", "/babysitters", "/family", "/create-request", "/requests"]
  {
    assert "/requests"[2] == 'e';
  }

  /** Every request link "/r/<id>" or "/R/<id>" reaches the response page
      for that id, with or without a user. */
  lemma ResponseLinkRoundTrip(id: string, upper: bool, user: bool)
    requires id != "" && '/' !in id
    ensures var link := (if upper then "/R/" else "/r/") + id;
      && ResponseRequestId(link) == Some(id)
      && Route(link, user) == Show(BabysitterResponse(id))
  {
    var link := (if upper then "/R/" else "/r/") + id;
    assert link[..3] == if upper then "/R/" else "/r/";
    assert Lower(link[..3]) == "/r/";
    assert link[3..] == id;
    ResponsePrefixIsNotFixedPath(link);
  }

  /** Without a user, only the public pages are ever rendered. */
  lemma NoUserSeesOnlyPublicPages(path: string)
    ensures Route(path, false).Show? ==> IsPublic(Route(path, false).page)
  {
  }

  /** Each guarded path, in any case, redirects a visitor without a user to
      the login page, replacing the history entry, and shows a user the
      page it names. */
  lemma GuardedPathsRedirectToLogin(path: string)
    requires Lower(path) in ["/upgrade", "/babysitters", "/family", "/create-request", "/requests"]
    ensures Route(path, false) == Navigate("/login", true)
    ensures Route(path, true).Show? && !IsPublic(Route(path, true).page)
    ensures Lower(path) == "/upgrade" ==> Route(path, true) == Show(Upgrade)
    ensures Lower(path) == "/babysitters" ==> Route(path, true) == Show(BabysitterList)
    ensures Lower(path) == "/family" ==> Route(path, true) == Show(MyFamily)
    ensures Lower(path) == "/create-request" ==> Route(path, true) == Show(CreateRequest)
    ensures Lower(path) == "/requests" ==> Route(path, true) == Show(RequestDashboard)
  {
    if ResponseRequestId(path).Some? {
      ResponsePrefixIsNotFixedPath(path);
    }
  }

  /** The three public fixed paths, in any case, show their own page with
      or without a user. */
  lemma PublicPathsShowTheirPage(path: string, user: bool)
    requires Lower(path) in ["/login", "/signup", "/confirm_upgrade"]
    ensures Lower(path) == "/login" ==> Route(path, user) == Show(Login)
    ensures Lower(path) == "/signup" ==> Route(path, user) == Show(Signup)
    ensures Lower(path) == "/confirm_upgrade" ==> Route(path, user) == Show(ConfirmUpgrade)
  {
    if ResponseRequestId(path).Some? {
      ResponsePrefixIsNotFixedPath(path);
    }
  }

  /** The root shows the index to a user and sends anyone else to sign up. */
  lemma RootRouteDecision(user: bool)
    ensures Route("/", user) == if user then Show(Index) else Navigate("/signup", true)
  {
    assert Lower("/") == "/";
  }

  /** The response page is the same with or without a user. It has the
      navigation chrome exactly when a user reached it through "/R/", since
      the router folds case and `isResponsePage` does not. Every other page
      a user sees has the chrome. */
  lemma NavChromeFollowsPage(path: string, user: bool)
    ensures Route(path, user).Show? && Route(path, user).page.BabysitterResponse? ==>
      && Route(path, !user) == Route(path, user)
      && (ShowsNavChrome(user, path) <==> user && path[..3] == "/R/")
    ensures user && Route(path, user).Show? && !Route(path, user).page.BabysitterResponse? ==>
      ShowsNavChrome(user, path)
  {
    if IsResponsePage(path) {
      assert path[1] == 'r' && path[2] == '/';
      ResponsePrefixIsNotFixedPath(path);
    }
    var id := ResponseRequestId(path);
    if id.Some? {
      assert Lower(path)[1] == 'r' && Lower(path)[2] == '/';
      ResponsePrefixIsNotFixedPath(path);
      if path == "/r/" + id.value {
        assert path[..3] == "/r/";
      } else {
        assert path[..3] == "/R/";
        assert !IsResponsePage(path) by {
          assert path[1] == 'R';
        }
      }
    }
  }

  /** A signed-in user who opens "/R/<id>" gets the response page together
      with the navigation bar and the floating button. */
  lemma UpperCaseLinkShowsNavChrome(id: string)
    requires id != "" && '/' !in id
    ensures Route("/R/" + id, true) == Show(BabysitterResponse(id))
    ensures ShowsNavChrome(true, "/R/" + id)
  {
    ResponseLinkRoundTrip(id, true, true);
    assert ("/R/" + id)[1] == 'R';
  }
}
