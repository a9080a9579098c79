/** What a login handler does to the outside world, as an ordered trace.
    Both revisions of RemoteUserLoginHandler share this vocabulary. */
module Login {

  /** Where a redirect points: a configured or literal URL, or a path under the
      hub's base URL (url_path_join(base_url, path), which is not modelled). */
  datatype Target = External(url: string) | HubPath(base: string, path: string)

  /** One side effect of the handler, in the order it happens:
      raising web.HTTPError(status), calling self.redirect(target),
      calling self.user_from_username(name) (which may create the hub user),
      and calling self.set_login_cookie(user) for the user of that name. */
  datatype Action =
    | Raise(status: int)
    | RedirectTo(target: Target)
    | FetchUser(name: string)
    | SetCookie(user: string)

  /** AuthenticatorSettings, the options both revisions declare, as one record. */
  datatype Settings = Settings(
    headerName: string,       // header carrying the username
    headerVpn: string,        // header carrying the user's role(s)
    requiredVpnRole: string,  // role the role check looks for
    userRedirect: string,     // where users without a home directory are sent
    vpnRedirect: string)      // where users failing the role check are sent

  /** Login handler classes: JupyterHub's own LoginHandler, and the
      RemoteUserLoginHandler both revisions define. */
  datatype Handler = LoginHandler | RemoteUserLoginHandler

  /** The URL prefix the authenticators register their handler under. */
  const LoginRoute: string := "/login"

  /** self.request.headers.get(name, ""): exact-key lookup, absent means empty. */
  function Header(headers: map<string, string>, name: string): string
  {
    if name in headers then headers[name] else ""
  }

  /** The redirect targets of a trace, in order. */
  function Redirects(trace: seq<Action>): (r: seq<Target>)
    ensures |r| <= |trace|
  {
    if trace == [] then []
    else (if trace[0].RedirectTo? then [trace[0].target] else []) + Redirects(trace[1..])
  }

  lemma {:induction false} RedirectsAppend(a: seq<Action>, b: seq<Action>)
    ensures Redirects(a + b) == Redirects(a) + Redirects(b)
    decreases |a|
  {
    if a != [] {
      assert (a + b)[1..] == a[1..] + b;
      RedirectsAppend(a[1..], b);
    } else {
      assert a + b == b;
    }
  }

  lemma AppendAssoc(a: seq<Action>, b: seq<Action>, c: seq<Action>)
    ensures a + (b + c) == a + b + c
  {
  }

  /** The successful end of a login: the cookie for user, then the redirect to base/home. */
  predicate EndsWithLogin(trace: seq<Action>, user: string, baseUrl: string) {
    |trace| >= 2 && trace[|trace| - 2..] == [SetCookie(user), RedirectTo(HubPath(baseUrl, "home"))]
  }

  /** The shape both revisions of get() share. An empty username raises 401,
      which ends the call. Otherwise: the role redirect when roleFires, the
      user lookup, the home-directory redirect when the directory is missing,
      the login cookie and the redirect to base/home. self.redirect does not
      end the call, so the steps after a failure redirect still run. */
  function Steps(user: string, roleFires: bool, roleTarget: Target,
                 homeExists: bool, homeTarget: Target, baseUrl: string): seq<Action>
  {
    if user == "" then [Raise(401)]
    else
      (if roleFires then [RedirectTo(roleTarget)] else [])
      + [FetchUser(user)]
      + (if homeExists then [] else [RedirectTo(homeTarget)])
      + [SetCookie(user)]
      + [RedirectTo(HubPath(baseUrl, "home"))]
  }

  /** An empty username gives the 401 alone; any other gives no 401 at all. */
  lemma StepsReject(user: string, roleFires: bool, roleTarget: Target,
                    homeExists: bool, homeTarget: Target, baseUrl: string)
    ensures var trace := Steps(user, roleFires, roleTarget, homeExists, homeTarget, baseUrl);
      (user == "" <==> trace == [Raise(401)]) && (user == "" <==> Raise(401) in trace)
  {
  }

  /** Past the 401 check the first action is the role redirect exactly when the role step fires. */
  lemma StepsFirst(user: string, roleFires: bool, roleTarget: Target,
                   homeExists: bool, homeTarget: Target, baseUrl: string)
    requires user != ""
    ensures Steps(user, roleFires, roleTarget, homeExists, homeTarget, baseUrl)[0] == RedirectTo(roleTarget) <==> roleFires
  {
  }

  /** The redirect steps of a trace are exactly the targets Redirects lists. */
  lemma {:induction false} RedirectsHas(trace: seq<Action>, t: Target)
    ensures RedirectTo(t) in trace <==> t in Redirects(trace)
    decreases |trace|
  {
    if trace != [] {
      RedirectsHas(trace[1..], t);
      assert trace == [trace[0]] + trace[1..];
    }
  }

  /** Past the 401 check the user is looked up and the trace ends with the login. */
  lemma StepsLogin(user: string, roleFires: bool, roleTarget: Target,
                   homeExists: bool, homeTarget: Target, baseUrl: string)
    requires user != ""
    ensures var trace := Steps(user, roleFires, roleTarget, homeExists, homeTarget, baseUrl);
      FetchUser(user) in trace && EndsWithLogin(trace, user, baseUrl)
  {
    var role: seq<Action> := if roleFires then [RedirectTo(roleTarget)] else [];
    var home: seq<Action> := if homeExists then [] else [RedirectTo(homeTarget)];
    var trace := Steps(user, roleFires, roleTarget, homeExists, homeTarget, baseUrl);
    assert trace == role + [FetchUser(user)] + home + [SetCookie(user), RedirectTo(HubPath(baseUrl, "home"))];
    assert trace[|role|] == FetchUser(user);
  }

  /** Past the 401 check the redirects are the role redirect, the
      home-directory redirect and the home redirect, each as its condition
      says, in this order. */
  lemma StepsRedirects(user: string, roleFires: bool, roleTarget: Target,
                       homeExists: bool, homeTarget: Target, baseUrl: string)
    requires user != ""
    ensures Redirects(Steps(user, roleFires, roleTarget, homeExists, homeTarget, baseUrl)) ==
      (if roleFires then [roleTarget] else []) + (if homeExists then [] else [homeTarget]) + [HubPath(baseUrl, "home")]
  {
    var role: seq<Action> := if roleFires then [RedirectTo(roleTarget)] else [];
    var home: seq<Action> := if homeExists then [] else [RedirectTo(homeTarget)];
    var head := role + [FetchUser(user)] + home;
    var tail := [SetCookie(user), RedirectTo(HubPath(baseUrl, "home"))];
    assert Steps(user, roleFires, roleTarget, homeExists, homeTarget, baseUrl) == head + tail;
    assert Redirects(tail) == [HubPath(baseUrl, "home")] by {
      assert tail[1..] == [RedirectTo(HubPath(baseUrl, "home"))];
      assert tail[1..][1..] == [];
    }
    assert Redirects([FetchUser(user)]) == [] by {
      assert [FetchUser(user)][1..] == [];
    }
    assert Redirects(role) == (if roleFires then [roleTarget] else []) by {
      assert roleFires ==> role[1..] == [];
    }
    assert Redirects(home) == (if homeExists then [] else [homeTarget]) by {
      assert !homeExists ==> home[1..] == [];
    }
    RedirectsAppend(head, tail);
    RedirectsAppend(role + [FetchUser(user)], home);
    RedirectsAppend(role, [FetchUser(user)]);
  }

  /** Both of the above: failure redirects never stop the login. */
  lemma StepsComplete(user: string, roleFires: bool, roleTarget: Target,
                      homeExists: bool, homeTarget: Target, baseUrl: string)
    requires user != ""
    ensures var trace := Steps(user, roleFires, roleTarget, homeExists, homeTarget, baseUrl);
      && FetchUser(user) in trace
      && EndsWithLogin(trace, user, baseUrl)
      && Redirects(trace) ==
         (if roleFires then [roleTarget] else []) + (if homeExists then [] else [homeTarget]) + [HubPath(baseUrl, "home")]
  {
    StepsLogin(user, roleFires, roleTarget, homeExists, homeTarget, baseUrl);
    StepsRedirects(user, roleFires, roleTarget, homeExists, homeTarget, baseUrl);
  }

  /** A missing home directory inserts exactly one redirect to homeTarget,
      right after the user lookup; the rest of the trace does not depend on it. */
  lemma StepsHome(user: string, roleFires: bool, roleTarget: Target, homeTarget: Target, baseUrl: string)
    requires user != ""
    ensures var present := Steps(user, roleFires, roleTarget, true, homeTarget, baseUrl);
      var missing := Steps(user, roleFires, roleTarget, false, homeTarget, baseUrl);
      |present| >= 3 && present[|present| - 3] == FetchUser(user)
      && missing == present[..|present| - 2] + [RedirectTo(homeTarget)] + present[|present| - 2..]
  {
    var role: seq<Action> := if roleFires then [RedirectTo(roleTarget)] else [];
    var tail := [SetCookie(user)] + [RedirectTo(HubPath(baseUrl, "home"))];
    var present := Steps(user, roleFires, roleTarget, true, homeTarget, baseUrl);
    assert present == role + [FetchUser(user)] + tail;
    assert present[..|present| - 2] == role + [FetchUser(user)];
    assert present[|present| - 2..] == tail;
  }

  /** What dict(handlers)[path] gives: the handler of the last pair with that path. */
  function Route(handlers: seq<(string, Handler)>, path: string): (r: Option<Handler>)
    ensures r.Some? <==> exists i :: 0 <= i < |handlers| && handlers[i].0 == path
    ensures r.Some? ==> exists i :: (0 <= i < |handlers| && handlers[i] == (path, r.value)
                                     && forall j :: i < j < |handlers| ==> handlers[j].0 != path)
  {
    if handlers == [] then None
    else
      var last := handlers[|handlers| - 1];
      if last.0 == path then Some(last.1) else Route(handlers[..|handlers| - 1], path)
  }

  /** The two authenticator classes, which share AuthenticatorSettings. */
  datatype Authenticator = RemoteUserAuthenticator | RemoteUserLocalAuthenticator

  /** get_handlers(app), identical in both classes and both revisions: /login
      is routed to RemoteUserLoginHandler, and nothing else is registered. */
  function GetHandlers(auth: Authenticator): (r: seq<(string, Handler)>)
    ensures Route(r, LoginRoute) == Some(RemoteUserLoginHandler)
    ensures forall i :: 0 <= i < |r| ==> r[i].0 == LoginRoute
  {
    [(LoginRoute, RemoteUserLoginHandler)]
  }

  datatype Option<T> = None | Some(value: T)
}
