/** The current revision of the authenticator (package crc_jupyter_auth):
    its settings, the login routing of RemoteUserLoginHandler.get and the
    handler registration of both authenticator classes. */
module CrcAuth {
  import opened Text
  import opened Login

  const PortalUrl: string := "https://crc.pitt.edu/Access-CRC-Web-Portals"

  /** The defaults of AuthenticatorSettings in this revision: both failure
      redirects point at the same portal page. */
  const Defaults: Settings := Settings("Cn", "isMemberOf", "SAM-SSLVPNSAMUsers", PortalUrl, PortalUrl)

  /** The username the handler works with: the header value lower-cased, then stripped. */
  function RemoteUser(headers: map<string, string>, cfg: Settings): string {
    Strip(Lower(Header(headers, cfg.headerName)))
  }

  /** The role tokens: the header value stripped, then split on ';'. */
  function RemoteRoles(headers: map<string, string>, cfg: Settings): seq<string> {
    Split(Strip(Header(headers, cfg.headerVpn)), ';')
  }

  /** The role check as written: does the required role appear among the tokens? */
  predicate HasRole(headers: map<string, string>, cfg: Settings) {
    cfg.requiredVpnRole in RemoteRoles(headers, cfg)
  }

  /** Everything RemoteUserLoginHandler.get does, in order: the shared steps,
      with the role redirect going to vpn_redirect when the role IS present
      and the home-directory redirect going to user_redirect. */
  function LoginTrace(headers: map<string, string>, cfg: Settings, homeExists: bool, baseUrl: string): seq<Action> {
    Steps(RemoteUser(headers, cfg), HasRole(headers, cfg), External(cfg.vpnRedirect),
          homeExists, External(cfg.userRedirect), baseUrl)
  }

  /** The request handler: the request headers, the authenticator's settings and
      the hub's base URL it is created with, and the log of what it has done. */
  class RemoteUserLoginHandler {
    const headers: map<string, string>
    const authenticator: Settings
    const baseUrl: string
    var log: seq<Action>

    constructor (headers: map<string, string>, authenticator: Settings, baseUrl: string)
      ensures this.headers == headers && this.authenticator == authenticator && this.baseUrl == baseUrl
      ensures log == []
    {
      this.headers := headers;
      this.authenticator := authenticator;
      this.baseUrl := baseUrl;
      log := [];
    }

    /** self.redirect(target): recorded; the handler carries on afterwards. */
    method Redirect(target: Target)
      modifies this
      ensures log == old(log) + [RedirectTo(target)]
    {
      log := log + [RedirectTo(target)];
    }

    /** self.user_from_username(name): the user is identified by its name. */
    method UserFromUsername(name: string) returns (user: string)
      modifies this
      ensures user == name
      ensures log == old(log) + [FetchUser(name)]
    {
      log := log + [FetchUser(name)];
      user := name;
    }

    /** self.set_login_cookie(user) */
    method SetLoginCookie(user: string)
      modifies this
      ensures log == old(log) + [SetCookie(user)]
    {
      log := log + [SetCookie(user)];
    }

    /** get(): raising HTTPError(401) is recorded and ends the call.
        homeExists stands for os.path.exists(os.path.expanduser('~' + user)). */
    method Get(homeExists: bool)
      modifies this
      ensures log == old(log) + LoginTrace(headers, authenticator, homeExists, baseUrl)
    {
      var headerName := authenticator.headerName;
      var remoteUser := Strip(Lower(Header(headers, headerName)));
      if remoteUser == "" {
        log := log + [Raise(401)];
        return;
      }
      ghost var start := log;

      var headerVpn := authenticator.headerVpn;
      var remoteRoles := Split(Strip(Header(headers, headerVpn)), ';');
      ghost var done: seq<Action> := [];
      if authenticator.requiredVpnRole in remoteRoles {
        Redirect(External(authenticator.vpnRedirect));
        done := [RedirectTo(External(authenticator.vpnRedirect))];
      }
      assert log == start + done;

      var user := UserFromUsername(remoteUser);
      AppendAssoc(start, done, [FetchUser(user)]);
      done := done + [FetchUser(user)];
      if !homeExists {
        Redirect(External(authenticator.userRedirect));
        AppendAssoc(start, done, [RedirectTo(External(authenticator.userRedirect))]);
        done := done + [RedirectTo(External(authenticator.userRedirect))];
      }
      assert log == start + done;

      SetLoginCookie(user);
      AppendAssoc(start, done, [SetCookie(user)]);
      done := done + [SetCookie(user)];
      Redirect(HubPath(baseUrl, "home"));
      AppendAssoc(start, done, [RedirectTo(HubPath(baseUrl, "home"))]);
      done := done + [RedirectTo(HubPath(baseUrl, "home"))];
      assert done == LoginTrace(headers, authenticator, homeExists, baseUrl);
    }
  }

  /** A missing header is handled exactly like one present with the empty
      value, both for the username header and for the role header. */
  lemma MissingHeaderIsEmpty(headers: map<string, string>, cfg: Settings, homeExists: bool, baseUrl: string)
    ensures cfg.headerName !in headers ==>
      LoginTrace(headers, cfg, homeExists, baseUrl) == LoginTrace(headers[cfg.headerName := ""], cfg, homeExists, baseUrl)
    ensures cfg.headerVpn !in headers ==>
      LoginTrace(headers, cfg, homeExists, baseUrl) == LoginTrace(headers[cfg.headerVpn := ""], cfg, homeExists, baseUrl)
  {
  }

  // ----- the 401 check -----

  /** A missing username header, or one that is empty after lower-casing and
      stripping (so also a whitespace-only one), raises 401 and nothing else
      happens: no redirect, no user lookup, no cookie. Otherwise no 401 is raised. */
  lemma Rejects401(headers: map<string, string>, cfg: Settings, homeExists: bool, baseUrl: string)
    ensures var trace := LoginTrace(headers, cfg, homeExists, baseUrl);
      (cfg.headerName !in headers || AllSpace(headers[cfg.headerName])) <==> trace == [Raise(401)]
    ensures var trace := LoginTrace(headers, cfg, homeExists, baseUrl);
      Raise(401) in trace ==> trace == [Raise(401)]
  {
    var raw := Header(headers, cfg.headerName);
    LowerKeepsSpace(raw);
    assert RemoteUser(headers, cfg) == "" <==> AllSpace(raw);
    StepsReject(RemoteUser(headers, cfg), HasRole(headers, cfg), External(cfg.vpnRedirect),
                homeExists, External(cfg.userRedirect), baseUrl);
  }

  /** The username used past the 401 check is non-empty, has no surrounding
      whitespace and is its own lower case. */
  lemma UsernameNormalised(headers: map<string, string>, cfg: Settings)
    requires RemoteUser(headers, cfg) != ""
    ensures IsStripped(RemoteUser(headers, cfg))
    ensures Lower(RemoteUser(headers, cfg)) == RemoteUser(headers, cfg)
  {
    var lowered := Lower(Header(headers, cfg.headerName));
    LowerIsLowered(Header(headers, cfg.headerName));
    StripLowered(lowered);
    LoweredFixed(Strip(lowered));
  }

  /** The username is the header value with the surrounding whitespace
      cut off and the letters lower-cased. */
  lemma UsernameOfPadded(headers: map<string, string>, cfg: Settings, w1: string, name: string, w2: string)
    requires cfg.headerName in headers && headers[cfg.headerName] == w1 + name + w2
    requires AllSpace(w1) && AllSpace(w2) && IsStripped(name)
    ensures RemoteUser(headers, cfg) == Lower(name)
  {
    LowerAppend(w1, name);
    LowerAppend(w1 + name, w2);
    LowerKeepsSpace(w1);
    LowerKeepsSpace(w2);
    LowerKeepsStripped(name);
    StripPadded(Lower(w1), Lower(name), Lower(w2));
  }

  // ----- the role check -----

  /** The token list is never empty, a missing or blank header gives the one
      empty token, and joining the tokens with ';' gives back the stripped header. */
  lemma RoleTokens(headers: map<string, string>, cfg: Settings)
    ensures |RemoteRoles(headers, cfg)| >= 1
    ensures Join(RemoteRoles(headers, cfg), ';') == Strip(Header(headers, cfg.headerVpn))
    ensures (cfg.headerVpn !in headers || AllSpace(headers[cfg.headerVpn])) ==> RemoteRoles(headers, cfg) == [""]
  {
    JoinSplit(Strip(Header(headers, cfg.headerVpn)), ';');
  }

  /** The role matches only as a whole token: when the header is a ';'-join
      of separator-free roles, stripped and then padded with whitespace, the
      check holds exactly when the required role is one of those roles,
      compared case-sensitively. */
  lemma RoleMatchIsWholeToken(headers: map<string, string>, cfg: Settings, w1: string, roles: seq<string>, w2: string)
    requires |roles| >= 1 && forall k :: 0 <= k < |roles| ==> ';' !in roles[k]
    requires cfg.headerVpn in headers && headers[cfg.headerVpn] == w1 + Join(roles, ';') + w2
    requires AllSpace(w1) && AllSpace(w2) && IsStripped(Join(roles, ';'))
    ensures HasRole(headers, cfg) <==> cfg.requiredVpnRole in roles
  {
    StripPadded(w1, Join(roles, ';'), w2);
    SplitJoin(roles, ';');
  }

  /** A role containing ';' never matches. */
  lemma RoleWithSeparatorNeverMatches(headers: map<string, string>, cfg: Settings)
    requires ';' in cfg.requiredVpnRole
    ensures !HasRole(headers, cfg)
  {
  }

  /** A role header holding one role, with no ';' and no surrounding
      whitespace, passes the check exactly when it is the required role. */
  lemma SingleRoleHeader(headers: map<string, string>, cfg: Settings, v: string)
    requires cfg.headerVpn in headers && headers[cfg.headerVpn] == v
    requires IsStripped(v) && ';' !in v
    ensures HasRole(headers, cfg) <==> v == cfg.requiredVpnRole
  {
    StrippedFixed(v);
    SplitNoSep(v, ';');
  }

  /** No case folding: a single role that differs from the required role only
      in letter case does not match. */
  lemma RoleMatchIsCaseSensitive(headers: map<string, string>, cfg: Settings, v: string)
    requires cfg.headerVpn in headers && headers[cfg.headerVpn] == v
    requires IsStripped(v) && ';' !in v
    requires Lower(v) == Lower(cfg.requiredVpnRole) && v != cfg.requiredVpnRole
    ensures !HasRole(headers, cfg)
  {
    SingleRoleHeader(headers, cfg, v);
  }

  /** No prefix match: a single role that extends the required role does not match. */
  lemma RoleMatchIsNotPrefix(headers: map<string, string>, cfg: Settings, suffix: string)
    requires cfg.headerVpn in headers && headers[cfg.headerVpn] == cfg.requiredVpnRole + suffix
    requires suffix != [] && IsStripped(cfg.requiredVpnRole + suffix) && ';' !in cfg.requiredVpnRole + suffix
    ensures !HasRole(headers, cfg)
  {
    SingleRoleHeader(headers, cfg, cfg.requiredVpnRole + suffix);
  }

  /** As written, the first action past the 401 check is the vpn_redirect
      exactly when the required role IS among the tokens. */
  lemma VpnRedirectIffRolePresent(headers: map<string, string>, cfg: Settings, homeExists: bool, baseUrl: string)
    requires RemoteUser(headers, cfg) != ""
    ensures LoginTrace(headers, cfg, homeExists, baseUrl)[0] == RedirectTo(External(cfg.vpnRedirect))
        <==> HasRole(headers, cfg)
  {
    StepsFirst(RemoteUser(headers, cfg), HasRole(headers, cfg), External(cfg.vpnRedirect),
               homeExists, External(cfg.userRedirect), baseUrl);
  }

  /** With the default settings, a username and no role header, the handler
      never redirects to vpn_redirect when the home directory exists: its only
      redirect is the one to base_url/home. The comment above the role check
      and the test of a missing role expect the vpn_redirect here. */
  lemma MissingRoleIsNotRedirected(headers: map<string, string>, baseUrl: string)
    requires Defaults.headerVpn !in headers
    requires RemoteUser(headers, Defaults) != ""
    ensures RedirectTo(External(Defaults.vpnRedirect)) !in LoginTrace(headers, Defaults, true, baseUrl)
    ensures Redirects(LoginTrace(headers, Defaults, true, baseUrl)) == [HubPath(baseUrl, "home")]
  {
    RoleTokens(headers, Defaults);
    assert !HasRole(headers, Defaults) by {
      assert Defaults.requiredVpnRole != "";
    }
    var trace := LoginTrace(headers, Defaults, true, baseUrl);
    CleanLoginIff(headers, Defaults, true, baseUrl);
    RedirectsHas(trace, External(Defaults.vpnRedirect));
  }

  // ----- the home-directory check and the end of the trace -----

  /** A missing home directory inserts exactly one redirect to user_redirect,
      right after the user lookup; nothing else in the trace depends on it. */
  lemma HomeStepOnlyDependsOnHome(headers: map<string, string>, cfg: Settings, baseUrl: string)
    requires RemoteUser(headers, cfg) != ""
    ensures var present := LoginTrace(headers, cfg, true, baseUrl);
      var missing := LoginTrace(headers, cfg, false, baseUrl);
      |present| >= 3 && present[|present| - 3] == FetchUser(RemoteUser(headers, cfg))
      && missing == present[..|present| - 2] + [RedirectTo(External(cfg.userRedirect))] + present[|present| - 2..]
  {
    StepsHome(RemoteUser(headers, cfg), HasRole(headers, cfg), External(cfg.vpnRedirect),
              External(cfg.userRedirect), baseUrl);
  }

  /** Failure redirects do not stop the handler: past the 401 check the user is
      looked up, and the trace ends with the login cookie and the redirect to
      base_url/home; the redirects are the vpn_redirect when the role is
      present, the user_redirect when ~user is missing and the home redirect,
      in this order. */
  lemma LoginAlwaysCompletes(headers: map<string, string>, cfg: Settings, homeExists: bool, baseUrl: string)
    requires RemoteUser(headers, cfg) != ""
    ensures var trace := LoginTrace(headers, cfg, homeExists, baseUrl);
      && FetchUser(RemoteUser(headers, cfg)) in trace
      && EndsWithLogin(trace, RemoteUser(headers, cfg), baseUrl)
      && Redirects(trace) ==
         (if HasRole(headers, cfg) then [External(cfg.vpnRedirect)] else [])
         + (if homeExists then [] else [External(cfg.userRedirect)])
         + [HubPath(baseUrl, "home")]
  {
    StepsComplete(RemoteUser(headers, cfg), HasRole(headers, cfg), External(cfg.vpnRedirect),
                  homeExists, External(cfg.userRedirect), baseUrl);
  }

  /** Past the 401 check, base_url/home is the only redirect exactly when
      neither failure step fires: the required role is not among the tokens
      and the home directory exists. */
  lemma CleanLoginIff(headers: map<string, string>, cfg: Settings, homeExists: bool, baseUrl: string)
    requires RemoteUser(headers, cfg) != ""
    ensures Redirects(LoginTrace(headers, cfg, homeExists, baseUrl)) == [HubPath(baseUrl, "home")]
        <==> !HasRole(headers, cfg) && homeExists
  {
    LoginAlwaysCompletes(headers, cfg, homeExists, baseUrl);
  }

  /** The handler is a function of its inputs: the same request, settings and
      home-directory answer give the same trace whatever the log held before. */
  method GetTwice(headers: map<string, string>, cfg: Settings, homeExists: bool, baseUrl: string)
    returns (first: seq<Action>, second: seq<Action>)
    ensures first == second == LoginTrace(headers, cfg, homeExists, baseUrl)
  {
    var handler := new RemoteUserLoginHandler(headers, cfg, baseUrl);
    handler.Get(homeExists);
    first := handler.log;
    handler.Get(homeExists);
    second := handler.log[|first|..];
  }
}
