/** The older revision of the authenticator (package
    jhub_remote_user_authenticator): its settings and the login routing of its
    RemoteUserLoginHandler.get. Its get_handlers is Login.GetHandlers. */
module JhubAuth {
  import opened Text
  import opened Login

  /** The page the role check sends to, written into get() as a literal. */
  const VpnPage: string := "https://crc.pitt.edu/node/1041"

  /** The page the home-directory check sends to, also a literal in get(). */
  const HomePage: string := "https://crc.pitt.edu/node/1042"

  /** The defaults of AuthenticatorSettings in this revision. */
  const Defaults: Settings := Settings("Cn", "isMemberOf", "SAM-SSLVPNSAMUsers", HomePage, VpnPage)

  /** The username: the header value lower-cased, with no stripping. */
  function RemoteUser(headers: map<string, string>, cfg: Settings): string {
    Lower(Header(headers, cfg.headerName))
  }

  /** The role check: the whole role header, unsplit and unstripped, is
      compared with the required role; any difference fails the check. */
  predicate RoleMismatch(headers: map<string, string>, cfg: Settings) {
    cfg.requiredVpnRole != Header(headers, cfg.headerVpn)
  }

  /** Everything this revision's get() does, in order: the shared steps, with
      the role redirect going to VpnPage on a mismatch and the home-directory
      redirect going to HomePage. user_redirect and vpn_redirect are not read. */
  function LoginTrace(headers: map<string, string>, cfg: Settings, homeExists: bool, baseUrl: string): seq<Action> {
    Steps(RemoteUser(headers, cfg), RoleMismatch(headers, cfg), External(VpnPage),
          homeExists, External(HomePage), baseUrl)
  }

  /** This revision's request handler, with the same constructor inputs and log
      as the current one. */
  class RemoteUserLoginHandler {
    const headers: map<string, string>
    const authenticator: Settings
    const baseUrl: string
    var log: seq<Action>

    constructor (headers: map<string, string>, authenticator: Settings, baseUrl: string)
      ensures this.headers == headers && this.authenticator == authenticator && this.baseUrl == baseUrl
      ensures log == []
    {
      this.headers := headers;
      this.authenticator := authenticator;
      this.baseUrl := baseUrl;
      log := [];
    }

    /** self.redirect(target): recorded; the handler carries on afterwards. */
    method Redirect(target: Target)
      modifies this
      ensures log == old(log) + [RedirectTo(target)]
    {
      log := log + [RedirectTo(target)];
    }

    /** self.user_from_username(name): the user is identified by its name. */
    method UserFromUsername(name: string) returns (user: string)
      modifies this
      ensures user == name
      ensures log == old(log) + [FetchUser(name)]
    {
      log := log + [FetchUser(name)];
      user := name;
    }

    /** self.set_login_cookie(user) */
    method SetLoginCookie(user: string)
      modifies this
      ensures log == old(log) + [SetCookie(user)]
    {
      log := log + [SetCookie(user)];
    }

    /** get(): raising HTTPError(401) is recorded and ends the call.
        homeExists stands for os.path.exists(os.path.expanduser('~' + user)). */
    method Get(homeExists: bool)
      modifies this
      ensures log == old(log) + LoginTrace(headers, authenticator, homeExists, baseUrl)
    {
      var headerName := authenticator.headerName;
      var remoteUser := Lower(Header(headers, headerName));
      if remoteUser == "" {
        log := log + [Raise(401)];
        return;
      }
      ghost var start := log;

      var headerVpn := authenticator.headerVpn;
      var remoteRoles := Header(headers, headerVpn);
      var requiredVpnRole := authenticator.requiredVpnRole;
      ghost var done: seq<Action> := [];
      if requiredVpnRole != remoteRoles {
        Redirect(External(VpnPage));
        done := [RedirectTo(External(VpnPage))];
      }
      assert log == start + done;

      var user := UserFromUsername(remoteUser);
      AppendAssoc(start, done, [FetchUser(user)]);
      done := done + [FetchUser(user)];
      if !homeExists {
        Redirect(External(HomePage));
        AppendAssoc(start, done, [RedirectTo(External(HomePage))]);
        done := done + [RedirectTo(External(HomePage))];
      }
      assert log == start + done;

      SetLoginCookie(user);
      AppendAssoc(start, done, [SetCookie(user)]);
      done := done + [SetCookie(user)];
      Redirect(HubPath(baseUrl, "home"));
      AppendAssoc(start, done, [RedirectTo(HubPath(baseUrl, "home"))]);
      done := done + [RedirectTo(HubPath(baseUrl, "home"))];
      assert done == LoginTrace(headers, authenticator, homeExists, baseUrl);
    }
  }

  /** A missing header is handled exactly like one present with the empty
      value, both for the username header and for the role header. */
  lemma MissingHeaderIsEmpty(headers: map<string, string>, cfg: Settings, homeExists: bool, baseUrl: string)
    ensures cfg.headerName !in headers ==>
      LoginTrace(headers, cfg, homeExists, baseUrl) == LoginTrace(headers[cfg.headerName := ""], cfg, homeExists, baseUrl)
    ensures cfg.headerVpn !in headers ==>
      LoginTrace(headers, cfg, homeExists, baseUrl) == LoginTrace(headers[cfg.headerVpn := ""], cfg, homeExists, baseUrl)
  {
  }

  // ----- the 401 check -----

  /** Only a missing or empty username header raises 401, and then nothing
      else happens; any non-empty value, whitespace included, gets past it. */
  lemma Rejects401(headers: map<string, string>, cfg: Settings, homeExists: bool, baseUrl: string)
    ensures var trace := LoginTrace(headers, cfg, homeExists, baseUrl);
      (cfg.headerName !in headers || headers[cfg.headerName] == "") <==> trace == [Raise(401)]
    ensures var trace := LoginTrace(headers, cfg, homeExists, baseUrl);
      Raise(401) in trace ==> trace == [Raise(401)]
  {
    LowerKeepsSpace(Header(headers, cfg.headerName));
    StepsReject(RemoteUser(headers, cfg), RoleMismatch(headers, cfg), External(VpnPage),
                homeExists, External(HomePage), baseUrl);
  }

  /** The username is the header lower-cased and nothing more: it has the
      header's length, is its own lower case, and keeps any whitespace. */
  lemma UsernameIsLoweredHeader(headers: map<string, string>, cfg: Settings)
    ensures |RemoteUser(headers, cfg)| == |Header(headers, cfg.headerName)|
    ensures IsLowered(RemoteUser(headers, cfg))
    ensures AllSpace(RemoteUser(headers, cfg)) <==> AllSpace(Header(headers, cfg.headerName))
  {
    LowerIsLowered(Header(headers, cfg.headerName));
    LowerKeepsSpace(Header(headers, cfg.headerName));
  }

  /** A username header of two spaces is let through: the user "  " is looked
      up and logged in. */
  lemma BlankUsernameAdmitted(baseUrl: string, homeExists: bool)
    ensures var trace := LoginTrace(map["Cn" := "  "], Defaults, homeExists, baseUrl);
      FetchUser("  ") in trace && EndsWithLogin(trace, "  ", baseUrl)
  {
    var headers := map["Cn" := "  "];
    assert Lower("  ") == "  " by {
      LoweredFixed("  ");
    }
    StepsComplete("  ", RoleMismatch(headers, Defaults), External(VpnPage),
                  homeExists, External(HomePage), baseUrl);
  }

  // ----- the role check -----

  /** Past the 401 check the first action is the redirect to VpnPage exactly
      when the role header is not the required role. */
  lemma VpnRedirectIffMismatch(headers: map<string, string>, cfg: Settings, homeExists: bool, baseUrl: string)
    requires RemoteUser(headers, cfg) != ""
    ensures LoginTrace(headers, cfg, homeExists, baseUrl)[0] == RedirectTo(External(VpnPage))
        <==> RoleMismatch(headers, cfg)
  {
    StepsFirst(RemoteUser(headers, cfg), RoleMismatch(headers, cfg), External(VpnPage),
               homeExists, External(HomePage), baseUrl);
  }

  /** A header listing several roles always fails the check, even when the
      required role is among them, as long as that role has no ';' itself. */
  lemma RoleListMismatches(headers: map<string, string>, cfg: Settings, roles: seq<string>)
    requires |roles| >= 2 && forall k :: 0 <= k < |roles| ==> ';' !in roles[k]
    requires cfg.headerVpn in headers && headers[cfg.headerVpn] == Join(roles, ';')
    requires ';' !in cfg.requiredVpnRole
    ensures RoleMismatch(headers, cfg)
  {
    JoinCount(roles, ';');
    CountZero(cfg.requiredVpnRole, ';');
  }

  /** The list "X;SAM-SSLVPNSAMUsers", which holds the default role, is sent
      to VpnPage with the default settings. */
  lemma ListedRoleRedirects(user: string, homeExists: bool, baseUrl: string)
    requires user != ""
    ensures var headers := map["Cn" := user, "isMemberOf" := "X;SAM-SSLVPNSAMUsers"];
      LoginTrace(headers, Defaults, homeExists, baseUrl)[0] == RedirectTo(External(VpnPage))
  {
    var headers := map["Cn" := user, "isMemberOf" := "X;SAM-SSLVPNSAMUsers"];
    assert |Header(headers, "isMemberOf")| != |Defaults.requiredVpnRole|;
    LowerKeepsSpace(user);
    VpnRedirectIffMismatch(headers, Defaults, homeExists, baseUrl);
  }

  /** A missing role header fails the check unless the required role is empty. */
  lemma MissingRoleMismatches(headers: map<string, string>, cfg: Settings)
    requires cfg.headerVpn !in headers
    ensures RoleMismatch(headers, cfg) <==> cfg.requiredVpnRole != ""
  {
  }

  // ----- the targets -----

  /** The redirect targets are literals: changing user_redirect or
      vpn_redirect changes nothing, and the defaults only repeat the literals. */
  lemma TargetsIgnoreSettings(headers: map<string, string>, cfg: Settings, userRedirect: string, vpnRedirect: string,
                              homeExists: bool, baseUrl: string)
    ensures LoginTrace(headers, cfg.(userRedirect := userRedirect, vpnRedirect := vpnRedirect), homeExists, baseUrl)
         == LoginTrace(headers, cfg, homeExists, baseUrl)
    ensures Defaults.userRedirect == HomePage && Defaults.vpnRedirect == VpnPage
  {
  }

  // ----- the home-directory check and the end of the trace -----

  /** A missing home directory inserts exactly one redirect to HomePage,
      right after the user lookup; nothing else in the trace depends on it. */
  lemma HomeStepOnlyDependsOnHome(headers: map<string, string>, cfg: Settings, baseUrl: string)
    requires RemoteUser(headers, cfg) != ""
    ensures var present := LoginTrace(headers, cfg, true, baseUrl);
      var missing := LoginTrace(headers, cfg, false, baseUrl);
      |present| >= 3 && present[|present| - 3] == FetchUser(RemoteUser(headers, cfg))
      && missing == present[..|present| - 2] + [RedirectTo(External(HomePage))] + present[|present| - 2..]
  {
    StepsHome(RemoteUser(headers, cfg), RoleMismatch(headers, cfg), External(VpnPage),
              External(HomePage), baseUrl);
  }

  /** Failure redirects do not stop the handler: past the 401 check the user
      is looked up and logged in, and the redirects are VpnPage on a role
      mismatch, HomePage when ~user is missing and base_url/home, in order. */
  lemma LoginAlwaysCompletes(headers: map<string, string>, cfg: Settings, homeExists: bool, baseUrl: string)
    requires RemoteUser(headers, cfg) != ""
    ensures var trace := LoginTrace(headers, cfg, homeExists, baseUrl);
      && FetchUser(RemoteUser(headers, cfg)) in trace
      && EndsWithLogin(trace, RemoteUser(headers, cfg), baseUrl)
      && Redirects(trace) ==
         (if RoleMismatch(headers, cfg) then [External(VpnPage)] else [])
         + (if homeExists then [] else [External(HomePage)])
         + [HubPath(baseUrl, "home")]
  {
    StepsComplete(RemoteUser(headers, cfg), RoleMismatch(headers, cfg), External(VpnPage),
                  homeExists, External(HomePage), baseUrl);
  }

  /** Past the 401 check, base_url/home is the only redirect exactly when the
      role header is the required role and the home directory exists. */
  lemma CleanLoginIff(headers: map<string, string>, cfg: Settings, homeExists: bool, baseUrl: string)
    requires RemoteUser(headers, cfg) != ""
    ensures Redirects(LoginTrace(headers, cfg, homeExists, baseUrl)) == [HubPath(baseUrl, "home")]
        <==> !RoleMismatch(headers, cfg) && homeExists
  {
    LoginAlwaysCompletes(headers, cfg, homeExists, baseUrl);
  }
}
