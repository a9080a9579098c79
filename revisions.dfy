/** How the two revisions of RemoteUserLoginHandler.get differ on the same
    request: the defaults they ship, the username they accept and the role
    check, whose outcome is the opposite one in the cases below. */
module Revisions {
  import opened Text
  import opened Login
  import CrcAuth
  import JhubAuth

  /** Both revisions read the same headers for the same role; only the
      default redirect pages moved. */
  lemma DefaultsCompared()
    ensures CrcAuth.Defaults.(userRedirect := "", vpnRedirect := "")
         == JhubAuth.Defaults.(userRedirect := "", vpnRedirect := "")
    ensures CrcAuth.Defaults.userRedirect != JhubAuth.Defaults.userRedirect
    ensures CrcAuth.Defaults.vpnRedirect != JhubAuth.Defaults.vpnRedirect
    ensures CrcAuth.Defaults.userRedirect == CrcAuth.Defaults.vpnRedirect
  {
    assert CrcAuth.PortalUrl[21] != JhubAuth.HomePage[21];
    assert CrcAuth.PortalUrl[21] != JhubAuth.VpnPage[21];
  }

  /** On a username header with no surrounding whitespace the two revisions
      compute the same username. */
  lemma UsernamesAgreeWhenStripped(headers: map<string, string>, cfg: Settings)
    requires IsStripped(Header(headers, cfg.headerName))
    ensures CrcAuth.RemoteUser(headers, cfg) == JhubAuth.RemoteUser(headers, cfg)
  {
    LowerKeepsStripped(Header(headers, cfg.headerName));
    StrippedFixed(Lower(Header(headers, cfg.headerName)));
  }

  /** A non-empty, whitespace-only username header is rejected with 401 by the
      current revision and let through by the older one. */
  lemma BlankUsernameSplitsRevisions(headers: map<string, string>, cfg: Settings, homeExists: bool, baseUrl: string)
    requires cfg.headerName in headers && headers[cfg.headerName] != [] && AllSpace(headers[cfg.headerName])
    ensures CrcAuth.LoginTrace(headers, cfg, homeExists, baseUrl) == [Raise(401)]
    ensures Raise(401) !in JhubAuth.LoginTrace(headers, cfg, homeExists, baseUrl)
  {
    CrcAuth.Rejects401(headers, cfg, homeExists, baseUrl);
    JhubAuth.Rejects401(headers, cfg, homeExists, baseUrl);
  }

  /** A role header that is exactly the required role (a single token with no
      surrounding whitespace): the current revision sends the user to
      vpn_redirect, the older one does not redirect for the role. */
  lemma ExactRoleInverted(headers: map<string, string>, cfg: Settings, homeExists: bool, baseUrl: string)
    requires cfg.headerVpn in headers && headers[cfg.headerVpn] == cfg.requiredVpnRole
    requires IsStripped(cfg.requiredVpnRole) && ';' !in cfg.requiredVpnRole
    requires CrcAuth.RemoteUser(headers, cfg) != "" && JhubAuth.RemoteUser(headers, cfg) != ""
    ensures CrcAuth.LoginTrace(headers, cfg, homeExists, baseUrl)[0] == RedirectTo(External(cfg.vpnRedirect))
    ensures JhubAuth.LoginTrace(headers, cfg, homeExists, baseUrl)[0] != RedirectTo(External(JhubAuth.VpnPage))
  {
    CrcAuth.RoleMatchIsWholeToken(headers, cfg, "", [cfg.requiredVpnRole], "");
    assert headers[cfg.headerVpn] == "" + Join([cfg.requiredVpnRole], ';') + "";
    CrcAuth.VpnRedirectIffRolePresent(headers, cfg, homeExists, baseUrl);
    JhubAuth.VpnRedirectIffMismatch(headers, cfg, homeExists, baseUrl);
  }

  /** No role header at all, for a non-empty required role: the older revision
      sends the user to its VPN page, the current one does not redirect for the
      role. */
  lemma MissingRoleInverted(headers: map<string, string>, cfg: Settings, homeExists: bool, baseUrl: string)
    requires cfg.headerVpn !in headers && cfg.requiredVpnRole != ""
    requires CrcAuth.RemoteUser(headers, cfg) != "" && JhubAuth.RemoteUser(headers, cfg) != ""
    ensures CrcAuth.LoginTrace(headers, cfg, homeExists, baseUrl)[0] != RedirectTo(External(cfg.vpnRedirect))
    ensures JhubAuth.LoginTrace(headers, cfg, homeExists, baseUrl)[0] == RedirectTo(External(JhubAuth.VpnPage))
  {
    CrcAuth.RoleTokens(headers, cfg);
    CrcAuth.VpnRedirectIffRolePresent(headers, cfg, homeExists, baseUrl);
    JhubAuth.VpnRedirectIffMismatch(headers, cfg, homeExists, baseUrl);
  }
}
