# Jupyter-Authenticator login routing, modelled in Dafny

The repository provides a JupyterHub authenticator plugin. Its only logic is
`RemoteUserLoginHandler.get`, which works in this order:

1. It reads the username from a request header. An empty username raises HTTP 401.
2. It checks a VPN role header.
3. It fetches the hub user for that name, then checks that the user has a home directory.
4. It logs the user in: it sets the login cookie and redirects to the hub's `home` page.

The role check and the home-directory check can each issue a redirect. The
handler does not return after such a redirect, so every later step is still called.
This model therefore describes a call to `get` as the ordered trace of its side
effects (`Login.Action`), not as a single outcome.

Two revisions are modelled side by side:

- **Current revision (`crc_jupyter_auth`), module `CrcAuth`.**
  - `get` strips and lower-cases the username.
  - It splits the stripped role header on `;` and tests whether `required_vpn_role` is one of the tokens.
  - Both redirect targets come from the settings.
- **Older revision (`jhub_remote_user_authenticator`), module `JhubAuth`.**
  - `get` only lower-cases the username.
  - It compares the whole role header with the required role.
  - It redirects to two hard-coded pages.

Other modules:

- `Login` holds what both revisions share:
  - the trace vocabulary and the `AuthenticatorSettings` record;
  - `get_handlers`;
  - `Steps`, the shape of `get`, with lemmas about it.
- `Text` models `str.lower`, `str.strip`, `str.split` and `sep.join` on ASCII.
- `Revisions` compares the two revisions on the same request.
- `Version` models how `version.py` builds `__version__` from `version_info`.

The model follows the code as written in the places where the code's comments and tests disagree with it:

- **The role check is inverted.** `crc_jupyter_auth/remote_user_auth.py:39` redirects to `vpn_redirect` when the required role IS present. The comment at line 35 says the check is for a *necessary* role. `tests/test_remote_user_login_handler.py:60-69` expects a redirect when the role is missing. `CrcAuth.MissingRoleIsNotRedirected` and `Revisions.ExactRoleInverted` / `Revisions.MissingRoleInverted` show the code's behaviour.
- **Routing does not short-circuit.** `get` has no `return` after `self.redirect` (`crc_jupyter_auth/remote_user_auth.py:40`, `:46`; `jhub_remote_user_authenticator/remote_user_auth.py:26`, `:32`). So a failure redirect is followed by the user lookup, the cookie and the home redirect (`Login.StepsComplete`).
- **Some tests target a later API.** `tests/test_request_routing.py` tests settings (`username_header`, `vpn_header`, `missing_role_redirect`) and a 404 fallback that neither revision has. That behaviour is not modelled.

## Model

| member | source | states |
|---|---|---|
| Text.Lower | crc_jupyter_auth/remote_user_auth.py:31 | `str.lower()` keeps the length; characterised further by `Text.LowerPointwise` |
| Text.LowerPointwise | crc_jupyter_auth/remote_user_auth.py:31 | `str.lower()` maps each character on its own: `A`..`Z` to `a`..`z`, every other character unchanged |
| Text.LowerIdempotent | crc_jupyter_auth/remote_user_auth.py:31 | lower-casing twice is lower-casing once |
| Text.LowerAppend | crc_jupyter_auth/remote_user_auth.py:31 | lower-casing distributes over concatenation |
| Text.Strip | crc_jupyter_auth/remote_user_auth.py:31 | `str.strip()` leaves no whitespace at either end, and is empty exactly when the input is all whitespace |
| Text.StripIsSlice | crc_jupyter_auth/remote_user_auth.py:31 | the stripped string is a slice of the input with only whitespace cut off on both sides |
| Text.StripIdempotent | crc_jupyter_auth/remote_user_auth.py:31 | stripping twice is stripping once |
| Text.StripPadded | crc_jupyter_auth/remote_user_auth.py:31 | stripping whitespace + t + whitespace, with t stripped, gives t |
| Text.StripLowered | crc_jupyter_auth/remote_user_auth.py:31 | stripping a lower-cased string keeps it lower-cased |
| Text.Split | crc_jupyter_auth/remote_user_auth.py:38 | `str.split(sep)` gives at least one piece, and no piece contains the separator |
| Text.JoinSplit | crc_jupyter_auth/remote_user_auth.py:38 | joining the pieces of a split with the separator restores the string |
| Text.SplitJoin | crc_jupyter_auth/remote_user_auth.py:38 | splitting a join of separator-free pieces restores the pieces |
| Text.SplitCount | crc_jupyter_auth/remote_user_auth.py:38 | a split has one more piece than the string has separators |
| Text.Join | version.py:5 | definition of `sep.join(parts)`; characterised by `Text.JoinSplit` and `Text.SplitJoin` |
| Text.Count | version.py:5 | definition of `str.count(c)`; characterised by `Text.SplitCount`, `Text.JoinCount` and `Text.CountZero` |
| Text.CountZero | version.py:5 | a character occurs no times exactly when it is not in the string |
| Text.JoinCount | version.py:5 | a join of separator-free pieces has exactly one separator fewer than there are pieces |
| Login.Header | crc_jupyter_auth/remote_user_auth.py:31 | definition of `headers.get(name, "")`; characterised by `CrcAuth.MissingHeaderIsEmpty` and `JhubAuth.MissingHeaderIsEmpty` |
| Login.Steps | crc_jupyter_auth/remote_user_auth.py:30-50 | definition of the order of the side effects of `get`, shared by both revisions; characterised by `Login.StepsReject`, `Login.StepsFirst`, `Login.StepsComplete` and `Login.StepsHome` |
| Login.StepsReject | crc_jupyter_auth/remote_user_auth.py:32-33 | an empty username gives the 401 and nothing else, and a non-empty one gives no 401 anywhere in the trace |
| Login.StepsFirst | crc_jupyter_auth/remote_user_auth.py:39-40 | past the 401 check, the first action is the role redirect exactly when the role step fires |
| Login.StepsComplete | crc_jupyter_auth/remote_user_auth.py:39-50 | past the 401 check, the user is fetched and the trace ends with the cookie and the home redirect; the redirects are role, home-directory, home, each as its condition says |
| Login.StepsHome | crc_jupyter_auth/remote_user_auth.py:43-46 | a missing home directory inserts exactly one redirect right after the user lookup and changes nothing else |
| Login.Route | tests/test_registration.py:17-19 | the lookup `dict(handlers)[path]`, applied to the list of `crc_jupyter_auth/remote_user_auth.py:95-97`: a handler is found exactly when some pair has that path, and it is the handler of the last such pair |
| Login.GetHandlers | crc_jupyter_auth/remote_user_auth.py:85-123 | `get_handlers` of both authenticator classes routes `/login` to `RemoteUserLoginHandler`, not to JupyterHub's own `LoginHandler`, and registers no other path; the older revision's two `get_handlers` (`jhub_remote_user_authenticator/remote_user_auth.py:71-74`, `88-91`) are the same |
| CrcAuth.Defaults | crc_jupyter_auth/remote_user_auth.py:56-79 | constant: `header_name='Cn'`, `header_vpn='isMemberOf'`, `required_vpn_role='SAM-SSLVPNSAMUsers'`, and both redirects the portal page; compared in `Revisions.DefaultsCompared` |
| CrcAuth.RemoteUser | crc_jupyter_auth/remote_user_auth.py:30-31 | definition of the username; characterised by `CrcAuth.UsernameNormalised` and `CrcAuth.UsernameOfPadded` |
| CrcAuth.RemoteRoles | crc_jupyter_auth/remote_user_auth.py:37-38 | definition of the role tokens; characterised by `CrcAuth.RoleTokens` |
| CrcAuth.HasRole | crc_jupyter_auth/remote_user_auth.py:39 | definition of the role test; characterised by `CrcAuth.RoleMatchIsWholeToken` and `CrcAuth.SingleRoleHeader` |
| CrcAuth.LoginTrace | crc_jupyter_auth/remote_user_auth.py:26-50 | definition of the trace of `get`; characterised by `CrcAuth.Rejects401`, `CrcAuth.LoginAlwaysCompletes`, `CrcAuth.CleanLoginIff` and `CrcAuth.HomeStepOnlyDependsOnHome` |
| CrcAuth.MissingHeaderIsEmpty | crc_jupyter_auth/remote_user_auth.py:31-38 | a missing username header, or a missing role header, gives the same trace as that header present with the empty value |
| CrcAuth.RemoteUserLoginHandler.Get | crc_jupyter_auth/remote_user_auth.py:26-50 | the log grows by exactly the trace of `get` for the handler's headers, settings, home-directory answer and base URL |
| CrcAuth.RemoteUserLoginHandler.Redirect | crc_jupyter_auth/remote_user_auth.py:40 | `self.redirect` appends one redirect and does not end the call |
| CrcAuth.RemoteUserLoginHandler.UserFromUsername | crc_jupyter_auth/remote_user_auth.py:43 | `self.user_from_username` records the lookup and returns the user of that name |
| CrcAuth.RemoteUserLoginHandler.SetLoginCookie | crc_jupyter_auth/remote_user_auth.py:49 | `self.set_login_cookie` records the cookie for the user |
| CrcAuth.GetTwice | crc_jupyter_auth/remote_user_auth.py:26-50 | two calls on the same request give the same trace, whatever the log held before |
| CrcAuth.Rejects401 | crc_jupyter_auth/remote_user_auth.py:30-33 | 401 with nothing else happening exactly when the username header is missing or all whitespace; a 401 never comes with other actions |
| CrcAuth.UsernameNormalised | crc_jupyter_auth/remote_user_auth.py:31-32 | past the 401 check the username has no surrounding whitespace and is its own lower case |
| CrcAuth.UsernameOfPadded | crc_jupyter_auth/remote_user_auth.py:31 | a header of whitespace + name + whitespace gives the lower-cased name |
| CrcAuth.RoleTokens | crc_jupyter_auth/remote_user_auth.py:38 | the role tokens are never empty, a missing or blank header gives `[""]`, and joining them with `;` restores the stripped header |
| CrcAuth.RoleMatchIsWholeToken | crc_jupyter_auth/remote_user_auth.py:38-39 | when the role header is a `;`-join of one or more roles, none containing `;`, with no whitespace at either end of the join, and then padded with whitespace, the check holds exactly when the required role is one of those roles |
| CrcAuth.RoleWithSeparatorNeverMatches | crc_jupyter_auth/remote_user_auth.py:38-39 | a required role containing `;` never matches |
| CrcAuth.SingleRoleHeader | crc_jupyter_auth/remote_user_auth.py:38-39 | a role header holding one stripped role without `;` passes the check exactly when it is the required role |
| CrcAuth.RoleMatchIsCaseSensitive | crc_jupyter_auth/remote_user_auth.py:38-39 | a single role that differs from the required role only in letter case does not match |
| CrcAuth.RoleMatchIsNotPrefix | crc_jupyter_auth/remote_user_auth.py:38-39 | a role header that extends the required role by a non-empty suffix, the whole free of `;` and of surrounding whitespace, does not match |
| CrcAuth.VpnRedirectIffRolePresent | crc_jupyter_auth/remote_user_auth.py:39-40 | past the 401 check the first action is the `vpn_redirect` exactly when the required role IS among the tokens |
| CrcAuth.MissingRoleIsNotRedirected | crc_jupyter_auth/remote_user_auth.py:35-40 | with the defaults, no role header and an existing home directory, there is no `vpn_redirect` and the home redirect is the only redirect |
| CrcAuth.HomeStepOnlyDependsOnHome | crc_jupyter_auth/remote_user_auth.py:43-46 | a missing `~user` inserts one redirect to `user_redirect` right after the user lookup and changes nothing else |
| CrcAuth.LoginAlwaysCompletes | crc_jupyter_auth/remote_user_auth.py:38-50 | past the 401 check the user is fetched and logged in; the redirects are `vpn_redirect` if the role is present, `user_redirect` if `~user` is missing, then `base_url/home` |
| CrcAuth.CleanLoginIff | crc_jupyter_auth/remote_user_auth.py:39-50 | past the 401 check, the home redirect is the only redirect exactly when the required role is not among the tokens and `~user` exists |
| JhubAuth.Defaults | jhub_remote_user_authenticator/remote_user_auth.py:42-65 | constant: `header_name='Cn'`, `header_vpn='isMemberOf'`, `required_vpn_role='SAM-SSLVPNSAMUsers'`, `user_redirect` the `node/1042` page and `vpn_redirect` the `node/1041` page |
| JhubAuth.RemoteUser | jhub_remote_user_authenticator/remote_user_auth.py:16-17 | definition of the username; characterised by `JhubAuth.UsernameIsLoweredHeader` |
| JhubAuth.RoleMismatch | jhub_remote_user_authenticator/remote_user_auth.py:22-25 | definition of the role test; characterised by `JhubAuth.RoleListMismatches` and `JhubAuth.MissingRoleMismatches` |
| JhubAuth.LoginTrace | jhub_remote_user_authenticator/remote_user_auth.py:14-36 | definition of the trace of the older `get`; characterised by `JhubAuth.Rejects401`, `JhubAuth.LoginAlwaysCompletes`, `JhubAuth.CleanLoginIff` and `JhubAuth.TargetsIgnoreSettings` |
| JhubAuth.MissingHeaderIsEmpty | jhub_remote_user_authenticator/remote_user_auth.py:17-23 | a missing username header, or a missing role header, gives the same trace as that header present with the empty value |
| JhubAuth.RemoteUserLoginHandler.Get | jhub_remote_user_authenticator/remote_user_auth.py:14-36 | the log grows by exactly the trace of the older `get` |
| JhubAuth.RemoteUserLoginHandler.Redirect | jhub_remote_user_authenticator/remote_user_auth.py:26 | `self.redirect` appends one redirect and does not end the call |
| JhubAuth.RemoteUserLoginHandler.UserFromUsername | jhub_remote_user_authenticator/remote_user_auth.py:29 | the lookup is recorded and returns the user of that name |
| JhubAuth.RemoteUserLoginHandler.SetLoginCookie | jhub_remote_user_authenticator/remote_user_auth.py:35 | the cookie for the user is recorded |
| JhubAuth.Rejects401 | jhub_remote_user_authenticator/remote_user_auth.py:16-19 | 401 with nothing else happening exactly when the username header is missing or empty |
| JhubAuth.UsernameIsLoweredHeader | jhub_remote_user_authenticator/remote_user_auth.py:17 | the username has the header's length, is its own lower case, and is all whitespace exactly when the header is |
| JhubAuth.BlankUsernameAdmitted | jhub_remote_user_authenticator/remote_user_auth.py:17-18 | a username header of two spaces is fetched and logged in |
| JhubAuth.VpnRedirectIffMismatch | jhub_remote_user_authenticator/remote_user_auth.py:22-26 | past the 401 check the first action is the redirect to `node/1041` exactly when the role header differs from the required role |
| JhubAuth.RoleListMismatches | jhub_remote_user_authenticator/remote_user_auth.py:22-26 | for a required role without `;`, a role header that is a `;`-join of two or more roles without `;` fails the check, even when it contains the required role |
| JhubAuth.ListedRoleRedirects | jhub_remote_user_authenticator/remote_user_auth.py:22-26 | with the defaults, `X;SAM-SSLVPNSAMUsers` is sent to `node/1041` |
| JhubAuth.MissingRoleMismatches | jhub_remote_user_authenticator/remote_user_auth.py:23-25 | a missing role header fails the check exactly when the required role is non-empty |
| JhubAuth.TargetsIgnoreSettings | jhub_remote_user_authenticator/remote_user_auth.py:26-65 | changing `user_redirect` or `vpn_redirect` does not change the trace, and their defaults equal the two literals |
| JhubAuth.HomeStepOnlyDependsOnHome | jhub_remote_user_authenticator/remote_user_auth.py:29-32 | a missing `~user` inserts one redirect to `node/1042` right after the user lookup and changes nothing else |
| JhubAuth.LoginAlwaysCompletes | jhub_remote_user_authenticator/remote_user_auth.py:25-36 | past the 401 check the user is fetched and logged in; the redirects are `node/1041` on a mismatch, `node/1042` if `~user` is missing, then `base_url/home` |
| JhubAuth.CleanLoginIff | jhub_remote_user_authenticator/remote_user_auth.py:25-36 | past the 401 check, the home redirect is the only redirect exactly when the role header equals the required role and `~user` exists |
| Revisions.DefaultsCompared | crc_jupyter_auth/remote_user_auth.py:56-79 | the two revisions' defaults agree on the header names and the role; the redirect pages differ, and the current one uses one page for both |
| Revisions.UsernamesAgreeWhenStripped | crc_jupyter_auth/remote_user_auth.py:31 | on a header with no surrounding whitespace both revisions compute the same username |
| Revisions.BlankUsernameSplitsRevisions | crc_jupyter_auth/remote_user_auth.py:31-33 | a non-empty whitespace-only username is rejected with 401 by the current revision and admitted by the older one |
| Revisions.ExactRoleInverted | crc_jupyter_auth/remote_user_auth.py:38-40 | for a required role without `;` or surrounding whitespace, and a username that passes both 401 checks, a role header that is exactly the required role makes the current revision redirect to `vpn_redirect`, and the older one does not redirect for the role |
| Revisions.MissingRoleInverted | jhub_remote_user_authenticator/remote_user_auth.py:22-26 | for a non-empty required role, and a username that passes both 401 checks, a missing role header makes the older revision redirect for the role, and the current one does not |
| Version.NatToString | version.py:5 | `str(n)` for n >= 0 is non-empty decimal digits with no leading zero |
| Version.ParseNatToString | version.py:5 | reading back `str(n)` gives n |
| Version.Render | version.py:5 | `str` of an integer entry is non-empty and starts with `-` exactly when the integer is negative |
| Version.RenderAll | version.py:5 | `map(str, ...)` renders each entry in place |
| Version.Base | version.py:5 | definition of `'.'.join(map(str, version_info[:3]))`; characterised by `Version.ThreeEntries`, `Version.ThreeIntsTwoDots` and `Version.NumericVersionRoundTrip` |
| Version.VersionString | version.py:5-8 | definition of `__version__`; characterised by `Version.ThreeEntries`, `Version.FourthEntryIsSuffix`, `Version.BaseIsPrefix` and `Version.ShippedVersion` |
| Version.ThreeEntries | version.py:5-7 | exactly three entries give their renderings joined by `.`, with no suffix |
| Version.FourthEntryIsSuffix | version.py:7-8 | a fourth entry is appended after `-`, and entries past the fourth are ignored |
| Version.BaseIsPrefix | version.py:5-8 | the joined first three entries are always a prefix of `__version__` |
| Version.IntHasNoDot | version.py:5 | an integer's rendering contains no `.` |
| Version.ThreeIntsTwoDots | version.py:5 | three integer entries give exactly two `.` |
| Version.NumericVersionRoundTrip | version.py:5 | the version of three naturals splits on `.` into three digit strings that read back as the naturals |
| Version.ShippedVersion | version.py:4-5 | the shipped tuple `(0, 3, 0)` gives `"0.3.0"`, the literal in `crc_jupyter_auth/__init__.py` |
| Version.DevVersion | version.py:3-8 | appending `'dev'` to the tuple gives `"0.3.0-dev"` |

## Left out

- Tornado and JupyterHub plumbing is reduced to trace actions: `BaseHandler`, raising `web.HTTPError`, the mechanics of `redirect` and `finish`, `set_login_cookie`, and the ORM user creation in `user_from_username`. What Tornado does on a second `redirect` is not modelled.
- `hub.server.base_url` and `url_path_join` are kept opaque: the home redirect is `HubPath(baseUrl, "home")`.
- `os.path.expanduser('~user')` and `os.path.exists` are replaced by the boolean `homeExists` input to `Get`.
- Tornado looks header names up case-insensitively and allows several values per header. The model uses exact-key lookup in a map with one value per key.
- `Text.Lower` and `Text.Strip` cover ASCII only: case mapping is `A`..`Z`, and whitespace is the ASCII characters Python's `str.isspace` accepts. Non-ASCII case mapping and whitespace are not modelled.
- The Traitlets `Unicode(config=True)` machinery becomes the plain `Login.Settings` record with each revision's defaults. Configuration loading is not modelled.
- The `authenticate` coroutines only raise `NotImplementedError`, so there is nothing to model.
- `setup.py`, `docs/source/conf.py` and the re-export in `crc_jupyter_auth/__init__.py` are not part of this model. The `__version__` literal of `crc_jupyter_auth/__init__.py` is modelled as `Version.PackageVersion`.
- Some behaviour is exercised only by `tests/test_request_routing.py` and is not modelled, because neither revision has the attributes it relies on. This covers the 404 fallback and the `username_header`, `vpn_header` and `missing_role_redirect` settings.
- `Version.Render` writes out `str` only for integers and strings, the kinds of entry `version_info` holds. Other Python objects are not modelled.
