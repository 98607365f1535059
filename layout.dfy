/**
 * The dashboard shell of app/dashboard/layout.tsx: the session guard, the
 * logout button, and which navigation link is highlighted for a path.
 */
module Layout {
  import opened Wrappers
  import opened Browser
  import opened Auth

  const DashboardPath := "/dashboard"
  const SettingsPath := "/dashboard/settings"
  const LoginPath := "/login"

  /** The sidebar links, in display order. */
  const NavPaths := [DashboardPath, SettingsPath]

  /**
   * `isActive(path)` for the current `pathname` (absent before the router
   * knows it): the dashboard link only on the dashboard itself, every
   * other link on any path that starts with it.
   */
  predicate IsActive(path: string, pathname: Option<string>)
  {
    if path == DashboardPath then pathname == Some(DashboardPath)
    else pathname.Some? && path <= pathname.value
  }

  /** Without a pathname no link is highlighted. */
  lemma NoPathnameNoLink(path: string)
    ensures !IsActive(path, None)
  {
  }

  /** The settings pages highlight the settings link and not the dashboard link. */
  lemma {:induction false} SettingsPagesHighlightSettings(rest: string)
    ensures IsActive(SettingsPath, Some(SettingsPath + rest))
    ensures !IsActive(DashboardPath, Some(SettingsPath + rest))
  {
    assert |SettingsPath + rest| > |DashboardPath|;
  }

  /** At most one sidebar link is highlighted on any path. */
  lemma {:induction false} AtMostOneActive(pathname: Option<string>)
    ensures !(IsActive(DashboardPath, pathname) && IsActive(SettingsPath, pathname))
  {
    if IsActive(DashboardPath, pathname) {
      assert |SettingsPath| > |pathname.value|;
    }
  }

  /** The effect on mount: a visitor without a session is sent to the login page. */
  method RequireSession(b: Browser)
    modifies b
    ensures b.trace == old(b.trace) + (if IsAuthenticated(b) then [] else [Navigated(LoginPath)])
    ensures b.storage == old(b.storage) && b.notice == old(b.notice)
  {
    if !IsAuthenticated(b) {
      b.Navigate(LoginPath);
    } else {
      assert b.trace == old(b.trace) + [];
    }
  }

  /**
   * `handleLogout`: `authService.logout` runs to completion (the tokens are
   * gone) and only then is the login page opened, as the last effect.
   */
  method HandleLogout(b: Browser)
    modifies b
    ensures var rt := GetItem(old(b.storage), RefreshTokenKey);
      b.trace == old(b.trace) + (if Truthy(rt) then [Call(Post, "/auth/logout", map["refreshToken" := rt.value])] else []) +
        [Navigated(LoginPath)]
    ensures b.storage == old(b.storage) - {AccessTokenKey, RefreshTokenKey}
    ensures !IsAuthenticated(b)
    ensures b.notice == old(b.notice)
  {
    Logout(b);
    b.Navigate(LoginPath);
  }
}
