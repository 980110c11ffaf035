/** The main layout: which navigation chrome a page gets (the sidebar or
    the navbar menu) from the session and the user's menu-layout
    preference, and the sidebar's open/closed toggle. */
module Layout {
  import opened Wrappers
  import opened Auth

  const SidebarLayout := "sidebar"
  const HeaderLayout := "header"

  /** `user?.preferences?.menuLayout`: absent when any link of the chain is. */
  function LayoutPreference(user: Option<User>): Option<string> {
    if user.Some? && user.value.preferences.Some? then user.value.preferences.value.menuLayout else None
  }

  /** `user?.preferences?.menuLayout || 'sidebar'`: the preference when it is
      a non-empty string, the sidebar layout otherwise; never empty. */
  function MenuLayout(user: Option<User>): (layout: string)
    ensures layout != ""
    ensures layout == SidebarLayout || Some(layout) == LayoutPreference(user)
    ensures LayoutPreference(user).Some? && LayoutPreference(user).value != "" ==> Some(layout) == LayoutPreference(user)
  {
    var pref := LayoutPreference(user);
    if pref.Some? && pref.value != "" then pref.value else SidebarLayout
  }

  /** The sidebar is mounted. */
  predicate ShowsSidebar(isAuthenticated: bool, menuLayout: string) {
    isAuthenticated && menuLayout == SidebarLayout
  }

  /** The navbar's `showMenu` prop. */
  predicate NavbarShowsMenu(isAuthenticated: bool, menuLayout: string) {
    !isAuthenticated || menuLayout == HeaderLayout
  }

  /** The navbar's `isFixed` prop. */
  predicate NavbarIsFixed(isAuthenticated: bool, menuLayout: string) {
    !isAuthenticated || menuLayout == HeaderLayout
  }

  /** The main area gets a top margin (`mt-16`) to clear a fixed navbar. */
  predicate MainHasTopMargin(isAuthenticated: bool, menuLayout: string) {
    !isAuthenticated || menuLayout == HeaderLayout
  }

  /** What the layout renders around a page. */
  datatype Chrome = Chrome(sidebar: bool, navbarMenu: bool, navbarFixed: bool, topMargin: bool)

  function ChromeFor(a: AuthState): (c: Chrome)
    ensures !(c.sidebar && c.navbarMenu)
    ensures c.navbarMenu == c.navbarFixed == c.topMargin
    ensures c.navbarMenu <==> !a.isAuthenticated || MenuLayout(a.user) == HeaderLayout
    ensures c.sidebar <==> a.isAuthenticated && MenuLayout(a.user) == SidebarLayout
    ensures !a.isAuthenticated ==> c.navbarMenu && !c.sidebar
  {
    var layout := MenuLayout(a.user);
    Chrome(
      ShowsSidebar(a.isAuthenticated, layout),
      NavbarShowsMenu(a.isAuthenticated, layout),
      NavbarIsFixed(a.isAuthenticated, layout),
      MainHasTopMargin(a.isAuthenticated, layout))
  }

  /** The two menus never both show; a signed-in user whose preference
      names neither known layout gets neither menu. A signed-in user without
      a usable preference gets the sidebar. */
  lemma MenusExclusive(a: AuthState)
    ensures var c := ChromeFor(a);
      (!c.sidebar && !c.navbarMenu <==>
        a.isAuthenticated && MenuLayout(a.user) != SidebarLayout && MenuLayout(a.user) != HeaderLayout)
    ensures a.isAuthenticated && LayoutPreference(a.user).None? ==> ChromeFor(a).sidebar
  {
  }

  /** The layout's own state: whether the sidebar is open. */
  class MainLayout {
    var sidebarOpen: bool

    constructor ()
      ensures sidebarOpen
    {
      sidebarOpen := true;
    }

    method ToggleSidebar()
      modifies this
      ensures sidebarOpen == !old(sidebarOpen)
    {
      sidebarOpen := !sidebarOpen;
    }
  }

  /** Toggling twice restores the sidebar to where it was. */
  method ToggleTwiceRestores(layout: MainLayout)
    modifies layout
    ensures layout.sidebarOpen == old(layout.sidebarOpen)
  {
    layout.ToggleSidebar();
    layout.ToggleSidebar();
  }
}
