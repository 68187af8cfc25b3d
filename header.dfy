/** The second front end's page header (task4/frontend/src/components/Header.tsx): the
    navigation items, the search form, the profile dropdown and the mobile menu. */
module Header {
  import opened Wrappers
  import opened Text
  import opened Routes

  datatype NavItem = NavItem(name: string, path: string)

  const BaseNavItems := [NavItem("Home", "/"), NavItem("Recommendations", "/dashboard"),
                         NavItem("Browse", "/browse"), NavItem("My List", "/my-list")]
  const AdminNavItem := NavItem("Admin", "/admin")

  /** The navigation items a user sees: the four base items first and in order, then the
      admin item, which is there exactly for an administrator. */
  function NavItemsFor(user: Option<AuthUser>): (r: seq<NavItem>)
    ensures |r| == if IsAdminUser(user) then 5 else 4
    ensures r[..4] == BaseNavItems
    ensures AdminNavItem in r <==> IsAdminUser(user)
  {
    assert AdminNavItem !in BaseNavItems;
    BaseNavItems + (if IsAdminUser(user) then [AdminNavItem] else [])
  }

  /** `navItems`: the literal list, with the admin item pushed for an administrator. */
  method NavItems(user: Option<AuthUser>) returns (items: seq<NavItem>)
    ensures items == NavItemsFor(user)
  {
    items := BaseNavItems;
    if user.Some? && user.value.role == "ADMIN" {
      items := items + [AdminNavItem];
    }
  }

  /** The header shows only to signed-in users, and following any of its navigation
      items then shows a page:
      "Browse" and "My List" have no route and land on the home page, and the admin item
      reaches the admin panel. */
  lemma NavItemsLand(auth: AuthState)
    requires ShowsHeader(auth)
    ensures forall k :: 0 <= k < |NavItemsFor(auth.user)| ==>
      Resolve(NavItemsFor(auth.user)[k].path, auth, 2).Some?
    ensures Resolve("/browse", auth, 2) == Some(HomePage)
    ensures Resolve("/my-list", auth, 2) == Some(HomePage)
    ensures IsAdminUser(auth.user) ==> Resolve(AdminNavItem.path, auth, 2) == Some(AdminPage)
  {
    forall k | 0 <= k < |NavItemsFor(auth.user)|
      ensures Resolve(NavItemsFor(auth.user)[k].path, auth, 2).Some?
    {
      SignedInLanding(NavItemsFor(auth.user)[k].path, auth);
    }
    SignedInLanding("/browse", auth);
    SignedInLanding("/my-list", auth);
    SignedInLanding("/admin", auth);
  }

  /** `handleSearch`: the query is passed on, trimmed, when there is a handler and the
      query is not blank; otherwise nothing is passed on. */
  function SubmittedQuery(hasOnSearch: bool, query: string): (r: Option<string>)
    ensures r.Some? <==> hasOnSearch && !AllSpace(query)
    ensures r.Some? ==> r.value == Trim(query) && r.value != ""
    ensures r.Some? ==> !IsJsSpace(r.value[0]) && !IsJsSpace(r.value[|r.value| - 1])
  {
    TrimEmptyIff(query);
    TrimShape(query);
    if hasOnSearch && Trim(query) != "" then Some(Trim(query)) else None
  }

  /** What the header does outside its own state. */
  datatype HeaderEffect = Searched(query: string) | LoggedOut | Navigated(path: string)

  class Header {
    const user: Option<AuthUser>
    /** Whether an `onSearch` handler was passed. */
    const hasOnSearch: bool
    var searchQuery: string
    var isMenuOpen: bool
    var isProfileOpen: bool
    var effects: seq<HeaderEffect>

    constructor (user: Option<AuthUser>, hasOnSearch: bool)
      ensures this.user == user && this.hasOnSearch == hasOnSearch
      ensures searchQuery == "" && !isMenuOpen && !isProfileOpen && effects == []
    {
      this.user := user;
      this.hasOnSearch := hasOnSearch;
      searchQuery := "";
      isMenuOpen := false;
      isProfileOpen := false;
      effects := [];
    }

    /** Typing in either search box. */
    method TypeQuery(text: string)
      modifies this`searchQuery
      ensures searchQuery == text
    {
      searchQuery := text;
    }

    /** Submitting either search form. */
    method SubmitSearch()
      modifies this`effects
      ensures SubmittedQuery(hasOnSearch, searchQuery).Some? ==>
        effects == old(effects) + [Searched(SubmittedQuery(hasOnSearch, searchQuery).value)]
      ensures SubmittedQuery(hasOnSearch, searchQuery).None? ==> effects == old(effects)
    {
      var q := SubmittedQuery(hasOnSearch, searchQuery);
      if q.Some? {
        effects := effects + [Searched(q.value)];
      }
    }

    /** `handleLogout`: logs out, then navigates to the login page. */
    method Logout()
      modifies this`effects
      ensures effects == old(effects) + [LoggedOut, Navigated("/login")]
    {
      effects := effects + [LoggedOut, Navigated("/login")];
    }

    method ToggleProfile()
      modifies this`isProfileOpen
      ensures isProfileOpen == !old(isProfileOpen)
    {
      isProfileOpen := !isProfileOpen;
    }

    /** The "Profile" and "Settings" links of the dropdown: navigate and close it. */
    method ChooseProfileLink(path: string)
      requires path == "/profile" || path == "/settings"
      modifies this`isProfileOpen, this`effects
      ensures !isProfileOpen && effects == old(effects) + [Navigated(path)]
    {
      effects := effects + [Navigated(path)];
      isProfileOpen := false;
    }

    method ToggleMenu()
      modifies this`isMenuOpen
      ensures isMenuOpen == !old(isMenuOpen)
    {
      isMenuOpen := !isMenuOpen;
    }

    /** A navigation item of the desktop bar: navigates, nothing else changes. */
    method ChooseNavItem(k: nat)
      requires k < |NavItemsFor(user)|
      modifies this`effects
      ensures effects == old(effects) + [Navigated(NavItemsFor(user)[k].path)]
    {
      effects := effects + [Navigated(NavItemsFor(user)[k].path)];
    }

    /** A navigation item of the mobile menu: navigates and closes the menu. */
    method ChooseMobileNavItem(k: nat)
      requires k < |NavItemsFor(user)|
      modifies this`isMenuOpen, this`effects
      ensures !isMenuOpen
      ensures effects == old(effects) + [Navigated(NavItemsFor(user)[k].path)]
    {
      effects := effects + [Navigated(NavItemsFor(user)[k].path)];
      isMenuOpen := false;
    }
  }
}
