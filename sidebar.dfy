/** The dashboard shell's sidebar (src/components/Sidebar.tsx): which menu item
    is highlighted, what a click on an item does, and how logout proceeds.

    `router.push`, the `onToggle` callback of the layout and next-auth's
    `signOut` are effects; the sidebar records them, in order, in `effects`. */
module Sidebar {
  import opened AuthTypes
  import opened Routes
  import opened AuthStore

  datatype MenuItem = MenuItem(id: string, caption: string, href: string, disabled: bool)

  /** The five entries of `menuItems`, in display order; only Settings is disabled. */
  const MenuItems: seq<MenuItem> := [
    MenuItem("dashboard", "Dashboard", DashboardPath, false),
    MenuItem("transactions", "Transactions", TransactionsPath, false),
    MenuItem("invoices", "Invoices", InvoicesPath, false),
    MenuItem("wallets", "My Wallets", WalletsPath, false),
    MenuItem("settings", "Settings", SettingsPath, true)
  ]

  const SettingsIndex: nat := 4

  /** Below this `window.innerWidth` the sidebar is a drawer that closes after navigation. */
  const MobileBreakpoint: int := 768

  /** The `active` flag of an item: `pathname === href`. */
  predicate IsActive(item: MenuItem, pathname: string)
  {
    pathname == item.href
  }

  /** The indices of the items highlighted for `pathname`. */
  function ActiveIndices(pathname: string): (r: set<nat>)
    ensures forall i: nat :: i in r ==> i < |MenuItems| && MenuItems[i].href == pathname
    ensures forall i: nat :: i < |MenuItems| && MenuItems[i].href == pathname ==> i in r
  {
    set i: nat | i < |MenuItems| && IsActive(MenuItems[i], pathname)
  }

  /** No two menu items share an `href`. */
  lemma HrefsDistinct()
    ensures forall i, j :: 0 <= i < j < |MenuItems| ==> MenuItems[i].href != MenuItems[j].href
  {
    assert MenuItems[0].href[1] == 'd';
    assert MenuItems[1].href[1] == 't';
    assert MenuItems[2].href[1] == 'i';
    assert MenuItems[3].href[1] == 'w';
    assert MenuItems[4].href[1] == 's';
  }

  /** At most one item is highlighted, whatever the path. */
  lemma AtMostOneActive(pathname: string)
    ensures |ActiveIndices(pathname)| <= 1
    ensures forall i, j :: i in ActiveIndices(pathname) && j in ActiveIndices(pathname) ==> i == j
  {
    HrefsDistinct();
    var r := ActiveIndices(pathname);
    if r != {} {
      var i :| i in r;
      assert r == {i};
    }
  }

  /** On an item's own page, that item and no other is highlighted. */
  lemma OwnPageHighlightsItem(k: nat)
    requires k < |MenuItems|
    ensures ActiveIndices(MenuItems[k].href) == {k}
  {
    HrefsDistinct();
  }

  datatype Effect =
    | Push(path: string)           // router.push(path)
    | Toggle                       // onToggle()
    | LocalLogout                  // the store's logout()
    | SignOut(callbackUrl: string) // next-auth signOut({ callbackUrl })

  /** What `handleMenuClick(href)` does, for a window `innerWidth` wide. */
  function MenuClickEffects(href: string, innerWidth: int): (e: seq<Effect>)
    ensures |e| > 0 && e[0] == Push(href)
    ensures Pushes(e) == [href]
    ensures Toggle in e <==> innerWidth < MobileBreakpoint
  {
    var e := [Push(href)] + (if innerWidth < MobileBreakpoint then [Toggle] else []);
    assert Pushes(e) == [href] + Pushes(e[1..]);
    e
  }

  /** The click guard `!item.disabled && handleMenuClick(item.href)`. */
  function ItemClickEffects(item: MenuItem, innerWidth: int): (e: seq<Effect>)
    ensures item.disabled ==> e == []
    ensures !item.disabled ==> Pushes(e) == [item.href]
    ensures Toggle in e <==> !item.disabled && innerWidth < MobileBreakpoint
  {
    if item.disabled then [] else MenuClickEffects(item.href, innerWidth)
  }

  /** The paths a sequence of effects navigates to, in order. */
  function Pushes(effects: seq<Effect>): (paths: seq<string>)
    ensures forall p :: p in paths <==> Push(p) in effects
  {
    if effects == [] then []
    else (if effects[0].Push? then [effects[0].path] else []) + Pushes(effects[1..])
  }

  /** Clicking Settings does nothing at all. */
  lemma SettingsClickIsInert(innerWidth: int)
    ensures ItemClickEffects(MenuItems[SettingsIndex], innerWidth) == []
  {
  }

  /** The only disabled item is Settings. */
  lemma OnlySettingsDisabled(k: nat)
    requires k < |MenuItems|
    ensures MenuItems[k].disabled <==> k == SettingsIndex
  {
  }

  /** The next-auth session the sidebar sees; `session?.user` may be missing. */
  datatype SessionUser = SessionUser(name: string, email: string)
  datatype Session = Session(user: Option<SessionUser>)

  /** What `handleLogoutClick` does. */
  function LogoutEffects(session: Option<Session>): (e: seq<Effect>)
    ensures SignOut(AuthPath) in e <==> session.Some? && session.value.user.Some?
    ensures LocalLogout in e <==> !(session.Some? && session.value.user.Some?)
    ensures LocalLogout in e ==> e[0] == LocalLogout && e[|e| - 1] == Push(AuthPath)
  {
    if session.Some? && session.value.user.Some? then [SignOut(AuthPath)]
    else [LocalLogout, Push(AuthPath)]
  }

  /** With a next-auth user, logout is delegated to `signOut` and the local store
      is left alone; without one, the store is cleared and then `/auth` is opened. */
  lemma LogoutBranches(session: Option<Session>)
    ensures session.Some? && session.value.user.Some? ==>
      LogoutEffects(session) == [SignOut(AuthPath)] && LocalLogout !in LogoutEffects(session)
    ensures !(session.Some? && session.value.user.Some?) ==>
      LogoutEffects(session) == [LocalLogout, Push(AuthPath)]
  {
  }

  class SidebarView {
    /** The effects performed so far, oldest first. */
    var effects: seq<Effect>
    /** The session store behind `useAuthStore()`. */
    const store: Store

    constructor (store: Store)
      ensures effects == [] && this.store == store
    {
      effects := [];
      this.store := store;
    }

    method HandleMenuClick(href: string, innerWidth: int)
      modifies this`effects
      ensures effects == old(effects) + MenuClickEffects(href, innerWidth)
    {
      effects := effects + [Push(href)];
      if innerWidth < MobileBreakpoint {
        effects := effects + [Toggle];
      }
    }

    /** A click on the button of menu item `k`. */
    method ClickItem(k: nat, innerWidth: int)
      requires k < |MenuItems|
      modifies this`effects
      ensures effects == old(effects) + ItemClickEffects(MenuItems[k], innerWidth)
    {
      var item := MenuItems[k];
      if !item.disabled {
        HandleMenuClick(item.href, innerWidth);
      }
    }

    method HandleLogoutClick(session: Option<Session>)
      modifies this`effects, store
      ensures effects == old(effects) + LogoutEffects(session)
      ensures session.Some? && session.value.user.Some? ==> store.State() == old(store.State())
      ensures !(session.Some? && session.value.user.Some?) ==>
        store.Valid() && store.State() == LogoutState(old(store.State()))
    {
      if session.Some? && session.value.user.Some? {
        effects := effects + [SignOut(AuthPath)];
      } else {
        store.Logout();
        effects := effects + [LocalLogout];
        effects := effects + [Push(AuthPath)];
      }
    }

    /** The backdrop shown while the drawer is open (`isOpen`) closes it when clicked. */
    method ClickBackdrop(isOpen: bool)
      modifies this`effects
      ensures effects == old(effects) + (if isOpen then [Toggle] else [])
    {
      if isOpen {
        effects := effects + [Toggle];
      }
    }
  }
}
