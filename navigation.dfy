/** The sidebar's navigation composer: a fixed catalog filtered by role, an
    admin catalog appended for super-admins (its task-queue entry behind the
    `upstash_qstash` feature flag), and the rule that marks entries active
    for the current location. */
module Navigation {
  import opened Wrappers
  import opened Text
  import opened Auth
  import opened Sequences

  const DashboardHref := "/dashboard"
  const FeatureFlagsHref := "/admin/feature-flags"
  const TaskQueueHref := "/admin/qstash"

  datatype Icon = HomeIcon | FileTextIcon | BookOpenIcon | FlaskIcon | UsersIcon | UserIcon
                | SettingsIcon | TestTubeIcon | FlagIcon | ZapIcon

  datatype NavItem = NavItem(name: string, href: string, icon: Icon, adminOnly: bool, badge: Option<string>)

  /** The base catalog, in display order. */
  const Catalog: seq<NavItem> := [
    NavItem("Dashboard", DashboardHref, HomeIcon, false, None),
    NavItem("Notes", "/notes", FileTextIcon, false, None),
    NavItem("Blog Admin", "/admin/blog", BookOpenIcon, true, Some("Super Admin")),
    NavItem("Public Blog", "/blog", BookOpenIcon, false, None),
    NavItem("Examples", "/examples", FlaskIcon, false, None),
    NavItem("Accounts", "/accounts", UsersIcon, false, None),
    NavItem("Profile", "/profile", UserIcon, false, None),
    NavItem("Settings", "/settings", SettingsIcon, false, None),
    NavItem("Test Suite", "/test", TestTubeIcon, false, None)
  ]

  const FeatureFlagsItem := NavItem("Feature Flags", FeatureFlagsHref, FlagIcon, true, Some("Super Admin"))
  const TaskQueueItem := NavItem("Task Queue", TaskQueueHref, ZapIcon, true, Some("QStash"))

  /** The admin catalog; the task-queue entry is spread in only when the flag is on. */
  function SuperAdminCatalog(qstashEnabled: bool): seq<NavItem> {
    [FeatureFlagsItem] + (if qstashEnabled then [TaskQueueItem] else [])
  }

  /** The role filter, as written: `!adminOnly || (adminOnly && isSuperAdmin)`. */
  predicate Visible(item: NavItem, isSuperAdmin: bool) {
    !item.adminOnly || (item.adminOnly && isSuperAdmin)
  }

  /** `items.filter(item => Visible(item, isSuperAdmin))`: keeps exactly the
      visible items, in their catalog order. */
  function FilterVisible(items: seq<NavItem>, isSuperAdmin: bool): (r: seq<NavItem>)
    ensures forall x :: x in r <==> x in items && Visible(x, isSuperAdmin)
    ensures IsSubsequence(r, items)
    ensures |r| <= |items|
  {
    if items == [] then []
    else
      var rest := FilterVisible(items[1..], isSuperAdmin);
      assert items == [items[0]] + items[1..];
      if Visible(items[0], isSuperAdmin) then
        assert ([items[0]] + rest)[1..] == rest;
        [items[0]] + rest
      else rest
  }

  /** The composed list: the filtered base catalog, then the admin catalog
      for super-admins only. */
  function AllNavigation(user: Option<User>, qstashEnabled: bool): (r: seq<NavItem>)
    ensures forall i :: 0 <= i < |r| && r[i].adminOnly ==> IsSuperAdmin(user)
  {
    var isSuperAdmin := IsSuperAdmin(user);
    var base := FilterVisible(Catalog, isSuperAdmin);
    assert forall i :: 0 <= i < |base| ==> base[i] in base;
    base + (if isSuperAdmin then SuperAdminCatalog(qstashEnabled) else [])
  }

  /** Filtering a list whose items are all visible keeps it whole. */
  lemma {:induction false} FilterKeepsVisible(items: seq<NavItem>, isSuperAdmin: bool)
    requires forall i :: 0 <= i < |items| ==> Visible(items[i], isSuperAdmin)
    ensures FilterVisible(items, isSuperAdmin) == items
  {
    if items != [] {
      FilterKeepsVisible(items[1..], isSuperAdmin);
      assert items == [items[0]] + items[1..];
    }
  }

  /** Filtering distributes over concatenation, which is why the relative
      order of the kept entries is the catalog's. */
  lemma {:induction false} FilterAppend(a: seq<NavItem>, b: seq<NavItem>, isSuperAdmin: bool)
    ensures FilterVisible(a + b, isSuperAdmin) == FilterVisible(a, isSuperAdmin) + FilterVisible(b, isSuperAdmin)
  {
    if a == [] {
      assert a + b == b;
    } else {
      var head := if Visible(a[0], isSuperAdmin) then [a[0]] else [];
      assert (a + b)[0] == a[0] && (a + b)[1..] == a[1..] + b;
      assert FilterVisible(a + b, isSuperAdmin) == head + FilterVisible(a[1..] + b, isSuperAdmin);
      FilterAppend(a[1..], b, isSuperAdmin);
      var x, y := FilterVisible(a[1..], isSuperAdmin), FilterVisible(b, isSuperAdmin);
      assert head + (x + y) == (head + x) + y;
      assert FilterVisible(a, isSuperAdmin) == head + x;
    }
  }

  /** Any other user loses exactly the admin-only entries. */
  lemma {:induction false} FilterDropsAdminOnly(items: seq<NavItem>)
    ensures forall i :: 0 <= i < |FilterVisible(items, false)| ==> !FilterVisible(items, false)[i].adminOnly
  {
    var r := FilterVisible(items, false);
    forall i | 0 <= i < |r| ensures !r[i].adminOnly {
      assert r[i] in r;
    }
  }

  /** Without the super-admin role, the base catalog loses only "Blog Admin". */
  lemma NonAdminCatalog()
    ensures FilterVisible(Catalog, false) == Catalog[..2] + Catalog[3..]
  {
    var c := Catalog;
    var front, admin, back := c[..2], [c[2]], c[3..];
    assert c == front + admin + back;
    assert forall i :: 0 <= i < |front| ==> Visible(front[i], false);
    assert forall i :: 0 <= i < |back| ==> Visible(back[i], false);
    assert FilterVisible(admin, false) == [];
    FilterAppend(front + admin, back, false);
    FilterAppend(front, admin, false);
    FilterKeepsVisible(front, false);
    FilterKeepsVisible(back, false);
  }

  /** The whole list, by role and flag: a non-super-admin gets the eight
      non-admin base entries; a super-admin gets all nine base entries and
      the admin catalog, ten entries, or eleven with the task queue. */
  lemma NavigationShape(user: Option<User>, qstashEnabled: bool)
    ensures !IsSuperAdmin(user) ==> AllNavigation(user, qstashEnabled) == Catalog[..2] + Catalog[3..]
    ensures IsSuperAdmin(user) ==> AllNavigation(user, qstashEnabled) == Catalog + SuperAdminCatalog(qstashEnabled)
    ensures |AllNavigation(user, qstashEnabled)| ==
      if !IsSuperAdmin(user) then 8 else if qstashEnabled then 11 else 10
  {
    if IsSuperAdmin(user) {
      FilterKeepsVisible(Catalog, true);
    } else {
      NonAdminCatalog();
    }
  }
  /** Every entry the composer can ever produce. */
  const FullCatalog: seq<NavItem> := Catalog + SuperAdminCatalog(true)

  function Hrefs(items: seq<NavItem>): (r: seq<string>)
    ensures |r| == |items| && forall i :: 0 <= i < |items| ==> r[i] == items[i].href
  {
    seq(|items|, i requires 0 <= i < |items| => items[i].href)
  }

  /** What a user who is not a super-admin sees contains no admin-only entry. */
  lemma NoAdminOnlyForOthers(user: Option<User>, qstashEnabled: bool)
    requires !IsSuperAdmin(user)
    ensures forall i :: 0 <= i < |AllNavigation(user, qstashEnabled)| ==> !AllNavigation(user, qstashEnabled)[i].adminOnly
  {
    FilterDropsAdminOnly(Catalog);
  }

  /** "Task Queue" is listed exactly for a super-admin with the flag on, and
      "Feature Flags" exactly for a super-admin. */
  lemma AdminEntriesPresence(user: Option<User>, qstashEnabled: bool)
    ensures TaskQueueHref in Hrefs(AllNavigation(user, qstashEnabled)) <==> IsSuperAdmin(user) && qstashEnabled
    ensures FeatureFlagsHref in Hrefs(AllNavigation(user, qstashEnabled)) <==> IsSuperAdmin(user)
  {
    NavigationShape(user, qstashEnabled);
    var r := AllNavigation(user, qstashEnabled);
    assert TaskQueueHref !in Hrefs(Catalog) && FeatureFlagsHref !in Hrefs(Catalog);
    if IsSuperAdmin(user) {
      assert Hrefs(r) == Hrefs(Catalog) + Hrefs(SuperAdminCatalog(qstashEnabled));
      assert Hrefs(SuperAdminCatalog(qstashEnabled)) ==
        [FeatureFlagsHref] + (if qstashEnabled then [TaskQueueHref] else []);
    } else {
      assert forall i :: 0 <= i < |r| ==> r[i] in Catalog;
    }
  }

  lemma FullCatalogHrefsDistinct()
    ensures forall i, j :: 0 <= i < j < |FullCatalog| ==> FullCatalog[i].href != FullCatalog[j].href
  {
  }

  /** No href is listed twice, whoever the user and whatever the flag. */
  lemma HrefsDistinct(user: Option<User>, qstashEnabled: bool)
    ensures var r := AllNavigation(user, qstashEnabled);
      forall i, j :: 0 <= i < j < |r| ==> r[i].href != r[j].href
  {
    NavigationShape(user, qstashEnabled);
    FullCatalogHrefsDistinct();
    var f := FullCatalog;
    var r := AllNavigation(user, qstashEnabled);
    if IsSuperAdmin(user) {
      if !qstashEnabled {
        assert r == f[..10];
      } else {
        assert r == f;
      }
    } else {
      forall i, j | 0 <= i < j < |r| ensures r[i].href != r[j].href {
        var i', j' := if i < 2 then i else i + 1, if j < 2 then j else j + 1;
        assert r[i] == f[i'] && r[j] == f[j'];
      }
    }
  }

  /** The active-entry rule: an exact match, or, for every entry except the
      dashboard, any location that merely starts with the entry's href. */
  predicate IsActive(pathname: string, href: string)
    ensures IsActive(pathname, href) ==> StartsWith(pathname, href)
  {
    pathname == href || (href != DashboardHref && StartsWith(pathname, href))
  }

  /** The dashboard entry is active only on the dashboard itself. */
  lemma DashboardActiveOnlyWhenExact(pathname: string)
    ensures IsActive(pathname, DashboardHref) <==> pathname == DashboardHref
  {
  }

  /** Every other entry is active on any location its href is a string
      prefix of, with no regard for path-segment boundaries: `/notes` is
      active on `/notes/5`, and equally on `/notesX`. */
  lemma ActiveOnAnyExtension(href: string, rest: string)
    requires href != DashboardHref
    ensures IsActive(href + rest, href)
    ensures IsActive("/notes/5", "/notes") && IsActive("/notesX", "/notes")
  {
    assert (href + rest)[..|href|] == href;
    assert "/notes/5"[..|"/notes"|] == "/notes";
    assert "/notesX"[..|"/notes"|] == "/notes";
  }

  /** No href of the catalogs is a string prefix of another. */
  lemma FullCatalogPrefixFree()
    ensures forall i, j :: 0 <= i < |FullCatalog| && 0 <= j < |FullCatalog| && i != j ==>
      !StartsWith(FullCatalog[i].href, FullCatalog[j].href)
  {
    var f := FullCatalog;
    forall i, j | 0 <= i < |f| && 0 <= j < |f| && i != j
      ensures !StartsWith(f[i].href, f[j].href)
    {
      var s, p := f[i].href, f[j].href;
      if s[1] != p[1] {
        DifferenceRulesOutPrefix(s, p, 1);
      } else if s[2] != p[2] {
        DifferenceRulesOutPrefix(s, p, 2);
      } else {
        DifferenceRulesOutPrefix(s, p, 7);
      }
    }
  }

  lemma DifferenceRulesOutPrefix(s: string, p: string, k: nat)
    requires k < |s| && k < |p| && s[k] != p[k]
    ensures !StartsWith(s, p)
  {
    if |p| <= |s| {
      assert s[..|p|][k] != p[k];
    }
  }

  /** Two catalog entries whose hrefs are prefix-related have the same href. */
  lemma CatalogPrefixMeansEqual(x: NavItem, y: NavItem)
    requires x in FullCatalog && y in FullCatalog && StartsWith(x.href, y.href)
    ensures x.href == y.href
  {
    FullCatalogPrefixFree();
    var i :| 0 <= i < |FullCatalog| && FullCatalog[i] == x;
    var j :| 0 <= j < |FullCatalog| && FullCatalog[j] == y;
  }

  /** One sidebar link: the entry and whether it is highlighted. */
  datatype NavEntry = NavEntry(item: NavItem, active: bool)

  /** What the sidebar shows for a user, a flag value and a location: the
      links in order, the "Super Administration" section, and the
      "QStash Active" badge inside it. */
  datatype SidebarView = SidebarView(entries: seq<NavEntry>, adminSection: bool, qstashBadge: bool)

  function ComposeSidebar(user: Option<User>, qstashEnabled: bool, pathname: string): (v: SidebarView)
    ensures |v.entries| == |AllNavigation(user, qstashEnabled)|
    ensures forall i :: 0 <= i < |v.entries| ==>
      v.entries[i].item == AllNavigation(user, qstashEnabled)[i] &&
      (v.entries[i].active <==> IsActive(pathname, v.entries[i].item.href))
  {
    var items := AllNavigation(user, qstashEnabled);
    var isSuperAdmin := IsSuperAdmin(user);
    SidebarView(
      seq(|items|, i requires 0 <= i < |items| => NavEntry(items[i], IsActive(pathname, items[i].href))),
      isSuperAdmin,
      isSuperAdmin && qstashEnabled)
  }

  /** A link shows its badge when the badge is a non-empty string. */
  predicate ShowsBadge(item: NavItem) {
    item.badge.Some? && item.badge.value != ""
  }

  /** Whatever the location, at most one link is highlighted. */
  lemma AtMostOneActive(user: Option<User>, qstashEnabled: bool, pathname: string)
    ensures var e := ComposeSidebar(user, qstashEnabled, pathname).entries;
      forall i, j :: 0 <= i < |e| && 0 <= j < |e| && e[i].active && e[j].active ==> i == j
  {
    var e := ComposeSidebar(user, qstashEnabled, pathname).entries;
    var r := AllNavigation(user, qstashEnabled);
    HrefsDistinct(user, qstashEnabled);
    forall i, j | 0 <= i < |e| && 0 <= j < |e| && e[i].active && e[j].active
      ensures i == j
    {
      var hi, hj := r[i].href, r[j].href;
      assert StartsWith(pathname, hi) && StartsWith(pathname, hj);
      PrefixesComparable(pathname, hi, hj);
      InFullCatalog(user, qstashEnabled, i);
      InFullCatalog(user, qstashEnabled, j);
      if StartsWith(hi, hj) {
        CatalogPrefixMeansEqual(r[i], r[j]);
      } else {
        CatalogPrefixMeansEqual(r[j], r[i]);
      }
    }
  }

  /** Every composed entry comes from the two catalogs. */
  lemma InFullCatalog(user: Option<User>, qstashEnabled: bool, i: nat)
    requires i < |AllNavigation(user, qstashEnabled)|
    ensures AllNavigation(user, qstashEnabled)[i] in FullCatalog
  {
    NavigationShape(user, qstashEnabled);
  }

  /** The admin section shows exactly for a super-admin, its QStash badge
      exactly when the flag is also on, and then the task-queue link is in
      the list; no other user sees any link badge. */
  lemma SidebarDecorations(user: Option<User>, qstashEnabled: bool, pathname: string)
    ensures var v := ComposeSidebar(user, qstashEnabled, pathname);
      (v.adminSection <==> IsSuperAdmin(user)) &&
      (v.qstashBadge <==> IsSuperAdmin(user) && qstashEnabled) &&
      (v.qstashBadge ==> TaskQueueHref in Hrefs(AllNavigation(user, qstashEnabled))) &&
      (forall i :: 0 <= i < |v.entries| && ShowsBadge(v.entries[i].item) ==> IsSuperAdmin(user))
  {
    AdminEntriesPresence(user, qstashEnabled);
    if !IsSuperAdmin(user) {
      NoAdminOnlyForOthers(user, qstashEnabled);
      NavigationShape(user, qstashEnabled);
      assert forall x :: x in Catalog && !x.adminOnly ==> !ShowsBadge(x);
    }
  }
}
