# Route guards, navigation, note editor and layout of a notes-and-blog app — a Dafny model

This project models the decision logic of a browser single-page app for notes
and a blog. The React, router and network plumbing is replaced by plain
inputs and returned outcomes. Four units are modelled:

- **Route guards** (`route_guards.dfy`, module `RouteGuards`). The three guards
  `ProtectedRoute`, `AdminRoute` and `PublicRoute` are total functions from the
  session snapshot (`isLoading`, `isAuthenticated`, `user`) to an `Outcome`:
  spinner, render the page, or a history-replacing redirect. The route table
  is data: each path pattern with its guard and page. The guards are checked
  against an independent access policy, `Permits`. Two properties are proved
  over the table. A super-admin page never renders for anyone else, in any
  session. A guarded page never renders while the session is loading.
- **Navigation composer** (`navigation.dfy`, module `Navigation`). The base
  catalog is filtered by role. The admin catalog is appended for super-admins,
  and its "Task Queue" entry depends on the `upstash_qstash` flag. Entries are
  marked active by the exact-match-or-prefix rule, which has a special case
  for `/dashboard`. The lemmas cover:
  - the exact shape of the list (8, 10 or 11 entries);
  - presence of the admin entries;
  - distinct hrefs;
  - the lack of path-segment boundaries in the prefix rule;
  - that no location ever highlights two links.
- **Note editor** (`note_editor.dfy`, module `NoteEditor`). The page state is
  the class `Editor`: the draft note, the pending tag, and the
  `loading`/`saving`/`error` flags. Its methods are the page's handlers. Four
  pure functions sit beside it:
  - save-time validation and normalisation (`NoteDataOf`);
  - the choice of endpoint (`SaveRequest`, `FetchRequest`);
  - the status-to-message mapping;
  - the tag filter.
- **Layout selection** (`main_layout.dfy`, module `Layout`). From the session
  and the `menuLayout` preference it decides which menus show: the sidebar,
  or the navbar menu (with the fixed navbar and the top margin that go with
  it). The class `MainLayout` holds the sidebar's open/closed toggle.

Shared modules:
- `Auth` holds the session snapshot and `IsSuperAdmin` (`user?.role === 'super-admin'`).
- `Text` holds ECMAScript `trim` over the exact WhiteSpace and LineTerminator
  code points, and `startsWith`.
- `Sequences` holds subsequence and no-duplicates facts.
- `Wrappers` holds `Option` and `Result`.

JavaScript truthiness is written out. An optional string is truthy when it is
present and non-empty. So `id && id !== 'new'` treats an empty `id` like a
missing one. `note.category || 'general'` also defaults an empty category.
`user?.preferences?.menuLayout || 'sidebar'` also defaults an empty preference.

The code keeps a note's tags in an array, not a set: adding refuses a
duplicate, but a loaded note may already hold duplicates, and removing drops
every copy. So the model keeps a list. It proves that adding
and removing preserve "no duplicates" rather than assuming it.

## Model

| member | source | states |
|---|---|---|
| `RouteGuards.ProtectedRoute` | src/App.tsx:35-47 | spinner exactly while loading; renders exactly when loaded and authenticated; any redirect is a replace redirect to `/login` |
| `RouteGuards.AdminRoute` | src/App.tsx:50-70 | spinner exactly while loading; renders exactly when loaded, authenticated and role `super-admin`; replace redirect to `/login` exactly when loaded and unauthenticated; replace redirect to `/dashboard` exactly when authenticated without the role |
| `RouteGuards.PublicRoute` | src/App.tsx:73-85 | spinner exactly while loading; renders exactly when loaded and unauthenticated; any redirect is a replace redirect to `/dashboard` |
| `RouteGuards.GuardsFollowPolicy` | src/App.tsx:35-85 | every guard, for every session: spinner while loading whatever the identity; otherwise the page exactly when the independent policy `Permits` allows it, else a replace redirect to the guard's target |
| `RouteGuards.GuardOf` | src/App.tsx:104-262 | looking a pattern up in the route table gives no guard exactly when no route has that pattern, and otherwise the guard of a route with that pattern |
| `RouteGuards.GuardOfEntry` | src/App.tsx:104-262 | looking up any declared pattern yields that route's own guard |
| `RouteGuards.PatternsDistinct` | src/App.tsx:104-262 | no path pattern is declared twice |
| `RouteGuards.AdminGuardedRoutes` | src/App.tsx:174-223 | a route uses the super-admin guard exactly when it is `admin/feature-flags` or `admin/qstash`; the three `admin/blog*` routes use only the signed-in guard |
| `RouteGuards.EditorAndUnguardedRoutes` | src/App.tsx:104-262 | the note editor is mounted exactly at `notes/new` and `notes/:id/edit`, both behind the signed-in guard; exactly `/`, `blog`, `blog/:slug`, `examples` and `*` are unguarded |
| `RouteGuards.GuardedPagesNeedTheirRole` | src/App.tsx:206-223 | in every session, a guarded route that renders implies the session is loaded, and the feature-flag or task-queue page renders only for an authenticated super-admin |
| `RouteGuards.LoginRoundTrip` | src/App.tsx:109-139 | signed out: `dashboard` redirects to `/login` and `login` renders; signed in: `login` redirects to `/dashboard` and `dashboard` renders |
| `Auth.IsSuperAdmin` | src/components/layout/Sidebar.tsx:70 | the definition `user?.role === 'super-admin'`: false without a user; its consequences are carried by `AdminRoute`, `NavigationShape` and `SidebarDecorations` |
| `Navigation.AllNavigation` | src/components/layout/Sidebar.tsx:77-80 | the filtered base catalog followed by the admin catalog for super-admins only; an admin-only entry appears only for a super-admin; exact value and length in `NavigationShape` |
| `Navigation.IsActive` | src/components/layout/Sidebar.tsx:108-109 | exact match, or for hrefs other than `/dashboard` a string prefix; an active href is always a prefix of the location; see `DashboardActiveOnlyWhenExact` and `ActiveOnAnyExtension` |
| `Navigation.FilterVisible` | src/components/layout/Sidebar.tsx:73-75 | keeps an item iff it is not admin-only or the user is super-admin, as a subsequence of the catalog (relative order kept) |
| `Navigation.FilterKeepsVisible` | src/components/layout/Sidebar.tsx:73-75 | a list whose items are all visible is returned whole |
| `Navigation.FilterAppend` | src/components/layout/Sidebar.tsx:73-75 | the filter distributes over concatenation |
| `Navigation.FilterDropsAdminOnly` | src/components/layout/Sidebar.tsx:73-75 | without the role, no admin-only item survives the filter |
| `Navigation.NonAdminCatalog` | src/components/layout/Sidebar.tsx:40-75 | without the role, the base catalog loses exactly "Blog Admin" |
| `Navigation.NavigationShape` | src/components/layout/Sidebar.tsx:40-80 | the composed list is the eight non-admin base entries for other users, and all nine base entries followed by the admin catalog for a super-admin: 10 entries, 11 with the flag |
| `Navigation.NoAdminOnlyForOthers` | src/components/layout/Sidebar.tsx:70-80 | a user who is not a super-admin sees no admin-only entry |
| `Navigation.AdminEntriesPresence` | src/components/layout/Sidebar.tsx:53-80 | `/admin/qstash` is listed iff super-admin and flag on; `/admin/feature-flags` is listed iff super-admin |
| `Navigation.FullCatalogHrefsDistinct` | src/components/layout/Sidebar.tsx:40-68 | the eleven catalog hrefs are pairwise distinct |
| `Navigation.HrefsDistinct` | src/components/layout/Sidebar.tsx:40-80 | no composed list repeats an href, whoever the user and whatever the flag |
| `Navigation.DashboardActiveOnlyWhenExact` | src/components/layout/Sidebar.tsx:108-109 | the dashboard entry is active iff the location is exactly `/dashboard` |
| `Navigation.ActiveOnAnyExtension` | src/components/layout/Sidebar.tsx:108-109 | every other entry is active on any location that extends its href as a string, with no segment boundary (`/notes` on `/notes/5` and on `/notesX`) |
| `Navigation.FullCatalogPrefixFree` | src/components/layout/Sidebar.tsx:40-68 | no catalog href is a string prefix of another |
| `Navigation.CatalogPrefixMeansEqual` | src/components/layout/Sidebar.tsx:40-68 | two catalog entries whose hrefs are prefix-related have the same href |
| `Navigation.ComposeSidebar` | src/components/layout/Sidebar.tsx:106-159 | one link per composed entry, in order, each highlighted iff the active rule holds for the current location |
| `Navigation.AtMostOneActive` | src/components/layout/Sidebar.tsx:106-109 | for every user, flag value and location, at most one link is highlighted |
| `Navigation.SidebarDecorations` | src/components/layout/Sidebar.tsx:131-157 | the "Super Administration" section shows iff super-admin; the "QStash Active" badge shows iff super-admin and flag on, and then the task-queue link is listed; no link badge shows for any other user |
| `NoteEditor.IsEditing` | src/pages/NoteEditorPage.tsx:19 | the definition `id && id !== 'new'` with JavaScript truthiness; editing implies a non-empty id; the cases are in `EditingModes` |
| `NoteEditor.EditingModes` | src/pages/NoteEditorPage.tsx:19 | no id, `new` or the empty id means creating; any other id means editing |
| `NoteEditor.InitialDraftRejected` | src/pages/NoteEditorPage.tsx:21-27 | the initial draft has no tags, is private, has category `general`, and is rejected by save validation |
| `NoteEditor.NoteDataOf` | src/pages/NoteEditorPage.tsx:67-81 | rejected with the alert text iff title or content is missing or all whitespace; otherwise title and content are the trimmed, non-empty, trim-stable values; the category is kept when truthy and is `general` otherwise; tags default to `[]`; `isPublic` holds only if the draft's flag is true |
| `NoteEditor.NormaliseIdempotent` | src/pages/NoteEditorPage.tsx:75-81 | normalising the draft of a saved payload gives the same payload back |
| `NoteEditor.FetchRequest` | src/pages/NoteEditorPage.tsx:46-50 | loads the note with the given id, account-scoped iff an account is selected and then scoped to that account |
| `NoteEditor.SaveRequest` | src/pages/NoteEditorPage.tsx:83-96 | an update of the route's note iff editing, else a create; account-scoped iff an account is selected; always carries the payload unchanged |
| `NoteEditor.ScopingChangesOnlyScope` | src/utils/api/notes.ts:13-31 | the account-scoped and default variants of the load and save calls are the same HTTP call except for the account scope |
| `NoteEditor.LoadErrorMessage` | src/pages/NoteEditorPage.tsx:54-60 | "Note not found" iff status 404, the permission message iff 403, "Failed to load note" iff neither |
| `NoteEditor.SaveErrorMessage` | src/pages/NoteEditorPage.tsx:101 | the server's error text when non-empty, else "Failed to save note"; never empty |
| `NoteEditor.RemoveTag` | src/pages/NoteEditorPage.tsx:117-122 | the removed tag is gone; every other tag keeps its multiplicity and relative order; the length drops by the tag's count |
| `NoteEditor.AddThenRemove` | src/pages/NoteEditorPage.tsx:107-122 | appending an absent tag and then removing it restores the list |
| `NoteEditor.RemoveKeepsNoDuplicates` | src/pages/NoteEditorPage.tsx:117-122 | removing a tag from a duplicate-free list leaves it duplicate-free |
| `NoteEditor.Editor.constructor` | src/pages/NoteEditorPage.tsx:16-31 | the editor starts with the initial draft, not loading, not saving, no error, empty tag input |
| `NoteEditor.Editor.FetchNote` | src/pages/NoteEditorPage.tsx:39-64 | without an id nothing happens; otherwise sends `FetchRequest`, on success replaces the draft and clears the error, on failure keeps the draft and sets the mapped message; `loading` is false at the end |
| `NoteEditor.Editor.HandleSave` | src/pages/NoteEditorPage.tsx:66-105 | an invalid draft is rejected with no request and `saving` untouched; otherwise the normalised payload goes to `SaveRequest`, success navigates to `/notes/{id}`, failure alerts the mapped message, and `saving` is false at the end |
| `NoteEditor.Editor.HandleKeyPress` | src/pages/NoteEditorPage.tsx:124-128 | Ctrl+Enter runs a save with exactly `HandleSave`'s outcome (rejection with `saving` untouched, or the completed request with `saving` false); any other key does nothing |
| `NoteEditor.Editor.HandleAddTag` | src/pages/NoteEditorPage.tsx:107-115 | appends the trimmed input and clears it iff it is non-empty and not yet a tag, otherwise changes nothing; no other draft field changes; a duplicate-free list stays duplicate-free |
| `NoteEditor.Editor.HandleRemoveTag` | src/pages/NoteEditorPage.tsx:117-122 | the tag list becomes `RemoveTag` of the old one; title, content, category and visibility are unchanged; no duplicates are introduced |
| `NoteEditor.Editor.TogglePublic` | src/pages/NoteEditorPage.tsx:239 | flips visibility (a missing flag reads as private) and changes nothing else |
| `NoteEditor.Editor.SetTitle` | src/pages/NoteEditorPage.tsx:206 | sets the title only |
| `NoteEditor.Editor.SetCategory` | src/pages/NoteEditorPage.tsx:219 | sets the category only |
| `NoteEditor.Editor.SetNewTag` | src/pages/NoteEditorPage.tsx:294 | sets the pending tag input only |
| `NoteEditor.Editor.SetContent` | src/pages/NoteEditorPage.tsx:323 | sets the content only |
| `Layout.MenuLayout` | src/components/layout/MainLayout.tsx:13 | never empty; the preference when it is a non-empty string, `sidebar` otherwise |
| `Layout.ChromeFor` | src/components/layout/MainLayout.tsx:23-32 | sidebar iff authenticated with layout `sidebar`; navbar menu, fixed navbar and top margin always agree and hold iff signed out or layout `header`; never sidebar and navbar menu together; signed out always gets the navbar menu |
| `Layout.MenusExclusive` | src/components/layout/MainLayout.tsx:23-32 | both menus are hidden iff authenticated with a layout that is neither `sidebar` nor `header`; signed in without a preference gets the sidebar |
| `Layout.MainLayout.constructor` | src/components/layout/MainLayout.tsx:11 | the sidebar starts open |
| `Layout.MainLayout.ToggleSidebar` | src/components/layout/MainLayout.tsx:15-17 | negates `sidebarOpen` |
| `Layout.ToggleTwiceRestores` | src/components/layout/MainLayout.tsx:15-17 | two toggles restore the sidebar state |
| `Text.Trim` | src/pages/NoteEditorPage.tsx:67 | the result is a slice of the input with no whitespace at either end; it is empty iff the input is all whitespace |
| `Text.TrimIdempotent` | src/pages/NoteEditorPage.tsx:76-77 | trimming twice equals trimming once |
| `Text.TrimCharacterization` | src/pages/NoteEditorPage.tsx:108 | any slice with only whitespace around it and none at its own ends is what trim returns |
| `Text.PrefixesComparable` | src/components/layout/Sidebar.tsx:109 | two prefixes of one string are prefix-related |

## Left out

- Rendering is not modelled: JSX, CSS classes, icons, and the `Badge`, `Button`, `Select` and particle-background components. The icon of a navigation entry is kept only as an enumeration tag.
- React Router's path matching and ranking are library behaviour (for example `notes/new` against `notes/:id`). The route table is modelled only as pattern → guard and page data.
- Each async handler is one atomic method. The transport outcome is a parameter, and `alert`, `navigate` and `console.error` become returned values. Interleavings of in-flight requests are therefore not modelled. Two examples: a stale load response arriving late, and a second Ctrl+Enter save while one is in flight (the keyboard path does not consult `saving`; only the button is disabled).
- The `useEffect` that re-runs the load when `id`, `isEditing` or the account changes is left out. `Editor.id` and `Editor.account` are fixed for an editor's lifetime.
- The development-only console test bootstrap in `AppContent` is left out.
- The auth, account and feature-flag providers are inputs. The session is an `AuthState` value. The selected account is an `Option<Account>`. The `upstash_qstash` flag lookup is the boolean `qstashEnabled`.
- Closing the sidebar after navigating on narrow screens depends on `window.innerWidth`, so it is left out. Of the keyboard handling, only Ctrl+Enter → save is modelled. Enter in the tag input simply calls `HandleAddTag`.
- Of the notes API client, only the six calls the editor makes are modelled: get, create and update, each also in an account-scoped variant. The list and delete calls are not used by the modelled code. The HTTP transport they rely on is not part of this model.
- A loaded note's server-side fields (id, timestamps, owner) are not kept. The loaded note replaces the draft as a `Draft` value.
- `error.response?.status` is modelled as an optional integer. `error.response?.data?.error` is modelled as an optional string; a non-string value there is not modelled.
- The Navbar, Footer and page components themselves are not part of this model. Only the props the layout passes them are modelled.
