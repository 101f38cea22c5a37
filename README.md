# A Dafny model of the session store and the access logic of an ERP front end

The application is a single-page ERP front end. Its one piece of real
logic is a client-side session store (`src/services/auth.ts`):
- one module-level record `{ isAuthenticated, user, loading }`;
- a set of listeners;
- a merge-and-notify step `updateState`;
- a mock `signIn` against three fixed accounts and the password `"password"`;
- `signOut`;
- a fail-closed role table, `hasPermission`.

Around the store sit the decisions the pages make:
- the case-insensitive search filters of the materials table and the user list;
- the user-administration page's list operations and its admin-only gate;
- the user form's validation schema;
- the header title derived from the route;
- the sidebar's permission-filtered menu and submenu toggles;
- the layout's redirect guard;
- the sign-in form's submit handler.

The model keeps the form of each source file.
- **Store and handlers.** The store is a class, `Auth.SessionStore`. Its methods are proved against pure transition functions (`Auth.AfterSignIn`, `Auth.AfterSignOut`, `Auth.SignInResultFor`), and those functions carry the properties. The page and form handlers are small classes too: `AdminUsers.UsersPage`, `Users.UserListView`, `Sidebar.SidebarView`, `Layout.LayoutView` and `AuthForm.AuthFormView`.
- **Listener calls.** Every listener call is appended to the store's `outbox`. A notification is therefore a visible, checkable effect.
- **Listeners as a sequence.** A JavaScript `Set` of listeners is a sequence without duplicates, kept in insertion order. That is the order `forEach` visits them.
- **Pure logic.** Filters, labels, the schema, the title and the menu are functions, each with lemmas.
- **Case-insensitive search.** `toLowerCase` is modelled as ASCII lower-casing (`Text.Lower`). `String.prototype.includes` is `Text.Includes`, proved equal to "occurs at some index".

Modules and files:

| file | module | models |
|---|---|---|
| wrappers.dfy | Wrappers | `Option`, `Result` |
| text.dfy | Text | lower-casing, substring search |
| seqs.dfy | Seqs | `Array.prototype.filter`, sub-sequences, sets as duplicate-free sequences |
| auth.dfy | Auth | `src/services/auth.ts` |
| materials.dfy | Materials | `src/pages/Materials.tsx` |
| users.dfy | Users | `src/components/auth/UserList.tsx` and the panel's user record |
| userform.dfy | UserForm | `src/components/auth/UserForm.tsx` |
| adminusers.dfy | AdminUsers | `src/app/admin/users/page.tsx` |
| navbar.dfy | Navbar | `getPageTitle` of `src/components/layout/Navbar.tsx` |
| sidebar.dfy | Sidebar | `src/components/layout/Sidebar.tsx` |
| layout.dfy | Layout | `src/components/layout/Layout.tsx` |
| authform.dfy | AuthForm | `src/components/auth/AuthForm.tsx` |

Two behaviours of `auth.ts` are easy to miss:
- **Failed sign-in.** A failed `signIn` only resets `loading` (`src/services/auth.ts:93`, `:96`). It keeps the earlier `isAuthenticated` and `user`. It does not force a logged-out state.
- **Sign-out that throws.** A `signOut` whose wait throws only resets `loading` and re-raises (`src/services/auth.ts:110-112`). The session is not cleared.

The failed sign-in is stated by `Auth.AfterSignIn`, `Auth.SessionStore.SignIn` and `Layout.SignInRedirects`. The sign-out that throws is stated by `Auth.AfterSignOut`, `Auth.SessionStore.SignOut` and `Layout.SignOutRedirects`.

There are two role enumerations, and they are kept apart:
- `Auth.Role`: requester, approver, admin;
- `Users.AdminRole`: admin, manager, authorizer, operator.

`Auth.Grants` works on the role's name, as `hasPermission` compares strings. The panel's names manager, authorizer and operator are granted nothing (`Auth.AdminPanelRolesGetNothing`).

## Model

| member | source | states |
|---|---|---|
| Auth.Merge | src/services/auth.ts:55-56 | each supplied field of the patch overwrites, each omitted field keeps its old value |
| Auth.MergeEmpty | src/services/auth.ts:56 | an update that supplies no field leaves the state unchanged |
| Auth.MergeIdempotent | src/services/auth.ts:56 | applying the same partial update twice equals applying it once |
| Auth.SessionStore.UpdateState | src/services/auth.ts:55-58 | the new state is the merge of the old state and the patch; the listeners are unchanged; exactly one call per registered listener, in set order, each with the new state, is appended to the outbox |
| Auth.Broadcast | src/services/auth.ts:57 | one call per listener, position by position, all carrying the same state |
| Auth.BroadcastCallsEachOnce | src/services/auth.ts:57 | with a duplicate-free listener set, a notification calls each registered listener exactly once and no unregistered one |
| Auth.SessionStore.constructor | src/services/auth.ts:45-52 | the store starts logged out, not loading, with no listeners and no calls made |
| Auth.SessionStore.Subscribe | src/services/auth.ts:62-65 | the callback is added to the set (no duplicate when already there); one call with the current state is made at once; the state is unchanged; the returned handle names that callback; the store invariant is kept |
| Auth.SessionStore.Unsubscribe | src/services/auth.ts:66-68 | exactly that callback is removed from the set, the others stay in order; the state and the calls made are unchanged |
| Auth.UnsubscribeUndoesSubscribe | src/services/auth.ts:62-69 | unsubscribing right after a first subscription restores the previous listener set |
| Auth.SessionStore.GetCurrentUser | src/services/auth.ts:72 | the current user is present iff the session is authenticated, and it is one of the mock accounts |
| Auth.SessionStore.HasPermission | src/services/auth.ts:117-141 | refused without a session or a user; granted for every permission to an admin; a granted permission is one the role table gives the current role |
| Auth.SessionStore.GetAuthState | src/services/auth.ts:75 | the returned state satisfies the store invariant |
| Auth.FindByEmail | src/services/auth.ts:86 | none iff no account has exactly that email; otherwise the first account with that email |
| Auth.SignInResultFor | src/services/auth.ts:78-99 | success iff no exception occurred, the password is "password" and some mock account has exactly that email; success carries no error; failure carries "Invalid email or password", or "An error occurred during sign in" when the wait threw |
| Auth.AfterSignIn | src/services/auth.ts:80-97 | loading is false on every exit; success signs in the mock account with that email; failure changes only loading, back to false |
| Auth.SessionStore.SignIn | src/services/auth.ts:78-99 | returns the result above; the state becomes the state above; the listeners get the loading state and then the final state, once each; the invariant is kept |
| Auth.AfterSignOut | src/services/auth.ts:102-113 | a completed sign-out ends logged out, userless and not loading whatever came before; one that threw only resets loading |
| Auth.SignOutIdempotent | src/services/auth.ts:109 | signing out twice gives the same state as signing out once |
| Auth.SessionStore.SignOut | src/services/auth.ts:102-114 | the state becomes the state above; the error is re-raised exactly when the wait threw; the listeners get the loading state and then the final state |
| Auth.TransitionsKeepConsistent | src/services/auth.ts:45-49 | the initial state, the loading step, every sign-in and every sign-out keep "authenticated iff a user is present, and that user is a mock account" |
| Auth.Grants | src/services/auth.ts:122-140 | a role name other than admin, approver or requester is granted nothing; for any permission other than "approve" and "request", only admin is granted |
| Auth.PermissionGranted | src/services/auth.ts:117-141 | false for every permission when not authenticated or without a user; admin gets every permission, approver exactly "approve" and "request", requester exactly "request" |
| Auth.PermissionMonotoneInRole | src/services/auth.ts:126-140 | a user of a higher role is granted everything a user of a lower role is |
| Auth.AdminPanelRolesGetNothing | src/services/auth.ts:122-140 | the role names manager, authorizer and operator are granted no permission |
| Text.Lower | src/pages/Materials.tsx:145-147 | lower-casing keeps the length and lower-cases each ASCII letter in place |
| Text.LowerIdempotent | src/pages/Materials.tsx:145-147 | lower-casing twice is lower-casing once |
| Text.Includes | src/pages/Materials.tsx:145-147 | every string includes the empty string; an included needle is never longer than the haystack |
| Text.IncludesIffOccurs | src/pages/Materials.tsx:145-147 | `includes` holds iff the needle occurs at some index of the haystack |
| Materials.MatchesSearchIffOccurs | src/pages/Materials.tsx:144-147 | a material matches iff the lower-cased term occurs in the lower-cased name, id or category |
| Materials.FilterMaterials | src/pages/Materials.tsx:142-154 | every copy of a material kept by the search and the tab appears in the list exactly as often as in the table, and no other material appears |
| Materials.FilterMaterialsMembership | src/pages/Materials.tsx:142-154 | a material is listed iff it is in the table, matches the search and, on the "low_stock" tab, has status "low_stock" |
| Materials.OtherTabsListSearchMatches | src/pages/Materials.tsx:150-153 | every tab other than "low_stock" lists exactly what "all" lists |
| Materials.LowStockWithinAll | src/pages/Materials.tsx:151 | the "low_stock" list is an order-preserving sub-list of the "all" list for the same term |
| Materials.FilterMaterialsIsSubseq | src/pages/Materials.tsx:142-154 | the list keeps the table's order, so the count shown never exceeds the total |
| Materials.EmptySearchListsAll | src/pages/Materials.tsx:144-150 | an empty search on the "all" tab lists every material |
| Materials.SearchIgnoresCase | src/pages/Materials.tsx:144-147 | a term and its lower-cased form list the same rows |
| Materials.StockBadge | src/pages/Materials.tsx:273-275 | error style iff the stock level is at or below the reorder point, success style iff above it |
| Users.FilterUsersSpec | src/components/auth/UserList.tsx:23-27 | a user is listed iff it is in the list and its name, email or role contains the term, ignoring case; the order is kept |
| Users.FilterUsers | src/components/auth/UserList.tsx:23-27 | every copy of a user whose name, email or role contains the term appears in the list exactly as often as in the input, and no other user appears |
| Users.EmptyTermListsAll | src/components/auth/UserList.tsx:23-28 | an empty search lists every user |
| Users.UserListView.constructor | src/components/auth/UserList.tsx:18-19 | the list starts with an empty search showing every user, which agrees with the filter |
| Users.UserListView.SetSearchTerm | src/components/auth/UserList.tsx:22-29 | after the search changes, the shown list is the filter of the users by the new term |
| Users.UserListView.SetUsers | src/components/auth/UserList.tsx:22-29 | after the users change, the shown list is the filter of the new users by the current term |
| Users.RoleLabel | src/components/auth/UserList.tsx:81-83 | "Administrador" iff admin, "Gestor" iff manager, "Autorizador" iff authorizer, "Operador" iff any other name |
| Users.RoleLabelDistinguishesRoles | src/components/auth/UserList.tsx:81-83 | the four roles of the panel get four different labels |
| Users.StatusLabel | src/components/auth/UserList.tsx:91 | "Ativo" iff active, "Inativo" iff inactive |
| Users.DeleteRequest | src/components/auth/UserList.tsx:31-35 | a delete request, carrying exactly that id, is passed on iff the confirmation is accepted |
| Users.Body | src/components/auth/UserList.tsx:69-70 | the single empty-table row iff nothing is listed, otherwise one row per listed user |
| UserForm.ParseRole | src/components/auth/UserForm.tsx:17-19 | a role is accepted iff it is one of admin, manager, authorizer or operator, and it parses to the role of that name |
| UserForm.ParseRoleName | src/components/auth/UserForm.tsx:17 | parsing the name of a role gives back that role |
| UserForm.Utf16Length | src/components/auth/UserForm.tsx:15 | the length the length rules measure lies between the number of characters and twice it, and is 0 only for the empty string |
| UserForm.AstralCharCountsTwice | src/components/auth/UserForm.tsx:15 | one character outside the Basic Multilingual Plane already counts 2 towards the name's minimum |
| UserForm.Validate | src/components/auth/UserForm.tsx:14-41 | accepted iff the name has at least 2 UTF-16 units, the e-mail has an '@' with text on both sides, the role is one of the four, the password is absent, empty or at least 8 UTF-16 units, and an invitation is sent or a non-empty password is given; accepted values are the input with the empty password made absent; with valid fields the only error is the password requirement |
| UserForm.PasswordRule | src/components/auth/UserForm.tsx:22-28 | a password is accepted iff it is empty or at least 8 UTF-16 units long, and only the empty one becomes absent |
| UserForm.RefinementDecides | src/components/auth/UserForm.tsx:29-41 | with valid fields the form is rejected iff no invitation is sent and no password is given, and the error is on the password field |
| UserForm.Defaults | src/components/auth/UserForm.tsx:55-62 | a new user gets the empty name and email, role "operator" and active; an edited user's name, email, role and active flag are copied; an invitation is on and the password is empty in both cases |
| UserForm.NewUserDefaultsRejected | src/components/auth/UserForm.tsx:14-62 | submitting a new user's defaults untouched fails on the empty name and on the empty e-mail, and on nothing else |
| UserForm.EditDefaultsPass | src/components/auth/UserForm.tsx:55-62 | an edited user with a valid name and e-mail passes with the password left blank, which becomes absent |
| UserForm.ShowSendInvite | src/components/auth/UserForm.tsx:181-204 | the invitation switch is shown iff a user is being created; whenever it is hidden the password field is shown, whatever the switch holds |
| UserForm.ShowPassword | src/components/auth/UserForm.tsx:204 | the password field is shown iff no invitation is sent or a user is being edited; whenever it is hidden, leaving the password blank passes the refinement |
| UserForm.HiddenFieldsNeverRequirePassword | src/components/auth/UserForm.tsx:181-204 | whenever the password field is hidden, or the switch is hidden and keeps its default, valid fields are never rejected by the refinement |
| UserForm.RoleDescription | src/components/auth/UserForm.tsx:150-153 | a description is shown iff the selected value is one of the four roles |
| UserForm.RoleDescriptionDistinguishesRoles | src/components/auth/UserForm.tsx:150-153 | different roles get different descriptions |
| AdminUsers.DeleteByIdSpec | src/app/admin/users/page.tsx:90 | deleting keeps exactly the users whose id differs, in their original order |
| AdminUsers.DeleteById | src/app/admin/users/page.tsx:90 | every copy of a user with a different id is kept exactly as often as before; no user with that id remains |
| AdminUsers.UpdateById | src/app/admin/users/page.tsx:116-118 | the length is kept; each user with the edited id is merged with the submitted fields, every other user is unchanged |
| AdminUsers.UpdateByIdKeepsIds | src/app/admin/users/page.tsx:116-118 | no id changes, and the list is unchanged when no user has that id |
| AdminUsers.MergeSubmitted | src/app/admin/users/page.tsx:116-118 | the edited user keeps its id and last login; name, email, role and active flag come from the submission, and so do the invitation flag and the password |
| AdminUsers.NewUser | src/app/admin/users/page.tsx:129-133 | the created record has the given fresh id, the submitted fields and no last login |
| AdminUsers.CanManageUsers | src/app/admin/users/page.tsx:156-157 | the gate holds iff there is a current user whose role is admin |
| AdminUsers.GateAgreesWithAdminPermission | src/app/admin/users/page.tsx:156-157 | in every consistent store state the page's gate agrees with the "admin" permission of the role table |
| AdminUsers.View | src/app/admin/users/page.tsx:159-173 | the management view iff the gate holds, otherwise the access-denied view |
| AdminUsers.UsersPage.constructor | src/app/admin/users/page.tsx:50-54 | no users, loading, the form closed, no user being edited, not submitting |
| AdminUsers.UsersPage.LoadUsers | src/app/admin/users/page.tsx:58-79 | the list becomes the loaded one and loading ends; the form state is unchanged |
| AdminUsers.UsersPage.HandleEdit | src/app/admin/users/page.tsx:81-84 | the given user is being edited and the form is open; the list is unchanged |
| AdminUsers.UsersPage.HandleDelete | src/app/admin/users/page.tsx:86-103 | the list loses exactly the users with that id; the form state is unchanged |
| AdminUsers.UsersPage.HandleSubmit | src/app/admin/users/page.tsx:105-148 | when editing, the list is updated by the edited user's id; when creating, exactly one new user is appended; afterwards the form is closed, nobody is being edited and submission has ended |
| AdminUsers.UsersPage.HandleCancel | src/app/admin/users/page.tsx:150-153 | the form is closed and nobody is being edited; the list is unchanged |
| AdminUsers.UsersPage.OpenForNewUser | src/app/admin/users/page.tsx:184-187 | the form is open with nobody being edited, so the next submission creates |
| AdminUsers.NewUserThenSubmit | src/app/admin/users/page.tsx:196-199 | the invite or new-user action followed by a submission appends exactly one user and closes the form |
| Navbar.LastSegment | src/components/layout/Navbar.tsx:75 | the result contains no '/', is a suffix of the path, and is preceded by a '/' unless it is the whole path |
| Navbar.LastSegmentAfterLastSlash | src/components/layout/Navbar.tsx:75 | the result is exactly the text after the last '/' |
| Navbar.ReplaceFirst | src/components/layout/Navbar.tsx:75 | replacing keeps the length of the segment |
| Navbar.FirstIndex | src/components/layout/Navbar.tsx:75 | the position found holds the character and no earlier position does |
| Navbar.ReplaceFirstAbsent | src/components/layout/Navbar.tsx:75 | a text without the searched character (the hyphen here) is unchanged |
| Navbar.ReplaceFirstAt | src/components/layout/Navbar.tsx:75 | when the searched character occurs, exactly its first occurrence is replaced and every other character is kept |
| Navbar.FixedRoutes | src/components/layout/Navbar.tsx:67-75 | "/" is titled "Home" and "/maintenance" "Operations & Maintenance", not its fallback text |
| Navbar.PageTitle | src/components/layout/Navbar.tsx:64-76 | a fixed route gets a non-empty title, any other route a title as long as its last segment, and no title contains '/' |
| Navbar.FallbackTitle | src/components/layout/Navbar.tsx:64-76 | any path outside the fixed table is titled by its last segment with the first hyphen replaced |
| Navbar.TrailingSlashTitle | src/components/layout/Navbar.tsx:75 | a non-root path ending in '/' is titled with the empty string |
| Navbar.ReplaceFirstNoSlash | src/components/layout/Navbar.tsx:75 | replacing by a character other than '/' brings in no '/' |
| Sidebar.Visible | src/components/layout/Sidebar.tsx:134-137 | an entry without a permission is always shown; a logged-out visitor sees exactly the entries without one; an "admin" entry is shown iff "admin" is granted |
| Sidebar.VisibleItems | src/components/layout/Sidebar.tsx:149-150 | the rendered entries keep the menu's order, are exactly the visible entries of the menu, and start with the dashboard |
| Sidebar.VisibleItemsByPermission | src/components/layout/Sidebar.tsx:56-150 | the menu is the dashboard, then the seven working areas iff "request" is granted, then administration iff "admin" is granted, in order |
| Sidebar.VisibleItemsByRole | src/components/layout/Sidebar.tsx:56-138 | an admin sees all nine entries, any other signed-in user all but administration, a logged-out visitor only the dashboard |
| Sidebar.Toggle | src/components/layout/Sidebar.tsx:127-132 | the given key's reading is negated, with a missing key read as collapsed; every other key is unchanged |
| Sidebar.ToggleTwice | src/components/layout/Sidebar.tsx:127-132 | toggling the same key twice gives back the reading of every key |
| Sidebar.AdministrationSubmenu | src/components/layout/Sidebar.tsx:152-170 | the Users and Settings links are shown iff "admin" is granted and the administration entry is expanded, and nothing otherwise |
| Sidebar.SidebarView.constructor | src/components/layout/Sidebar.tsx:38-39 | nothing is expanded and the user is the store's current user |
| Sidebar.SidebarView.OnAuthState | src/components/layout/Sidebar.tsx:42-46 | the user becomes the delivered state's user; the expanded entries are unchanged |
| Sidebar.SidebarView.ToggleSubmenu | src/components/layout/Sidebar.tsx:127-132 | the map becomes its toggle at that key, and that key's reading is negated |
| Layout.ShouldRedirect | src/components/layout/Layout.tsx:23-25 | a delivered state redirects iff the page requires authentication, the session is not authenticated and not loading; a redirected visitor holds no permission |
| Layout.LoadingNeverRedirects | src/components/layout/Layout.tsx:23-25 | the loading notification that opens every sign-in and sign-out never redirects |
| Layout.SignOutRedirects | src/components/layout/Layout.tsx:23-25 | after a sign-out a protected page redirects iff the sign-out completed or nobody was signed in |
| Layout.SignInRedirects | src/components/layout/Layout.tsx:23-25 | after a sign-in attempt a protected page redirects iff the attempt failed and nobody was signed in before |
| Layout.UnprotectedNeverRedirects | src/components/layout/Layout.tsx:13-25 | a page that does not require authentication never redirects |
| Layout.LayoutView.constructor | src/components/layout/Layout.tsx:13-15 | a protected page unless told otherwise; not checked, the sidebar closed, no navigation |
| Layout.LayoutView.ShowsSidebar | src/components/layout/Layout.tsx:37-49 | the sidebar is shown iff authentication is required and checked, never with the placeholder |
| Layout.LayoutView.OnAuthState | src/components/layout/Layout.tsx:20-26 | the check is marked done, and "/" is navigated to iff the guard holds |
| Layout.LayoutView.Mount | src/components/layout/Layout.tsx:19-29 | subscribing registers the callback, which the store calls once at once with its current state, and so marks the check done, so the placeholder is gone; "/" is navigated to iff the guard holds on the current state; the store's state and the sidebar flag are unchanged |
| Layout.LayoutView.Unmount | src/components/layout/Layout.tsx:28 | exactly that callback is removed from the store's listeners; no listener is called and the state is unchanged |
| Layout.LayoutView.ToggleSidebar | src/components/layout/Layout.tsx:32-34 | the sidebar's open flag is negated |
| Layout.LayoutView.OnRouteChange | src/components/layout/Sidebar.tsx:49-53 | on a small screen a route change closes the sidebar, otherwise the flag is kept |
| AuthForm.FailureToast | src/components/auth/AuthForm.tsx:49-54 | a destructive "Authentication Failed" toast showing the store's error, or "Invalid email or password." when it is missing or empty |
| AuthForm.FailureShowsStoreMessage | src/components/auth/AuthForm.tsx:49-54 | a failed sign-in always shows the store's own message, never the fallback |
| AuthForm.OutcomeToast | src/components/auth/AuthForm.tsx:43-55 | the welcome toast iff the sign-in succeeded; the destructive style iff it failed |
| AuthForm.AuthFormView.constructor | src/components/auth/AuthForm.tsx:12-16 | not loading, both fields empty |
| AuthForm.AuthFormView.HandleChange | src/components/auth/AuthForm.tsx:21-24 | only the named field takes the value, the other is kept |
| AuthForm.AuthFormView.HandleSignIn | src/components/auth/AuthForm.tsx:27-65 | with an empty field, only the missing-information toast is shown and the store is untouched; otherwise the store signs in and its listeners get the loading state and then the final state, the outcome toast is shown, "/dashboard" is navigated to iff the sign-in succeeded, and loading is off at the end; the listener set never changes |
| AuthForm.AuthFormView.HandleRegister | src/components/auth/AuthForm.tsx:68-75 | only the registration information toast is shown; the store is not used |
| AuthForm.SubmitSignIn | src/components/auth/AuthForm.tsx:27-65 | the form navigates iff both fields are filled, no exception occurred, the email is a mock account's and the password is "password"; the store is then signed in as that account |

## Left out

- The delays and `async`/`await` of `signIn` and `signOut` are left out. Each call is two atomic steps: a loading step, then an outcome step. Overlapping calls and their interleavings are not modelled.
- A listener that subscribes or unsubscribes while being notified is not modelled. Neither is a listener that throws.
- An exception during the simulated wait is an input, `interrupted`. The simulated wait never rejects; only a listener could throw there, and listeners that throw are not modelled.
- `Auth.SessionStore.SignIn`: the JavaScript function never throws to its caller. So the sign-in form's catch branch ("Sign In Error") cannot be reached and is not modelled.
- The `useAuth` hook is not modelled. Neither are the rendered markup, icons, CSS classes or toast and router machinery. A toast or a navigation is recorded in a sequence on the component's class.
- The hosted-auth client, `signUp` and `onAuthStateChange` are not modelled. The tests mock them, but they do not exist in `src/services/auth.ts`.
- Listeners are named by numbers (`Auth.ListenerId`). Two subscriptions of the same callback share a number, which matches the `Set` semantics.
- `Text.Lower` lower-cases ASCII letters only; full Unicode case mapping is not modelled.
- `UserForm.Validate` approximates the form library's e-mail pattern by one necessary condition: an '@' with at least one character on each side (`UserForm.EmailPlausible`). Addresses of that shape which the library refuses are accepted by the model.
- `UserForm.Validate`: the form library also runs the refinement when a field rule fails. The model reports the password requirement only once the field rules pass. The messages' wording is not modelled.
- `AdminUsers.UsersPage.HandleSubmit` does not model the random id; the fresh id is a parameter.
- Timestamps (`Date`, `toISOString`, `toLocaleString`) are not modelled. Neither are the fixed demo lists of users and materials, apart from the three sign-in accounts.
- The toasts of the administration page are not modelled. The catch branches of `loadUsers`, `handleDelete` and `handleSubmit` are unreachable, because nothing in their `try` blocks can throw.
- The unit prices and their decimal formatting in the materials table are not modelled. Neither is the header's scroll flag.
- `src/pages/Index.tsx` is not part of this model.
- `Sidebar.SidebarView.OnAuthState` stores the delivered user, but the menu follows the store's own state: the component asks `auth.hasPermission`, which reads that state, and `Sidebar.VisibleItems` is stated on it.
