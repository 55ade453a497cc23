# Store-rating client: a verified model of its session, routing, list and form logic

The client is a React single-page application through which administrators,
ordinary users and store owners rate stores. This project models the logic
of that client in Dafny and proves what it does.

- **Session store** (`AuthContext`, `auth_context.dfy`). It restores a
  session from the `token` and `user` entries of `localStorage`. It also
  handles login, logout and the profile update `updateUser`.
- **API gateway** (`Api`, `api_service.dfy`). This covers:
  - the endpoint table;
  - the request interceptor, which attaches `Authorization: Bearer <token>`
    (section 2.1 of RFC 6750);
  - the response interceptor, which unwraps payloads and turns every failure
    into one message. On HTTP 401 (section 15.5.2 of RFC 9110) it also clears
    the stored session and navigates to `/login`.
- **Route table** (`AppRoutes`, `app_routes.dfy`) and the **navigation bar**
  (`Navbar`, `navbar.dfy`).
- **List screens**:
  - the administrator's user list (`user_management.dfy`);
  - the administrator's store list (`store_management.dfy`);
  - the user's store browser (`user_dashboard.dfy`).

  Their shared filter, sort and parameter-pruning logic is in
  `list_query.dfy`.
- **Rating dialog** (`rating_modal.dfy`).
- **Five forms**: create user, sign-up, create store, change password and
  sign-in. Their rules are read the way react-hook-form reads them; the
  shared rules and both regular expressions are in `validation.dfy`.

State that the source changes in place is modelled as a class:

- the browser window: storage and location;
- the API client and its default header;
- the session provider;
- each screen, dialog and form.

Each method is proved against a pure function over a snapshot of that state.
For example, `AuthProvider.InitializeAuth` ensures
`State() == Restored(old(State()))`. The lemmas then prove what the source
promises about those functions.

`Json` is a concrete encoder and parser for the user record. It covers the
string-only JSON objects the session store writes. Strings are escaped the
way `JSON.stringify` does it, and read back the way `JSON.parse` does,
including `\n`-style and `\uXXXX` escapes. The round trip is proved. The
parser refuses raw control characters, unknown escapes and malformed
`\uXXXX` escapes, as `JSON.parse` does.

The backend is not modelled. A reply reaches the model as a value: an
`Api.Outcome` for the interceptor, or a `Result` for a screen or form
awaiting a service call. Each submit handler that awaits a reply is
split in two methods: `BeginSubmit` runs up to the `await` and returns the
request, and `FinishSubmit` takes the reply.

Where the code and its written description differ, the model follows the
code:

- Restore clears storage only when the stored record cannot be parsed. A
  lone `token` or a lone `user` entry is left in place.
- `updateUser` has no guard for a missing user.
- The request interceptor takes the token from `localStorage`, not from the
  client's default header. A stored token therefore also goes out on the
  login and register requests.
- The 401 path does not reset the default header.
- `handleSort` in the store browser is defined but no control calls it.

## Model

| member | source | states |
|---|---|---|
| Json.Merge | src/contexts/authContext.jsx:55 | `{...user, ...patch}`: every key present in the patch overwrites, every other key keeps the old value |
| Json.MergeLaws | src/contexts/authContext.jsx:55 | an empty patch changes nothing, a patch applied twice counts once, and two patches in turn equal their merge |
| Json.EscapeChar | src/contexts/authContext.jsx:42 | a written character never opens with a bare quote and holds no raw control character; only plain characters are written as themselves |
| Json.Escape | src/contexts/authContext.jsx:42 | a written string literal holds no raw control character |
| Json.EscapePlain | src/contexts/authContext.jsx:42 | text without quote, backslash or control character is written unchanged |
| Json.ParseChar | src/contexts/authContext.jsx:25-32 | a raw control character inside a literal is refused |
| Json.ParseEscapedChar | src/contexts/authContext.jsx:25 | every character as `JSON.stringify` writes it, escape or not, reads back as itself |
| Json.ParseEscaped | src/contexts/authContext.jsx:25 | a written literal reads back as its string and leaves the text after its closing quote |
| Json.NewlineEscape | src/contexts/authContext.jsx:42 | example: a line break is written as `\n` and `\n` reads back as a line break |
| Json.ControlInsideRefused | src/contexts/authContext.jsx:25-32 | a raw control character after any plain run makes a literal unreadable |
| Json.RawControlInValueRefused | src/contexts/authContext.jsx:25-32 | a stored record whose value holds a raw control character is unreadable, so restore takes the `catch` branch |
| Json.SerializedPrintable | src/contexts/authContext.jsx:42 | the stored record holds no raw control character for any user |
| Json.RoundTrip | src/contexts/authContext.jsx:42 | a record written by `JSON.stringify` reads back as itself |
| Json.SerializedNonEmpty | src/contexts/authContext.jsx:42 | a stored record is never the empty string, so the `user` entry is always truthy |
| Json.CorruptTextRejected | src/contexts/authContext.jsx:25 | example: text that is not a record (`{`, `undefined`) makes parsing fail |
| Api.Call | src/services/apiServices.js:55-100 | each endpoint has one verb and one path; list endpoints pass their filter map as query parameters, body endpoints their argument |
| Api.RoutesDistinct | src/services/apiServices.js:55-100 | no two endpoints share both verb and path |
| Api.ListEndpointsAreGets | src/services/apiServices.js:55-100 | the three list endpoints are GETs that send their filters as the query and no body; no other endpoint sends a query; every body endpoint is a POST or a PUT and sends its argument |
| Api.AuthHeaderFor | src/services/apiServices.js:46-52 | a truthy token installs `Bearer <token>`; a falsy one deletes the header rather than storing `Bearer null` |
| Api.OutgoingAuthorization | src/services/apiServices.js:15-21 | a non-empty stored token t sends `Bearer t`; without one the default header is sent; no header at all iff neither exists |
| Api.ErrorMessage | src/services/apiServices.js:40 | the message is the server's `error`, else the transport message, else "An error occurred"; it is never empty |
| Api.ErrorMessageExamples | src/services/apiServices.js:40 | example: the three priority cases on concrete failures |
| Api.SuccessUnwrapped | src/services/apiServices.js:29-32 | a success yields exactly the payload and changes nothing |
| Api.UnauthorizedTearsDown | src/services/apiServices.js:33-41 | a 401 removes `token` and `user`, keeps every other key, navigates to `/login`, keeps the default header and still rejects with a non-empty message |
| Api.OtherFailuresKeepState | src/services/apiServices.js:33-41 | any other failure leaves storage, location and header alone and rejects with the message |
| Api.TeardownIdempotent | src/services/apiServices.js:34-38 | several 401 replies end as one would |
| Api.StaleCredentialAfterUnauthorized | src/services/apiServices.js:34-38 | after a 401 the next request still carries the default credential installed before it |
| Api.ApiService.constructor | src/services/apiServices.js:4-12 | a new client has no default `Authorization` header |
| Api.ApiService.SetAuthToken | src/services/apiServices.js:46-52 | the default header becomes `AuthHeaderFor(token)` |
| Api.ApiService.PrepareRequest | src/services/apiServices.js:15-21 | outgoing headers are `Content-Type: application/json` plus `Authorization` exactly when `OutgoingAuthorization` yields one, with that value |
| Api.ApiService.HandleResponse | src/services/apiServices.js:28-43 | the new window state and the caller's result are those of `Intercept` |
| AuthContext.Restored | src/contexts/authContext.jsx:19-35 | restore always ends with `loading` false |
| AuthContext.RestoreAdopts | src/contexts/authContext.jsx:20-27 | both entries present and the record readable: the user is the parsed record and the default header is `Bearer <token>` |
| AuthContext.RestoreDiscardsCorrupt | src/contexts/authContext.jsx:28-32 | an unreadable record removes both entries and touches nothing else |
| AuthContext.RestoreKeepsPartial | src/contexts/authContext.jsx:23 | with an entry missing or empty, restore changes only `loading` |
| AuthContext.LoneTokenSurvives | src/contexts/authContext.jsx:20-33 | a stored token without a user record stays in storage, signed out |
| AuthContext.LoginSurvivesReload | src/contexts/authContext.jsx:40-45 | after `login(u, t)` with non-empty t, a reload restores u with header `Bearer t` |
| AuthContext.EmptyTokenLostOnReload | src/contexts/authContext.jsx:40-45 | an empty token signs in without a header and the session does not survive a reload |
| AuthContext.LogoutIdempotent | src/contexts/authContext.jsx:47-52 | logout twice equals logout once, and a reload after it is signed out |
| AuthContext.UnauthorizedThenReloadSignedOut | src/services/apiServices.js:34-38 | a 401 teardown followed by the reload it causes ends signed out |
| AuthContext.UpdateUserMerges | src/contexts/authContext.jsx:54-58 | the user becomes the merge, the stored record parses back to it, every other key (`token` included) and the header are unchanged |
| AuthContext.UpdateUserWithoutSession | src/contexts/authContext.jsx:20-58 | with nobody signed in the new user is exactly the patch and the token entry is untouched; after a reload it is signed out when no non-empty token is stored, and signed in as the patch with `Bearer t` when a non-empty token t is |
| AuthContext.AuthProvider.constructor | src/contexts/authContext.jsx:15-16 | no user, `loading` true |
| AuthContext.AuthProvider.InitializeAuth | src/contexts/authContext.jsx:19-35 | the new state is `Restored` of the old |
| AuthContext.AuthProvider.Login | src/contexts/authContext.jsx:40-45 | the new state is `LoggedIn` of the old |
| AuthContext.AuthProvider.Logout | src/contexts/authContext.jsx:47-52 | the new state is `LoggedOut` of the old |
| AuthContext.AuthProvider.UpdateUser | src/contexts/authContext.jsx:54-58 | the new state is `Updated` of the old |
| AppRoutes.DashboardRoute | src/App.jsx:21-33 | no user gives `/login`; admin, user and store_owner give `/admin`, `/user` and `/store-owner`; the result is `/login` iff there is no user or the role is unknown |
| AppRoutes.Screen | src/App.jsx:17-38 | while loading only the spinner; otherwise the navbar is present iff a user is signed in |
| AppRoutes.SignedInLeavesPublicPages | src/App.jsx:42-49 | signed in, `/login` and `/register` redirect to the dashboard route |
| AppRoutes.UnknownRoleSelfRedirect | src/App.jsx:21-45 | a signed-in user with an unknown role is redirected from `/login` to `/login` |
| AppRoutes.KnownRoleReachesOwnDashboard | src/App.jsx:21-75 | for a known role the dashboard route lands on the guarded page asking for that same role |
| AppRoutes.RootAndFallback | src/App.jsx:78-84 | `/` redirects to the dashboard route; every unmatched path redirects to `/` |
| AppRoutes.SignedOutRootReachesLogin | src/App.jsx:21-45 | signed out, `/` redirects to `/login`, which renders the login page |
| Navbar.RoleDisplayName | src/components/layout/Navbar.jsx:17-28 | the three roles get their labels; any other value comes back unchanged |
| Navbar.RoleLabelsDistinct | src/components/layout/Navbar.jsx:17-28 | the label determines the known role |
| Navbar.NavbarState.constructor | src/components/layout/Navbar.jsx:8-10 | all three flags start false |
| Navbar.NavbarState.ToggleUserMenu | src/components/layout/Navbar.jsx:51 | flips only the user-menu flag |
| Navbar.NavbarState.ToggleMobileMenu | src/components/layout/Navbar.jsx:96 | flips only the mobile-menu flag |
| Navbar.NavbarState.ChangePasswordFromUserMenu | src/components/layout/Navbar.jsx:71-74 | opens the password modal and closes the user menu |
| Navbar.NavbarState.ChangePasswordFromMobileMenu | src/components/layout/Navbar.jsx:122-125 | opens the password modal and closes the mobile menu |
| Navbar.NavbarState.ClosePasswordModal | src/components/layout/Navbar.jsx:143-145 | clears the flag, so the modal is no longer rendered |
| Navbar.NavbarState.HandleLogout | src/components/layout/Navbar.jsx:12-15 | the session becomes `LoggedOut` of the old and the user menu closes; the mobile menu keeps its state |
| ListQuery.DirectionText | src/components/admin/UserManagment.jsx:22-25 | the direction is sent as `asc` or `desc` |
| ListQuery.NextSort | src/components/admin/UserManagment.jsx:61-67 | the field becomes the clicked one; the direction is `desc` iff the same field was sorted `asc` |
| ListQuery.ClicksAlternate | src/components/admin/UserManagment.jsx:61-67 | repeated clicks on one column alternate the direction after the first |
| ListQuery.NewColumnStartsAscending | src/components/admin/UserManagment.jsx:61-67 | a new column starts ascending and its second click is descending |
| ListQuery.WithFilter | src/components/admin/UserManagment.jsx:54-59 | only the named filter changes |
| ListQuery.Prune | src/components/admin/UserManagment.jsx:40-43 | the loop keeps exactly the keys with a non-empty value, values unchanged |
| ListQuery.PrunedQuery | src/components/admin/UserManagment.jsx:34-43 | the request always carries the direction, carries the sort field iff a column was clicked, carries exactly the non-empty filters, and no empty value |
| ListQuery.FilterSentIffSet | src/components/admin/UserManagment.jsx:34-43 | some filter reaches the request iff some filter is set |
| ListQuery.EmptyHint | src/components/admin/UserManagment.jsx:210-212 | the screen's filtered hint iff some filter is set, its unfiltered hint otherwise; the three screens pass their own two texts |
| ListQuery.InitialQuery | src/components/admin/UserManagment.jsx:16-43 | before any input the request carries only `sortDirection=asc` |
| UserManagement.SortableColumns | src/components/admin/UserManagment.jsx:221-259 | name, email, role and created_at are sortable; address is not |
| UserManagement.InitialRequest | src/components/admin/UserManagment.jsx:16-25 | the initial filters and sort produce a request with only the direction, and the empty table shows the create prompt |
| UserManagement.UserManagementScreen.constructor | src/components/admin/UserManagment.jsx:13-25 | four empty filters, sort field `""` ascending, empty list, loading |
| UserManagement.UserManagementScreen.HandleFilterChange | src/components/admin/UserManagment.jsx:54-59 | the filters become `WithFilter` of the old; nothing else changes |
| UserManagement.UserManagementScreen.HandleSort | src/components/admin/UserManagment.jsx:61-67 | the sort becomes `NextSort` of the old; nothing else changes |
| UserManagement.UserManagementScreen.FetchUsers | src/components/admin/UserManagment.jsx:31-52 | sends the pruned query to `/admin/users`; success replaces the list, failure keeps it and reports "Failed to fetch users"; loading ends false |
| UserManagement.UserManagementScreen.SetCreateModal | src/components/admin/UserManagment.jsx:124-130 | sets only the create-dialog flag |
| StoreManagement.SortableColumns | src/components/admin/StoreManagment.jsx:224-231 | name, email, avg_rating and created_at are sortable; address and owner are not |
| StoreManagement.StoreManagementScreen.constructor | src/components/admin/StoreManagment.jsx:10-21 | three empty filters, sort field `""` ascending, empty list, loading |
| StoreManagement.StoreManagementScreen.HandleFilterChange | src/components/admin/StoreManagment.jsx:50-55 | the filters become `WithFilter` of the old; nothing else changes |
| StoreManagement.StoreManagementScreen.HandleSort | src/components/admin/StoreManagment.jsx:57-63 | the sort becomes `NextSort` of the old; nothing else changes |
| StoreManagement.StoreManagementScreen.FetchStores | src/components/admin/StoreManagment.jsx:27-48 | sends the pruned query to `/admin/stores`; success replaces the list, failure keeps it and reports "Failed to fetch stores"; loading ends false |
| StoreManagement.StoreManagementScreen.SetCreateModal | src/components/admin/StoreManagment.jsx:131-137 | sets only the create-dialog flag |
| UserDashboard.RateButtonLabel | src/components/user/UserDashboard.jsx:257 | "Update Rating" iff the store has a user rating, else "Rate Store" |
| UserDashboard.ButtonLabelsAgree | src/components/user/UserDashboard.jsx:257 | the card button and the dialog's idle submit button read the same iff the store has a user rating |
| UserDashboard.RequestKeys | src/components/user/UserDashboard.jsx:13-38 | a store request carries at most name, address and the two sort keys, none empty |
| UserDashboard.UserDashboardScreen.constructor | src/components/user/UserDashboard.jsx:9-20 | empty name and address filters, no selection, dialog closed, loading |
| UserDashboard.UserDashboardScreen.HandleFilterChange | src/components/user/UserDashboard.jsx:49-54 | only the named filter changes |
| UserDashboard.UserDashboardScreen.HandleSort | src/components/user/UserDashboard.jsx:56-62 | the same toggle rule as the admin screens |
| UserDashboard.UserDashboardScreen.FetchStores | src/components/user/UserDashboard.jsx:26-47 | sends the pruned query to `/user/stores`; success replaces the list, failure keeps it; loading ends false |
| UserDashboard.UserDashboardScreen.HandleRateStore | src/components/user/UserDashboard.jsx:103-106 | selects the store and opens the dialog |
| UserDashboard.UserDashboardScreen.CloseRatingModal | src/components/user/UserDashboard.jsx:270-273 | clears flag and selection, so the dialog is not rendered |
| UserDashboard.UserDashboardScreen.HandleRatingSubmitted | src/components/user/UserDashboard.jsx:108-113 | closes the dialog, clears the selection and refetches |
| RatingModal.InitialRating | src/components/user/RattingModel.jsx:7 | the selection starts at the user's rating, or 0 without one |
| RatingModal.RatingLabel | src/components/user/RattingModel.jsx:59-68 | 1 Poor, 2 Fair, 3 Good, 4 Very Good, 5 Excellent, anything else "Select a rating" |
| RatingModal.LabelsDistinguishRatings | src/components/user/RattingModel.jsx:59-68 | the five labels are distinct and none is the no-rating prompt |
| RatingModal.SubmitButtonText | src/components/user/RattingModel.jsx:142-146 | "Submitting..." while loading, else "Update Rating" iff the store has a user rating |
| RatingModal.RatingBody | src/components/user/RattingModel.jsx:19-22 | the body is exactly `{storeId, rating}` |
| RatingModal.RatingModalState.constructor | src/components/user/RattingModel.jsx:7-9 | selection `InitialRating`, hover 0, not loading |
| RatingModal.RatingModalState.ClickStar | src/components/user/RattingModel.jsx:40 | the selection becomes i; submit is enabled iff not loading |
| RatingModal.RatingModalState.EnterStar | src/components/user/RattingModel.jsx:41 | the hover and the displayed rating become i |
| RatingModal.RatingModalState.LeaveStar | src/components/user/RattingModel.jsx:42 | the hover resets to 0 and the display falls back to the selection |
| RatingModal.RatingModalState.RenderInteractiveStars | src/components/user/RattingModel.jsx:31-57 | five stars; star i is filled iff i is at most the displayed rating |
| RatingModal.RatingModalState.BeginSubmit | src/components/user/RattingModel.jsx:11-22 | selection 0 reports "Please select a rating" and sends nothing; otherwise the rating request is sent and the dialog is busy with submit disabled |
| RatingModal.RatingModalState.FinishSubmit | src/components/user/RattingModel.jsx:18-28 | `onSuccess` runs iff the request succeeded; a failure shows its message; loading ends false |
| Validation.EmailRegexIsShape | src/components/admin/CreateUserModel.jsx:109 | the e-mail pattern accepts exactly: no white space, one `@` not first, and a `.` after it with a character on each side |
| Validation.PasswordRegexOnOneLine | src/components/admin/CreateUserModel.jsx:148 | on one line the pattern means: some A–Z and some character of the special set |
| Validation.PasswordRegexStopsAtLineBreak | src/components/admin/CreateUserModel.jsx:148 | example: a capital and a special character after a line break do not satisfy the pattern |
| Validation.LengthRule | src/components/admin/CreateUserModel.jsx:71-81 | a length rule is required and has no pattern |
| Validation.LengthRuleMeaning | src/components/admin/CreateUserModel.jsx:71-81 | a required rule with bounds lo..hi (lo > 0) accepts exactly lengths lo..hi |
| Validation.EmailRuleMeaning | src/components/admin/CreateUserModel.jsx:106-112 | the e-mail rule accepts exactly the e-mail shape |
| Validation.PasswordRuleMeaning | src/components/admin/CreateUserModel.jsx:137-151 | 8 to 16 characters and the pattern; on one line, with a capital and a special character |
| Validation.AddressRuleMeaning | src/components/admin/CreateUserModel.jsx:216-221 | the address is optional with at most 400 characters |
| Validation.RequiredMeaning | src/components/admin/CreateUserModel.jsx:244 | `required` alone accepts exactly the non-empty values |
| Validation.FormBody | src/components/admin/CreateUserModel.jsx:26 | the body has exactly the given fields with their form values |
| CreateUserModal.ValidMeaning | src/components/admin/CreateUserModel.jsx:71-254 | the form passes iff name 20..60, e-mail shape, password policy, confirmation equal, address ≤ 400 and a role chosen |
| CreateUserModal.RoleChoices | src/components/admin/CreateUserModel.jsx:243-255 | of the offered values only admin, user and store_owner pass, and each is a known role of the route table |
| CreateUserModal.CreateUserModalState.constructor | src/components/admin/CreateUserModel.jsx:11 | not loading |
| CreateUserModal.CreateUserModalState.BeginSubmit | src/components/admin/CreateUserModel.jsx:23-26 | a request goes out iff not loading and the form passes; it carries the whole form, confirmation included |
| CreateUserModal.CreateUserModalState.FinishSubmit | src/components/admin/CreateUserModel.jsx:23-33 | `onSuccess` iff success; a failure shows its message; loading reset |
| RegisterForm.ValidMeaning | src/components/auth/Resister.jsx:70-226 | the form passes iff name 3..60, e-mail shape, password policy, confirmation equal and address ≤ 400 |
| RegisterForm.NamesWiderThanAdminForm | src/components/auth/Resister.jsx:70-80 | every name the admin form accepts is accepted here but not conversely; the password rule is the same |
| RegisterForm.RegisterFormState.constructor | src/components/auth/Resister.jsx:11 | not loading |
| RegisterForm.RegisterFormState.BeginSubmit | src/components/auth/Resister.jsx:25-33 | the body is exactly name, email, password and address; the confirmation is never sent |
| RegisterForm.RegisterFormState.FinishSubmit | src/components/auth/Resister.jsx:25-41 | success logs the session in with the returned user and token; failure leaves the session untouched and shows the message; loading reset |
| CreateStoreModal.OwnerEmailOptional | src/components/admin/CreateStoreModel.jsx:155-160 | a blank owner e-mail passes; any other must have the e-mail shape |
| CreateStoreModal.ValidMeaning | src/components/admin/CreateStoreModel.jsx:61-160 | the form passes iff name 20..60, e-mail shape, address ≤ 400 and owner e-mail blank or an address |
| CreateStoreModal.CreateStoreModalState.constructor | src/components/admin/CreateStoreModel.jsx:9 | not loading |
| CreateStoreModal.CreateStoreModalState.BeginSubmit | src/components/admin/CreateStoreModel.jsx:18-21 | a request goes out iff not loading and the form passes; it carries the whole form |
| CreateStoreModal.CreateStoreModalState.FinishSubmit | src/components/admin/CreateStoreModel.jsx:18-28 | `onSuccess` iff success; a failure shows its message; loading reset |
| PasswordModal.ValidMeaning | src/components/layout/PasswordModel.jsx:59-114 | the form passes iff the password meets the policy and the confirmation equals it |
| PasswordModal.PasswordModalState.constructor | src/components/layout/PasswordModel.jsx:9 | not loading |
| PasswordModal.PasswordModalState.BeginSubmit | src/components/layout/PasswordModel.jsx:20-23 | only `{password}` is sent; submit is disabled while the request runs |
| PasswordModal.PasswordModalState.FinishSubmit | src/components/layout/PasswordModel.jsx:20-31 | the dialog closes iff the request succeeded; a failure keeps it open and shows the message; loading reset |
| LoginForm.ValidMeaning | src/components/auth/Login.jsx:61-92 | the form passes iff the e-mail has the shape and the password is non-empty; no password policy applies |
| LoginForm.SignedInLeavesLoginPage | src/components/auth/Login.jsx:25 | once logged in, the sign-in page redirects to the user's dashboard route |
| LoginForm.LoginFormState.constructor | src/components/auth/Login.jsx:12 | not loading |
| LoginForm.LoginFormState.BeginSubmit | src/components/auth/Login.jsx:21-24 | the form data goes out unchanged; submit is disabled while the request runs |
| LoginForm.LoginFormState.FinishSubmit | src/components/auth/Login.jsx:21-32 | success logs the session in with the returned user and token; failure leaves it untouched and shows the message; loading reset |

## Left out

- The HTTP transport is not modelled: the axios instance, the base URL taken from the environment, the 10-second timeout and the backend. Replies enter the model as values.
- `Json.Parse` reads only JSON objects whose members are all strings, with no white space between tokens. Some stored text is valid JSON that `JSON.parse` would accept, but the model treats it as unreadable. This covers:
  - `null`, numbers, nested values and a numeric `id`;
  - white space between tokens;
  - a `\uXXXX` escape of an unpaired surrogate, because a Dafny string cannot hold one.
- `Json.User` and `Json.Parse`: the user record is limited to the string keys `id`, `name`, `email`, `role` and `address`. The source stores whatever record the backend returns. On restore the model drops every other key (for example `created_at`), so a restore followed by `updateUser` writes back a smaller record than the source would. A backend record with a numeric `id`, or any other non-string value, is discarded on restore as unreadable, where the source keeps it and signs in.
- `AuthContext.Restored` differs from the source on a stored `user` entry of `null`. The source then sets the user to `null` and still installs the token; the model instead discards the entry as unreadable.
- `localStorage.setItem` converts its argument to a string. A login reply without a token would therefore store the text `undefined`; the model takes the token as a string.
- Toast display, success toasts, React rendering and hook scheduling are left out. So are icons, CSS classes and the loading spinner. Only the last error message of each screen or form is kept, in its `toast` field.
- `useEffect` is not modelled. It re-runs the fetch whenever the filters or the sort change. Overlapping fetches and races between in-flight replies are also out, since they are concurrency. `FetchUsers`/`FetchStores` model one fetch with its settled reply.
- `FetchUsers` and `FetchStores` take the reply as `data.users` / `data.stores`. A reply without that key is not modelled.
- The rating display that uses floating point (`renderStarRating`, `toFixed`) is not modelled. Nor are the `avg_rating` column values and locale date formatting.
- Three success callbacks reference undefined identifiers and would throw at run time: `setShowCreateUser` and `navigate` in the user list, and `navigate` in the store list. They are not modelled. Neither are the unused `handleUserCreated` and `handleStoreCreated` handlers.
- `ProtectedRoute` is not part of this model; a guarded page is represented by the role it asks for. react-router's case-insensitive matching and trailing-slash handling are not modelled, and neither is the `useAuth` guard, which never fires.
- Rules are modelled by their accept/reject verdict only. Which message wins when several rules fail is not modelled, nor is the browser's own `type="email"` check.
- `minLength`/`maxLength` count UTF-16 code units in the source and Unicode scalar values here. They differ only for characters outside the Basic Multilingual Plane.
- The show-password toggles are not modelled, since they only change an input's display.
