# Reseller dashboard: a verified model of its client-side logic

This project models, in Dafny, the client-side logic of a React reseller
dashboard, with each backend response taken as an input value. Owners,
admins and resellers sign in, generate and upload licence keys, manage
providers and their plans, invite others with referral codes and claim
bonuses. Nearly every screen fetches JSON from a REST backend that is not
part of this model. What is modelled is the deterministic logic around those
calls:

- the session store (`AuthContext`) and its two localStorage entries;
- the route guards and the route table (`App`);
- the role-driven side menu and the bottom navigation;
- the input checks and parsers: password rules, the key-list tokeniser,
  and the generate and bonus-claim guards;
- the list, selection, pagination and form-state handlers of the pages.

The project has one module per source file, plus three shared modules:

- `Util` holds options and results, JavaScript truthiness and string
  helpers, query-parameter lists and decimal text.
- `Catalog` holds the provider and plan lookup shared by the generate and
  upload pages.
- `Flags` holds the `{...prev, [id]: !prev[id]}` toggle map shared by the
  keys, bonus and providers pages.

A component whose handlers update React state step by step is a `class`.
Its fields are the state variables, and each handler is a `method` whose
`ensures` gives the whole new state. Pure helpers are functions, and what
the pages promise about them is proved as lemmas. Each handler is one
atomic step. The backend's answer is a parameter: `Reply` is a success
flag or a failure that may carry the backend's `error` text. Each request
the page would send comes back as an out-parameter, and nothing is sent
over a network.

## Model

| member | source | states |
|---|---|---|
| AuthContext.Rehydrate | src/context/AuthContext.jsx:18-28 | the start-up effect restores a session only when both entries are stored and the token is non-empty |
| AuthContext.RehydrateAfterSignIn | src/context/AuthContext.jsx:18-37 | after `login`/`register` a reload restores exactly the stored user and token (for a non-empty token) |
| AuthContext.RehydrateAfterLogout | src/context/AuthContext.jsx:69-74 | after `logout` a reload finds no session |
| AuthContext.RehydratedSessionIsPaired | src/context/AuthContext.jsx:22-25 | a restored session always has both a user and a token |
| AuthContext.UseAuth | src/context/AuthContext.jsx:5-11 | `useAuth` returns the provider value when there is one and fails with the configuration message exactly when there is none |
| AuthContext.AuthProvider.constructor | src/context/AuthContext.jsx:13-16 | a mounted provider has no user, no token and is loading |
| AuthContext.AuthProvider.Bootstrap | src/context/AuthContext.jsx:18-28 | the effect takes the stored session when it is restorable, leaves the state otherwise, and always ends loading |
| AuthContext.AuthProvider.Login | src/context/AuthContext.jsx:31-37 | user, token and both storage entries are set and the reply echoes them |
| AuthContext.AuthProvider.Register | src/context/AuthContext.jsx:61-67 | the same state change as `login`, resolving with `{ success: true }` only |
| AuthContext.AuthProvider.Logout | src/context/AuthContext.jsx:69-74 | user and token are cleared and both storage entries removed |
| AuthContext.AuthProvider.SimulatedLogin | src/context/AuthContext.jsx:41-59 | signs in the fixed admin record exactly when email and password are non-empty; otherwise rejects with "Invalid credentials" and changes nothing |
| AuthContext.ReloadAfterLogin | src/context/AuthContext.jsx:18-37 | login followed by a fresh provider over the same storage yields the same session, not loading |
| AuthContext.ReloadAfterLogout | src/context/AuthContext.jsx:69-74 | logout followed by a reload yields no session |
| AuthContext.BootstrapTwice | src/context/AuthContext.jsx:18-28 | running the start-up effect twice gives the same session as once |
| AppRoutes.GuardsAreComplementary | src/App.jsx:76-90 | after loading, `ProtectedRoute` shows its page exactly when `PublicRoute` redirects, and conversely |
| AppRoutes.ProtectedRoute | src/App.jsx:77-82 | the loader exactly while loading; the page is shown only to a signed-in user, and the only redirect is to `/login`, for an anonymous visitor |
| AppRoutes.PublicRoute | src/App.jsx:85-90 | the loader exactly while loading; the page is shown only to an anonymous visitor, and the only redirect is to `/dashboard`, for a signed-in user |
| AppRoutes.MatchRoute | src/App.jsx:102-261 | `/` (any run of slashes) is the root entry and nothing else is; a profile match carries a non-empty id without `/`, taken from after `/user-profile/` |
| AppRoutes.Render | src/App.jsx:102-261 | `/` always redirects to the dashboard; while loading every other path shows the loader; a shown page is the matched one and is public exactly for an anonymous visitor; every redirect goes to `/login` or `/dashboard` |
| AppRoutes.LowerAll | src/App.jsx:102-261 | the folded path has no upper-case ASCII letter, and a path already in lower case is left as it is |
| AppRoutes.StripTrailingSlashes | src/App.jsx:102-261 | the matched path is the location path with its trailing slashes removed and nothing else: only `/` characters are dropped, and the result does not end in one |
| AppRoutes.FoldsToItself | src/App.jsx:102-261 | a lower-case path without trailing slash is its own normalised form |
| AppRoutes.LoadingShowsOnlyTheLoader | src/App.jsx:76-90 | while loading every path shows the loader except `/`, which redirects to the dashboard |
| AppRoutes.UnknownPathNeedsSignIn | src/App.jsx:251-259 | the `*` fallback redirects an anonymous visitor to `/login` and shows the 404 page to a signed-in user |
| AppRoutes.ShownPagesFollowTheSession | src/App.jsx:76-120 | after loading, a shown page is public exactly when nobody is signed in |
| AppRoutes.MatchLogin | src/App.jsx:104 | `/login` opens the login page |
| AppRoutes.MatchRegister | src/App.jsx:109 | `/register` opens the registration page |
| AppRoutes.MatchInstall | src/App.jsx:115 | `/download-app` opens the install page |
| AppRoutes.PublicPathsArePublic | src/App.jsx:104-120 | the pages at `/login`, `/register` and `/download-app` are the three that `PublicRoute` guards |
| AppRoutes.MatchDashboard | src/App.jsx:123 | `/dashboard` opens the dashboard |
| AppRoutes.MatchKeys | src/App.jsx:130 | `/keys` opens the keys page |
| AppRoutes.MatchTransactions | src/App.jsx:140 | `/transactions` opens the transactions page |
| AppRoutes.MatchProviderPlans | src/App.jsx:149 | `/provider-plans` opens the providers page |
| AppRoutes.MatchUploadKeys | src/App.jsx:157 | `/upload-keys` opens the upload page |
| AppRoutes.MatchResetKey | src/App.jsx:165 | `/reset-key` opens the reset page |
| AppRoutes.MatchUsers | src/App.jsx:175 | `/users` opens the users page |
| AppRoutes.MatchGenerateKeys | src/App.jsx:193 | `/generate-keys` opens the generate page |
| AppRoutes.MatchChangePassword | src/App.jsx:201 | `/change-password` opens the change-password page, not the profile route before it |
| AppRoutes.MatchUnsoldKeys | src/App.jsx:209 | `/unsold-keys` opens the unsold-keys page |
| AppRoutes.MatchMyBonus | src/App.jsx:218 | `/my-bonus` opens the bonus page |
| AppRoutes.MatchBonusList | src/App.jsx:226 | `/bonus-list` opens the bonus list |
| AppRoutes.MatchCreateReferral | src/App.jsx:235 | `/create-ref` opens the referral page |
| AppRoutes.RedirectsSettle | src/App.jsx:76-90 | every redirect reaches a shown page within two hops: the login page when anonymous, the dashboard when signed in |
| AppRoutes.ProfileLinkMatches | src/App.jsx:185-190 | `/user-profile/<id>` opens the profile page of exactly that id when the id is one non-empty segment |
| AppRoutes.ProfileTakesOneSegment | src/App.jsx:185 | a path with a second segment after the id opens no profile page, so `:userId` takes exactly one segment |
| Sidebar.ManagementItems | src/components/Layout/Sidebar.jsx:62-95 | no entries without a user; the owner and admin lists by exact role; every other or missing role gets only Change Password, which always ends the list |
| Sidebar.ManagementShownIffSignedIn | src/components/Layout/Sidebar.jsx:97-98 | the management section is shown exactly when a user is signed in |
| Sidebar.IsSelected | src/components/Layout/Sidebar.jsx:100-102 | an entry is selected exactly at its own path or at a path that continues it with `/` |
| Sidebar.SelectionRespectsSegments | src/components/Layout/Sidebar.jsx:100-102 | an entry is selected only at its own path or below a `/` after it |
| Sidebar.NoSiblingSelection | src/components/Layout/Sidebar.jsx:100-102 | `/keysX` does not select `/keys`, `/keys/1` does |
| Sidebar.MenuPathsMatch | src/components/Layout/Sidebar.jsx:51-59 | each primary entry's path is a protected page of the route table |
| Sidebar.ManagementPathsMatch | src/components/Layout/Sidebar.jsx:62-95 | each management entry's path is a protected page of the route table |
| Sidebar.EveryEntryIsARoute | src/components/Layout/Sidebar.jsx:51-95 | every entry shown to any user opens a real page, shown to a signed-in user |
| Sidebar.SidebarState.constructor | src/components/Layout/Sidebar.jsx:46-47 | starts expanded with the management menu closed |
| Sidebar.SidebarState.ToggleCollapse | src/components/Layout/Sidebar.jsx:104-110 | flips `collapsed` only and reports the new value when `onCollapse` is given |
| Sidebar.SidebarState.ToggleManagement | src/components/Layout/Sidebar.jsx:269 | flips `managementOpen` only |
| BottomNav.FindPrefixIndex | src/components/Layout/BottomNav.jsx:30-36 | the first tab path that is a plain prefix of the current path, or -1 exactly when none is |
| BottomNav.PrefixWithoutBoundary | src/components/Layout/BottomNav.jsx:31-32 | the lookup highlights the Keys tab for `/keysX` |
| BottomNav.TabPathsHighlightTheirTab | src/components/Layout/BottomNav.jsx:23-36 | each tab's own path highlights that tab |
| BottomNav.OnlyTheLastTabOpensTheMenu | src/components/Layout/BottomNav.jsx:23-28 | only the fourth tab opens the menu; the others link to pages of the route table |
| BottomNav.BottomNavState.constructor | src/components/Layout/BottomNav.jsx:20 | the first tab is highlighted at mount |
| BottomNav.BottomNavState.OnPathChange | src/components/Layout/BottomNav.jsx:30-36 | highlights the found tab and keeps the highlight when no tab matches |
| BottomNav.BottomNavState.HandleChange | src/components/Layout/BottomNav.jsx:38-47 | highlights the clicked tab and opens the menu exactly for the fourth tab, navigating otherwise |
| Flags.Toggle | src/pages/Key.jsx:221-226 | the toggled id reads the negation of how it read; every other entry keeps its presence and value |
| Flags.ToggleFlipsOnlyItsId | src/pages/Key.jsx:221-226 | a toggle flips the reading of its own id and of no other id |
| Flags.FirstToggleTurnsOn | src/pages/ProviderPlans.jsx:116-121 | an id never toggled reads as off and one toggle turns it on |
| Flags.ToggleTwiceRestores | src/pages/MyBonus.jsx:192-197 | toggling the same id twice restores how every id reads |
| Catalog.ProviderIndex | src/pages/UploadKey.jsx:168 | `providers.find`: the first provider with the id, or -1 exactly when none has it |
| Catalog.FindPlan | src/pages/Generate.jsx:242 | `plans.find`: the first plan with the id, or none exactly when no plan has it |
| Catalog.PlansForProvider | src/pages/UploadKey.jsx:166-170 | nothing while no provider is picked or when the picked id is unknown; otherwise the plans of the first provider with that id |
| Catalog.OfferedPlansBelongToPicked | src/pages/Generate.jsx:231-235 | every plan offered belongs to a provider that has the picked id |
| KeysPage.ShortenKeyCode | src/pages/Key.jsx:214-219 | a code over twenty characters shows its first ten, `...` and its last ten; a shorter code is shown whole |
| KeysPage.ShortenIsIdempotent | src/pages/Key.jsx:214-219 | shortening a shortened code changes nothing |
| KeysPage.ListParams | src/pages/Key.jsx:90-96 | the request always starts with the page and the page size |
| KeysPage.ListParamsLookup | src/pages/Key.jsx:90-96 | the value sent under a name is the first of the page/size, search and date parts that has one |
| KeysPage.ListParamsCarryPaging | src/pages/Key.jsx:90-96 | page and limit are always sent as decimal text; the range name never is |
| KeysPage.ListParamsCarrySearch | src/pages/Key.jsx:93 | the search text is sent exactly when it is not empty, unchanged |
| KeysPage.ListParamsCarryDates | src/pages/Key.jsx:94-95 | each date is sent exactly when it is not empty, unchanged |
| KeysPage.KeysPageState.constructor | src/pages/Key.jsx:55-65 | page 1, ten rows, nothing revealed, no search, every date |
| KeysPage.KeysPageState.ToggleKeyVisibility | src/pages/Key.jsx:221-226 | flips the reveal state of that key only and leaves the rest of the state |
| KeysPage.KeysPageState.HandleChangePage | src/pages/Key.jsx:194-196 | stores the zero-based table page as the one-based page |
| KeysPage.KeysPageState.HandleChangeRowsPerPage | src/pages/Key.jsx:198-201 | stores the page size and returns to page 1 |
| KeysPage.KeysPageState.HandleSearch | src/pages/Key.jsx:115-119 | returns to page 1 and keeps the search text |
| KeysPage.KeysPageState.SetSearchQuery | src/pages/Key.jsx:366 | the typed text becomes the search text; nothing else changes |
| KeysPage.KeysPageState.SetDates | src/pages/Key.jsx:451-465 | the custom range's start and end dates are set, the range name kept; nothing else changes |
| KeysPage.KeysPageState.HandleClearSearch | src/pages/Key.jsx:121-129 | clears the search and the dates and returns to page 1 |
| KeysPage.ClearedSearchSendsOnlyPaging | src/pages/Key.jsx:90-129 | after clearing, the request carries page 1 and the page size only |
| KeysPage.TypedSearchIsSent | src/pages/Key.jsx:90-119 | a typed, non-empty search text is sent by the next search, on page 1; an empty one is not sent |
| Transactions.TypeColor | src/pages/Transactions.jsx:153-162 | `primary` exactly for a key purchase, `success` exactly for a recharge, `default` for every other type |
| Transactions.TypeIcon | src/pages/Transactions.jsx:164-175 | the receipt icon exactly for a key purchase, the payment icon exactly for a recharge or a commission |
| Transactions.TypeLabel | src/pages/Transactions.jsx:177-186 | the two known types get their readable labels, and exactly they are shown differently from the raw type |
| Transactions.KnownTypesAgree | src/pages/Transactions.jsx:153-186 | the colour and label maps know the same types, and a known type also has its own icon |
| Transactions.CommissionHasOnlyAnIcon | src/pages/Transactions.jsx:164-175 | a commission has the payment icon but the default colour and its raw name as label |
| Transactions.ListParams | src/pages/Transactions.jsx:86-94 | the request always starts with the page and the page size |
| Transactions.ListParamsLookup | src/pages/Transactions.jsx:86-94 | the value sent under a name is the first of the paging and filter parts that has one |
| Transactions.ListParamsCarryPaging | src/pages/Transactions.jsx:86-88 | page and limit are always sent as decimal text |
| Transactions.FilterLookup | src/pages/Transactions.jsx:89-93 | each of type, dates and amounts is sent exactly when it is not empty, unchanged |
| Transactions.UserFiltersAreNeverSent | src/pages/Transactions.jsx:53-94 | the user and done-by filters held in state are never sent |
| Transactions.ClearFilters | src/pages/Transactions.jsx:114-125 | all seven filters, `user_id` and `done_by` included, are cleared, page 1 with the page size kept, so the request carries the paging only |
| Transactions.ChangePage | src/pages/Transactions.jsx:127-129 | the zero-based table page is stored one-based; nothing else changes |
| Transactions.ChangeRowsPerPage | src/pages/Transactions.jsx:131-134 | the new page size and page 1; the filters are kept |
| Transactions.HandlersKeepPageOneBased | src/pages/Transactions.jsx:114-134 | every handler keeps the page at 1 or more |
| UnsoldKeys.IndexOf | src/pages/UnsoldKeys.jsx:173 | `indexOf`: the first position of the id, or -1 exactly when it is absent |
| UnsoldKeys.ToggleSelection | src/pages/UnsoldKeys.jsx:172-190 | an absent id is appended at the end; a present id's first occurrence is removed, and all three removal branches come to removing that one position |
| UnsoldKeys.RemoveAtDistinct | src/pages/UnsoldKeys.jsx:178-187 | removing a position of a duplicate-free list removes exactly that value and keeps the list duplicate-free |
| UnsoldKeys.ToggleKeepsDistinct | src/pages/UnsoldKeys.jsx:172-190 | toggling never introduces a duplicate and flips the toggled id's membership only |
| UnsoldKeys.ToggleTwiceRestores | src/pages/UnsoldKeys.jsx:172-190 | toggling an absent id twice gives back the selection |
| UnsoldKeys.SelectAll | src/pages/UnsoldKeys.jsx:163-170 | checked gives the ids of the rows in table order; unchecked gives the empty selection |
| UnsoldKeys.HeaderChecked | src/pages/UnsoldKeys.jsx:409 | the header is never checked on an empty table or with nothing selected |
| UnsoldKeys.HeaderIndeterminate | src/pages/UnsoldKeys.jsx:410 | while the selection is no larger than the page, the header is indeterminate exactly when something is selected but the header is not checked |
| UnsoldKeys.HeaderFollowsSelectAll | src/pages/UnsoldKeys.jsx:409-410 | the header is never both checked and indeterminate; select-all on a non-empty table checks it and unselect clears it |
| UnsoldKeys.NonEmptyEntries | src/pages/UnsoldKeys.jsx:110-114 | exactly the entries whose value is not `''` are kept, unchanged |
| UnsoldKeys.StripEmpty | src/pages/UnsoldKeys.jsx:110-114 | the delete-in-a-loop over the keys leaves exactly the non-empty entries |
| UnsoldKeys.StrippingIsIdempotent | src/pages/UnsoldKeys.jsx:110-114 | stripping a stripped record changes nothing |
| UnsoldKeys.SentPaging | src/pages/UnsoldKeys.jsx:103-114 | page and limit are always sent; the search text exactly when it is not empty, unchanged |
| UnsoldKeys.SentFilters | src/pages/UnsoldKeys.jsx:103-114 | provider, plan, duration and both amounts are sent exactly when they are not empty |
| UnsoldKeys.DefaultRequest | src/pages/UnsoldKeys.jsx:62-71 | with the default filters the request carries page, limit and the two sort fields only |
| UnsoldKeys.PageChange | src/pages/UnsoldKeys.jsx:148-153 | the zero-based table page is stored one-based; every other pagination field is kept |
| UnsoldKeys.RowsPerPageChange | src/pages/UnsoldKeys.jsx:155-161 | the new page size and page 1; every other pagination field is kept |
| UnsoldKeys.RowIndex | src/pages/UnsoldKeys.jsx:209 | `keys.find`: the first row with the id, or -1 exactly when none has it |
| UnsoldKeys.DeleteRequestFor | src/pages/UnsoldKeys.jsx:192-216 | an empty selection is refused with its message; otherwise the request carries the whole selection and the provider and plan of the first selected row, and fails with the generic message when that row is not loaded |
| UnsoldKeys.UnsoldKeysPage.constructor | src/pages/UnsoldKeys.jsx:52-77 | no rows, no selection, the default pagination and filters, both dialogs closed |
| UnsoldKeys.UnsoldKeysPage.FetchParams | src/pages/UnsoldKeys.jsx:103-114 | the parameters sent are the non-empty entries of page, limit and the filters |
| UnsoldKeys.UnsoldKeysPage.SelectKey | src/pages/UnsoldKeys.jsx:172-190 | the selection becomes its toggle and stays duplicate-free; rows, paging, filters, both dialogs and both messages are kept |
| UnsoldKeys.UnsoldKeysPage.SelectAllClick | src/pages/UnsoldKeys.jsx:163-170 | the selection becomes all rows or none; rows, paging, filters, both dialogs and both messages are kept |
| UnsoldKeys.UnsoldKeysPage.HandlePageChange | src/pages/UnsoldKeys.jsx:148-153 | the pagination moves to the one-based page; rows, selection, filters, both dialogs and both messages are kept |
| UnsoldKeys.UnsoldKeysPage.HandleRowsPerPageChange | src/pages/UnsoldKeys.jsx:155-161 | the new page size on page 1; rows, selection, filters, both dialogs and both messages are kept |
| UnsoldKeys.UnsoldKeysPage.ResetFilters | src/pages/UnsoldKeys.jsx:237-249 | the default filter record and a closed filter dialog; rows, paging, selection, the delete dialog and both messages are kept |
| UnsoldKeys.UnsoldKeysPage.HandleDelete | src/pages/UnsoldKeys.jsx:192-235 | refuses an empty selection; a first selected id missing from the page fails with the generic message; on success reports the count, closes the dialog, clears the selection and refetches; every other outcome keeps the selection, the dialog and the success message; the filter dialog is never touched |
| ChangePassword.PasswordChecks | src/pages/ChangePassword.jsx:99-110 | each checklist flag holds exactly when some character is in its class; the length flag exactly when there are at least eight characters |
| ChangePassword.ValidatePassword | src/pages/ChangePassword.jsx:99-110 | a password is accepted exactly when it has eight characters or more and an upper-case letter, a lower-case letter, a digit and a special character |
| ChangePassword.TypingOneCharacter | src/pages/ChangePassword.jsx:100-106 | one more character sets only the flags of its own classes and moves the length test; no other flag changes |
| ChangePassword.ValidityPersists | src/pages/ChangePassword.jsx:99-110 | appending text to a valid password keeps it valid |
| ChangePassword.ValidityExamples | src/pages/ChangePassword.jsx:99-110 | `Passw0rd!` passes; a six-character and an upper-case-free password fail |
| ChangePassword.CheckSubmit | src/pages/ChangePassword.jsx:112-145 | a request exactly when all three fields are filled, the two new ones agree and the checklist passes; otherwise the first failing check's message, in the source's order |
| ChangePassword.SentPasswordsAreStrong | src/pages/ChangePassword.jsx:116-131 | a password that is sent passes the checklist and is at least eight long; while the confirm hint shows, submitting is refused |
| ChangePassword.Submit | src/pages/ChangePassword.jsx:112-165 | a refused submit sets only the error; a sent one clears the messages, and a successful reply empties the three fields and reports success; a failure shows the backend text or the fallback |
| ChangePassword.ResubmitAfterSuccessIsRefused | src/pages/ChangePassword.jsx:153-159 | after a success the fields are empty, so the next submit is refused with the missing-field message |
| UploadKey.ParseKeys | src/pages/UploadKey.jsx:94-103 | blank text gives no keys; the blank guard agrees with split-and-filter; no key is blank or holds a newline, comma or space |
| UploadKey.FirstSeparator | src/pages/UploadKey.jsx:101 | the first newline, comma or space, with no separator before it, or the length when there is none |
| UploadKey.DropSeparators | src/pages/UploadKey.jsx:101 | a suffix of the text that does not start with a separator, strictly shorter when the text starts with one |
| UploadKey.Split | src/pages/UploadKey.jsx:101 | `split` always yields at least one piece |
| UploadKey.DropBlank | src/pages/UploadKey.jsx:101 | the kept pieces are pieces of the input and none is blank |
| UploadKey.DropBlankAppend | src/pages/UploadKey.jsx:101 | filtering two lists joined is filtering each and joining |
| UploadKey.PiecesAreSeparatorFree | src/pages/UploadKey.jsx:101 | no piece of the split holds a newline, comma or space |
| UploadKey.BlankTextHasBlankPieces | src/pages/UploadKey.jsx:95-101 | every piece of a blank text is blank |
| UploadKey.DropBlankOfBlank | src/pages/UploadKey.jsx:101 | filtering blank pieces leaves nothing |
| UploadKey.FirstSeparatorAppend | src/pages/UploadKey.jsx:101 | the first separator of a joined text lies in the first part when it has one, else in the second |
| UploadKey.DropSeparatorsAppend | src/pages/UploadKey.jsx:101 | dropping a leading run of a joined text drops it from the first part, or from the second when the first is all separators |
| UploadKey.DropBlankSplitDropSeparators | src/pages/UploadKey.jsx:101 | a leading run of separators adds only blank pieces |
| UploadKey.ParseKeysAppend | src/pages/UploadKey.jsx:94-103 | the keys of two texts joined by a separator are the keys of the first followed by those of the second, so keys keep their order |
| UploadKey.SplitAfterSeparator | src/pages/UploadKey.jsx:101 | a separator followed by `b` splits, up to blank pieces, like `b` |
| UploadKey.SplitAt | src/pages/UploadKey.jsx:101 | the split cuts at the first separator: the first piece, then the split of what follows the run |
| UploadKey.SplitAppendNoSeparator | src/pages/UploadKey.jsx:101 | the order lemma for a first part without separators |
| UploadKey.SplitAppendCut | src/pages/UploadKey.jsx:101 | a joined text is cut where its first part is cut |
| UploadKey.SplitAppendTrailingRun | src/pages/UploadKey.jsx:101 | the order lemma when the first part ends in a run of separators |
| UploadKey.SplitAppend | src/pages/UploadKey.jsx:101 | up to blank pieces, the split of `a`, a separator and `b` is the split of `a` followed by that of `b` |
| UploadKey.ParseOneKey | src/pages/UploadKey.jsx:94-103 | a single well-formed key parses to itself |
| UploadKey.JoinThenParse | src/pages/UploadKey.jsx:345-353 | well-formed keys written one per line parse back to the same keys |
| UploadKey.ParseJoinParse | src/pages/UploadKey.jsx:345-353 | the parse of any text is a fixed point of join-then-parse, so the chips and the text area stay in sync |
| UploadKey.Splice | src/pages/UploadKey.jsx:349-351 | the array copy after `splice(index, 1)` holds exactly the other keys in order |
| UploadKey.RemovalKeepsWellFormed | src/pages/UploadKey.jsx:349-351 | deleting a key keeps the remaining keys well formed |
| UploadKey.KeysData | src/pages/UploadKey.jsx:133-136 | one `key_code` entry per key, in order |
| UploadKey.KeyCodesOfKeysData | src/pages/UploadKey.jsx:133-136 | the request carries exactly the parsed keys in order |
| UploadKey.CheckUpload | src/pages/UploadKey.jsx:111-136 | a request exactly when a plan is picked and there are keys; a missing plan is reported first, then an empty list |
| UploadKey.UploadKeyPage.constructor | src/pages/UploadKey.jsx:35-45 | nothing picked, no text, no keys, no messages |
| UploadKey.UploadKeyPage.InSync | src/pages/UploadKey.jsx:105-109 | when the chips are the parse of the text area, every chip is a well-formed key |
| UploadKey.UploadKeyPage.HandleTextChange | src/pages/UploadKey.jsx:105-109 | the text and its parsed keys are stored together |
| UploadKey.UploadKeyPage.HandlePaste | src/pages/UploadKey.jsx:84-92 | clipboard text is taken as typed; an unreadable clipboard sets the error and changes nothing else |
| UploadKey.UploadKeyPage.DeleteChip | src/pages/UploadKey.jsx:345-353 | removes exactly that key, writes the rest one per line, and keeps the chips in sync with the text |
| UploadKey.UploadKeyPage.HandleUpload | src/pages/UploadKey.jsx:111-157 | refuses with the first failing guard; on success clears text, keys, plan and provider; on failure shows the backend text or the fallback and keeps the form |
| UploadKey.UploadKeyPage.HandleClear | src/pages/UploadKey.jsx:159-164 | empties text, keys and messages and keeps the plan and provider |
| UploadKey.UploadKeyPage.HandleProviderChange | src/pages/UploadKey.jsx:172-175 | picks the provider and drops the picked plan |
| BonusList.StatusIndex | src/pages/BonusList.jsx:56 | `statusMap.indexOf`: the tab index of a known status, -1 exactly for any other |
| BonusList.ChipColor | src/pages/BonusList.jsx:292-295 | a known status gets its tab's colour; `default` exactly for an unknown status |
| BonusList.ChipColorFollowsTabs | src/pages/BonusList.jsx:292-295 | each tab's status gets that tab's colour; an unknown status, and only it, gets `default` |
| BonusList.ChosenAction | src/pages/BonusList.jsx:169-176 | approve exactly for "approve", reject exactly for "reject", nothing otherwise |
| BonusList.BonusListPage.constructor | src/pages/BonusList.jsx:40-54 | the pending tab, page 1, nothing in flight, the dialog closed |
| BonusList.BonusListPage.HandleTabChange | src/pages/BonusList.jsx:102-105 | switches tab and asks for page 1 of that tab's status; everything else, messages included, is kept |
| BonusList.BonusListPage.HandlePageChange | src/pages/BonusList.jsx:107-109 | asks for the page of the active tab's status |
| BonusList.BonusListPage.FetchAnswered | src/pages/BonusList.jsx:66-100 | a successful answer moves to the fetched page; a failure shows the backend text or "Failed to load claims" |
| BonusList.BonusListPage.OpenConfirmDialog | src/pages/BonusList.jsx:155-163 | the dialog opens on that claim, action, amount and user; everything else, messages included, is kept |
| BonusList.BonusListPage.CloseConfirmDialog | src/pages/BonusList.jsx:165-167 | the dialog closes with no claim and no action; everything else, messages included, is kept |
| BonusList.BonusListPage.BeginConfirmAction | src/pages/BonusList.jsx:111-176 | for "approve" or "reject" marks only the dialog's claim as approving or rejecting and sends that request; any other action does nothing |
| BonusList.BonusListPage.FinishConfirmAction | src/pages/BonusList.jsx:117-152 | on success reports it and refetches the current page of the active tab; on failure shows the backend text or the fallback; in every case marks the claim idle and closes the dialog |
| BonusList.ConfirmRoundTrip | src/pages/BonusList.jsx:324-343 | a confirmed approve disables its claim's buttons while in flight, re-enables them after, and leaves every other claim's buttons alone |
| CreateReferral.AvailableRoles | src/pages/CreateReferral.jsx:290-298 | an owner may invite admins and resellers, an admin resellers, anyone else nobody |
| CreateReferral.RolesFollowAccess | src/pages/CreateReferral.jsx:220-298 | the role box offers something exactly to those who may open the page, then always including the default role `reseller`, never `owner`, and never `admin` to an admin |
| CreateReferral.CanAccess | src/pages/CreateReferral.jsx:220-228 | exactly owners and admins open the page; a reseller or a signed-out visitor never does |
| CreateReferral.RoleLabel | src/pages/CreateReferral.jsx:301 | same length, first character upper-cased, the rest unchanged |
| CreateReferral.RoleLabels | src/pages/CreateReferral.jsx:301 | the two roles are shown as `Admin` and `Reseller` |
| CreateReferral.StatusChip | src/pages/CreateReferral.jsx:188-201 | "Used" exactly for a used code; "Expired" exactly for an unused code whose known expiry has passed; "Active" otherwise |
| CreateReferral.StatusChipCases | src/pages/CreateReferral.jsx:188-201 | "Used" exactly for a used code; "Expired" exactly for an unused one whose known expiry is past; an active code stays active at any earlier time |
| CreateReferral.ShareUrl | src/pages/CreateReferral.jsx:173 | the link is the origin's `/register?ref=` address followed by exactly the code |
| CreateReferral.ShareUrlRoundTrip | src/pages/CreateReferral.jsx:172-179 | the share link gives back its code, and its path opens the registration page |
| CreateReferral.CheckCreate | src/pages/CreateReferral.jsx:106-110 | a request exactly for a non-empty role, otherwise "Please select a role" |
| CreateReferral.PagerStaysInRange | src/pages/CreateReferral.jsx:443-463 | from a page in range, an enabled button asks for a page in range, and a shown pager has at least one enabled button |
| CreateReferral.ListQuery | src/pages/CreateReferral.jsx:84-85 | the list request asks for the page and a limit of 10 |
| CreateReferral.ReferralPage.constructor | src/pages/CreateReferral.jsx:46-68 | the create tab, no codes, role `reseller`, page 1 of 1, share dialog closed |
| CreateReferral.ReferralPage.FetchReferralCodes | src/pages/CreateReferral.jsx:82-104 | a successful answer takes the codes (none when missing) and the backend's paging; a failure shows the backend text or the fallback; tab, role, success message and share dialog are kept |
| CreateReferral.ReferralPage.AutoLoad | src/pages/CreateReferral.jsx:214-218 | page 1 is loaded at mount exactly for an owner, who may open the page |
| CreateReferral.ReferralPage.HandleTabChange | src/pages/CreateReferral.jsx:181-186 | switches tab and loads page 1 only for the list tab while no code is loaded; everything else is kept |
| CreateReferral.ReferralPage.CreateReferralCode | src/pages/CreateReferral.jsx:106-141 | refuses an empty role; on success reports it, resets the role to `reseller`, reloads page 1 and switches to the list tab; on failure shows the backend text or the fallback; the list and the share dialog are kept |
| CreateReferral.ReferralPage.OpenShareDialog | src/pages/CreateReferral.jsx:172-179 | opens the dialog on the code and a link that gives the code back; everything else is kept |
| CreateReferral.ReferralPage.PreviousPage | src/pages/CreateReferral.jsx:446-452 | asks for the previous page only when enabled, and then for a page in range |
| CreateReferral.ReferralPage.NextPage | src/pages/CreateReferral.jsx:456-462 | asks for the next page only when enabled, and then for a page in range |
| ProviderPlans.FormOf | src/pages/ProviderPlans.jsx:131-137 | a saved plan's row keeps its id, name, duration and amount, with a missing cost price shown as `''` |
| ProviderPlans.FormsOf | src/pages/ProviderPlans.jsx:131-137 | one row per saved plan, in order |
| ProviderPlans.WithField | src/pages/ProviderPlans.jsx:181-184 | the chosen field takes the value; every other field and the id are kept |
| ProviderPlans.WithFieldLaws | src/pages/ProviderPlans.jsx:179-189 | writing a field's own value back changes nothing, and the later of two writes to one field wins |
| ProviderPlans.Payload | src/pages/ProviderPlans.jsx:233-257 | the form's provider and plans go out as they are; `plans_to_delete` is sent exactly when editing and the list is non-empty; an edit is a PUT to that provider, a new provider a POST |
| ProviderPlans.NewProviderDeletesNothing | src/pages/ProviderPlans.jsx:238-241 | a new provider never carries `plans_to_delete` |
| ProviderPlans.CollapsedState | src/pages/ProviderPlans.jsx:101-106 | every fetched provider's id, and no other id, is present and collapsed |
| ProviderPlans.PlanEditor.constructor | src/pages/ProviderPlans.jsx:48-70 | no providers, the dialog closed, an active unnamed provider with one blank plan, nothing to delete |
| ProviderPlans.PlanEditor.FetchProviders | src/pages/ProviderPlans.jsx:78-114 | without a token reports it and sends nothing; on success takes the list with every provider collapsed; on failure shows the backend text or the fallback |
| ProviderPlans.PlanEditor.HandleToggleExpand | src/pages/ProviderPlans.jsx:116-121 | flips that provider's flag only; the lists, the dialog's form and both messages are kept |
| ProviderPlans.PlanEditor.HandleOpenDialog | src/pages/ProviderPlans.jsx:123-160 | editing copies the provider's name, status and plan rows; creating starts from an active unnamed provider with one blank plan; either way nothing is marked for deletion and the dialog opens |
| ProviderPlans.PlanEditor.HandleCloseDialog | src/pages/ProviderPlans.jsx:162-167 | closes the dialog, forgets the edited provider and clears both messages |
| ProviderPlans.PlanEditor.HandleProviderChange | src/pages/ProviderPlans.jsx:169-177 | changes that provider field only; rows, dialog, lists and both messages are kept |
| ProviderPlans.PlanEditor.HandlePlanChange | src/pages/ProviderPlans.jsx:179-189 | changes one field of one row; every other row and field, the dialog and both messages are kept |
| ProviderPlans.PlanEditor.AddNewPlan | src/pages/ProviderPlans.jsx:191-204 | appends one blank row and keeps the others, the dialog and both messages |
| ProviderPlans.PlanEditor.RemovePlan | src/pages/ProviderPlans.jsx:206-218 | removes exactly that row, keeping the order, and records its id for deletion only when it has a truthy one; with the delete button's guard the list never empties; dialog and messages are kept |
| ProviderPlans.PlanEditor.HandleSubmit | src/pages/ProviderPlans.jsx:220-275 | sends the payload; on success shows the server's message or the page's own and reloads; on failure shows the backend text or the update/create fallback |
| ProviderPlans.RemoveThenSave | src/pages/ProviderPlans.jsx:206-241 | a saved row removed while editing reaches the save request's `plans_to_delete`, and the list keeps at least one row |
| GenerateKeys.ProviderChange | src/pages/Generate.jsx:237-240 | the new provider is picked, the plan dropped, the count kept |
| GenerateKeys.SelectedPlanData | src/pages/Generate.jsx:242 | no data without a picked plan; otherwise the plan with that id among the picked provider's plans, none exactly when it is not among them |
| GenerateKeys.ProviderChangeClearsPlanData | src/pages/Generate.jsx:237-242 | after a provider change no plan is priced until one is picked again |
| GenerateKeys.CheckGenerate | src/pages/Generate.jsx:114-139 | a request exactly when a plan is picked and the count is at least 1; the missing plan is reported first; the count travels as digits |
| GenerateKeys.GenerateCountRoundTrip | src/pages/Generate.jsx:136-139 | the count's decimal text reads back as the count, and every slider position with a picked plan passes both guards |
| GenerateKeys.FailureView | src/pages/Generate.jsx:158-170 | the failure text is the backend's or the fallback, celebrated exactly when it mentions "Access denied" or "Contact Your Admin" |
| GenerateKeys.IsAccessDenied | src/pages/Generate.jsx:164 | a message is a refusal exactly when `Access denied` or `Contact Your Admin` starts at some position of it |
| GenerateKeys.IncludesAfter | src/pages/Generate.jsx:164 | a text includes any part written inside it |
| GenerateKeys.FallbackIsNotRefusal | src/pages/Generate.jsx:158-164 | the page's own fallback is not an access-denied refusal |
| GenerateKeys.NotIncludedUnlessStart | src/pages/Generate.jsx:164 | a text without the first letter of a part does not include it |
| GenerateKeys.FailureViews | src/pages/Generate.jsx:158-170 | the fallback is shown plain; a backend text naming the admin contact anywhere is celebrated |
| GenerateKeys.TelegramUrl | src/pages/Generate.jsx:225-229 | the Telegram link starts with the share address and the encoded heading `Generated Keys:` and a line break |
| GenerateKeys.CopyText | src/pages/Generate.jsx:176-177 | the copied text, pasted into the upload page, parses back to the same key codes in order, when each code is a single token |
| GenerateKeys.TelegramText | src/pages/Generate.jsx:225-226 | for codes without `%`, the `%0A`-joined Telegram text decodes to the codes one per line |
| GenerateKeys.DecodePlainFront | src/pages/Generate.jsx:226 | decoding leaves a `%`-free front unchanged |
| GenerateKeys.TelegramTextDecodes | src/pages/Generate.jsx:226 | codes joined by `%0A` decode to the same codes joined by line breaks |
| GenerateKeys.TelegramMatchesCopy | src/pages/Generate.jsx:225-229 | once decoded, the Telegram text is the copy text |
| GenerateKeys.HandleGenerate | src/pages/Generate.jsx:114-173 | a guard failure shows its message and sends nothing; otherwise the request is sent and both messages are cleared; on success the dialog opens with the returned keys (none when missing) and message; an unsuccessful answer changes nothing else; on failure the error view replaces the message and the keys and the dialog are kept |
| MyBonus.Available | src/pages/MyBonus.jsx:162 | the available bonus reads as 0 without a record, without the field or with an empty text, and as the parsed text otherwise |
| MyBonus.CheckClaim | src/pages/MyBonus.jsx:156-166 | an empty, non-numeric or non-positive amount is refused as invalid; a request, carrying the amount as typed, goes out exactly when the amount is a positive number not above a numeric available bonus |
| MyBonus.ClaimWithinBonus | src/pages/MyBonus.jsx:156-166 | an accepted claim is positive, within the available bonus, and impossible without bonus information |
| MyBonus.ClaimDisabled | src/pages/MyBonus.jsx:269 | disabled without bonus information, and whenever it is disabled every amount would be refused |
| MyBonus.EnabledButRefused | src/pages/MyBonus.jsx:162-269 | a record without the field, or with an empty text, leaves the button enabled, yet every claim is refused |
| MyBonus.StatusColor | src/pages/MyBonus.jsx:199-206 | each of the three known statuses, and only it, gets its own chip colour |
| MyBonus.MyBonusPage.constructor | src/pages/MyBonus.jsx:47-61 | no bonus information, no messages, dialog closed, empty amount, no user expanded |
| MyBonus.MyBonusPage.FetchBonusInfo | src/pages/MyBonus.jsx:76-92 | a successful answer replaces the bonus information, an unsuccessful one changes nothing, a failure shows the backend's text or the fallback; nothing else changes |
| MyBonus.MyBonusPage.HandleClaimBonus | src/pages/MyBonus.jsx:156-190 | a refused amount shows its reason and sends nothing; an accepted one is sent; only a successful answer closes the dialog, clears the amount and asks for a reload; an unsuccessful answer changes nothing; a failure shows the backend text or the fallback and keeps the dialog and amount |
| MyBonus.MyBonusPage.ToggleUserExpansion | src/pages/MyBonus.jsx:192-197 | flips the clicked user's expand flag and no other |
| UsersPage.PageCount | src/pages/Users.jsx:170 | the page count holds every row, with no page left empty |
| UsersPage.PageCountIsLeast | src/pages/Users.jsx:170 | no smaller number of pages holds every row |
| UsersPage.PreviousDisabled | src/pages/Users.jsx:164 | Previous is enabled only when a page 1 or later lies before the current one |
| UsersPage.NextDisabled | src/pages/Users.jsx:173 | Next is enabled only while rows remain after the current page; from a page in range it is disabled exactly on a page that reaches the last row |
| UsersPage.Previous | src/pages/Users.jsx:164-165 | Previous steps one page down, except on page 1 or below, where it is disabled |
| UsersPage.Next | src/pages/Users.jsx:173-174 | Next steps one page up, except on the last page or beyond, where it is disabled |
| UsersPage.ButtonsKeepPageInRange | src/pages/Users.jsx:162-176 | from a page in range the buttons keep the page between 1 and the page count, and undo each other |
| UsersPage.EmptyListDisablesBoth | src/pages/Users.jsx:162-176 | with no rows there are no pages and both buttons are disabled on page 1 |
| UsersPage.ListQuery | src/pages/Users.jsx:65 | the request asks for the current page and the limit, as decimal text |
| UsersPage.ProfilePath | src/pages/Users.jsx:82 | the profile link lies under `/user-profile/` |
| UsersPage.ProfileLinkOpensProfile | src/pages/Users.jsx:82 | the profile link opens the profile page of the same user id |
| RegisterFlow.FormUser | src/components/auth/Register.jsx:85 | the record the form builds carries neither an id nor a role |
| RegisterFlow.CompleteRegistrationAsWritten | src/components/auth/Register.jsx:78-86 | as written, both the session and the stored user end up as the form's name-and-email record, replacing the server's |
| RegisterFlow.RegisteredSessionLosesRole | src/components/auth/Register.jsx:85 | as written, an admin that registers is offered only Change Password and is refused the referral page |
| RegisterFlow.CompleteRegistration | src/components/auth/Register.jsx:78-86 | corrected: the session and the stored user are the server's record, as after a login |
| RegisterFlow.RegisteredSessionKeepsRole | src/components/auth/Login.jsx:78 | corrected: the session keeps the server's record and role, and a reload restores it |
| RegisterFlow.InitialReferralCodeAsWritten | src/components/auth/Register.jsx:32 | as written, the referral field always starts empty |
| RegisterFlow.ShareLinkCodeIsDropped | src/components/auth/Register.jsx:32 | as written, a share link's non-empty code never reaches the form |
| RegisterFlow.InitialReferralCode | src/pages/CreateReferral.jsx:173 | corrected: the field starts with the `ref` code of a share link and empty otherwise |
| RegisterFlow.ShareLinkPrefillsCode | src/pages/CreateReferral.jsx:173 | corrected: opened through a share link, the form starts with that link's code |
| Util.ErrorText | src/pages/Key.jsx:108 | the message shown is the backend's text or the page's fallback, never anything else, the backend's whenever it is present and non-empty; with a non-empty fallback the message is never empty |
| Util.Lookup | src/pages/Key.jsx:89-95 | no value exactly when no entry has the name; a value found comes from an entry with that name |
| Util.LookupAppend | src/pages/Key.jsx:89-95 | in joined entry lists, the earlier list's entry wins |
| Util.LookupIfNotEmpty | src/pages/Key.jsx:93 | the optional entry answers only for its own name and only when non-empty |
| Util.DecimalString | src/pages/Generate.jsx:138 | the decimal text is non-empty, all digits, with no leading zero |
| Util.DecimalStringRoundTrip | src/pages/Generate.jsx:138 | the decimal text reads back as the number |
| Util.DecimalStringInjective | src/pages/Generate.jsx:138 | distinct numbers have distinct decimal texts |

## Left out

- Network I/O is not modelled. This covers every axios and fetch call, the loading flags, and the fetch code of the login, reset-key, user-profile and dashboard screens, whose remaining logic is rendering. Each backend answer is an input value instead.
- The missing-token early returns in the keys, transactions and unsold-keys fetches are not modelled; they only skip the request.
- Rendering is not modelled: React, MUI styling, framer-motion animation, lazy loading, `ErrorBoundary`, the `Layout` drawer widths, the themes and the build configuration.
- The PWA install flow (`InstallPWA.jsx`) is not modelled; it rests on browser install events, user-agent tests and timers.
- Dates are not modelled. `handleDateRangeChange` of the keys page and every `toLocaleDateString` depend on the clock and the time zone. The referral status compares `now` and `expires_at` as abstract integers.
- Floating-point formatting (`toFixed`, `Intl.NumberFormat`) and the cost total of the generate page are display only. Amounts are reals, and a number as parsed from text is an input to the model.
- MyBonus.CheckClaim: `isNaN(claimAmount)` (which uses `Number`) and `parseFloat` are taken to agree. This holds for what a `type="number"` input can hold, but not for arbitrary text such as `"1abc"`.
- Browser APIs are not modelled: the clipboard (its text is an input), `navigator.share`, `window.open` and `speechSynthesis`. The Telegram link is modelled as text.
- Timers are not modelled. `simulatedLogin` is the state once its delay has passed. The providers page closes its dialog 1.5 seconds after a successful save; `HandleSubmit` is the state before that timer fires, and the close is a later `HandleCloseDialog` call.
- Async ordering is not modelled. Stale closures, such as `handleSearch` fetching before `setPage(1)` takes effect, and overlapping requests are outside the model.
- `JSON.parse` of corrupted storage is not modelled; the stored user record is held as itself.
- URL encoding is modelled only for `%0A`, the one escape the Telegram key text uses; other characters are left as they are.
- Route matching folds case for ASCII letters only. Non-ASCII case folding and percent-decoding of paths are not modelled.
- Strings are sequences of code points, so lengths are not UTF-16 lengths.
- The unsold-keys search and filter field setters (`handleSearchChange`, `handleFilterChange`) are plain assignments of one field and have no model of their own.
- `getStatusColor` and `getStatusIcon` of the providers page are presentation-only maps and are not modelled.
- The generate page's summary, cost and voice announcement are not modelled.
- `totalItems` and other counts returned by the backend are stored as given and are not modelled.

## Findings

| source | as written | input that shows it | evidently intended | confidence | as-written member | corrected member |
|---|---|---|---|---|---|---|
| src/components/auth/Register.jsx:85 | after sign-up the session is set from `{ name, email }`, which overwrites the server's user record in memory and in storage | a sign-up whose server record has role `admin` | the session holds the server's record, role included, as `login(data.user, data.token)` does in Login.jsx | medium, not executed | RegisterFlow.RegisteredSessionLosesRole | RegisterFlow.RegisteredSessionKeepsRole |
| src/components/auth/Register.jsx:32 | the referral field always starts empty; the `ref` parameter of the address is never read | the share link `<origin>/register?ref=ABC` built by CreateReferral.jsx:173 | the form starts with the code `ABC` from the link | medium, not executed | RegisterFlow.ShareLinkCodeIsDropped | RegisterFlow.ShareLinkPrefillsCode |
