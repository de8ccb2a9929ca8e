# BanglaPay front end: a verified model of its client logic

BanglaPay is a mobile-wallet web front end written in React. Users, agents and
administrators sign in to it. All money movement and authorisation happen in a
backend that is not part of this model. What the front end decides for itself
is modelled here:

- **The session store**:
  - the signed-in user and the token;
  - the two reducers that write them in place, `setCredentials` and `logout`;
  - the copy of the token kept in `localStorage` under `"token"`.
- **The route table**: a total function from the session and the path to "render this page" or "redirect there".
- **The "who am I" effect**: it refreshes the session from the backend's reply, or clears it.
- **The three dashboards**:
  - the admin's account, transaction and wallet filters;
  - the fixed 10-row pagination;
  - the volume-by-type `reduce` and the seven-day series loop;
  - the agent's sent/received split;
  - the headline counts;
  - the dialog state machines that validate an amount, stage a confirmation and issue at most one request.
- **The FAQ page**: its search, the grouping `reduce` and the accordion.
- **The profile page**: the form edits, the save flow and the change-password validator.
- **The onboarding tour**: the `run` flag and the `"tour-completed"` storage key.
- **The API base query**: the base-URL fallback and the token-injection rule.

Each core source file becomes one module:

| module | source | form |
|---|---|---|
| `AuthSlice` | `authSlice.ts` | `AuthStore` class over a `LocalStorage` object |
| `App` | `App.tsx` | route table as functions; revalidation as a module-level method that updates an `AuthStore` |
| `Api` | `api.ts` | `prepareHeaders` mutates a `Headers` object |
| `Tour` | `TourProvider.tsx` | `TourProvider` class |
| `UserDashboard` | `UserDashboard.tsx` | dialog state as `UserActions` class fields |
| `AgentDashboard` | `AgentDashboard.tsx` | dialog state as `AgentActions` class fields |
| `AdminDashboard` | `AdminDashboard.tsx` | dialog state as `AdminActions` class fields |
| `Faq` | `FAQ.tsx` | pure filter; grouping `reduce` as a loop; accordion state as `FaqPage` |
| `Profile` | `Profile.tsx` | `ProfilePage` class |

Shared modules:

- **`Dashboard`**: the transaction record and the two chart aggregates that the agent and admin pages both compute with identical code. Both aggregates are loops, as in the source.
- **`Pagination`**: the page slice that every table uses.
- **`Effects`**: the requests, toasts and refetches. A handler records them in an event log instead of performing them. A request's reply is an input.
- **`Common`**: JavaScript strings and numbers as the pages use them:
  - ASCII `toLowerCase` and `includes`;
  - whole-number `toString`;
  - a `parseFloat` reader that yields a whole number or NaN.
- **`Collections`**: order-preserving filtering and grouping, with their lemmas.
- **`Storage`**: `localStorage` as a class holding a mutable map.

Some of the code differs from its own description. The model follows the code:

- **A stored token without a user.** A user is only ever held together with a token. The converse fails at start-up, when a stored token is loaded with no user (`AuthSlice.StoredTokenWithoutUser`).
- **NaN passes the amount guard.** `!amount || parseFloat(amount) <= 0` lets an unparsable entry through, because `NaN <= 0` is false (`Effects.UnparsableAmountPasses`). The staged amount is then NaN. The amount inputs are `type="number"`, so a browser normally hands over `""` for such text; the model does not assume that.
- **The phone check runs at confirm time.** A send with an empty phone reaches the confirmation, and only confirming it is refused.
- **An unknown admin action still refetches.** An action other than the four issues no request, yet both account lists are refetched.
- **Page numbers are not reset.** The dashboards never reset the page number when a filter changes. A page past the end then shows nothing (`Pagination.PagePastEndIsEmpty`).
- **A stale "who am I" reply is installed.** The effect dispatches `setCredentials` with whatever reply the query holds. It does not check that the reply belongs to the current token, or that the token was not cleared meanwhile. A reply from an earlier session that settles after another sign-in replaces the new user under the new token (`App.StaleReplyReplacesUser`).
- **No 401 handling.** The base query has no handler for a 401 reply, so an expired token does not clear the session. Only the "who am I" effect logs out, when its query fails (`App.Revalidate`).
- **The FAQ open position is not reset.** The open card is kept by position when the search changes, so it can point at a different question (`Faq.FaqPage.Search`).

## Model

| member | source | states |
|---|---|---|
| AuthSlice.RoleName | src/App.tsx:52-57 | A role's name, the first segment of its dashboard path, is "user", "agent" or "admin". |
| AuthSlice.RoleNameInjective | src/App.tsx:52-57 | Two roles share a name only when they are the same role, so `/${user.role}` identifies the role. |
| AuthSlice.InitialToken | src/redux/slices/authSlice.ts:9-12 | The initial token is the stored "token" value exactly when one is stored and it is non-empty, and null otherwise. |
| AuthSlice.AuthStore.constructor | src/redux/slices/authSlice.ts:9-12 | The initial state has no user and the stored token; the session invariant holds. |
| AuthSlice.AuthStore.SetCredentials | src/redux/slices/authSlice.ts:18-29 | The user and token become exactly the payload's. Storage changes only at "token", which now holds the token. The invariant is kept. |
| AuthSlice.AuthStore.Logout | src/redux/slices/authSlice.ts:30-35 | No user, no token, the "token" key removed, and every other key unchanged. |
| AuthSlice.AuthStore.Dispatch | src/redux/slices/authSlice.ts:14-37 | Either reducer, as dispatched, has its own effect and keeps the invariant. |
| AuthSlice.AuthStore.Replay | src/redux/slices/authSlice.ts:9-37 | Over any sequence of dispatches, a user is held only with the stored token, and no storage key other than "token" changes. |
| AuthSlice.AuthStore.LogoutTwice | src/redux/slices/authSlice.ts:30-35 | Logging out twice leaves the same state and storage as logging out once. |
| Storage.LocalStorage.GetItem | src/redux/slices/authSlice.ts:11 | `getItem(key)` holds the stored value exactly when the key is present, and null otherwise. |
| Storage.LocalStorage.SetItem | src/redux/slices/authSlice.ts:26 | `setItem(key, value)` replaces that one entry, and every other key stays as it was. |
| Storage.LocalStorage.RemoveItem | src/redux/slices/authSlice.ts:33 | `removeItem(key)` deletes that one key, and every other key stays as it was. |
| AuthSlice.StoredTokenWithoutUser | src/redux/slices/authSlice.ts:9-12 | A stored token loads with no user, so "token implies user" does not hold. |
| App.DashboardOf | src/App.tsx:62-91 | Each role has one of the three dashboards. |
| App.Route | src/App.tsx:42-93 | The route table has no contract of its own. Its properties are stated by `App.PublicPagesRender`, `App.AuthFormsRedirectSignedIn`, `App.DashboardIffRole`, `App.DashboardNeedsRole`, `App.UnlistedGoesHome` and `App.RedirectsSettle`. |
| App.PublicPagesRender | src/App.tsx:43-47 | `/`, `/about`, `/features`, `/contact` and `/faq` render their page whoever is signed in. |
| App.AuthFormsRedirectSignedIn | src/App.tsx:50-59 | `/login` and `/register` render the form with no user, and redirect a signed-in user to `/<role>`. |
| App.DashboardIffRole | src/App.tsx:62-91 | Anywhere under `/<role>`, the dashboard renders if and only if the user has that role. Anyone else, including a user with another role, goes to `/login`. |
| App.UnlistedGoesHome | src/App.tsx:93 | A path redirects to `/` exactly when the table does not list it. |
| App.DashboardNeedsRole | src/App.tsx:62-91 | A rendered dashboard is always the signed-in user's own. |
| App.RedirectsSettle | src/App.tsx:42-93 | Every redirect's target renders, or redirects once more to a page that renders. |
| App.Revalidate | src/App.tsx:24-33 | With no token the query is skipped and nothing changes; nor does anything change before a reply or an error arrives. A reply sets that user under the current token, as `setCredentials` does. An error with no reply logs out. The session invariant is kept. |
| App.StaleReplyReplacesUser | src/App.tsx:24-33 | A reply for an earlier session that settles after another user signed in installs the earlier user under the current token, so the current user is lost. |
| Api.BaseUrl | src/services/api.ts:7 | The configured URL when it is present and non-empty, and "http://localhost:5000/api/v1" otherwise. |
| Api.PrepareHeaders | src/services/api.ts:8-14 | A non-empty token sets `authorization` to the token verbatim. No token, or an empty one, leaves the headers as they were. The same object is returned. |
| Api.PrepareHeadersTouchesOnlyAuthorization | src/services/api.ts:10-13 | No header other than `authorization` is added, removed or changed. A newly added `authorization` holds the token. |
| Api.Headers.Set | src/services/api.ts:11 | `headers.set(name, value)` replaces that one entry, and every other header stays as it was. |
| Api.TagTypes | src/services/api.ts:16 | The cache tags are exactly "User", "Agent", "Transaction" and "Wallet", in that order. |
| Tour.TourProvider.constructor | src/components/layout/TourProvider.tsx:39 | The tour starts not running. |
| Tour.TourProvider.StartTour | src/components/layout/TourProvider.tsx:41 | `run` becomes true and storage is not touched. |
| Tour.TourProvider.ResetTour | src/components/layout/TourProvider.tsx:42-45 | "tour-completed" is removed, so the tour is pending again, and `run` becomes true. |
| Tour.TourProvider.JoyrideCallback | src/components/layout/TourProvider.tsx:47-53 | On FINISHED or SKIPPED, `run` becomes false and "tour-completed" is set to "true". Any other status changes neither `run` nor storage. |
| Tour.UseTour | src/components/layout/TourProvider.tsx:76-82 | With a provider it returns the provider. Outside one it throws "useTour must be used within a TourProvider". |
| Effects.ErrorText | src/pages/DashboardPages/UserDashboard.tsx:157-158 | The error toast is the server's message when it is non-empty, and the page's fallback otherwise. |
| Effects.Attempt | src/pages/DashboardPages/UserDashboard.tsx:143-158 | Awaiting one request issues exactly that request. A success is followed by the success toast, a failure by the error text. |
| Effects.AcceptedAmount | src/pages/DashboardPages/UserDashboard.tsx:122-125 | An amount that passes the guard is non-empty and parses to a positive number or NaN. |
| Effects.CheckAmount | src/pages/DashboardPages/UserDashboard.tsx:121-128 | An amount that is staged is positive or NaN. |
| Effects.CheckAmountIsGuard | src/pages/DashboardPages/UserDashboard.tsx:122-128 | The handlers reject exactly what `!amount \|\| parseFloat(amount) <= 0` rejects, and stage `parseFloat(amount)` otherwise. |
| Effects.UnparsableAmountPasses | src/pages/DashboardPages/UserDashboard.tsx:122 | An entry with no digits parses to NaN and passes the guard. |
| Common.ParsedNumberHasDigit | src/pages/DashboardPages/AdminDashboard.tsx:179-182 | Only text holding a digit parses to a number; anything else is NaN. |
| Common.ParseAmount | src/pages/DashboardPages/UserDashboard.tsx:122-128 | `parseFloat` on whole numbers. Its properties are stated by `Common.ParsedNumberHasDigit`, `Common.ParseRendersBack` and `Effects.UnparsableAmountPasses`. It skips ECMAScript white space and line terminators, reads an optional sign and leading digits, and gives NaN when there is no digit. It is also used at AdminDashboard.tsx:180-182 and AgentDashboard.tsx:255-261. |
| Common.Lower | src/pages/DashboardPages/AdminDashboard.tsx:154 | `toLowerCase` keeps the length and leaves no upper-case letter. |
| Common.Includes | src/pages/DashboardPages/AdminDashboard.tsx:154-155 | `includes` holds exactly when the text occurs at some position; this is stated by `Common.IncludesIffOccursAt`. |
| Common.IncludesIffOccursAt | src/pages/DashboardPages/AdminDashboard.tsx:154-155 | `s.includes(sub)` if and only if `sub` occurs in `s` at some index from 0 to \|s\| - \|sub\|. |
| Common.ParseRendersBack | src/pages/DashboardPages/AdminDashboard.tsx:179-182 | A whole number written out in decimal parses back to itself. |
| UserDashboard.ActionName | src/pages/DashboardPages/UserDashboard.tsx:115 | The staged action is "send", "add" or "withdraw". |
| UserDashboard.ConfirmIssuesMatchingMutation | src/pages/DashboardPages/UserDashboard.tsx:138-156 | A confirmation issues at most one request. "send" issues nothing if and only if the phone is empty, and otherwise sendMoney(phone, amount). "add" and "withdraw" issue their request with the staged amount. Any other action records nothing. |
| UserDashboard.ConfirmEvents | src/pages/DashboardPages/UserDashboard.tsx:136-162 | What confirming records. Its properties are stated by `UserDashboard.ConfirmIssuesMatchingMutation` and `UserDashboard.ConfirmFailureMessage`. |
| UserDashboard.ConfirmFailureMessage | src/pages/DashboardPages/UserDashboard.tsx:157-158 | A failed request ends with the server's message, or "Something went wrong". |
| UserDashboard.UserActions.constructor | src/pages/DashboardPages/UserDashboard.tsx:78-92 | The dialog state starts empty and closed. |
| UserDashboard.UserActions.CheckTour | src/pages/DashboardPages/UserDashboard.tsx:97-102 | The tour prompt is shown when "tour-completed" is absent or empty, and the dialog state is untouched. |
| UserDashboard.UserActions.StartGuidedTour | src/pages/DashboardPages/UserDashboard.tsx:110-113 | The tour runs and the prompt hides. |
| UserDashboard.UserActions.ActionClick | src/pages/DashboardPages/UserDashboard.tsx:115-119 | The action becomes `t`, and the amount and phone are cleared. |
| UserDashboard.UserActions.EnterAmount | src/pages/DashboardPages/UserDashboard.tsx:465 | The amount field holds what was typed. |
| UserDashboard.UserActions.EnterRecipientPhone | src/pages/DashboardPages/UserDashboard.tsx:451 | The phone field holds what was typed. |
| UserDashboard.UserActions.ActionSubmit | src/pages/DashboardPages/UserDashboard.tsx:121-134 | A rejected amount adds only the "Please enter a valid amount" toast, and the dialog state is unchanged. Otherwise it stages {parsed amount, phone, action or ""}, opens the confirmation and clears the action. |
| UserDashboard.UserActions.ConfirmAction | src/pages/DashboardPages/UserDashboard.tsx:136-162 | Records exactly the confirmation's events, and the confirmation is closed in every outcome, including the early return. |
| UserDashboard.RejectedAmountReachesNoConfirmation | src/pages/DashboardPages/UserDashboard.tsx:121-125 | Submitting an empty or non-positive amount never opens a confirmation. |
| UserDashboard.Recent | src/pages/DashboardPages/UserDashboard.tsx:316 | The recent list is the first min(5, n) transactions, in order. |
| UserDashboard.SignsOfKnownTypes | src/pages/DashboardPages/UserDashboard.tsx:330-339 | "-" appears exactly when the type contains "send" or "withdraw". So send, send-money and withdraw show "-", and add shows "+". |
| UserDashboard.SignFor | src/pages/DashboardPages/UserDashboard.tsx:337-339 | The sign shown before an amount. Its property is stated by `UserDashboard.SignsOfKnownTypes`. |
| Dashboard.VolumeByType | src/pages/DashboardPages/AgentDashboard.tsx:173-180 | The keys are the types in first-seen order. Each type maps to the sum of that type's amounts and no other key is present. The admin page's copy is at AdminDashboard.tsx:322-329. |
| Dashboard.VolumeAddsUp | src/pages/DashboardPages/AgentDashboard.tsx:173-187 | The per-type volumes add up to the total of all amounts. |
| Dashboard.LastSevenDays | src/pages/DashboardPages/AgentDashboard.tsx:196-204 | Seven consecutive days, oldest first, ending today. |
| Dashboard.LastSevenDaysDistinct | src/pages/DashboardPages/AgentDashboard.tsx:196-204 | The seven days are distinct. |
| Dashboard.SeedDays | src/pages/DashboardPages/AgentDashboard.tsx:196-204 | The `for (i = 6; i >= 0; i--)` loop lists the seven days with a zero count and volume for each. The admin page's copy is at AdminDashboard.tsx:343-350. |
| Dashboard.CountDays | src/pages/DashboardPages/AgentDashboard.tsx:206-213 | Each bucket ends up with the count and the amount total of the transactions dated on its day. No bucket is created or lost. |
| Dashboard.TransactionsOverTime | src/pages/DashboardPages/AgentDashboard.tsx:190-220 | Exactly seven points for the days ending today, each with that day's count and volume. |
| Dashboard.SeriesCountsAtMostTransactions | src/pages/DashboardPages/AgentDashboard.tsx:206-219 | Out-of-window transactions are ignored, so the counts total at most the list's length. |
| Dashboard.IdleDayIsZero | src/pages/DashboardPages/AgentDashboard.tsx:202-218 | A day with no transaction shows count 0 and volume 0. |
| Pagination.TotalPages | src/pages/DashboardPages/AgentDashboard.tsx:169 | `ceil(n / 10)`: the fewest pages that hold n rows, and 0 exactly for no rows. |
| Pagination.PageIsWindow | src/pages/DashboardPages/AgentDashboard.tsx:163-168 | Page p is the rows from (p-1)*10 to p*10, each clipped to the list. |
| Pagination.PagePastEndIsEmpty | src/pages/DashboardPages/AgentDashboard.tsx:163-169 | A page beyond the last is empty. |
| Pagination.ShowingRangeMatchesPage | src/pages/DashboardPages/AgentDashboard.tsx:609-614 | On an existing page, "Showing (p-1)*10+1 to min(p*10, n)" describes exactly its rows. |
| Pagination.PagesUpToIsPrefix | src/pages/DashboardPages/AdminDashboard.tsx:222-228 | Pages 1 to k together are the first min(10k, n) rows. |
| Pagination.PagesCoverList | src/pages/DashboardPages/AdminDashboard.tsx:222-228 | Pages 1 to totalPages, in order, are exactly the filtered list. |
| Pagination.LastPageSize | src/pages/DashboardPages/AdminDashboard.tsx:1082-1093 | The last page holds n mod 10 rows, or 10 when that is 0. |
| Pagination.TwentyFiveRows | src/pages/DashboardPages/AdminDashboard.tsx:1307-1317 | 25 rows make 3 pages, and the third shows rows 21 to 25. |
| AgentDashboard.FilteredTransactionsSpec | src/pages/DashboardPages/AgentDashboard.tsx:147-160 | An order-preserving subsequence. A transaction is kept if and only if the lower-cased type contains the lower-cased term, or either party's phone contains the term, and the type filter matches. |
| AgentDashboard.FilteredTransactions | src/pages/DashboardPages/AgentDashboard.tsx:147-160 | The agent's transaction filter. Its properties are stated by `AgentDashboard.FilteredTransactionsSpec` and `AgentDashboard.NoFilterKeepsAll`. |
| AgentDashboard.NoFilterKeepsAll | src/pages/DashboardPages/AgentDashboard.tsx:147-160 | An empty search with "all" types keeps every transaction. |
| AgentDashboard.DistributionBounded | src/pages/DashboardPages/AgentDashboard.tsx:223-235 | The Sent and Received buckets are disjoint, so together they count at most the list. |
| AgentDashboard.SentCount | src/pages/DashboardPages/AgentDashboard.tsx:223-226 | The Sent bar's count. Its properties are stated by `AgentDashboard.DistributionBounded`, `AgentDashboard.CashOutAndCommissionUncounted` and `AgentDashboard.UncountedLeavesBars`. |
| AgentDashboard.ReceivedCount | src/pages/DashboardPages/AgentDashboard.tsx:227-230 | The Received bar's count, with the same lemmas as `AgentDashboard.SentCount`. |
| AgentDashboard.CashOutAndCommissionUncounted | src/pages/DashboardPages/AgentDashboard.tsx:223-230 | "cash-out" and "commission-earned" are in neither bucket. |
| AgentDashboard.UncountedLeavesBars | src/pages/DashboardPages/AgentDashboard.tsx:223-230 | Adding a transaction of neither kind changes neither bar. |
| AgentDashboard.ActionName | src/pages/DashboardPages/AgentDashboard.tsx:246-248 | The staged action is "send", "add", "withdraw" or "cash-out". |
| AgentDashboard.ConfirmIssuesMatchingMutation | src/pages/DashboardPages/AgentDashboard.tsx:271-297 | At most one request per confirmation:<br>- "send" issues nothing if and only if the phone is empty, and otherwise cashIn(phone, amount);<br>- "cash-out" always issues cashOut(phone, amount), with no phone check;<br>- "add" and "withdraw" issue their wallet request;<br>- anything else records nothing. |
| AgentDashboard.ConfirmEvents | src/pages/DashboardPages/AgentDashboard.tsx:269-303 | What confirming records. Its properties are stated by `AgentDashboard.ConfirmIssuesMatchingMutation` and `AgentDashboard.ConfirmFailureMessage`. |
| AgentDashboard.ConfirmFailureMessage | src/pages/DashboardPages/AgentDashboard.tsx:298-299 | A failed request ends with the server's message, or "Transaction failed". |
| AgentDashboard.AgentActions.constructor | src/pages/DashboardPages/AgentDashboard.tsx:129-138 | The dialog state starts empty and closed. |
| AgentDashboard.AgentActions.ActionClick | src/pages/DashboardPages/AgentDashboard.tsx:246-252 | The action becomes `t`, and the amount and phone are cleared. |
| AgentDashboard.AgentActions.EnterAmount | src/pages/DashboardPages/AgentDashboard.tsx:869 | The amount field holds what was typed. |
| AgentDashboard.AgentActions.EnterRecipientPhone | src/pages/DashboardPages/AgentDashboard.tsx:857 | The phone field holds what was typed. |
| AgentDashboard.AgentActions.ActionClose | src/pages/DashboardPages/AgentDashboard.tsx:313-315 | The action dialog closes. |
| AgentDashboard.AgentActions.ConfirmationClose | src/pages/DashboardPages/AgentDashboard.tsx:309-311 | The confirmation closes without issuing anything. |
| AgentDashboard.AgentActions.ActionSubmit | src/pages/DashboardPages/AgentDashboard.tsx:254-267 | A rejected amount changes no dialog state and only adds the error toast. Otherwise it stages {parsed amount, phone, action}, opens the confirmation and clears the action. |
| AgentDashboard.AgentActions.ConfirmAction | src/pages/DashboardPages/AgentDashboard.tsx:269-303 | Records exactly the confirmation's events; the confirmation closes on success, on failure and on the early return. |
| AdminDashboard.AmountFilterIsRange | src/pages/DashboardPages/AdminDashboard.tsx:172-192 | The balance cascade is the inclusive range check. Each end applies only when its field holds a number, so an empty or unparsable bound imposes nothing. A missing balance counts as 0. |
| AdminDashboard.CascadeIsRange | src/pages/DashboardPages/AdminDashboard.tsx:183-192 | For any bounds, the four-case NaN test equals the inclusive range check in which a NaN or infinite end imposes no limit. |
| AdminDashboard.EmptyBoundsKeepAll | src/pages/DashboardPages/AdminDashboard.tsx:179-192 | Empty bounds let every balance through. |
| AdminDashboard.FilteredUsersSpec | src/pages/DashboardPages/AdminDashboard.tsx:151-196 | An order-preserving subsequence. An account is kept if and only if all of these hold:<br>- the lower-cased name contains the lower-cased term, or the phone contains the term;<br>- the role filter is "all" or matches;<br>- "active" means unblocked, "blocked" means blocked, and anything else allows both;<br>- the balance is within the limits. |
| AdminDashboard.FilteredUsers | src/pages/DashboardPages/AdminDashboard.tsx:151-196 | The account filter. Its properties are stated by `AdminDashboard.FilteredUsersSpec`, `AdminDashboard.DefaultFiltersKeepAll` and `AdminDashboard.ActiveFilterMatchesCount`. |
| AdminDashboard.DefaultFiltersKeepAll | src/pages/DashboardPages/AdminDashboard.tsx:121-131 | With the controls as the page starts, every account is listed. |
| AdminDashboard.ActiveAndBlockedSplit | src/pages/DashboardPages/AdminDashboard.tsx:306-319 | Active and blocked accounts together are all accounts. |
| AdminDashboard.ActiveCount | src/pages/DashboardPages/AdminDashboard.tsx:306-308 | The active headline count. Its properties are stated by `AdminDashboard.ActiveAndBlockedSplit` and `AdminDashboard.ActiveFilterMatchesCount`. |
| AdminDashboard.TotalVolume | src/pages/DashboardPages/AdminDashboard.tsx:291-294 | The sum of all amounts. `AdminDashboard.ChartVolumeIsTotal` relates it to the volume chart. |
| AdminDashboard.ActiveFilterMatchesCount | src/pages/DashboardPages/AdminDashboard.tsx:306-308 | Filtering on "active" alone lists exactly the accounts the active count counts. |
| AdminDashboard.DaysFor | src/pages/DashboardPages/AdminDashboard.tsx:202-209 | "1", "30" and "90" give 1, 30 and 90 days; anything else gives 7. |
| AdminDashboard.LongerRangeShowsMore | src/pages/DashboardPages/AdminDashboard.tsx:198-217 | A longer range keeps every transaction that a shorter one keeps. |
| AdminDashboard.ChartTransactions | src/pages/DashboardPages/AdminDashboard.tsx:198-217 | The charts' transactions. Their properties are stated by `AdminDashboard.ChartTransactionsSpec` and the lemmas after it. |
| AdminDashboard.ChartTransactionsSpec | src/pages/DashboardPages/AdminDashboard.tsx:198-217 | An order-preserving subsequence of all transactions. A transaction is kept if and only if it was created at or after `now - days * 86400` and the type filter is "all" or equals its type. |
| AdminDashboard.ChartsShowAllInRange | src/pages/DashboardPages/AdminDashboard.tsx:198-217 | With type "all" and every transaction inside the range, the charts show all transactions. |
| AdminDashboard.ChartVolumeIsTotal | src/pages/DashboardPages/AdminDashboard.tsx:291-329 | In that case the volume-by-type chart adds up to the headline total volume. |
| AdminDashboard.TableRefinesCharts | src/pages/DashboardPages/AdminDashboard.tsx:1028-1079 | The table's rows are the charts' transactions that also match the table search, in the same order. |
| AdminDashboard.TableTransactions | src/pages/DashboardPages/AdminDashboard.tsx:1028-1079 | The table's rows. Their properties are stated by `AdminDashboard.TableRefinesCharts`, `AdminDashboard.EmptySearchShowsChartRows` and `AdminDashboard.AmountSearchFinds`. |
| AdminDashboard.EmptySearchShowsChartRows | src/pages/DashboardPages/AdminDashboard.tsx:1028-1079 | An empty table search shows exactly the charts' transactions. |
| AdminDashboard.AmountSearchFinds | src/pages/DashboardPages/AdminDashboard.tsx:1071-1073 | Searching for an amount's digits finds that transaction, when it is in range and of the chosen type. |
| AdminDashboard.FilteredWalletsSpec | src/pages/DashboardPages/AdminDashboard.tsx:1292-1304 | A wallet with no owner makes the filter throw a TypeError; otherwise the result is an order-preserving subsequence. A wallet is kept if and only if one of these holds:<br>- the owner's lower-cased name contains the lower-cased term;<br>- the owner's phone contains the term;<br>- the lower-cased id contains the lower-cased term.<br>An empty search keeps all wallets. |
| AdminDashboard.FilteredWallets | src/pages/DashboardPages/AdminDashboard.tsx:1292-1304 | The wallet search. Its properties are stated by `AdminDashboard.FilteredWalletsSpec`. |
| AdminDashboard.ButtonIssuesFlip | src/pages/DashboardPages/AdminDashboard.tsx:808-866 | A row's button issues exactly the request that flips the account's state:<br>- activate for a blocked agent;<br>- suspend for an active agent;<br>- unblock for any other blocked account;<br>- block for any other active account. |
| AdminDashboard.ActionFor | src/pages/DashboardPages/AdminDashboard.tsx:808-866 | The action a row's button offers. Its property is stated by `AdminDashboard.ButtonIssuesFlip`. |
| AdminDashboard.ActionRequest | src/pages/DashboardPages/AdminDashboard.tsx:256-276 | The request for each of the four actions, or none. Its properties are stated by `AdminDashboard.ButtonIssuesFlip` and `AdminDashboard.RefetchOnlyAfterSuccess`. |
| AdminDashboard.ConfirmUserEvents | src/pages/DashboardPages/AdminDashboard.tsx:256-285 | What confirming records. Its properties are stated by `AdminDashboard.ButtonIssuesFlip` and `AdminDashboard.RefetchOnlyAfterSuccess`. |
| AdminDashboard.RefetchOnlyAfterSuccess | src/pages/DashboardPages/AdminDashboard.tsx:256-285 | Both lists are refetched if and only if the request succeeded or none was issued. A failure records the request and the error toast ("Action failed" as fallback). |
| AdminDashboard.AdminActions.constructor | src/pages/DashboardPages/AdminDashboard.tsx:125-137 | No dialog is open, and nothing is staged or selected. |
| AdminDashboard.AdminActions.ViewUser | src/pages/DashboardPages/AdminDashboard.tsx:244-247 | The details dialog opens on that account. |
| AdminDashboard.AdminActions.UserAction | src/pages/DashboardPages/AdminDashboard.tsx:248-255 | The action is staged and the confirmation opens. |
| AdminDashboard.AdminActions.CancelConfirmation | src/pages/DashboardPages/AdminDashboard.tsx:1498 | The confirmation closes without issuing anything. |
| AdminDashboard.AdminActions.ConfirmUserAction | src/pages/DashboardPages/AdminDashboard.tsx:256-285 | Records exactly the staged action's events; the confirmation closes in every outcome. |
| Faq.FilteredFaqsSpec | src/pages/FAQ.tsx:90-95 | An order-preserving subsequence. A question is kept if and only if the lower-cased term is in its lower-cased question, answer or category. An empty term keeps all. |
| Faq.FilteredFaqs | src/pages/FAQ.tsx:90-95 | The FAQ search. Its properties are stated by `Faq.FilteredFaqsSpec` and `Faq.QuestionsDistinct`. |
| Faq.CategoryOf | src/pages/FAQ.tsx:104 | The category, or "General" when it is empty; never empty. |
| Faq.GroupFaqs | src/pages/FAQ.tsx:102-112 | The `reduce` creates one list per category, in first-seen order. Each list holds exactly that category's questions, in order. |
| Faq.GroupsPartitionMatches | src/pages/FAQ.tsx:102-112 | The group sizes add up to the number of matches. Each match is in its own category's group, and no group holds another category's question. |
| Faq.AllFaqsHavePageData | src/pages/FAQ.tsx:26-87 | The page's list holds its ten questions, answers and categories in order. |
| Faq.AllCategories | src/pages/FAQ.tsx:26-112 | With no search the page shows five groups, in this order: Account, Security, Pricing, Transactions, General. |
| Faq.FindIndex | src/pages/FAQ.tsx:176-178 | The position of the first match with that question, or -1 when there is none. |
| Faq.CardIndexIsPosition | src/pages/FAQ.tsx:176-183 | With distinct questions, each card is addressed by its own position among the matches. |
| Faq.QuestionsDistinct | src/pages/FAQ.tsx:26-95 | The page's questions are distinct, and so are those of every search's matches. |
| Faq.Toggled | src/pages/FAQ.tsx:97-99 | The result is `i` if and only if `i` was not the open card; it is null if and only if `i` was. |
| Faq.ToggleTwice | src/pages/FAQ.tsx:97-99 | Toggling the same card twice, from closed or from that card open, returns to where it began. |
| Faq.FaqPage.constructor | src/pages/FAQ.tsx:23-26 | No card is open, the search is empty, and the list is the page's. |
| Faq.FaqPage.Search | src/pages/FAQ.tsx:150 | The search term is what was typed. |
| Faq.FaqPage.Toggle | src/pages/FAQ.tsx:97-99 | The open card is `toggleFAQ` of the old one: that card or none. |
| Faq.FaqPage.OpenAnswer | src/pages/FAQ.tsx:189-201 | An answer is shown only for an open position within the matches, and it is that match's answer. |
| Profile.InitialForm | src/pages/Profile.tsx:31-34 | The form starts from the user's name and phone, or from empty fields when there is no user. |
| Profile.FieldEditsAreIndependent | src/pages/Profile.tsx:52-60 | Typing into one named field changes no other field. |
| Profile.PasswordRequestIffValid | src/pages/Profile.tsx:80-98 | A request is sent if and only if the new entries agree and are at least 6 characters; then it is the only request. |
| Profile.PasswordRejection | src/pages/Profile.tsx:81-88 | The page's own checks. Their order is stated by `Profile.MismatchReportedFirst`. |
| Profile.PasswordRequest | src/pages/Profile.tsx:90-98 | The change-password request. Its fields are stated by `Profile.CurrentPasswordByRole`. |
| Profile.PasswordEvents | src/pages/Profile.tsx:80-109 | What the change-password button records. Its properties are stated by `Profile.PasswordRequestIffValid` and `Profile.MismatchReportedFirst`. |
| Profile.MismatchReportedFirst | src/pages/Profile.tsx:81-88 | A mismatch is reported whatever the length. "Password must be at least 6 characters" is reported only when the entries agree. |
| Profile.CurrentPasswordByRole | src/pages/Profile.tsx:93-97 | The current password is left out if and only if the user is an admin, and is sent as typed otherwise. |
| Profile.ProfileEvents | src/pages/Profile.tsx:62-77 | Saving issues exactly one request, with the form's name and phone. A failure ends with the server's message or "Failed to update profile". |
| Profile.ProfilePage.constructor | src/pages/Profile.tsx:30-40 | Not editing, the form from the user, and empty password fields. |
| Profile.ProfilePage.SyncFromUser | src/pages/Profile.tsx:43-50 | A new user overwrites the form; no user leaves it. |
| Profile.ProfilePage.InputChange | src/pages/Profile.tsx:52-55 | Only the named field is replaced. |
| Profile.ProfilePage.PasswordChange | src/pages/Profile.tsx:57-60 | Only the named password field is replaced. |
| Profile.ProfilePage.StartEditing | src/pages/Profile.tsx:200 | Editing starts. |
| Profile.ProfilePage.CancelEditing | src/pages/Profile.tsx:164 | Editing ends and the typed values stay. |
| Profile.ProfilePage.SaveProfile | src/pages/Profile.tsx:62-78 | Records the save's events. Editing ends on success, and a failure leaves it as it was. |
| Profile.ProfilePage.ChangePasswordClick | src/pages/Profile.tsx:80-109 | Records the validator's and the request's events. All three fields are cleared after a successful change, and kept after a rejection or a failure. |

## Left out

- **Presentation.** JSX markup, styling, charts, icons and dialogs as drawn are not modelled. Neither are the display names (`type.replace("-", " ")`), `toFixed(2)` and `toLocaleString`. The agent table's red/green sign rule is not modelled either; the user dashboard's sign rule is.
- **Endpoints and the query library.** `src/services/wallet.ts` and `src/services/auth.ts` are not part of this model. They are endpoint declarations, and the query library's caching, `skip` and refetch semantics live outside the repository. A request appears only as an `Issued` event, and its reply is an input.
- **Login and Register.** Their submit handlers are not modelled. They await the network and dispatch `setCredentials`, which the session model covers.
- **I/O and asynchrony.** The network, toasts as shown, navigation (`navigate`), `console.log`/`console.error` and `async` interleavings are left out. Effects are recorded in order in an event log.
- **Loading flags.** The `isLoading` flags and the skeletons they show are not modelled.
- **Dashboard logout buttons.** The `handleLogout` of each dashboard is not modelled separately; it is the `logout` reducer, which is.
- **Admin user distribution.** The `userDistribution` chart data (users minus agents) is not modelled.
- **Commission history.** The agent's commission share is not modelled.
- **Common.ParseAmount: whole numbers only.**
  - It reads an optional sign and the leading decimal digits, and gives NaN when there are none.
  - A fraction is dropped, so "0.5" reads as 0 and is rejected.
  - Exponents and the words "Infinity" and "NaN" are not read.
  - Amounts throughout are whole numbers, and floating-point rounding is not modelled.
- **Common.Lower: ASCII only.** It lowers A-Z; other characters are unchanged, whereas JavaScript's `toLowerCase` also folds non-ASCII letters. String length is counted in characters, not UTF-16 code units, which matters for the password length check only beyond the Basic Multilingual Plane.
- **Dates.** `Date` arithmetic, time zones and daylight-saving changes are not modelled.
  - Timestamps are whole seconds since the epoch, and "now" is a parameter.
  - A day is `createdAt / 86400`, the UTC date that `toISOString().split("T")[0]` yields.
  - The date-range cut-off is `now - days * 86400`. This equals `setDate(getDate() - days)` except across a daylight-saving change.
- **Routing details.** Paths are lists of non-empty segments. react-router's case-insensitive matching and trailing-slash handling are not modelled.
- **Page-number state.** The `handlePageChange` setters are not modelled: a page number is a parameter of the page functions.
- **Faq.AllFaqs: the answers' text is not used in the proofs.** The FAQ facts hold for any list with the page's questions and categories (`Faq.HasPageData`), and `Faq.AllFaqsHavePageData` links the page's own list to them.
- **Object key order.** Volume-by-type and the FAQ groups list their keys in insertion order. This is `Object.entries` order for keys that are not array indices, which no transaction type or category is.
