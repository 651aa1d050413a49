# Investment admin dashboard: list pages, tables and bank details

This project models the core of an admin dashboard for an investment
platform, written in React. It covers:

- **The generic table** (`DataTable`, after `src/components/common/DataTable.js`).
  It searches every string or number field of its rows, ignoring case. It
  paginates the matches with a rows-per-page selector (5, 10, 25 or 50) and
  draws a header, a body or a "No data found" row, and a pager.
- **The status badge and the older bootstrap table** (`StatusBadge`, after
  `src/components/common/StatusBadge.js`). The badge turns a status into a
  bootstrap colour and a capitalised label. The bootstrap table draws
  `title` headers, `render(item)` cells and an optional action column.
- **The pending-deposits and pending-withdrawals pages** (`ReviewQueue`).
  They load a list, let the admin pick Approve or Reject on a row, ask for
  confirmation and send `{ isPending }` to the record's status endpoint.
  They alert the outcome: success, a server error with its message and
  error, or a network error.
- **The user list** (`UserList`). It loads users and falls back to two
  sample users. It searches four fields with a short-circuiting `||` chain
  whose callback can throw. It opens `/users/<id>` on a row click and
  explains an empty result.
- **The KYC review page** (`KycRequests`). It shows identity-verification
  requests, searches them by username, id and email, and previews their
  documents. It approves or rejects a request, either by dropping it from
  the mock list or by PATCHing its status and reloading.
- **The admin's bank accounts page** (`BankDetails`). It loads accounts in
  either snake_case or camelCase and maps them to camelCase. It validates
  and submits the add/edit form, toggles an account's active flag and
  deletes an account after confirmation, always as admin 1.

Two helper modules supply the JavaScript semantics these pages rely on:

- `JsValues` holds JSON-like values, truthiness, `||`, `?.`, `String(x)`,
  ASCII case folding, `trim()` blankness and `includes`.
- `Sequences` holds `filter` (also with a callback that may throw) and
  `slice`.

`Responses` holds the handling of response envelopes and error messages
that the pages share.

How the model is shaped:

- Component state that handlers update is a `class` whose methods
  `modify` it.
- What a render computes from that state is a function.
- An HTTP call is an `Outcome` parameter: the response, a rejection
  carrying `err.response.data`, or a rejection with no response.
- The effects of a handler (the request sent, the alert or toast shown,
  whether the list is fetched again) are returned as values.

## Model

| member | source | states |
|---|---|---|
| DataTable.SomeKeyMatchesIff | src/components/common/DataTable.js:51-57 | `Object.keys(row).some(...)` over a listing of the keys holds exactly when some listed key has a string or number field containing the term, ignoring case |
| DataTable.KeyOrderIrrelevant | src/components/common/DataTable.js:47-58 | whatever order the keys are listed in, the callback `!searchTerm \|\| some(...)` is the one search predicate `RowMatches` |
| DataTable.FilteredData | src/components/common/DataTable.js:47-58 | the empty term keeps `data` unchanged; every kept row comes from `data` and matches the term |
| DataTable.FilteredDataExactly | src/components/common/DataTable.js:47-58 | the filtered rows are exactly the matching rows of `data`, in their original order: strictly increasing positions, and a position is kept iff its row matches |
| DataTable.SearchIgnoresTermCase | src/components/common/DataTable.js:54 | a row matches a term iff it matches the lower-cased or the upper-cased term |
| DataTable.NonPrimitiveFieldsNeverMatch | src/components/common/DataTable.js:53-56 | a row with no string or number field matches no non-empty term |
| DataTable.WhitespaceTermNotTrimmed | src/components/common/DataTable.js:48-54 | a term made of a space is not trimmed: a row with no space in any field is dropped |
| DataTable.SearchExample | src/components/common/DataTable.js:47-58 | searching `[Alice, bob]` for "bo" leaves exactly `[bob]` |
| DataTable.PageRows | src/components/common/DataTable.js:61-64 | the page holds at most `rowsPerPage` rows; it is empty past the end and otherwise has exactly `min(n, remaining)` rows; its k-th row is filtered row `page*n+k` |
| DataTable.RowOnItsPage | src/components/common/DataTable.js:61-64 | every filtered row `i` appears at position `i % n` of page `i / n` |
| DataTable.PaginationExample | src/components/common/DataTable.js:61-64 | 23 rows at 10 per page: pages of 10, 10 and 3 rows (the last being rows 20..22), then an empty page |
| DataTable.RenderBody | src/components/common/DataTable.js:109-134 | an empty page gives one "No data found" cell spanning all columns; otherwise one row per record, with one `RenderCell` per column, passing the record to the click handler only when there is one |
| DataTable.Header | src/components/common/DataTable.js:97-106 | one header cell per column, holding that column's `label` |
| DataTable.Table.constructor | src/components/common/DataTable.js:28-30 | starts at page 0, 10 rows per page, empty term |
| DataTable.Table.ChangePage | src/components/common/DataTable.js:32-34 | moves to the new page and changes nothing else |
| DataTable.Table.ChangeRowsPerPage | src/components/common/DataTable.js:36-39 | takes the chosen size and returns to page 0, keeping the term |
| DataTable.Table.Search | src/components/common/DataTable.js:41-44 | takes the typed term and returns to page 0, keeping the page size |
| DataTable.Table.CurrentPageData | src/components/common/DataTable.js:61-64 | exactly the current page of the filtered rows, so at most `rowsPerPage` rows, each a row of `data` that matches the current term |
| DataTable.Table.Render | src/components/common/DataTable.js:66-150 | the title only when it is a non-empty string; a search box iff search is enabled; the spinner iff loading, else the label header and the current page's body; the pager counts the filtered rows and shows the current page and size |
| DataTable.SearchDisabledShowsData | src/components/common/DataTable.js:25-64 | with the search box off the term stays empty, every row is eligible, and page 0 shows `min(n, \|data\|)` rows |
| StatusBadge.VariantAsWritten | src/components/common/StatusBadge.js:7 | the lookup as written: a listed status gets its colour; "constructor" and "__proto__" (in any case) reach an inherited member of `Object.prototype`; anything else gets "secondary" |
| StatusBadge.ConstructorStatusLeaks | src/components/common/StatusBadge.js:7 | the statuses "Constructor" and "__proto__" give the badge an inherited member instead of a colour name |
| StatusBadge.Variant | src/components/common/StatusBadge.js:7 | the colour is always one of the table's colours or "secondary", and it differs from "secondary" iff the lower-cased status is a key of the colour table |
| StatusBadge.VariantIgnoresCase | src/utils/formatters.js:27-31 | the colour depends on the status only up to case; "Pending", "APPROVED" and "rejected" get warning, success and danger |
| StatusBadge.AsWrittenAgreesOutsideInheritedKeys | src/components/common/StatusBadge.js:7 | for every status other than the two inherited names, the lookup as written gives the corrected colour |
| StatusBadge.Label | src/components/common/StatusBadge.js:11 | the text keeps the status's length; its first character is upper-cased and the rest is unchanged |
| StatusBadge.LabelProperties | src/components/common/StatusBadge.js:11 | the label differs from the status only in case; labelling twice changes nothing more |
| StatusBadge.BootstrapHeader | src/components/common/StatusBadge.js:66-71 | one header per column, holding its `title`, plus a final "Actions" header iff there is an action column |
| StatusBadge.RenderBootstrap | src/components/common/StatusBadge.js:47-103 | the spinner while loading. Otherwise no view iff some item is null or undefined (its key read throws). With no items, a "No data available" cell spanning the columns and the action column. Otherwise one `BootstrapRow` per item |
| StatusBadge.BootstrapTableIsRectangular | src/components/common/StatusBadge.js:74-97 | for items that are not null or undefined, the empty cell spans the whole header, every row has one cell per header cell, and each row is keyed by the item's key field |
| StatusBadge.RenderConventionsDiffer | src/components/common/StatusBadge.js:89 | the bootstrap table calls `render(item)`, while the MUI table calls `render(row[key], row)` for the same column |
| Responses.Normalise | src/components/Deposits/PendingDeposites.js:37-46 | the body itself when it is an array; else the array under the envelope key; else the empty list |
| Responses.NormaliseRecoversList | src/components/Withdrawals/Pendingwithdrawals.js:38-47 | both envelopes give back the list they carry, whatever else the wrapping object holds |
| Responses.NormaliseOnlyFromResponse | src/components/kyc/KycRequests.js:113-121 | every record yielded was in the body or under its key; none is invented |
| Responses.NormaliseOtherShapesEmpty | src/components/Deposits/PendingDeposites.js:37-46 | any body that is neither an array nor an object with an array under the key yields no records |
| Responses.ServerErrorDetail | src/components/Deposits/PendingDeposites.js:79-81 | `message: error` when `error` is truthy; else the message when it is truthy; else the page's fallback |
| Responses.FailureAlert | src/components/Deposits/PendingDeposites.js:74-86 | a server error gives "Error: " followed by the JavaScript string of the body's message, else its error, else the fallback; no response gives "Network error. Please try again." |
| Responses.FailureAlertCases | src/components/Deposits/PendingDeposites.js:74-86 | message and error, message alone, an empty body, no body, and no response give their five texts |
| Responses.ErrorWithoutMessage | src/components/Deposits/PendingDeposites.js:79-80 | an `error` without a `message` prints "Error: undefined: <error>" |
| Responses.MessageOr | src/components/Users/AdminBankDetails.js:310 | `err.response?.data?.message \|\| fallback`: a truthy message becomes its JavaScript string (a non-empty string message itself), a falsy or absent one and a missing response give the fallback |
| ReviewQueue.Confirm | src/components/Deposits/PendingDeposites.js:55-91 | nothing happens without a selected record and an action. An update is sent iff both are set and the deposit service does not refuse a falsy id. The update carries the record's id, and `isPending` is true iff the action is reject. A refetch happens iff the update succeeds. The alert is the success text, the failure alert, or the network text when the service refused the id |
| ReviewQueue.MissingIdDiffersByPage | src/services/depositeService.js:51-66 | a record without an id is never sent on the deposits page but is sent with an undefined id on the withdrawals page |
| ReviewQueue.ReviewPage.constructor | src/components/Deposits/PendingDeposites.js:19-23 | empty list, loading, no error, nothing selected, dialog closed |
| ReviewQueue.ReviewPage.Fetch | src/components/Deposits/PendingDeposites.js:29-53 | loading ends; on success the list is the normalised body and the error is cleared; on failure the list is kept and the load error is set |
| ReviewQueue.ReviewPage.ChooseAction | src/components/Deposits/PendingDeposites.js:137-153 | the row and the action are remembered (the dialog opens); nothing else changes |
| ReviewQueue.ReviewPage.CloseDialog | src/components/Deposits/PendingDeposites.js:192 | only the action is cleared; the picked record stays |
| ReviewQueue.ReviewPage.ConfirmAction | src/components/Withdrawals/Pendingwithdrawals.js:56-88 | returns `Confirm` of the selection; past the guard it always clears the selection and the action; the list is untouched |
| UserList.Load | src/components/Users/UserList.js:16-73 | the server's users iff the request succeeded with a truthy `data.users`. Otherwise the two sample users, with the "unexpected shape" warning after a success and the "failed to load" warning after a failure |
| UserList.LoadRoundTrip | src/components/Users/UserList.js:21-27 | a `{ data: { users } }` body gives back its users with no warning; a null list or a null body gives the samples and the shape warning |
| UserList.UserVerdict | src/components/Users/UserList.js:93-103 | a term blank after trimming keeps every user; otherwise a null or undefined user throws |
| UserList.FieldsVerdictWellFormed | src/components/Users/UserList.js:97-102 | when every searched field is a string or falsy, the `\|\|` chain never throws and keeps the user iff some field contains the term, ignoring case |
| UserList.UserVerdictWellFormed | src/components/Users/UserList.js:93-103 | for a user with string or falsy fields: never throws, and kept iff the name, email, username or NIC number contains the term, ignoring case |
| UserList.FieldsVerdictThrows | src/components/Users/UserList.js:97-102 | the `\|\|` chain throws iff some field is truthy and not a string and every field before it was skipped (falsy, or a string without the term) |
| UserList.ShortCircuitDecidesThrow | src/components/Users/UserList.js:97-102 | two examples: a number in the email throws when the name misses the term, and is never reached when the name matches |
| UserList.FilteredUsers | src/components/Users/UserList.js:93-103 | no result when the users are not an array or the callback throws for some user (iff); a blank term keeps the whole list; otherwise exactly the users the callback keeps, each from the list |
| UserList.FilteredUsersExactly | src/components/Users/UserList.js:93-103 | the users shown are the kept users in list order: strictly increasing positions, and a position is shown iff its user is kept |
| UserList.IdeographicSpaceKeepsEveryone | src/components/Users/UserList.js:94 | `trim()` removes Unicode space separators too, so a term of ideographic spaces keeps every user |
| UserList.SampleSearch | src/components/Users/UserList.js:93-103 | searching the samples for "Smith" gives exactly Jane Smith |
| UserList.SamplesNeverThrow | src/components/Users/UserList.js:29-46 | any search over the sample users succeeds |
| UserList.BlankTermBlamesSearch | src/components/Users/UserList.js:181-186 | with no users and a term of spaces, the filter keeps the empty list, yet the note says no user matches the search |
| UserList.RowClickPath | src/components/Users/UserList.js:79-83 | navigates iff the user and its id are truthy, to `/users/<id>` |
| UserList.RowClickPathsDistinct | src/components/Users/UserList.js:79-83 | two users with numeric ids open the same page only if their ids are equal |
| UserList.EmptyStateText | src/components/Users/UserList.js:181-186 | a note iff the filtered list is empty; it blames the search iff the raw term is non-empty |
| UserList.RenderUserColumn | src/components/Users/UserList.js:105-131 | a null or undefined argument throws; a falsy field shows "N/A" |
| UserList.CellsShowNotAvailable | src/components/Users/UserList.js:105-131 | as written: every string cell shows "N/A", a null field breaks the render, and every header is blank |
| UserList.UserCellShowsField | src/components/Users/UserList.js:105-131 | as intended: each text column shows its truthy field, the date column passes a present date on to be formatted, a falsy field shows "N/A", and no user record throws |
| UserList.SampleNameCell | src/components/Users/UserList.js:107-109 | John Doe's name cell reads "N/A" as written and "John Doe" as intended |
| UserList.UserListPage.constructor | src/components/Users/UserList.js:11-14 | no users, loading, empty term, no error |
| UserList.UserListPage.FetchUsers | src/components/Users/UserList.js:16-73 | loading ends, and the users and warning are those `Load` gives; the term is kept |
| UserList.UserListPage.Search | src/components/Users/UserList.js:85-87 | the term becomes the typed text; nothing else changes |
| UserList.UserListPage.ClearSearch | src/components/Users/UserList.js:89-91 | only with a non-empty term (the button is disabled otherwise): the term becomes empty and nothing else changes |
| KycRequests.KycVerdict | src/components/kyc/KycRequests.js:185-191 | a null or undefined request throws |
| KycRequests.ScreenFor | src/components/kyc/KycRequests.js:193-262 | an error replaces the page; the spinner shows while loading; "No KYC verification requests found." shows iff loading is over and no request is shown; otherwise one card per shown request |
| KycRequests.FilteredRequests | src/components/kyc/KycRequests.js:185-191 | no result iff the callback throws for some request; otherwise exactly the requests the callback keeps, each from the list |
| KycRequests.FilteredRequestsExactly | src/components/kyc/KycRequests.js:185-191 | the cards shown are the kept requests in list order: strictly increasing positions, and a position is shown iff its request is kept |
| KycRequests.KycVerdictWellFormed | src/components/kyc/KycRequests.js:185-191 | for string or missing username and email: never throws, and kept iff the username or email contains the term ignoring case, or the id's string form contains it as typed |
| KycRequests.EmptyTermEdgeCases | src/components/kyc/KycRequests.js:187-189 | even the empty term drops a request with no username, id or email; a `false` username throws |
| KycRequests.IdSearchIsCaseSensitive | src/components/kyc/KycRequests.js:187-188 | the id is matched as typed ("KYC" finds "KYC-1", "kyc" does not), while the username ignores case |
| KycRequests.Confirm | src/components/kyc/KycRequests.js:142-167 | nothing without a selection. With mock data, the requests with the selected id are removed and nothing is sent. Otherwise the request's status PATCH goes out ("approved" iff the action is approve), with a reload iff it succeeds and the action-named alert iff it fails |
| KycRequests.MockRemovalExact | src/components/kyc/KycRequests.js:148 | what stays had another id and was in the list, every request with another id stays, and the remaining requests keep their order |
| KycRequests.StatusPathsDistinct | src/components/kyc/KycRequests.js:152 | numeric request ids map to distinct status endpoints |
| KycRequests.ImageUrl | src/components/kyc/KycRequests.js:319-321 | every preview address is the server's base URL, a slash, and then the path's string form (`null` for a missing path) |
| KycRequests.MissingImageStillOpens | src/components/kyc/KycRequests.js:376-378 | request 1004's missing selfie opens the preview at `<base>/null`; request 1005 has no ID document |
| KycRequests.MockSearchNeverThrows | src/components/kyc/KycRequests.js:185-191 | any search over the five mock requests succeeds |
| KycRequests.MockEmptySearchShowsAll | src/components/kyc/KycRequests.js:29-75 | the empty term shows all five mock requests |
| KycRequests.KycPage.constructor | src/components/kyc/KycRequests.js:77-87 | empty list, loading, no error, nothing selected, dialog and preview closed |
| KycRequests.KycPage.LoadMock | src/components/kyc/KycRequests.js:89-96 | with mock data, the list becomes the five mocks and loading ends |
| KycRequests.KycPage.Fetch | src/components/kyc/KycRequests.js:102-128 | loading ends; on success the list comes from either envelope and the error is cleared; on failure the list is kept and the load error is set |
| KycRequests.KycPage.ChooseAction | src/components/kyc/KycRequests.js:130-140 | the request and the action are remembered and the dialog opens |
| KycRequests.KycPage.CancelDialog | src/components/kyc/KycRequests.js:479 | the dialog closes; the selection stays |
| KycRequests.KycPage.ConfirmAction | src/components/kyc/KycRequests.js:142-167 | returns `Confirm` of the selection, and the list becomes its list; past the guard the dialog closes and the selection is cleared |
| KycRequests.KycPage.Search | src/components/kyc/KycRequests.js:185-191 | the term becomes the typed text; nothing else changes |
| KycRequests.KycPage.OpenImage | src/components/kyc/KycRequests.js:169-175 | the preview opens with the given address and title |
| KycRequests.KycPage.CloseImage | src/components/kyc/KycRequests.js:177-183 | the preview closes and is emptied |
| BankDetails.ActiveFlag | src/components/Users/AdminBankDetails.js:303 | `isActive` unless undefined, else `is_active` unless undefined, else true |
| BankDetails.Transform | src/components/Users/AdminBankDetails.js:295-304 | throws iff the item is null or undefined. Keeps the id and the flag, and never leaves the flag undefined. Each of the five name fields is its camelCase value when that is truthy and its snake_case value otherwise; the description is the item's when truthy, else "" |
| BankDetails.TransformPrefersCamelCase | src/components/Users/AdminBankDetails.js:297-301 | read back under its camelCase key, each name field of the mapped record is the item's camelCase value when truthy and its snake_case value otherwise |
| BankDetails.TransformAll | src/components/Users/AdminBankDetails.js:295-304 | fails iff some item fails; otherwise one record per item, in order |
| BankDetails.CamelCaseRoundTrip | src/components/Users/AdminBankDetails.js:295-304 | a camelCase record with its names filled in comes through the mapping unchanged |
| BankDetails.SnakeCaseRecord | src/components/Users/AdminBankDetails.js:295-304 | a snake_case record is read field by field, and `is_active: false` stays false |
| BankDetails.Fetched | src/components/Users/AdminBankDetails.js:276-318 | a usable body gives the mapped list with no toast. A null body or a null item gives the empty list and the fetch error. A failed request gives the empty list and the server's message or the fetch error |
| BankDetails.FetchedKeepsCountAndOrder | src/components/Users/AdminBankDetails.js:286-307 | an array of items gives one record per item, in order, with its id |
| BankDetails.SubmitRequest | src/components/Users/AdminBankDetails.js:325-375 | nothing is sent iff a required field is falsy. Otherwise the form plus `adminId: 1`, PATCHed to the edited record when there is one and POSTed to the collection otherwise |
| BankDetails.EditForm | src/components/Users/AdminBankDetails.js:377-394 | the form has exactly the six fields: the required ones copied as they are, and branch name, SWIFT code and description copied when truthy and "" otherwise |
| BankDetails.EditThenSubmit | src/components/Users/AdminBankDetails.js:325-394 | editing a complete record and saving it unchanged PATCHes its own fields and the admin id to its own address; a record without a bank name cannot be saved |
| BankDetails.EmptyFormRejected | src/components/Users/AdminBankDetails.js:329-335 | the empty form is never sent |
| BankDetails.ToggleRequest | src/components/Users/AdminBankDetails.js:396-402 | PATCH to the record's status path, with `isActive` the negation of the current flag by truthiness, and the admin id |
| BankDetails.ToggleTwiceRestores | src/components/Users/AdminBankDetails.js:396-418 | toggling twice restores the flag's truthiness; a null or 0 flag counts as inactive and gets activated |
| BankDetails.DeleteRequest | src/components/Users/AdminBankDetails.js:425-430 | a DELETE to the record's address with body `{ adminId: 1 }` |
| BankDetails.ItemPathsDistinct | src/components/Users/AdminBankDetails.js:342 | numeric ids address distinct records |
| BankDetails.BankDetailsPage.constructor | src/components/Users/AdminBankDetails.js:246-262 | no records, form hidden and empty, not editing, nothing busy |
| BankDetails.BankDetailsPage.Fetch | src/components/Users/AdminBankDetails.js:276-318 | the records and toast are those `Fetched` gives; the fetch flag ends false and the form is untouched |
| BankDetails.BankDetailsPage.InputChange | src/components/Users/AdminBankDetails.js:320-323 | one form field takes the typed text; nothing else changes |
| BankDetails.BankDetailsPage.OpenForm | src/components/Users/AdminBankDetails.js:473 | the form is shown; nothing else changes |
| BankDetails.BankDetailsPage.ResetForm | src/components/Users/AdminBankDetails.js:447-458 | the form is emptied and hidden and editing ends |
| BankDetails.BankDetailsPage.Edit | src/components/Users/AdminBankDetails.js:377-394 | the form holds `EditForm` of the record, its id is being edited, and the form is shown |
| BankDetails.BankDetailsPage.Submit | src/components/Users/AdminBankDetails.js:325-375 | sends `SubmitRequest` of the form. An incomplete form only gets the required-fields toast, with nothing else changed. A successful save toasts "updated" or "added", resets the form and reloads. A failed save toasts the message and keeps the form |
| BankDetails.BankDetailsPage.ToggleStatus | src/components/Users/AdminBankDetails.js:396-418 | sends `ToggleRequest`; on success toasts "activated" or "deactivated" and reloads; on failure toasts the message; the card's toggle flag ends false |
| BankDetails.BankDetailsPage.Delete | src/components/Users/AdminBankDetails.js:420-445 | nothing unless confirmed. Otherwise sends `DeleteRequest`, toasts and reloads on success, toasts the message on failure, and the card's delete flag ends false |
| Sequences.FilterChecked | src/components/Users/UserList.js:93-103 | `filter` with a callback that may throw: no result iff some element throws, otherwise exactly the kept elements |
| Sequences.Slice | src/components/common/DataTable.js:61-64 | `slice` with non-negative bounds clamped to the length: empty for an empty range, otherwise the elements from `start` up to `min(end, length)` |

## Left out

- Network I/O, `console` logging, `alert`, toasts, `navigate` and
  `window.confirm` are not performed. The outcome of each HTTP call is a
  parameter; alerts, toasts, navigation targets and requests are returned
  as values; the browser prompt is a boolean.
- For the KYC page and the bank details page the outcome's value is the
  response body (`res.data`). For the deposits and withdrawals pages it
  is what the service function returns.
- The withdrawals page imports `getPendingWithdrawals` and
  `updateWithdrawalStatus` as named imports, but
  `src/services/withdrawalService.js` only has a default export. What
  happens then depends on the build: a strict bundler or native modules
  refuse the missing export outright, and a lenient one leaves both names
  undefined so that every call throws. The model keeps the outcome a
  parameter and models the page as if the service functions existed.
  (The service's `getPendingWithdrawals` would also return the whole axios
  response, which no envelope key matches.)
- `StatusBadge.js` imports `STATUS_COLORS` from `src/utils/constants.js`,
  which does not export it (that file holds a sidebar component); as with
  the withdrawals service, the effect depends on the build. The colour
  table is taken from `src/utils/formatters.js:27-31`, where it is
  defined.
- Numbers are integers. `parseFloat`, `toFixed`, `NaN` and other floating
  point forms of a number are not modelled, and `formatDate` and
  `toLocaleString` date formatting are not modelled. A date cell records
  the raw value it formats.
- Case folding covers ASCII letters only. Unicode case mapping is not
  modelled.
- Styling (`minWidth`, `align`, colours of buttons, the busy spinners
  inside buttons), React keys and duplicate-key warnings are not modelled.
  Markup that only lays out the same data is not modelled either: cards,
  grids, dialogs.
- The MUI table's own search box is not modelled as a second, inner search
  on the user list. `UserList` passes its already-filtered users; the
  table's own search is `DataTable.Table.Search`.
- The MUI table's rows are records (`map<string, Value>`).
  `Object.keys(null)` throwing for a null row is therefore not modelled.
- DataTable.Table.ChangeRowsPerPage: requires one of the offered sizes,
  because the selector offers only those; `parseInt` of other text is
  not modelled.
- The 800 ms `setTimeout` before the KYC mock data appears, and its
  cleanup, are not modelled: `KycRequests.KycPage.LoadMock` is the moment
  the timer fires.
- `useMockData` is hard-wired to `true` in the KYC page. Here it is a
  constructor parameter, so that the backend branch is modelled as well.
- KycRequests.WithoutId: a null request in the list yields an undefined
  id instead of the TypeError the updater would throw. That throw happens
  inside React's state update, outside the handler's `try`.
- Ids are compared structurally, which for `!==` on numbers and strings
  is the same test. Two different objects with equal contents would count
  as the same id here.
- BankDetails.BankDetailsPage: every `setLoading({ ...loading, ... })`
  is modelled as updating the latest flags. In the source it spreads the
  `loading` captured when the handler started, so two overlapping
  handlers can undo each other's flags; that interleaving is not
  modelled.
- The bank details page's re-fetch after a save, toggle or delete is
  reported as `refetch`, not run. The same holds for the deposits,
  withdrawals and KYC pages.

## Findings

| source | as written | input that shows it | evidently intended | confidence | as-written member | corrected member |
|---|---|---|---|---|---|---|
| src/components/common/StatusBadge.js:7 | `STATUS_COLORS[status.toLowerCase()] \|\| 'secondary'` looks the key up through the prototype chain | status "Constructor" (or "__proto__"): the badge's `bg` becomes the `Object` function (or `Object.prototype`) instead of a colour name | only the table's own keys give a colour; every other status is "secondary" | not executed | StatusBadge.ConstructorStatusLeaks | StatusBadge.Variant |
| src/components/Users/UserList.js:105-131 | the columns are written for the bootstrap table (`title`, `render(user)`), but the default import is the MUI table, which reads `label` and calls `render(row[key], row)` | John Doe's row: the name renderer receives the string "John Doe", whose `.name` is undefined, so the cell shows "N/A"; every header is blank; a null field throws | each renderer receives the user and shows its field | not executed | UserList.CellsShowNotAvailable | UserList.UserCellShowsField |
