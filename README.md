# Admin dashboard pages, modelled in Dafny

This project models the data logic of five pages of a lending platform's admin dashboard (a React
client under `app/dashboard/`) and proves properties of it:

- **Loans** (`loans.dfy`): the normalisation of fetched loans (short upper-case display id, lower-cased
  status), the search/status/tab filter, the status badge, the pending-only approve/reject menu and the
  `handleLoanAction` list update.
- **Balance** (`balance.dfy`): the user id → name map, transaction and balance normalisation, the
  search/type filter, the copy-then-sort by date or amount, the rows the table renders and the
  add-transaction form (`handleSubmit`).
- **Users** (`users.dfy`): the search/role filter, the role label and colour, and the add, edit and
  delete list updates.
- **Installments** (`installments.dfy`): the sample installments, the search/status filter, the status
  badge, the unpaid-only payment action, the payment dialog's choices and default amount, and
  `handleRecordPayment`.
- **Reports** (`reports.dfy`): the sample reports and templates, the search/type filter, the type label,
  the type colour and the format icon.

Three shared modules hold the JavaScript operations the pages use: `text.dfy` (`toLowerCase`,
`toUpperCase`, `includes`, `slice(0, n)`, capitalisation), `lists.dfy` (`filter`, map-replace, `find`,
and the order-preserving subsequence relation the filters are proved against) and `sorting.dfy` (the
stable `Array.prototype.sort` under an integer comparator, proved sorted, a permutation and stable).

Each page with handlers that change state is a `class` whose fields are the page's `useState`
variables; each handler is a method whose `ensures` gives the whole new state. Network requests are
not modelled: a handler takes the request's outcome as a parameter and returns what it would send.

The model follows the code where it behaves differently from what the page evidently intends:

- Approving or rejecting a loan writes `"APPROVED"`/`"REJECTED"`, while the status filter and the tabs
  compare with lower-case values, so an acted-on loan leaves every view except "all". The badge
  lower-cases first, so the loan still shows as "Approved" or "Rejected".
- The balance filter reads `transaction.user`, which normalisation never sets (it sets `userName`). In
  JavaScript, `.toLowerCase()` on that missing field throws. The filter is therefore a `Result`. When
  the backend sends transactions without a `user` field, any search term that does not occur in the id
  of one of them makes the render fail; a transaction that does carry `user` is searched normally.
- The balance type filter offers `"withdrawal"`, but the form creates `"withdraw"` transactions, so
  that choice lists nothing.
- The transactions table checks whether the sorted list is empty, but renders the rows of the
  unfiltered, unsorted `transactions`.
- `usersMap[id] || "Unknown User"` also falls back for a user whose name is empty, not only for an
  unknown id.
- The transaction appended after a successful POST is the raw response, without the display fields
  that normalisation adds.

## Model

| member | source | states |
|---|---|---|
| Loans.DisplayId | app/dashboard/loans/page.tsx:25 | the display id is "L-" followed by the first (at most 8) characters of the backend id, upper-cased, so it is at most 10 characters long |
| Loans.TransformLoanData | app/dashboard/loans/page.tsx:24-37 | the normalised loan keeps the backend id as `fullId`, uses the display id as `id`, lower-cases the status and maps duration, interestFee and paidMonths to term, interest and paidMonth |
| Loans.TransformLoans | app/dashboard/loans/page.tsx:66-71 | the transformed list has one loan per fetched loan, in order, each the `transformLoanData` of it, and no status in it holds an upper-case letter |
| Loans.NormalisedStatusIsLowerCase | app/dashboard/loans/page.tsx:30 | a normalised status holds no upper-case letter; a backend "PENDING" becomes "pending" |
| Loans.DisplayIdCollides | app/dashboard/loans/page.tsx:25 | two backend ids that agree, up to case, on their first 8 characters get the same display id |
| Loans.MatchesTabIff | app/dashboard/loans/page.tsx:92-98 | the tab test holds exactly for tab "all", or for one of the five known statuses equal to the loan's status |
| Loans.FilteredLoans | app/dashboard/loans/page.tsx:84-101 | the filtered loans are an order-preserving subsequence; each kept loan matches the lower-cased term in its id, user or purpose, passes the status filter and the tab; every loan that passes all three is kept, as many times as it occurs |
| Loans.DefaultViewShowsAll | app/dashboard/loans/page.tsx:84-101 | an empty search with status "all" and tab "all" lists every loan, in order |
| Loans.BadgeFor | app/dashboard/loans/page.tsx:142-180 | exactly the five known statuses get a badge, and its text is the status capitalised |
| Loans.StatusBadge | app/dashboard/loans/page.tsx:141-181 | a status gets a badge exactly when its lower-cased form is one of the five known statuses |
| Loans.StatusBadgeIgnoresCase | app/dashboard/loans/page.tsx:142 | a status and its lower-cased form get the same badge |
| Loans.StatusBadgesDistinct | app/dashboard/loans/page.tsx:143-177 | different known statuses get badges with different texts and colours |
| Loans.BadgeColourIdentifiesStatus | app/dashboard/loans/page.tsx:142-177 | each known status gets a badge, and the badge's colour alone tells which status it is |
| Loans.MenuItems | app/dashboard/loans/page.tsx:286-318 | "View Details" is always offered; "Approve" and "Reject" are offered exactly when the status is "pending" |
| Loans.NewStatus | app/dashboard/loans/page.tsx:114 | the new status is "APPROVED" exactly for the approve action, and "REJECTED" otherwise |
| Loans.SetStatus | app/dashboard/loans/page.tsx:124-128 | every loan whose display id is the selected one gets the new status; the length and every other loan are unchanged |
| Loans.ActedLoanNotActionable | app/dashboard/loans/page.tsx:286-318 | after approve or reject (line 114), the loan's menu no longer offers either action |
| Loans.WrittenStatusNotOffered | app/dashboard/loans/page.tsx:90-114 | the status an action writes (line 114) is none of the five statuses the filters and tabs offer, nor "all" |
| Loans.ActedLoanLeavesStatusViews | app/dashboard/loans/page.tsx:90-114 | after approve or reject, the loan is not listed under any of the five status filters or tabs |
| Loans.ActedLoanBadge | app/dashboard/loans/page.tsx:114-163 | after approve or reject, the loan's badge is the "Approved" or the "Rejected" badge |
| Loans.ApprovedBadge | app/dashboard/loans/page.tsx:141-155 | the written status "APPROVED" gets the blue "Approved" badge with the thumbs-up icon |
| Loans.RejectedBadge | app/dashboard/loans/page.tsx:141-162 | the written status "REJECTED" gets the red "Rejected" badge with the thumbs-down icon |
| Loans.LoansPage.constructor | app/dashboard/loans/page.tsx:40-47 | the initial state: no loans, an empty search, status and tab "all", and no selection, action or open dialog |
| Loans.LoansPage.Loaded | app/dashboard/loans/page.tsx:61-76 | after a successful GET the list is the fetched loans, each transformed by `transformLoanData` with its looked-up name; after a failed one it stays as it was; nothing else changes |
| Loans.LoansPage.OpenDetails | app/dashboard/loans/page.tsx:287-290 | the menu's "View Details" selects the loan and opens the details dialog |
| Loans.LoansPage.ChooseAction | app/dashboard/loans/page.tsx:297-312 | "Approve" or "Reject" selects the loan, records the action and opens the confirmation dialog |
| Loans.LoansPage.HandleLoanAction | app/dashboard/loans/page.tsx:103-137 | with no selection, or a selection no loan has, nothing changes. Otherwise: the PATCH goes to the `fullId` of the first loan with the selected display id; the list is updated only if the PATCH succeeded; the dialog, selection and action are reset in both cases |
| Balance.UsersMapSpec | app/dashboard/balance/page.tsx:49-52 | the map's keys are exactly the users' ids, and each id maps to the name of the last user with that id |
| Balance.UsersMap | app/dashboard/balance/page.tsx:49-52 | the `usersMap` reduce has a key for every user's id |
| Balance.LookupName | app/dashboard/balance/page.tsx:56-76 | the mapped name when the id is present with a non-empty name, and "Unknown User" otherwise |
| Balance.NameShownForUser | app/dashboard/balance/page.tsx:49-56 | an unknown id shows "Unknown User"; a known id shows its last user's name, or "Unknown User" when that name is empty |
| Balance.NormaliseTransaction | app/dashboard/balance/page.tsx:54-57 | a normalised transaction keeps the backend fields, gets the looked-up user name, and gets a formatted id made of the first (at most 8) characters of its id |
| Balance.NormaliseTransactions | app/dashboard/balance/page.tsx:54-72 | normalisation maps each transaction in place: same length, element i is transaction i normalised |
| Balance.NormaliseBalance | app/dashboard/balance/page.tsx:74-77 | a balance row's id is the first (at most 8) characters of the raw id; its user is the looked-up name; its other fields are the raw ones |
| Balance.NormaliseBalances | app/dashboard/balance/page.tsx:74-87 | normalisation maps each balance in place: same length, element i is balance i normalised |
| Balance.SearchOutcome | app/dashboard/balance/page.tsx:114-117 | the search test throws exactly when the term is not in the id and the transaction has no `user`; otherwise it holds exactly when the term is in the id, the user or the description (all lower-cased) |
| Balance.FilteredTransactions | app/dashboard/balance/page.tsx:113-122 | the filter fails exactly when some transaction's search test throws; otherwise it is the filter by search and type |
| Balance.FilteredTransactionsKeepMatches | app/dashboard/balance/page.tsx:113-122 | when the filter does not throw, the result is an order-preserving subsequence; each kept transaction passes the search and the type test, and every one that passes both is kept, as many times as it occurs |
| Balance.DefaultViewShowsAll | app/dashboard/balance/page.tsx:113-122 | an empty search with type "all" never throws and lists every transaction, in order |
| Balance.SearchOnNormalisedListThrows | app/dashboard/balance/page.tsx:54-116 | a fetched list with a transaction that has no `user` and whose id does not contain the term makes the filter throw |
| Balance.WithdrawalFilterListsNothing | app/dashboard/balance/page.tsx:119 | when every transaction is typed "deposit" or "withdraw" (the form's values, line 390), the "withdrawal" filter lists nothing |
| Balance.SortedTransactions | app/dashboard/balance/page.tsx:125-133 | the sorted list is a permutation of the filtered list, ordered under the comparator: non-decreasing by date or amount for "asc", non-increasing for "desc" |
| Balance.SortedTransactionsStable | app/dashboard/balance/page.tsx:125-133 | transactions with equal date (or equal amount) keep their filtered order, in both directions |
| Sorting.SortByKey | app/dashboard/balance/page.tsx:125 | the stable sort of a copy returns a permutation of its input, sorted by the key |
| Sorting.InsertSorted | app/dashboard/balance/page.tsx:125 | inserting an element into a sorted list keeps it sorted |
| Sorting.InsertPermutes | app/dashboard/balance/page.tsx:125 | insertion adds the element and loses none of the list's |
| Sorting.InsertKeepsKeyOrder | app/dashboard/balance/page.tsx:125 | insertion places the element after every element of the sorted list with the same key |
| Sorting.SortIsStable | app/dashboard/balance/page.tsx:125 | the elements with any one key appear in the sorted copy in their input order |
| Balance.TableRows | app/dashboard/balance/page.tsx:271-278 | the table shows the empty-list message when the sorted list is empty, and otherwise the rows of `transactions` itself |
| Balance.RowsIgnoreSortOrder | app/dashboard/balance/page.tsx:125-278 | the rows on screen are the same for every sort field and direction: nothing when the filter keeps nothing, and all transactions otherwise |
| Balance.BalancePage.constructor | app/dashboard/balance/page.tsx:19-30 | the initial state: empty search, type "all", sorted by date descending, empty lists, an empty form with type "deposit" |
| Balance.BalancePage.Loaded | app/dashboard/balance/page.tsx:39-106 | a successful fetch sets the users, the normalised transactions and the normalised balances; a failed one keeps the lists; loading ends either way |
| Balance.BalancePage.ToggleSortDirection | app/dashboard/balance/page.tsx:243 | the menu item flips the sort direction |
| Balance.BalancePage.HandleSubmit | app/dashboard/balance/page.tsx:138-169 | an empty user, amount or type raises "Please fill in all fields." and changes nothing. Otherwise the POST carries the form. A 201 appends the response at the end, closes the dialog and resets the form to type "deposit". A thrown error raises "Failed to add transaction." and keeps the list. Loading ends in every case |
| Users.FilteredUsers | app/dashboard/users/page.tsx:69-78 | the filtered users are an order-preserving subsequence; each kept user has the lower-cased term in the lower-cased name or email, or the term as typed in the phone, and passes the role filter; every user that passes both is kept, as many times as it occurs |
| Users.DefaultViewShowsAll | app/dashboard/users/page.tsx:69-78 | an empty search with role "all" lists every user, in order |
| Users.NameAndEmailSearchIgnoresCase | app/dashboard/users/page.tsx:71-72 | the name and email tests give the same answer for a term and its lower-cased form |
| Users.PhoneSearchIsCaseSensitive | app/dashboard/users/page.tsx:73 | a user found only through the phone "A1" is listed for "A1" and not for "a1" |
| Users.RoleFilterIsCaseSensitive | app/dashboard/users/page.tsx:75 | a user with role "admin" is not listed under the "ADMIN" filter |
| Users.RoleLabels | app/dashboard/users/page.tsx:221 | the role label is the role capitalised: "ADMIN" and "MEMBER" keep their spelling; "member" becomes "Member" |
| Users.RoleColour | app/dashboard/users/page.tsx:216-218 | the role pill is green exactly for "ADMIN" |
| Users.RemoveUser | app/dashboard/users/page.tsx:85 | the list after a delete is an order-preserving subsequence without the id, and keeps every user with another id |
| Users.RemoveUserKeepsCopies | app/dashboard/users/page.tsx:85 | deleting keeps every copy of a user with another id and no copy of one with the id |
| Users.RemoveAbsentUser | app/dashboard/users/page.tsx:85 | deleting an id no user has leaves the list unchanged |
| Users.RemoveUserIdempotent | app/dashboard/users/page.tsx:85 | deleting the same id twice is the same as deleting it once |
| Users.RemoveUserCount | app/dashboard/users/page.tsx:85 | the users that remain and the users with the id together account for the whole list |
| Users.ReplaceUser | app/dashboard/users/page.tsx:108 | every user with the id becomes the returned record; the length and every other user are unchanged |
| Users.ReplaceAbsentUser | app/dashboard/users/page.tsx:108 | editing an id no user has leaves the list unchanged |
| Users.UsersPage.constructor | app/dashboard/users/page.tsx:25-35 | the initial state: no users, an empty search, role "all", closed dialogs, no selection, empty forms, loading |
| Users.UsersPage.Loaded | app/dashboard/users/page.tsx:38-51 | a successful fetch sets the list; loading ends either way |
| Users.UsersPage.HandleAddUser | app/dashboard/users/page.tsx:56-66 | the POST carries the form. On success the created user is appended at the end, the dialog closes and the form is emptied. On failure nothing changes |
| Users.UsersPage.OpenDeleteDialog | app/dashboard/users/page.tsx:241-244 | the "Delete User" item selects the user and opens the confirmation dialog |
| Users.UsersPage.HandleDeleteUser | app/dashboard/users/page.tsx:80-94 | with no selection nothing changes. Otherwise the DELETE goes to the selected id; the id's users are removed only if it succeeded; the dialog closes and the selection clears in both cases |
| Users.UsersPage.OpenEditDialog | app/dashboard/users/page.tsx:96-100 | selects the user, copies it into the edit form and opens the dialog |
| Users.UsersPage.HandleEditUser | app/dashboard/users/page.tsx:105-114 | returns the PUT body, the edit form. On success the users with the form's id become the returned record, the dialog closes and the selection clears; on failure nothing changes |
| Installments.FilteredInstallments | app/dashboard/installments/page.tsx:105-114 | the filtered installments are an order-preserving subsequence; each kept one has the lower-cased term in its id, loan id or user and passes the status filter; every one that passes both is kept, as many times as it occurs |
| Installments.DefaultViewShowsAll | app/dashboard/installments/page.tsx:105-114 | an empty search with status "all" lists every installment, in order |
| Installments.InitialViewShowsAllSamples | app/dashboard/installments/page.tsx:23-114 | on first render all eight sample installments are listed |
| Installments.StatusBadge | app/dashboard/installments/page.tsx:123-149 | exactly "paid", "pending" and "overdue", compared case-sensitively, get a badge, and its text is the status capitalised |
| Installments.StatusBadgesDistinct | app/dashboard/installments/page.tsx:125-144 | the three statuses get badges with different texts, colours and icons |
| Installments.StatusBadgeIsCaseSensitive | app/dashboard/installments/page.tsx:124 | "Paid" and "PAID" get no badge |
| Installments.SamplesHaveBadges | app/dashboard/installments/page.tsx:23-149 | every sample installment's status gets a badge |
| Installments.MenuItems | app/dashboard/installments/page.tsx:241-255 | "Record Payment" is offered exactly for an installment that is not "paid"; "View Details" always |
| Installments.PaymentChoices | app/dashboard/installments/page.tsx:286-292 | the dialog's choices are an order-preserving subsequence holding exactly the installments that are not "paid", each as many times as it occurs |
| Installments.ChoicesMatchMenu | app/dashboard/installments/page.tsx:241-287 | an installment is a choice in the dialog exactly when its menu offers "Record Payment" |
| Installments.DefaultAmount | app/dashboard/installments/page.tsx:303 | with no (or an empty) selection there is no default amount; otherwise it is the amount of the first installment with the selected id, and there is one whenever such an installment exists |
| Installments.DefaultChoice | app/dashboard/installments/page.tsx:281 | the selector starts at the selected id, or at "" without one |
| Installments.SampleDefaultAmount | app/dashboard/installments/page.tsx:303 | a payment started for INS-002 defaults to its amount, 450 |
| Installments.InstallmentsPage.constructor | app/dashboard/installments/page.tsx:99-102 | the initial state: empty search, status "all", dialog closed, no selection |
| Installments.InstallmentsPage.OpenRecordPayment | app/dashboard/installments/page.tsx:160 | the header button opens the dialog and keeps the selection |
| Installments.InstallmentsPage.ChooseRecordPayment | app/dashboard/installments/page.tsx:241-246 | a row's "Record Payment", offered only for an unpaid installment, selects it and opens the dialog |
| Installments.InstallmentsPage.HandleRecordPayment | app/dashboard/installments/page.tsx:116-121 | closes the dialog and clears the selection; the installments, a constant, are untouched |
| Reports.FilteredReports | app/dashboard/reports/page.tsx:108-116 | the filtered reports are an order-preserving subsequence; each kept one has the lower-cased term in its lower-cased id or name and passes the type filter; every one that passes both is kept, as many times as it occurs |
| Reports.DefaultViewShowsAll | app/dashboard/reports/page.tsx:108-116 | an empty search with type "all" lists every report, in order |
| Reports.InitialViewShowsAllSamples | app/dashboard/reports/page.tsx:24-116 | on first render all five sample reports are listed |
| Reports.TypeFiltersPartition | app/dashboard/reports/page.tsx:113 | when every report is of type loan, user or payment, the counts under those three filters add up to the count under "all", for any search |
| Reports.SampleTypesAreOffered | app/dashboard/reports/page.tsx:24-99 | every sample report and template has one of the three offered types |
| Reports.TypeLabels | app/dashboard/reports/page.tsx:210-279 | the type label is the type capitalised: the three types are labelled "Loan", "User" and "Payment" |
| Reports.TypeColour | app/dashboard/reports/page.tsx:202-277 | the type pill is blue exactly for "loan", green exactly for "user" and purple for every other type |
| Reports.FormatCell | app/dashboard/reports/page.tsx:216-221 | the icon is a spreadsheet exactly for "xlsx" and a text icon otherwise; the format is shown in capitals |
| Reports.SampleFormats | app/dashboard/reports/page.tsx:24-221 | among the samples, exactly the payment reports are not spreadsheets |
| Text.IncludesIff | app/dashboard/reports/page.tsx:110-111 | `includes` holds exactly when the term occurs at some position of the string |
| Text.ToLower | app/dashboard/users/page.tsx:71-72 | `toLowerCase` keeps the length, maps each character to its lower-case form and leaves no upper-case letter |
| Text.CapitalizeFixedIff | app/dashboard/users/page.tsx:221 | capitalisation leaves a string unchanged exactly when it is empty or does not start with a lower-case letter |
| Text.Capitalize | app/dashboard/users/page.tsx:221 | `charAt(0).toUpperCase() + slice(1)` keeps the length, upper-cases the first character and keeps the rest |
| Text.ToLowerIdempotent | app/dashboard/loans/page.tsx:30 | lower-casing twice gives the same string as lower-casing once |
| Text.CapitalizeInjective | app/dashboard/loans/page.tsx:142-177 | two strings that start with a lower-case letter and capitalise alike are equal |
| Lists.FilterIsSubsequence | app/dashboard/loans/page.tsx:84 | `filter` returns an order-preserving subsequence of its input |
| Lists.FilterCounts | app/dashboard/loans/page.tsx:84 | `filter` keeps every copy of an element that passes the test and no copy of one that fails it |
| Lists.FindIndex | app/dashboard/installments/page.tsx:303 | `find` yields the first position whose element passes the test, or nothing when none does |
| Lists.ReplaceWhere | app/dashboard/users/page.tsx:108 | the `map` with a replace-if keeps the length, replaces every element that passes the test and keeps every other one |

## Left out

- Network I/O (axios GET, POST, PATCH, PUT and DELETE) is not modelled. Each handler takes the request's outcome as a parameter and returns what it would send. The per-loan user-name fetch and its "Unknown User" fallback become the `userName` field of `Loans.FetchedLoan`.
- Loans.TransformLoanData: `parseInt(amount, 10)` and the ISO date of `createdAt` are not modelled; the amount is taken as an integer and the date as a given string.
- Balance.NormaliseTransaction: the `Intl.NumberFormat` currency strings and the `toLocaleDateString` dates are not modelled (locale library behaviour); only `userName` and `formattedId` are.
- Balance.NormaliseBalance: the formatted `balance` and `updateAt` strings are not modelled, for the same reason.
- Balance.SortedTransactions: dates are given as integer timestamps, so `new Date(...).getTime()` and its NaN for unparsable dates are not modelled; amounts are integers.
- Balance.BalancePage.HandleSubmit: the request timestamp (`new Date()`) and `Number(amount)` are not modelled; the body carries the amount as typed. Axios rejects non-2xx responses, so a `Responded` outcome other than 201 stands for a 2xx status other than 201, which the page ignores.
- The `totalBalance` reduce over formatted strings and the stats cards are not modelled (string-number coercion and currency formatting).
- Case mapping covers ASCII letters only; JavaScript's full Unicode `toLowerCase`/`toUpperCase` is not modelled.
- Form-field setters, dialog open/close buttons, tab switches and the search and filter inputs are plain assignments to one field and are not modelled as methods; the classes expose those fields directly.
- Users.UsersPage.HandleEditUser: the edit form starts without an id (`editedUser` is None until a user is copied into it); the model says such a save replaces no user, because no user has an undefined id.
- JSX rendering, icons other than the badge and format icons, file import and export, the report generation and upload dialogs, and the payment method and date inputs are not modelled (presentation only).
- The dashboard layout's auth-token check, the login page, the settings page, the overview page's sample statistics and the chart stubs are not part of this model.
