# Inventory dashboard core, modelled in Dafny

The inventory dashboard is a React single-page application. Most of it is layout, but
under the components sit a few small stores, form validators and display rules. This
project models those in Dafny and proves what they promise:

- the notification store and the notifications page: mark read, mark all read, delete,
  clear, the unread view capped at five, the type filter and the unread count;
- the pagination bar: the "Showing x to y" bounds, the window of at most seven buttons
  with "..." gaps, and the prev/next guards;
- the global search store: a case-insensitive substring filter over three mock records,
  and blank queries;
- the orders table: filter chips, and the sort record that flips on every header click;
- `getRelativeTime`: floored buckets of an elapsed time in milliseconds;
- the sign-up, login and reset-password forms: their error maps, per-field clearing on
  edit, and the gate in front of the external call;
- the report service: the mock data lookup, the format dispatch, and the CSV export. The
  CSV text is proved to read back as its rows;
- the display rules of the stock page, the stock-details dialog, the activity dialog and
  the theme toggle.

Each source file is one module. A file whose handlers replace state fields becomes a
`class`, and each method's `ensures` ties the new state to a pure function of the old
state. The store files are `NotificationsContext.jsx`, `Notifications.jsx`,
`SearchContext.jsx`, `Orders.jsx`, the three auth forms and `ThemeContext.jsx`. The
imperative `validateForm` functions keep their step-by-step shape, and each is proved to
fill exactly the error map that a declarative definition describes. Pure files become
functions and lemmas.

Three helper modules hold what several files share:

- `Seqs` has order-preserving filtering and subsequences.
- `Text` has the JavaScript string operations used: the whitespace class of `trim` and
  `\s`, ASCII `toLowerCase`, `includes`, decimal rendering of integers, and `join` with
  its inverse `split`.
- `Validation` has the unanchored e-mail pattern `/\S+@\S+\.\S+/` and the error
  clearing of `handleChange`.

Nothing in the model reads a clock, storage or the network:

- the elapsed time is a parameter;
- browser storage is a `map` field;
- the outcomes of `signup`, `login` and `resetPassword` are boolean parameters;
- `formatDateShort` is a string parameter.

## Model

| member | source | states |
|---|---|---|
| NotificationsContext.MarkRead | src/context/NotificationsContext.jsx:18-24 | same length; each record becomes read exactly when its id matches, and nothing else about any record changes |
| NotificationsContext.MarkReadAbsent | src/context/NotificationsContext.jsx:18-24 | marking an id no record carries leaves the collection unchanged |
| NotificationsContext.MarkReadIdempotent | src/context/NotificationsContext.jsx:18-24 | marking the same id twice is marking it once |
| NotificationsContext.MarkReadLeavesUnreadView | src/context/NotificationsContext.jsx:18-24 | after marking an id read, no record with that id is in the unread view |
| NotificationsContext.MarkAllRead | src/context/NotificationsContext.jsx:26-30 | same length and order; every record becomes read with its other fields kept |
| NotificationsContext.MarkAllReadEmptiesUnreadView | src/context/NotificationsContext.jsx:26-30 | after mark-all-read the unread view is empty |
| NotificationsContext.WithoutId | src/context/NotificationsContext.jsx:32-36 | an order-preserving subsequence with no record of that id that keeps every other record; kept plus removed records add up to the old length |
| NotificationsContext.WithoutIdAbsent | src/context/NotificationsContext.jsx:32-36 | deleting an absent id changes nothing |
| NotificationsContext.UnreadView | src/context/NotificationsContext.jsx:42-44 | at most five records, exactly min(5, number unread); the leading prefix of the unread records in collection order, all unread, a subsequence of the collection |
| NotificationsContext.SixUnreadGiveFive | src/context/NotificationsContext.jsx:42-44 | with six unread records the view holds five |
| NotificationsContext.SeedUnreadView | src/constants/constants.js:162-191 | the seed list's unread view is records 1 and 3, in that order |
| NotificationsContext.NotificationsProvider.constructor | src/context/NotificationsContext.jsx:16 | the store starts from the constant seed list and reads no storage |
| NotificationsContext.NotificationsProvider.MarkAsRead | src/context/NotificationsContext.jsx:18-24 | the collection becomes `MarkRead` of the old one |
| NotificationsContext.NotificationsProvider.MarkAllAsRead | src/context/NotificationsContext.jsx:26-30 | the collection becomes `MarkAllRead` of the old one and the unread view is empty |
| NotificationsContext.NotificationsProvider.DeleteNotification | src/context/NotificationsContext.jsx:32-36 | the collection becomes `WithoutId` of the old one |
| NotificationsContext.NotificationsProvider.ClearAll | src/context/NotificationsContext.jsx:38-40 | the collection and the unread view are empty |
| NotificationsPage.FilteredItems | src/pages/Notifications/Notifications.jsx:119-121 | all items for "all"; otherwise an order-preserving subsequence holding exactly the items of the selected type, each as many times as in the items |
| NotificationsPage.UnreadCount | src/pages/Notifications/Notifications.jsx:123 | each item adds one exactly when it is unread; together with the read items the count makes up the whole list; zero exactly when every item is read |
| NotificationsPage.UnreadCountCoversFilter | src/pages/Notifications/Notifications.jsx:123 | the count covers all types: it is never below the unread records the filter shows |
| NotificationsPage.OffersMarkAllIffSomeUnread | src/pages/Notifications/Notifications.jsx:141-145 | "Mark all as read" is offered exactly when some row offers "Mark as read" |
| NotificationsPage.NotificationsPageState.constructor | src/pages/Notifications/Notifications.jsx:96-97 | the page starts with the seed list and the type "all" |
| NotificationsPage.NotificationsPageState.SelectType | src/pages/Notifications/Notifications.jsx:130-132 | sets the selected type and keeps the items |
| NotificationsPage.NotificationsPageState.HandleMarkAsRead | src/pages/Notifications/Notifications.jsx:99-105 | the items become `MarkRead` of the old ones; the selection is kept |
| NotificationsPage.NotificationsPageState.HandleDelete | src/pages/Notifications/Notifications.jsx:107-109 | the items become `WithoutId` of the old ones; the selection is kept |
| NotificationsPage.NotificationsPageState.HandleMarkAllAsRead | src/pages/Notifications/Notifications.jsx:111-113 | every item becomes read, and the mark-all button is no longer offered |
| NotificationsPage.NotificationsPageState.HandleClearAll | src/pages/Notifications/Notifications.jsx:115-117 | the items become empty and the empty-list message shows |
| PaginationWindow.PageNumbers | src/components/ui/Pagination.jsx:14 | exactly the numbers 1 to totalPages, and none for a non-positive count |
| PaginationWindow.StartItem | src/components/ui/Pagination.jsx:15 | the full pages before the current one precede the first item shown; at least 1 on an existing page |
| PaginationWindow.PagesAbut | src/components/ui/Pagination.jsx:15-16 | while a page does not reach the last item, the next page starts right after it ends |
| PaginationWindow.EndItem | src/components/ui/Pagination.jsx:16 | the smaller of currentPage * itemsPerPage and totalItems |
| PaginationWindow.ShowingBoundsOnPage | src/components/ui/Pagination.jsx:15-16 | on an existing page the bounds name a non-empty run of at most one page of items |
| PaginationWindow.ShowingBoundsEmptyList | src/components/ui/Pagination.jsx:15-16 | an empty list reads "Showing 1 to 0" |
| PaginationWindow.VisiblePages | src/components/ui/Pagination.jsx:18-38 | at most seven buttons; all pages when there are at most seven, else one of the three written-out windows |
| PaginationWindow.LongWindowEnds | src/components/ui/Pagination.jsx:21-37 | beyond seven pages the bar has exactly seven buttons, starting at page 1 and ending at the last page |
| PaginationWindow.WindowOrdered | src/components/ui/Pagination.jsx:18-38 | numbered buttons lie in 1..totalPages and strictly increase; adjacent numbers are consecutive pages; each gap hides at least one page |
| PaginationWindow.LongWindowOrdered | src/components/ui/Pagination.jsx:21-37 | the ordering facts for any seven-button bar of the long shapes |
| PaginationWindow.CurrentPageVisible | src/components/ui/Pagination.jsx:18-38 | an existing current page always has its own button |
| PaginationWindow.GapsOfTheWindow | src/components/ui/Pagination.jsx:18-38 | no gap in a short bar, one near either end of a long bar, two in the middle |
| PaginationWindow.ClickTarget | src/components/ui/Pagination.jsx:62-63 | a numbered button changes to its own page, and a gap does nothing |
| PaginationWindow.PrevDisabled | src/components/ui/Pagination.jsx:51 | on an existing page, the back arrow is disabled exactly when the previous page would be below 1 |
| PaginationWindow.NextDisabled | src/components/ui/Pagination.jsx:80 | on an existing page, the forward arrow is disabled exactly when the next page would be beyond the last |
| PaginationWindow.ControlsStayInRange | src/components/ui/Pagination.jsx:49-80 | on an existing page, enabled prev/next and every numbered button lead to a page in 1..totalPages |
| PaginationWindow.NextEnabledWithoutPages | src/components/ui/Pagination.jsx:78-80 | with zero pages, next stays enabled on page 1 while prev is disabled |
| SearchContext.MatchingItems | src/context/SearchContext.jsx:29-35 | an order-preserving subsequence of the three mock records, holding exactly those whose lower-cased title contains the lower-cased query, each as many times as in the list |
| SearchContext.MatchingIgnoresCase | src/context/SearchContext.jsx:33-35 | a query and its lower-cased form find the same records |
| SearchContext.EmptyQueryIsBlank | src/context/SearchContext.jsx:21-24 | the empty query is blank, although it would match every title |
| SearchContext.SearchJohn | src/context/SearchContext.jsx:29-35 | "john" finds only the customer record |
| SearchContext.SearchSpaceJohn | src/context/SearchContext.jsx:21-35 | " john" is not blank, yet finds nothing: matching uses the untrimmed query |
| SearchContext.SearchProvider.constructor | src/context/SearchContext.jsx:15-17 | empty query, no results, not searching |
| SearchContext.SearchProvider.HandleSearch | src/context/SearchContext.jsx:19-43 | the raw query is stored; a blank query empties the results and leaves the busy flag alone; any other query stores the matching records and ends not searching |
| SearchContext.SearchProvider.ClearSearch | src/context/SearchContext.jsx:45-48 | empties query and results and leaves the busy flag alone |
| OrdersPage.Flip | src/pages/Orders/Orders.jsx:59 | the direction always changes |
| OrdersPage.Toggled | src/pages/Orders/Orders.jsx:56-61 | the new column is the clicked one and the direction differs from the previous one, whatever column was sorted |
| OrdersPage.ToggleTwiceRestoresDirection | src/pages/Orders/Orders.jsx:56-61 | two clicks on any columns restore the direction; two on the same column restore the record |
| OrdersPage.NewColumnKeepsFlipping | src/pages/Orders/Orders.jsx:56-61 | from the initial record, a click on "customer" sorts it descending |
| OrdersPage.WithoutFilter | src/pages/Orders/Orders.jsx:52-54 | no equal chip remains, the others stay in order as a subsequence, and an absent chip changes nothing |
| OrdersPage.ClearAfterApply | src/pages/Orders/Orders.jsx:48-54 | clearing a chip just applied equals clearing it from the chips before |
| OrdersPage.ClearKeepsOtherCounts | src/pages/Orders/Orders.jsx:52-54 | every other chip keeps its multiplicity |
| OrdersPage.HeaderKeys | src/pages/Orders/Orders.jsx:111-115 | the header keys are "order id", "customer", "status", "date", "amount" |
| OrdersPage.ClickedHeaderAloneShowsArrow | src/pages/Orders/Orders.jsx:111-125 | after a header click, exactly that header shows the arrow |
| OrdersPage.InitialArrow | src/pages/Orders/Orders.jsx:119-125 | initially only "Date" shows an arrow, and it points up |
| OrdersPage.RenderedRows | src/pages/Orders/Orders.jsx:134-142 | the seed rows in seed order whatever the sort record and the chips; none while loading |
| OrdersPage.OrdersPageState.constructor | src/pages/Orders/Orders.jsx:10-17 | sort by date ascending, no chips, no selection, drawer closed, not loading |
| OrdersPage.OrdersPageState.ApplyFilter | src/pages/Orders/Orders.jsx:48-50 | the chip is appended, duplicates kept, and the length grows by one; the rest of the state is unchanged |
| OrdersPage.OrdersPageState.ClearFilter | src/pages/Orders/Orders.jsx:52-54 | the chips become `WithoutFilter`; the rest of the state is unchanged |
| OrdersPage.OrdersPageState.ToggleSortOrder | src/pages/Orders/Orders.jsx:56-61 | the sort record becomes `Toggled`; the rest of the state is unchanged |
| OrdersPage.OrdersPageState.ClickHeader | src/pages/Orders/Orders.jsx:115 | toggles on the lower-cased label, after which that header shows the arrow |
| OrdersPage.OrdersPageState.HandleRowClick | src/pages/Orders/Orders.jsx:43-46 | selects the row and opens the drawer |
| OrdersPage.OrdersPageState.CloseDrawer | src/pages/Orders/Orders.jsx:186 | closes the drawer and keeps the selection |
| FormatDate.Bucket | src/utils/formatDate.js:25-41 | exactly one branch for every elapsed time, by its range (negative times are "Just now"); each count is the floored quotient and lies in its range, days up to 7 inclusive |
| FormatDate.RelativeTimeText | src/utils/formatDate.js:22-42 | the short date beyond seven days; "Just now" under a minute |
| FormatDate.BucketMonotone | src/utils/formatDate.js:26-41 | an older date never lands in a younger branch, and within a branch its count is not smaller |
| FormatDate.TextNamesItsBranch | src/utils/formatDate.js:33-39 | a relative text ends in "m ago", "h ago" or "d ago" by its branch, and its number reads back as the bucket's count |
| FormatDate.RelativeTimeExamples | src/utils/formatDate.js:22-42 | 90 s is "1m ago"; 59.999 s and the future are "Just now"; exactly 7 days and just under 8 are "7d ago"; 8 days is the short date |
| Validation.EmailError | src/pages/Auth/SignUp.jsx:35-39 | no message exactly when the pattern matches; "Email is required" for the empty address, else "Email is invalid" |
| Validation.EmailPattern | src/pages/Auth/SignUp.jsx:37 | a match needs at least five characters, with an `@` after the first and a `.` at least two places after it that is not the last character |
| Validation.EmailPatternUnanchored | src/pages/Auth/SignUp.jsx:37 | any text around a matching address still matches |
| Validation.EmailPatternExamples | src/pages/Auth/Login.jsx:28 | "user@example.com" and "a b@c.d" match; "", "user@example" and "a@.c" do not |
| Validation.ClearError | src/pages/Auth/SignUp.jsx:81-86 | same keys; the edited field's error is no longer shown, every other entry is kept, and nothing changes when no error was shown |
| Validation.ClearErrorIdempotent | src/pages/Auth/Login.jsx:62-67 | clearing twice is clearing once |
| SignUp.NameRule | src/pages/Auth/SignUp.jsx:31-33 | a message exactly for an empty name, and that message is "Name is required" |
| SignUp.PasswordRule | src/pages/Auth/SignUp.jsx:41-45 | a message exactly for a password shorter than six characters: "Password is required" when it is empty, "Password must be at least 6 characters" otherwise |
| SignUp.ConfirmRule | src/pages/Auth/SignUp.jsx:47-51 | a message exactly for an empty or different confirmation: "Please confirm your password" when it is empty, "Passwords do not match" otherwise |
| SignUp.FieldError | src/pages/Auth/SignUp.jsx:29-51 | for each field, a message exactly when its rule fails, with the message text of each failing case; the e-mail rule by key; no message for any other key |
| SignUp.SignUpErrors | src/pages/Auth/SignUp.jsx:29-52 | the map has an entry exactly for each field whose rule fails, holding that rule's message |
| SignUp.SignUpValidIff | src/pages/Auth/SignUp.jsx:29-55 | the map is empty exactly when the name is given, the address matches, the password has at least six characters and the confirmation equals it |
| SignUp.FieldsIndependent | src/pages/Auth/SignUp.jsx:29-51 | editing a field that a rule does not read leaves that rule's message unchanged |
| SignUp.SignUpExamples | src/pages/Auth/SignUp.jsx:29-51 | a complete form passes; "12345" is too short; a mismatch and a missing confirmation get their messages |
| SignUp.SignUpForm.constructor | src/pages/Auth/SignUp.jsx:21-27 | four empty fields, no errors |
| SignUp.SignUpForm.ValidateForm | src/pages/Auth/SignUp.jsx:29-56 | the map filled step by step is `SignUpErrors` of the form; the result is true exactly when it is empty |
| SignUp.SignUpForm.HandleChange | src/pages/Auth/SignUp.jsx:72-87 | writes the named field only, and applies `ClearError` to that field |
| SignUp.SignUpForm.HandleSubmit | src/pages/Auth/SignUp.jsx:58-70 | `signup` gets (email, password, name) exactly when the form passes; the toast and "/login" only on its success |
| Login.FieldError | src/pages/Auth/Login.jsx:24-34 | the e-mail rule, and a password message exactly for an empty password, reading "Password is required" |
| Login.LoginErrors | src/pages/Auth/Login.jsx:24-36 | an entry exactly for each failing field, holding its message |
| Login.LoginValidIff | src/pages/Auth/Login.jsx:24-37 | the map is empty exactly when the address matches and a password is given |
| Login.ShortPasswordAccepted | src/pages/Auth/Login.jsx:32-34 | there is no length rule: a one-character password passes |
| Login.FieldsIndependent | src/pages/Auth/Login.jsx:24-34 | editing one field never changes the other field's message |
| Login.LoginForm.constructor | src/pages/Auth/Login.jsx:18-22 | two empty fields, no errors |
| Login.LoginForm.ValidateForm | src/pages/Auth/Login.jsx:24-38 | the map filled step by step is `LoginErrors`; the result is true exactly when it is empty |
| Login.LoginForm.HandleChange | src/pages/Auth/Login.jsx:53-68 | writes the named field only, and applies `ClearError` to that field |
| Login.LoginForm.HandleSubmit | src/pages/Auth/Login.jsx:40-51 | `login` is called exactly when the form passes, and each outcome gets its toast |
| ResetPassword.ResetPasswordForm.constructor | src/pages/Auth/ResetPassword.jsx:13-15 | empty address, no error, not submitted |
| ResetPassword.ResetPasswordForm.ValidateForm | src/pages/Auth/ResetPassword.jsx:17-29 | true exactly for a matching address, with the error left as it was; otherwise the first failing rule's message |
| ResetPassword.ResetPasswordForm.HandleSubmit | src/pages/Auth/ResetPassword.jsx:31-42 | `resetPassword` is called exactly for a matching address; `isSubmitted` is set only on its success; each outcome gets its toast |
| ResetPassword.ResetPasswordForm.HandleChange | src/pages/Auth/ResetPassword.jsx:44-47 | takes the new address and blanks the error |
| ReportService.GetReportData | src/services/reportService.js:22-47 | the sales record for "sales", nothing for any other own key of the table |
| ReportService.SalesSummaryConsistent | src/services/reportService.js:27-37 | total orders and total revenue are the sums of the rows; the average is their floored quotient |
| ReportService.CsvLine | src/services/reportService.js:167-168 | the date, the order count and the raw revenue, joined by commas as the template literal writes them |
| ReportService.CsvContent | src/services/reportService.js:166-169 | the empty text for no rows, and a single row's line alone |
| ReportService.GenerateReport | src/services/reportService.js:6-20 | with the currency formatter available: "Unsupported format" exactly for formats other than pdf, excel and csv; a known format fails exactly on a type without data; otherwise the document of that format, CSV carrying the sales rows' text |
| ReportService.GenerateReportAsWritten | src/services/reportService.js:4-169 | as written, PDF and spreadsheet requests for the sales record fail exactly then, calling the undefined `formatCurrency`; no PDF or spreadsheet is ever produced; every other request behaves as the intended dispatch |
| ReportService.SalesPdfFails | src/services/reportService.js:87-98 | a sales PDF or spreadsheet without summary fails as written and is produced as intended |
| ReportService.CsvLineRoundTrip | src/services/reportService.js:167-168 | a line without a comma or newline in its date splits back into its date, orders and revenue |
| ReportService.CsvRoundTrip | src/services/reportService.js:166-169 | the CSV text of a non-empty list of plain-dated rows reads back as those rows in order |
| ReportService.EmptyCsvReadsAsBlankLine | src/services/reportService.js:166-169 | no rows give the empty text, which does not read back as a list of rows |
| ReportService.CsvReportReadsBack | src/services/reportService.js:15-16 | every CSV report produced reads back as the details of the record it came from |
| ReportService.SalesDatesPlain | src/services/reportService.js:33-37 | the mock rows exist and their dates carry no comma or newline |
| StockPage.LowStockAlerts | src/pages/Stock/Stock.jsx:66-68 | an order-preserving subsequence holding exactly the products whose stock is below the threshold, each as many times as in the table |
| StockPage.RowClass | src/pages/Stock/Stock.jsx:113-117 | the highlight class exactly for a product below its threshold, no class otherwise |
| StockPage.ShowsLowBadge | src/pages/Stock/Stock.jsx:124-128 | the "Low" badge exactly for a product below its threshold |
| StockPage.AlertsRowsAndBadgesAgree | src/pages/Stock/Stock.jsx:66-128 | a product has an alert exactly when its row is highlighted, and exactly when it shows the "Low" badge |
| StockPage.ThresholdIsStrict | src/pages/Stock/Stock.jsx:67 | stock equal to the threshold is not low |
| StockPage.SeedAlerts | src/pages/Stock/Stock.jsx:26-48 | with the seed products, p001 and p003 are low and p002 is not |
| StockDetails.BadgeVariant | src/components/StockDetails.jsx:28 | "warning" exactly for "Low Stock", else "success" |
| StockDetails.OptimalStock | src/components/StockDetails.jsx:50 | the optimal stock when set and non-zero, else twice the reorder point |
| StockDetails.OrElse | src/components/StockDetails.jsx:106-114 | the placeholder exactly for a missing, empty or placeholder-equal value; otherwise the value |
| StockDetails.MovementRow | src/components/StockDetails.jsx:66-88 | up arrow, "Stock Added" and "+" exactly for "increase"; otherwise down arrow, "Stock Removed" and "-" |
| StockDetails.MovementAmountReadsBack | src/components/StockDetails.jsx:87 | the amount text is the sign, the quantity that reads back, and " units" |
| StockDetails.RenderStockDetails | src/components/StockDetails.jsx:7-118 | nothing exactly without an item; the name and SKU; the badge of the status; the optimal-stock fallback; one row per movement, in order; the note exactly when there are no rows; "Not specified" and "Not available" for a missing or empty location and update time |
| StockDetails.NoMovementsNoteIff | src/components/StockDetails.jsx:91-95 | the note shows exactly when the history is absent or empty |
| StockDetails.RenderStockDetailsAsWritten | src/components/StockDetails.jsx:81-86 | as written, rendering fails exactly when there is at least one movement row; otherwise it agrees with the intended dialog |
| StockDetails.SingleMovementFails | src/components/StockDetails.jsx:81-87 | one "increase" of 3 fails as written, but reads "Stock Added", "+3 units" as intended |
| ActivityDetails.ActivityIcon | src/components/ActivityDetails.jsx:13-24 | distinct icons exactly for "Order", "Stock" and "User", case-sensitively; the default for anything else |
| ActivityDetails.StatusColor | src/components/ActivityDetails.jsx:26-37 | completed to success, pending to warning, failed to error, anything else to default, in both directions |
| ActivityDetails.DetailLabel | src/components/ActivityDetails.jsx:43-54 | the display name of a known key, else the key itself |
| ActivityDetails.FormatEntry | src/components/ActivityDetails.jsx:53-58 | the label, and an amount form exactly for a number under "amount"; otherwise the value's text |
| ActivityDetails.FormatDetails | src/components/ActivityDetails.jsx:39-59 | nothing for absent details; otherwise one entry per detail, in order |
| ActivityDetails.AmountRuleNeedsBoth | src/components/ActivityDetails.jsx:55-57 | a text "amount" and a number under another key are shown as plain text |
| ActivityDetails.DetailLookup | src/components/ActivityDetails.jsx:65-68 | the value of the first detail with that key; some value exactly when a detail has the key |
| ActivityDetails.HandleNavigate | src/components/ActivityDetails.jsx:61-76 | closes first, then routes on the lower-cased type: orders and stock with their highlight id, user to settings, else dashboard |
| ActivityDetails.IconCaseSensitiveRouteNot | src/components/ActivityDetails.jsx:13-65 | "ORDER" gets the default icon yet leads to "/orders" |
| ActivityDetails.RenderActivity | src/components/ActivityDetails.jsx:9-172 | nothing exactly without an activity; the icon, the badge, the formatted details exactly when present, and the button label |
| ThemeContext.InitialTheme | src/context/ThemeContext.jsx:6 | a non-empty stored theme is used, else "light" |
| ThemeContext.NextTheme | src/context/ThemeContext.jsx:9 | "dark" exactly from "light"; "light" from everything else |
| ThemeContext.ToggleTwice | src/context/ThemeContext.jsx:9 | two toggles restore the theme exactly for "light" and "dark" |
| ThemeContext.ToggleSettles | src/context/ThemeContext.jsx:9 | one toggle always reaches light or dark, and toggling then cycles between them |
| ThemeContext.ThemeProvider.constructor | src/context/ThemeContext.jsx:6-17 | the theme read from storage, with the body class following it |
| ThemeContext.ThemeProvider.ToggleTheme | src/context/ThemeContext.jsx:8-17 | the theme is toggled and written to storage under "theme"; the body carries "dark" exactly for "dark" |
| Text.Trim | src/context/SearchContext.jsx:21 | empty exactly for an all-whitespace string; otherwise no whitespace at either end |
| Text.TrimIsSlice | src/context/SearchContext.jsx:21 | the trimmed string is a slice of the string with only whitespace before and after it |
| Text.ToLower | src/context/SearchContext.jsx:34 | same length, each character lower-cased, no upper-case letter left |
| Text.IntToString | src/utils/formatDate.js:34 | non-empty digits with a leading minus exactly for negative numbers |
| Text.IntToStringRoundTrip | src/services/reportService.js:168 | a rendered integer reads back as itself |
| Text.SplitJoin | src/services/reportService.js:169 | splitting a join of separator-free lines gives the lines back |

## Left out

- The asynchronous parts and timing are left out: `async`/`await`, the simulated report
  fetch, React's batching of state updates, and `useCallback`. Each operation is modelled
  as one atomic step. As a result, the intermediate `isSearching = true` of `handleSearch`
  is a step the model passes through but cannot observe.
- SearchContext.SearchProvider.HandleSearch: the `catch` branch that empties the results is
  not modelled, because the filter over the fixed list cannot throw.
- Browser I/O is left out: `localStorage` is a map field and `document.body` a boolean.
  The network calls `signup`, `login` and `resetPassword` become their outcome as a
  parameter. Navigation and toasts are returned values.
- The notification store is not persisted: it starts from the constant seed list and
  never reads or writes storage.
- `formatDate` and `formatDateShort` are left out because they use `toLocaleDateString`.
  The short date is a parameter of `RelativeTimeText`.
- Date parsing is left out: the elapsed time is a parameter in milliseconds. An invalid
  date gives `NaN` in the source, and neither the model nor this README covers that.
- The PDF and spreadsheet builders (jsPDF, ExcelJS, the Blob download) are left out
  because they are foreign libraries and DOM I/O. They appear only as the kind of
  document produced.
- ReportService.GenerateReport: this is the dispatch with `formatCurrency` available, as
  the builders evidently intend. `GenerateReportAsWritten` models the file as written; see
  "## Findings".
- ReportService.GenerateReportAsWritten: the binding `formatCurrency` is read as
  `undefined`, as a bundler that tolerates a missing export leaves it. Under strict ES
  module linking, the import of a name `src/utils/formatNumber.js` does not export is a
  `SyntaxError`. Then nothing in the file runs, not even the CSV branch or the
  "Unsupported format" error. That stricter reading is not modelled.
- ReportService.GetReportData: keys inherited from `Object.prototype`, such as
  `toString`, are not modelled. The source looks them up and gets a function, not a
  record, and the builders then fail on its missing `details`. The model
  reports those types as having no data, which also fails.
- ReportService.EmptyCsvReadsAsBlankLine: the empty text does not read back as an empty
  row list, because splitting gives one blank line. The round trip is proved for
  non-empty lists only.
- ActivityDetails.FormatEntry: the shilling amount is recorded as the dollar value. The
  conversion `value * 3700` with `toLocaleString` is floating point and locale formatting.
- ActivityDetails.DetailLabel: the lookup ignores keys inherited from `Object.prototype`,
  such as `constructor`, which the source would resolve to a function.
- ActivityDetails.FormatDetails: the details are a list of entries in the order
  `Object.entries` yields them. Non-integer numbers and values other than numbers and
  strings are not modelled.
- Text.ToLower: lowers ASCII letters only; JavaScript's full Unicode case mapping is not
  modelled.
- SignUp.PasswordRule: the length is counted in Dafny characters (code points), not
  JavaScript's UTF-16 code units, so the two differ for characters outside the Basic
  Multilingual Plane.
- The forms check every value as a string. A field missing from `formData` reads as the
  empty string, as `undefined` is falsy.
- OrdersPage.OrdersPageState.ClearFilter: `clearFilter` filters the `filters` value
  captured by the render rather than the latest state. In the model's one-step-at-a-time
  reading the two coincide.
- `loading` in the orders page is never set to true by the source; the model keeps the
  flag so the loading branch of the table can be stated.
- UI-only state is left out: show/hide password, the order and restock drawers' contents,
  motion and styling. Props validation (`PropTypes`) is left out too.
- NotificationsPage: `Notifications.jsx` assigns `NotificationItem.propTypes` with
  `PropTypes.shape(...)` at module level (lines 81-93), but the file never imports
  `PropTypes`. Evaluating the module throws a `ReferenceError`, and `App.jsx` imports the page
  statically, so as written the page never renders. The model describes the page as
  evidently intended, with `PropTypes` imported.
- The caption of the low-stock alert buttons and the text of their warning toast are plain
  string templates over the product's name. They are not modelled.
- Text.IntToString: JavaScript numbers are doubles. The model renders every integer in
  plain decimal digits. It does not model the exponent form that JavaScript uses from
  10^21 on, and it does not model the loss of exactness above 2^53. The source's integers
  (counts, ids, amounts in shillings) stay far below both.
- StockDetails.RenderStockDetails: the current, reorder and optimal stock figures are
  kept as integers. Their thousands separators from `formatNumberWithComma` are locale
  formatting and are not modelled.

## Findings

| source | as written | input that shows it | evidently intended | confidence | as-written member | corrected member |
|---|---|---|---|---|---|---|
| src/services/reportService.js:93 | the module imports `formatCurrency` from `../utils/formatNumber`, which exports only `formatNumberWithComma`, and the PDF and spreadsheet builders call it on every detail row's revenue (lines 93 and 145), so they throw a `TypeError` | `{type: "sales", format: "pdf", includeSummary: false}` | a currency formatter exported and imported, and the sales document produced | not executed | ReportService.GenerateReportAsWritten, ReportService.SalesPdfFails | ReportService.GenerateReport |
| src/components/StockDetails.jsx:81 | the amount's class name is computed with `cn(...)`, but the file never imports `cn`, so rendering any movement row throws a `ReferenceError` | an item with one movement `{type: "increase", quantity: 3}` | `cn` imported from `../utils/cn`, as `Pagination.jsx` does, and the row shown as "Stock Added", "+3 units" | not executed | StockDetails.RenderStockDetailsAsWritten, StockDetails.SingleMovementFails | StockDetails.RenderStockDetails |
