# SeaweedTrade control platform: trade session, portals and clocks

This project models the logic inside the SeaweedTrade React front end and
proves properties about it. It covers five parts:

- **The session store** (`App`). It holds two ordered collections, the
  harvest batches and the orders. Three handlers replace them: `onNewBatch`
  appends a batch, `onBuy` marks a batch SOLD and appends a PAID order, and
  `onUpdateStatus` restamps an order. The farmer, buyer and logistics
  portals each receive a filtered view of the store.
- **The admin dashboard** (`AdminDashboard`). `approveBatch` stamps grade A
  and price 12.5 on a batch. The approval queue lists the PENDING batches.
- **The farmer portal** (`FarmerPortal`). It has a harvest history with
  search, status chips, sorting by date, weight or grade, and pages of six.
  It also has a three-step "New Harvest" wizard that hands a PENDING batch
  to the store.
- **The buyer portal** (`BuyerPortal`). It shows the approved inventory
  filtered by species, in pages of four, with a purchase button.
- **The clocks** (`Clock`, `EnglishTimer`, `BanglaTimer`). Both clocks show
  a 12-hour time. The Bangla clock writes every digit as a Bengali digit.

Shared modules model the JavaScript built-ins the code relies on:

- `JsArrays`: `map`, `filter`, `find`, `slice` with clamped indices, and a
  stable `sort` driven by a comparator;
- `JsStrings`: ASCII `toLowerCase`, `includes`, integer `toString` and
  `padStart`;
- `Pagination`: `Math.ceil(n / perPage)` pages, the page slice, and the
  clamped Prev and Next buttons.

State that the code updates in place is a Dafny class whose fields its
methods reassign:
- `App.SessionStore` (batches and orders);
- `FarmerPortal.FarmerPortalState` (the modal, the wizard step, the form,
  the analysis, search, filter, sort and page);
- `BuyerPortal.BuyerPortalState` (search, payment banner and page).

Expressions become functions, each paired with lemmas about it.

Inputs the code draws from the outside world are parameters:
- the generated batch id and the random order-id suffix;
- today's date;
- the analysis reply of the LLM service, as `Option<Analysis>`;
- the date parser behind `new Date(...).getTime()` and `localeCompare`,
  both used only for sorting;
- the time of day the clocks display.

Three behaviours of the code shape the lifecycle:
- The `onBuy` and `approveBatch` handlers do not check the batch's status.
  Buying a batch that is not APPROVED still marks it SOLD and appends an
  order. Approving a SOLD batch moves it back to APPROVED
  (`AdminDashboard.UnguardedApproveCanMoveBackward`). The only status guards
  are in the views: the buyer sees only APPROVED batches and the admin queue
  only PENDING ones. The guarded compositions are proved separately:
  `App.GuardedBuyMovesForward`, `BuyerPortal.PurchaseFromPage`,
  `AdminDashboard.GuardedApproveMovesForward` and
  `AdminDashboard.ValidateRow`.
- A missing analysis, or one without a grade, gives the grade `N/A`.
- `onBuy` reads the order amount from the batches as the component last
  rendered them, not from the store it is updating. The model takes both to
  be the store before the purchase.

## Model

| member | source | states |
|---|---|---|
| Types.ParseRole | types.ts:2-7 | a string names a role exactly when it is FARMER, BUYER, LOGISTICS or ADMIN |
| Types.RoleValueRoundTrip | types.ts:2-7 | each of the four roles has its own name as string value, and parsing that value gives the role back |
| Types.ParseBatchStatus | types.ts:15 | a string is a batch status exactly when it is PENDING, APPROVED, SOLD or SHIPPED, and the status's literal is that string |
| Types.BatchStatusRoundTrip | types.ts:15 | every batch status is recovered from its literal |
| Types.ParseOrderStatus | types.ts:25 | a string is an order status exactly when it is PENDING, PAID, SHIPPED or DELIVERED, and the status's literal is that string |
| Types.OrderStatusRoundTrip | types.ts:25 | every order status is recovered from its literal |
| Types.BatchRank | types.ts:15 | the lifecycle position of a status is one of four, 0 exactly for PENDING |
| Types.LifecycleOrder | types.ts:15 | the positions run PENDING < APPROVED < SOLD < SHIPPED, and two statuses share a position only when they are equal |
| JsArrays.Map | App.tsx:411 | `map` keeps the length and applies the function at every index |
| JsArrays.Filter | App.tsx:409-421 | `filter` is no longer than its input and keeps only elements of the input that pass |
| JsArrays.FilterIsSubsequence | App.tsx:409-421 | `filter` keeps its survivors in input order (a subsequence) |
| JsArrays.FilterMembership | App.tsx:409-421 | an element is in the filtered list exactly when it is in the input and passes |
| JsArrays.FilterAppend | App.tsx:409 | filtering a concatenation is concatenating the filtered parts |
| JsArrays.FilterKeepsAll | components/BuyerPortal.tsx:27-31 | when every element passes, `filter` returns the input itself |
| JsArrays.FilterEmpty | components/AdminDashboard.tsx:146 | the filtered list is empty exactly when no element passes |
| JsArrays.FilterFilter | components/FarmerPortal.tsx:55-60 | filtering twice is filtering once by both predicates |
| JsArrays.Find | App.tsx:416 | `find` returns nothing exactly when no element passes, and otherwise the element at the first index that passes |
| JsArrays.ClampIndex | components/FarmerPortal.tsx:78-81 | a `slice` bound is resolved into 0..length: an in-range bound is kept, a bound past the end becomes the length, a negative bound counts from the end, and one before the start becomes 0 |
| JsArrays.Slice | components/FarmerPortal.tsx:78-81 | `slice` is never longer than its input, is the plain subrange for in-range bounds, and is empty when an in-range end is not after the start |
| JsArrays.Insert | components/FarmerPortal.tsx:62-72 | one insertion step of the sort adds exactly the inserted element (a permutation) |
| JsArrays.Sort | components/FarmerPortal.tsx:62-72 | the sorted list is a permutation of its input |
| JsArrays.InsertSorted | components/FarmerPortal.tsx:62-72 | inserting into a list sorted by a total, transitive comparator keeps it sorted |
| JsArrays.SortSorted | components/FarmerPortal.tsx:62-72 | for a total, transitive comparator the result is sorted: every earlier element compares at most 0 to every later one |
| JsStrings.LowerChar | components/FarmerPortal.tsx:56-57 | `toLowerCase` on one character maps A..Z to a..z and keeps every other character |
| JsStrings.Lower | components/FarmerPortal.tsx:56-57 | `toLowerCase` keeps the length and lowercases each character |
| JsStrings.LowerIdempotent | components/BuyerPortal.tsx:29 | lowercasing twice is lowercasing once |
| JsStrings.Includes | components/BuyerPortal.tsx:29 | `includes` as a definition: the term is a prefix of the text or is included in its tail; `IncludesAt` characterizes it |
| JsStrings.IncludesAt | components/BuyerPortal.tsx:29 | `includes` holds exactly when the term occurs at some position of the text |
| JsStrings.IncludesEmpty | components/BuyerPortal.tsx:29 | every text includes the empty term |
| JsStrings.DigitChar | components/EnglishTimer.tsx:60 | a digit value 0..9 becomes the ASCII digit with that value |
| JsStrings.Digits | components/EnglishTimer.tsx:60 | `toString` of a non-negative integer is a non-empty string of ASCII digits with no leading zero, one digit exactly below 10 |
| JsStrings.DigitsRoundTrip | components/EnglishTimer.tsx:60 | the decimal digits of `n` read back as `n` |
| JsStrings.DecimalString | components/EnglishTimer.tsx:60 | `toString` of a non-negative integer is a non-empty string of ASCII digits with no leading zero that reads back as the number; of a negative one, a minus sign followed by such digits reading back as its magnitude |
| JsStrings.Repeat | components/EnglishTimer.tsx:60 | the padding run has the requested length and holds only the fill character |
| JsStrings.PadStart | components/EnglishTimer.tsx:60 | `padStart` reaches the target length or keeps a longer string, keeps the string as its suffix, and fills only on the left |
| Pagination.TotalPages | components/FarmerPortal.tsx:77 | `Math.ceil(n / perPage)` is the fewest pages of `perPage` items holding `n` items, and is 0 exactly for an empty list |
| Pagination.PageItems | components/FarmerPortal.tsx:78-81 | a page never has more than `perPage` items, and has exactly `perPage` items when the list reaches the page's end |
| Pagination.PagesThroughIsPrefix | components/FarmerPortal.tsx:77-81 | pages 1..k concatenated are the first k·perPage items |
| Pagination.PagesCoverList | components/FarmerPortal.tsx:77-81 | pages 1..totalPages concatenated are the whole list: no item is lost or repeated |
| Pagination.ItemOnPage | components/FarmerPortal.tsx:77-81 | item i appears at position i mod perPage of page i div perPage + 1, which is a valid page |
| Pagination.PrevPage | components/FarmerPortal.tsx:321 | Prev never goes below 1, and steps back by one from page 2 upwards |
| Pagination.NextPage | components/FarmerPortal.tsx:333 | Next never goes past totalPages: it steps forward by one below totalPages and gives totalPages from totalPages on, including a page left beyond a shrunken list |
| Pagination.NavigationStaysInRange | components/BuyerPortal.tsx:143-172 | from a page in 1..totalPages, Prev and Next stay in that range and stop at the ends |
| App.SessionStore.constructor | App.tsx:138-146 | the session starts with the three fixture batches and the one fixture order |
| App.SessionStore.NewBatch | App.tsx:409 | `onNewBatch` appends exactly one batch, with the given id and farmer F1, after all earlier batches unchanged; orders are unchanged |
| App.SessionStore.Buy | App.tsx:410-420 | `onBuy` marks the batches with that id SOLD and appends one PAID order for `CURRENT_BUYER` with that batch id and the batch's weight as amount |
| App.SessionStore.UpdateOrderStatus | App.tsx:421-423 | `onUpdateStatus` restamps the orders with that id and leaves the batches alone |
| App.SessionStore.ConfirmShipment | components/LogisticsPortal.tsx:33-78 | Confirm Shipment on a row of the logistics view sends SHIPPED for that order, which leaves the view while every other row stays, in order |
| App.Registered | App.tsx:409 | definition: `{ ...b, id, farmerId: 'F1' }`; `FarmerViewAfterNewBatch` and `SubmittedBatchInFarmerView` state its effect |
| App.MarkSold | App.tsx:411 | definition: the `prev.map` of `onBuy`; `BuyChangesOnlyTarget` and `BuyerViewAfterBuy` state its effect |
| App.AmountFor | App.tsx:416 | definition: `find(...)?.weight \|\| 0`; `AmountIsFirstMatchWeight` and `AmountWithoutMatch` state its value |
| App.SetOrderStatus | App.tsx:422 | definition: the `prev.map` of `onUpdateStatus`; `UpdateStatusChangesOnlyTarget` states its effect |
| App.FarmerView | App.tsx:409 | definition: the farmer portal's `filter`; `FarmerViewExact` characterizes it |
| App.BuyerView | App.tsx:410 | definition: the buyer portal's `filter`; `BuyerViewExact` characterizes it |
| App.LogisticsView | App.tsx:421 | definition: the logistics portal's `filter`; `LogisticsViewExact` characterizes it |
| App.FarmerViewExact | App.tsx:409 | the farmer view holds exactly F1's batches, in store order |
| App.FarmerViewAfterNewBatch | App.tsx:409 | a newly created batch always appears, last, in the farmer view |
| App.BuyerViewExact | App.tsx:410 | the buyer view holds exactly the APPROVED batches, in store order |
| App.BuyerViewAfterBuy | App.tsx:410-411 | after buying an id, the buyer view is the old one without the batches of that id |
| App.BuyChangesOnlyTarget | App.tsx:411 | buying keeps the batch count, turns only the batches with that id SOLD and changes nothing else about them or any other batch |
| App.AmountIsFirstMatchWeight | App.tsx:416 | the order amount is the weight of the first batch with that id |
| App.AmountWithoutMatch | App.tsx:416 | with no batch of that id the order amount is 0 |
| App.BuyUnknownId | App.tsx:410-419 | buying an id that no batch has leaves the batches unchanged and records amount 0 |
| App.GuardedBuyMovesForward | App.tsx:410-411 | buying a batch from the buyer view (ids unique) moves it from APPROVED to SOLD, and no batch moves backwards in the lifecycle |
| App.LogisticsViewExact | App.tsx:421 | the logistics view holds exactly the PAID orders, in store order |
| App.UpdateStatusChangesOnlyTarget | App.tsx:422 | the order count is kept, the orders with that id get the new status only, and all others are unchanged |
| App.LogisticsViewAfterStatusUpdate | App.tsx:421-423 | a status other than PAID takes exactly the orders of that id out of the logistics view |
| AdminDashboard.Approve | components/AdminDashboard.tsx:38 | definition: the `prev.map` of `approveBatch`; `ApproveEffect`, `ApproveUnknownId` and `ApproveIdempotent` state its effect |
| AdminDashboard.PendingQueue | components/AdminDashboard.tsx:129 | definition: the queue's `filter`; `PendingQueueExact` characterizes it |
| AdminDashboard.ShowsEmptyQueueRow | components/AdminDashboard.tsx:146 | the empty-queue row is shown exactly when no batch is PENDING |
| AdminDashboard.ApproveBatch | components/AdminDashboard.tsx:37-39 | `approveBatch` replaces the batches by their approved form and leaves the orders alone |
| AdminDashboard.ValidateRow | components/AdminDashboard.tsx:129-142 | Validate on a queue row approves that batch, which leaves the queue while every other row stays, in order |
| AdminDashboard.ApproveEffect | components/AdminDashboard.tsx:38 | a matching batch becomes APPROVED with grade A and price 12.5 and is otherwise unchanged; other batches and the count are unchanged |
| AdminDashboard.ApproveUnknownId | components/AdminDashboard.tsx:38 | approving an unknown id leaves the store unchanged |
| AdminDashboard.ApproveIdempotent | components/AdminDashboard.tsx:38 | approving twice with the same id equals approving once |
| AdminDashboard.PendingQueueExact | components/AdminDashboard.tsx:129 | the queue lists exactly the PENDING batches, in store order |
| AdminDashboard.PendingQueueAfterApprove | components/AdminDashboard.tsx:129-138 | after approving an id the queue is the old queue without the rows of that id |
| AdminDashboard.GuardedApproveMovesForward | components/AdminDashboard.tsx:129-142 | approving from the queue (ids unique) moves the chosen batch from PENDING to APPROVED and no batch moves backwards |
| AdminDashboard.UnguardedApproveCanMoveBackward | components/AdminDashboard.tsx:37-39 | the handler does not check status: approving the SOLD fixture batch moves it back |
| FarmerPortal.MatchesSearch | components/FarmerPortal.tsx:56-57 | definition: the lowercase term in the lowercase species or id; `ProcessedBatchesSelection` and `EmptySearchMatchesAll` state its meaning |
| FarmerPortal.GradeText | components/FarmerPortal.tsx:69 | definition: `qualityGrade \|\| ''`; `GradeSortOrder` states the order it induces |
| FarmerPortal.Comparator | components/FarmerPortal.tsx:62-72 | definition: the sort callback; `WeightSortOrder`, `DateSortOrder` and `GradeSortOrder` state the order it induces |
| FarmerPortal.ProcessedBatches | components/FarmerPortal.tsx:54-75 | definition: filter then sort; `ProcessedBatchesSelection` characterizes it |
| FarmerPortal.MatchesStatus | components/FarmerPortal.tsx:58 | a batch passes the chip exactly when the chip is ALL or carries the batch's status literal |
| FarmerPortal.ProcessedBatchesSelection | components/FarmerPortal.tsx:54-75 | `processedBatches` is a permutation of the filtered batches and holds exactly the input batches whose species or id contains the lowercase term and which pass the chip |
| FarmerPortal.WeightSortOrder | components/FarmerPortal.tsx:62-72 | sorting by weight gives non-decreasing weights for asc and non-increasing weights for desc |
| FarmerPortal.DateSortOrder | components/FarmerPortal.tsx:62-72 | sorting by date orders the harvest times, earliest first for asc and latest first for desc |
| FarmerPortal.GradeSortOrder | components/FarmerPortal.tsx:62-72 | for a consistent `localeCompare`, sorting by grade puts grades in `localeCompare` order, reversed for desc |
| FarmerPortal.EmptySearchMatchesAll | components/FarmerPortal.tsx:56-57 | the empty search term matches every batch |
| FarmerPortal.GradeOrFallback | components/FarmerPortal.tsx:108 | the grade is the analysis grade when present and non-empty, otherwise N/A, and never empty |
| FarmerPortal.SubmittedDraft | components/FarmerPortal.tsx:103-109 | the submitted draft is PENDING, carries the form's species and weight and today's date, and has a non-empty grade |
| FarmerPortal.FarmerPortalState.constructor | components/FarmerPortal.tsx:35-51 | the portal starts closed on step 1 with an empty form, no analysis, no search, ALL, date descending, page 1 |
| FarmerPortal.FarmerPortalState.Paginated | components/FarmerPortal.tsx:78-81 | the page shown has at most six batches |
| FarmerPortal.FarmerPortalState.OpenModal | components/FarmerPortal.tsx:137 | the New Harvest button opens the wizard |
| FarmerPortal.FarmerPortalState.SetSpecies | components/FarmerPortal.tsx:380 | editing the species changes only the species field |
| FarmerPortal.FarmerPortalState.SetWeight | components/FarmerPortal.tsx:389 | editing the weight changes only the weight field |
| FarmerPortal.FarmerPortalState.SetDescription | components/FarmerPortal.tsx:409 | editing the description changes only the description field |
| FarmerPortal.FarmerPortalState.HandleNext | components/FarmerPortal.tsx:83-95 | from step 1 it advances only with a species and a positive weight; from step 2 only with a description, storing the analysis first; otherwise nothing changes; the step stays in 1..3 |
| FarmerPortal.FarmerPortalState.HandlePrev | components/FarmerPortal.tsx:97-99 | Back goes one step down but never below 1 |
| FarmerPortal.FarmerPortalState.ResetForm | components/FarmerPortal.tsx:113-118 | reset closes the wizard, returns to step 1 and clears the form and the analysis |
| FarmerPortal.FarmerPortalState.HandleSubmit | components/FarmerPortal.tsx:101-111 | submit appends exactly one batch, the draft registered under the new id, to the store, then resets the wizard |
| FarmerPortal.FarmerPortalState.BackButton | components/FarmerPortal.tsx:451 | the left footer button discards on step 1 and goes back one step otherwise |
| FarmerPortal.FarmerPortalState.ContinueButton | components/FarmerPortal.tsx:457 | the right footer button submits on step 3; on steps 1 and 2 it leaves the store and the form alone and advances under exactly `handleNext`'s guards, storing the analysis on the step-2 advance |
| FarmerPortal.FarmerPortalState.SetSearchTerm | components/FarmerPortal.tsx:157 | typing a search term returns to page 1 |
| FarmerPortal.FarmerPortalState.SetStatusFilter | components/FarmerPortal.tsx:201 | choosing a status chip returns to page 1 |
| FarmerPortal.FarmerPortalState.SetSortBy | components/FarmerPortal.tsx:181 | the sort selector sets the sort key |
| FarmerPortal.FarmerPortalState.ToggleSortOrder | components/FarmerPortal.tsx:120-122 | the sort order flips between asc and desc |
| FarmerPortal.FarmerPortalState.PrevPageButton | components/FarmerPortal.tsx:321 | Prev moves to `Math.max(1, p - 1)` |
| FarmerPortal.FarmerPortalState.NextPageButton | components/FarmerPortal.tsx:333 | Next moves to `Math.min(totalPages, p + 1)` over the processed list |
| FarmerPortal.SubmittedBatchInFarmerView | components/FarmerPortal.tsx:101-111 | a submitted batch is PENDING, owned by F1, graded by the analysis or N/A, has no price, and appears last in the farmer view |
| BuyerPortal.Filtered | components/BuyerPortal.tsx:27-31 | definition: the species `filter`; `FilteredExact` characterizes it |
| BuyerPortal.FilteredExact | components/BuyerPortal.tsx:27-31 | `filtered` is a subsequence of the offered batches, holding exactly those whose lowercase species contains the lowercase term |
| BuyerPortal.EmptySearchShowsAll | components/BuyerPortal.tsx:29 | with an empty search term `filtered` is all offered batches |
| BuyerPortal.PageRowIsApproved | components/BuyerPortal.tsx:85-117 | every row the buyer can click is an APPROVED batch of the store |
| BuyerPortal.BuyerPortalState.constructor | components/BuyerPortal.tsx:23-25 | the portal starts with no search, no banner, on page 1 |
| BuyerPortal.BuyerPortalState.PageShown | components/BuyerPortal.tsx:33-37 | the page shown has at most four batches |
| BuyerPortal.BuyerPortalState.SetSearchTerm | components/BuyerPortal.tsx:60-63 | editing the search returns to page 1 |
| BuyerPortal.BuyerPortalState.PrevPageButton | components/BuyerPortal.tsx:144 | Prev moves to `Math.max(1, p - 1)` |
| BuyerPortal.BuyerPortalState.NextPageButton | components/BuyerPortal.tsx:167 | Next moves to `Math.min(totalPages, p + 1)` over the filtered list |
| BuyerPortal.BuyerPortalState.PageNumberButton | components/BuyerPortal.tsx:152-155 | page button i selects page i + 1, which lies in 1..totalPages |
| BuyerPortal.BuyerPortalState.HandlePurchase | components/BuyerPortal.tsx:39-41 | the purchase calls `onBuy` once with the id (the store changes exactly as one `Buy`) and raises the banner |
| BuyerPortal.BuyerPortalState.HidePaymentBanner | components/BuyerPortal.tsx:42 | the banner's timeout lowers it |
| BuyerPortal.PurchaseFromPage | components/BuyerPortal.tsx:117 | buying a row on screen (ids unique) moves no batch backwards and removes exactly that batch from the buyer view |
| Clock.JsRem | components/EnglishTimer.tsx:21 | JavaScript `%` gives the remainder of division truncated toward zero: the dividend is the truncated quotient times the divisor plus the remainder, which is below the divisor in size and has the sign of the dividend |
| Clock.DisplayHours | components/EnglishTimer.tsx:21 | definition: `hours % 12 \|\| 12`; `DisplayHoursRange` and `To24HourRoundTrip` state its values |
| Clock.PadTwo | components/EnglishTimer.tsx:67 | definition: `toString().padStart(2, '0')`; `PadTwoDigits` states its shape and value |
| Clock.DisplayHoursRange | components/EnglishTimer.tsx:21 | `hours % 12 \|\| 12` lies in 1..12 for hours 0..23: 0 and 12 give 12, morning hours stay, afternoon hours drop by 12 |
| Clock.To24HourRoundTrip | components/EnglishTimer.tsx:20-21 | the display hour and the afternoon flag give back the 24-hour value |
| Clock.ClockFaceDeterminesHour | components/EnglishTimer.tsx:20-21 | no two hours of the day share a display hour and label |
| Clock.PadTwoDigits | components/EnglishTimer.tsx:60-74 | `padStart(2, '0')` of a value in 0..59 is two ASCII digits, with a leading 0 exactly below 10, that read back as the value |
| EnglishTimer.AmPm | components/EnglishTimer.tsx:20 | the label is PM exactly when hours ≥ 12, otherwise AM |
| EnglishTimer.ShowFace | components/EnglishTimer.tsx:17-74 | definition: the four texts the face shows; `FaceWellFormed`, `FaceRoundTrip` and `FaceInjective` state their meaning |
| EnglishTimer.FaceWellFormed | components/EnglishTimer.tsx:60-74 | hours, minutes and seconds each show as exactly two ASCII digits |
| EnglishTimer.MinimalLineShape | components/EnglishTimer.tsx:125 | the compact line is five characters, hours, colon, minutes |
| EnglishTimer.FaceRoundTrip | components/EnglishTimer.tsx:17-21 | the shown face reads back as the same time of day |
| EnglishTimer.FaceInjective | components/EnglishTimer.tsx:17-21 | two different times of day never show the same face |
| BanglaTimer.BanglaChar | components/BanglaTimer.tsx:11-13 | an ASCII digit becomes the Bengali digit of the same value; every other character is kept |
| BanglaTimer.ToBangla | components/BanglaTimer.tsx:10-15 | `toBangla` keeps the length and transliterates each character on its own |
| BanglaTimer.AsciiChar | components/BanglaTimer.tsx:8 | the inverse table sends a Bengali digit to the ASCII digit of the same value and keeps everything else |
| BanglaTimer.FromBangla | components/BanglaTimer.tsx:8 | the reverse transliteration keeps the length and works character by character |
| BanglaTimer.NoAsciiDigitLeft | components/BanglaTimer.tsx:10-15 | no ASCII digit is left in the output of `toBangla`, whatever the input |
| BanglaTimer.BanglaRoundTrip | components/BanglaTimer.tsx:8-15 | text without Bengali digits is recovered from its transliteration |
| BanglaTimer.ToBanglaInjective | components/BanglaTimer.tsx:8-15 | two such texts with the same transliteration are equal: the ten table entries are distinct |
| BanglaTimer.BanglaNumber | components/BanglaTimer.tsx:63 | a non-negative number written with `toBangla` has one Bengali digit per decimal digit and reads back as the number |
| BanglaTimer.BanglaAmPm | components/BanglaTimer.tsx:28 | the afternoon label is chosen exactly when hours ≥ 12, otherwise the forenoon label |
| BanglaTimer.BanglaPadTwo | components/BanglaTimer.tsx:63-67 | a minute or second padded and transliterated is exactly two Bengali digits, with a leading Bengali zero exactly below 10, that read back as the value |
| BanglaTimer.ShowBanglaFace | components/BanglaTimer.tsx:25-67 | definition: the four texts the Bengali face shows; `BanglaFaceWellFormed`, `BanglaFaceRoundTrip` and `BanglaFaceInjective` state their meaning |
| BanglaTimer.BanglaMinimalLineShape | components/BanglaTimer.tsx:102 | the compact line is the hour's one or two Bengali digits, a colon, and the minutes' two Bengali digits, so the colon separates the two numbers |
| BanglaTimer.BanglaFaceWellFormed | components/BanglaTimer.tsx:63-67 | the hour is one Bengali digit for 1..9 and two for 10..12; minutes and seconds are always two |
| BanglaTimer.BanglaFaceValues | components/BanglaTimer.tsx:25-29 | each number on the Bengali face reads back as the display hour, the minutes and the seconds |
| BanglaTimer.BanglaFaceRoundTrip | components/BanglaTimer.tsx:25-29 | the Bengali face reads back as the same time of day |
| BanglaTimer.BanglaFaceInjective | components/BanglaTimer.tsx:25-29 | two different times of day never show the same Bengali face |
| BanglaTimer.BanglaDayOfMonth | components/BanglaTimer.tsx:76 | a day of the month 1..31 shows as one or two Bengali digits that read back as the day |

## Left out

- The LLM service (`geminiService.ts`: `analyzeHarvest`, `getMarketOverview`) calls a hosted model. Its parsed reply is an `Option<Analysis>` input. The market-insight text on the admin dashboard is not modelled.
- The `analyzing` flag and the time spent waiting in `handleNext`'s `await` are not modelled. The wizard step is modelled as if the reply came back at once, so a user acting during the wait is not covered.
- Ids and dates are parameters: `Math.random()` ids, the base-36 order suffix and `new Date().toISOString()`. The model does not prove ids unique. The lemmas that need unique ids take that as a precondition.
- The interval that refreshes the clocks, and `new Date()`, are left out. A time of day is an input.
- The `Intl.DateTimeFormat` month names are locale library output and are not modelled; the day of the month beside them is. The "Dhaka hub" caption is a fixed literal and is left out as presentation.
- Date parsing (`new Date(...).getTime()`) and `localeCompare` are parameters of the sort comparator. The real collation is not modelled.
- FarmerPortal.GradeSortOrder: requires `localeCompare` to be a consistent ordering (antisymmetric in sign and transitive), since the real comparator is not part of this model.
- JavaScript numbers are modelled as reals: weights, prices and amounts. NaN, infinities and rounding are not modelled. So `weight || 0` (App.AmountFor) treats only 0 as falsy, and a NaN weight is not covered.
- `toLowerCase` is modelled for ASCII only. Other Unicode case mappings are not covered.
- JsStrings.PadStart models a single fill character, the only form the code uses.
- JsArrays.Sort is a stable insertion sort. JavaScript's `sort` is stable too, but its algorithm differs. The order of elements the comparator ranks equal is not compared with the real implementation.
- The `setTimeout` that hides the payment banner is modelled only as a separate BuyerPortal.BuyerPortalState.HidePaymentBanner step. Its three-second delay is not modelled.
- LogisticsPortal.tsx is modelled only for its Confirm Shipment button. That button sends SHIPPED for a row of the PAID view, as App.SessionStore.ConfirmShipment. The rest of the file is presentation.
- The grid/list `viewType` toggle, the landing-page navigation, the scroll progress bar (floating point DOM geometry), the role switcher and the sidebar are presentation state.
- BlueCarbonImpact.tsx (floating point display arithmetic) is not modelled. Neither are the marketing and information pages (the About, Support, Contact, Why Seaweed and Vision pages, QualityLedger, EscrowSecurity, TradeIntelligence, ChatWidget, Logo, Sidebar) or the vite configuration.
