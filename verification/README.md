# Glam Up by Ruchika: booking logic in Dafny

A model of the in-memory logic of a small booking app for a makeup artist.
Clients book an appointment for a group, a service and a date and time. A
booking is `upcoming` until its time has passed, then it is `completed`.
Completed bookings carry members, each served by a worker. The owner is never
paid; every other worker is paid their rate per member. Revenue, worker
payments and profit are computed from these.

The modules follow the app's files:

- `Records` (records.dfy): the records the components share (booking, member,
  service, worker). It also holds the JavaScript `||` defaults and the worker
  lookup.
- `Text` (text.dfy): `trim` and `localeCompare`. `localeCompare` is modelled as
  the lexicographic order on character codes, and that order is proved total.
- `BookingOrder` (ordering.dfy): the sort comparators, and a stable insertion
  sort that gives the order JavaScript's stable `sort` gives.
- `BookingHistory` (booking_history.dfy): the history view. It covers the
  statistics, the payout and profit of one booking, and the status filter with
  the five sort keys. The sort is an in-place array method, as in the app.
- `App` (app.dfy): the top-level state. It covers the mapping of stored rows on
  load, the status sweep, and the append of a new booking.
- `NewBooking` (new_booking.dfy): building a booking from the form, and the
  form reset.
- `WorkersManager` (workers_manager.dfy) and `ServicesManager`
  (services_manager.dfy): add, edit and delete on the team and the service
  list. Deleting the owner is refused.
- `UpcomingBookings` (upcoming_bookings.dfy): the countdown label, the list in
  date order, and today's schedule.
- `BookingMembersService` (booking_members_service.dfy): the defaults of a new
  member row, and the per-booking member statistics.

Representation choices:

- A booking's date and time become an instant in milliseconds through a
  function `at` that every caller passes in. Date parsing is not modelled.
- Money and ids are integers. Averages are reals.
- A form number field is either `Empty` or `Number(n)`. The handlers' `!field`
  test is true exactly for `Empty`.
- The browser's `confirm` dialog becomes a boolean parameter. `Date.now()` ids
  and the current time are parameters too.
- The managers and the app state are classes whose `seq` fields the handlers
  reassign, as the React setters replace the lists.

The code and the app's written description disagree in a few places. The model
follows the code:

- A new booking's `totalAmount` is 0, not the price of its service.
- Deleting a worker or a service only filters the list in memory (and its
  browser-storage copy). The stored row is never marked inactive: the
  soft-delete helpers of the service files exist, but no handler calls them.
  Loading reads every active row, so the next successful load brings a
  deleted entry back. The model covers the in-memory list only.
- Nothing stops an edit from changing the owner's name or rate: the inputs are
  only disabled on screen.
- Services have no protection against deletion.

## Model

| member | source | states |
|---|---|---|
| `Records.FindWorker` | src/components/BookingHistory.jsx:21 | none exactly when no worker has the id; otherwise the first worker with that id |
| `Text.TrimStart` | src/components/WorkersManager.jsx:22-23 | trimming the front drops a prefix made only of white space, and what is left does not start with white space |
| `Text.TrimEnd` | src/components/WorkersManager.jsx:22-23 | trimming the back drops a suffix made only of white space, and what is left does not end with white space |
| `Text.Trim` | src/components/WorkersManager.jsx:22-23 | the result is a middle part of the text with only white space before and after it, and it neither starts nor ends with white space, so it is the text with its leading and trailing white space removed |
| `Text.TrimMiddle` | src/components/WorkersManager.jsx:22-23 | trimming the front and then the back leaves a middle part with only white space around it |
| `Text.TrimBlank` | src/components/WorkersManager.jsx:15 | a text trims to empty exactly when it is all white space, so this is what the validation rejects |
| `Text.TrimKeepsTrimmed` | src/components/ServicesManager.jsx:49-51 | a text with no white space at either end is its own trim |
| `Text.LexCompare` | src/components/BookingHistory.jsx:60 | the stand-in for `localeCompare` answers -1, 0 or 1 |
| `Text.LexCompareFlip` | src/components/BookingHistory.jsx:60 | swapping the two texts negates the answer |
| `Text.LexCompareTrans` | src/components/BookingHistory.jsx:60 | the order is transitive |
| `BookingOrder.Compare` | src/components/BookingHistory.jsx:49-64 | definition: the comparator of each sort key (instant descending or ascending, amount with missing as 0 descending or ascending, name, time of day, and 0 for any other key); its properties are in `CompareFlip` and `CompareTrans` |
| `BookingOrder.CompareFlip` | src/components/BookingHistory.jsx:49-64 | every comparator is total: when it puts b first, b before a is in order |
| `BookingOrder.CompareTrans` | src/components/BookingHistory.jsx:49-64 | every comparator is transitive |
| `BookingOrder.Insert` | src/components/BookingHistory.jsx:49 | one insertion step lengthens the list by one |
| `BookingOrder.InsertAdds` | src/components/BookingHistory.jsx:49 | one insertion step adds exactly the new booking to the list, as a multiset |
| `BookingOrder.InsertFrom` | src/components/BookingHistory.jsx:49 | each entry of an insertion is the new booking or an entry of the old list |
| `BookingOrder.Sort` | src/components/BookingHistory.jsx:49 | sorting keeps the length |
| `BookingOrder.SortPermutes` | src/components/BookingHistory.jsx:49 | sorting is a permutation of the input |
| `BookingOrder.InsertSorted` | src/components/BookingHistory.jsx:49 | inserting into an ordered list keeps it ordered |
| `BookingOrder.InsertSortedPast` | src/components/BookingHistory.jsx:49 | when the new booking goes before the last one, the last one can follow the ordered insertion into the rest |
| `BookingOrder.SortSorted` | src/components/BookingHistory.jsx:49 | the sort's result is ordered by the comparator |
| `BookingOrder.SortUnordered` | src/components/BookingHistory.jsx:61-62 | the comparator that always answers 0 leaves the list as it was |
| `BookingOrder.SortSpec` | src/components/BookingHistory.jsx:49-64 | per sort key: a permutation, ordered ascending or descending by instant, by amount with missing as 0, or by name; the default key keeps the order |
| `BookingHistory.WithStatus` | src/components/BookingHistory.jsx:44-46 | the filter never lengthens the list |
| `BookingHistory.WithStatusCounts` | src/components/BookingHistory.jsx:44-46 | every booking of the status is kept as often as it occurs, and no other |
| `BookingHistory.WithStatusConcat` | src/components/BookingHistory.jsx:45 | filtering keeps relative order: it distributes over concatenation |
| `BookingHistory.StatusCountsBound` | src/components/BookingHistory.jsx:14-16 | two different statuses count at most the whole list together |
| `BookingHistory.MemberPayout` | src/components/BookingHistory.jsx:20-22 | a member adds 0 when no worker has its id; otherwise the first worker with the id decides: 0 for the owner, its rate for anyone else |
| `BookingHistory.BookingPayout` | src/components/BookingHistory.jsx:318-321 | definition: the sum of the member payouts of one booking; `PayoutStep` states what each member adds |
| `BookingHistory.TotalRevenue` | src/components/BookingHistory.jsx:12-13 | definition: the amounts (0 when missing) of the completed bookings, summed; `RevenueAppend` and `StatsConcat` state its properties |
| `BookingHistory.TotalWorkerPayments` | src/components/BookingHistory.jsx:19-24 | definition: the payouts of the completed bookings, summed; `StatsConcat` and `NetProfitIsSumOfBookingProfits` state its properties |
| `BookingHistory.BookingProfit` | src/components/BookingHistory.jsx:323-328 | profit plus the owner-exempt payout is the amount, 0 when missing |
| `BookingHistory.GuardedMean` | src/components/BookingHistory.jsx:35 | 0 for no values; otherwise the mean times the count is the total |
| `BookingHistory.ComputeStats` | src/components/BookingHistory.jsx:11-37 | total is the length; the two counts are the numbers of completed and upcoming bookings, together at most the total; revenue and payments are those of the completed bookings; net profit is revenue minus payments; the average is the guarded mean of the revenue over the completed count; an empty list gives all zeros |
| `BookingHistory.RevenueAppend` | src/components/BookingHistory.jsx:12-13 | a booking adds its amount (0 when missing) to revenue exactly when it is completed |
| `BookingHistory.SumAmountsConcat` | src/components/BookingHistory.jsx:13 | summed amounts add up over concatenation |
| `BookingHistory.StatsConcat` | src/components/BookingHistory.jsx:12-24 | revenue, payments and both counts of a split list are the sums over the parts |
| `BookingHistory.SumBookingPayoutsConcat` | src/components/BookingHistory.jsx:19-24 | payouts add up over concatenation |
| `BookingHistory.PayoutIgnoresCost` | src/components/BookingHistory.jsx:20-22 | the payout depends only on the members' workers, never on their cost |
| `BookingHistory.PayoutStep` | src/components/BookingHistory.jsx:20-22 | each member adds 0 when its worker is missing or is the owner, and that worker's rate otherwise |
| `BookingHistory.OwnerWorkIsFree` | src/components/BookingHistory.jsx:20-22 | a member served by the owner or by a missing worker adds nothing |
| `BookingHistory.OwnerOnlyBookingKeepsAmount` | src/components/BookingHistory.jsx:318-328 | when every member is served by the owner or a missing worker, the booking pays out nothing and its profit is its whole amount |
| `BookingHistory.PaidWorkerAddsRate` | src/components/BookingHistory.jsx:20-22 | a member served by a non-owner adds exactly that worker's rate |
| `BookingHistory.NetProfitIsSumOfBookingProfits` | src/components/BookingHistory.jsx:19-26 | the aggregate net profit is the sum of the detail-view profits of completed bookings |
| `BookingHistory.ProfitsAreRevenueLessPayouts` | src/components/BookingHistory.jsx:318-328 | the summed profits are summed amounts minus summed payouts |
| `BookingHistory.OrderOf` | src/components/BookingHistory.jsx:50-63 | definition: the comparator each `sortBy` key selects, with any other key answering 0 |
| `BookingHistory.FilteredAndSorted` | src/components/BookingHistory.jsx:40-67 | definition: the list, filtered unless the status is `all`, then sorted by the key; its properties are in `FilteredAndSortedSpec` |
| `BookingHistory.FilteredAndSortedSpec` | src/components/BookingHistory.jsx:40-67 | with a status filter, only and all bookings of that status; with `all`, a permutation; ordered by the chosen key; an unknown key keeps the filtered order |
| `BookingHistory.Swap` | src/components/BookingHistory.jsx:49 | two neighbouring entries trade places and nothing else changes |
| `BookingHistory.InsertAt` | src/components/BookingHistory.jsx:49 | one pass of the in-place insertion equals the insertion step on the prefix and leaves the rest alone |
| `BookingHistory.SortInPlace` | src/components/BookingHistory.jsx:49-64 | the array ends as the stable sort of its old contents |
| `BookingHistory.FilterAndSort` | src/components/BookingHistory.jsx:40-67 | the result is the filtered, sorted list; with `all` it is the caller's own array, sorted in place; otherwise a fresh array, and the caller's is unchanged |
| `BookingHistory.BridalExample` | src/components/BookingHistory.jsx:318-328 | a 3500 booking with one member by the assistant (800) and one by the owner pays out 800 and leaves 2700 profit |
| `NewBooking.BuildBooking` | src/components/NewBooking.jsx:18-27 | a new booking is upcoming, has no members and an amount of 0, takes the form's texts unchanged and its two numbers converted |
| `NewBooking.Component.constructor` | src/components/NewBooking.jsx:5-13 | the form starts empty with one person |
| `NewBooking.Component.Submit` | src/components/NewBooking.jsx:15-44 | exactly one booking is handed on, built from the old form, and the form is back to its initial state |
| `App.FindServiceByName` | src/App.jsx:86 | none exactly when no service has the name; otherwise the first one that has it |
| `App.PrimaryServiceOf` | src/App.jsx:86 | never 0: the id of the first service with the name, or 1 when there is none or its id is 0 |
| `App.BookingFromRow` | src/App.jsx:80-93 | a mapped booking has no members, one person when the count is falsy, the price or 0 as amount, the first matching service's id as primary service (1 when no service matches or that id is 0), and the row's other fields |
| `App.ServicesFromRows` | src/App.jsx:41-46 | one service per stored row, in order, each with the row's id, name, price and description |
| `App.WorkersFromRows` | src/App.jsx:62-68 | one worker per stored row, in order, each with the row's id, name, role, payment rate and owner flag |
| `App.BookingsFromRows` | src/App.jsx:80-93 | one booking per stored row, in order, each the mapping of its own row |
| `App.LoadedWorkerLookup` | src/App.jsx:62-68 | looking an id up in the loaded team finds nothing when no row has it, and otherwise the first row with it |
| `App.LoadedBookingsHaveNoPayout` | src/App.jsx:91-92 | a loaded booking pays out nothing, so its profit is its whole amount |
| `App.Promote` | src/App.jsx:144-150 | a booking is either kept or moved from upcoming to completed; it ends completed exactly when it was completed or was upcoming with its instant before now |
| `App.Sweep` | src/App.jsx:142-152 | the length is kept; each booking is promoted to completed exactly when it is upcoming and its instant is before now, and is otherwise kept |
| `App.SweepOnlyPromotes` | src/App.jsx:144-150 | a booking changes only from upcoming to completed, keeps every other field, and a completed one never goes back |
| `App.SweepIdempotent` | src/App.jsx:140-153 | sweeping twice at one instant is sweeping once |
| `App.SweepCatchesUp` | src/App.jsx:140-153 | a sweep at a later instant gives the same list whether or not an earlier sweep ran |
| `App.CountStep` | src/App.jsx:142-152 | the count of a status grows by one exactly when the last booking has it |
| `App.SweepKeepsCounts` | src/App.jsx:142-152 | the completed count never falls, and completed plus upcoming stays the same |
| `App.CreatedBookingLeavesFinances` | src/App.jsx:172 | a created booking adds one upcoming booking and changes neither revenue nor payments |
| `App.AppState.constructor` | src/App.jsx:16-28 | no bookings, the five default services and the two default workers, loading |
| `App.AppState.LoadData` | src/App.jsx:31-117 | each list is replaced by its mapped rows when its query succeeded and kept otherwise; bookings look services up in the list just loaded; loading ends |
| `App.AppState.UpdateStatuses` | src/App.jsx:140-153 | the bookings become the sweep of the old bookings |
| `App.AppState.CreateBooking` | src/App.jsx:172 | the booking is appended and the existing ones are unchanged |
| `WorkersManager.Complete` | src/components/WorkersManager.jsx:15 | definition: the check of the add and save handlers, neither name nor role blank and a rate entered; `TrimBlank` states what blank means |
| `WorkersManager.NewWorker` | src/components/WorkersManager.jsx:20-26 | a new worker is never the owner and has the trimmed name and role |
| `WorkersManager.EditedWorker` | src/components/WorkersManager.jsx:46-55 | a saved edit keeps the id and the owner flag and trims name and role |
| `WorkersManager.EditRoundTrip` | src/components/WorkersManager.jsx:33-55 | saving an untouched draft of a worker whose name and role are already trimmed gives back the worker |
| `WorkersManager.ReplaceWorker` | src/components/WorkersManager.jsx:46-55 | the length is kept; exactly the entries with the edited id are replaced |
| `WorkersManager.WithoutWorker` | src/components/WorkersManager.jsx:71 | the list never grows and no kept worker has the id |
| `WorkersManager.WithoutWorkerMembers` | src/components/WorkersManager.jsx:71 | a worker is kept exactly when its id differs |
| `WorkersManager.WithoutWorkerConcat` | src/components/WorkersManager.jsx:71 | deleting keeps the relative order of the rest |
| `WorkersManager.OwnerSurvivesDelete` | src/components/WorkersManager.jsx:62-71 | with distinct ids, deleting a non-owner keeps the owner |
| `WorkersManager.Manager.constructor` | src/components/WorkersManager.jsx:4-10 | empty form and no draft |
| `WorkersManager.Manager.AddWorker` | src/components/WorkersManager.jsx:12-31 | added exactly when name and role are not blank and a rate is entered; then one new worker is appended and the form is cleared; otherwise nothing changes |
| `WorkersManager.Manager.EditWorker` | src/components/WorkersManager.jsx:33-38 | the draft is a copy of the worker |
| `WorkersManager.Manager.CancelEdit` | src/components/WorkersManager.jsx:194 | the draft is dropped |
| `WorkersManager.Manager.SaveEdit` | src/components/WorkersManager.jsx:40-60 | saved exactly when the draft is complete; then the list has the edit and the draft is closed; otherwise nothing changes |
| `WorkersManager.Manager.DeleteWorker` | src/components/WorkersManager.jsx:62-74 | a missing id or the owner changes nothing; a non-owner is removed exactly when confirmed |
| `ServicesManager.Complete` | src/components/ServicesManager.jsx:15 | definition: the check of the add and save handlers, a name that is not blank and a price entered; `TrimBlank` states what blank means |
| `ServicesManager.FindService` | src/components/ServicesManager.jsx:62 | none exactly when no service has the id; otherwise the first service with it |
| `ServicesManager.NewService` | src/components/ServicesManager.jsx:20-25 | a new service has the trimmed name and description and the price entered |
| `ServicesManager.EditedService` | src/components/ServicesManager.jsx:45-54 | a saved edit keeps the id and trims name and description |
| `ServicesManager.ReplaceService` | src/components/ServicesManager.jsx:45-54 | the length is kept; exactly the entries with the edited id are replaced |
| `ServicesManager.WithoutService` | src/components/ServicesManager.jsx:65 | the list never grows and no kept service has the id |
| `ServicesManager.WithoutServiceMembers` | src/components/ServicesManager.jsx:65 | a service is kept exactly when its id differs |
| `ServicesManager.WithoutServiceConcat` | src/components/ServicesManager.jsx:65 | deleting keeps the relative order of the rest |
| `ServicesManager.WithoutServiceCount` | src/components/ServicesManager.jsx:65 | the list shrinks by exactly the number of entries with the id |
| `ServicesManager.WithoutAbsentService` | src/components/ServicesManager.jsx:65 | deleting an id no service has changes nothing |
| `ServicesManager.Manager.constructor` | src/components/ServicesManager.jsx:4-10 | empty form and no draft |
| `ServicesManager.Manager.AddService` | src/components/ServicesManager.jsx:12-30 | added exactly when the name is not blank and a price is entered; then one new service is appended and the form is cleared; otherwise nothing changes |
| `ServicesManager.Manager.EditService` | src/components/ServicesManager.jsx:32-37 | the draft is a copy of the service |
| `ServicesManager.Manager.CancelEdit` | src/components/ServicesManager.jsx:184 | the draft is dropped |
| `ServicesManager.Manager.SaveEdit` | src/components/ServicesManager.jsx:39-59 | saved exactly when the draft is complete; then the list has the edit and the draft is closed; otherwise nothing changes |
| `ServicesManager.Manager.DeleteService` | src/components/ServicesManager.jsx:61-68 | a missing id changes nothing; otherwise the service is removed exactly when confirmed |
| `UpcomingBookings.HoursToDays` | src/components/UpcomingBookings.jsx:27-28 | whole days of whole hours are whole days of the milliseconds |
| `UpcomingBookings.TimeUntil` | src/components/UpcomingBookings.jsx:20-38 | past due exactly for a negative difference; days from 24 hours on, hours (1 to 23) from one hour on, minutes (0 to 59) below; the count is the whole number of its unit in the difference |
| `UpcomingBookings.CountdownOf` | src/components/UpcomingBookings.jsx:20-38 | past due exactly when the booking's instant is before now; days from 24 hours on, hours from one hour on, minutes below; the count is the whole number of that unit until the instant |
| `UpcomingBookings.Plural` | src/components/UpcomingBookings.jsx:31-36 | definition: the unit takes an `s` exactly when the count is more than 1 |
| `UpcomingBookings.PastDueIsSwept` | src/components/UpcomingBookings.jsx:20-25 | a booking shows past due exactly when its instant has passed, which is when the sweep completes an upcoming booking |
| `UpcomingBookings.CountdownShrinks` | src/components/UpcomingBookings.jsx:27-37 | a smaller difference never shows a larger unit or a larger count of the same unit |
| `UpcomingBookings.SortedBookings` | src/components/UpcomingBookings.jsx:41-45 | definition: a copy of the bookings sorted by instant, earliest first; its properties are in `SortedBookingsSpec` |
| `UpcomingBookings.SortedBookingsSpec` | src/components/UpcomingBookings.jsx:41-45 | the list is a permutation of the bookings, earliest first |
| `UpcomingBookings.ServiceName` | src/components/UpcomingBookings.jsx:15-18 | the placeholder when no service has the id; otherwise the name of the first service with it |
| `UpcomingBookings.OnDay` | src/components/UpcomingBookings.jsx:206 | only bookings dated today are kept |
| `UpcomingBookings.OnDayCounts` | src/components/UpcomingBookings.jsx:206 | every booking dated today is kept as often as it occurs |
| `UpcomingBookings.TodaySchedule` | src/components/UpcomingBookings.jsx:206-207 | definition: today's bookings sorted by time text; its properties are in `TodayScheduleSpec` |
| `UpcomingBookings.TodayOnly` | src/components/UpcomingBookings.jsx:206-207 | only bookings dated today are on the schedule |
| `UpcomingBookings.TodayCounts` | src/components/UpcomingBookings.jsx:206-207 | every booking dated today is on the schedule as often as it occurs |
| `UpcomingBookings.TodayByTime` | src/components/UpcomingBookings.jsx:207 | the schedule runs by time text |
| `UpcomingBookings.TodayShown` | src/components/UpcomingBookings.jsx:199-206 | the schedule has an entry exactly when the card is shown |
| `UpcomingBookings.TodayScheduleSpec` | src/components/UpcomingBookings.jsx:199-208 | the schedule holds exactly today's bookings, by time text, and is empty exactly when the card is hidden |
| `BookingMembersService.NullIfFalsy` | src/services/bookingMembersService.js:13 | null, undefined and 0 become null; any other number is kept |
| `BookingMembersService.NewMemberRecord` | src/services/bookingMembersService.js:9-37 | a falsy price becomes 0, falsy texts become empty, falsy numbers become null, the follow-up flag is true only when given true |
| `BookingMembersService.RatedRows` | src/services/bookingMembersService.js:170 | exactly the rows with a truthy rating are kept: every kept row is rated and every rated row is kept |
| `BookingMembersService.RatedRowsCounts` | src/services/bookingMembersService.js:170 | every rated row is kept as often as it occurs, and no other row |
| `BookingMembersService.RatedRowsEmpty` | src/services/bookingMembersService.js:170 | no rated rows exactly when no row is rated |
| `BookingMembersService.JsDivide` | src/services/bookingMembersService.js:170 | the quotient is a number exactly when the divisor is not 0, and then times the divisor gives the dividend |
| `BookingMembersService.AverageSatisfactionAsWritten` | src/services/bookingMembersService.js:169-171 | definition of the average as the code computes it, with no value standing for NaN; `AsWrittenAgrees` and `UnratedRowGivesNaN` state its properties |
| `BookingMembersService.AverageSatisfaction` | src/services/bookingMembersService.js:169-171 | 0 without rated rows; otherwise times their count it is the sum of their ratings |
| `BookingMembersService.UnratedRowGivesNaN` | src/services/bookingMembersService.js:169-171 | one unrated row makes the code divide 0 by 0 |
| `BookingMembersService.AsWrittenAgrees` | src/services/bookingMembersService.js:169-171 | the code's average fails exactly when rows exist and none is rated, and agrees with the guarded one otherwise |
| `BookingMembersService.SumRatingsAtLeast` | src/services/bookingMembersService.js:170 | ratings of at least `lo` sum to at least `lo` times the count |
| `BookingMembersService.SumRatingsAtMost` | src/services/bookingMembersService.js:170 | ratings of at most `hi` sum to at most `hi` times the count |
| `BookingMembersService.RatedRowsBounded` | src/services/bookingMembersService.js:170 | the rated rows keep their ratings |
| `BookingMembersService.QuotientBounds` | src/services/bookingMembersService.js:170 | a mean of values on a scale is on the scale |
| `BookingMembersService.AverageOnScale` | src/services/bookingMembersService.js:169-171 | with a rating present and all ratings on a scale, the average is on that scale |
| `BookingMembersService.MemberStatsOf` | src/services/bookingMembersService.js:166-173 | the member count is the number of rows; revenue and duration are the sums with missing values as 0; the average is the corrected, guarded mean over the rated rows; no rows gives all zeros; no rated row gives an average of 0, where the code as written gives NaN (see Findings) |
| `BookingMembersService.SumPricesConcat` | src/services/bookingMembersService.js:168 | summed prices add up over concatenation |
| `BookingMembersService.SumDurationsConcat` | src/services/bookingMembersService.js:172 | summed durations add up over concatenation |
| `BookingMembersService.StatsSplit` | src/services/bookingMembersService.js:168-172 | revenue and duration add up over rows split in two, missing values counting 0 |
| `BookingMembersService.CreatedRows` | src/services/bookingMembersService.js:9-37 | one statistics row per created member, in order, with the price given or 0, and the rating and duration given, a falsy one stored as null |
| `BookingMembersService.CreatedRowsPrices` | src/services/bookingMembersService.js:15 | the created rows' prices sum to the prices handed in, a missing one counting 0 |
| `BookingMembersService.CreatedMembersStats` | src/services/bookingMembersService.js:15-26 | for created members, the revenue is the sum of the prices given (missing as 0), and a member is rated exactly when it was given a nonzero rating |

## Left out

- The Supabase queries in every service file, and `src/supabase.js`: network I/O. A query result is a parameter of `LoadData`, as `Some(rows)` on success.
- The localStorage fallback and mirroring in src/App.jsx: browser storage. When a query fails, `LoadData` keeps the list it had. The catch-all error branch is left out too.
- The `setInterval` timer that reruns the sweep every minute. Only one sweep is modelled; `SweepCatchesUp` covers a run that is missed.
- Date parsing of the date and time text, and `toDateString` for today's schedule. They are the parameters `at` and `dayOf`. A text that does not parse gives NaN in JavaScript, and that case is not modelled.
- `parseFloat` and `parseInt` on form fields: a filled-in field holds an integer in the model. Floating-point amounts are not modelled.
- `localeCompare` collation: replaced by the lexicographic order on character codes. Both are total and transitive, and that is all the sorting proofs use. They do not give the same order: code-point order puts "Zara" before "amit", and a locale treats some distinct texts (a composed and a decomposed accent) as equal. So the `name-asc` history order and the time order of today's schedule can differ from the browser's.
- The text of the countdown label: `TimeUntil` gives the unit and the count, and `Plural` tells whether the `s` is added. Building the string is not modelled.
- `handleChange` form binding, JSX rendering, alerts, formatting and the tab switch.
- src/components/CompletedBookings.jsx and the `onBookingUpdate` path that puts members on a booking. Members are part of the booking record, and no handler that adds them is modelled.
- Every member-row column except those the statistics read and the ones `NewMemberRecord` models. Arrays, objects and photo URLs default the same way and carry no behaviour.
- `BookingOrder.Sort`: its own contract states only the length. The permutation is in `SortPermutes` and the order in `SortSorted`. Stability is not stated as a lemma: the sort is stable by construction, and its result under a total preorder is unique.
- `BookingOrder.Insert`: its own contract states only the length. What it adds is in `InsertAdds`.
- `UpcomingBookings.OnDay`: its own contract states only that kept bookings are dated today. That every booking dated today is kept, as often as it occurs, is in `OnDayCounts`.
- `BookingHistory.WithStatus`: its own contract states only the length bound. Contents and multiplicity are in `WithStatusCounts`.
- `WorkersManager.WithoutWorker`: its own contract does not say which entries are kept. That is in `WithoutWorkerMembers`.
- `ServicesManager.WithoutService`: its own contract does not say which entries are kept. That is in `WithoutServiceMembers`.
- Ids from `Date.now()`: they are parameters, and their uniqueness is not assumed except in `OwnerSurvivesDelete`.
- Deleting an id that is not in the list: the code throws reading a field of `undefined`. That is modelled as the outcome `NotFound` with nothing changed.

## Findings

| source | as written | input that shows it | evidently intended | confidence | as-written member | corrected member |
|---|---|---|---|---|---|---|
| src/services/bookingMembersService.js:169-171 | the guard tests that rows exist, then divides the rating sum by the number of rated rows | one member row with no satisfaction rating: 0 / 0, so the average is NaN | an average of 0 when no row is rated, as for no rows | high; not executed | `BookingMembersService.UnratedRowGivesNaN` | `BookingMembersService.AverageSatisfaction` |
