# Lavandería Ohana point of sale — a verified model

This project models, in Dafny, the bookkeeping core of a small laundry point-of-sale web
application: wash tickets priced per valet, dry-cleaning lines, four payment methods, a local
ticket list kept as a fallback when the database is unreachable, an inventory of supplies, a
user store with permissions, a ticket-number counter, and the dashboard that turns tickets and
expenses into daily, weekly and monthly metrics, trends, hourly revenue and frequent clients.

The modules follow the application's files:

| module | file | models |
|---|---|---|
| `Seqs` | seqs.dfy | `filter`, `reduce`, sub-lists and the `Option`/`Result` wrappers |
| `Text` | text.dfy | `replace(/\D/g, '')`, `toString`, `padStart`, `parseInt` on digits, `trim`, `toLowerCase` on ASCII and Latin-1 letters, `includes`, `startsWith` |
| `Calendar` | calendar.dfy | the local-time `Date`: calendar fields, `getDay`, `getHours`, `setDate`, `setMonth`, `setHours`, `new Date(y, m, d)` |
| `Records` | records.dfy | tickets, dry-cleaning lines, laundry options, expenses, users, permissions, inventory items |
| `MetricsStorage` | metrics_storage.dfy | the local fallbacks of the daily, weekly and monthly metrics |
| `DashboardData` | dashboard_data.dfy | trends, digital revenue, comparison dates, expense filters, hourly revenue, frequent clients |
| `TicketStorage` | ticket_storage.dfy | laundry-option and dry-cleaning rows, the local ticket list, visit statistics |
| `InventoryStorage` | inventory_storage.dfy | the inventory store |
| `AuthService` | auth_service.dfy | the user store and the session user |
| `TicketNumber` | ticket_number.dfy | the persisted ticket counter |
| `TicketForm` | ticket_form.dfy | the quick ticket form |
| `PickupOrders` | pickup_orders.dfy | the pick-up screen's search, over the ticket list the screen means to load |
| `UserManagement` | user_management.dfy | the user administration screen |
| `ExpensesCard` | expenses_card.dfy | the dashboard's expenses card |
| `WhatsAppSharing` | whatsapp_sharing.dfy | phone normalisation and the shared message's item list |

Code that updates state step by step is modelled as classes whose fields are the stored
values (local storage keys, session storage, React state), with `modifies` clauses and
postconditions that give the whole new state. Loops (`forEach` over tickets, the day and week
loops, the option-row loop) are methods with invariants, proved against specification
functions about which the lemmas state what the application promises.

Dates are integers: local milliseconds counted from 0000-01-01 00:00 of the proleptic
Gregorian calendar, with no time zone offset and no daylight saving. `Calendar.CivilOf` gives
the year, month (0 to 11) and day that `getFullYear`, `getMonth` and `getDate` report, and
`Calendar.MakeDay` normalises out-of-range months and days as `new Date(y, m, d)` does. Money is
whole pesos (`int`).

`calculatePercentage` rounds `(current - previous) / previous * 100` to the nearest integer. The
model takes that quotient exactly, as a rational number; the application computes it in double
precision, so at an exact half the two can round differently (see "## Left out"). A
rise of less than half a percent therefore shows a trend of 0: the trend is positive exactly
when `200 * (current - previous) >= previous` (for a positive previous value), not whenever the
current value is larger. `DashboardData.PercentagePositiveIff` states this of the exact quotient.

## Model

| member | source | states |
|---|---|---|
| MetricsStorage.CreateEmptyPaymentBreakdown | src/utils/metricsStorage.ts:7-12 | every payment bucket (cash, debit, mercadopago, cuentadni) starts at 0 |
| MetricsStorage.AddToBucket | src/utils/metricsStorage.ts:122-124 | adding a total to a method's bucket moves that bucket by the amount and leaves the three others unchanged |
| MetricsStorage.AccumulatePayments | src/utils/metricsStorage.ts:119-125 | each bucket ends as the sum of the totals of the tickets paid with that method; the buckets together hold the totals of exactly the tickets that have a method |
| MetricsStorage.PaymentBucketsAddUp | src/utils/metricsStorage.ts:119-125 | each ticket with a method lands in exactly one bucket, so the four bucket sums add to the sales of the tickets with a method |
| MetricsStorage.BucketsSumToSales | src/utils/metricsStorage.ts:115-125 | when every counted ticket has a payment method, the buckets add up to `totalSales` |
| MetricsStorage.ItemlessTicketsContributeNothing | src/utils/metricsStorage.ts:27-40 | dropping the tickets without dry-cleaning lines leaves the lines to roll up unchanged |
| MetricsStorage.RollupSummarises | src/utils/metricsStorage.ts:23-48 | the rollup holds each item name once, in order of first appearance; each entry's quantity is the sum of its lines' quantities and its sales the sum of price times quantity |
| MetricsStorage.AddLines | src/utils/metricsStorage.ts:28-39 | the inner loop over one ticket's lines extends the rollup exactly as rolling up all lines so far |
| MetricsStorage.CompileDryCleaningItems | src/utils/metricsStorage.ts:23-48 | the loop over the tickets returns the rollup of all their lines, which summarises them as above |
| MetricsStorage.DailyMetricsFromLocal | src/utils/metricsStorage.ts:103-153 | valets, sales, payment buckets and dry-cleaning rollup are those of the tickets on the reference date's calendar day |
| MetricsStorage.DailySelection | src/utils/metricsStorage.ts:107-112 | a ticket is counted for the day exactly when its year, month and day equal the reference date's, i.e. when it lies between 00:00 and 23:59:59.999 of that day; the selection keeps the stored order |
| MetricsStorage.WeekWindow | src/utils/metricsStorage.ts:246-252 | the week window runs from 00:00 of the Sunday on or before the reference date to 23:59:59.999 six days later, and a date-time lies in it exactly when its day is one of those seven |
| MetricsStorage.WeekIsSevenDays | src/utils/metricsStorage.ts:255-258 | every ticket of the week window falls on one of the seven days from its Sunday |
| MetricsStorage.DailyBreakdown | src/utils/metricsStorage.ts:274-295 | the day loop yields seven entries, Sunday to Saturday, each with the sales and valets of that calendar day's tickets |
| MetricsStorage.WeekDaysAddUp | src/utils/metricsStorage.ts:274-295 | the seven days' sales add up to the week's `totalSales` and their valets to `totalValets` |
| MetricsStorage.WeeklyMetricsFromLocal | src/utils/metricsStorage.ts:242-324 | totals, payment buckets and rollup are those of the week window's tickets; the breakdown has 7 entries that add up to the totals |
| MetricsStorage.MonthBounds | src/utils/metricsStorage.ts:422-449 | the month runs from 00:00 of the 1st to 23:59:59.999 of its last day; `totalDays` is its length, 28 to 31, and `firstDay` the weekday of its 1st |
| MetricsStorage.MonthShape | src/utils/metricsStorage.ts:426-429 | a date-time lies in the month window exactly when its year and month are the reference date's |
| MetricsStorage.MonthWeekCount | src/utils/metricsStorage.ts:448-450 | `totalWeeks` is ceil((firstDay + totalDays) / 7), between 4 and 6 |
| MetricsStorage.MonthWeekWindow | src/utils/metricsStorage.ts:454-464 | week `w` starts at 00:00 of day `1 + 7w - firstDay`, clamped to the 1st, and ends at 00:00 six days later, clamped to the month's end; its first day lies in the month |
| MetricsStorage.MonthFirstWeeksOverlap | src/utils/metricsStorage.ts:454-461 | week 1 starts before week 0 ends exactly when the month does not start on a Sunday |
| MetricsStorage.MonthWeekEndGap | src/utils/metricsStorage.ts:460-470 | a ticket after 00:00 on the seventh day of a middle week belongs to the month but to no week's window |
| MetricsStorage.FirstWeeksIndex | src/utils/metricsStorage.ts:452-480 | entry `k` of the breakdown is week `k`'s sales and valets, numbered `k + 1` |
| MetricsStorage.WeekSalesBounded | src/utils/metricsStorage.ts:467-473 | with non-negative totals no week's sales exceed the month's sales |
| MetricsStorage.WeekStartAt | src/utils/metricsStorage.ts:454-458 | the `setDate`/`setTime` steps give week `w`'s start |
| MetricsStorage.WeekEndAt | src/utils/metricsStorage.ts:460-464 | the `setDate`/`setTime` steps give the week's end |
| MetricsStorage.WeekEntryAt | src/utils/metricsStorage.ts:453-479 | one pass of the week loop yields week `w`'s entry |
| MetricsStorage.MonthWeeks | src/utils/metricsStorage.ts:445-480 | the week loop yields one entry per week, `totalWeeks` of them, in order |
| MetricsStorage.MonthlyMetricsFromLocal | src/utils/metricsStorage.ts:418-515 | totals, payment buckets and rollup are those of the month's tickets, with the week breakdown as laid out above |
| Calendar.CivilRoundTrip | src/utils/metricsStorage.ts:109-111 | every valid calendar date is read back from its day number, so calendar fields and day numbers are interchangeable |
| Calendar.SameCalendarDayIff | src/utils/metricsStorage.ts:107-112 | two date-times have equal year, month and day exactly when they fall on the same day number |
| Calendar.SetDateMovesDays | src/utils/metricsStorage.ts:278 | `setDate(getDate() + k)` moves exactly `k` days and keeps the time of day, across month ends |
| Calendar.DayZeroOfNextMonth | src/utils/metricsStorage.ts:449 | `new Date(y, m + 1, 0)` is the last day of month `m` |
| Calendar.SundayOnOrBefore | src/utils/metricsStorage.ts:247 | going back `getDay()` days lands on a Sunday |
| DashboardData.RoundQuotient | src/components/metrics/useDashboardData.ts:151 | `Math.round` of the exact rational quotient: the nearest integer, halves rounded up |
| DashboardData.CalculatePercentage | src/components/metrics/useDashboardData.ts:149-152 | from a previous value of 0 the trend is 100 when the current value is positive and 0 otherwise; from any other previous value it is the exact percentage change rounded to the nearest integer, halves up |
| DashboardData.PercentageOfNoChange | src/components/metrics/useDashboardData.ts:149-152 | equal values give a trend of 0 |
| DashboardData.PercentagePositiveWhen | src/components/metrics/useDashboardData.ts:149-152 | from a non-negative previous value the trend is positive exactly when the quantity rose from 0 or by at least half a percent |
| DashboardData.PercentagePositiveIff | src/components/metrics/useDashboardData.ts:151 | from a positive previous value the trend is positive exactly when the rise is at least half a percent |
| DashboardData.PercentageMonotone | src/components/metrics/useDashboardData.ts:151 | a larger current value never shows a smaller trend |
| DashboardData.DigitalRevenue | src/components/metrics/useDashboardData.ts:125-129 | cash plus digital revenue is the sum of the four buckets |
| DashboardData.CashPlusDigitalIsSales | src/components/metrics/useDashboardData.ts:123-129 | when every ticket has a method, cash plus digital revenue is the total sales |
| DashboardData.CalculateTrends | src/components/metrics/useDashboardData.ts:147-171 | equal periods give four zero trends; for a non-negative previous value, each of revenue, valets, cash and digital revenue has a positive trend exactly when that quantity rose by at least half a percent over a positive previous value, or rose from 0 |
| DashboardData.PreviousDayAndWeek | src/components/metrics/useDashboardData.ts:47-85 | the daily and weekly comparison dates are one and seven days back at the same time of day, and the weekly one lies in the previous Sunday-start week |
| DashboardData.PreviousMonthOverflows | src/components/metrics/useDashboardData.ts:104-106 | as written, from the 31st of March the comparison date is the 2nd or 3rd of March |
| DashboardData.PreviousPeriodCases | src/components/metrics/useDashboardData.ts:47-106 | the comparison date is one day back for the daily view and seven for the weekly one, at the same time of day; for the monthly view the date as written is the same day of the previous month up to the 28th, and the corrected one is always in the previous month |
| DashboardData.PreviousMonthAsWrittenAgrees | src/components/metrics/useDashboardData.ts:104-106 | as written, up to the 28th the comparison date is the same day and time of the previous month |
| DashboardData.PreviousMonthIsPrevious | src/components/metrics/useDashboardData.ts:104-106 | the corrected comparison date is the 1st of the calendar month before the selected one, across year ends |
| DashboardData.ExpenseFilters | src/components/metrics/useDashboardData.ts:69-114 | the daily expenses are those of the selected calendar day, the weekly ones those of its Sunday-start week, the monthly ones (corrected) those of its calendar month, each in stored order |
| DashboardData.MonthExpensesMissLastDay | src/components/metrics/useDashboardData.ts:109-114 | as written, an expense after 00:00 on the month's last day is left out of the month's expenses |
| DashboardData.GenerateHourlyRevenueData | src/components/metrics/useDashboardData.ts:174-194 | 13 buckets labelled 8:00 to 20:00; bucket `h` holds the totals of the tickets made during hour `h`, and tickets outside 8 to 20 are ignored |
| DashboardData.HourStep | src/components/metrics/useDashboardData.ts:181-186 | a ticket adds its total to its own hour's bucket and to no other |
| DashboardData.HourlyBucketsAddUp | src/components/metrics/useDashboardData.ts:174-187 | the buckets add up to the sales made between 8:00 and 20:59:59.999 |
| DashboardData.IndexOfPhone | src/components/metrics/useDashboardData.ts:313 | the dictionary lookup finds the entry of a phone, or reports that there is none |
| DashboardData.VisitsSummarise | src/components/metrics/useDashboardData.ts:310-317 | one entry per phone, for exactly the tickets' phones; `visits` is the number of tickets with the phone and `name` that of its first ticket |
| DashboardData.GroupVisits | src/components/metrics/useDashboardData.ts:310-317 | the grouping loop builds that dictionary |
| DashboardData.InsertByVisitsSorts | src/components/metrics/useDashboardData.ts:325 | inserting keeps the list sorted by decreasing visits and adds exactly one entry |
| DashboardData.SortByVisitsSorts | src/components/metrics/useDashboardData.ts:325 | the sort orders by decreasing visits and is a permutation |
| DashboardData.TopClientsAreTop | src/components/metrics/useDashboardData.ts:319-326 | the top list has min(5, clients) entries, sorted, drawn from the clients, and no client left out has more visits than one kept |
| DashboardData.SplitSorted | src/components/metrics/useDashboardData.ts:326 | cutting a sorted list keeps in front the entries with the most visits |
| DashboardData.GetFrequentClients | src/components/metrics/useDashboardData.ts:309-329 | at most five clients, most visited first, each with the number of tickets with its phone |
| TicketStorage.OptionKeyInjective | src/utils/ticketStorage.ts:53-57 | the six option keys are distinct |
| TicketStorage.EncodeLaundryOptions | src/utils/ticketStorage.ts:52-60 | the loop builds the option rows of the ticket |
| TicketStorage.RowsOfMembership | src/utils/ticketStorage.ts:53-60 | there is a row for an option exactly when it is set, and every row carries the ticket's id |
| TicketStorage.OptionRowsCount | src/utils/ticketStorage.ts:52-68 | one row per option set; no rows, hence no insert, exactly when all six options are false |
| TicketStorage.DecodeLaundryOptions | src/utils/ticketStorage.ts:131-144 | decoding starts from all options false and sets each option named by a row; missing rows decode as no rows |
| TicketStorage.DecodeRowsSets | src/utils/ticketStorage.ts:140-143 | a decoded option is set exactly when some row names it |
| TicketStorage.SetOptionSets | src/utils/ticketStorage.ts:142 | setting by key turns on the named option only |
| TicketStorage.OptionRowsRoundTrip | src/utils/ticketStorage.ts:131-144 | decoding the rows the store encodes (lines 52-60) gives back the ticket's options |
| TicketStorage.DryRowsRoundTrip | src/utils/ticketStorage.ts:147-163 | stored dry-cleaning lines read back with every name, price and quantity in order; an empty list reads back as no list |
| TicketStorage.LocalTicketStore.GetStoredTickets | src/utils/ticketStorage.ts:174-188 | the stored list, or an empty list when the key is missing or holds no list |
| TicketStorage.LocalTicketStore.AppendTicket | src/utils/ticketStorage.ts:89-93 | the ticket is appended: one more entry, the earlier ones unchanged |
| TicketStorage.LocalTicketStore.StoreTicket | src/utils/ticketStorage.ts:5-94 | the database calls run in order and the first failing one stops the rest: the ticket row exists unless the customer or ticket call failed, the option rows unless an earlier call or their own failed, the dry-cleaning rows only when nothing failed; any failure appends the ticket to the local list, so a failure of the dry-cleaning insert leaves the ticket both in the database and in the local list |
| TicketStorage.LocalTicketStore.GetClientVisitData | src/utils/ticketStorage.ts:233-246 | the visit count is the number of the phone's tickets; no date for no visits, otherwise the latest of their dates |
| TicketStorage.LatestIsLatest | src/utils/ticketStorage.ts:241-244 | the head of the newest-first order is one of the dates and no date is later |
| InventoryStorage.DefaultItemsShape | src/utils/inventoryStorage.ts:9-20 | the seed has ten items with ids "1" to "10", all stamped with the time of the read |
| InventoryStorage.OnlyQuitaSangreLow | src/utils/inventoryStorage.ts:18 | of the seeded items only 'Quita sangre' (1 in stock, minimum 1) is low |
| InventoryStorage.IndexOfId | src/utils/inventoryStorage.ts:51 | `findIndex` finds the first item with the id, or reports that there is none |
| InventoryStorage.InventoryStore.GetInventoryItems | src/utils/inventoryStorage.ts:5-30 | an empty store is seeded with the defaults and saves them; a stored list is returned unchanged |
| InventoryStorage.InventoryStore.AddInventoryItem | src/utils/inventoryStorage.ts:33-46 | exactly one item, with the caller's fields, is appended; earlier items are unchanged |
| InventoryStorage.InventoryStore.UpdateInventoryItem | src/utils/inventoryStorage.ts:49-66 | an unknown id fails with 'Item not found' and changes nothing; otherwise only the first item with the id is replaced |
| InventoryStorage.InventoryStore.DeleteInventoryItem | src/utils/inventoryStorage.ts:69-74 | the items with the id are dropped |
| InventoryStorage.DeleteRemovesId | src/utils/inventoryStorage.ts:71 | deleting keeps exactly the items with other ids, in order; an unknown id changes nothing |
| InventoryStorage.InventoryStore.GetLowInventoryItems | src/utils/inventoryStorage.ts:77-80 | the items at or below their minimum |
| InventoryStorage.LowItemsExactly | src/utils/inventoryStorage.ts:79 | an item is listed as low exactly when its quantity is at most its minimum, in stored order |
| AuthService.InitialUsersShape | src/utils/authService.ts:5-34 | the seed holds four users with ids "1" to "4": three admins with all eight permissions and staff1 with tickets.view and tickets.create |
| AuthService.StaffLogin | src/utils/authService.ts:27-33 | on the seed, staff1 logs in as user "4", who may view and create tickets and nothing else |
| AuthService.FindUser | src/utils/authService.ts:55-57 | a user found has both credentials; none found means no user has both |
| AuthService.FindUserIsFirst | src/utils/authService.ts:55-57 | the user found is the first in the list with both credentials |
| Seqs.FindIndex | src/utils/inventoryStorage.ts:51 | `findIndex` returns the first position whose element satisfies the test, or none when no element does |
| AuthService.IndexOfUser | src/utils/authService.ts:106 | `findIndex` finds the first user with the id, or reports that there is none |
| AuthService.IdsAreUnique | src/utils/authService.ts:88-101 | while every user's id is its position plus one, ids are unique |
| AuthService.UserStore.GetUsers | src/utils/authService.ts:37-45 | an empty store is seeded with the initial users, which are saved |
| AuthService.UserStore.Login | src/utils/authService.ts:53-66 | the first user with the credentials becomes the session user, whose permissions are then exactly the ones held; otherwise the session is untouched |
| AuthService.UserStore.Logout | src/utils/authService.ts:69-71 | no session user remains and no permission is held |
| AuthService.UserStore.AddUser | src/utils/authService.ts:88-101 | the new user gets id count + 1 and is appended; ids stay positions |
| AuthService.UserStore.UpdateUserPermissions | src/utils/authService.ts:104-120 | an unknown id changes nothing; otherwise only that user's permissions are replaced, and the session copy is refreshed when it is that user |
| Records.AllPermissionsComplete | src/utils/userTypes.ts:12-20 | the permission list holds each of the eight permissions once |
| TicketNumber.FormatTicketNumberRoundTrip | src/utils/generateTicketNumber.ts:17 | the shown number is all digits, padded to eight or longer and never truncated, and reads back as the counter |
| TicketNumber.FormatTicketNumberInjective | src/utils/generateTicketNumber.ts:17 | distinct counter values give distinct ticket numbers |
| TicketNumber.FirstTicketNumber | src/utils/generateTicketNumber.ts:17 | the first number is "00000001" |
| TicketNumber.TicketCounter.GetLastTicketNumber | src/utils/generateTicketNumber.ts:3-6 | a missing counter reads as 0; a stored one reads as its decimal value |
| TicketNumber.TicketCounter.GenerateTicketNumber | src/utils/generateTicketNumber.ts:8-18 | the counter goes up by one, is saved as a decimal string and returned padded |
| TicketNumber.SuccessiveNumbersIncrease | src/utils/generateTicketNumber.ts:10-17 | successive calls return strictly increasing, distinct numbers |
| Text.DigitsOnlyProperties | src/components/TicketForm.tsx:35 | stripping non-digits keeps exactly the digits, in order, and changes nothing in a string of digits |
| Text.DecimalRoundTrip | src/utils/generateTicketNumber.ts:5-14 | `toString` gives digits with no leading zero (except 0) that `parseInt` reads back as the number |
| Text.PadStartShape | src/utils/generateTicketNumber.ts:17 | `padStart` puts fill characters in front up to the width and keeps the string at the end |
| Text.TrimEmptyIffBlank | src/components/TicketForm.tsx:62 | `!s.trim()` holds exactly for strings made of whitespace |
| TicketForm.CalculateTotal | src/components/TicketForm.tsx:49-51 | the total is the quantity times 5000, at least 5000 for a valid quantity |
| TicketForm.ClampQuantity | src/components/TicketForm.tsx:152 | the typed quantity is kept when at least 1; NaN, 0 and anything below 1 become 1 |
| TicketForm.CheckSubmission | src/components/TicketForm.tsx:62-70 | a blank name is refused first, then a blank phone or one shorter than 8; otherwise accepted |
| TicketForm.DigitPhoneCheck | src/components/TicketForm.tsx:67 | for a phone of digits the phone check refuses exactly the ones shorter than 8 |
| TicketForm.Form.HandlePhoneChange | src/components/TicketForm.tsx:34-37 | the phone becomes the digits of the input, which holds at most 15 characters (line 128), so the phone never exceeds 15 digits |
| TicketForm.Form.DecreaseQuantity | src/components/TicketForm.tsx:39-43 | one valet fewer only above 1, lowering the total by 5000; the quantity stays at least 1 |
| TicketForm.Form.IncreaseQuantity | src/components/TicketForm.tsx:45-47 | one valet more, raising the total by 5000 |
| TicketForm.Form.HandleQuantityInput | src/components/TicketForm.tsx:152 | the quantity becomes the clamped input |
| TicketForm.Form.ResetForm | src/components/TicketForm.tsx:53-57 | empty name and phone and one valet |
| TicketForm.Form.HandleSubmit | src/components/TicketForm.tsx:59-82 | a refused form is left as it is; an accepted one becomes the customer with the computed total and the ticket is shown |
| TicketForm.Form.NewTicket | src/components/TicketForm.tsx:84-87 | the ticket is hidden and the form reset |
| PickupOrders.FilteredTicketsSpec | src/pages/PickupOrders.tsx:33-48 | the result keeps the tickets' order; a ticket is kept exactly when the term is empty or the lowercased selected field is there and contains the lowercased term |
| PickupOrders.EmptyTermKeepsAll | src/pages/PickupOrders.tsx:34 | an empty term keeps every ticket |
| PickupOrders.MissingFieldDropped | src/pages/PickupOrders.tsx:40 | with a term, a ticket without the searched field is dropped |
| PickupOrders.CaseInsensitive | src/pages/PickupOrders.tsx:36-44 | terms that lowercase alike select the same tickets |
| PickupOrders.SearchState.HandleSearchTypeChange | src/pages/PickupOrders.tsx:50-53 | the field is switched and the term cleared, so every ticket is shown again |
| UserManagement.PermissionOptionsComplete | src/pages/UserManagement.tsx:95-104 | the checklist offers each of the eight permissions exactly once |
| UserManagement.ToggledPermissionsSpec | src/pages/UserManagement.tsx:73-79 | ticking appends the permission to the selected user's list; unticking removes every copy of it and keeps the others in order |
| UserManagement.ReplaceByIdAt | src/pages/UserManagement.tsx:86 | each list entry with the id is replaced by the updated user, every other entry is kept |
| UserManagement.ReplaceByIdUnique | src/pages/UserManagement.tsx:86 | with unique ids the screen's replacement is the store's replacement at the id's position |
| UserManagement.Screen.HandleUpdatePermissions | src/pages/UserManagement.tsx:70-93 | without a selected user nothing changes; otherwise the toggled list goes to the store: an unknown id changes nothing, and a found user becomes the selection, replaces its list entry and, when it is the session user, the session copy, which is otherwise left alone; the screen's list stays equal to the store's |
| UserManagement.Screen.HandleAddUser | src/pages/UserManagement.tsx:40-68 | the store adds the user with id count + 1 and no permission, leaving the session user alone; the screen appends it and the form is reset to empty fields and the staff role; the screen's list stays equal to the store's |
| ExpensesCard.TotalExpensesSpec | src/components/metrics/ExpensesCard.tsx:26 | the total of a list is the sum of its amounts: totals of parts add, and with positive amounts it is never negative |
| ExpensesCard.CheckExpense | src/components/metrics/ExpensesCard.tsx:29-38 | a blank description is refused first, then an amount that is not a number or not positive; otherwise accepted |
| ExpensesCard.Card.HandleAddExpense | src/components/metrics/ExpensesCard.tsx:28-59 | a refused form records nothing; an accepted one records exactly one expense with the description, amount and current time, then clears and closes the form |
| ExpensesCard.Card.Cancel | src/components/metrics/ExpensesCard.tsx:105-108 | the form is cleared and closed and nothing is recorded |
| WhatsAppSharing.NormalizePhoneShape | src/utils/whatsAppSharing.ts:15-19 | the phone is reduced to digits and starts with "54", prefixed only when the digits do not already start with it |
| WhatsAppSharing.NormalizePhoneIdempotent | src/utils/whatsAppSharing.ts:15-19 | normalising a normalised phone changes nothing |
| WhatsAppSharing.FormatItemsInOrder | src/utils/whatsAppSharing.ts:22 | the item text is the "• item" lines, in the items' order, joined by line breaks |
| WhatsAppSharing.FormatItemsLines | src/utils/whatsAppSharing.ts:22 | single-line items give one line each: one line break fewer than items, starting with the first bullet |
| WhatsAppSharing.UrlCarriesPhone | src/utils/whatsAppSharing.ts:47 | the link's phone parameter is exactly the normalised phone, followed by the text parameter |

## Left out
- DashboardData.CalculatePercentage: computes the percentage change on the exact rational quotient, while the application divides and multiplies in double precision; where the exact value is a half, the double can fall just below it and round the other way (63 against 40 valets: 57 in the application, 58 in the model; 29 against 40: -28 in the application, -27 in the model). Floating point is not modelled.
- The Supabase database: the `get_metrics` calls, the remote ticket, expense and visit queries, and the contents of the rows storing a ticket writes beyond its option and dry-cleaning rows. Only the local fallbacks are modelled; which database call fails first, if any, is a parameter of `TicketStorage.LocalTicketStore.StoreTicket`.
- Asynchrony: every call is modelled as sequential, as if each promise were awaited where it is used.
- `PickupOrders.FilteredTickets` is modelled on the list of tickets the screen means to load. As written, the screen stores the unawaited promise that `getStoredTickets` (an alias of the asynchronous `getTickets`) returns, and the next render's `tickets.filter` then fails on it, so the screen never shows a ticket; the model does not capture that failure.
- `Text.Lower` lowercases only ASCII A-Z and the Latin-1 capitals U+00C0 to U+00DE (except U+00D7). JavaScript's `toLowerCase` also lowercases other letters (for example U+0100 and U+0178) and can change a string's length (U+0130), so `PickupOrders.FilteredTicketsSpec` matches the application only for names in that range.
- Time zones, daylight saving and the clock: dates are local milliseconds with no offset, and "now" and `Date.now()` ids are parameters.
- JSON round trips through local storage (for example the `date` string turned back into a `Date`) and the `id` field of decoded dry-cleaning lines are not modelled; stored lists are sequences.
- Floating point: prices, totals and amounts are whole pesos. `parseFloat`, `toLocaleString` and the currency formatting are not modelled.
- `generateIncomeVsExpensesData` fabricates its series from fixed multipliers and has nothing to state; `generateServiceDistributionData` and all rendering, charts, toasts and routing are not modelled.
- The shared message template, `encodeURIComponent` and `window.open`: the encoded message is a parameter of `WhatsAppSharing.WhatsAppUrl`.
- `DashboardData.SortByVisits`: the ties keep their order, as `Array.prototype.sort` guarantees, but stability is not stated as a lemma. Phones that look like integers come first in JavaScript's key order, which is not modelled either: entries are in order of first appearance.
- `DashboardData.PreviousPeriod` picks the comparison date as written and `DashboardData.PreviousPeriodIntended` with the monthly case corrected; `PreviousPeriodCases` states their cases, but the metrics fetched for the comparison date are not modelled, since they come from the database.
- `TicketForm.ClampQuantity` takes what `parseInt` made of the typed text (`None` for NaN) rather than the text.
- `ExpensesCard.Card.HandleAddExpense` takes the parsed amount as an integer (`None` for NaN); fractional amounts and the error branch after storing (a failed reload of the dashboard) are not modelled.
- `TicketNumber.TicketCounter.GetLastTicketNumber` assumes the stored counter is a string of digits, as the counter itself writes it; `parseInt` on other text is not modelled.
- `WhatsAppSharing.FormatItemsLines` counts lines only for items that hold no line break themselves.
- `AuthService.UserStore` shares no array with the seed: in the application the seed array is returned and later mutated in place, which only matters after the stored list is lost.
- The screen's list in `UserManagement.Screen` is read once on mount and is empty when the store was never read; `Synced()` is stated only for a store that has been read.
- The remote weekly path's UTC day keys and the remote expense insert that never checks its error are outside the model.

## Findings

| source | as written | input that shows it | evidently intended | confidence | as-written member | corrected member |
|---|---|---|---|---|---|---|
| src/components/metrics/useDashboardData.ts:104-106 | the monthly comparison date is `setMonth(getMonth() - 1)` on the selected date | 31 March: asking for 31 February overflows to 2 or 3 March, so March is compared with March | a date in the previous calendar month | high; not executed | DashboardData.PreviousMonthOverflows | DashboardData.PreviousMonthIsPrevious |
| src/components/metrics/useDashboardData.ts:109-114 | the monthly expenses end at `new Date(year, month + 1, 0)`, 00:00 of the month's last day | an expense at 10:00 on 31 January is left out of January's expenses | every expense of the calendar month, up to 23:59:59.999 of its last day, as the monthly metrics window has it | high; not executed | DashboardData.MonthExpensesMissLastDay | DashboardData.ExpenseFilters |
