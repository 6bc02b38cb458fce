# CustomerTrackPay in Dafny

A model of the core of CustomerTrackPay. The app tracks customers, the purchases they rent or buy on installments, and the payments due on those purchases. The model covers:

- **Payment schedule.** `calculatePayments` turns a purchase into its payment schedule (`Schedule`).
- **Money and time.** Amounts are decimal text; the model keeps them as integer cents. Calendar arithmetic follows date-fns (`Money`, `Calendar`).
- **Schemas.** Request bodies pass through validation schemas (`Schema`).
- **Store.** `SqliteStorage` keeps four tables: users, customers, purchases and payments. It enforces foreign keys with `ON DELETE CASCADE` and answers the dashboard's queries (`Storage`).
- **Customer summaries.** Each customer gets its next payment, overdue total and paid total (`Ledger`, and `SqliteStorage.GetCustomers`).
- **Routes.** The model covers three handlers, each behind `requireAuth` (`Routes`):
  - the KPI report;
  - marking a payment paid;
  - the bulk import of customers from CSV.
- **Client pages.** The customer page's payment badge and its Mark Paid button (`CustomerDetail`), and the dashboard's search and status filter (`Dashboard`).

Conventions of the model:

- A table is a sequence in insertion (rowid) order.
  - `WHERE` is `Seqs.Filter`.
  - `ORDER BY` is the stable `Seqs.SortBy`.
  - `LIMIT` is `Seqs.Take`.
- Ids come from a counter (`nextId`) in place of `randomUUID`. Each id is fresh, and ids grow along every table.
- An insert whose parent row is missing fails with SQLite's `FOREIGN KEY constraint failed`.
- The clock is a parameter `now`: one instant per request.
- The logged-in user is a parameter `session`, with `None` for a request that is not authenticated.
- The CSV parser's output (`parsed`) and the customer validator (`validate`) are parameters of the bulk import.
- `insertCustomerSchema` (`Routes.InsertCustomerSchema`) is modelled on the object the route builds: a required text name and nullable email, phone and company. `Routes.ParseCustomer` shows it accepts every mapped row, even one with no name column. So with this validator and the caller's user row present, a bulk import rejects no row (`Routes.ImportRejectsNothing`).

Behaviour kept as the code has it:

- **The mark-paid route does not record who marked the payment.** The route calls `updatePayment`, not `markPaymentPaid`, so `markedPaidBy` keeps its old value. The activity log therefore does not list such payments unless they already carried a marker.
- **The two overdue queries use different tests.** `getOverduePaymentsCount` tests the due date against `now`. `getOverduePayments` looks only at the stored status.
- **`updatePayment` returns the new purchase id but does not store it.** The returned payment names the purchase id from the request. The stored row keeps its purchase.

## Model

| member | source | states |
|---|---|---|
| Calendar.DaysInMonth | server/routes.ts:54-62 | a month has 28 to 31 days, fewer than 30 only in February, which has 29 exactly in a leap year |
| Calendar.AddMonths | server/routes.ts:54-62 | `addMonths` moves the month by k, keeps the time of day, and clamps the day to the last day of a shorter month |
| Calendar.AddMonthsStrictlyIncreasing | server/routes.ts:54-62 | later installment numbers fall on strictly later dates |
| Calendar.AddMonthsZero | server/routes.ts:54-62 | adding zero months is the identity |
| Calendar.AddYears | server/routes.ts:59-61 | `addYears`: the same month of the year k years on, the time of day kept, February 29 clamped to the 28th outside leap years |
| Calendar.OrdinalInjective | server/storage.ts:801-836 | comparing instants by their millisecond ordinal is a total order: equal ordinals are equal instants |
| Calendar.LaterMonthIsLater | server/storage.ts:854-893 | any instant of a later month is later |
| Calendar.PeriodStartsOrdered | server/routes.ts:289-295 | start of year <= start of month <= now <= end of month |
| Calendar.StartOfMonth | server/routes.ts:291-292 | `startOfMonth`: in the same month, not after now, and no instant of the month is earlier |
| Calendar.StartOfYear | server/routes.ts:293-294 | `startOfYear`: January of the same year, not after now, and no instant of the year is earlier |
| Calendar.EndOfMonth | server/storage.ts:857 | the last day of the month at 23:59:59.999: in the same month, not before now, and no instant of the month is later |
| Calendar.AddDaysAdvances | server/storage.ts:801-806 | `now + daysAhead` days is not before `now`, and is strictly after it when daysAhead > 0 |
| Calendar.AddDays | server/storage.ts:805 | `now + days * 24h`: the same time of day, and zero days is no move; `AddDaysOne` and `AddDaysStep` fix it as the days-th next calendar day |
| Calendar.AddDaysCompose | server/storage.ts:805 | moving forward a days and then b days is moving forward a + b days |
| Calendar.NextDay | server/storage.ts:805 | the next calendar day at the same time of day: the next day of the month, or the first of the next month after its last day; strictly later |
| Calendar.AddDaysOne | server/storage.ts:805 | `now + 1 * 24h` is the next calendar day |
| Calendar.AddDaysStep | server/storage.ts:805 | `now + (n + 1) * 24h` is the day after `now + n * 24h`, so `AddDays(t, n)` is the n-th next day |
| Money.DigitChar | shared/schema.ts:72-73 | a digit's character is a digit with that value |
| Money.DigitPrefix | shared/schema.ts:72-73 | the longest run of leading digits |
| Money.DigitPrefixIs | shared/schema.ts:72-73 | any run of digits followed by a non-digit is that longest run |
| Money.AmountShape | shared/schema.ts:72-73 | the amount pattern `^\d+(\.\d{1,2})?$`: digits, optionally a point and one or two digits |
| Money.IsAmount | shared/schema.ts:72-73 | an accepted amount starts and ends with a digit |
| Money.AmountRejects | shared/schema.ts:97 | the pattern rejects the empty text, signs, a leading or trailing point and three decimals |
| Money.NatToDigits | server/routes.ts:26 | decimal digits of a whole number, at least one |
| Money.DigitsRoundTrip | server/routes.ts:26 | reading back the printed digits gives the number |
| Money.FormatCents | server/routes.ts:26 | `toFixed(2)`: digits, a point and exactly two decimal digits |
| Money.ParseAmount | server/routes.ts:306-309 | `parseFloat` of an amount in cents: the digits read with the point removed, scaled by 10 when there is one decimal; the whole part gives the whole units, and a number without decimals has no cents |
| Money.DropPoint | server/routes.ts:306-309 | the digits before and after the point read as one number are the whole part shifted by the number of decimals plus the decimals |
| Money.ParseAmountExamples | server/routes.ts:306-309 | "1.5" is 150 cents and "0.05" is 5 cents |
| Money.FormatCentsRoundTrip | server/routes.ts:26-42 | `toFixed(2)` of an amount matches the amount pattern and `parseFloat` reads back the same cents |
| Money.InstallmentCents | server/routes.ts:65-76 | `(remaining / n).toFixed(2)` is the quotient rounded to the nearest cent |
| Seqs.SortBy | server/storage.ts:390 | `ORDER BY due_date ASC`: a permutation of the rows, sorted by ascending key |
| Seqs.Take | server/storage.ts:823-824 | `LIMIT`: the first rows, at most n, all rows when fewer |
| Seqs.SortTake | server/storage.ts:823-824 | `ORDER BY key LIMIT n`: sorted, at most n, no more copies than the input, and an element is left out only when n no larger were kept |
| Seqs.SortByStable | server/storage.ts:1019-1021 | the sort is stable: the elements with any one key keep their relative order |
| Seqs.IncreasingNoRepeats | server/storage.ts:75-141 | a table whose ids strictly increase holds no row twice (ids are primary keys) |
| Schedule.InstallmentCount | server/routes.ts:53-62 | 4 installments when quarterly, 3 when yearly, 6 otherwise |
| Schedule.AddPeriod | server/routes.ts:54-62 | the k-th period is 3k months on when quarterly, 12k when yearly, else k; same time of day, and the same day of the month unless clamped to that month's last day |
| Schedule.AddPeriodIncreasing | server/routes.ts:54-62 | monthly, quarterly and yearly periods advance strictly; period 0 is the purchase date |
| Schedule.ScheduleProperties | server/routes.ts:16-84 | a schedule's due dates strictly increase from the purchase date; a payment is paid exactly when it has a paid date; every unpaid installment shows overdue exactly when stored overdue |
| Schedule.CalculatePayments | server/routes.ts:16-84 | `calculatePayments`: one-time (full price, paid iff the initial payment covers it), otherwise a paid initial payment when positive and, when something remains, its installments; plus the properties above |
| Schedule.Drafts | server/routes.ts:32-83 | the installment loop builds exactly the schedule `IsSchedule` describes |
| Schedule.AddInstallments | server/routes.ts:66-81 | the loop keeps what was already pushed and appends installments 1 to n, each due that many periods after the purchase date, overdue exactly when due before now |
| Schedule.PushInstallment | server/routes.ts:66-81 | pushing installment i + 1 keeps the earlier entries and extends the run of installments by one |
| Schedule.PlanFromParts | server/routes.ts:40-83 | the paid initial payment (when positive) followed by the installments is an installment plan |
| Schedule.PlanEntries | server/routes.ts:53-83 | in an installment plan the k-th installment is due k periods after the purchase date; paid iff it has a paid date; an unpaid entry is overdue iff due before now |
| Schema.ValidateCreateUser | shared/schema.ts:20-28 | ok iff the username has at least 3 and the password at least 6 UTF-16 code units and the role is admin or user; each failing field contributes its issue, in field order |
| Schema.Utf16Length | shared/schema.ts:21-22 | the JavaScript length: at least the character count, at most twice it, and equal to it when no character lies outside the basic plane |
| Schema.AstralUsernameAccepted | shared/schema.ts:21-22 | a two-character username and a three-character password whose characters lie outside the basic plane have lengths 3 and 6 and are accepted |
| Schema.ValidatePurchase | shared/schema.ts:70-73 | ok iff both money fields match the amount pattern; one "Invalid price format" per failing field |
| Schema.ValidatePayment | shared/schema.ts:95-98 | ok iff the amount matches the pattern; the error is "Invalid amount format" |
| CustomerDetail.PaymentStatus | client/src/pages/customer-detail-page.tsx:39-43 | the badge: paid iff stored paid; overdue iff not paid and due before now; upcoming otherwise |
| CustomerDetail.ShowsMarkPaid | client/src/pages/customer-detail-page.tsx:216-227 | the Mark Paid button shows exactly for payments not stored as paid |
| Ledger.NextDueIndex | server/storage.ts:393-406 | the index of the next payment, within the sequence |
| Ledger.NextDueIndexSpec | server/storage.ts:393-406 | the next payment is pending (unpaid, not past due), none pending is earlier, and it is the first of equal dates; none iff nothing is pending |
| Ledger.FoldStep | server/storage.ts:393-406 | one payment of the summary loop adds its amount to paid or overdue, or becomes the next payment when earlier |
| Ledger.PaidStep | server/routes.ts:304-307 | one payment adds to the period's paid total exactly when it is paid on or after the period start |
| Ledger.TotalsAppend | server/routes.ts:300-313 | the paid and overdue totals of two lists add up |
| Ledger.FoldPayments | server/storage.ts:393-406 | the summary loop over one purchase's payments extends the running summary to them |
| Ledger.PaidTotalSinceMonotone | server/routes.ts:289-307 | a later period start never counts more paid money |
| Ledger.PaidAndOverdueDisjoint | server/routes.ts:303-310 | paid plus overdue never exceeds all the money owed |
| Ledger.TotalsAgreeWithBadge | client/src/pages/customer-detail-page.tsx:39-43 | the totals count a payment as paid, overdue or pending exactly when its badge says so |
| Storage.CustomersOf | server/storage.ts:103-105 | the customers whose owner survives a user deletion |
| Storage.PurchasesOf | server/storage.ts:114-116 | the purchases whose customer survives |
| Storage.PaymentsOf | server/storage.ts:126-128 | the payments whose purchase survives |
| Storage.WithoutUser | server/storage.ts:312-324 | all users but the deleted id |
| Storage.WithoutCustomer | server/storage.ts:572-578 | all customers but the owned one deleted |
| Storage.CascadeKeepsTables | server/storage.ts:91-141 | deletion followed by the cascade keeps keys unique, usernames unique and every reference valid |
| Storage.AdminSurvives | server/storage.ts:312-324 | refusing to delete the last admin leaves an admin |
| Storage.AddUserOk | server/storage.ts:233-255 | a user under the next id with an unused username can be appended with the tables staying consistent |
| Storage.AddCustomerOk | server/storage.ts:463-492 | a customer under the next id whose owner exists can be appended with the tables staying consistent |
| Storage.AddPurchaseOk | server/storage.ts:611-641 | a purchase under the next id whose customer exists can be appended with the tables staying consistent |
| Storage.AddPaymentOk | server/storage.ts:714-751 | a payment under the next id whose purchase exists can be appended with the tables staying consistent |
| Storage.ReadBackPurchase | server/storage.ts:676-680 | reading the purchase back by id after the update gives the updated row |
| Storage.ReplaceCustomerOk | server/storage.ts:549-570 | an update that keeps id and owner keeps the tables consistent |
| Storage.ReplacePurchaseOk | server/storage.ts:643-682 | an update that keeps id and customer keeps the tables consistent |
| Storage.ReplacePaymentOk | server/storage.ts:771-799 | an update that keeps id and purchase keeps the tables consistent |
| Storage.PatchedPurchase | server/storage.ts:643-682 | every supplied column takes the new value, every unsupplied one is kept; id, customer and creation are never changed |
| Storage.PatchedPayment | server/storage.ts:771-799 | every supplied field takes the new value (a null paid date clears it), every unsupplied one is kept; markedPaidBy is never changed |
| Storage.StoredPayment | server/storage.ts:777-790 | the stored row has the patched amount, due date, status and paid date but keeps its purchase, id, creation and marker; it equals the returned payment iff the purchase id was not changed |
| Storage.UpdateColumns | server/storage.ts:650-670 | a column is in the update list iff its field was supplied, and the row is the patched purchase |
| Storage.NewestEntries | server/storage.ts:1019-1021 | the activity log keeps at most `limit` entries, newest first, a sub-multiset of the queries' entries, and drops an entry only when `limit` no older ones were kept (`KeepsNewest`) |
| Storage.PaidFirst | server/storage.ts:1002 | `ORDER BY paid_date DESC`: a permutation, dated payments latest first, undated ones last |
| Storage.PaidDateDesc | server/storage.ts:1002-1003 | with `LIMIT n`: at most n, in that order, and a payment is left out only when n paid no earlier were kept |
| Storage.SqliteStorage.constructor | server/storage.ts:75-141 | a fresh store has empty, consistent tables |
| Storage.SqliteStorage.SetTables | server/storage.ts:91-141 | installing consistent tables keeps the store consistent |
| Storage.SqliteStorage.GetUser | server/storage.ts:213-221 | the user with the id, none iff no such user |
| Storage.SqliteStorage.GetUserByUsername | server/storage.ts:223-231 | the user with the username, none iff no such user |
| Storage.SqliteStorage.InsertUser | server/storage.ts:233-255 | a fresh-id user appended; a taken username fails and changes nothing |
| Storage.SqliteStorage.CreateUser | server/storage.ts:233-255 | self-registration always gives role "user" and no creator |
| Storage.SqliteStorage.CreateUserByAdmin | server/storage.ts:289-310 | the admin-created user carries the validated role and the admin as creator |
| Storage.SqliteStorage.DeleteUser | server/storage.ts:312-324 | unknown id gives false; the last admin is refused; otherwise the user and by cascade their customers, purchases and payments go; an admin always remains |
| Storage.SqliteStorage.GetCustomer | server/storage.ts:339-351 | the customer with the id only if the user owns it |
| Storage.SqliteStorage.CreateCustomer | server/storage.ts:463-492 | a fresh-id customer owned and created by the user, appended; a missing owner fails and changes nothing |
| Storage.SqliteStorage.UpdateCustomer | server/storage.ts:549-570 | an owned customer gets the new name and each supplied optional field; nothing else changes |
| Storage.SqliteStorage.DeleteCustomer | server/storage.ts:572-578 | true iff owned; then the customer and by cascade its purchases and payments go; otherwise nothing changes |
| Storage.SqliteStorage.GetPurchase | server/storage.ts:580-594 | the purchase with the id, none iff no such purchase |
| Storage.SqliteStorage.PurchasesByCustomer | server/storage.ts:596-609 | exactly the customer's purchases, as a subsequence of the table (each once, in table order) |
| Storage.SqliteStorage.CreatePurchase | server/storage.ts:611-641 | a fresh-id purchase appended; a missing customer fails and changes nothing |
| Storage.SqliteStorage.UpdatePurchase | server/storage.ts:643-682 | none for an unknown id; no named column leaves the store unchanged; otherwise the patched purchase replaces the old one and is what is read back |
| Storage.SqliteStorage.WritePurchase | server/storage.ts:675-681 | the `UPDATE` replaces the purchase with the written row, the tables stay consistent, and `getPurchase` reads that row back |
| Storage.SqliteStorage.GetPayment | server/storage.ts:684-697 | the payment with the id, none iff no such payment |
| Storage.SqliteStorage.PaymentsByPurchase | server/storage.ts:699-712 | a permutation of the purchase's payments, earliest due first |
| Storage.SqliteStorage.CreatePayment | server/storage.ts:714-751 | a fresh-id payment appended, marked paid by the user iff it has a paid date; a missing purchase fails |
| Storage.SqliteStorage.MarkPaymentPaid | server/storage.ts:753-769 | none for an unknown id; otherwise paid now, marked by the user, amount, due date and purchase unchanged |
| Storage.SqliteStorage.UpdatePayment | server/storage.ts:771-799 | none for an unknown id; otherwise returns the patched payment and stores it with its old purchase |
| Storage.SqliteStorage.RowFor | server/storage.ts:816-819 | the inner join of a payment with its purchase and customer: a row exactly when the purchase exists and its customer exists and belongs to the user |
| Storage.SqliteStorage.JoinRows | server/storage.ts:816-819 | exactly the joinable rows owned by the user, and no row twice when no payment is listed twice |
| Storage.SqliteStorage.UpcomingPayments | server/storage.ts:801-836 | unpaid, due after now and by now + days, earliest first, at most ten, no more copies than match, and a match is cut only when ten no later were returned |
| Storage.SqliteStorage.OverduePaymentsCount | server/storage.ts:838-852 | the number of the user's unpaid payments due before now |
| Storage.SqliteStorage.OverduePayments | server/storage.ts:895-928 | a permutation of the user's payments stored as overdue, earliest first |
| Storage.SqliteStorage.ThisMonthUpcomingPayments | server/storage.ts:854-893 | a permutation of the user's payments stored as upcoming and due within this calendar month, earliest first |
| Storage.SqliteStorage.QueriesListEachRowOnce | server/storage.ts:596-928 | on consistent tables no query lists the same row twice |
| Storage.SqliteStorage.UsernameOf | server/storage.ts:955 | the username, or "Unknown" when the user is missing or the name empty; never empty |
| Storage.SqliteStorage.RecentCustomers | server/storage.ts:934-945 | at most `limit` customers, newest first, no more copies than the table, and a customer is left out only when `limit` no older were kept |
| Storage.SqliteStorage.RecentPurchases | server/storage.ts:960-973 | at most `limit` purchases, newest first, no more copies than the table, and a purchase is left out only when `limit` no older were kept |
| Storage.SqliteStorage.RecentPayments | server/storage.ts:988-1004 | at most `limit` payments paid with a recorded marker, latest paid date first and undated ones last; a marked payment is left out only when `limit` payments paid no earlier were kept |
| Storage.SqliteStorage.CustomerEntries | server/storage.ts:947-957 | one entry per customer, in order |
| Storage.SqliteStorage.PurchaseEntries | server/storage.ts:975-985 | one entry per purchase, in order |
| Storage.SqliteStorage.PaymentEntries | server/storage.ts:1006-1016 | one entry per payment, in order |
| Storage.SqliteStorage.PushCustomerEntries | server/storage.ts:947-957 | the loop appends the customer entries |
| Storage.SqliteStorage.PushPurchaseEntries | server/storage.ts:975-985 | the loop appends the purchase entries |
| Storage.SqliteStorage.PushPaymentEntries | server/storage.ts:1006-1016 | the loop appends the payment entries |
| Storage.SqliteStorage.ActivityLog | server/storage.ts:930-1022 | the three queries' entries sorted newest first and cut to `limit`, meeting `KeepsNewest` |
| Storage.SqliteStorage.SummarizeCustomer | server/storage.ts:381-410 | the nested loops compute the customer's summary over its payments in visit order |
| Storage.SqliteStorage.OwnedCustomers | server/storage.ts:368-369 | a permutation of the user's customers, newest first |
| Storage.SqliteStorage.GetCustomers | server/storage.ts:367-420 | one summary per owned customer, in that order |
| Routes.RequireAuth | server/routes.ts:9-14 | passes iff logged in, with the user's id; otherwise 401 |
| Routes.FilterDate | server/routes.ts:289-295 | a period start iff month or year; it is a midnight on the first of this month or this year, not after now |
| Routes.AddUpPayments | server/routes.ts:302-311 | the innermost loop adds the payments' paid and overdue amounts |
| Routes.AddUpPurchases | server/routes.ts:299-312 | the purchase loop adds each purchase's payments in visit order |
| Routes.Kpi | server/routes.ts:280-322 | 401 when logged out; otherwise the paid total since the period start and the overdue total over the user's payments |
| Routes.KpiPeriodsNest | server/routes.ts:289-307 | paid this month <= paid this year <= paid ever |
| Routes.KpiTotalsDisjoint | server/routes.ts:303-310 | paid plus overdue never exceeds all the money owed |
| Routes.KpiAgreesWithSummaries | server/routes.ts:297-313 | the all-time KPI totals equal the sums of the customer summaries' totals |
| Routes.MarkPaidPatch | server/routes.ts:268-271 | the route's update names only status paid and paid date now |
| Routes.MarkPaid | server/routes.ts:252-278 | 401; 404 for an unknown payment; 403 unless the user owns its customer; otherwise paid now with markedPaidBy unchanged, only that row changes; the purchase 404 cannot happen |
| Routes.Cell | server/routes.ts:185-190 | a column's text unless missing or empty |
| Routes.MapRow | server/routes.ts:185-190 | name, else customer_name, else empty; email, phone and company or null |
| Routes.RowObject | server/routes.ts:185-190 | the object literal: the four keys, the name as text, each optional field as text when present and null otherwise |
| Routes.RequiredText | shared/schema.ts:39 | a `notNull` text column: ok iff the key is present with text; "Required" when missing, "Expected string, received null" when null |
| Routes.NullableText | shared/schema.ts:41-43 | a nullable text column: a value iff the key holds text; missing and null both read as none |
| Routes.InsertCustomerSchema | shared/schema.ts:48-53 | ok iff the name is present as text; the result carries the name and the nullable fields; a rejection has a message |
| Routes.ParseCustomer | server/routes.ts:185-193 | building the object from mapped fields and parsing it gives back exactly those fields |
| Routes.ImportRejectsNothing | server/routes.ts:178-207 | with the route's validator and the user row present, no row is rejected and every row is imported |
| Routes.RowVerdict | server/routes.ts:183-206 | a row passes iff the validator accepts it and the owner exists; a validator error is reported through `ErrorText`, a missing owner as the foreign-key error |
| Routes.ErrorText | server/routes.ts:205 | the error's message, or exactly "Unknown error" when empty |
| Routes.Imports | server/routes.ts:178-199 | at most one import per row |
| Routes.Rejections | server/routes.ts:200-207 | at most one rejection per row |
| Routes.ImportsSound | server/routes.ts:178-199 | every import comes from an accepted row, with its row number and a fresh consecutive id, in row order |
| Routes.ImportsComplete | server/routes.ts:178-199 | every accepted row is imported |
| Routes.RejectionsSound | server/routes.ts:200-207 | every rejection comes from a refused row, with its row number, data and error, in row order |
| Routes.RejectionsComplete | server/routes.ts:200-207 | every refused row is rejected |
| Routes.ImportAccounting | server/routes.ts:210-214 | imports plus rejections are all the rows |
| Routes.ImportedNotRejected | server/routes.ts:178-207 | no row is both imported and rejected |
| Routes.ImportedRowPassed | server/routes.ts:193-199 | an imported row is a row whose checks passed |
| Routes.RejectedRowFailed | server/routes.ts:200-206 | a rejected row is a row whose checks failed |
| Routes.RowImported | server/routes.ts:193-199 | a row that passes is appended to the imports under the next fresh id and leaves the rejections as they were |
| Routes.RowRejected | server/routes.ts:200-206 | a row that fails is appended to the rejections with its data and error and leaves the imports as they were |
| Routes.ImportedCustomersAppend | server/routes.ts:193-199 | one more import adds its customer at the end of the customers created |
| Routes.ImportedCustomers | server/routes.ts:193-197 | the customers of the imports, in order |
| Routes.RowRecorded | server/routes.ts:193-206 | recording one row's outcome extends the reports to that row |
| Routes.CreateFromRow | server/routes.ts:183-192 | a row is created exactly when it validates and the owner exists; otherwise its error is recorded and nothing changes |
| Routes.ImportRow | server/routes.ts:178-207 | one iteration keeps the reports and the customer table in step |
| Routes.BulkImport | server/routes.ts:152-218 | 401; 400 without CSV text; otherwise total = success + failed, the reports are the row-wise imports and rejections, and exactly the imported customers are appended |
| Dashboard.LowerChar | client/src/pages/dashboard-page.tsx:72-74 | a lowered character is never a capital; capitals move by 32, the rest stay |
| Dashboard.ToLower | client/src/pages/dashboard-page.tsx:72-74 | same length, no capitals, other characters kept |
| Dashboard.ToLowerIdempotent | client/src/pages/dashboard-page.tsx:72-74 | lowering twice is lowering once |
| Dashboard.Contains | client/src/pages/dashboard-page.tsx:72-74 | `includes` iff the needle occurs at some position |
| Dashboard.ContainsEmpty | client/src/pages/dashboard-page.tsx:43 | the empty search occurs in any text |
| Dashboard.SearchIgnoresCase | client/src/pages/dashboard-page.tsx:70-75 | the search ignores the case of the term, and the empty term matches every customer |
| Dashboard.FilteredCustomers | client/src/pages/dashboard-page.tsx:70-83 | a customer is listed iff it matches the search and, under "overdue", has an overdue total, under "upcoming", a next payment |
| Dashboard.FilteredKeepsOrder | client/src/pages/dashboard-page.tsx:43-83 | the list keeps the summaries' order, and with the defaults (empty search, "all") lists every customer |

## Left out

- Ties in `ORDER BY`: SQLite returns rows with equal sort keys in an unspecified order; the model keeps table order (a stable sort) for them everywhere. This concerns `OwnedCustomers` and so the order of `GetCustomers` (customers of one bulk import share their creation time), `PaymentsByPurchase` and so which of two payments due at the same instant `Ledger.NextDueIndex` reports as next, the dashboard queries (`UpcomingPayments`, `OverduePayments`, `ThisMonthUpcomingPayments`, including which of equally due rows fall under `LIMIT 10`), and the three activity-log queries and their merge.
- Time zones and daylight saving time: an instant is a month, a day and a millisecond of the day in one fixed zone.
- Floating point: amounts are integer cents. `parseFloat` sums and `Math.round(x * 100) / 100` are exact in the model. `toFixed(2)` rounds halves up.
- Money.InstallmentCents: states the rounding only. Binary rounding of `toFixed` on values like x.xx5 is not modelled.
- Character case: `toLowerCase` lowers ASCII capitals only. UTF-16 and other Unicode case mappings are not modelled.
- CSV parsing (`Papa.parse`) is not modelled. The parsed rows are an input, with headers already trimmed and lower-cased.
- Sessions, passport and password hashing are not modelled. The login state is the `session` parameter, and passwords are stored as given.
- The database file, its creation and migrations are not modelled. The store starts from empty or from consistent tables (`SetTables`).
- The purchase route (`POST /api/purchases`) is not modelled. It passes fields the schema no longer has.
- getAllCustomers, getAllUsers, getUsersWithStats, getCustomerById, getCustomerWithPurchases, resetUserPassword and isAdmin are not modelled. They are admin and detail queries outside this core.
- The 500 responses of the `catch` blocks are not modelled. The store raises only the errors the model names.
- Storage.SqliteStorage.ActivityLog: entity names and details of the entries are not modelled, only kind, id, time and user.
- Storage.SqliteStorage.GetCustomers: reads `now` once, where the source creates a new Date per payment.
- Storage.SqliteStorage.SummarizeCustomer: the totals are cents, not the `toString` of a float.
- Routes.BulkImport: the customer validator is a parameter, so other schemas can be plugged in. `Routes.ParseCustomer` is the one the route uses.
- Routes.InsertCustomerSchema: the error is the issue's message. The `ZodError` message, a JSON list of all issues, is not modelled. Field values other than text and null cannot arise from the route and are not modelled.
- Storage.SqliteStorage.UpcomingPayments: `daysAhead` is a whole number of days (`nat`). A negative or fractional `daysAhead` is not modelled; a negative one makes the window end before now, so the source returns no rows.
- Storage.SqliteStorage.ActivityLog: `limit` is a parameter. The default of 50 is not modelled.
- Routes.Kpi: the totals are exact cents. The source rounds a float sum to two decimals.
- Dashboard.FilteredCustomers: a list that has not loaded yet (`customers` undefined) is not modelled.
