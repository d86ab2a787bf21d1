# Coffee supply-chain tracker: verified model of the store, the routes and the SMS page helpers

This project models the back end of a coffee supply-chain tracker. It covers four parts:

- The persistence layer (`DatabaseStorage`). It is a Dafny class holding one sequence per database table: users, cooperatives, farmers, coffee lots, inventory, auctions, bids, payments and SMS notifications. Inserts append a row. Updates rewrite the matching rows field by field. Queries are filter-and-sort projections of the current tables.
- The HTTP handlers that sequence the store:
  - `POST /api/lots`, `POST /api/bids`, `POST /api/payments` and `POST /api/sms/send` are methods. Their steps are the store calls in the handler's order.
  - `GET /api/lots`, `GET /api/farmers`, `GET /api/inventory` and `GET /api/dashboard/stats` are functions of the store's state.
- The data model: the four enum types, the column defaults, the unique constraints and the insert inputs. Insert inputs carry no `id` and no `createdAt`. Lot inserts carry no `qrCode` and no `harvestDate`, auction inserts no `startTime`, bid inserts no `bidTime`, and inventory inserts no `updatedAt`.
- The SMS alerts page's helpers:
  - the form validator;
  - the message templates;
  - the notification search and status filter;
  - the status counters;
  - the recipient-selection list;
  - the request bodies the send button posts.

The Dafny modules follow the program:

- `Common`: option and result types, the store's errors, JavaScript truthiness, decimal rendering, `slice(-n)`, `includes`, and ASCII lower-casing.
- `Ordering`: `WHERE`, first-row lookup and `ORDER BY` over a sequence of rows.
- `Schema`: `shared/schema.ts`.
- `Storage`: `server/storage.ts`.
- `Routes`: `server/routes.ts`.
- `SmsAlerts`: `client/src/pages/sms-alerts.tsx`.

Modelling choices:

- **Errors.** A statement the database would reject returns `Err` and changes nothing. There are two kinds: a duplicate value in a primary-key or unique column, and a string compared with or written to an enum column that is not one of its labels. Handlers turn a store error into the status code their `catch` sends (400 or 500).
- **Unique constraints.** `DatabaseStorage.Valid()` holds them all and every operation preserves it:
  - the id of every table;
  - `email` of users, when present;
  - `farmId` of farmers;
  - `lotId` of lots;
  - `transactionId` of payments.
- **Generated values.** Generated ids, the current time, `Date.now()`, `randomUUID()` and the ISO timestamp are parameters.
- **QR encoder.** The encoder is a function parameter that may fail (`None`).
- **Numbers.** Decimal columns (quantities, prices, amounts) are integers in hundredths.
- **SQL ordering.** `ORDER BY` ties are left unspecified. Listing contracts state the sort order plus the exact multiset of matching rows. They do not state one particular permutation.
- **`returning()` of an update.** Destructuring `const [row]` takes the first row; the model takes the first updated row in table order.

Behaviour worth knowing, all stated as the code does it:

- **Updates.**
  - `updateCoffeeLotStatus` performs no transition check.
  - `updateAuctionStatus` keeps `winnerId` unless a non-empty one is supplied.
  - `updateSmsStatus` stamps `sentAt` only for `"sent"`.
  - `updatePaymentStatus` stamps `processedAt` on every call.
- **`POST /api/bids`.**
  - It never compares the amount with anything and never checks that the auction is open.
  - It leaves `currentPrice` alone, although the comment above the auction lookup says it updates the auction's current price.
  - It stores the bid before looking up the auction, so the bid is kept when the auction does not exist.
- **`POST /api/sms/send`.** It leaves the stored row `"sent"` in both branches. Its response is the row as first inserted, not the stored one.
- **Lot ids.** The generated `lotId` is `"KC-2024-"` plus the last six digits of the clock, so it repeats every 1,000,000 ms. The store's unique constraint then rejects the second lot with a 400.
- **Required generated fields.** `insertCoffeeLotSchema` and `insertPaymentSchema` (shared/schema.ts:271-276, 294-297) omit the id, the timestamps and (for lots) `qrCode`, so they keep `lotId` and `transactionId` required: both columns are `notNull` with no default (shared/schema.ts:85, 130). The handlers overwrite both fields after parsing. The page's own lot and payment requests (client/src/components/lot-creation-modal.tsx:14-18, 46; client/src/pages/payments.tsx:58-64) send neither field, so as written both parses reject them and the route answers 400. The model starts after parsing (see Left out); its `NewCoffeeLot.lotId` and `NewPayment.transactionId` fields are what the parsed body carries, and the handler replaces them.
- **Group SMS.** A group send looks each selected id up among the fetched farmers first, then the users. Farmer rows have no phone, so a farmer recipient is always sent to the phone typed in the form.

## Model

| member | source | states |
|---|---|---|
| Common.NatToString | server/routes.ts:97 | `Date.now().toString()` of a non-negative clock is a non-empty string of decimal digits |
| Common.Last | server/routes.ts:98 | `slice(-n)`: the last `n` characters, or the whole string when it is shorter |
| Common.Contains | client/src/pages/sms-alerts.tsx:135-136 | `includes`: the empty term is contained in every string, and a contained term is no longer than the string |
| Common.ContainsIffOccurs | client/src/pages/sms-alerts.tsx:135-136 | `includes` holds exactly when the term occurs as a contiguous block at some position |
| Common.ToLower | client/src/pages/sms-alerts.tsx:136 | `toLowerCase` keeps the length, maps each letter A-Z to the letter 32 code points above it, keeps every other character, and leaves no letter A-Z in the result |
| Ordering.Select | server/storage.ts:128-130 | a `WHERE` filter: the result's length is the number of matching rows; every element matches; each matching row keeps its multiplicity; the result is a subsequence of the table |
| Ordering.First | server/storage.ts:88-91 | `const [row] = select … where`: `None` exactly when no row matches, otherwise the first matching row |
| Ordering.SortBy | server/storage.ts:155-157 | `ORDER BY`: a permutation of the input that is sorted by the key |
| Ordering.Insert | server/storage.ts:155-157 | inserting into a sorted sequence keeps it sorted and adds exactly that element |
| Ordering.StrLeTotal | server/storage.ts:113-115 | the name order used by `orderBy(cooperatives.name)` relates every pair of names |
| Ordering.StrLeTransitive | server/storage.ts:113-115 | the name order is transitive |
| Ordering.SelectConcat | client/src/pages/sms-alerts.tsx:150 | filtering a concatenation filters each part separately |
| Ordering.SelectAll | client/src/pages/sms-alerts.tsx:134-139 | a filter that every element passes returns the sequence unchanged |
| Ordering.CountCongruent | client/src/pages/sms-alerts.tsx:142-144 | predicates that agree on every row count the same rows |
| Ordering.FirstAt | client/src/pages/sms-alerts.tsx:73 | `find` returns the element at the first matching position |
| Schema.LotStatusRank | shared/schema.ts:25-35 | every lot status has a position in the declared order |
| Schema.LotStatusOrderIsExact | shared/schema.ts:25-35 | the lot status type has exactly nine pairwise-distinct values, all listed, in declared order |
| Schema.ParseUserRole | shared/schema.ts:16-23 | a string is a role exactly when it is one of the six labels, and it then reads as that role |
| Schema.ParseLotStatus | shared/schema.ts:25-35 | a string is a lot status exactly when it is one of the nine labels |
| Schema.ParseGrade | shared/schema.ts:37-43 | a string is a grade exactly when it is one of AA, AB, C, PB, E |
| Schema.ParsePaymentStatus | shared/schema.ts:45-50 | a string is a payment status exactly when it is pending, processing, completed or failed |
| Schema.LabelsRoundTrip | shared/schema.ts:16-50 | every enum value's label reads back as that value |
| Storage.CooperativeNameOrder | server/storage.ts:113-115 | ordering cooperatives by name is a total preorder, so `ORDER BY name` is well defined up to ties |
| Storage.DatabaseStorage.Valid | shared/schema.ts:54-142 | the primary keys and unique columns: a lot id, a `lotId`, a `farmId`, a `transactionId` or a present user `email` identifies at most one row |
| Storage.DatabaseStorage.constructor | server/storage.ts:86 | a new store has empty tables and satisfies every unique constraint |
| Storage.DatabaseStorage.GetUser | server/storage.ts:88-91 | finds a user with that id exactly when one exists |
| Storage.DatabaseStorage.CreateUser | server/storage.ts:93-96 | appends the user row, `isActive` defaulting to true; fails and changes nothing iff the id or a present email is taken (shared/schema.ts:56) |
| Storage.DatabaseStorage.GetUsersByRole | server/storage.ts:98-100 | an error exactly when the role is not a role label; otherwise exactly the users with that role |
| Storage.DatabaseStorage.GetCooperative | server/storage.ts:103-106 | finds a cooperative with that id exactly when one exists |
| Storage.DatabaseStorage.CreateCooperative | server/storage.ts:108-111 | appends the row; fails and changes nothing iff the id is taken |
| Storage.DatabaseStorage.GetAllCooperatives | server/storage.ts:113-115 | every cooperative, sorted by name |
| Storage.DatabaseStorage.GetFarmer | server/storage.ts:118-121 | finds a farmer with that id exactly when one exists |
| Storage.DatabaseStorage.CreateFarmer | server/storage.ts:123-126 | appends the row; fails and changes nothing iff the id or `farmId` is taken (shared/schema.ts:76) |
| Storage.DatabaseStorage.GetFarmersByCooperative | server/storage.ts:128-130 | exactly the farmers of that cooperative |
| Storage.DatabaseStorage.GetAllFarmers | server/storage.ts:132-134 | every farmer, oldest first |
| Storage.DatabaseStorage.GetCoffeeLot | server/storage.ts:137-140 | finds a lot with that id exactly when one exists |
| Storage.DatabaseStorage.CreateCoffeeLot | server/storage.ts:142-145 | appends the lot, status defaulting to harvested (shared/schema.ts:91); fails and changes nothing iff the id or `lotId` is taken (shared/schema.ts:85) |
| Storage.DatabaseStorage.GetCoffeeLotsByFarmer | server/storage.ts:147-149 | exactly the farmer's lots, newest first |
| Storage.DatabaseStorage.GetCoffeeLotsByStatus | server/storage.ts:151-153 | an error exactly when the string is not a status label; otherwise exactly the lots in that status, newest first |
| Storage.DatabaseStorage.GetAllCoffeeLots | server/storage.ts:155-157 | every lot, newest first |
| Storage.DatabaseStorage.UpdateCoffeeLotStatus | server/storage.ts:159-162 | for any status label, sets only `status` of the lots with that id and changes nothing else; the result is absent exactly when no lot has that id; a non-label is an error that changes nothing |
| Storage.DatabaseStorage.GetInventory | server/storage.ts:165-172 | exactly the rows whose facility type and facility id both match |
| Storage.DatabaseStorage.CreateInventoryRecord | server/storage.ts:174-177 | appends the row stamped with the current time; fails and changes nothing iff the id is taken |
| Storage.DatabaseStorage.UpdateInventoryQuantity | server/storage.ts:179-185 | sets `quantity` and `updatedAt` on every row of that lot at that facility and changes nothing else; the result is absent exactly when no row matches |
| Storage.DatabaseStorage.GetAuction | server/storage.ts:188-191 | finds an auction with that id exactly when one exists |
| Storage.DatabaseStorage.CreateAuction | server/storage.ts:193-196 | appends the auction, status defaulting to "active" (shared/schema.ts:114) and `startTime` set to now; fails and changes nothing iff the id is taken |
| Storage.DatabaseStorage.GetActiveAuctions | server/storage.ts:198-200 | exactly the auctions whose status is "active", newest first; as many as the active rows |
| Storage.DatabaseStorage.UpdateAuctionStatus | server/storage.ts:202-209 | always sets `status`; replaces `winnerId` only when a non-empty one is supplied; no other column changes, `currentPrice` included; absent exactly when no auction has that id |
| Storage.DatabaseStorage.CreateBid | server/storage.ts:212-215 | appends the bid stamped with the current time; fails and changes nothing iff the id is taken |
| Storage.DatabaseStorage.GetBidsByAuction | server/storage.ts:217-219 | exactly the auction's bids, in non-increasing amount |
| Storage.DatabaseStorage.GetHighestBid | server/storage.ts:221-224 | none exactly when the auction has no bids; otherwise one of its bids whose amount is at least every other bid's |
| Storage.DatabaseStorage.GetPayment | server/storage.ts:227-230 | finds a payment with that id exactly when one exists |
| Storage.DatabaseStorage.CreatePayment | server/storage.ts:232-235 | appends the payment, status defaulting to pending (shared/schema.ts:135); fails and changes nothing iff the id or `transactionId` is taken (shared/schema.ts:130) |
| Storage.DatabaseStorage.GetPaymentsByUser | server/storage.ts:237-241 | exactly the payments where the user is payer or payee, newest first |
| Storage.DatabaseStorage.UpdatePaymentStatus | server/storage.ts:243-249 | for a status label, sets `status` and stamps `processedAt` on the payments with that id, nothing else changes; a non-label is an error that changes nothing |
| Storage.DatabaseStorage.CreateSmsNotification | server/storage.ts:252-255 | appends the row, status defaulting to "pending" (shared/schema.ts:146); fails and changes nothing iff the id is taken |
| Storage.DatabaseStorage.GetPendingSmsNotifications | server/storage.ts:257-259 | exactly the notifications whose status is "pending" |
| Storage.DatabaseStorage.UpdateSmsStatus | server/storage.ts:261-268 | sets `status` of the rows with that id; stamps `sentAt` only when the status is "sent" and keeps it otherwise; nothing else changes |
| Routes.Pow10 | server/routes.ts:98 | proof helper for the lot-id lemmas: the powers of ten that bound the digit counts, each at least 1 |
| Routes.LowDigits | server/routes.ts:98 | the zero-padded low-order digits have exactly the requested length |
| Routes.NatToStringLength | server/routes.ts:97 | a number of at least 10^j has more than j digits |
| Routes.LastIsLowDigit | server/routes.ts:97-98 | the last character of a number's rendering is its last digit |
| Routes.LastIsLowDigits | server/routes.ts:97-98 | the last k characters of a number of at least k digits are its k low-order digits |
| Routes.LowDigitsPeriodic | server/routes.ts:98 | adding 10^k leaves the k low-order digits unchanged |
| Routes.DigitCharInjective | server/routes.ts:97 | proof helper for LotIdDistinctWithinWindow: distinct digits render as distinct characters |
| Routes.LowDigitsSeparation | server/routes.ts:98 | two numbers with equal k low-order digits are at least 10^k apart |
| Routes.LotId | server/routes.ts:97-98 | the generated id is "KC-2024-" followed by one to six decimal digits; which digits is stated by LotIdShape |
| Routes.LotIdShape | server/routes.ts:97-98 | for clocks of at least 100000 ms, the lot id is "KC-2024-" followed by exactly the clock's six low-order decimal digits, fourteen characters in all |
| Routes.LotIdRepeatsEveryMillionMs | server/routes.ts:96-98 | for clocks of at least 100000 ms, clocks 1,000,000 ms apart give the same lot id, so uniqueness rests on the store's constraint |
| Routes.LotIdDistinctWithinWindow | server/routes.ts:96-98 | for clocks of at least 100000 ms, distinct clocks less than 1,000,000 ms apart give distinct lot ids |
| Routes.PostLots | server/routes.ts:92-120 | succeeds exactly when the encoder succeeds and neither the row id nor the generated `lotId` is taken; then stores the request's lot with the generated `lotId` and the encoded `qrCode`; on any failure stores nothing and answers 400 |
| Routes.GetLots | server/routes.ts:122-139 | `farmerId` wins over `status`; with neither, every lot; always newest first; a status that is not a label answers 500 |
| Routes.GetFarmers | server/routes.ts:76-89 | with a `cooperativeId`, exactly that cooperative's farmers, otherwise every farmer oldest first |
| Routes.GetInventory | server/routes.ts:153-164 | a missing parameter answers 400 with a fixed message independent of the store; otherwise exactly that facility's rows |
| Routes.PostBids | server/routes.ts:197-212 | the bid is stored whether or not the auction exists; on an existing auction only `winnerId` can change: it becomes the bidder when the bidder id is non-empty and stays as it was otherwise; status and `currentPrice` of every auction are unchanged |
| Routes.PostPayments | server/routes.ts:225-237 | the stored payment carries `transactionId` "TXN-" followed by the uuid; a collision stores nothing and answers 400 |
| Routes.PostSmsSend | server/routes.ts:261-280 | the stored row ends "sent" in both branches, with `createdAt` from the insert's clock and `sentAt` from the later update's clock (server/storage.ts:264); the response is the row as first inserted |
| Routes.TotalQuantity | server/routes.ts:292 | the `reduce` sum of the lots' quantities; with no negative quantity it is non-negative and at least every single lot's quantity |
| Routes.TotalQuantityConcat | server/routes.ts:292 | the summed quantity of two lists is the sum of their sums |
| Routes.TotalQuantityRemove | server/routes.ts:292 | removing one lot lowers the sum by its quantity |
| Routes.MatchHead | server/routes.ts:292 | proof helper for TotalQuantityPermutation: the first lot of a list occurs in any reordering of it, and the remainders are again reorderings of each other |
| Routes.TotalQuantityPermutation | server/routes.ts:292 | the summed quantity does not depend on the order of the lots |
| Routes.TotalQuantityAppend | server/routes.ts:292 | creating a lot raises the total by exactly its quantity |
| Routes.DashboardStats | server/routes.ts:283-300 | `activeFarmers`, `coffeeLots` and `activeAuctions` are the counts of all farmers, all lots and the "active" auctions; `totalInventory` is the sum of all lot quantities |
| SmsAlerts.ParseRecipientType | client/src/pages/sms-alerts.tsx:21 | a string is a recipient type exactly when it is individual, group or all |
| SmsAlerts.ParseMessageType | client/src/pages/sms-alerts.tsx:25 | a string is a message type exactly when it is price_alert, weather, payment or general |
| SmsAlerts.FormIssues | client/src/pages/sms-alerts.tsx:21-25 | each check's issue is present exactly when that check fails: recipient type not a label, empty phone, empty message, message over 160 characters, message type not a label |
| SmsAlerts.ValidateSmsForm | client/src/pages/sms-alerts.tsx:20-26 | accepted exactly when both enum fields are labels, the phone is non-empty and the message has 1 to 160 characters, with the fields carried over; a rejection carries the non-empty list of failed checks |
| SmsAlerts.DefaultFormRejected | client/src/pages/sms-alerts.tsx:59-65 | the form as first shown is rejected for the missing phone and the missing message |
| SmsAlerts.Template | client/src/pages/sms-alerts.tsx:30-35 | a key has a template exactly when it is a message type; only "general" has the empty one; every template fits in one SMS |
| SmsAlerts.ChangeMessageType | client/src/pages/sms-alerts.tsx:154-160 | records the type; replaces the message with the template only for a non-empty template, otherwise keeps it; other fields unchanged |
| SmsAlerts.TemplateMessageIsSendable | client/src/pages/sms-alerts.tsx:24 | after choosing a non-general type the message passes both length checks |
| SmsAlerts.GeneralKeepsMessage | client/src/pages/sms-alerts.tsx:34 | choosing "general" changes only the recorded type |
| SmsAlerts.FilteredNotifications | client/src/pages/sms-alerts.tsx:134-139 | exactly the rows that match both the search and the status filter, as a subsequence of the list |
| SmsAlerts.MatchesSearchIff | client/src/pages/sms-alerts.tsx:135-136 | a row matches the search exactly when the term occurs in its phone or the lower-cased term occurs in its lower-cased message |
| SmsAlerts.EmptySearchAllStatusesShowsEverything | client/src/pages/sms-alerts.tsx:137 | with an empty search and the "all" filter the whole list is shown, in order |
| SmsAlerts.StatusTotals | client/src/pages/sms-alerts.tsx:142-144 | each counter is the number of rows whose status is exactly sent, pending or failed |
| SmsAlerts.StatusTotalsBounded | client/src/pages/sms-alerts.tsx:142-144 | the three counters sum to at most the number of rows |
| SmsAlerts.SentCounterMatchesFilter | client/src/pages/sms-alerts.tsx:137-142 | the sent counter equals the length of the list filtered on "sent" with an empty search |
| SmsAlerts.HandleRecipientSelection | client/src/pages/sms-alerts.tsx:146-152 | checking appends the id; unchecking removes every occurrence of it and keeps the other ids in their order and multiplicity |
| SmsAlerts.CheckThenUncheck | client/src/pages/sms-alerts.tsx:146-152 | checking an unselected id and unchecking it restores the selection |
| SmsAlerts.Recipients | client/src/pages/sms-alerts.tsx:73 | the combined list is the farmers followed by the users |
| SmsAlerts.PhoneFor | client/src/pages/sms-alerts.tsx:73-76 | the phone used is the form phone or the non-empty phone of a user with that id; with no such user it is the form phone |
| SmsAlerts.SmsPayloads | client/src/pages/sms-alerts.tsx:70-88 | a group send with a selection gives one body per selected id in order; any other send gives one body for the form's recipient, "unknown" when that is empty; every body carries the form's message |
| SmsAlerts.FarmerRecipientUsesFormPhone | client/src/pages/sms-alerts.tsx:73-76 | an id that names a fetched farmer is always sent to the form's phone |
| SmsAlerts.UserRecipientUsesOwnPhone | client/src/pages/sms-alerts.tsx:73-76 | an id that names no farmer and whose first user has a non-empty phone is sent to that phone |

## Left out

- Request-body parsing with the insert validators (`insertCoffeeLotSchema.parse` and the others). The model takes already-typed insert inputs and leaves out the 400 a malformed body causes.
- Column widths (`varchar(255)`, `varchar(20)`) and the precision of `decimal(10,2)`. Strings longer than a column and overflowing decimals are accepted.
- Explicit `null` for a nullable column that has a default, for example `status: null`. An absent optional field takes the default. Auction and SMS status are therefore never null in the model.
- The database's collation for `ORDER BY name`. The model orders by character code.
- Routes.GetLots and Storage.DatabaseStorage.GetAllFarmers and the other listings: the order among rows with equal sort keys is left unspecified, as SQL leaves it.
- Common.ToLower: lower-cases ASCII letters only. Other scripts' case mappings are left out.
- SmsAlerts.ValidateSmsForm: the length limit counts Unicode characters where JavaScript counts UTF-16 code units. The two differ for characters outside the Basic Multilingual Plane. The validator's built-in messages for the enum fields are also left out.
- SmsAlerts.Template: looks up only the four keys the page's selector offers. The properties every JavaScript object inherits are left out.
- Routes.DashboardStats: sums quantities exactly, in hundredths. The handler's `parseFloat` sum in floating point is left out.
- The QR-code image encoding and the JSON text handed to it. The encoder is a parameter that may fail, applied to the traceability record.
- Routes.PostSmsSend: the SMS gateway environment check, the console log and any actual sending. The gateway flag is a parameter, and both branches make the same store call.
- The other routes: each is a single store call answered with its result, or with 400/500 when the store throws. They add nothing beyond the store methods modelled above, with one exception. `POST /api/inventory` (server/routes.ts:166-174) applies no insert schema: it hands the raw body to `createInventoryRecord`, so a client-supplied `id` or `updatedAt` reaches the insert and would replace the generated value. The model's `CreateInventoryRecord` takes an insert input without those fields, so that path is left out.
- Concurrency. Requests are modelled one at a time, and the `Promise.all` of a group send as a list of request bodies.
- Rendering, caching, toasts and every other page.
