# MLBB skins management: the order and balance ledger

This project models the core of a small order desk for Mobile Legends skin
gifting orders. An ADMIN records an order and assigns it to a supplier. The
supplier's diamond balance is charged the order's price. The supplier follows
the buyer in game and marks the order ready once seven days have passed. The
order is then sent, or it is refunded or fails, which gives the price back.
Every change to a balance is paired with one appended row of the balance
ledger (`BalanceLog`) carrying the same signed amount.

The model covers:

- the balance-effect engine of `src/lib/orders.ts`. `Orders.UpdateOrderWithBalanceEffects` deducts, refunds or transfers an order's price. `Orders.CheckAndMarkReadyOrders` is the seven-day sweep. Both run as methods over a `Store` class holding the user, supplier and order tables and the ledger;
- the routes that create orders and suppliers, and the routes that list orders, suppliers, ledger rows, admin counts and the signed-in user's profile. Each is a function or a method from a session, a parsed body and the store to a `Result` whose failure side is the HTTP status and message. A request body that is not JSON is `None`. An exception that a handler does not catch becomes `Domain.UncaughtError`, the framework's bare 500;
- the validation schemas, modelled as parsers from a JSON field model (`Validators.Value`) to typed input;
- the pure policy functions: balance health, status formatting, the path/role gate of the middleware, the role home pages and page guards, and the credential check;
- the scan of the player-lookup reply for the in-game name;
- the logic of the two order pages: the day countdown, the query the admin page builds, and the supplier page's partition, balance input guard and action buttons.

The ledger invariants are the heart of the proofs. `Store.Store.Valid` is
`Store.WellFormed`: the tables' keys match their rows, e-mails and supplier
owners are unique, and foreign keys resolve. `Store.Store.Balanced` is
`Ledger.Balanced`, made of these rules:

- every stored balance equals the sum of the ledger rows against that supplier;
- for each order and supplier, the order's rows net to minus its price exactly when it is deducted and at that supplier, and to zero otherwise;
- `balanceDeductedAt` is set exactly when the status is neither REFUNDED nor FAILED;
- prices are positive;
- no ledger row is zero.

Every operation that changes the store is proved to keep both invariants.
So the invariants hold for a store built by the modelled operations from an
empty database (`Store.Store.constructor`). The seed script
(prisma/seed.ts:63-91) is a different case. It stores supplier balances of
12000 and 8000 with no ledger row, and it resets them the same way when it
is run again. A seeded database is therefore not `Ledger.Balanced`, and no
store method's contract applies to one.

Modelling choices:

- Time is integer milliseconds and is passed in as `now`.
- Generated ids are passed in as parameters.
- A password hash, a password comparison, `Number`/`Date` coercion and the e-mail check are function parameters, because they are library code.
- A write the database would reject (an unknown supplier, an id already taken) becomes a failure that leaves the store unchanged, because each call runs as one transaction.

Behaviour of the code that a reader might not expect, which the model follows:

- The supplier POST writes the initial-balance row (src/app/api/suppliers/route.ts:159-167) after its transaction (lines 129-157) has committed, so the three writes are not one atomic unit. The model applies them as one step; see "Left out".
- The admin stats route answers 401 "Unauthorized" to a signed-in user who is not an ADMIN, where the other routes answer 403 "Forbidden".
- An update that asks for no change still rewrites the order row (src/lib/orders.ts:71-77). `Orders.RepeatedUpdateIsNoOp` proves that repeating an update changes no field and appends no row.
- A transaction that fails is not retried.
- A `supplierId` of "" in an update is falsy, so `isSupplierChanging` is false. Yet `??` keeps "" as the deduction target, so a deducting update with that id writes to a supplier that does not exist and the transaction aborts. `Orders.Aborts` captures this.
- The login page says the diamond cost is deducted when an order is marked Completed (src/app/login/page.tsx:46). The code deducts at creation and on every return from REFUNDED or FAILED.
- zod 4 counts string lengths in UTF-16 code units and admits only safe integers (at most 2^53 - 1 in size) for `.int()`; the schemas are modelled that way (`Strings.Utf16Length`, `Validators.SafeInteger`).

## Model

| member | source | states |
|---|---|---|
| Domain.ParseRole | src/lib/validators.ts:34 | a text is accepted as a role exactly when it is one of the three enum names, and the role read back spells that text |
| Store.UserByEmail | src/app/api/suppliers/route.ts:118-121 | the lookup by a unique e-mail finds the user with that e-mail, and finds none only when no user has it |
| Store.SupplierOfUser | src/app/api/orders/route.ts:64-67 | the lookup by unique owner finds the supplier the user owns, and finds none only when no supplier belongs to them |
| Store.CreditKeepsWellFormed | src/lib/orders.ts:80-160 | applying ledger entries against existing suppliers and orders keeps every key, uniqueness and reference rule |
| Store.Store.constructor | src/lib/orders.ts:14-15 | an empty store is valid and balanced |
| Store.Store.ApplyDelta | src/lib/orders.ts:81-97 | one balance increment or decrement and its one ledger row: the row is appended, that supplier's balance moves by the amount, nothing else changes |
| Ledger.Credit | src/lib/orders.ts:81-88 | crediting an entry keeps the set of suppliers |
| Ledger.Credited | src/lib/orders.ts:80-160 | crediting a sequence of entries keeps the set of suppliers |
| Ledger.CreditedBalance | src/lib/orders.ts:80-160 | after crediting a sequence of entries, each supplier's balance has moved by the sum of the entries against it, and no other field has changed |
| Ledger.SupplierTotalConcat | src/lib/orders.ts:90-97 | the ledger sum of a supplier is additive over appended rows |
| Ledger.OrderTotalConcat | src/lib/orders.ts:90-97 | the ledger sum of an order is additive over appended rows |
| Ledger.SupplierTotalAbsent | src/lib/orders.ts:90-97 | rows none of which is against a supplier sum to zero for it |
| Ledger.OrderTotalAbsent | src/lib/orders.ts:90-97 | rows none of which names an order sum to zero for it |
| Ledger.AppendKeepsBalancesMatched | src/lib/orders.ts:80-160 | when every balance equals its ledger sum, crediting entries and appending the same entries keeps that equality |
| Orders.NextOrder | src/lib/orders.ts:27-69 | the updated row: the status is the given one or kept; the deducted flag is set iff the new status is neither REFUNDED nor FAILED, to now on a deduction and kept when there is neither deduction nor refund; the supplier becomes the given id exactly on a real change; `followedAt`/`completedAt` become now exactly on entering FOLLOWED/COMPLETED while unset; notes and the release date are the given ones or kept; readiness takes the given flag, else true on READY_FOR_GIFTING, else is kept; no other field changes |
| Orders.EffectLogs | src/lib/orders.ts:80-160 | every row appended names the order, is stamped now, and is plus or minus the price |
| Orders.CasesExclusive | src/lib/orders.ts:47-122 | deduct, refund and transfer are pairwise exclusive |
| Orders.NextDeductedAt | src/lib/orders.ts:46-69 | the new deduction stamp: present iff the next status is neither REFUNDED nor FAILED; now on a deduction, cleared on a refund, kept otherwise |
| Orders.NextStatus | src/lib/orders.ts:27 | the given status, or the order's when none is given |
| Orders.TargetSupplierId | src/lib/orders.ts:28 | the given supplier id, the empty string included, or the order's when none is given |
| Orders.IsSupplierChanging | src/lib/orders.ts:29 | a change exactly when the target differs from the order's supplier and is not the empty string |
| Orders.ShouldDeduct | src/lib/orders.ts:47-50 | exactly when the order holds no deduction and the next status is neither REFUNDED nor FAILED |
| Orders.ShouldRefund | src/lib/orders.ts:51-53 | exactly when the order holds a deduction and the next status is REFUNDED or FAILED |
| Orders.ShouldTransfer | src/lib/orders.ts:121-122 | exactly when the supplier really changes on a deducted order whose next status is neither REFUNDED nor FAILED |
| Orders.Aborts | src/lib/orders.ts:36-98 | an abort needs a supplier change or a deduction whose target supplier does not exist; a deduction with `supplierId` "" always aborts; an order that holds its deduction and keeps its supplier never aborts |
| Orders.DeductCase | src/lib/orders.ts:47-98 | a deduction appends exactly one row of minus the price against the target supplier and stamps the flag |
| Orders.RefundCase | src/lib/orders.ts:51-119 | a refund appends exactly one row of plus the price against the original supplier and clears the flag |
| Orders.TransferCase | src/lib/orders.ts:122-160 | a transfer appends plus the price against the old supplier, then minus the price against the new one; the flag stays as it was and the order moves to the new supplier |
| Orders.NoDoubleDeduction | src/lib/orders.ts:47-50 | an already deducted order that stays open and stays with its supplier appends nothing and keeps its flag |
| Orders.DeductTargetIsNewSupplier | src/lib/orders.ts:28-82 | the supplier charged by a deduction is the order's supplier after the update |
| Orders.EffectNetForOrder | src/lib/orders.ts:47-160 | for every supplier, the update's rows for the order net to the change in what the order holds from that supplier, and the update's whole sum for that supplier is this order's |
| Orders.EffectNetForOthers | src/lib/orders.ts:90-159 | the update's rows name no other order |
| Orders.RepeatedUpdateIsNoOp | src/lib/orders.ts:14-160 | applying the same update again changes no field of the order (the time stamps included) and appends no row |
| Orders.EffectEntriesAt | src/lib/orders.ts:80-160 | when the update does not abort, every row it appends is against an existing supplier |
| Orders.EffectRecorded | src/lib/orders.ts:80-160 | after the update, each order's rows still net to minus its price exactly at the supplier it is deducted from |
| Orders.EffectNonZero | src/lib/orders.ts:90-159 | with a positive price, no zero row is ever appended |
| Orders.UpdateKeepsBalanced | src/lib/orders.ts:14-182 | an update that does not abort keeps the whole ledger invariant: balances equal ledger sums, flags track status, deductions are recorded |
| Orders.UpdateKeepsWellFormed | src/lib/orders.ts:14-182 | an update that does not abort keeps the tables well formed |
| Orders.ReplaceOrderKeepsWellFormed | src/lib/orders.ts:71-77 | rewriting an order row with the same id and creator and an existing supplier keeps the tables well formed |
| Orders.TransferDeduction | src/lib/orders.ts:122-160 | the two balance writes and two rows of a transfer, and nothing else |
| Orders.ApplyBalanceEffects | src/lib/orders.ts:79-160 | the balance writes of the update are exactly its rows credited to the suppliers, and the rows are appended |
| Orders.UpdateOrderWithBalanceEffects | src/lib/orders.ts:14-182 | a missing order fails "Order not found" and a write to a missing supplier fails, both with the store unchanged; otherwise the order becomes the updated row, the rows are appended and the balances move by exactly their sum; users are never touched, and validity and balance are kept |
| Orders.StaleIds | src/lib/orders.ts:185-194 | the orders the sweep selects are orders of the table |
| Orders.IsStale | src/lib/orders.ts:188-194 | a FOLLOWED order is selected exactly when at least seven days have passed since its follow time |
| Orders.StaleStaysStale | src/lib/orders.ts:188-194 | an order selected at one instant is selected at every later one |
| Orders.SweptOrders | src/lib/orders.ts:188-199 | the sweep turns exactly the FOLLOWED orders followed at or before seven days ago into READY_FOR_GIFTING with the ready flag set, and leaves every other order as it was |
| Orders.SweepIdempotent | src/lib/orders.ts:184-202 | a second sweep at the same instant selects nothing and changes nothing |
| Orders.SweepKeepsInvariants | src/lib/orders.ts:184-202 | the sweep keeps the tables well formed and the ledger balanced |
| Orders.SweepStep | src/lib/orders.ts:188-199 | visiting one more order promotes it exactly when it is stale, and counts it exactly then |
| Orders.SweepOrders | src/lib/orders.ts:188-201 | the loop's table is the swept table and its count is the number of orders the sweep selects |
| Orders.CheckAndMarkReadyOrders | src/lib/orders.ts:184-202 | the order table becomes the swept table, the count is the number promoted, balances, ledger and users are unchanged, validity and balance are kept |
| OrdersRoute.QueryLimit | src/app/api/orders/route.ts:27-28 | the limit is 200 for a missing or NaN parameter, otherwise the parameter clamped to [1, 500] |
| OrdersRoute.StatusFilterOf | src/app/api/orders/route.ts:46-52 | a valid `status` selects that status; only without one does a valid `excludeStatus` exclude its status; invalid values add no filter |
| OrdersRoute.Truthy | src/app/api/orders/route.ts:54-74 | a parameter counts exactly when it is present and non-empty |
| OrdersRoute.ContainsInsensitive | src/app/api/orders/route.ts:54-61 | a case-insensitive `contains`: an exact occurrence matches, and an empty text matches every field |
| OrdersRoute.MatchesWhere | src/app/api/orders/route.ts:44-76 | a matched order has the requested status, lacks the excluded one and is at the requested supplier; with no filter every order matches; a search hit in the skin name matches |
| OrdersRoute.SelectedOrders | src/app/api/orders/route.ts:44-79 | the orders listed are exactly those matching the where-clause |
| OrdersRoute.PlanOrders | src/app/api/orders/route.ts:20-98 | a SUPPLIER gets the early empty list iff they own no supplier, and otherwise is always filtered to their own supplier; other roles get the `supplierId` parameter when truthy; status and search follow the parameters, and the take is the clamped limit |
| OrdersRoute.SupplierSeesOwnOrders | src/app/api/orders/route.ts:63-76 | every order a SUPPLIER can list belongs to the supplier their user owns |
| OrdersRoute.StatusParamsSelect | src/app/api/orders/route.ts:46-52 | a listed order has the requested status, or, without a valid one, is not of the excluded status |
| OrdersRoute.ListOrders | src/app/api/orders/route.ts:11-102 | no session gives 401 with the store unchanged; otherwise the ready sweep is run first and the query is the plan for the signed-in user |
| OrdersRoute.NewOrder | src/app/api/orders/route.ts:145-164 | the created row carries the payload's fields and its creator; it is ready iff the status is READY_FOR_GIFTING or COMPLETED, completed iff COMPLETED, and deducted iff the status is neither REFUNDED nor FAILED, stamped now |
| OrdersRoute.CreationLogs | src/app/api/orders/route.ts:177-195 | a new order brings at most one row, and one exactly when it is deducted: minus its price, against its supplier, naming it |
| OrdersRoute.CreationNet | src/app/api/orders/route.ts:177-195 | the new order's rows net, for every supplier, to what the order holds from it |
| OrdersRoute.AddOrderKeepsWellFormed | src/app/api/orders/route.ts:149-175 | inserting an order with a new id, an existing supplier and an existing creator keeps the tables well formed |
| OrdersRoute.CreationRecorded | src/app/api/orders/route.ts:177-195 | after creation, every order's rows still record exactly its outstanding deduction |
| OrdersRoute.CreationNonZero | src/app/api/orders/route.ts:187-194 | with a positive price, creation appends no zero row |
| OrdersRoute.CreationKeepsInvariants | src/app/api/orders/route.ts:143-208 | creating an order with a positive price keeps the tables well formed and the ledger balanced |
| OrdersRoute.RecordCreation | src/app/api/orders/route.ts:177-195 | the deduction and its row when the order is deducted, nothing otherwise |
| OrdersRoute.CreateOrder | src/app/api/orders/route.ts:104-229 | 401 without a session, 403 for a non-ADMIN, the framework's uncaught 500 for a body that is not JSON (it is read before the `try`), 400 for an invalid payload, 404 for an unknown supplier, the caught 500 "Internal server error" when the generated id is taken or the creator is gone, each with the store unchanged; an ADMIN's valid payload for an existing supplier succeeds exactly when the id is new and the creator exists; on success the new order is stored and its deduction and row are applied, and validity and balance are kept |
| SuppliersRoute.ListedSuppliers | src/app/api/suppliers/route.ts:17-88 | a SUPPLIER sees exactly the suppliers their user owns; other roles see every supplier whose name or user e-mail contains a truthy search, ignoring case, or all of them |
| SuppliersRoute.MatchesSearch | src/app/api/suppliers/route.ts:58-61 | a supplier whose name contains the search matches, and the empty search matches every supplier |
| SuppliersRoute.ListSuppliers | src/app/api/suppliers/route.ts:9-89 | no session gives 401; otherwise the listed suppliers |
| SuppliersRoute.SupplierSeesOnlyOwn | src/app/api/suppliers/route.ts:17-41 | a SUPPLIER's list holds at most one supplier, and is empty iff they own none |
| SuppliersRoute.NewSupplierUser | src/app/api/suppliers/route.ts:130-137 | the new user has the lower-cased e-mail, the payload's name, role SUPPLIER and the hashed password |
| SuppliersRoute.NewSupplier | src/app/api/suppliers/route.ts:139-145 | the new supplier has the payload's name, balance and threshold, is owned by the new user, and has no sheet sync |
| SuppliersRoute.InitialLogs | src/app/api/suppliers/route.ts:159-167 | one "Initial balance" row of the starting balance, with no order, iff the balance is positive |
| SuppliersRoute.InitialBalanceLogged | src/app/api/suppliers/route.ts:159-167 | the new supplier's ledger sums to its starting balance, sums to zero for every other supplier, and names no order |
| SuppliersRoute.AddSupplierKeepsWellFormed | src/app/api/suppliers/route.ts:129-157 | adding a user with a new id and unused e-mail and a supplier owned by that user keeps the tables well formed |
| SuppliersRoute.AddSupplierKeepsBalanced | src/app/api/suppliers/route.ts:139-167 | adding a supplier with its initial row keeps the ledger balanced |
| SuppliersRoute.RecordInitialBalance | src/app/api/suppliers/route.ts:159-167 | appends the initial row and nothing else |
| SuppliersRoute.CreateSupplier | src/app/api/suppliers/route.ts:91-170 | 401, 403, 400 "Invalid payload", 400 "Supplier role must be SUPPLIER", and 409 "Email already exists" for a lower-cased e-mail already stored; the handler catches nothing, so a non-JSON body and a taken generated id both give the framework's uncaught 500, and every 500 is that one; all of these leave the store unchanged; an ADMIN's valid SUPPLIER payload with a free e-mail succeeds exactly when the generated ids are new; on success the user and supplier are added, the initial row is appended, and validity and balance are kept |
| BalanceLogsRoute.RowsOf | src/app/api/balance-logs/route.ts:33-37 | the rows of one supplier are, counted with multiplicity, exactly the ledger rows against it |
| BalanceLogsRoute.InsertNewest | src/app/api/balance-logs/route.ts:52-54 | inserting into a newest-first sequence keeps it newest first and adds exactly that row |
| BalanceLogsRoute.SortNewest | src/app/api/balance-logs/route.ts:52-54 | the rows ordered newest first are a permutation of the input |
| BalanceLogsRoute.Take | src/app/api/balance-logs/route.ts:55 | the first n rows, or all when fewer, as a prefix |
| BalanceLogsRoute.LogScope | src/app/api/balance-logs/route.ts:13-30 | a SUPPLIER reads the supplier they own, and gets the empty answer iff they own none; other roles read the requested supplier when the parameter is truthy, else everything |
| BalanceLogsRoute.ListLogs | src/app/api/balance-logs/route.ts:7-59 | no session gives 401; a SUPPLIER without a supplier gets an empty list; the result is newest first and no longer than the clamped limit |
| BalanceLogsRoute.TopRows | src/app/api/balance-logs/route.ts:52-55 | the first n rows of a newest-first sequence are among its rows and no row after them is newer |
| BalanceLogsRoute.ListedRows | src/app/api/balance-logs/route.ts:32-56 | the rows listed are rows in scope, as many as the limit allows, and no row in scope that is left out is newer than one listed |
| BalanceLogsRoute.ScopedRowsBelong | src/app/api/balance-logs/route.ts:17-37 | every listed row is a ledger row; a SUPPLIER's rows are against the supplier they own; a requested supplier's rows are against it |
| StatsRoute.PendingIds | src/app/api/admin/stats/route.ts:16-20 | exactly the PENDING orders |
| StatsRoute.ReadyIds | src/app/api/admin/stats/route.ts:21-28 | exactly the orders that are ready and not COMPLETED |
| StatsRoute.Stats | src/app/api/admin/stats/route.ts:6-40 | 401 iff no ADMIN is signed in; otherwise the total, the number pending and the number ready |
| StatsRoute.CountsBounded | src/app/api/admin/stats/route.ts:14-29 | neither the pending nor the ready count exceeds the total |
| ProfileRoute.Profile | src/app/api/user/profile/route.ts:13-36 | 401 without a session, 404 when the user is gone; otherwise the user's name, e-mail and role, and the name of the supplier they own, which is absent iff they own none |
| ProfileRoute.PasswordField | src/app/api/user/profile/route.ts:9 | a password is accepted when missing, empty, or at least six UTF-16 code units long, and then as sent |
| ProfileRoute.ParseProfile | src/app/api/user/profile/route.ts:7-11 | the body is accepted iff the name has at least two UTF-16 code units and both optional fields are acceptable; then the name, password and supplier name as sent, each optional field absent exactly when its key is |
| ProfileRoute.NewPassword | src/app/api/user/profile/route.ts:50 | a new password exists iff one is given and non-empty |
| ProfileRoute.ProfiledUser | src/app/api/user/profile/route.ts:48-59 | the name is always set, the hash changes to the hashed new password iff there is one, and id, e-mail and role stay |
| ProfileRoute.RenamedSuppliers | src/app/api/user/profile/route.ts:61-66 | only the name of the user's own supplier can change, only for a non-empty supplier name, and then it becomes that name |
| ProfileRoute.ProfileKeepsInvariants | src/app/api/user/profile/route.ts:48-66 | a profile update keeps the tables well formed and the ledger balanced |
| ProfileRoute.RenameSupplier | src/app/api/user/profile/route.ts:61-66 | the supplier table becomes the renamed table and nothing else changes |
| ProfileRoute.UpdateProfile | src/app/api/user/profile/route.ts:38-76 | 401 without a session, 500 "Internal Server Error" for a body that is not JSON (it is read inside the `try`), 422 for an invalid body and 500 when the user is gone, each with users and suppliers unchanged; a valid body from a signed-in user who exists always succeeds; then the user and their supplier are updated, orders and ledger stay, and validity and balance are kept |
| Validators.MinString | src/lib/validators.ts:7-14 | a text of at least n UTF-16 code units is accepted as itself, and nothing else; a text of at least n characters always is |
| Strings.Utf16Length | src/lib/validators.ts:7-14 | the length `min` measures: at least the number of characters and at most twice it, and equal to it iff every character lies in the Basic Multilingual Plane |
| Validators.OptionalString | src/lib/validators.ts:18-26 | a missing key is accepted as absent, a text as itself, and nothing else |
| Validators.CoercedInt | src/lib/validators.ts:15-36 | accepted iff the coerced number is a safe integer at or above the bound, and then that integer |
| Validators.DefaultInt | src/lib/validators.ts:35-46 | a missing key gives the default; otherwise as the coerced integer |
| Validators.StatusField | src/lib/validators.ts:17-23 | a missing key gives the default; otherwise accepted iff the text is one of the six status values, and read back as that status |
| Validators.OptionalDate | src/lib/validators.ts:19-27 | a missing key is absent; otherwise accepted iff it coerces to a date, and then that date |
| Validators.ParseLogin | src/lib/validators.ts:5-8 | accepted iff the e-mail is an e-mail and the password has at least six UTF-16 code units; then both texts as sent |
| Validators.ParseCreateOrder | src/lib/validators.ts:10-20 | accepted iff the ids and names meet their minimum lengths, the price is a positive safe integer, the status is valid and the optional fields are well typed; then every text as sent, the coerced price, the status read back or PENDING by default, the notes as sent and the coerced release date, each optional field absent exactly when its key is |
| Validators.CreateOrderRoundTrip | src/lib/validators.ts:10-20 | every order input meeting the constraints is accepted back from its own payload |
| Validators.OptionalBool | src/lib/validators.ts:25 | a missing key is absent, a boolean is itself, nothing else is accepted |
| Validators.ParseUpdateOrder | src/lib/validators.ts:22-28 | accepted iff every field is absent or well typed; each field is absent exactly when its key is, and otherwise the status read back, the supplier id, the flag and the notes as sent, and the coerced release date |
| Validators.EmptyUpdateChangesNothing | src/lib/validators.ts:22-28 | an empty body is a valid update that asks for nothing |
| Validators.RoleField | src/lib/validators.ts:34 | a missing role is SUPPLIER; otherwise accepted iff it is a role name |
| Validators.ParseCreateSupplier | src/lib/validators.ts:30-37 | accepted iff the name has at least two UTF-16 code units, the e-mail is an e-mail, the password has at least six, the role is valid, and balance and threshold are non-negative safe integers; then the name, e-mail and password as sent, the role read back, and the coerced amounts, with defaults SUPPLIER, 0 and 1000 |
| Validators.CreateSupplierRoundTrip | src/lib/validators.ts:30-37 | every supplier input meeting the constraints is accepted back from its own payload |
| Validators.ParseUpdateSupplier | src/lib/validators.ts:39-42 | accepted iff the optional name has at least two UTF-16 code units and the optional threshold is a non-negative safe integer; then the name as sent and the coerced threshold, each absent exactly when its key is |
| Validators.ParseBalanceFields | src/lib/validators.ts:44-47 | accepted iff `changeAmount` is a safe integer, `newBalance` a non-negative safe integer (both optional) and the reason has at least two UTF-16 code units; then both coerced amounts, each absent exactly when its key is, and the reason as sent |
| Validators.ParseUpdateBalance | src/lib/validators.ts:44-50 | accepted iff the fields are and at least one of the two amounts is given |
| Validators.BalanceUpdateNeedsAmount | src/lib/validators.ts:48-50 | a reason alone is never a valid balance update |
| Constants.StatusName | src/lib/constants.ts:1 | every status's name is one of the six values |
| Constants.ParseStatus | src/lib/constants.ts:1 | a text is a status iff it is one of the six values, and the status read back spells it |
| Constants.StatusValues | src/lib/constants.ts:1 | there are exactly six distinct values, naming the statuses one to one |
| Constants.BalanceHealthState | src/lib/constants.ts:21-35 | HEALTHY for a threshold of zero or less; CRITICAL iff twice the balance is below the threshold; LOW iff the balance is at least half the threshold but below it; HEALTHY iff it is at least the threshold |
| Constants.HealthMonotone | src/lib/constants.ts:21-35 | a larger balance never moves the state towards CRITICAL |
| Constants.Capitalize | src/lib/constants.ts:41 | the first character is upper-cased and the rest is kept |
| Constants.Caps | src/lib/constants.ts:41 | each part is capitalised |
| Constants.LowerKeeps | src/lib/constants.ts:39 | lowercasing keeps the count of every character that is not an ASCII letter |
| Constants.CapitalizeChars | src/lib/constants.ts:41 | capitalising adds no character that is not an ASCII letter |
| Constants.FormatHasNoUnderscore | src/lib/constants.ts:37-43 | a formatted status contains no underscore |
| Constants.FormatTokenCount | src/lib/constants.ts:37-43 | there is one part more than underscores |
| Constants.FormatWords | src/lib/constants.ts:37-43 | for a status without spaces, splitting the output on spaces gives back the capitalised parts, one more than the underscores |
| Constants.FormatTokensLowerTail | src/lib/constants.ts:37-43 | no character but the first of a part is an upper-case letter |
| Constants.FormatOrderStatus | src/lib/constants.ts:37-43 | the display form has the status's length, each underscore becoming one space; its other properties are the `Format` lemmas above |
| Utils.TitleFrom | src/lib/utils.ts:18-24 | the one-pass title casing keeps the length |
| Utils.ToTitleCase | src/lib/utils.ts:18-24 | title casing keeps the length |
| Utils.TitleFromIsPipeline | src/lib/utils.ts:18-24 | the one-pass form equals lowercase, split on underscores, capitalise, join with spaces |
| Utils.TitleCaseIsFormat | src/lib/utils.ts:18-24 | `toTitleCase` equals `formatOrderStatus` on every input |
| Utils.TitleCaseShape | src/lib/utils.ts:18-24 | the output has no underscore, one part more than underscores, is the parts joined with spaces, and has no upper-case letter after a part's first character |
| Middleware.Authorized | middleware.ts:12-32 | no token is refused; "/admin" paths admit only ADMIN, then "/supplier" only SUPPLIER, then "/viewer" only VIEWER; any other path admits any token |
| Middleware.Admits | middleware.ts:1-39 | unmatched paths always pass; matched paths pass exactly as the callback decides |
| Middleware.MatchesBase | middleware.ts:37-39 | a path matched by `<base>/:path*` starts with the base, and every path below the base is matched |
| Middleware.Matched | middleware.ts:37-39 | a path is matched iff it lies in one of the three sections |
| Middleware.SectionRole | middleware.ts:37-39 | the role a section is reserved for, for each of the three path patterns |
| Middleware.PrefixOfPrefix | middleware.ts:19-39 | a path matched by a section pattern starts with its base |
| Middleware.SectionsDisjoint | middleware.ts:19-39 | a path below one base starts with no other base |
| Middleware.SectionGate | middleware.ts:12-39 | a matched path passes iff a token is present and its role is the section's role; unmatched paths always pass |
| Auth.HomeRouteByRole | src/lib/auth.ts:10-78 | every role has a home, so the login fallback is never used |
| Auth.HomeInOwnSection | src/lib/auth.ts:10-78 | each role's home lies in that role's section, is admitted for that role only, and differs from every other role's home |
| Auth.RequireSession | src/lib/auth.ts:84-92 | no session redirects to the login page; otherwise the session |
| Auth.RequireRole | src/lib/auth.ts:94-103 | succeeds iff the signed-in role is allowed; otherwise redirects to the login page without a session, or to the role's home with one |
| Auth.RoleRedirectSettles | src/lib/auth.ts:94-103 | a refused user is sent to a page the middleware admits for them |
| Auth.Authorize | src/lib/auth.ts:30-55 | a user is returned iff the credentials have the login shape, a user has the lower-cased e-mail and the password matches; then that user's id, name, e-mail and role |
| Mlbb.NameLineParts | src/lib/mlbb.ts:52-54 | a line names the player iff its text before the first colon, trimmed and lower-cased, contains "name"; the name is the trimmed text after that colon |
| Mlbb.NamesPlayer | src/lib/mlbb.ts:52-53 | a line names the player iff its text before the first colon is non-empty and, trimmed and lower-cased, contains "name" |
| Mlbb.NameOf | src/lib/mlbb.ts:54 | the trimmed text after the first colon, and the empty string for a line without a colon |
| Mlbb.FirstNameLine | src/lib/mlbb.ts:50-58 | the scan stops at the first line that names the player, or after the last line |
| Mlbb.FirstName | src/lib/mlbb.ts:48-58 | a name is found iff some line names the player, and it is that of the first such line |
| Mlbb.ReadReply | src/lib/mlbb.ts:33-60 | "HTTP Error: <status>" for a non-OK status, "Invalid JSON response" for an unparseable body, the name of the first naming line when there is one, else "Player not found" |
| Mlbb.CaptionLine | src/lib/mlbb.ts:52-54 | a "caption:rest" line whose caption mentions "name" yields the trimmed rest, colons included |
| Mlbb.FirstLineWins | src/lib/mlbb.ts:48-58 | a reply whose first line names the player yields that line's name whatever follows |
| Mlbb.BeforeFirstAt | src/lib/mlbb.ts:52-54 | cutting a line at its first colon gives the caption and the rest |
| AdminOrdersClient.CeilDiv | src/components/admin/admin-orders-client.tsx:64 | the quotient rounded up |
| AdminOrdersClient.GetDaysLeft | src/components/admin/admin-orders-client.tsx:59-66 | never negative; 0 iff seven days have passed; otherwise the whole days left rounded up; 7 at the follow time; at most 7 after it |
| AdminOrdersClient.DaysLeftNonIncreasing | src/components/admin/admin-orders-client.tsx:59-66 | as the clock moves on, the countdown never goes up |
| AdminOrdersClient.SweepWhenCountdownEnds | src/components/admin/admin-orders-client.tsx:59-66 | a FOLLOWED order with a follow time is promoted by the seven-day sweep exactly when the page's countdown shows 0 |
| AdminOrdersClient.Without | src/components/admin/admin-orders-client.tsx:105-123 | removing a key leaves no value under it and every other key's value as it was |
| AdminOrdersClient.SetParam | src/components/admin/admin-orders-client.tsx:105-123 | after a set, the key reads as the value and every other key as before |
| AdminOrdersClient.Set | src/components/admin/admin-orders-client.tsx:105-123 | one set call: the key reads as the value and every other key as before |
| AdminOrdersClient.QueryParams | src/components/admin/admin-orders-client.tsx:104-126 | the limit is always 300; the "ALL" filter sends `excludeStatus=REFUNDED` and no status, otherwise `status` is the filter; `supplierId` is sent iff its filter is not "ALL", `search` iff non-empty; sort and order are always sent |
| AdminOrdersClient.AdminQueryPlan | src/components/admin/admin-orders-client.tsx:104-126 | the orders list reads the page's query as: at most 300 rows; "ALL" hides REFUNDED; a valid status filter selects it; the supplier and search filters as sent |
| SupplierDashboardClient.FilterOrders | src/components/supplier/supplier-dashboard-client.tsx:77-78 | the filter keeps every matching order exactly as often as it occurs, and no other |
| SupplierDashboardClient.PartitionOrders | src/components/supplier/supplier-dashboard-client.tsx:77-78 | the active and history lists together are the orders, and each order is in exactly one: history iff COMPLETED or FAILED |
| SupplierDashboardClient.DigitRun | src/components/supplier/supplier-dashboard-client.tsx:83 | the length of the longest run of leading digits |
| SupplierDashboardClient.ParseInt | src/components/supplier/supplier-dashboard-client.tsx:83 | NaN exactly when no digit follows the leading white space and the optional sign |
| SupplierDashboardClient.SignedDigits | src/components/supplier/supplier-dashboard-client.tsx:83 | after the white space: NaN exactly when no digit follows the optional sign |
| SupplierDashboardClient.ParseIntValue | src/components/supplier/supplier-dashboard-client.tsx:83 | white space, a run of digits, then anything not starting with a digit, reads as the run's value |
| SupplierDashboardClient.ParseSignedValue | src/components/supplier/supplier-dashboard-client.tsx:83 | the same after a sign: "-" negates the value, "+" keeps it |
| SupplierDashboardClient.DigitRunOf | src/components/supplier/supplier-dashboard-client.tsx:83 | the run read from digits followed by a non-digit is those digits |
| SupplierDashboardClient.DigitsOfNat | src/components/supplier/supplier-dashboard-client.tsx:83 | reading a number's decimal text gives the number |
| SupplierDashboardClient.ParseNatText | src/components/supplier/supplier-dashboard-client.tsx:83 | `parseInt` of a number's text, followed by anything not starting with a digit, is that number |
| SupplierDashboardClient.ParseNegatedText | src/components/supplier/supplier-dashboard-client.tsx:83 | `parseInt` of "-" and a number's text is the negated number |
| SupplierDashboardClient.BalanceRequestFor | src/components/supplier/supplier-dashboard-client.tsx:80-91 | nothing is sent iff there is no supplier, the input is empty or it does not read as a non-negative integer; otherwise the value read is sent with "Manual update by supplier" |
| SupplierDashboardClient.TypedBalance | src/components/supplier/supplier-dashboard-client.tsx:81-91 | a typed whole number is sent as itself; a typed negative number is not sent, except "-0", sent as 0 |
| SupplierDashboardClient.SentBalanceValid | src/components/supplier/supplier-dashboard-client.tsx:88-91 | a body the page sends is accepted by the balance schema, as an absolute balance with the fixed reason, exactly when the value is a safe integer; a longer number is refused |
| SupplierDashboardClient.AbsoluteBalanceBody | src/lib/validators.ts:44-50 | `{ newBalance, reason }` with a reason of two characters or more is accepted exactly for a safe integer, and then as that absolute balance |
| SupplierDashboardClient.OfferedActions | src/components/supplier/supplier-dashboard-client.tsx:229-271 | "Follow" iff PENDING; "Sent (Complete)" iff READY_FOR_GIFTING or ready; "Complete" iff none of PENDING, FOLLOWED, READY_FOR_GIFTING, REFUNDED and not ready |
| SupplierDashboardClient.CompleteNeverActive | src/components/supplier/supplier-dashboard-client.tsx:77-262 | the plain "Complete" button never shows on an active order |
| SupplierDashboardClient.FollowMovesNoBalance | src/components/supplier/supplier-dashboard-client.tsx:229-238 | following moves the order to FOLLOWED at its supplier, stamps the follow time when unset, and moves no balance |
| SupplierDashboardClient.SentCompleteEffect | src/components/supplier/supplier-dashboard-client.tsx:248-260 | "Sent" completes the order; it moves no balance unless the order was REFUNDED or FAILED, in which case the price is taken from its supplier again |
| SupplierDashboardClient.Countdown | src/components/supplier/supplier-dashboard-client.tsx:240-246 | a FOLLOWED card shows a number iff a follow time is set, and the number is at most 7 once the follow time has come |

## Left out

- Google Sheets sync after an order is created (src/app/api/orders/route.ts:211-222): it is a fire-and-forget network call whose failure is swallowed and which changes no stored state.
- Ordering of the order and supplier lists by an arbitrary `sort` field: the field name reaches the database unchecked. The model gives the set of rows selected and the `take`, not their order. The ledger list's newest-first order is modelled.
- `includeOrders` on the supplier list, and the supplier, creator and order projections joined to each row: these only shape the response.
- `Number` of a limit parameter that is fractional or infinite: the model has NaN or a whole number.
- `Number` of a text and `new Date` of a field, and the e-mail pattern, are parameters (`Validators.Coercions`): they are library code. An array or object reaches `Number` through its string form, as in JavaScript.
- Case mapping is ASCII only. The white-space set that `trim` removes (`Strings.IsJsSpace`) is ECMAScript's WhiteSpace plus LineTerminator set, exactly.
- bcrypt hashing and comparison are the parameters `hash` and `passwordMatches`; salting is not modelled.
- The next-auth JWT and session callbacks, which only copy the id and role into the session (`Domain.SessionUser`).
- `getProgressPercentage` (floating point) and `formatDate`/`formatDateOnly` (date-fns formatting).
- The order PATCH/DELETE handlers and the supplier balance-adjust and supplier edit handlers: src/app/api/orders/[orderId]/route.ts and src/app/api/suppliers/[supplierId] are not part of this model. Only the balance schema is.
- URL percent-encoding: `AdminOrdersClient.QueryParams` returns the parameter list, not the encoded string.
- A `message` field of the player-lookup reply that is not a string, and the fetch and JSON parsing themselves: the reply is modelled as a status and a parsed body.
- SupplierDashboardClient.ParseInt: reads the exact value of a digit run, where `parseInt` rounds beyond 2^53. Either value then exceeds 2^53 - 1 and the balance schema refuses it, so no request differs.
- The stats route's 500 on a database error: the model's tables cannot fail to be read.
- Rendering of the supplier dashboard, and the refetch after each action.
- Transactions and concurrency: each call is one atomic step on the store; interleavings of the sweep with updates are not modelled.
- SuppliersRoute.CreateSupplier: applies the user, the supplier and the initial-balance row as one step, although the source writes the row after its transaction has committed. A failure between the two is not modelled.
- AdminOrdersClient.DaysLeftNonIncreasing: its statement (the countdown never goes up as the clock moves on) follows from `GetDaysLeft`'s bounds without a proof of its own.
- The supplier page's `getDaysLeft` (src/components/supplier/supplier-dashboard-client.tsx:43-50) is the same definition as the admin page's, so both are modelled by `AdminOrdersClient.GetDaysLeft`.
