# Staff canteen: a Dafny model of its core

The system is a Django web application for a company's staff canteen. It has these parts:

- employees and administrators with roles, a wallet balance and a login lock;
- a menu whose items carry stock, specials and ratings;
- a session cart, and orders built from it;
- payments from the wallet or through two mobile-money providers, MTN MoMo and Orange Money, with wallet top-ups, provider polling and webhooks;
- in-app notifications;
- generated reports;
- a template tag that rewrites query strings for pagination links.

This project models the business logic of those parts and proves what it promises.

Model objects whose fields the code updates in place are Dafny classes: `User`, `MenuItem`, `Order`, `OrderItem`, `ReorderItem`, `Payment`, `Report`, the session (`Session`, `ApiSession`), the wallet-transaction table (`Ledger`), the activity log and the query dictionary. Each mutating method states its new state as a pure transition function of the old state (`State() == Failed(old(State()), reason)`). The lemmas are proved about those functions.

- **Money.** Amounts are exact `real`s. Python's `Decimal` adds and multiplies these amounts exactly, but it divides to 28 significant digits, and a column keeps only its `decimal_places`. The one division in the core, the running average rating, is therefore modelled exactly (see `Rated` under "Left out"). Quantising to 0.01 is modelled as rounding half to even.
- **Clock and random values.** Times are integer seconds passed in as `now`. UUIDs are passed in as hex strings.
- **External results.** What the ORM returns, such as whether an item exists or which accounts match a lookup, is an input. So is every provider HTTP exchange. An exchange is a `Call`: the status code it returned, or the exception it raised.

Python's falsy values matter in several branches: a `None` or `0` unit price, an empty transaction id, a missing daily price. Wherever the code treats `None` and the empty value alike, the model uses the single empty value.

Order statuses are kept as raw strings. This lets the mismatch show: the `Order` constants are upper case (`"PENDING"`), but `confirm_order` compares against lower-case `"pending"`. As a result it refuses every order the application creates (`OrderViews.ConfirmRefusesCreatedOrders`).

The code defines four functions twice: `process_topup`, `cancel_order`, `orders_management` and `login_view`. Python keeps the later definition, and the model follows the definition that takes effect. The one exception is the top-up form checks of `apps/payments/views.py:347`. Line 566 shadows that definition, but its validation and phone normalisation are modelled as written.

## Model

| member | source | states |
|---|---|---|
| Common.NatToString | apps/authentication/models.py:177 | the decimal rendering of a year is a non-empty string of digits |
| Common.NatToStringRoundTrip | apps/authentication/models.py:172-177 | reading the digits of a rendered number back gives the number |
| Common.ZeroPad | apps/authentication/models.py:177 | `:03d` padding: the result has the requested width (or the original length), ends with the original and is zeros before it |
| Common.ZeroPadValue | apps/authentication/models.py:172-177 | zero padding keeps a digit string's numeric value |
| Common.FormatInt | apps/authentication/models.py:177 | formatting an integer yields a non-empty string |
| Common.FormatIntShape | apps/authentication/models.py:177 | a formatted integer is a minus sign for a negative number, then digits whose value is its magnitude |
| Common.ParseNumeral | apps/orders/views.py:56 | accepts exactly an optional `+` or `-` followed by one or more ASCII digits |
| Common.ParseIntSpec | apps/orders/views.py:56 | `int()` succeeds exactly when the string with its surrounding whitespace stripped is a sign and digits; the whitespace makes no difference to the value |
| Common.FormatParseRoundTrip | apps/authentication/models.py:172-177 | parsing a zero-padded rendering of any integer gives that integer back |
| Common.Upper | apps/orders/models.py:12 | `upper()` over ASCII: the same length, each ASCII lower-case letter replaced by its capital and every other character kept |
| Common.UpperIdempotent | apps/payments/views.py:679 | upper-casing an upper-cased status changes nothing |
| Common.RemoveChar | apps/payments/views.py:375 | `replace(c, '')` leaves no `c` and keeps every other character as often as it occurred (multiset equality) |
| Common.RemoveCharConcat | apps/payments/views.py:375 | deleting a character distributes over concatenation, so the order of the kept characters is the order of the input |
| Common.RemoveCharAround | apps/payments/views.py:375 | deleting from a string with one character singled out deletes that character exactly when it is the one removed |
| Common.RemoveCharAbsent | apps/payments/views.py:375 | removing a character that does not occur returns the string unchanged |
| Common.StripSpec | apps/authentication/models.py:97 | `strip()` (over the characters `str.isspace` accepts) leaves no whitespace at either end, is empty exactly for an all-whitespace string, and is idempotent |
| Common.StripKeeps | apps/authentication/models.py:97 | a string that neither starts nor ends with whitespace is its own stripped form |
| Common.FirstField | apps/authentication/views.py:630 | `split(',')[0]` is a prefix without the separator, followed in the input by the separator when shorter |
| Accounts.PermissionsRelate | apps/authentication/models.py:121-143 | managing users implies managing orders; placing and managing orders exclude each other; an inactive account may do none; a superuser employee is a system admin yet cannot manage users; placing orders holds iff employee and active |
| Accounts.FullName | apps/authentication/models.py:95-97 | the stripped "first last" when it is non-empty, the username otherwise |
| Accounts.FullNameFallback | apps/authentication/models.py:95-97 | blank first and last names fall back to the username; a first name starting with a non-space character starts the full name |
| Accounts.Deducted | apps/authentication/models.py:151-161 | the deduction succeeds iff the balance is sufficient, subtracting the amount then and leaving the balance otherwise |
| Accounts.DeductKeepsNonNegative | apps/authentication/models.py:151-157 | a non-negative balance stays non-negative for a non-negative amount; a success takes away exactly the amount |
| Accounts.EmployeeIdRoundTrip | apps/authentication/models.py:163-180 | for a four-digit year the suffix from position 7 of a generated id parses back to its number, the next id number is one more, and the id starts with "EMP" and the year |
| Accounts.FirstEmployeeId | apps/authentication/models.py:168-177 | with no earlier id the number is 1 and the id is "EMP" + year + "001" |
| Accounts.LastIdAsWritten | apps/authentication/models.py:167-169 | `filter(startswith).order_by('-employee_id').first()`: none exactly when no stored id has the prefix; otherwise a stored id with the prefix that no other matching id follows in string order |
| Accounts.StringOrderRepeatsId | apps/authentication/models.py:167-177 | with EMP2024999 and EMP20241000 stored, the string-ordered lookup picks EMP2024999 and the code builds EMP20241000, which is already stored |
| Accounts.NextNumberIntended | apps/authentication/models.py:167-175 | corrected lookup: when it succeeds, at least 1 and above the number of every matching id, each of which parses |
| Accounts.NextNumberIntendedRaises | apps/authentication/models.py:171-172 | the corrected lookup fails exactly when some matching id's suffix does not parse (the ValueError of `int()`) |
| Accounts.NextNumberIntendedTight | apps/authentication/models.py:167-175 | above 1 the corrected number is one more than some matching id's number |
| Accounts.IntendedIdIsFresh | apps/authentication/models.py:163-180 | for a four-digit year the id built from the corrected number is not among the stored ids |
| Accounts.StringLessTransitive | apps/authentication/models.py:169 | the string order the lookup sorts by is transitive |
| Accounts.StringLessIrreflexive | apps/authentication/models.py:169 | no string precedes itself in that order |
| Accounts.LockCheck | apps/authentication/models.py:206-217 | locked iff a lock is set and now is before it; an expired lock is cleared and the failed attempts reset; no lock leaves the state alone |
| Accounts.LockCheckIdempotent | apps/authentication/models.py:206-217 | checking the lock twice at the same time gives what checking once gives |
| Accounts.FailedLoginsSpec | apps/authentication/models.py:194-204 | after n failures from a clean state the counter is n, the lock is set iff n >= 5, it ends 30 minutes after the last failure, and the login count is untouched |
| Accounts.FiveFailuresLock | apps/authentication/models.py:194-217 | five failures lock the account until 30 minutes after the fifth; four do not lock it |
| Accounts.LoginResetsFailures | apps/authentication/models.py:188-204 | a login adds one to the login count and resets the failures but leaves the lock; a later failure leaves it too |
| Accounts.User.constructor | apps/authentication/models.py:7-93 | a new user's whole state: active, not a superuser, with an empty wallet, no employee id, no join year, zero counters and no activity |
| Accounts.User.AddToWallet | apps/authentication/models.py:145-149 | the whole state is the old one with the balance raised by the amount, which is returned |
| Accounts.User.DeductFromWallet | apps/authentication/models.py:151-157 | balance and result are those of `Deducted` on the old balance; every other field is unchanged |
| Accounts.User.GenerateEmployeeId | apps/authentication/models.py:163-180 | as written: an existing id is kept with nothing changed; otherwise the last stored id of the join year in string order (`LastIdAsWritten`) gives the next number (`NextEmployeeNumber`), the id built from it is assigned, and the outcome is saved, or taken when that id is already stored (the unique column refuses the save); a tail that does not parse raises with nothing changed; only the id changes |
| Accounts.User.IncrementLoginCount | apps/authentication/models.py:188-192 | the whole state is the old one with the security state replaced by its logged-in transition |
| Accounts.User.IncrementFailedLogin | apps/authentication/models.py:194-204 | the whole state is the old one with the security state replaced by its failed-login transition at `now` |
| Accounts.User.IsAccountLocked | apps/authentication/models.py:206-217 | the result and the new security state are those of `LockCheck`; every other field is unchanged |
| Accounts.User.UpdateLastActivity | apps/authentication/models.py:182-186 | the whole state is the old one with the last activity set to `now` |
| AuthViews.RoleRedirect | apps/authentication/views.py:502-509 | superuser or system admin to the system-admin dashboard, canteen admin to its dashboard, employee to the employee dashboard, anything else to the generic one, each as an iff |
| AuthViews.DashboardRedirect | apps/authentication/views.py:61-68 | system admin first, then canteen admin, otherwise the employee dashboard; never the generic one |
| AuthViews.RedirectsAgree | apps/authentication/views.py:450-457 | the two redirects agree for every known role or superuser; for an unknown role the login goes to the generic dashboard and the view to the employee one |
| AuthViews.GetClientIp | apps/authentication/views.py:626-633 | a non-empty forwarded header gives its first comma field untrimmed, otherwise REMOTE_ADDR |
| AuthViews.ClientIpWholeHeader | apps/authentication/views.py:626-633 | a header without commas is returned whole; one starting with a comma gives the empty string |
| AuthViews.ActivityLog.constructor | apps/authentication/views.py:485-491 | the activity table starts empty |
| AuthViews.AuthenticatedDecision | apps/authentication/views.py:469-482 | rejected as locked iff the lock check says locked; rejected as inactive iff not locked and not active; admitted otherwise |
| AuthViews.LockBeforeStatus | apps/authentication/views.py:469-482 | a current lock wins over any status; admission needs both an unlocked account and active status |
| AuthViews.LoginView | apps/authentication/views.py:446-538 | signed-in requesters are redirected by role; a non-POST gets the form; missing credentials are refused; on these three paths no account changes at all; lock and inactivity change nothing beyond the lock check; admission logs in, stamps the activity and appends one success row; a single matching account on failure gets one more failed attempt and one failure row; no match or several matches change no account; only the security state and the last activity of the accounts involved change, and no other matching account changes |
| AuthViews.CreateUserDecision | apps/authentication/views.py:376-422 | a user is created iff every required field is present, the passwords agree and neither the email nor the username is taken |
| AuthViews.CreateUserCheckOrder | apps/authentication/views.py:390-404 | each rejection happens exactly when the earlier checks pass and its own fails, in the order missing fields, mismatch, email, username |
| AuthViews.MissingConfirmationRejected | apps/authentication/views.py:387-396 | an absent confirmation is a password mismatch |
| Menu.DisplayPrice | apps/menu/models.py:176-186 | the regular price, or the special price while the special is active and that price is set |
| Menu.SpecialPriceWindow | apps/menu/models.py:176-186 | no special or no end date, a passed end date or an unset special price give the regular price; within the window a set special price is shown |
| Menu.InStockSpec | apps/menu/models.py:195-199 | in stock needs stock > 0; without a daily limit it is exactly that, with one it also needs today's count below the limit |
| Menu.StockUsed | apps/menu/models.py:217-223 | the update succeeds iff the stock covers the quantity, decrementing then and leaving the item alone otherwise |
| Menu.UseThenRestock | apps/menu/models.py:217-228 | a successful use followed by restocking the same quantity restores the item; a used item that was low stays low |
| Menu.StockNeverNegative | apps/menu/models.py:217-223 | a successful update never leaves negative stock and never raises it for a non-negative quantity |
| Menu.Rated | apps/menu/models.py:235-240 | one more review, and average times count equals the old total plus the new rating |
| Menu.RatingStaysInRange | apps/menu/models.py:235-240 | an average in [0, 5] stays there after a rating in [1, 5] |
| Menu.RatingOfSameValue | apps/menu/models.py:235-240 | rating at the current average keeps the average |
| Menu.Trunc | apps/menu/models.py:244 | `int()` of a real truncates toward zero |
| Menu.RatingStars | apps/menu/models.py:242-253 | at most one half star, and full + half + empty = 5 |
| Menu.StarsInRange | apps/menu/models.py:242-253 | for an average in [0, 5] the counts lie in [0, 5], the full stars are the whole part of the average and the half star is set iff the remainder is at least 0.5 |
| Menu.EffectivePrice | apps/menu/models.py:417-419 | the daily price when set and non-zero, otherwise the item's display price |
| Menu.EffectiveStock | apps/menu/models.py:421-423 | the daily stock when set and non-zero, otherwise the item's current stock |
| Menu.ZeroDailyStockFallsBack | apps/menu/models.py:421-423 | a daily stock of 0 does not mark an item sold out but falls back to its current stock |
| Menu.MenuItem.constructor | apps/menu/models.py:56-170 | a new item has the column defaults |
| Menu.MenuItem.UpdateStock | apps/menu/models.py:217-223 | result and new state are those of `StockUsed` |
| Menu.MenuItem.Restock | apps/menu/models.py:225-228 | the stock rises by the quantity |
| Menu.MenuItem.IncrementOrders | apps/menu/models.py:230-233 | the order total rises by the quantity; nothing else changes |
| Menu.MenuItem.UpdateRating | apps/menu/models.py:235-240 | the new state is `Rated` of the old one |
| Notifications.CallerKwargsRejected | apps/notifications/views.py:185-193 | none of the keyword sets the callers pass to `Notification.objects.create` names only model fields, while the intended set does |
| Notifications.ShouldSend | apps/notifications/views.py:217-225 | delivery is suppressed exactly for a disabled category among order, payment, menu and system |
| Notifications.GateSpec | apps/notifications/views.py:202-225 | other types always pass, and the default preferences pass everything |
| Notifications.SendNotification | apps/notifications/views.py:181-241 | the record exists iff the insert accepts the keywords; the user notification is returned iff it was also created; an email goes out iff the gate passes, email is enabled and the user has an address |
| Notifications.RecordIndependentOfGate | apps/notifications/views.py:185-227 | the record and the returned value do not depend on the preferences |
| Notifications.SendNotificationAsWrittenReturnsNone | apps/notifications/views.py:185-193 | with the keywords the code passes nothing is created, sent or returned |
| Notifications.CountReturned | apps/notifications/views.py:290-304 | the count never exceeds the number of users |
| Notifications.SendBulkNotification | apps/notifications/views.py:287-308 | the loop returns the number of users for whom a notification came back |
| Notifications.CountReturnedSpec | apps/notifications/views.py:290-304 | refused keywords count zero; accepted keywords with every user's notification created count every user |
| Notifications.OrderNotificationTitle | apps/notifications/views.py:527-549 | the four named order types map to their titles, any other to "Order Update" |
| Notifications.SendOrderNotification | apps/notifications/views.py:511-565 | an order without the attribute the code reads yields nothing; otherwise the result is that of sending the type "order" with the chosen title |
| Notifications.PaymentNotificationTitle | apps/notifications/views.py:573-603 | success and failure have top-up and payment variants; low balance and other types get their fixed titles |
| Notifications.SendPaymentNotification | apps/notifications/views.py:568-617 | success and failure raise and yield nothing without the top-up flag, and also for a payment that is not a top-up and has no order (its order number is read); otherwise the result is that of sending type "payment" with the chosen title |
| Notifications.PaymentTitleTopupOnlyFlag | apps/notifications/views.py:573-587 | for success and failure the title depends on the flag, and the top-up variant starts with "Wallet Top-up" |
| Orders.Quantize | apps/orders/models.py:101-104 | a quantised value has whole cents and lies within half a cent of the input |
| Orders.QuantizeExact | apps/orders/models.py:101-104 | a value that already has whole cents is unchanged |
| Orders.QuantizeIdempotent | apps/orders/models.py:101-104 | quantising twice is quantising once |
| Orders.SubtotalConcat | apps/orders/models.py:91-94 | the subtotal of two item lists is the sum of their subtotals |
| Orders.LineTotalIsCents | apps/orders/models.py:133-135 | a cent price times an integer quantity has whole cents |
| Orders.SubtotalIsCents | apps/orders/models.py:91-94 | cent prices give a subtotal in whole cents |
| Orders.SubtotalNonNegative | apps/orders/models.py:91-94 | non-negative prices give a non-negative subtotal |
| Orders.TotalsConsistent | apps/orders/models.py:89-114 | fee and tax are 0, the total equals the subtotal and subtotal + fee + tax, and no items total 0 |
| Orders.TotalsExactForCentPrices | apps/orders/models.py:91-104 | for cent prices quantisation changes nothing: subtotal and total are the exact sum |
| Orders.SubtotalAddLine | apps/orders/models.py:91-94 | adding an item adds its line total |
| Orders.SnapshotPrice | apps/orders/models.py:137-141 | a non-zero unit price is kept, a zero one replaced by the menu price |
| Orders.SnapshotStable | apps/orders/models.py:137-141 | saving again after the menu price changes keeps the snapshot |
| Orders.TotalsRecomputeStable | apps/orders/models.py:101-114 | all four computed amounts are fixed points of quantising to two places, so a second `calculate_totals` over the same lines stores the same amounts |
| Orders.UpperOfHex | apps/orders/models.py:12 | upper-casing a lower hex digit gives an upper hex digit, changing only a-f |
| Orders.GenerateOrderNumber | apps/orders/models.py:10-12 | twelve upper-case hex characters, each the upper-cased hex digit in its place |
| Orders.OrderItem.constructor | apps/orders/models.py:117-124 | a new line holds the given item, quantity and price |
| Orders.OrderItem.Total | apps/orders/models.py:133-135 | the line's total is exactly what its row adds to any subtotal |
| Orders.OrderItem.Save | apps/orders/models.py:137-141 | the unit price becomes the snapshot of the old price and the menu price; item and quantity unchanged |
| Orders.Order.constructor | apps/orders/models.py:15-84 | a new order is "PENDING" with no items, no history and zero amounts |
| Orders.Order.CalculateTotals | apps/orders/models.py:89-114 | the stored amounts and the returned values are the totals of the items; nothing else changes |
| Orders.Order.AddLine | apps/orders/models.py:121 | one item is appended and nothing else changes |
| Orders.ReorderItem.constructor | apps/orders/models.py:183-191 | a new favourite has count 1 and the current time |
| Orders.ReorderItem.IncrementOrderCount | apps/orders/models.py:201-204 | the count rises by exactly one and the time is updated |
| OrderViews.Lookup | apps/orders/views.py:655-666 | the cart has an entry for an id iff the lookup finds one |
| OrderViews.LookupAt | apps/orders/views.py:655-666 | in a cart with distinct ids, looking up an entry's id yields its quantity |
| OrderViews.CartAddSpec | apps/orders/views.py:655-666 | adding keeps ids distinct; the item's quantity grows by q or is q when new; every other entry is unchanged; the cart grows only for a new item |
| OrderViews.SumsCountAll | apps/orders/views.py:669-677 | when every entry is available the count is the sum of all quantities |
| OrderViews.KeptMembers | apps/orders/views.py:432-435 | pruning keeps exactly the entries whose item is available |
| OrderViews.KeptLength | apps/orders/views.py:432-435 | pruning never lengthens the cart and removes nothing iff it changes nothing |
| OrderViews.KeptSums | apps/orders/views.py:396-435 | the pruned cart has the same available-only totals as the cart |
| OrderViews.KeptSpec | apps/orders/views.py:396-435 | pruning keeps exactly the available entries, never lengthens, and keeps the totals |
| OrderViews.KeptIdempotent | apps/orders/views.py:432-435 | pruning a pruned cart changes nothing |
| OrderViews.KeptAllAvailable | apps/orders/views.py:432-435 | a wholly available cart is kept as it is |
| OrderViews.ValidatedSpec | apps/orders/views.py:580-591 | the updated cart holds exactly the posted entries with an available item and quantity > 0, never more entries, with distinct ids kept distinct |
| OrderViews.TotalIssuesZero | apps/orders/views.py:502-556 | no issues iff every entry has an existing, available item with enough stock and quantity at most 10 |
| OrderViews.ValidateCart | apps/orders/views.py:494-564 | an empty cart is reported invalid; otherwise the reply counts the issues, and it is valid iff the cart is non-empty and every entry is fine |
| OrderViews.Session.constructor | apps/orders/views.py:384-394 | a fresh session has no cart |
| OrderViews.AddToCartAjax | apps/orders/views.py:632-692 | a parsed positive quantity of an available item enters the cart via `CartAdd`; every rejection leaves the session alone |
| OrderViews.GetCart | apps/orders/views.py:384-467 | the session cart is pruned to available items; the reply's subtotal is theirs, the fee 5% and the total their sum |
| OrderViews.GetCartCount | apps/orders/views.py:471-490 | with positive quantities the count is at least the number of entries |
| OrderViews.CartCountAgrees | apps/orders/views.py:478 | for an available cart the badge count equals the cart page's count |
| OrderViews.UpdateStepOf | apps/orders/views.py:578-591 | a posted pair raises exactly when the key is refused by the UUID column or an available item's quantity is not a number; it is kept only for an available item with a positive quantity, stored as its integer part |
| OrderViews.CartUpdateFails | apps/orders/views.py:573-604 | the update fails exactly when some posted pair raises |
| OrderViews.CartUpdateOfIntegers | apps/orders/views.py:578-591 | with integer quantities and well-formed keys the new cart is the entries `Validated` keeps, the same filter as the order form |
| OrderViews.UpdateCart | apps/orders/views.py:569-604 | a post whose body parses and whose every key and quantity passes replaces the cart with `CartUpdate`'s entries and answers 200; a body that does not parse, a key the UUID column refuses or a non-numeric quantity for an available item answers 500 with the session unchanged; other methods get 405 and change nothing |
| OrderViews.ClearCart | apps/orders/views.py:608-628 | a post empties and removes the cart; other methods get 405 and change nothing |
| OrderViews.PostedLine | apps/orders/views.py:52-64 | an accepted line always has a positive quantity |
| OrderViews.PostedLinesSpec | apps/orders/views.py:52-64 | every added line has a positive quantity and an item from the catalogue, and no more lines than fields |
| OrderViews.MissingItemLeavesEmptyOrder | apps/orders/views.py:52-70 | a field naming a missing item stops the parse with no lines: the order skeleton is left behind |
| OrderViews.CartLinesEmpty | apps/orders/views.py:764-785 | the checkout has no lines iff no cart entry has a found item and positive quantity |
| OrderViews.CartLinesSubtotal | apps/orders/views.py:764-785 | with positive quantities the order subtotal equals the cart's total over found items |
| OrderViews.PlaceOrder | apps/orders/views.py:35-90 | without a valid post the form is shown; otherwise a fresh pending order gets the parsed lines and is kept only when some line survived and no item was missing |
| OrderViews.PostedLinesStopped | apps/orders/views.py:52-64 | once an item is missing later fields change nothing |
| OrderViews.ProcessOrderFromCart | apps/orders/views.py:745-829 | the order's items are the cart's lines; no lines deletes it and leaves the cart; the cart is cleared only when the notification insert succeeds |
| OrderViews.ValidateOrder | apps/orders/views.py:301-327 | only an admin acting on a pending order validates it, appending one PENDING to VALIDATED history row; items and amounts never change |
| OrderViews.ConfirmOrder | apps/orders/views.py:1005-1036 | non-admins are redirected, other methods get 405, a status other than "pending" gets 400; only then is the order confirmed with one history row |
| OrderViews.ConfirmRefusesCreatedOrders | apps/orders/views.py:1011 | no status the application assigns equals "pending" |
| OrderViews.StatusNote | apps/orders/views.py:1061-1067 | the given notes, or a default naming the new status |
| OrderViews.UpdateOrderStatus | apps/orders/views.py:1039-1083 | an admin post with one of the five statuses sets it from any current status with one history row old to new; a body that does not parse answers 500 and an unlisted status 400, both changing nothing; anything else changes nothing |
| OrderViews.CancelOrder | apps/orders/views.py:1086-1131 | an admin post with a listed reason cancels with one history row, then fails at the refund lookup or the notification insert; a body that does not parse answers 500 and an unlisted reason 400, both changing nothing; anything else changes nothing |
| OrderViews.CancelAsWrittenAlwaysErrors | apps/orders/views.py:1113-1123 | a cancellation can never complete without an error |
| OrderViews.ProceedToPayment | apps/orders/views.py:358-381 | forbidden iff the requester is neither owner, admin nor superuser; the payment page iff allowed and the order is validated |
| OrderViews.PaymentNeedsValidation | apps/orders/views.py:367-372 | a pending order never reaches payment; its owner reaches it once validated |
| Pagination.QueryDict.constructor | apps/menu/templatestags/pagination_tags.py:13 | the dictionary holds the given entries |
| Pagination.QueryDict.Copy | apps/menu/templatestags/pagination_tags.py:13 | the copy is a new object with the same entries |
| Pagination.QueryDict.Set | apps/menu/templatestags/pagination_tags.py:15 | assigning a key replaces its value list with the one value |
| Pagination.OverrideKeys | apps/menu/templatestags/pagination_tags.py:14 | the key set is exactly the keys of the arguments |
| Pagination.OverlayKeys | apps/menu/templatestags/pagination_tags.py:13-15 | the result's keys are the original keys plus the overridden ones |
| Pagination.OverlayKeepsOthers | apps/menu/templatestags/pagination_tags.py:13-15 | a key no argument names keeps its values |
| Pagination.OverlaySetsOverrides | apps/menu/templatestags/pagination_tags.py:14-15 | every overridden key maps to exactly its supplied value |
| Pagination.OverlayIdempotent | apps/menu/templatestags/pagination_tags.py:14-15 | applying the same overrides twice is applying them once |
| Pagination.QueryTransform | apps/menu/templatestags/pagination_tags.py:8-16 | the result is the request's entries with the overrides applied in order, built on a copy |
| PaymentApi.ApiSession.constructor | apps/payments/api_views.py:16-25 | the session starts signed in or not as given |
| PaymentApi.LogoutAfterResponse | apps/payments/api_views.py:16-25 | the view's response is returned unchanged and the session is signed out |
| PaymentApi.Decorated | apps/payments/api_views.py:16-25 | anonymous requests are redirected to login, a wrong method gets 405, otherwise the view's reply |
| PaymentApi.ShowPaymentSpec | apps/payments/api_views.py:45-69 | a payment is shown iff it exists and the requester owns it or is staff; a missing one is 404, a foreign one 403 |
| PaymentApi.PaymentDetail | apps/payments/api_views.py:45-69 | detail and status replies are the decorated owner-or-staff decision, and the session ends signed out |
| PaymentApi.RefundSpec | apps/payments/api_views.py:142-152 | non-staff are refused; only a completed payment becomes refunded; any other status is rejected and unchanged |
| PaymentApi.RefundPayment | apps/payments/api_views.py:134-157 | the reply and the payment's new status are those of the refund decision |
| PaymentApi.RefundEndpoint | apps/payments/api_views.py:134-157 | the decorated refund decision, signed out afterwards |
| PaymentApi.StampFields | apps/payments/api_views.py:91 | the 14-character stamp holds year, month, day, hour, minute and second at fixed places |
| PaymentApi.TransactionIdFields | apps/payments/api_views.py:91 | a transaction id is "TXN" followed by 14 digits |
| PaymentApi.TransactionIdInjective | apps/payments/api_views.py:91 | two valid times give the same transaction id iff they are the same time |
| PaymentApi.ParseDecimalWhole | apps/payments/api_views.py:88-93 | a string of digits converts to the decimal it spells |
| PaymentApi.ParseDecimalFraction | apps/payments/api_views.py:88-93 | digits, a dot and digits convert to the whole part plus the fraction over its power of ten |
| PaymentApi.ZeroTextPassesCheck | apps/payments/api_views.py:85-93 | the strings "0" and "0.00" pass the truthiness check and are stored as 0, while the number 0 and the empty string are refused |
| PaymentApi.InitiatePayment | apps/payments/api_views.py:72-105 | a body that is not JSON is 400 with the decoder's message; a falsy amount (absent, null, the number 0, an empty string, false, an empty list or object) is 400; an amount the decimal column cannot convert is 400; an insert error is 400 with its message; otherwise a fresh pending payment with the converted amount and the time's transaction id |
| PaymentApi.InitiateEndpoint | apps/payments/api_views.py:72-105 | a payment exists only for a signed-in post with a JSON body and a truthy amount the column converts; anonymous and wrong-method requests create nothing; signed out afterwards |
| Payments.PredicatesExclusive | apps/payments/models.py:113-123 | successful, pending and retryable exclude each other |
| Payments.Processing | apps/payments/models.py:125-128 | a processing payment is pending and not retryable |
| Payments.Completed | apps/payments/models.py:130-135 | a completed payment is successful and not pending; the transaction id changes only when one is given |
| Payments.Failed | apps/payments/models.py:137-142 | one more retry, retryable iff below three, reason changed only when given |
| Payments.TransitionsTouchOnlyTheirColumns | apps/payments/models.py:125-142 | each transition changes only its own columns |
| Payments.NoStatusGuards | apps/payments/models.py:125-142 | a completed payment can still be failed and completed again |
| Payments.FailedTimesCount | apps/payments/models.py:137-142 | n failures add n retries and leave the payment failed |
| Payments.RetryBudget | apps/payments/models.py:121-123 | from zero retries, after n failures the payment can retry iff n < 3 |
| Payments.Clamp | apps/payments/models.py:148-151 | the result lies between the bounds and equals the input inside them |
| Payments.ProviderFee | apps/payments/models.py:144-157 | MTN fees lie in [100, 500], Orange fees in [50, 300], other methods pay nothing |
| Payments.NetAmount | apps/payments/models.py:144-157 | the net amount is the amount minus the provider fee |
| Payments.NetAmountShape | apps/payments/models.py:144-157 | inside the bands the fee is the percentage; a small MTN amount nets negative; the wallet nets the amount |
| Payments.NetAmountAsWritten | apps/payments/models.py:149-151 | as written the computation raises exactly for MTN and Orange, and otherwise agrees with the intended one |
| Payments.NetAmountAsWrittenFails | apps/payments/models.py:149-151 | both provider branches raise for every amount, though the intended MTN fee is at least 100 |
| Payments.CalculateFee | apps/payments/models.py:272-275 | at least the minimum, inside [min, max] when min <= max, and the percentage when that is already inside |
| Payments.ConfiguredFeeMatches | apps/payments/models.py:272-275 | a provider configured with the code's rates charges what `calculate_net_amount` intends |
| Payments.Payment.constructor | apps/payments/models.py:8-111 | a new payment is pending with no timestamps, transaction id, reason, retries or fee |
| Payments.Payment.MarkAsProcessing | apps/payments/models.py:125-128 | the new state is `Processing` of the old one |
| Payments.Payment.MarkAsCompleted | apps/payments/models.py:130-135 | the new state is `Completed` of the old one |
| Payments.Payment.MarkAsFailed | apps/payments/models.py:137-142 | the new state is `Failed` of the old one |
| Payments.Payment.CalculateNetAmount | apps/payments/models.py:144-157 | stores the fee and net amount when the computation does not raise and reports nothing when it does; the status columns are untouched |
| PaymentViews.LedgerDeltaAppend | apps/payments/views.py:142-153 | a new row adds its balance change to the ledger's and keeps a consistent ledger consistent |
| PaymentViews.Ledger.constructor | apps/payments/views.py:142-153 | the wallet-transaction table starts empty |
| PaymentViews.WalletPaymentSpec | apps/payments/views.py:121-172 | an insufficient balance fails the payment with its reason and changes nothing else; a sufficient one debits the amount, completes the payment and, with an order, writes one consistent debit row |
| PaymentViews.WalletPaymentWithoutOrderLosesTrack | apps/payments/views.py:136-168 | without an order the balance is debited and no row is written, and the payment is left failed |
| PaymentViews.ProcessWalletPayment | apps/payments/views.py:121-172 | the new balance, payment and ledger and the result are those of `WalletPayment`; the owner's other fields are unchanged |
| PaymentViews.TopupCredit | apps/payments/views.py:763-777 | the balance rises by the amount and one credit row with source "topup" records before and after |
| PaymentViews.CompleteWalletTopup | apps/payments/views.py:756-791 | the wallet is credited and recorded, the owner's other fields unchanged; the handler raises iff the notification insert refuses its keywords |
| PaymentViews.InitiationSpec | apps/payments/views.py:179-311 | the payment is marked processing first; an accepted request (202 for MTN, 201 for Orange) stores the provider id; any other outcome fails it with one more retry |
| PaymentViews.MtnErrorNamesCode | apps/payments/views.py:223-225 | a rejected MTN request records a reason naming the status code |
| PaymentViews.ProcessMtnPayment | apps/payments/views.py:175-237 | the new payment state and the result are those of `MtnInitiation` |
| PaymentViews.ProcessOrangePayment | apps/payments/views.py:239-319 | the new payment state and the result are those of `OrangeInitiation` |
| PaymentViews.VerdictOf | apps/payments/views.py:679-692 | MTN success iff the upper-cased status is "SUCCESSFUL", Orange success iff "SUCCESS"; failure on "FAILED" (for Orange also "EXPIRED") |
| PaymentViews.VerdictIgnoresCase | apps/payments/views.py:679 | the verdict does not depend on the status text's case |
| PaymentViews.SettleAccounted | apps/payments/views.py:683-694 | whatever the verdict, the balance change equals the rows written |
| PaymentViews.SettleStatus | apps/payments/views.py:683-694 | success completes (crediting a top-up first), failure fails, anything else changes nothing |
| PaymentViews.RepeatedSuccessCreditsTwice | apps/payments/views.py:683-685 | a second successful poll of a top-up credits the wallet again |
| PaymentViews.TopupNotificationRefusedCreditsEachPoll | apps/payments/views.py:683-685 | with the top-up keywords refused, the credit happens but the payment stays processing, so each poll credits again |
| PaymentViews.TopupFlag | apps/payments/views.py:683 | the top-up test always answers, true iff the transaction type is a top-up |
| PaymentViews.SuccessBranchAsWritten | apps/payments/views.py:683 | reading the missing attribute makes every success raise before any change |
| PaymentViews.SettlePayment | apps/payments/views.py:683-694 | the new balance, payment and ledger are those of `Settle`; the owner's other fields are unchanged |
| PaymentViews.VerifyReportsState | apps/payments/views.py:660-753 | a failed exchange changes nothing and reports processing; otherwise the state is settled from the verdict |
| PaymentViews.VerifyPayment | apps/payments/views.py:660-753 | the new state and the reply are those of `VerifySpec` |
| PaymentViews.VerificationRoute | apps/payments/views.py:633-657 | completed and failed are reported directly, only processing queries a provider, any other status reports pending |
| PaymentViews.VerificationQueriesOnlyWhileProcessing | apps/payments/views.py:643-654 | the provider is queried iff the payment is processing with a provider method |
| PaymentViews.PaymentVerification | apps/payments/views.py:629-657 | the state changes only along the query route, according to the verification; the owner's other fields are unchanged |
| PaymentViews.WebhookAsWrittenNeverProcesses | apps/payments/views.py:802-806 | with the keywords the code passes, every webhook answers 500 and changes nothing |
| PaymentViews.WebhookIntended | apps/payments/views.py:808-825 | with the model's fields a known reference is settled by its status, an unknown one changes nothing, and both answer 200 |
| PaymentViews.Webhook | apps/payments/views.py:794-869 | a request that is not a POST gets 405 with nothing changed; otherwise the webhook's code and new state are those of `WebhookSpec`; the owner's other fields are unchanged |
| PaymentViews.NormalizePhone | apps/payments/views.py:375-377 | the number has no spaces or dashes and starts with "+" |
| PaymentViews.NormalizeIgnoresSeparator | apps/payments/views.py:375-376 | a space or dash anywhere in the number makes no difference to the result |
| PaymentViews.NormalizeKeepsCharacters | apps/payments/views.py:375-377 | every character other than a space or dash is kept, as often as it occurred, and the result is those characters or "+237" before them |
| PaymentViews.NormalizePhoneIdempotent | apps/payments/views.py:375-377 | normalising twice is normalising once |
| PaymentViews.NormalizeCleanPhone | apps/payments/views.py:375-377 | a clean number keeps a leading "+" and otherwise gets "+237" |
| PaymentViews.ValidateTopup | apps/payments/views.py:357-377 | an accepted top-up carries the normalised phone |
| PaymentViews.ValidateTopupSpec | apps/payments/views.py:357-372 | accepted iff the amount lies in [100, 1000000], the method is a provider and the phone is non-empty; too small and too large are named |
| Reports.GenerationTime | apps/reports/models.py:91-95 | defined iff both timestamps are set |
| Reports.TransitionsSpec | apps/reports/models.py:97-124 | each transition sets its status and only its columns; file, size and error change only when given |
| Reports.CompletedExpiry | apps/reports/models.py:85-117 | a completed report is not expired until thirty days after completion and is expired afterwards |
| Reports.NoExpiryNeverExpires | apps/reports/models.py:85-89 | without an expiry a report is never expired, started or failed |
| Reports.GenerationTimeOfRun | apps/reports/models.py:91-117 | started at t0 and completed at t1 the generation time is t1 - t0, kept by a later failure |
| Reports.BucketsAreLastTotals | apps/reports/models.py:201-211 | with distinct keys each bucket holds the last total of its method |
| Reports.AbsentKeyIsZero | apps/reports/models.py:201-211 | a method no row carries gets 0 |
| Reports.PresentKeyIsItsTotal | apps/reports/models.py:201-211 | a method carried by one row gets that row's total |
| Reports.MobileMoneyNeverCounted | apps/reports/models.py:206-211 | for stored method values the MTN and Orange buckets are always 0 |
| Reports.IntendedKeysCountMobileMoney | apps/reports/models.py:206-211 | with the stored values as keys an MTN row's total lands in the MTN bucket |
| Reports.BucketPayments | apps/reports/models.py:201-211 | the loop's three totals are those of `Buckets` |
| Reports.Report.constructor | apps/reports/models.py:11-83 | a new report is pending with no timestamps, file or error |
| Reports.Report.MarkAsStarted | apps/reports/models.py:97-101 | the new state is `Started` of the old one |
| Reports.Report.MarkAsCompleted | apps/reports/models.py:103-117 | the new state is `Completed` of the old one at the two clock readings |
| Reports.Report.MarkAsFailed | apps/reports/models.py:119-124 | the new state is `Failed` of the old one |

## Left out

- The ORM is not modelled. Query results, such as an item's existence, the accounts a lookup matches, the stored employee ids or today's ordered count, are inputs. Saving is an update of the object's fields.
- The provider HTTP exchanges and the MTN token request (`get_mtn_access_token`) are not modelled. The branch a given status code or exception takes is.
- Email, push delivery and the `UserNotification` and `NotificationPreference` models are left out, because those models are not defined in the repository. Only the decisions about record, return value and email are modelled.
- Templates, `messages`, redirects as HTTP objects, JSON serialisation and `float()` conversions in replies are left out.
- The text of the error message in a 500 reply is left out. The parse failure itself is an input: `bodyIsJson` of `OrderViews.UpdateOrderStatus`, `OrderViews.CancelOrder` and `PaymentViews.Webhook`, and `posted == None` of `OrderViews.UpdateCart`.
- UpdateCart: keys are taken in their catalogue spelling. Another spelling of the same UUID (upper case, no hyphens) is found by `objects.get` and stored as posted, but the cart view then looks the item up by its canonical id (apps/orders/views.py:431), raises KeyError and answers 500. Which keys the UUID column refuses is the input `invalidKeys`.
- Dashboard statistics, percentage and rate floats, `get_discount_percentage` and the report CSV writers are left out. They are library plumbing and floating point.
- `DailySalesReport.generate_for_date` is modelled only in its payment bucketing; the rest is ORM aggregation. As written the method never finishes: `completed_orders.values('customer')` (apps/reports/models.py:214) names a field `Order` does not have (orders are keyed by `employee`), so it raises FieldError before the report is stored. The bucket totals are therefore never observable; the bucketing is modelled as the step it is.
- Concurrency and transactions are left out. The code has no locking and the model claims no serialisability.
- Column precision is left out. `Decimal` fields are exact reals with no `max_digits` limit; amounts are quantised only where `calculate_totals` does it.
- The clock is an input. `mark_as_completed` reads it twice, once for `completed_at` and once for `expires_at`; these are `now` and `later`.
- The Orange token response is assumed to carry `access_token`. A missing key raises inside the same `try` and fails the payment, so it is part of the exception input.
- The webhooks' multiple-match lookup is left out. `Payment.objects.get` on a reference held by several payments raises inside the handler's `try`, which is the 500 path already modelled.
- The "Failed to deduct" branch of `process_wallet_payment` cannot be reached after the balance check, so it is left out. `deduct_from_wallet` succeeds whenever the balance covers the amount.
- Shadowed definitions are left out: `cancel_order` at line 332 and `orders_management` at 286 of apps/orders/views.py, and `login_view` at 27 and `logout_view` at 145 of apps/authentication/views.py.
- The top-up handler that takes effect (apps/payments/views.py:566) is left out. It writes wallet-transaction fields the model does not have. The checks of the shadowed handler at line 347 are modelled as `ValidateTopup`.
- `quick_order`, `add_to_cart`, the simulated top-up of apps/orders/views.py and `add_menu_review` are left out, because they reference fields or arguments that do not exist.
- The redirect of `create_order_from_cart` on an empty cart is left out. `ProcessOrderFromCart` accepts any cart.
- `send_menu_notification` and `send_system_notification` are left out, being outside the modelled core.
- ParseInt: Python's `int()` also accepts underscores between digits and non-ASCII decimal digits. The model rejects both. This affects the employee-id suffix and the posted quantities of `PostedLine` and `AddToCartAjax`.
- PostedLine: a quantity written with underscores or non-ASCII digits, such as `1_0`, is rejected here but accepted by `int()` (see ParseInt).
- AddToCartAjax: the same narrowing of `int()` applies to the posted `quantity` (see ParseInt).
- Rated: the new average is exact. The code divides in 28-digit `Decimal` arithmetic, and the column keeps two decimal places (`max_digits=3`). The stored average therefore satisfies the average-times-count identity only up to that rounding: from 4.50 over 2 reviews, a rating of 5 stores 4.67, and 3 × 4.67 is 14.01.
- Menu.MenuItem.UpdateRating: inherits the exact average of `Rated`.
- Upper: maps only ASCII letters. Python's `upper()` also maps other scripts, and can lengthen a string (`'ß'` becomes `"SS"`; `'ſ'` becomes `'S'`). A provider status such as `"ſuccess"` is therefore read as `SUCCESS` by the code but as another status by `VerdictOf`.
- UpperIdempotent: holds for the ASCII mapping modelled; Python's full mapping is not modelled (see Upper).
- Database errors escaping the API views (anything other than `ObjectDoesNotExist`) are not modelled. When a view raises, `logout_after_response` does not sign the session out; the modelled views always return a response.
- QueryTransform: returns the overlaid mapping rather than the `urlencode` string; percent-encoding is not modelled.
- InitiatePayment: the insert failing on an already-used empty payment reference is the input `createError`, not derived from the table.
- InitiatePayment: the message of the column's ValidationError for an amount that is not a decimal is a fixed text. `ParseDecimal` accepts only the plain notation (an optional sign, then "digits", "digits.", ".digits" or "digits.digits"); `decimal.Decimal` also accepts exponents and underscores, which are refused here. A JSON number is taken as its exact value; Python reads a fractional JSON number as a binary float before the column converts it. The in-memory `amount` attribute keeps the raw JSON value in the code; the model stores the converted decimal.

## Findings

| source | as written | input that shows it | evidently intended | confidence | as-written member | corrected member |
|---|---|---|---|---|---|---|
| apps/payments/models.py:149-151 | the fee multiplies a `Decimal` amount by a `float` rate, which Python refuses with a TypeError | any MTN or Orange payment, e.g. amount 10000 by MTN | the fee clamped between the provider's bounds and the net amount the rest | not executed | Payments.NetAmountAsWritten | Payments.NetAmount |
| apps/payments/views.py:802-806 | the webhook row is created with `event_type=` and `data=`, which are not fields, and without the required payment | any webhook body, e.g. an MTN `SUCCESSFUL` notice for a known reference | the row stored with the model's fields, then the payment settled by the status | not executed | PaymentViews.WebhookAsWrittenNeverProcesses | PaymentViews.WebhookIntended |
| apps/payments/views.py:683 | the success branch reads `payment.payment_type`, but the field is `transaction_type` | a poll answering `SUCCESSFUL` for any payment | a top-up credits the wallet, any payment is completed | not executed | PaymentViews.SuccessBranchAsWritten | PaymentViews.TopupFlag |
| apps/notifications/views.py:185-193 | `Notification.objects.create` receives keywords such as `user` and `priority` that the model does not define | any call of `send_notification` | the record created with the model's fields | not executed | Notifications.CallerKwargsRejected | Notifications.SendNotification |
| apps/reports/models.py:206-211 | the buckets compare against "mtn" and "orange", but payments store "mtn_momo" and "orange_money" | a day with one completed MTN payment of 5000: its total would be dropped, though as written the method raises FieldError two lines later (`values('customer')`), so no report is stored at all | the MTN and Orange totals filled from the stored method values | not executed | Reports.MobileMoneyNeverCounted | Reports.IntendedKeysCountMobileMoney |
| apps/authentication/models.py:167-177 | the last id of a year is found by ordering `employee_id` as text, so EMP2024999 sorts after EMP20241000 | stored ids EMP2024999 and EMP20241000: the next user of 2024 gets EMP20241000 again, which the unique column refuses (`Accounts.User.GenerateEmployeeId` models the code as written and ends in `Taken`) | the next number after the greatest stored number of that year | not executed | Accounts.StringOrderRepeatsId | Accounts.NextNumberIntended |
