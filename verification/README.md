# Bing-Chilling-Rooms, modelled in Dafny

Bing-Chilling-Rooms is a vacation-rental application. Hosts list apartments,
houses and villas. Guests book them and pay with a credit card, PayPal or a
bank transfer. Every payment is settled against a single central clearing
account. This project models the core of that system as pure Dafny
functions over immutable, document-shaped state:

- **payment settlement** (`payment_store.dfy`, `payment_strategy.dfy`,
  `payment.dfy`): the four ledgers, i.e. the central account, cards, PayPal
  and bank; the payment records; the three strategies; and a payment's
  process / refund / receipt life cycle;
- **the property domain and property service** (`property.dfy`,
  `property_factory.dfy`, `property_service.dfy`): the three property types
  and their defaults, `get_details` / `update_details`, the availability
  check, and create/read/update/delete/list over the `properties`
  collection;
- **bookings** (`booking_service.dfy`): creating bookings (the price rule and
  the order in which failures are reported), looking them up and
  cancelling them;
- **users** (`auth.dfy`, `user_proxy.dfy`, `host.dfy`): registration and
  login, the role-permission proxy, and the host's listing actions;
- **the in-memory notification `BookingSystem`** (`booking_system.dfy`):
  observers, sequential booking ids, and the simulated payment.

Shared vocabulary lives in `common.dfy`: optional values, outcomes that carry
a raised exception, first-match search and decimal rendering.
`documents.dfy` holds dictionary-shaped documents with Python truthiness,
`dict.get`, Mongo equality filters, `str()` and `*`.

Modelling choices:

- **Collections.** Every MongoDB collection is a sequence in natural order.
  `find_one` and `update_one` act on the first match. An update counts as a
  modification only when a document matched *and* its value changed.
- **Money** is an integer number of cents. The strict `balance < amount`
  comparison is kept.
- **Connections.** Each `db_connection` operation takes a flag `up`, which
  says whether its connection succeeds. When it fails, the operation
  reports failure and changes nothing.
- **Exceptions** are `Outcome.Raised(name)`.
- **Generated values.** Generated ids, timestamps and clock readings are
  parameters.

Where one might expect otherwise of a payment, booking or listing system, the model follows the code:

- **Refunded is not terminal.** `Payment.process_payment` has no status
  guard, so a refunded payment can be processed again. It is then charged
  again and its status goes back to `success`
  (`Payments.ReprocessAfterRefundCharges`).
- **The balance check and the debit can hit different rows.** The check uses
  the row that matches every credential field. The debit filters on the
  key field alone (card number, email or account number). Two rows that
  share a key let one of them pay with the other's money and overdraw it
  (`PaymentStrategy.SharedCardNumberOverdraws`). With unique keys the
  debit lands on the verified row and balances stay non-negative.
- **A refund only debits the central account.** The payer is never
  credited back.
- **Amounts.** An amount of zero never settles, because `$inc` by zero
  modifies nothing. A negative amount passes the funds check and credits
  the payer.
- **Property ids.** Properties are stored with their id under `"_id"`,
  while every by-id operation filters on `"property_id"`. So a property
  created through the service can never be read, updated or deleted by id
  (`PropertyService.CreatedPropertyNotFoundById`). Likewise, a host with
  any listing cannot delete one: `delete_listing` raises `KeyError`
  (`Host.DeleteListingNeverDeletes`).
- **The default nightly price is dead code.** A rendered property always
  has a `"price"` key, so the default `0` never applies
  (`BookingService.NightlyPrice`).

## Model

| member | source | states |
|---|---|---|
| PaymentStore.CredsIndex | payment/payment_strategy.py:27-35 | the account row a strategy re-reads is the first one matching every identity field, and none exists exactly when no row matches them all |
| PaymentStore.KeyIndex | payment/payment_strategy.py:52-55 | the row a debit's single-key filter reaches is the first whose key field (card number, email or account number) matches |
| PaymentStore.UniqueKeysSameRow | payment/payment_strategy.py:51-55 | when keys are unique within a ledger, the debit's key filter reaches the very row the credential lookup verified |
| PaymentStore.FindPayment | payment/db_connection.py:164-167 | a status write reaches the first record with the payment id, and there is none exactly when no record carries it |
| PaymentStore.IncByKey | payment/payment_strategy.py:51-57 | `$inc` on a ledger changes only the first row with the key, by exactly the delta, and counts as a modification only if such a row exists and the delta is non-zero |
| PaymentStore.UpdateCentralAccountBalance | payment/db_connection.py:131-142 | adds the amount to the central balance; it reports true only when the connection works, a central document exists and the amount is non-zero; on false nothing changes; the ledgers and records are never touched |
| PaymentStore.GetCentralAccount | payment/db_connection.py:122-129 | the central document is returned exactly when the connection works and one exists, and it carries the central balance |
| PaymentStore.CreatePaymentRecord | payment/db_connection.py:144-158 | on a working connection, exactly one record with the given id, booking, amount and status is appended; a failed connection reports false and writes nothing |
| PaymentStore.UpdatePaymentStatus | payment/db_connection.py:160-171 | only the first record with the id gets the new status; it reports true exactly when that record existed and its status differed; nothing else changes |
| PaymentStore.UpdatePaymentStatusStored | payment/db_connection.py:164-167 | a status write never changes which record the id finds, and after it that record holds the new status even when Mongo counts no modification |
| PaymentStore.InitializeDummyAccounts | payment/db_connection.py:32-120 | each of the four collections is seeded only when empty, and a collection already holding documents is left as it is |
| PaymentStore.SeedIdempotent | payment/db_connection.py:32-120 | seeding twice gives the same store as seeding once |
| PaymentStore.SeedBalances | payment/db_connection.py:40-111 | an empty database is seeded with a zero central balance, two cards (1000.00 and 2000.00), two PayPal accounts (1500.00 and 2500.00) and two bank accounts (3000.00 and 4000.00), each with a unique key |
| PaymentStrategy.Payer | payment/payment_strategy.py:27-35 | the payer row, when found, lies in the strategy's own ledger and carries exactly the given credentials |
| PaymentStrategy.VerifyCredentials | payment/payment_strategy.py:37-39 | credentials verify exactly when some row of that strategy's ledger matches every identity field |
| PaymentStrategy.TransferToCentral | payment/payment_strategy.py:14-15 | crediting central succeeds exactly when the connection works, central exists and the amount is non-zero, and then raises central by exactly the amount; no payer ledger changes |
| PaymentStrategy.Debit | payment/payment_strategy.py:51-55 | the debit lowers the first row keyed like the payer by exactly the amount, changes no other row and no other ledger, and reports a modification only if such a row exists and the amount is non-zero |
| PaymentStrategy.ProcessPayment | payment/payment_strategy.py:41-61 | unverified credentials, insufficient funds (`balance < amount`, equality allowed) or a zero amount leave everything unchanged and give false; the result is true exactly when verification, the funds check, the debit and the central credit all succeed |
| PaymentStrategy.NoRollback | payment/payment_strategy.py:51-61 | once funds are found sufficient the payer is debited whatever happens next; the result is the central credit's result, and a failed credit leaves central unchanged and the debit in place |
| PaymentStrategy.DebitThenCredit | payment/payment_strategy.py:51-61 | with funds found sufficient, a payment is exactly the debit followed by the central credit |
| PaymentStrategy.PaymentSettles | payment/payment_strategy.py:51-60 | a successful payment lowers the payer's keyed row by exactly the amount and raises central by exactly the amount |
| PaymentStrategy.DebitedByKeyFrame | payment/payment_strategy.py:51-60 | a debit stays a debit when later writes change only central or the payment records |
| PaymentStrategy.UniqueKeysDebitVerifiedRow | payment/payment_strategy.py:46-55 | when keys are unique, a successful payment debits the verified row itself |
| PaymentStrategy.PaymentKeepsBalancesNonNegative | payment/payment_strategy.py:46-55 | when keys are unique, no payment drives a ledger of non-negative balances negative, whatever its outcome |
| PaymentStrategy.SharedCardNumberOverdraws | payment/payment_strategy.py:46-55 | two card rows that share a card number let the richer row's credentials pass the funds check while the poorer row is debited and goes negative |
| Payments.StoredStatus | payment.py:15-22 | the status read back is that of the first record with the payment id, or `pending` when there is none; any other status comes from some record with that id |
| Payments.NewPayment | payment.py:5-13 | constructing a payment appends a `pending` record for it on a working connection; the payment then caches the status read back, which is `pending` unless an earlier record with the same id shadows it |
| Payments.Process | payment.py:24-32 | returns exactly the strategy's result, and the ledgers and central end as the strategy left them; the record is then stored as `success` or `failed` accordingly (it stays `pending` only when it does not exist), and the cached status is the stored one |
| Payments.ProcessNoRollback | payment.py:24-32 | when the funds check passes but the central credit fails, the payer stays debited, central is unchanged, and the payment is stored as `failed`: nothing is rolled back |
| Payments.ProcessSettles | payment.py:24-32 | a successful `process_payment` has debited the payer's keyed row and credited central by exactly the amount, with the status write in between |
| Payments.SettlementSurvivesRecord | payment.py:25-29 | writing the payment status after a settled charge keeps both the debit and the central credit |
| Payments.RecordStatus | payment.py:27-29 | the status write leaves ledgers and central alone, changes only the status of the first record with the payment id and no other record, and afterwards the id reads back the written status (or `pending` when no record exists) |
| Payments.Refund | payment.py:34-57 | only a payment stored as `success` is refunded; a refund succeeds exactly when central can be lowered, and then lowers central by the amount and sets exactly the first record with the id to `refunded`, leaving every other record as it was; on failure nothing changes; the payer's ledger is never credited |
| Payments.RefundAtMostOnce | payment.py:37-54 | after a successful refund, a second refund fails and changes nothing, so central is lowered only once |
| Payments.ReprocessAfterRefundCharges | payment.py:24-32 | with no status guard, processing a refunded payment again charges the payer again and stores `success` |
| Payments.UnsignedRoundTrip | payment.py:62 | the printed non-negative amount reads back to the same number of cents |
| Payments.ParseSigned | payment.py:62 | a leading minus sign on a printed amount negates it |
| Payments.AmountTextRoundTrip | payment.py:62 | the amount printed in a receipt determines the amount: parsing the text gives back the cents |
| Payments.GenerateReceipt | payment.py:59-62 | the receipt reads `Receipt: Payment ID <id>, Amount $<amount>, Status: <status>` with the status re-read from the store, and the cached status is refreshed to it |
| Payments.ReceiptReflectsStoredStatus | payment.py:59-62 | two stores that disagree on a payment's status yield different receipts, so the receipt shows the stored status, not the cached one |
| Properties.OrEmpty | property/property.py:12-14 | a falsy list field becomes `[]` and a truthy one is kept |
| Properties.NewProperty | property/property.py:6-14 | a falsy property id is replaced by a fresh one, falsy amenities, images or availability by `[]`, and every other field is kept as given |
| Properties.GetType | property/property.py:67-68 | each subtype names itself: `apartment`, `house` or `villa`, and the name identifies the subtype |
| Properties.BaseDetails | property/property.py:22-33 | the base part of the details holds every base field, the id under `"_id"`, and the type name |
| Properties.SubtypeDetails | property/property.py:70-76 | each subtype contributes exactly its two extra fields |
| Properties.SubtypeKeysDisjoint | property/property.py:22-33 | no subtype field shadows a base field, and no detail key is `"property_id"` |
| Properties.GetDetails | property/property.py:22-33 | the details hold exactly the base fields, `"type"` and the subtype's two extra fields, with the property's values, and no `"property_id"` |
| Properties.UpdateDetails | property/property.py:35-48 | each of the six editable keys present in the update overwrites its field; the id, host and subtype fields never change; the result is always true |
| Properties.UpdateDetailsOnlyListedKeys | property/property.py:35-48 | seen through `get_details`, an update keeps the key set, writes exactly the editable keys it carries, and leaves every other key as it was |
| Properties.UpdateWritesListedKeys | property/property.py:37-47 | every editable key in the update appears in the new details with the update's value |
| Properties.UpdateKeepsOtherBaseKeys | property/property.py:35-48 | base keys that are not both editable and in the update keep their values |
| Properties.UpdateKeepsOtherKeys | property/property.py:35-48 | every detail key that is not both editable and in the update keeps its value |
| Properties.UpdateDetailsIdempotent | property/property.py:35-48 | applying the same update twice equals applying it once |
| Properties.ScanRanges | property/property.py:52-55 | the scan is true exactly when some range holds the request before any non-range entry is reached, and a list of ranges never raises |
| Properties.CheckAvailability | property/property.py:50-55 | no ranges means unavailable; a list is scanned range by range; any other value (except an empty string) raises |
| Properties.AvailabilityIffSomeRangeHolds | property/property.py:50-55 | for a list of ranges, a stay is available exactly when some range starts no later and ends no earlier than it |
| PropertyFactory.KindFor | property/property_factory.py:19-32 | the subtype built for a known type string is the one that string names |
| PropertyFactory.CreateProperty | property/property_factory.py:6-35 | an unknown type raises `ValueError`; a known type gives a property of that type whose base fields come from the details, with missing list fields as `[]`; given subtype values are kept, and missing ones default to floor 1 without elevator, 1 floor without garden, or no pool and no private access |
| PropertyFactory.RebuildFromDetails | property/property_factory.py:6-35 | rebuilding a property from its own details gives the same property with falsy lists normalised, except that it gets a fresh id, because the details carry no `"property_id"` |
| PropertyService.Load | property/property_service.py:40-43 | a stored document of a known `"type"` is always rebuilt, by the factory for its own type; a missing type raises `KeyError`, an unknown one `ValueError`, and the rebuilt property keeps the stored type and host |
| PropertyService.ListingDoc | property/property_service.py:21-25 | the document a create inserts carries the caller's host id, the type and the title, no `"property_id"`, and as `"_id"` the given `property_id` when truthy, otherwise the fresh id |
| PropertyService.CreateProperty | property/property_service.py:18-31 | an unknown type stores nothing; a known type whose rendered `"_id"` is taken raises `DuplicateKeyError` and stores nothing; otherwise the rendered listing (every base key, the caller's host id, the type and the title, no `"property_id"`) is appended once, and the id and success message are reported when the id is non-empty and the title present, `Failed to create property.` for an empty id, `KeyError` for a missing title |
| PropertyService.GetProperty | property/property_service.py:33-45 | a missing id gives `(None, "Property not found.")`; otherwise the first document with that `"property_id"` is rebuilt, and its failures propagate |
| PropertyService.SetFields | property/property_service.py:57-64 | a `$set` raises `WriteError` exactly when it would change a stored `"_id"`; otherwise the new fields are merged into the matched document only, and success is reported exactly when the stored document changed |
| PropertyService.UpdateProperty | property/property_service.py:47-64 | a missing id reports false and writes nothing; a stored document that cannot be rebuilt propagates the error; otherwise the updated rendering is merged into the first match, raising `WriteError` exactly when its `"_id"` differs from the stored one; success is reported exactly when the stored document changed, and then every editable key of the update is stored and nothing else in the collection moves |
| PropertyService.UpdateThenGet | property/property_service.py:33-64 | after an update that does not raise, `get_property` on the same id returns the updated property (with falsy lists read back as empty) |
| PropertyService.DeleteProperty | property/property_service.py:66-72 | true exactly when a document with that `"property_id"` existed, and then exactly the first one is removed; otherwise nothing changes |
| PropertyService.LoadAll | property/property_service.py:79-85 | rebuilding a list of documents yields one property per document |
| PropertyService.LoadAllElements | property/property_service.py:79-85 | listing succeeds exactly when every matched document can be rebuilt, and then holds each document's rebuilt property in order |
| PropertyService.RenderAll | property/property_service.py:85 | each listed property is rendered through `get_details`, in order |
| PropertyService.ListProperties | property/property_service.py:74-87 | lists as many properties as the filter matches documents |
| PropertyService.ListPropertiesElements | property/property_service.py:74-87 | the listing succeeds exactly when every matching document can be rebuilt by the factory, and then its i-th entry is the details of the property rebuilt from the i-th matching document |
| PropertyService.ListAllProperties | property/property_service.py:74-87 | with no filter, the listing succeeds exactly when every stored document can be rebuilt, and then lists the details of each stored document, one per document, in storage order |
| PropertyService.GetHostProperties | property/property_service.py:89-91 | a host's listing succeeds exactly when each document carrying that host id can be rebuilt, and then its i-th entry is the details of the i-th such document |
| PropertyService.HostPropertiesBelongToHost | property/property_service.py:89-91 | every listing returned for a host carries that host's id and no `"property_id"` |
| PropertyService.AppendUnfindable | property/property_service.py:35 | a document without `"property_id"` is never matched by an id lookup, so appending one leaves every lookup unchanged |
| PropertyService.CreatedPropertyNotFoundById | property/property_service.py:18-72 | a property created through the service changes the result of no later by-id lookup, get or delete |
| PropertyService.AppendUnfindableLookups | property/property_service.py:33-72 | reads and deletes by id see through an appended document that has no `"property_id"` |
| BookingService.UserIdByEmail | booking/booking_service.py:20-25 | the guest id is `str` of the first user with that email; an unknown email gives none, and a matched user without `_id` raises `KeyError` |
| BookingService.BookingDoc | booking/booking_service.py:63-75 | the booking document holds the guest, the property, the night count, the price, the total and status `confirmed` |
| BookingService.Stamped | booking/booking_service.py:78-90 | the inserted id is stored both as `_id` and as `booking_id`, and every other field is kept |
| BookingService.InsertBooking | booking/booking_service.py:78-90 | a taken id raises `DuplicateKeyError` and stores nothing; otherwise exactly the stamped booking is appended and its id reported |
| BookingService.BookProperty | booking/booking_service.py:51-90 | a property lookup that raises propagates its exception and stores nothing; a lookup that finds no property reports `Property not found.` and stores nothing; a booking is stored exactly when an id is reported, then appended once under a fresh id |
| BookingService.BookPropertyStores | booking/booking_service.py:51-90 | for a found property whose price can be multiplied by the night count, under an unused id, the booking is created and exactly one document is appended: the booking of the guest and property with the property's price and that price times the day difference, stamped with the new id |
| BookingService.StampedBookingFields | booking/booking_service.py:63-90 | a stamped booking has exactly the booking keys, with the guest, property, night count, price, total and `confirmed` status it was built from |
| BookingService.CreatedBookingContents | booking/booking_service.py:47-90 | a created booking holds the guest, the property, the night count as the day difference, the property's own price, the total as that price times the nights, status `confirmed`, and the new id as both `_id` and `booking_id` |
| BookingService.CreateBooking | booking/booking_service.py:27-91 | an unknown guest is reported before any property lookup and stores nothing; a known guest proceeds to the property lookup and insertion |
| BookingService.NoStayLengthCheck | booking/booking_service.py:47-60 | a check-out on or before check-in is still booked, with a non-positive night count and total |
| BookingService.NightlyPrice | booking/booking_service.py:56-57 | the nightly price is always the property's own price; the default `0` never applies |
| BookingService.GetBooking | booking/booking_service.py:93-100 | a booking is found exactly when some stored booking has that `booking_id`, and the one returned is the first stored booking with it |
| BookingService.GetGuestBookings | booking/booking_service.py:102-110 | returns exactly the stored bookings with that `guest_id`, as many as are stored |
| BookingService.GetPropertyBookings | booking/booking_service.py:112-120 | returns exactly the stored bookings with that `property_id`, as many as are stored |
| BookingService.BookingListsInStorageOrder | booking/booking_service.py:102-120 | both lists follow storage order: a booking stored last is listed last, in exactly the lists it belongs to |
| BookingService.CreatedBookingListed | booking/booking_service.py:93-120 | a booking just created is found by its id and listed among its guest's and its property's bookings |
| BookingService.CancelBooking | booking/booking_service.py:122-131 | true exactly when the first booking with that id exists and is not yet cancelled, and then only that booking becomes `cancelled`; otherwise nothing changes |
| BookingService.CancelTwice | booking/booking_service.py:122-131 | cancelling again reports false and writes nothing |
| Auth.CredentialFilter | auth/auth_service.py:29-32 | a user matches exactly when both the email and the password match |
| Auth.UserDoc | auth/auth_service.py:19-24 | the inserted user holds the name, email, password and type of the registered user |
| Auth.RegisterUser | auth/auth_service.py:14-26 | an email already on file is refused with `User already exists!` and nothing is written; a new email under an unused id appends exactly that user's document and returns the message naming the user and the type; an id already taken raises `DuplicateKeyError` |
| Auth.RegisterKeepsEmailsUnique | auth/auth_service.py:15-24 | registration keeps emails unique in the user store |
| Auth.LoginUser | auth/auth_service.py:28-34 | login succeeds exactly when some user matches both email and password |
| Auth.RegisterThenLogin | auth/auth_service.py:14-34 | a new email registers successfully, the user can then log in with the same email and password, and registering the same email again is refused |
| Auth.GetUser | auth/auth_service.py:36-43 | `(None, "User not found!")` exactly when no user matches both credentials; a found user carries those credentials |
| Auth.GetUserIffLogin | auth/auth_service.py:28-43 | `get_user` finds a user exactly when `login_user` with the same credentials succeeds |
| UserProxy.MethodsOf | users/User.py:15-29 | every user class has `browse_listings` |
| UserProxy.LowerChar | proxy/user_proxy.py:17 | upper-case ASCII letters become lower case and all else is kept |
| UserProxy.ToLower | proxy/user_proxy.py:17 | lower-casing keeps the length and lowers each character |
| UserProxy.ToLowerIdempotent | proxy/user_proxy.py:17 | lower-casing twice equals lower-casing once |
| UserProxy.RolePermissions | proxy/user_proxy.py:12-16 | exactly the three known role names have permissions, each list starts with `browse_listings` and has no repeats; the listing actions belong to the host alone, the user administration actions to the admin alone, and booking to the guest alone |
| UserProxy.HostOnlyActions | proxy/user_proxy.py:12-27 | `create_listing`, `manage_bookings`, `view_earnings` and `delete_listing` run exactly for a user whose type reads as host and whose class is the host class |
| UserProxy.GetRolePermissions | proxy/user_proxy.py:7-17 | no user gets nothing; exactly the three known roles, in any case, get permissions; each may browse, and only a host may create or delete listings |
| UserProxy.Execute | proxy/user_proxy.py:20-27 | no user is told to log in; an action runs exactly when it is permitted to the role and the user's class has it; otherwise it is refused by the user's name |
| UserProxy.RoleTableMatchesClasses | proxy/user_proxy.py:12-26 | when the class matches the type, the role table alone decides |
| UserProxy.UnknownRoleDenied | proxy/user_proxy.py:17 | an unknown role may do nothing at all |
| UserProxy.MismatchedClassRefused | proxy/user_proxy.py:25-27 | a guest object whose type reads as host is permitted `create_listing` but lacks it, and is refused |
| Host.CreateListing | users/Host.py:13-28 | a missing type or details gives the default message and creates nothing; otherwise the listing is created with the host's email as `host_id`, success is reported exactly when the service returned an id, and a known type under a free id always appends the listing, with the success message when the id is non-empty and the title present |
| Host.AnyOwned | users/Host.py:52 | the ownership scan is true exactly when a listing carries the id and every earlier one has a `"property_id"`; a listing without one raises `KeyError` |
| Host.DeleteListing | users/Host.py:46-56 | a property the host does not own is refused and nothing is deleted; an owned one is deleted through the property service, whose message is returned |
| Host.DeleteListingNeverDeletes | users/Host.py:46-56 | a host with listings always gets `KeyError` and one without is always refused; the collection never changes |
| Host.DefaultListingMessage | users/Host.py:15-16 | the default listing message is the host's name followed by ` created a new listing.` |
| Host.ManageBookings | users/Host.py:30-31 | the message is the host's name followed by ` is managing bookings.` |
| Host.ViewEarnings | users/Host.py:33-34 | the message is the host's name followed by ` is viewing earnings.` |
| Host.HostNamedInMessages | users/Host.py:13-34 | the host's name can be read back from each of the three messages by removing the fixed suffix |
| Host.BrowseListings | users/Host.py:36-44 | reports `No properties found.` or the number of listings the filter matches |
| BookingSystem.Attach | notification/booking_system.py:10-12 | an observer already attached is not added again; attaching keeps the list free of duplicates |
| BookingSystem.IndexOf | notification/booking_system.py:15 | finds the first occurrence of an attached observer |
| BookingSystem.RemoveFirst | notification/booking_system.py:15 | removing drops exactly the first occurrence and keeps the order of the rest |
| BookingSystem.Detach | notification/booking_system.py:14-15 | detaching a missing observer raises `ValueError`; otherwise one observer less, bookings and deliveries unchanged |
| BookingSystem.DetachRemovesExactly | notification/booking_system.py:14-15 | without duplicates, detaching removes exactly that observer, keeps all others, and adds no duplicate |
| BookingSystem.RemoveFirstMembers | notification/booking_system.py:15 | without duplicates, the remaining observers are exactly the others |
| BookingSystem.RemoveFirstNoDuplicates | notification/booking_system.py:15 | removing keeps the list free of duplicates |
| BookingSystem.Deliveries | notification/booking_system.py:17-19 | one delivery of the message per observer, in order |
| BookingSystem.Notify | notification/booking_system.py:17-19 | every attached observer receives the message once, in attachment order, and nothing else changes |
| BookingSystem.CreateBooking | notification/booking_system.py:21-40 | the new booking's id is one more than the number of bookings, and it is appended as `pending`; guest and host are attached, and every observer is notified once; ids stay sequential and observers without duplicates |
| BookingSystem.SimulatedPayment | notification/booking_system.py:66-73 | the simulated payment always succeeds, with payment id `pay_` and the timestamp |
| BookingSystem.Settle | notification/booking_system.py:49-64 | success confirms the booking and records the payment id and time; failure marks it `payment_failed`; only that booking changes, and all observers receive the matching message |
| BookingSystem.FindBooking | notification/booking_system.py:43 | the booking found is the first one carrying the id, and there is none exactly when no booking has it |
| BookingSystem.ProcessPayment | notification/booking_system.py:42-64 | an unknown booking id raises `ValueError`; a known one is settled with the simulated payment: the call succeeds, that booking becomes `confirmed` with payment id `pay_` and the timestamp and the paid time, and every observer is told once that it was paid |
| BookingSystem.PaymentAlwaysConfirms | notification/booking_system.py:42-73 | with sequential ids, paying for any existing booking succeeds, confirms exactly that booking with the simulated payment id and notifies every observer; any other id raises |
| BookingSystem.StepKeepsInvariants | notification/booking_system.py:10-64 | a booking, payment or detach keeps the ids sequential and the observers free of duplicates |
| BookingSystem.RunKeepsInvariants | notification/booking_system.py:6-64 | any run of bookings, payments and detaches from a well-formed system (the empty one included) keeps both invariants |

## Left out

- **User interface.** The Streamlit pages and `main.py` (rendering, session
  state, navigation) are not part of this model.
- **Database connectivity.** MongoDB connectivity, environment loading and
  `print` diagnostics are not modelled. A failed connection of a
  `db_connection` operation is the `up` flag.
- **The strategies' own database reads** (`get_db` in the strategies and in
  `_update_status_from_db`) are assumed to succeed.
- Payments.RecordStatus: always writes with a working connection. A failed
  status write in `Payment.process_payment` or `Payment.refund` is not
  modelled.
- Payments.Refund: models the `try`/`except` through the central
  update's `up` flag only. A failure of the later status write is not
  modelled.
- **Money** is integer cents, not floating point. The receipt prints the
  amount as Python prints `cents / 100` for ordinary values; exponent
  notation for very large or very small floats is left out.
- **Dates** are day numbers; parsing date strings is left out.
- **Generated values.** `ObjectId`, `uuid`, `datetime.now()` and timestamps
  are parameters (`newId`, `freshId`, `freshIds`, `now`, `stamp`). Stored
  `_id` values are strings, not `ObjectId`s.
- **The payment record's `timestamp` field** is not stored.
- **Concurrency.** Races between the balance check and the debit are not
  modelled; every operation runs alone.
- **SMTP notification and observers.** Sending mail and the print-only
  observers are not modelled. Observers are opaque ids, and
  `update(message)` is a delivery log. The host e-mail in
  `process_payment` (notification/booking_system.py:57-58) is left out.
- **`UserFactory` and `users/user_type.py`** are not part of this model.
  Users appear through their getters (`Auth.User`). The proxy sees a user
  class only as the set of method names it defines.
- **Proxied methods.** The proxy records which action it invokes, not what
  the invoked method returns or its arguments.
- UserProxy.ToLower: lower-cases ASCII letters only; Unicode case
  mapping is left out.
- Documents.Show: renders lists with `repr` of their items but does not
  escape quotes inside strings.
- PropertyService.CreateProperty: returns the stored document and not
  the caller's `details` dictionary. The caller-visible mutation of that
  dictionary (its `host_id`) is not modelled.
- BookingService.InsertBooking: always yields an id: the inserted id is
  never falsy, so the branch that reports `Failed to create booking.` is not
  reachable and is not modelled.
- BookingSystem.Settle: also models the failure branch of
  `process_payment`. No caller reaches it, because the simulated payment
  always succeeds.
- **Admin and guest actions.** The `browse_listings` overrides of `Admin`
  and `Guest`, and their message-returning methods, are not modelled
  beyond their names.
