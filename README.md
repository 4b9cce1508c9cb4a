# Notification engine of the BimmerWise back end

This project models the Cloud Functions in `functions/src/index.ts`, which
turn changes in the document store into push notifications and in-app
notification rows.

- `sendNotificationToUser` sends one push to a user's registered device
  token. It deletes the token when the messaging service reports it invalid
  or unregistered.
- `sendNotificationToAdmins` sends that push to every user flagged as an
  admin.
- `onOrderCreated` and `onOrderUpdated` tell the customer, and on creation
  also the admins, about new orders and order status changes.
- `onServiceRecordCreated` confirms a new booking to its owner and
  announces it to the admins.
- `onServiceRecordUpdated` classifies a booking update. The change is by an
  admin when `modifiedByAdmin` is set, otherwise by the customer. It is
  either a status change or a change to the date, description or cost. The
  customer and/or the admins are told. The admin flag is cleared once the
  update is processed.
- `sendBookingReminders` is the hourly scan. It reminds the owners of
  bookings 23 to 25 hours away and marks each booking as reminded.

The model has five layers:

- `Records` holds the documents. A JavaScript "falsy" optional string is
  the empty string. The device token is an `Option`. A booking time is a
  `Timestamp` of seconds and nanoseconds. An order total is an integer
  number of cents.
- `Text` holds the string helpers: the first eight characters of an id,
  two-decimal amounts, which `Fixed2RoundTrip` proves lossless, and
  ECMAScript `trim`.
- `Messages` holds every title and body the handlers produce. It also holds
  the pure decision for a booking update (`Classify`) and the
  reminder-window arithmetic.
- `Effects` gives each handler as a function from the store before to the
  store after. The store holds users, bookings, vehicles, in-app rows and a
  log of the pushes sent, each with its delivery outcome.
- `NotificationStore.Store` is a class whose fields are those collections.
  Its methods perform the handlers one read or write at a time, as the
  source does. Each is proved to end in the state the matching `Effects`
  function gives.

A few inputs from outside are parameters:

- The messaging service is a parameter `net: nat -> SendOutcome`, giving the
  outcome of the n-th push ever sent.
- The model does not depend on the order in which a query returns admins
  or due bookings, and covers every order the store might use. (The store
  returns the admins by document id and the due bookings by booking time,
  then id.) The methods pick elements with `:|` and return the order they
  used. The `Effects` functions take that order as an argument, and
  `Enumerates` relates the order to the set the query selects.
- Date rendering (`${serviceDate}`, `toLocaleDateString`,
  `toLocaleTimeString`) is a function parameter.

The model follows the code where it differs from the documented intent:

- The reminder scan skips only the statuses `"completed"` and `"cancelled"`
  (lower case). Bookings use `"Completed"` and `"Booking Canceled"`, so a
  completed or cancelled booking in the window is still reminded.
  `Effects.CanceledBookingIsStillReminded` proves this for a cancelled one.
  The documentation says terminal bookings are skipped. The model keeps the
  code's behaviour.
- Each handler names the service types its own way:
  - creation knows three types, and everything else is "Service";
  - the reminder knows four, and passes any other type through;
  - the update handler uses the raw type.
- On update, the customer's name comes only from the user document, else
  "Customer". The booking's own `customerName` is not used.
- The row type of the admins' rows on a booking update depends only on the
  new status. A detail edit of an already cancelled booking is filed as
  "bookingCanceled" (`Messages.EditOfCanceledBookingIsFiledAsCancel`).
- The titles in the repository's source text are mangled UTF-8. The model
  uses the emoji they evidently encode.

## Model

| member | source | states |
|---|---|---|
| Text.ShortId | functions/src/index.ts:126 | the id shown in order texts is the first eight characters of the order id, or the whole id when it is shorter |
| Text.Fixed2 | functions/src/index.ts:126 | the amount text has two decimals after a point and a leading minus exactly for negative amounts |
| Text.Fixed2RoundTrip | functions/src/index.ts:126 | reading the two-decimal text back gives the amount in cents: the formatting loses nothing |
| Text.ParseNatToString | functions/src/index.ts:126 | the integer part of an amount reads back as the integer it was written from |
| Text.Trim | functions/src/index.ts:584 | the trimmed vehicle text starts and ends with non-white-space, is a contiguous part of the input, and everything cut off is white space |
| Messages.OrderStatusMessage | functions/src/index.ts:180-202 | the title stays "Order Update" exactly for an unrecognised status, whose body then reads "…status: <status>"; every body names the order by its short id |
| Messages.OrderTitlesDistinct | functions/src/index.ts:184-199 | the four recognised order statuses have four different titles |
| Messages.OrderConfirmedBody | functions/src/index.ts:126 | the customer push is the in-app confirmation text of the same order followed by " Total: $" and an amount text that reads back as the order total |
| Messages.NewOrderBody | functions/src/index.ts:137 | the admin push is exactly "Order #<short id> - $", an amount text that reads back as the total, and " from <customer name>", or " from Guest" when there is no name: head, amount and ending fix its whole length |
| Messages.CreatedServiceName | functions/src/index.ts:246-253 | "Service" exactly when the type is none of carplay, gearbox, regular; the result is one of four names |
| Messages.UpdatedServiceName | functions/src/index.ts:321 | the raw service type when there is one, and "Service" when the type is empty |
| Messages.ReminderServiceName | functions/src/index.ts:605-621 | four known types map to their display names; any other type passes through, with "Service" for none |
| Messages.CustomerName | functions/src/index.ts:324-335 | the owning user's name when the user exists and has one, otherwise "Customer"; never empty |
| Messages.VehicleInfo | functions/src/index.ts:579-588 | with a vehicle reference to an existing vehicle: exactly the trimmed "make model" of that document; with a dangling reference: ""; without one: inline make and model only when both are set |
| Messages.AdminStatusMessage | functions/src/index.ts:345-364 | the admin-tone message for every status, with the generic "Booking Updated" message for unrecognised ones |
| Messages.UserStatusMessage | functions/src/index.ts:370-392 | the customer-tone message; the title stays "Service Update" exactly for an unrecognised status |
| Messages.StatusToneDiffers | functions/src/index.ts:345-392 | admin and customer phrasing differ exactly for statuses other than "Completed" |
| Messages.DetailsChanged | functions/src/index.ts:422-425 | a detail edit is a change of the booking date in whole seconds, the description or the cost; Messages.Classify and Effects.QuietUpdateWritesNothing state what it decides |
| Messages.Classify | functions/src/index.ts:311-505 | the customer is told iff the status or a tracked detail changed; the admins are told iff the change is not an admin's and is a cancellation or a detail edit; a detail edit tells the customer "Your <service> booking has been updated", ending " by admin." after an admin's change; the admin title and body name the customer and the service; the customer message follows the tables; row types follow the admin flag and the new status |
| Messages.FlagResetEchoIsSilent | functions/src/index.ts:508-512 | the update caused by clearing the admin flag tells nobody |
| Messages.ReminderMarkEchoIsSilent | functions/src/index.ts:655-657 | the update caused by marking a reminder tells nobody |
| Messages.EditOfCanceledBookingIsFiledAsCancel | functions/src/index.ts:497 | a customer's detail edit of a cancelled booking reaches the admins as a modification filed as "bookingCanceled" |
| Messages.TwentyFourHoursIsInWindow | functions/src/index.ts:533-543 | a booking exactly 24 hours ahead lies in the scan's window |
| Messages.HourlyScansCoverEveryTime | functions/src/index.ts:522-543 | with a scan every hour, every booking at least 23 hours after the first scan falls in some scan's window |
| Messages.InReminderWindow | functions/src/index.ts:533-543 | the window runs from 23 to 25 hours after the scan, both ends included; Messages.TwentyFourHoursIsInWindow and Messages.HourlyScansCoverEveryTime state its coverage |
| Messages.IsDue | functions/src/index.ts:539-543 | a booking is due when it lies in the window and has not been reminded; Effects.DueIds and Effects.RemindedIsNeverDueAgain state its use |
| Messages.SkipsReminder | functions/src/index.ts:558 | the scan skips exactly the lower-case statuses "completed" and "cancelled"; Effects.Remind and Effects.CanceledBookingIsStillReminded state its effect |
| Messages.ReminderBody | functions/src/index.ts:626-627 | the reminder push states the service and time, and ends in " for your <vehicle>" exactly when there is vehicle text |
| Messages.ReminderMessage | functions/src/index.ts:642 | the reminder row states the service, date and time, and ends in " Vehicle: <vehicle>" exactly when there is vehicle text |
| Records.AdminIds | functions/src/index.ts:86-88 | the admin query selects exactly the users whose admin flag is set |
| Effects.PushData | functions/src/index.ts:127-130 | the push data carries exactly the type and the id under its key |
| Effects.StatusData | functions/src/index.ts:210-214 | the push data of an update has exactly the keys type, the id key and status, carrying the kind, the id and the new status |
| Effects.TokenOf | functions/src/index.ts:20-33 | a send has a token exactly when the user exists and has a non-empty token |
| Effects.ClearsToken | functions/src/index.ts:64-71 | the token is deleted after exactly the two error codes invalid-registration-token and registration-token-not-registered; Effects.Deliver states the deletion |
| Effects.Deliver | functions/src/index.ts:12-76 | no user or no token: nothing changes; otherwise exactly one push logged with the user's token and the transport's outcome; the token is deleted only after the invalid-token or unregistered-token error, and any other outcome leaves the users unchanged; no other user and nothing else is touched |
| Effects.DeliverLog | functions/src/index.ts:36-59 | one send appends to the push log the push with the user's token and the transport's outcome when the user has a token, and nothing otherwise |
| Effects.WithToken | functions/src/index.ts:95-97 | the admins that actually get a push: those of the list with a token, in list order |
| Effects.DeliverAll | functions/src/index.ts:81-106 | a broadcast logs at most one push per listed user |
| Effects.DeliverAllFrame | functions/src/index.ts:81-106 | a broadcast changes only the push log and the tokens of the listed users; names, admin flags, bookings and rows stay |
| Effects.DeliverAllKeepsToken | functions/src/index.ts:81-106 | a broadcast leaves the token of a user it does not list unchanged |
| Effects.DeliverTail | functions/src/index.ts:36-59 | one more send adds to the pushes logged since an earlier state exactly the push with the token the user had then, when the token has not changed in between |
| Effects.DeliverAllOncePerUser | functions/src/index.ts:95-97 | no admin gets two pushes from one broadcast |
| Effects.DeliverAllRecipients | functions/src/index.ts:95-97 | the pushes of a broadcast go to exactly the admins with a token, in order |
| Effects.DeliverAllSentShape | functions/src/index.ts:95-97 | every broadcast push carries the broadcast's text and data and the recipient's token |
| Effects.BroadcastShape | functions/src/index.ts:81-106 | a broadcast to distinct admins keeps the earlier pushes and appends only pushes with its text and data, to listed admins, at most one each |
| Effects.AdminRows | functions/src/index.ts:491-503 | one unread row per admin, in the order the admin query returned them |
| Effects.OrderCreated | functions/src/index.ts:112-159 | without a total the handler fails before any effect and nothing changes |
| Effects.CustomerThenAdmins | functions/src/index.ts:121-143 | a push to the customer, when there is one, then the broadcast to the admins; Effects.CustomerThenAdminsShape, Effects.CustomerThenAdminsPushes and Effects.CustomerThenAdminsRecipients state what it sends |
| Effects.OrderCreatedRows | functions/src/index.ts:145-155 | order creation appends exactly one unread "order" row, for the customer, when there is a customer and a total; none for admins |
| Effects.OrderCreatedPushes | functions/src/index.ts:121-143 | order creation keeps the earlier pushes, sends the customer the confirmation with the total first when the customer has a token, and then sends only new-order pushes naming the customer, to admins, at most one each |
| Effects.OrderCreatedAdminTargets | functions/src/index.ts:121-143 | when the customer is not an admin, the admins that get the new-order push are exactly those with a token, in the order the query listed them |
| Effects.CustomerThenAdminsShape | functions/src/index.ts:121-143 | a push to a customer followed by a broadcast keeps the log, puts the customer's push first when they have a token, and then only broadcast pushes to distinct admins |
| Effects.CustomerThenAdminsPushes | functions/src/index.ts:121-143 | for a customer who is not an admin, the log gains the customer's push first, then one push per admin with a token, in order |
| Effects.CustomerThenAdminsRecipients | functions/src/index.ts:121-143 | for a customer who is not an admin, the recipients after the customer's push are exactly the admins with a token, in order |
| Effects.OrderUpdated | functions/src/index.ts:165-231 | no-op when the status is unchanged; otherwise, for an order with an owner, exactly one unread "order" row with the table message and one push with the same text and data {type "order_update", orderId, status} when the owner has a token; the owner's token is deleted exactly after the two token errors |
| Effects.DeliverAllIgnoresRows | functions/src/index.ts:256-288 | writing in-app rows and broadcasting are independent, so their order does not matter |
| Effects.NewBookingBody | functions/src/index.ts:280-283 | the admin push for a new booking reads "<service> booking from <who> on <date>", where who is the customer name, or "Customer" when there is none |
| Effects.RecordCreated | functions/src/index.ts:237-292 | the owner's confirmation push and row, then the admin broadcast; Effects.RecordCreatedEffects states its effects |
| Effects.RecordCreatedEffects | functions/src/index.ts:237-292 | booking creation broadcasts to the admins even for a guest booking; the owner gets a push and one unread "service" row only when there is one; bookings are untouched |
| Effects.ClearFlag | functions/src/index.ts:508-512 | the flag reset clears only this booking's admin flag and touches nothing when the booking does not exist |
| Effects.DecisionRows | functions/src/index.ts:410-418 | an update writes at most one customer row, then one row per admin exactly when the admins are told |
| Effects.ApplyDecision | functions/src/index.ts:396-512 | carries out an update decision: owner push and row, admin broadcast and rows, then the flag reset; Effects.ApplyDecisionEffects states its effects |
| Effects.RecordUpdated | functions/src/index.ts:298-516 | classifies the update and carries out the decision; Effects.ApplyDecisionEffects, Effects.QuietUpdateWritesNothing, Effects.AdminChangeReachesOnlyOwner and Effects.OwnerStatusChangeRows state its effects |
| Effects.ApplyDecisionEffects | functions/src/index.ts:396-512 | an update's pushes are the customer's followed by the admin broadcast, each only when decided; the rows are those of DecisionRows; bookings change only by the flag reset, and only after an admin's change |
| Effects.QuietUpdateWritesNothing | functions/src/index.ts:421-427 | an update changing neither status nor date, description or cost writes only the flag reset |
| Effects.AdminChangeReachesOnlyOwner | functions/src/index.ts:341-365 | after an admin's change, at most one push and one "adminModified" row, both for the owner, and the booking's admin flag is clear |
| Effects.OwnerStatusChangeRows | functions/src/index.ts:366-393 | a customer's status change writes the customer's message row, then one "cancelled by user" row per admin exactly when the new status is the cancellation |
| Effects.MarkReminded | functions/src/index.ts:655-657 | the marker write sets this booking's reminder flag, leaves its other fields, every other booking, the users, vehicles, rows and pushes unchanged |
| Effects.ReminderPushBody | functions/src/index.ts:579-627 | the reminder push text of a booking is ReminderBody applied to its ReminderServiceName, its formatted time and its VehicleInfo; Messages.ReminderBody and Messages.VehicleInfo state what that text says |
| Effects.ReminderRowText | functions/src/index.ts:579-642 | the reminder row text of a booking is ReminderMessage applied to its ReminderServiceName, its formatted date and time and its VehicleInfo; Messages.ReminderMessage and Messages.VehicleInfo state what that text says |
| Effects.Remind | functions/src/index.ts:554-662 | a skipped status leaves the store unchanged; otherwise the booking is marked whatever happens to the push, the owner (when there is one) gets exactly the reminder push with data {type "reminder", recordId} when they have a token and exactly one unread "service" row with the reminder text, and the owner's token is deleted exactly after the two token errors |
| Effects.RemindOnePush | functions/src/index.ts:624-636 | one reminder keeps the push log and adds at most one push, the reminder of that booking, and adds it when the booking is not skipped and its owner has a token |
| Effects.RemindOneRow | functions/src/index.ts:637-647 | one reminder keeps the rows and adds at most one row, the reminder row of that booking, and adds it when the booking is not skipped and has an owner |
| Effects.RemindKeepsUser | functions/src/index.ts:554-662 | one reminder leaves the token of every user but the booking's owner unchanged |
| Effects.RemindAll | functions/src/index.ts:553-664 | a scan keeps the set of bookings and the vehicles |
| Effects.RemindAllMarks | functions/src/index.ts:558-561 | after a scan every selected booking is marked unless its status was skipped, in which case it is untouched, and no other booking changes |
| Effects.RemindAllRows | functions/src/index.ts:624-647 | a scan keeps the earlier rows and adds at most one unread "service" reminder row per selected booking, only for non-skipped bookings, each for the booking's owner, and no two rows for the same booking |
| Effects.RemindAllPushes | functions/src/index.ts:624-635 | a scan keeps the earlier pushes and sends at most one push per selected booking, each the reminder of a non-skipped booking with an owner, to that owner, with the reminder title, text and data |
| Effects.RemindAllPushFor | functions/src/index.ts:624-636 | every selected, non-skipped booking whose owner has a token and owns no other booking of the scan gets its reminder push |
| Effects.RemindAllKeepsUser | functions/src/index.ts:553-664 | a scan leaves the token of a user who owns none of its bookings unchanged |
| Effects.RemindAllRowFor | functions/src/index.ts:624-647 | every selected, non-skipped booking with an owner gets its reminder row |
| Effects.DueIds | functions/src/index.ts:539-543 | the scan selects exactly the bookings in the window that are not yet reminded |
| Effects.RemindedIsNeverDueAgain | functions/src/index.ts:655-657 | a booking a scan reminded is never selected again, at any time |
| Effects.DayAheadBookingIsRemindedOnce | functions/src/index.ts:533-657 | a booking exactly a day ahead, unreminded and not skipped, is selected, reminded and never selected again |
| Effects.CanceledBookingIsStillReminded | functions/src/index.ts:558 | a "Booking Canceled" booking a day ahead is still reminded, and its owner gets a row |
| NotificationStore.Store.QueryAdmins | functions/src/index.ts:86-88 | returns every admin exactly once |
| NotificationStore.Store.QueryDue | functions/src/index.ts:539-543 | returns every due booking exactly once |
| NotificationStore.Store.SendNotificationToUser | functions/src/index.ts:12-76 | ends in the state Deliver gives |
| NotificationStore.Store.SendNotificationToAdmins | functions/src/index.ts:81-106 | queries the admins, then ends in the state DeliverAll gives for that order |
| NotificationStore.Store.AddNotification | functions/src/index.ts:146-154 | appends exactly the one row, as every in-app row write does |
| NotificationStore.Store.AddAdminRows | functions/src/index.ts:485-505 | appends exactly AdminRows |
| NotificationStore.Store.OnOrderCreated | functions/src/index.ts:112-159 | ends in the state OrderCreated gives |
| NotificationStore.Store.OnOrderUpdated | functions/src/index.ts:165-231 | ends in the state OrderUpdated gives |
| NotificationStore.Store.OnServiceRecordCreated | functions/src/index.ts:237-292 | ends in the state RecordCreated gives |
| NotificationStore.Store.OnServiceRecordUpdated | functions/src/index.ts:298-516 | queries the admins only when they are told, and ends in the state RecordUpdated gives |
| NotificationStore.Store.RemindBooking | functions/src/index.ts:554-662 | ends in the state Remind gives |
| NotificationStore.Store.SendBookingReminders | functions/src/index.ts:522-672 | selects the due bookings, then ends in the state RemindAll gives for that order |

## Left out

- Firebase setup, the trigger and schedule registration, and the time zone of the schedule: these are deployment configuration. `HourlyScansCoverEveryTime` states the hourly cadence.
- Failures of the document store (a `get`, `add` or `update` that throws) are not modelled. Only the messaging service's outcome is a parameter. A handler that fails part-way is therefore not modelled.
- Concurrency: `Promise.all` over admins and over due bookings runs as a sequence in the query's order. Interleavings of concurrent trigger invocations are not modelled.
- Logging, the Android and APNs delivery hints (sound, priority, badge) and `serverTimestamp()` are left out. They carry no decision.
- `toFixed(2)` works on floating point. The model takes integer cents, so float rounding and the exponential notation above 10^21 are not modelled.
- Date rendering (`${serviceDate}` in the booking texts and the en-US `toLocaleDateString` / `toLocaleTimeString`) is an opaque function parameter.
- A missing `status`, a non-numeric `cost` (NaN), a missing `serviceDate`, a missing `reminderSent` field and non-string field values are not modelled. Every field is present, with "" for an absent string.
- A `totalAmount` that is absent makes `toFixed` throw. It is modelled as "nothing happens". Any other non-number total is not modelled.
- The reminder scan looks up the owner's name and the booking's customer name, and then never uses them. The model leaves out these lookups.
- The reminder of a booking reads it from the store at reminder time, not from the query snapshot. In the sequential model the two agree, because an earlier reminder of the same scan changes no other booking.
- RemindAllPushFor: covers only an owner with one booking in the scan. When an owner has several, a push that fails with a token error deletes the token, and the later bookings of that owner get no push; Effects.Remind states that step exactly.
- Text lengths: Dafny strings count Unicode scalar values, while `substring(0, 8)` and `trim()` in JavaScript count UTF-16 code units. An order id or vehicle text with characters outside the Basic Multilingual Plane is cut differently.
- `ios/…/AppDelegate.swift` is not part of this model (device-side token registration).
