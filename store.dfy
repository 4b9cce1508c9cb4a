/**
 * The notification functions as they run against the store: each call does
 * one read or one write at a time, as the handlers do, and each method is
 * proved to end in the state the matching function of `Effects` gives.
 * Queries whose order the store does not fix pick their next element with
 * `:|` and return the order they used.
 */
module NotificationStore {
  import opened Wrappers
  import opened Records
  import opened Text
  import opened Messages
  import opened Effects

  class Store {
    var users: map<string, User>
    var records: map<string, ServiceRecord>
    var vehicles: map<string, Vehicle>
    var notifications: seq<Notification>
    var pushes: seq<Push>

    /** The whole store as a value. */
    function State(): Db
      reads this
    {
      Db(users, records, vehicles, notifications, pushes)
    }

    constructor (db: Db)
      ensures State() == db
    {
      users, records, vehicles, notifications, pushes := db.users, db.records, db.vehicles, db.notifications, db.pushes;
    }

    /** `users where isAdmin == true`: every admin once, in some order. */
    method QueryAdmins() returns (ids: seq<string>)
      ensures Enumerates(ids, AdminIds(users))
    {
      ids := [];
      var rest := users.Keys;
      while rest != {}
        invariant rest <= users.Keys
        invariant forall i, j :: 0 <= i < j < |ids| ==> ids[i] != ids[j]
        invariant forall x :: x in ids ==> x in users && users[x].isAdmin && x !in rest
        invariant forall x :: x in users && users[x].isAdmin && x !in rest ==> x in ids
        decreases rest
      {
        var x :| x in rest;
        if users[x].isAdmin {
          ids := ids + [x];
        }
        rest := rest - {x};
      }
    }

    /** The reminder scan's query: every booking in the window and not yet reminded, once, in some order. */
    method QueryDue(nowMs: int) returns (ids: seq<string>)
      ensures Enumerates(ids, DueIds(records, nowMs))
    {
      ids := [];
      var rest := records.Keys;
      while rest != {}
        invariant rest <= records.Keys
        invariant forall i, j :: 0 <= i < j < |ids| ==> ids[i] != ids[j]
        invariant forall x :: x in ids ==> x in records && IsDue(records[x], nowMs) && x !in rest
        invariant forall x :: x in records && IsDue(records[x], nowMs) && x !in rest ==> x in ids
        decreases rest
      {
        var x :| x in rest;
        if IsDue(records[x], nowMs) {
          ids := ids + [x];
        }
        rest := rest - {x};
      }
    }

    /** `sendNotificationToUser`. */
    method SendNotificationToUser(userId: string, title: string, body: string, data: map<string, string>, net: Transport)
      modifies this
      ensures State() == Deliver(old(State()), userId, title, body, data, net)
    {
      if userId !in users {
        return;
      }
      var token := users[userId].fcmToken;
      if token.None? || token.value == "" {
        return;
      }
      var outcome := net(|pushes|);
      pushes := pushes + [Push(userId, token.value, title, body, data, outcome)];
      if outcome.Failed? && (outcome.code == InvalidToken || outcome.code == UnregisteredToken) {
        users := users[userId := users[userId].(fcmToken := None)];
      }
    }

    /** `sendNotificationToAdmins`: one push per admin, in the order the query returned them. */
    method SendNotificationToAdmins(title: string, body: string, data: map<string, string>, net: Transport)
      returns (admins: seq<string>)
      modifies this
      ensures Enumerates(admins, AdminIds(old(users)))
      ensures State() == DeliverAll(old(State()), admins, title, body, data, net)
    {
      admins := QueryAdmins();
      var i := 0;
      while i < |admins|
        invariant 0 <= i <= |admins|
        invariant State() == DeliverAll(old(State()), admins[..i], title, body, data, net)
      {
        SendNotificationToUser(admins[i], title, body, data, net);
        assert admins[..i + 1][..i] == admins[..i];
        i := i + 1;
      }
      assert admins[..|admins|] == admins;
    }

    /** `notifications.add(row)`. */
    method AddNotification(row: Notification)
      modifies this
      ensures State() == Append(old(State()), [row])
    {
      notifications := notifications + [row];
    }

    /** One row per admin, in the order of `ids`. */
    method AddAdminRows(ids: seq<string>, title: string, message: string, kind: string, entity: EntityRef)
      modifies this
      ensures State() == Append(old(State()), AdminRows(ids, title, message, kind, entity))
    {
      var i := 0;
      while i < |ids|
        invariant 0 <= i <= |ids|
        invariant State() == Append(old(State()), AdminRows(ids[..i], title, message, kind, entity))
      {
        AddNotification(Notification(ids[i], title, message, kind, entity, false));
        assert ids[..i + 1][..i] == ids[..i];
        i := i + 1;
      }
      assert ids[..|ids|] == ids;
    }

    /** `onOrderCreated`; `admins` is the order the admin query used, empty when nothing was sent. */
    method OnOrderCreated(orderId: string, order: Order, net: Transport) returns (admins: seq<string>)
      modifies this
      ensures order.totalAmount.Some? ==> Enumerates(admins, AdminIds(old(users)))
      ensures State() == OrderCreated(old(State()), orderId, order, admins, net)
    {
      admins := [];
      if order.totalAmount.None? {
        return;
      }
      var cents := order.totalAmount.value;
      if order.userId != "" {
        SendNotificationToUser(order.userId, OrderConfirmedTitle, OrderConfirmedBody(orderId, cents),
                               PushData("order", "orderId", orderId), net);
      }
      admins := SendNotificationToAdmins(NewOrderTitle, NewOrderBody(orderId, cents, order.customerName),
                                         PushData("admin_order", "orderId", orderId), net);
      if order.userId != "" {
        AddNotification(Notification(order.userId, OrderConfirmedTitle, "Your order #" + ShortId(orderId) + " has been confirmed.",
                                     "order", OrderRef(orderId), false));
      }
    }

    /** `onOrderUpdated`. */
    method OnOrderUpdated(orderId: string, before: Order, after: Order, net: Transport)
      modifies this
      ensures State() == OrderUpdated(old(State()), orderId, before, after, net)
    {
      if before.status == after.status {
        return;
      }
      var m := OrderStatusMessage(orderId, after.status);
      if after.userId != "" {
        SendNotificationToUser(after.userId, m.title, m.body, StatusData("order_update", "orderId", orderId, after.status), net);
        AddNotification(Notification(after.userId, m.title, m.body, "order", OrderRef(orderId), false));
      }
    }

    /** `onServiceRecordCreated`; `stamp` renders the booking date into the texts. */
    method OnServiceRecordCreated(recordId: string, rec: ServiceRecord, net: Transport, stamp: Timestamp -> string)
      returns (admins: seq<string>)
      modifies this
      ensures Enumerates(admins, AdminIds(old(users)))
      ensures State() == RecordCreated(old(State()), recordId, rec, admins, net, stamp)
    {
      var st := CreatedServiceName(rec.serviceType);
      if rec.userId != "" {
        SendNotificationToUser(rec.userId, BookingConfirmedTitle,
                               "Your " + st + " booking for " + stamp(rec.serviceDate) + " has been confirmed.",
                               PushData("service", "recordId", recordId), net);
        AddNotification(Notification(rec.userId, BookingConfirmedTitle, "Your " + st + " booking has been confirmed.",
                                     "service", RecordRef(recordId), false));
      }
      admins := SendNotificationToAdmins(NewBookingTitle, NewBookingBody(st, rec.customerName, stamp(rec.serviceDate)),
                                         PushData("admin_service", "recordId", recordId), net);
    }

    /**
     * `onServiceRecordUpdated`; `pushAdmins` and `rowAdmins` are the orders
     * the two admin queries used, both empty when the admins are not told.
     */
    method OnServiceRecordUpdated(recordId: string, before: ServiceRecord, after: ServiceRecord, net: Transport)
      returns (pushAdmins: seq<string>, rowAdmins: seq<string>)
      modifies this
      ensures var d := Classify(before, after, CustomerName(old(users), after.userId));
        if d.notifyAdmins then Enumerates(pushAdmins, AdminIds(old(users))) && Enumerates(rowAdmins, AdminIds(old(users)))
        else pushAdmins == [] && rowAdmins == []
      ensures State() == RecordUpdated(old(State()), recordId, before, after, pushAdmins, rowAdmins, net)
    {
      var d := Classify(before, after, CustomerName(users, after.userId));
      pushAdmins, rowAdmins := [], [];
      if d.notifyUser && after.userId != "" {
        SendNotificationToUser(after.userId, d.title, d.body, StatusData("service_update", "recordId", recordId, after.status), net);
        AddNotification(Notification(after.userId, d.title, d.body, d.userKind, BookingRef(recordId), false));
      }
      if d.notifyAdmins {
        ghost var s1 := State();
        pushAdmins := SendNotificationToAdmins(d.adminTitle, d.adminBody, PushData("admin_booking_update", "recordId", recordId), net);
        DeliverAllFrame(s1, pushAdmins, d.adminTitle, d.adminBody, PushData("admin_booking_update", "recordId", recordId), net);
        rowAdmins := QueryAdmins();
        AddAdminRows(rowAdmins, d.adminTitle, d.adminBody, d.adminKind, BookingRef(recordId));
      }
      if after.modifiedByAdmin && recordId in records {
        records := records[recordId := records[recordId].(modifiedByAdmin := false)];
      }
    }

    /** The reminder for one selected booking. */
    method RemindBooking(recordId: string, net: Transport, fmtDate: Timestamp -> string, fmtTime: Timestamp -> string)
      requires recordId in records
      modifies this
      ensures State() == Remind(old(State()), recordId, net, fmtDate, fmtTime)
    {
      var rec := records[recordId];
      if SkipsReminder(rec.status) {
        return;
      }
      var vehicle := VehicleInfo(rec, vehicles);
      var st := ReminderServiceName(rec.serviceType);
      var timeStr := fmtTime(rec.serviceDate);
      if rec.userId != "" {
        SendNotificationToUser(rec.userId, ReminderTitle, ReminderBody(st, timeStr, vehicle),
                               PushData("reminder", "recordId", recordId), net);
        AddNotification(Notification(rec.userId, ReminderTitle, ReminderMessage(st, fmtDate(rec.serviceDate), timeStr, vehicle),
                                     "service", RecordRef(recordId), false));
      }
      records := records[recordId := rec.(reminderSent := true)];
    }

    /** `sendBookingReminders` at time `nowMs`; `due` is the order the query returned the bookings in. */
    method SendBookingReminders(nowMs: int, net: Transport, fmtDate: Timestamp -> string, fmtTime: Timestamp -> string)
      returns (due: seq<string>)
      modifies this
      ensures Enumerates(due, DueIds(old(records), nowMs))
      ensures State() == RemindAll(old(State()), due, net, fmtDate, fmtTime)
    {
      due := QueryDue(nowMs);
      var i := 0;
      while i < |due|
        invariant 0 <= i <= |due|
        invariant State() == RemindAll(old(State()), due[..i], net, fmtDate, fmtTime)
      {
        RemindAllPrefix(old(State()), due, i, net, fmtDate, fmtTime);
        RemindBooking(due[i], net, fmtDate, fmtTime);
        i := i + 1;
      }
      assert due[..|due|] == due;
    }
  }
}
