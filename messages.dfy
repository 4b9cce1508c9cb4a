/**
 * The message tables and decisions of the notification functions, as pure
 * functions: the order-status table, the three service-type display
 * mappings, the customer-name and vehicle lookups, the classifier of
 * service-record updates and the reminder window.
 *
 * Titles carry the emoji the source's UTF-8 bytes denote.
 */
module Messages {
  import opened Wrappers
  import opened Records
  import opened Text

  // ---------------------------------------------------------------------
  // Titles.

  const OrderConfirmedTitle := "Order Confirmed! \U{1F389}"
  const NewOrderTitle := "New Order Received \U{1F4E6}"
  const OrderUpdateTitle := "Order Update"
  const OrderProcessingTitle := "Order Processing \U{1F504}"
  const OrderShippedTitle := "Order Shipped \U{1F69A}"
  const OrderDeliveredTitle := "Order Delivered \U{2705}"
  const OrderCancelledTitle := "Order Cancelled \U{274C}"
  const BookingConfirmedTitle := "Booking Confirmed! \U{1F527}"
  const NewBookingTitle := "New Service Booking \U{1F527}"
  const ServiceUpdateTitle := "Service Update"
  const StatusConfirmedTitle := "Booking Confirmed \U{2705}"
  const StatusCompletedTitle := "Service Completed \U{2705}"
  const AdminCanceledTitle := "Booking Canceled \U{274C}"
  const AdminStatusTitle := "Booking Updated \U{1F504}"
  const UserCancelledTitle := "Booking Cancelled \U{274C}"
  const CancelledByUserTitle := "Booking Cancelled by User \U{1F6AB}"
  const AdminEditTitle := "Booking Updated by Admin \U{1F504}"
  const UserEditTitle := "Booking Updated \U{1F4DD}"
  const ModifiedByUserTitle := "Booking Modified by User \U{1F4DD}"
  const ReminderTitle := "Booking Reminder \U{1F514}"

  // The booking statuses the classifier recognises.
  const Confirmed := "Booking Confirmed"
  const Completed := "Completed"
  const Canceled := "Booking Canceled"

  datatype Message = Message(title: string, body: string)

  // ---------------------------------------------------------------------
  // Orders.

  predicate IsKnownOrderStatus(status: string)
  {
    status == "processing" || status == "shipped" || status == "delivered" || status == "cancelled"
  }

  /** The message for an order whose status changed to `status`. */
  function OrderStatusMessage(orderId: string, status: string): (m: Message)
    ensures (m.title == OrderUpdateTitle) <==> !IsKnownOrderStatus(status)
    ensures "Your order #" + ShortId(orderId) <= m.body
    ensures !IsKnownOrderStatus(status) ==> m.body == "Your order #" + ShortId(orderId) + " status: " + status
  {
    var id := "Your order #" + ShortId(orderId);
    match status
    case "processing" => Message(OrderProcessingTitle, id + " is now being processed.")
    case "shipped" => Message(OrderShippedTitle, id + " has been shipped!")
    case "delivered" => Message(OrderDeliveredTitle, id + " has been delivered. Thank you!")
    case "cancelled" => Message(OrderCancelledTitle, id + " has been cancelled.")
    case _ => Message(OrderUpdateTitle, id + " status: " + status)
  }

  /** A customer can tell every recognised order status from the title alone. */
  lemma OrderTitlesDistinct(orderId: string, s1: string, s2: string)
    requires IsKnownOrderStatus(s1) && IsKnownOrderStatus(s2) && s1 != s2
    ensures OrderStatusMessage(orderId, s1).title != OrderStatusMessage(orderId, s2).title
  {
  }

  /** The body of the customer push when an order is created. */
  function OrderConfirmedBody(orderId: string, cents: int): (s: string)
    ensures "Your order #" + ShortId(orderId) + " has been confirmed." <= s
    // After the confirmation comes the total, which reads back as the order's amount.
    ensures var head := "Your order #" + ShortId(orderId) + " has been confirmed." + " Total: $";
      head <= s && ParseFixed2(s[|head|..]) == Some(cents)
  {
    var confirmed := "Your order #" + ShortId(orderId) + " has been confirmed.";
    Concat3(confirmed, " Total: $", Fixed2(cents));
    Fixed2RoundTrip(cents);
    confirmed + " Total: $" + Fixed2(cents)
  }

  /**
   * The body of the admin push when an order is created: the short order id,
   * the total, which reads back as the order's amount, and the customer's
   * name, or "Guest" when there is none.
   */
  function NewOrderBody(orderId: string, cents: int, customerName: string): (s: string)
    ensures var head := "Order #" + ShortId(orderId) + " - $";
      head <= s && |head| + |Fixed2(cents)| <= |s| &&
      ParseFixed2(s[|head|..|head| + |Fixed2(cents)|]) == Some(cents)
    ensures customerName != "" ==> EndsWith(s, " from " + customerName)
    ensures customerName == "" ==> EndsWith(s, " from Guest")
    ensures |s| == |"Order #" + ShortId(orderId) + " - $"| + |Fixed2(cents)| +
      |" from " + (if customerName != "" then customerName else "Guest")|
  {
    var head := "Order #" + ShortId(orderId) + " - $";
    var tail := " from " + (if customerName != "" then customerName else "Guest");
    assert customerName == "" ==> tail == " from Guest";
    Concat3(head, Fixed2(cents), tail);
    Fixed2RoundTrip(cents);
    head + Fixed2(cents) + tail
  }

  // ---------------------------------------------------------------------
  // Service-type display names. Each handler has its own mapping.

  /** The display name used when a booking is created: three known types, everything else "Service". */
  function CreatedServiceName(serviceType: string): (r: string)
    ensures r == "Service" <==> serviceType != "carplay" && serviceType != "gearbox" && serviceType != "regular"
    ensures r in {"CarPlay", "Gearbox", "Regular Service", "Service"}
  {
    if serviceType == "carplay" then "CarPlay"
    else if serviceType == "gearbox" then "Gearbox"
    else if serviceType == "regular" then "Regular Service"
    else "Service"
  }

  /** The name used when a booking is updated: the raw type, or "Service" when there is none. */
  function UpdatedServiceName(serviceType: string): (r: string)
    ensures r != ""
    ensures serviceType != "" ==> r == serviceType
    ensures serviceType == "" ==> r == "Service"
  {
    if serviceType != "" then serviceType else "Service"
  }

  predicate IsKnownReminderType(serviceType: string)
  {
    serviceType in {"carplay", "gearbox", "xhp_remap", "regular"}
  }

  /** The name used in a reminder: four known types, any other raw type passed through. */
  function ReminderServiceName(serviceType: string): (r: string)
    ensures r != ""
    ensures !IsKnownReminderType(serviceType) ==> r == UpdatedServiceName(serviceType)
    ensures IsKnownReminderType(serviceType) ==>
      r in {"CarPlay Installation", "Gearbox Service", "BMW XHP Gearbox Remap", "Regular Service"}
  {
    match serviceType
    case "carplay" => "CarPlay Installation"
    case "gearbox" => "Gearbox Service"
    case "xhp_remap" => "BMW XHP Gearbox Remap"
    case "regular" => "Regular Service"
    case _ => if serviceType != "" then serviceType else "Service"
  }

  // ---------------------------------------------------------------------
  // Lookups used for the message text.

  /**
   * The customer name the update handler uses: the owning user's stored
   * name, else "Customer". The booking's own `customerName` is not consulted.
   */
  function CustomerName(users: map<string, User>, userId: string): (r: string)
    ensures r != ""
    ensures r != "Customer" ==> userId != "" && userId in users && r == users[userId].name
    ensures userId != "" && userId in users && users[userId].name != "" ==> r == users[userId].name
  {
    if userId != "" && userId in users && users[userId].name != "" then users[userId].name else "Customer"
  }

  /**
   * The vehicle text of a reminder: the linked vehicle's make and model,
   * trimmed; else the booking's inline make and model when both are set;
   * else nothing.
   */
  function VehicleInfo(rec: ServiceRecord, vehicles: map<string, Vehicle>): (r: string)
    ensures rec.vehicleId != "" && rec.vehicleId !in vehicles ==> r == ""
    ensures rec.vehicleId != "" && r != "" ==> !IsJsSpace(r[0]) && !IsJsSpace(r[|r| - 1])
    ensures rec.vehicleId != "" && rec.vehicleId in vehicles ==>
      r == Trim(vehicles[rec.vehicleId].make + " " + vehicles[rec.vehicleId].model)
    ensures rec.vehicleId == "" ==>
      r == if rec.vehicleMake != "" && rec.vehicleModel != "" then rec.vehicleMake + " " + rec.vehicleModel else ""
  {
    if rec.vehicleId != "" then
      if rec.vehicleId in vehicles then Trim(vehicles[rec.vehicleId].make + " " + vehicles[rec.vehicleId].model)
      else ""
    else if rec.vehicleMake != "" && rec.vehicleModel != "" then rec.vehicleMake + " " + rec.vehicleModel
    else ""
  }

  // ---------------------------------------------------------------------
  // The service-record update classifier.

  /** What one update event of a booking produces. */
  datatype Decision = Decision(
    notifyUser: bool,
    title: string,
    body: string,
    notifyAdmins: bool,
    adminTitle: string,
    adminBody: string,
    userKind: string,   // the `type` of the customer's in-app row
    adminKind: string)  // the `type` of each admin's in-app row

  predicate StatusChanged(before: ServiceRecord, after: ServiceRecord)
  {
    before.status != after.status
  }

  /** A change to one of the tracked details: the date (whole seconds), the description or the cost. */
  predicate DetailsChanged(before: ServiceRecord, after: ServiceRecord)
  {
    before.serviceDate.seconds != after.serviceDate.seconds ||
    before.description != after.description ||
    before.cost != after.cost
  }

  /** The customer message for a status change an admin made. */
  function AdminStatusMessage(status: string, st: string): (m: Message)
    ensures m.title != ServiceUpdateTitle
    ensures "Your " + st <= m.body
    ensures status != Confirmed && status != Completed && status != Canceled ==>
      m == Message(AdminStatusTitle, "Your " + st + " booking status: " + status)
  {
    match status
    case "Booking Confirmed" => Message(StatusConfirmedTitle, "Your " + st + " booking has been confirmed by admin.")
    case "Completed" => Message(StatusCompletedTitle, "Your " + st + " has been completed. Ready to collect!")
    case "Booking Canceled" => Message(AdminCanceledTitle, "Your " + st + " booking has been canceled by admin. Please contact us.")
    case _ => Message(AdminStatusTitle, "Your " + st + " booking status: " + status)
  }

  /** The customer message for a status change the customer made; an unknown status keeps the initial title. */
  function UserStatusMessage(status: string, st: string): (m: Message)
    ensures (m.title == ServiceUpdateTitle) <==> status != Confirmed && status != Completed && status != Canceled
    ensures m.title == ServiceUpdateTitle ==> m.body == st + " status: " + status
    ensures m.title != ServiceUpdateTitle ==> "Your " + st <= m.body
  {
    match status
    case "Booking Confirmed" => Message(StatusConfirmedTitle, "Your " + st + " booking has been confirmed.")
    case "Completed" => Message(StatusCompletedTitle, "Your " + st + " has been completed. Ready to collect!")
    case "Booking Canceled" => Message(UserCancelledTitle, "Your " + st + " booking has been cancelled.")
    case _ => Message(ServiceUpdateTitle, st + " status: " + status)
  }

  /** The admin phrasing differs from the customer phrasing exactly for confirmations and cancellations. */
  lemma StatusToneDiffers(st: string, status: string)
    ensures (AdminStatusMessage(status, st).body != UserStatusMessage(status, st).body) <==> status != Completed
  {
    var a := AdminStatusMessage(status, st).body;
    var u := UserStatusMessage(status, st).body;
    if status == Confirmed {
      assert a[|a| - 2] == 'n' && u[|u| - 2] == 'd';
    } else if status == Canceled {
      assert |a| != |u|;
    } else if status != Completed {
      assert |a| != |u|;
    }
  }

  /**
   * Decides what an update of a booking produces, from the snapshots before
   * and after the update and the customer name of the owning user. An
   * admin's edit is flagged by `after.modifiedByAdmin`.
   */
  function Classify(before: ServiceRecord, after: ServiceRecord, customerName: string): (d: Decision)
    // Who is notified.
    ensures d.notifyUser <==> StatusChanged(before, after) || DetailsChanged(before, after)
    ensures d.notifyAdmins <==>
      !after.modifiedByAdmin &&
      (if StatusChanged(before, after) then after.status == Canceled else DetailsChanged(before, after))
    ensures after.modifiedByAdmin ==> !d.notifyAdmins
    // The admins learn who cancelled or changed which kind of booking.
    ensures d.notifyAdmins && StatusChanged(before, after) ==>
      d.adminTitle == CancelledByUserTitle &&
      d.adminBody == customerName + " cancelled their " + UpdatedServiceName(after.serviceType) + " booking"
    ensures d.notifyAdmins && !StatusChanged(before, after) ==>
      d.adminTitle == ModifiedByUserTitle &&
      d.adminBody == customerName + " modified their " + UpdatedServiceName(after.serviceType) + " booking"
    // The customer message.
    ensures StatusChanged(before, after) ==>
      Message(d.title, d.body) ==
        if after.modifiedByAdmin then AdminStatusMessage(after.status, UpdatedServiceName(after.serviceType))
        else UserStatusMessage(after.status, UpdatedServiceName(after.serviceType))
    ensures !StatusChanged(before, after) && DetailsChanged(before, after) ==>
      d.title == (if after.modifiedByAdmin then AdminEditTitle else UserEditTitle) &&
      d.body == "Your " + UpdatedServiceName(after.serviceType) + " booking has been updated" +
                (if after.modifiedByAdmin then " by admin." else ".")
    // The in-app row types.
    ensures d.userKind == if after.modifiedByAdmin then "adminModified" else "service"
    ensures d.adminKind == if after.status == Canceled then "bookingCanceled" else "bookingModified"
  {
    var admin := after.modifiedByAdmin;
    var st := UpdatedServiceName(after.serviceType);
    var userKind := if admin then "adminModified" else "service";
    var adminKind := if after.status == Canceled then "bookingCanceled" else "bookingModified";
    if before.status != after.status then
      if admin then
        var m := AdminStatusMessage(after.status, st);
        Decision(true, m.title, m.body, false, "", "", userKind, adminKind)
      else
        var m := UserStatusMessage(after.status, st);
        if after.status == Canceled then
          Decision(true, m.title, m.body, true, CancelledByUserTitle,
                   customerName + " cancelled their " + st + " booking", userKind, adminKind)
        else
          Decision(true, m.title, m.body, false, "", "", userKind, adminKind)
    else if DetailsChanged(before, after) then
      if admin then
        Decision(true, AdminEditTitle, "Your " + st + " booking has been updated by admin.", false, "", "", userKind, adminKind)
      else
        Decision(true, UserEditTitle, "Your " + st + " booking has been updated.", true, ModifiedByUserTitle,
                 customerName + " modified their " + st + " booking", userKind, adminKind)
    else
      Decision(false, ServiceUpdateTitle, "", false, "", "", userKind, adminKind)
  }

  /**
   * The write that clears `modifiedByAdmin` fires the update trigger again;
   * that second event produces nothing.
   */
  lemma FlagResetEchoIsSilent(rec: ServiceRecord, customerName: string)
    ensures var d := Classify(rec, rec.(modifiedByAdmin := false), customerName);
      !d.notifyUser && !d.notifyAdmins
  {
  }

  /** Likewise the write that sets `reminderSent` produces nothing. */
  lemma ReminderMarkEchoIsSilent(rec: ServiceRecord, customerName: string)
    ensures var d := Classify(rec, rec.(reminderSent := true), customerName);
      !d.notifyUser && !d.notifyAdmins
  {
  }

  /**
   * A detail edit by the customer of a booking that is already cancelled
   * files the admins' rows under "bookingCanceled": the row type follows
   * the status after the update, not the kind of change.
   */
  lemma EditOfCanceledBookingIsFiledAsCancel(before: ServiceRecord, after: ServiceRecord, customerName: string)
    requires before.status == Canceled && after.status == Canceled
    requires !after.modifiedByAdmin && before.description != after.description
    ensures var d := Classify(before, after, customerName);
      d.notifyAdmins && d.adminTitle == ModifiedByUserTitle && d.adminKind == "bookingCanceled"
  {
  }

  // ---------------------------------------------------------------------
  // The reminder scan.

  const HourMs := 3_600_000

  /** The booking time lies between 23 and 25 hours after `nowMs` (milliseconds), both ends included. */
  predicate InReminderWindow(t: Timestamp, nowMs: int)
  {
    (nowMs + 23 * HourMs) * 1_000_000 <= InNanos(t) <= (nowMs + 25 * HourMs) * 1_000_000
  }

  /** What the scan's query selects. */
  predicate IsDue(rec: ServiceRecord, nowMs: int)
  {
    InReminderWindow(rec.serviceDate, nowMs) && !rec.reminderSent
  }

  /** The statuses the scan skips. These are lower-case, unlike the booking statuses above. */
  predicate SkipsReminder(status: string)
  {
    status == "completed" || status == "cancelled"
  }

  /** A booking exactly 24 hours away is in the window. */
  lemma TwentyFourHoursIsInWindow(t: Timestamp, nowMs: int)
    requires InNanos(t) == (nowMs + 24 * HourMs) * 1_000_000
    ensures InReminderWindow(t, nowMs)
  {
  }

  /**
   * With one scan every hour, every booking time at least 23 hours after
   * the first scan falls in the window of some later scan.
   */
  lemma {:induction false} HourlyScansCoverEveryTime(t: Timestamp, firstMs: int)
    requires InNanos(t) >= (firstMs + 23 * HourMs) * 1_000_000
    ensures exists k: nat :: InReminderWindow(t, firstMs + k * HourMs)
  {
    var gap := InNanos(t) - (firstMs + 23 * HourMs) * 1_000_000;
    var k: nat := gap / (HourMs * 1_000_000);
    assert k * (HourMs * 1_000_000) <= gap < (k + 1) * (HourMs * 1_000_000);
    assert (firstMs + k * HourMs + 23 * HourMs) * 1_000_000 == (firstMs + 23 * HourMs) * 1_000_000 + k * (HourMs * 1_000_000);
    assert InReminderWindow(t, firstMs + k * HourMs);
  }

  /** The push body of a reminder. */
  function ReminderBody(st: string, timeStr: string, vehicle: string): (s: string)
    ensures "Your " + st + " appointment is tomorrow at " + timeStr <= s
    ensures vehicle == "" <==> |s| == |"Your " + st + " appointment is tomorrow at " + timeStr|
    ensures vehicle != "" ==>
      EndsWith(s, " for your " + vehicle) &&
      |s| == |"Your " + st + " appointment is tomorrow at " + timeStr| + |" for your " + vehicle|
  {
    "Your " + st + " appointment is tomorrow at " + timeStr + (if vehicle != "" then " for your " + vehicle else "")
  }

  /** The in-app text of a reminder. */
  function ReminderMessage(st: string, dateStr: string, timeStr: string, vehicle: string): (s: string)
    ensures "Your " + st + " appointment is scheduled for " + dateStr + " at " + timeStr + "." <= s
    ensures vehicle == "" <==> |s| == |"Your " + st + " appointment is scheduled for " + dateStr + " at " + timeStr + "."|
    ensures vehicle != "" ==>
      EndsWith(s, " Vehicle: " + vehicle) &&
      |s| == |"Your " + st + " appointment is scheduled for " + dateStr + " at " + timeStr + "."| + |" Vehicle: " + vehicle|
  {
    "Your " + st + " appointment is scheduled for " + dateStr + " at " + timeStr + "." + (if vehicle != "" then " Vehicle: " + vehicle else "")
  }
}
