/**
 * The documents the notification functions read and write: users, orders,
 * service records (bookings), vehicles, in-app notification rows and the
 * push messages handed to the transport.
 *
 * A JavaScript field that is only ever tested for truthiness (`userId`,
 * `customerName`, `serviceType`, `vehicleId`, ...) is a `string` here, with
 * "" standing for both "missing" and "empty": the two behave the same in
 * every test the functions make.
 */
module Records {
  import opened Wrappers

  /** A document of the `users` collection. */
  datatype User = User(name: string, fcmToken: Option<string>, isAdmin: bool)

  /** A document of the `vehicles` collection. */
  datatype Vehicle = Vehicle(make: string, model: string)

  /** A Firestore timestamp: whole seconds and the nanoseconds within that second. */
  type Nanos = n: int | 0 <= n < 1_000_000_000

  datatype Timestamp = Timestamp(seconds: int, nanos: Nanos)

  /** The instant a timestamp denotes, in nanoseconds since the epoch. */
  function InNanos(t: Timestamp): int
  {
    t.seconds * 1_000_000_000 + t.nanos
  }

  /**
   * A document of the `orders` collection. `totalAmount` is the total in
   * cents; `None` stands for a missing (or non-numeric) amount.
   */
  datatype Order = Order(userId: string, totalAmount: Option<int>, customerName: string, status: string)

  /** A document of the `service_records` collection: one booking. */
  datatype ServiceRecord = ServiceRecord(
    userId: string,
    customerName: string,
    serviceType: string,
    serviceDate: Timestamp,
    status: string,
    description: string,
    cost: int,
    modifiedByAdmin: bool,
    reminderSent: bool,
    vehicleId: string,
    vehicleMake: string,
    vehicleModel: string)

  /** The entity an in-app notification row refers to, under the key the row uses for it. */
  datatype EntityRef = OrderRef(orderId: string) | RecordRef(recordId: string) | BookingRef(bookingId: string)

  /**
   * A row of the `notifications` collection. The server timestamp
   * `createdAt` is not part of the model.
   */
  datatype Notification = Notification(
    userId: string,
    title: string,
    message: string,
    kind: string,
    entity: EntityRef,
    isRead: bool)

  /** What the push transport answered to one send. */
  datatype SendOutcome = Delivered | Failed(code: string)

  /**
   * The push transport, as seen by the model: the outcome of the n-th send
   * ever made (n counts the sends already in the push log).
   */
  type Transport = nat -> SendOutcome

  /** One message handed to the push transport, with the outcome it got. */
  datatype Push = Push(
    userId: string,
    token: string,
    title: string,
    body: string,
    data: map<string, string>,
    outcome: SendOutcome)

  /**
   * The whole store as the notification functions see it: the collections
   * they read, the rows they append and the log of pushes they made.
   */
  datatype Db = Db(
    users: map<string, User>,
    records: map<string, ServiceRecord>,
    vehicles: map<string, Vehicle>,
    notifications: seq<Notification>,
    pushes: seq<Push>)

  /** The user ids the query `isAdmin == true` returns. */
  function AdminIds(users: map<string, User>): (s: set<string>)
    ensures forall u :: u in s <==> u in users && users[u].isAdmin
  {
    set u | u in users && users[u].isAdmin
  }

  /** `ids` lists every element of `s` exactly once, in some order. */
  predicate Enumerates(ids: seq<string>, s: set<string>)
  {
    (forall i, j :: 0 <= i < j < |ids| ==> ids[i] != ids[j]) &&
    (forall x :: x in ids ==> x in s) &&
    (forall x :: x in s ==> x in ids)
  }
}
