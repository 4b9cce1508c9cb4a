/**
 * What each notification function does to the store, as a function from
 * the store before to the store after. The `Store` class in store.dfy
 * performs the same steps one write at a time and is proved to end in the
 * state these functions give.
 *
 * The order in which the store returns the admin users (and the bookings a
 * reminder scan selects) is not fixed; the functions take the order that
 * was used as a parameter.
 */
module Effects {
  import opened Wrappers
  import opened Records
  import opened Text
  import opened Messages

  // ---------------------------------------------------------------------
  // The flat data map sent with a push.

  /** `{type: kind, <key>: id}`. */
  function PushData(kind: string, key: string, id: string): (m: map<string, string>)
    ensures m.Keys == {"type", key} && m[key] == id
    ensures key != "type" ==> m["type"] == kind
  {
    map["type" := kind, key := id]
  }

  /** `{type: kind, <key>: id, status: status}`. */
  function StatusData(kind: string, key: string, id: string, status: string): (m: map<string, string>)
    ensures m.Keys == {"type", key, "status"} && m["status"] == status
    ensures key != "type" && key != "status" ==> m["type"] == kind && m[key] == id
  {
    map["type" := kind, key := id, "status" := status]
  }

  // ---------------------------------------------------------------------
  // Sending one push: `sendNotificationToUser`.

  /** The push token of a user, when the user exists and has a non-empty one. */
  function TokenOf(users: map<string, User>, userId: string): (t: Option<string>)
    ensures t.Some? <==> userId in users && users[userId].fcmToken.Some? && users[userId].fcmToken.value != ""
    ensures t.Some? ==> t == users[userId].fcmToken
  {
    if userId in users && users[userId].fcmToken.Some? && users[userId].fcmToken.value != "" then users[userId].fcmToken
    else None
  }

  const InvalidToken := "messaging/invalid-registration-token"
  const UnregisteredToken := "messaging/registration-token-not-registered"

  /** The two failures after which the token is removed from the user. */
  predicate ClearsToken(o: SendOutcome)
  {
    o.Failed? && (o.code == InvalidToken || o.code == UnregisteredToken)
  }

  /**
   * Sends one push to a user: nothing happens without a user or a token;
   * otherwise the push is logged with the transport's outcome, and the
   * token is deleted when that outcome is one of the two token errors.
   */
  function Deliver(db: Db, userId: string, title: string, body: string, data: map<string, string>, net: Transport): (r: Db)
    ensures r.records == db.records && r.vehicles == db.vehicles && r.notifications == db.notifications
    ensures TokenOf(db.users, userId).None? ==> r == db
    ensures TokenOf(db.users, userId).Some? ==>
      r.pushes == db.pushes + [Push(userId, TokenOf(db.users, userId).value, title, body, data, net(|db.pushes|))]
    ensures r.users.Keys == db.users.Keys
    ensures forall u :: u in db.users && u != userId ==> r.users[u] == db.users[u]
    ensures userId in db.users ==>
      r.users[userId].name == db.users[userId].name && r.users[userId].isAdmin == db.users[userId].isAdmin
    ensures userId in db.users && r.users[userId].fcmToken != db.users[userId].fcmToken ==>
      r.users[userId].fcmToken == None && ClearsToken(r.pushes[|r.pushes| - 1].outcome)
    ensures TokenOf(db.users, userId).Some? && ClearsToken(net(|db.pushes|)) ==> r.users[userId].fcmToken == None
    ensures !ClearsToken(net(|db.pushes|)) ==> r.users == db.users
    ensures AdminIds(r.users) == AdminIds(db.users)
  {
    match TokenOf(db.users, userId)
    case None => db
    case Some(token) =>
      var outcome := net(|db.pushes|);
      var pushes := db.pushes + [Push(userId, token, title, body, data, outcome)];
      if ClearsToken(outcome) then
        db.(pushes := pushes, users := db.users[userId := db.users[userId].(fcmToken := None)])
      else
        db.(pushes := pushes)
  }

  /** The users of `ids` that have a token, in the same order. */
  function WithToken(users: map<string, User>, ids: seq<string>): (r: seq<string>)
    ensures |r| <= |ids|
    ensures forall u :: u in r <==> u in ids && TokenOf(users, u).Some?
    decreases |ids|
  {
    if ids == [] then []
    else
      var last := ids[|ids| - 1];
      assert ids == ids[..|ids| - 1] + [last];
      WithToken(users, ids[..|ids| - 1]) + if TokenOf(users, last).Some? then [last] else []
  }

  // ---------------------------------------------------------------------
  // Sending to every admin: `sendNotificationToAdmins`, one admin after
  // the other in the order the query returned them.

  function DeliverAll(db: Db, ids: seq<string>, title: string, body: string, data: map<string, string>, net: Transport): (r: Db)
    ensures |db.pushes| <= |r.pushes| <= |db.pushes| + |ids|
    decreases |ids|
  {
    if ids == [] then db
    else Deliver(DeliverAll(db, ids[..|ids| - 1], title, body, data, net), ids[|ids| - 1], title, body, data, net)
  }

  /** Sending to a list of users changes only their tokens and the push log. */
  lemma {:induction false} DeliverAllFrame(db: Db, ids: seq<string>, title: string, body: string, data: map<string, string>, net: Transport)
    ensures var r := DeliverAll(db, ids, title, body, data, net);
      r.records == db.records && r.vehicles == db.vehicles && r.notifications == db.notifications &&
      r.users.Keys == db.users.Keys &&
      (forall u :: u in db.users ==> r.users[u].name == db.users[u].name && r.users[u].isAdmin == db.users[u].isAdmin) &&
      (forall u :: u in db.users && u !in ids ==> r.users[u] == db.users[u]) &&
      AdminIds(r.users) == AdminIds(db.users) &&
      |db.pushes| <= |r.pushes| && r.pushes[..|db.pushes|] == db.pushes
    decreases |ids|
  {
    if ids != [] {
      var init := ids[..|ids| - 1];
      DeliverAllFrame(db, init, title, body, data, net);
      var mid := DeliverAll(db, init, title, body, data, net);
      var r := DeliverAll(db, ids, title, body, data, net);
      assert r == Deliver(mid, ids[|ids| - 1], title, body, data, net);
      assert forall u :: u in db.users && u !in ids ==> u !in init && u != ids[|ids| - 1];
      assert r.pushes[..|db.pushes|] == mid.pushes[..|db.pushes|];
    }
  }

  /** A user not in the list keeps their token. */
  lemma DeliverAllKeepsToken(db: Db, ids: seq<string>, title: string, body: string, data: map<string, string>, net: Transport, u: string)
    requires u !in ids
    ensures TokenOf(DeliverAll(db, ids, title, body, data, net).users, u) == TokenOf(db.users, u)
  {
    DeliverAllFrame(db, ids, title, body, data, net);
    var r := DeliverAll(db, ids, title, body, data, net);
    assert u in db.users ==> r.users[u] == db.users[u];
  }

  /** The pushes a send to `ids` appended to the log of `db`. */
  function SentBy(db: Db, ids: seq<string>, title: string, body: string, data: map<string, string>, net: Transport): seq<Push>
  {
    DeliverAll(db, ids, title, body, data, net).pushes[|db.pushes|..]
  }

  /** The last user of a distinct list gets a push exactly when they had a token to begin with. */
  lemma DeliverAllStep(db: Db, ids: seq<string>, title: string, body: string, data: map<string, string>, net: Transport)
    requires ids != [] && ids[|ids| - 1] !in ids[..|ids| - 1]
    ensures var last := ids[|ids| - 1];
      var before := SentBy(db, ids[..|ids| - 1], title, body, data, net);
      SentBy(db, ids, title, body, data, net) ==
        before + if TokenOf(db.users, last).Some? then
          [Push(last, TokenOf(db.users, last).value, title, body, data, net(|db.pushes| + |before|))]
        else []
  {
    var init := ids[..|ids| - 1];
    var last := ids[|ids| - 1];
    var mid := DeliverAll(db, init, title, body, data, net);
    assert DeliverAll(db, ids, title, body, data, net) == Deliver(mid, last, title, body, data, net);
    DeliverAllKeepsToken(db, init, title, body, data, net, last);
    DeliverTail(db, mid, last, title, body, data, net);
  }

  /**
   * What a send to `userId` adds to the pushes sent since `db`: one push,
   * with the token the user had in `db`, or nothing.
   */
  lemma DeliverTail(db: Db, mid: Db, userId: string, title: string, body: string, data: map<string, string>, net: Transport)
    requires |db.pushes| <= |mid.pushes| && TokenOf(mid.users, userId) == TokenOf(db.users, userId)
    ensures var before := mid.pushes[|db.pushes|..];
      Deliver(mid, userId, title, body, data, net).pushes[|db.pushes|..] ==
        before + if TokenOf(db.users, userId).Some? then
          [Push(userId, TokenOf(db.users, userId).value, title, body, data, net(|db.pushes| + |before|))]
        else []
  {
    DeliverLog(mid, userId, title, body, data, net);
    SliceAppend(mid.pushes, |db.pushes|, Deliver(mid, userId, title, body, data, net).pushes);
  }

  /** The log after one send: the old log, then the push if the user had a token. */
  lemma DeliverLog(db: Db, userId: string, title: string, body: string, data: map<string, string>, net: Transport)
    ensures Deliver(db, userId, title, body, data, net).pushes ==
      db.pushes + if TokenOf(db.users, userId).Some? then
        [Push(userId, TokenOf(db.users, userId).value, title, body, data, net(|db.pushes|))]
      else []
  {
  }

  /** A log that extends another extends each of its suffixes by the same pushes. */
  lemma SliceAppend(ps: seq<Push>, n: nat, qs: seq<Push>)
    requires n <= |ps| <= |qs| && qs[..|ps|] == ps
    ensures qs[n..] == ps[n..] + qs[|ps|..]
  {
    assert qs == ps + qs[|ps|..];
  }

  /** Every push sent to distinct users carries the given text and the token the user had. */
  lemma {:induction false} DeliverAllSentShape(db: Db, ids: seq<string>, title: string, body: string, data: map<string, string>, net: Transport)
    requires forall i, j :: 0 <= i < j < |ids| ==> ids[i] != ids[j]
    ensures var sent := SentBy(db, ids, title, body, data, net);
      forall k :: 0 <= k < |sent| ==>
        sent[k].userId in ids && sent[k].title == title && sent[k].body == body && sent[k].data == data &&
        Some(sent[k].token) == TokenOf(db.users, sent[k].userId)
    decreases |ids|
  {
    if ids != [] {
      DeliverAllSentShape(db, ids[..|ids| - 1], title, body, data, net);
      DeliverAllStep(db, ids, title, body, data, net);
    }
  }

  /** Distinct users get at most one push each. */
  lemma {:induction false} DeliverAllOncePerUser(db: Db, ids: seq<string>, title: string, body: string, data: map<string, string>, net: Transport)
    requires forall i, j :: 0 <= i < j < |ids| ==> ids[i] != ids[j]
    ensures var sent := SentBy(db, ids, title, body, data, net);
      forall k1, k2 :: 0 <= k1 < k2 < |sent| ==> sent[k1].userId != sent[k2].userId
    decreases |ids|
  {
    if ids != [] {
      var init := ids[..|ids| - 1];
      DeliverAllOncePerUser(db, init, title, body, data, net);
      DeliverAllSentShape(db, init, title, body, data, net);
      DeliverAllStep(db, ids, title, body, data, net);
    }
  }

  /** Exactly the users with a token are sent a push, in the order of `ids`. */
  lemma {:induction false} DeliverAllRecipients(db: Db, ids: seq<string>, title: string, body: string, data: map<string, string>, net: Transport)
    requires forall i, j :: 0 <= i < j < |ids| ==> ids[i] != ids[j]
    ensures var sent := SentBy(db, ids, title, body, data, net);
      var targets := WithToken(db.users, ids);
      |sent| == |targets| && forall k :: 0 <= k < |sent| ==> sent[k].userId == targets[k]
    decreases |ids|
  {
    if ids != [] {
      DeliverAllRecipients(db, ids[..|ids| - 1], title, body, data, net);
      DeliverAllStep(db, ids, title, body, data, net);
    }
  }

  // ---------------------------------------------------------------------
  // In-app rows.

  function Append(db: Db, rows: seq<Notification>): Db
  {
    db.(notifications := db.notifications + rows)
  }

  /** One unread row per admin, in the order of `ids`. */
  function AdminRows(ids: seq<string>, title: string, message: string, kind: string, entity: EntityRef): (rows: seq<Notification>)
    ensures |rows| == |ids|
    ensures forall i :: 0 <= i < |ids| ==> rows[i] == Notification(ids[i], title, message, kind, entity, false)
    decreases |ids|
  {
    if ids == [] then []
    else AdminRows(ids[..|ids| - 1], title, message, kind, entity) + [Notification(ids[|ids| - 1], title, message, kind, entity, false)]
  }

  /** An optional push to one customer followed by a push to each admin. */
  function CustomerThenAdmins(db: Db, customer: string, t1: string, b1: string, data1: map<string, string>,
                              admins: seq<string>, t2: string, b2: string, data2: map<string, string>, net: Transport): Db
  {
    var d1 := if customer != "" then Deliver(db, customer, t1, b1, data1, net) else db;
    DeliverAll(d1, admins, t2, b2, data2, net)
  }

  // ---------------------------------------------------------------------
  // `onOrderCreated`.

  /**
   * A new order: the customer's push, then the admins' pushes, then one
   * in-app row for the customer. A missing total makes the amount
   * formatting fail before anything is sent, and nothing happens at all.
   */
  function OrderCreated(db: Db, orderId: string, order: Order, admins: seq<string>, net: Transport): (r: Db)
    ensures order.totalAmount.None? ==> r == db
  {
    match order.totalAmount
    case None => db
    case Some(cents) =>
      var d := CustomerThenAdmins(db, order.userId, OrderConfirmedTitle, OrderConfirmedBody(orderId, cents),
                                  PushData("order", "orderId", orderId),
                                  admins, NewOrderTitle, NewOrderBody(orderId, cents, order.customerName),
                                  PushData("admin_order", "orderId", orderId), net);
      if order.userId != "" then
        Append(d, [Notification(order.userId, OrderConfirmedTitle, "Your order #" + ShortId(orderId) + " has been confirmed.",
                                "order", OrderRef(orderId), false)])
      else d
  }

  /**
   * Order creation adds at most one in-app row: the customer's, of type
   * "order" and unread; the admins get pushes only.
   */
  lemma OrderCreatedRows(db: Db, orderId: string, order: Order, admins: seq<string>, net: Transport)
    ensures var r := OrderCreated(db, orderId, order, admins, net);
      r.records == db.records && r.users.Keys == db.users.Keys &&
      r.notifications == db.notifications +
        if order.userId != "" && order.totalAmount.Some? then
          [Notification(order.userId, OrderConfirmedTitle, "Your order #" + ShortId(orderId) + " has been confirmed.",
                        "order", OrderRef(orderId), false)]
        else []
  {
    if order.totalAmount.Some? {
      var cents := order.totalAmount.value;
      var d1 := if order.userId != "" then
          Deliver(db, order.userId, OrderConfirmedTitle, OrderConfirmedBody(orderId, cents),
                  PushData("order", "orderId", orderId), net)
        else db;
      DeliverAllFrame(d1, admins, NewOrderTitle, NewOrderBody(orderId, cents, order.customerName),
                      PushData("admin_order", "orderId", orderId), net);
    }
  }

  /**
   * A send to a customer who is not an admin, then to the admins: first the
   * customer's push, when they have a token, then one push to each admin
   * that has one, in the order the admins were listed.
   */
  lemma CustomerThenAdminsPushes(db: Db, customer: string, t1: string, b1: string, data1: map<string, string>,
                                 admins: seq<string>, t2: string, b2: string, data2: map<string, string>, net: Transport)
    requires forall i, j :: 0 <= i < j < |admins| ==> admins[i] != admins[j]
    requires customer !in admins
    ensures var r := CustomerThenAdmins(db, customer, t1, b1, data1, admins, t2, b2, data2, net);
      var own := if customer != "" && TokenOf(db.users, customer).Some? then 1 else 0;
      var targets := WithToken(db.users, admins);
      |r.pushes| == |db.pushes| + own + |targets| && r.pushes[..|db.pushes|] == db.pushes &&
      (own == 1 ==> r.pushes[|db.pushes|].userId == customer && r.pushes[|db.pushes|].body == b1) &&
      (forall k :: 0 <= k < |targets| ==>
         r.pushes[|db.pushes| + own + k].userId == targets[k] && r.pushes[|db.pushes| + own + k].body == b2)
  {
    var d1 := if customer != "" then Deliver(db, customer, t1, b1, data1, net) else db;
    var own := if customer != "" && TokenOf(db.users, customer).Some? then 1 else 0;
    CustomerStep(db, customer, t1, b1, data1, admins, net);
    WithTokenAgrees(d1.users, db.users, admins);
    AdminStep(d1, admins, t2, b2, data2, net);
    var d2 := DeliverAll(d1, admins, t2, b2, data2, net);
    var targets := WithToken(db.users, admins);
    assert d2.pushes == db.pushes + d1.pushes[|db.pushes|..] + SentBy(d1, admins, t2, b2, data2, net);
  }

  /** The optional send to a customer who is not an admin leaves every admin's token alone. */
  lemma CustomerStep(db: Db, customer: string, t1: string, b1: string, data1: map<string, string>,
                     admins: seq<string>, net: Transport)
    requires customer !in admins
    ensures var d1 := if customer != "" then Deliver(db, customer, t1, b1, data1, net) else db;
      var own := if customer != "" && TokenOf(db.users, customer).Some? then 1 else 0;
      |d1.pushes| == |db.pushes| + own && d1.pushes[..|db.pushes|] == db.pushes &&
      (own == 1 ==> d1.pushes[|db.pushes|].userId == customer && d1.pushes[|db.pushes|].body == b1) &&
      (forall u :: u in admins ==> TokenOf(d1.users, u) == TokenOf(db.users, u))
  {
    var d1 := if customer != "" then Deliver(db, customer, t1, b1, data1, net) else db;
    forall u | u in admins ensures TokenOf(d1.users, u) == TokenOf(db.users, u) {
      assert u != customer;
      assert u in db.users ==> d1.users[u] == db.users[u];
    }
  }

  /** A send to distinct admins appends one push per admin with a token, in order. */
  lemma AdminStep(d1: Db, admins: seq<string>, t2: string, b2: string, data2: map<string, string>, net: Transport)
    requires forall i, j :: 0 <= i < j < |admins| ==> admins[i] != admins[j]
    ensures var d2 := DeliverAll(d1, admins, t2, b2, data2, net);
      var sent := SentBy(d1, admins, t2, b2, data2, net);
      var targets := WithToken(d1.users, admins);
      d2.pushes == d1.pushes + sent && |sent| == |targets| &&
      forall k :: 0 <= k < |sent| ==> sent[k].userId == targets[k] && sent[k].body == b2
  {
    DeliverAllSentShape(d1, admins, t2, b2, data2, net);
    DeliverAllRecipients(d1, admins, t2, b2, data2, net);
    DeliverAllFrame(d1, admins, t2, b2, data2, net);
    var d2 := DeliverAll(d1, admins, t2, b2, data2, net);
    PrefixThenRest(d2.pushes, d1.pushes);
  }

  lemma PrefixThenRest(a: seq<Push>, b: seq<Push>)
    requires |b| <= |a| && a[..|b|] == b
    ensures a == b + a[|b|..]
  {
  }

  /** Order creation sends what a push to the customer followed by a push to every admin sends. */
  lemma OrderCreatedSends(db: Db, orderId: string, order: Order, admins: seq<string>, net: Transport)
    requires order.totalAmount.Some?
    ensures var cents := order.totalAmount.value;
      var c := CustomerThenAdmins(db, order.userId, OrderConfirmedTitle, OrderConfirmedBody(orderId, cents),
                                  PushData("order", "orderId", orderId),
                                  admins, NewOrderTitle, NewOrderBody(orderId, cents, order.customerName),
                                  PushData("admin_order", "orderId", orderId), net);
      OrderCreated(db, orderId, order, admins, net).pushes == c.pushes
  {
  }

  /**
   * The pushes of order creation: first the confirmation to the customer,
   * when there is one with a token, then the new-order push, naming the
   * customer or "Guest", to admins only and to each at most once.
   */
  lemma OrderCreatedPushes(db: Db, orderId: string, order: Order, admins: seq<string>, net: Transport)
    requires order.totalAmount.Some?
    requires forall i, j :: 0 <= i < j < |admins| ==> admins[i] != admins[j]
    ensures var r := OrderCreated(db, orderId, order, admins, net);
      var n := |db.pushes|;
      var cents := order.totalAmount.value;
      var own := if order.userId != "" && TokenOf(db.users, order.userId).Some? then 1 else 0;
      n + own <= |r.pushes| && r.pushes[..n] == db.pushes &&
      (own == 1 ==>
         r.pushes[n] == Push(order.userId, TokenOf(db.users, order.userId).value, OrderConfirmedTitle,
                             OrderConfirmedBody(orderId, cents), PushData("order", "orderId", orderId), net(n))) &&
      (forall k :: n + own <= k < |r.pushes| ==>
         r.pushes[k].userId in admins && r.pushes[k].title == NewOrderTitle &&
         r.pushes[k].body == NewOrderBody(orderId, cents, order.customerName) &&
         r.pushes[k].data == PushData("admin_order", "orderId", orderId)) &&
      (forall k1, k2 :: n + own <= k1 < k2 < |r.pushes| ==> r.pushes[k1].userId != r.pushes[k2].userId)
  {
    var cents := order.totalAmount.value;
    var b1, data1 := OrderConfirmedBody(orderId, cents), PushData("order", "orderId", orderId);
    var b2, data2 := NewOrderBody(orderId, cents, order.customerName), PushData("admin_order", "orderId", orderId);
    OrderCreatedSends(db, orderId, order, admins, net);
    CustomerThenAdminsShape(db, order.userId, OrderConfirmedTitle, b1, data1, admins, NewOrderTitle, b2, data2, net);
  }

  /**
   * A send to a customer, then to distinct admins: the customer's push
   * first, when they have a token, then pushes with the admins' text, to
   * admins only, at most one each.
   */
  lemma CustomerThenAdminsShape(db: Db, customer: string, t1: string, b1: string, data1: map<string, string>,
                                admins: seq<string>, t2: string, b2: string, data2: map<string, string>, net: Transport)
    requires forall i, j :: 0 <= i < j < |admins| ==> admins[i] != admins[j]
    ensures var r := CustomerThenAdmins(db, customer, t1, b1, data1, admins, t2, b2, data2, net);
      var n := |db.pushes|;
      var own := if customer != "" && TokenOf(db.users, customer).Some? then 1 else 0;
      n + own <= |r.pushes| && r.pushes[..n] == db.pushes &&
      (own == 1 ==> r.pushes[n] == Push(customer, TokenOf(db.users, customer).value, t1, b1, data1, net(n))) &&
      (forall k :: n + own <= k < |r.pushes| ==>
         r.pushes[k].userId in admins && r.pushes[k].title == t2 && r.pushes[k].body == b2 && r.pushes[k].data == data2) &&
      (forall k1, k2 :: n + own <= k1 < k2 < |r.pushes| ==> r.pushes[k1].userId != r.pushes[k2].userId)
  {
    var d1 := if customer != "" then Deliver(db, customer, t1, b1, data1, net) else db;
    var d2 := DeliverAll(d1, admins, t2, b2, data2, net);
    BroadcastShape(d1, admins, t2, b2, data2, net);
    var n := |db.pushes|;
    var own := if customer != "" && TokenOf(db.users, customer).Some? then 1 else 0;
    assert |d1.pushes| == n + own && d1.pushes[..n] == db.pushes;
    assert d2.pushes[..n] == d1.pushes[..|d1.pushes|][..n];
    if own == 1 {
      assert d2.pushes[n] == d1.pushes[n];
    }
  }

  /** A broadcast to distinct admins keeps the log and appends pushes with its text, to admins only, at most one each. */
  lemma BroadcastShape(d1: Db, admins: seq<string>, t2: string, b2: string, data2: map<string, string>, net: Transport)
    requires forall i, j :: 0 <= i < j < |admins| ==> admins[i] != admins[j]
    ensures var d2 := DeliverAll(d1, admins, t2, b2, data2, net);
      var m := |d1.pushes|;
      m <= |d2.pushes| && d2.pushes[..m] == d1.pushes &&
      (forall k :: m <= k < |d2.pushes| ==>
         d2.pushes[k].userId in admins && d2.pushes[k].title == t2 && d2.pushes[k].body == b2 && d2.pushes[k].data == data2) &&
      (forall k1, k2 :: m <= k1 < k2 < |d2.pushes| ==> d2.pushes[k1].userId != d2.pushes[k2].userId)
  {
    var d2 := DeliverAll(d1, admins, t2, b2, data2, net);
    var m := |d1.pushes|;
    assert m <= |d2.pushes| && d2.pushes[..m] == d1.pushes by {
      DeliverAllFrame(d1, admins, t2, b2, data2, net);
    }
    var sent := SentBy(d1, admins, t2, b2, data2, net);
    assert sent == d2.pushes[m..];
    assert forall k :: 0 <= k < |sent| ==>
        sent[k].userId in admins && sent[k].title == t2 && sent[k].body == b2 && sent[k].data == data2 by {
      DeliverAllSentShape(d1, admins, t2, b2, data2, net);
    }
    assert forall k1, k2 :: 0 <= k1 < k2 < |sent| ==> sent[k1].userId != sent[k2].userId by {
      DeliverAllOncePerUser(d1, admins, t2, b2, data2, net);
    }
    TailShape(d2.pushes, m, admins, t2, b2, data2);
  }

  /** What holds of every push of the tail `ps[m..]` holds of `ps[k]` for `k` from `m` on. */
  lemma TailShape(ps: seq<Push>, m: nat, admins: seq<string>, t2: string, b2: string, data2: map<string, string>)
    requires m <= |ps|
    requires var sent := ps[m..];
      forall k :: 0 <= k < |sent| ==>
        sent[k].userId in admins && sent[k].title == t2 && sent[k].body == b2 && sent[k].data == data2
    requires var sent := ps[m..];
      forall k1, k2 :: 0 <= k1 < k2 < |sent| ==> sent[k1].userId != sent[k2].userId
    ensures forall k :: m <= k < |ps| ==>
      ps[k].userId in admins && ps[k].title == t2 && ps[k].body == b2 && ps[k].data == data2
    ensures forall k1, k2 :: m <= k1 < k2 < |ps| ==> ps[k1].userId != ps[k2].userId
  {
    var sent := ps[m..];
    forall k | m <= k < |ps|
      ensures ps[k].userId in admins && ps[k].title == t2 && ps[k].body == b2 && ps[k].data == data2
    {
      assert ps[k] == sent[k - m];
    }
    forall k1, k2 | m <= k1 < k2 < |ps|
      ensures ps[k1].userId != ps[k2].userId
    {
      assert ps[k1] == sent[k1 - m] && ps[k2] == sent[k2 - m];
    }
  }

  /** The recipients of a run of pushes, in order. */
  function Recipients(ps: seq<Push>): (ids: seq<string>)
    ensures |ids| == |ps|
  {
    seq(|ps|, k requires 0 <= k < |ps| => ps[k].userId)
  }

  /**
   * When the customer is not an admin, the admins that get the new-order
   * push are exactly those with a token, in the order the query listed them.
   */
  lemma OrderCreatedAdminTargets(db: Db, orderId: string, order: Order, admins: seq<string>, net: Transport)
    requires order.totalAmount.Some?
    requires forall i, j :: 0 <= i < j < |admins| ==> admins[i] != admins[j]
    ensures var r := OrderCreated(db, orderId, order, admins, net);
      var own := if order.userId != "" && TokenOf(db.users, order.userId).Some? then 1 else 0;
      order.userId !in admins ==>
        |db.pushes| + own <= |r.pushes| && Recipients(r.pushes[|db.pushes| + own..]) == WithToken(db.users, admins)
  {
    var cents := order.totalAmount.value;
    OrderCreatedSends(db, orderId, order, admins, net);
    if order.userId !in admins {
      CustomerThenAdminsRecipients(db, order.userId, OrderConfirmedTitle, OrderConfirmedBody(orderId, cents),
                                   PushData("order", "orderId", orderId),
                                   admins, NewOrderTitle, NewOrderBody(orderId, cents, order.customerName),
                                   PushData("admin_order", "orderId", orderId), net);
    }
  }

  /** CustomerThenAdminsPushes, as the list of the admins who got a push. */
  lemma CustomerThenAdminsRecipients(db: Db, customer: string, t1: string, b1: string, data1: map<string, string>,
                                     admins: seq<string>, t2: string, b2: string, data2: map<string, string>, net: Transport)
    requires forall i, j :: 0 <= i < j < |admins| ==> admins[i] != admins[j]
    requires customer !in admins
    ensures var r := CustomerThenAdmins(db, customer, t1, b1, data1, admins, t2, b2, data2, net);
      var own := if customer != "" && TokenOf(db.users, customer).Some? then 1 else 0;
      |db.pushes| + own <= |r.pushes| && Recipients(r.pushes[|db.pushes| + own..]) == WithToken(db.users, admins)
  {
    CustomerThenAdminsPushes(db, customer, t1, b1, data1, admins, t2, b2, data2, net);
    var r := CustomerThenAdmins(db, customer, t1, b1, data1, admins, t2, b2, data2, net);
    var own := if customer != "" && TokenOf(db.users, customer).Some? then 1 else 0;
    var rest := r.pushes[|db.pushes| + own..];
    assert forall k :: 0 <= k < |rest| ==> rest[k] == r.pushes[|db.pushes| + own + k];
  }

  /** Users with the same tokens on `ids` give the same targets. */
  lemma {:induction false} WithTokenAgrees(u1: map<string, User>, u2: map<string, User>, ids: seq<string>)
    requires forall u :: u in ids ==> TokenOf(u1, u) == TokenOf(u2, u)
    ensures WithToken(u1, ids) == WithToken(u2, ids)
    decreases |ids|
  {
    if ids != [] {
      WithTokenAgrees(u1, u2, ids[..|ids| - 1]);
    }
  }

  // ---------------------------------------------------------------------
  // `onOrderUpdated`.

  /**
   * An order update: nothing when the status is unchanged; otherwise, when
   * the order has an owner, one push and one unread in-app row of type
   * "order" with the message of the status table.
   */
  function OrderUpdated(db: Db, orderId: string, before: Order, after: Order, net: Transport): (r: Db)
    ensures before.status == after.status ==> r == db
    ensures r.records == db.records && r.users.Keys == db.users.Keys
    ensures r.notifications == db.notifications +
      if before.status != after.status && after.userId != "" then
        [Notification(after.userId, OrderStatusMessage(orderId, after.status).title,
                      OrderStatusMessage(orderId, after.status).body, "order", OrderRef(orderId), false)]
      else []
    // One push to the owner, when the status changed and the owner has a token.
    ensures var sent := before.status != after.status && after.userId != "" && TokenOf(db.users, after.userId).Some?;
      var m := OrderStatusMessage(orderId, after.status);
      r.pushes == db.pushes +
        if sent then
          [Push(after.userId, TokenOf(db.users, after.userId).value, m.title, m.body,
                StatusData("order_update", "orderId", orderId, after.status), net(|db.pushes|))]
        else []
    // The owner's token is deleted exactly after one of the two token errors.
    ensures var sent := before.status != after.status && after.userId != "" && TokenOf(db.users, after.userId).Some?;
      r.users ==
        if sent && ClearsToken(net(|db.pushes|)) then db.users[after.userId := db.users[after.userId].(fcmToken := None)]
        else db.users
  {
    if before.status == after.status then db
    else
      var m := OrderStatusMessage(orderId, after.status);
      if after.userId != "" then
        var d := Deliver(db, after.userId, m.title, m.body,
                         StatusData("order_update", "orderId", orderId, after.status), net);
        Append(d, [Notification(after.userId, m.title, m.body, "order", OrderRef(orderId), false)])
      else db
  }

  // ---------------------------------------------------------------------
  // `onServiceRecordCreated`.

  /** Adding rows first and pushing afterwards ends in the same store as the other way round. */
  lemma {:induction false} DeliverAllIgnoresRows(db: Db, rows: seq<Notification>, ids: seq<string>, title: string, body: string,
                                                 data: map<string, string>, net: Transport)
    ensures DeliverAll(Append(db, rows), ids, title, body, data, net) == Append(DeliverAll(db, ids, title, body, data, net), rows)
    decreases |ids|
  {
    if ids != [] {
      DeliverAllIgnoresRows(db, rows, ids[..|ids| - 1], title, body, data, net);
    }
  }

  /**
   * A new booking: the owner (when there is one) gets a push and an unread
   * in-app row; the admins are always sent a push, which names the
   * booking's customer name or "Customer". `stamp` renders the booking
   * date as the message templates do.
   */
  function RecordCreated(db: Db, recordId: string, rec: ServiceRecord, admins: seq<string>, net: Transport,
                         stamp: Timestamp -> string): (r: Db)
  {
    var st := CreatedServiceName(rec.serviceType);
    var d1 := if rec.userId != "" then
        Append(Deliver(db, rec.userId, BookingConfirmedTitle,
                       "Your " + st + " booking for " + stamp(rec.serviceDate) + " has been confirmed.",
                       PushData("service", "recordId", recordId), net),
               [Notification(rec.userId, BookingConfirmedTitle, "Your " + st + " booking has been confirmed.",
                             "service", RecordRef(recordId), false)])
      else db;
    DeliverAll(d1, admins, NewBookingTitle, NewBookingBody(st, rec.customerName, stamp(rec.serviceDate)),
               PushData("admin_service", "recordId", recordId), net)
  }

  /**
   * The admin push for a new booking: the service, the customer's name, or
   * "Customer" when there is none, and the rendered date.
   */
  function NewBookingBody(st: string, customerName: string, date: string): (s: string)
    ensures st + " booking from " <= s && EndsWith(s, " on " + date)
    ensures |st + " booking from "| + |" on " + date| <= |s|
    ensures var who := s[|st + " booking from "|..|s| - |" on " + date|];
      if customerName != "" then who == customerName else who == "Customer"
  {
    var head := st + " booking from ";
    var tail := " on " + date;
    var who := if customerName != "" then customerName else "Customer";
    var s := head + who + tail;
    assert s[|s| - |tail|..] == tail;
    assert s[|head|..|s| - |tail|] == who;
    s
  }

  /**
   * A new booking writes one unread "service" row for its owner, and none
   * for a guest booking; its pushes are a push to the owner followed by one
   * to every admin, which happens for guest bookings too.
   */
  lemma RecordCreatedEffects(db: Db, recordId: string, rec: ServiceRecord, admins: seq<string>, net: Transport,
                             stamp: Timestamp -> string)
    ensures var r := RecordCreated(db, recordId, rec, admins, net, stamp);
      var st := CreatedServiceName(rec.serviceType);
      var c := CustomerThenAdmins(db, rec.userId, BookingConfirmedTitle,
                                  "Your " + st + " booking for " + stamp(rec.serviceDate) + " has been confirmed.",
                                  PushData("service", "recordId", recordId),
                                  admins, NewBookingTitle, NewBookingBody(st, rec.customerName, stamp(rec.serviceDate)),
                                  PushData("admin_service", "recordId", recordId), net);
      r.pushes == c.pushes && r.users == c.users && r.records == db.records &&
      r.notifications == db.notifications +
        if rec.userId != "" then
          [Notification(rec.userId, BookingConfirmedTitle, "Your " + st + " booking has been confirmed.",
                        "service", RecordRef(recordId), false)]
        else []
  {
    var st := CreatedServiceName(rec.serviceType);
    var b1 := "Your " + st + " booking for " + stamp(rec.serviceDate) + " has been confirmed.";
    var b2 := NewBookingBody(st, rec.customerName, stamp(rec.serviceDate));
    var data1, data2 := PushData("service", "recordId", recordId), PushData("admin_service", "recordId", recordId);
    var row := [Notification(rec.userId, BookingConfirmedTitle, "Your " + st + " booking has been confirmed.",
                             "service", RecordRef(recordId), false)];
    if rec.userId != "" {
      var d := Deliver(db, rec.userId, BookingConfirmedTitle, b1, data1, net);
      DeliverAllIgnoresRows(d, row, admins, NewBookingTitle, b2, data2, net);
      DeliverAllFrame(d, admins, NewBookingTitle, b2, data2, net);
    } else {
      DeliverAllFrame(db, admins, NewBookingTitle, b2, data2, net);
    }
  }

  // ---------------------------------------------------------------------
  // `onServiceRecordUpdated`.

  /** The write `modifiedByAdmin: false`; an update of a missing document fails and changes nothing. */
  function ClearFlag(records: map<string, ServiceRecord>, recordId: string): (r: map<string, ServiceRecord>)
    ensures r.Keys == records.Keys
    ensures forall id :: id in records && id != recordId ==> r[id] == records[id]
    ensures recordId in records ==> r[recordId] == records[recordId].(modifiedByAdmin := false)
  {
    if recordId in records then records[recordId := records[recordId].(modifiedByAdmin := false)] else records
  }

  /** The flag reset applied to the store. */
  function ClearAdminFlag(db: Db, recordId: string): Db
  {
    db.(records := ClearFlag(db.records, recordId))
  }

  /**
   * Carrying out a decision about an update by the owner `userId` of
   * booking `recordId`: push to and write a row for the owner when the
   * decision says so, push to the admins and write one row per admin when
   * it says so, and finally clear the admin flag when `byAdmin`.
   * `pushAdmins` and `rowAdmins` are the orders in which the two admin
   * queries returned the admins.
   */
  function ApplyDecision(db: Db, recordId: string, userId: string, status: string, byAdmin: bool, d: Decision,
                         pushAdmins: seq<string>, rowAdmins: seq<string>, net: Transport): (r: Db)
  {
    var entity := BookingRef(recordId);
    var d1 := if d.notifyUser && userId != "" then
        Append(Deliver(db, userId, d.title, d.body, StatusData("service_update", "recordId", recordId, status), net),
               [Notification(userId, d.title, d.body, d.userKind, entity, false)])
      else db;
    var d2 := if d.notifyAdmins then
        Append(DeliverAll(d1, pushAdmins, d.adminTitle, d.adminBody, PushData("admin_booking_update", "recordId", recordId), net),
               AdminRows(rowAdmins, d.adminTitle, d.adminBody, d.adminKind, entity))
      else d1;
    if byAdmin then ClearAdminFlag(d2, recordId) else d2
  }

  /** The rows a decision writes: the owner's, then one per admin. */
  function DecisionRows(recordId: string, userId: string, d: Decision, rowAdmins: seq<string>): (rows: seq<Notification>)
    ensures var own := if d.notifyUser && userId != "" then 1 else 0;
      |rows| == own + (if d.notifyAdmins then |rowAdmins| else 0) &&
      (own == 1 ==> rows[0] == Notification(userId, d.title, d.body, d.userKind, BookingRef(recordId), false)) &&
      (d.notifyAdmins ==> forall i :: 0 <= i < |rowAdmins| ==>
         rows[own + i] == Notification(rowAdmins[i], d.adminTitle, d.adminBody, d.adminKind, BookingRef(recordId), false))
  {
    (if d.notifyUser && userId != "" then [Notification(userId, d.title, d.body, d.userKind, BookingRef(recordId), false)] else []) +
    (if d.notifyAdmins then AdminRows(rowAdmins, d.adminTitle, d.adminBody, d.adminKind, BookingRef(recordId)) else [])
  }

  /**
   * What carrying out a decision does to the store: its pushes are those of
   * a push to the owner (when notified) followed by one to every admin (when
   * notified); it appends the decision's rows; and the only change to a
   * booking is clearing the flag of this one, done exactly when `byAdmin`.
   */
  lemma ApplyDecisionEffects(db: Db, recordId: string, userId: string, status: string, byAdmin: bool, d: Decision,
                             pushAdmins: seq<string>, rowAdmins: seq<string>, net: Transport)
    ensures var r := ApplyDecision(db, recordId, userId, status, byAdmin, d, pushAdmins, rowAdmins, net);
      var c := CustomerThenAdmins(db, if d.notifyUser then userId else "", d.title, d.body,
                                  StatusData("service_update", "recordId", recordId, status),
                                  if d.notifyAdmins then pushAdmins else [], d.adminTitle, d.adminBody,
                                  PushData("admin_booking_update", "recordId", recordId), net);
      r.pushes == c.pushes && r.users == c.users &&
      r.notifications == db.notifications + DecisionRows(recordId, userId, d, rowAdmins) &&
      r.records == if byAdmin then ClearFlag(db.records, recordId) else db.records
  {
    var entity := BookingRef(recordId);
    var data1 := StatusData("service_update", "recordId", recordId, status);
    var data2 := PushData("admin_booking_update", "recordId", recordId);
    var own := d.notifyUser && userId != "";
    var row := if own then [Notification(userId, d.title, d.body, d.userKind, entity, false)] else [];
    var rows2 := if d.notifyAdmins then AdminRows(rowAdmins, d.adminTitle, d.adminBody, d.adminKind, entity) else [];
    var admins := if d.notifyAdmins then pushAdmins else [];
    var d0 := if own then Deliver(db, userId, d.title, d.body, data1, net) else db;
    var e := DeliverAll(d0, admins, d.adminTitle, d.adminBody, data2, net);
    assert e == CustomerThenAdmins(db, if d.notifyUser then userId else "", d.title, d.body, data1,
                                   admins, d.adminTitle, d.adminBody, data2, net);
    DeliverAllIgnoresRows(d0, row, admins, d.adminTitle, d.adminBody, data2, net);
    DeliverAllFrame(d0, admins, d.adminTitle, d.adminBody, data2, net);
    var d1 := if own then Append(Deliver(db, userId, d.title, d.body, data1, net), row) else db;
    assert d1 == Append(d0, row);
    var d2 := if d.notifyAdmins then Append(DeliverAll(d1, pushAdmins, d.adminTitle, d.adminBody, data2, net), rows2) else d1;
    assert d2 == Append(e, row + rows2);
    assert row + rows2 == DecisionRows(recordId, userId, d, rowAdmins);
    assert e.records == db.records;
  }

  /** An update of a booking: classify it and carry out the decision. */
  function RecordUpdated(db: Db, recordId: string, before: ServiceRecord, after: ServiceRecord,
                         pushAdmins: seq<string>, rowAdmins: seq<string>, net: Transport): (r: Db)
  {
    ApplyDecision(db, recordId, after.userId, after.status, after.modifiedByAdmin,
                  Classify(before, after, CustomerName(db.users, after.userId)), pushAdmins, rowAdmins, net)
  }

  /** An update that changes neither the status nor a tracked detail writes only the flag reset. */
  lemma QuietUpdateWritesNothing(db: Db, recordId: string, before: ServiceRecord, after: ServiceRecord,
                                 pushAdmins: seq<string>, rowAdmins: seq<string>, net: Transport)
    requires !StatusChanged(before, after) && !DetailsChanged(before, after)
    ensures RecordUpdated(db, recordId, before, after, pushAdmins, rowAdmins, net) ==
      if after.modifiedByAdmin then ClearAdminFlag(db, recordId) else db
  {
  }

  /**
   * An admin's change never reaches the admins: at most one push and one
   * row, both for the owner, and afterwards the booking's flag is clear.
   */
  lemma AdminChangeReachesOnlyOwner(db: Db, recordId: string, before: ServiceRecord, after: ServiceRecord,
                                    pushAdmins: seq<string>, rowAdmins: seq<string>, net: Transport)
    requires after.modifiedByAdmin
    ensures var r := RecordUpdated(db, recordId, before, after, pushAdmins, rowAdmins, net);
      |db.pushes| <= |r.pushes| <= |db.pushes| + 1 &&
      (forall k :: |db.pushes| <= k < |r.pushes| ==> r.pushes[k].userId == after.userId) &&
      |db.notifications| <= |r.notifications| <= |db.notifications| + 1 &&
      (forall k :: |db.notifications| <= k < |r.notifications| ==>
         r.notifications[k].userId == after.userId && r.notifications[k].kind == "adminModified") &&
      (recordId in db.records ==> recordId in r.records && !r.records[recordId].modifiedByAdmin)
  {
    var d := Classify(before, after, CustomerName(db.users, after.userId));
    ApplyDecisionEffects(db, recordId, after.userId, after.status, after.modifiedByAdmin, d, pushAdmins, rowAdmins, net);
  }

  /**
   * A status change the owner made: the owner gets one row with the
   * customer message for the new status; the admins get rows, one each in
   * the order of `rowAdmins`, exactly when the new status is the
   * cancellation, and each names the customer.
   */
  lemma OwnerStatusChangeRows(db: Db, recordId: string, before: ServiceRecord, after: ServiceRecord,
                              pushAdmins: seq<string>, rowAdmins: seq<string>, net: Transport)
    requires StatusChanged(before, after) && !after.modifiedByAdmin && after.userId != ""
    ensures var r := RecordUpdated(db, recordId, before, after, pushAdmins, rowAdmins, net);
      var st := UpdatedServiceName(after.serviceType);
      var m := UserStatusMessage(after.status, st);
      var name := CustomerName(db.users, after.userId);
      r.notifications ==
        db.notifications + [Notification(after.userId, m.title, m.body, "service", BookingRef(recordId), false)] +
        if after.status == Canceled then
          AdminRows(rowAdmins, CancelledByUserTitle, name + " cancelled their " + st + " booking", "bookingCanceled", BookingRef(recordId))
        else []
  {
    var name := CustomerName(db.users, after.userId);
    var d := Classify(before, after, name);
    ApplyDecisionEffects(db, recordId, after.userId, after.status, after.modifiedByAdmin, d, pushAdmins, rowAdmins, net);
    assert d.notifyUser && d.userKind == "service";
    assert d.notifyAdmins <==> after.status == Canceled;
  }

  // ---------------------------------------------------------------------
  // `sendBookingReminders`.

  /** The write `reminderSent: true` to a booking. */
  function MarkReminded(db: Db, recordId: string): (r: Db)
    requires recordId in db.records
    ensures r.users == db.users && r.vehicles == db.vehicles && r.notifications == db.notifications && r.pushes == db.pushes
    ensures r.records.Keys == db.records.Keys
    ensures forall id :: id in db.records && id != recordId ==> r.records[id] == db.records[id]
    ensures r.records[recordId].reminderSent && r.records[recordId].(reminderSent := false) == db.records[recordId].(reminderSent := false)
  {
    db.(records := db.records[recordId := db.records[recordId].(reminderSent := true)])
  }

  /** The push text of a reminder for `rec`. */
  function ReminderPushBody(rec: ServiceRecord, vehicles: map<string, Vehicle>, fmtTime: Timestamp -> string): string
  {
    ReminderBody(ReminderServiceName(rec.serviceType), fmtTime(rec.serviceDate), VehicleInfo(rec, vehicles))
  }

  /** The in-app text of a reminder for `rec`. */
  function ReminderRowText(rec: ServiceRecord, vehicles: map<string, Vehicle>, fmtDate: Timestamp -> string,
                           fmtTime: Timestamp -> string): string
  {
    ReminderMessage(ReminderServiceName(rec.serviceType), fmtDate(rec.serviceDate), fmtTime(rec.serviceDate), VehicleInfo(rec, vehicles))
  }

  /**
   * The reminder for one selected booking. A booking whose status is
   * "completed" or "cancelled" is left alone. Otherwise the owner, when
   * there is one, gets a push and an unread "service" row, and the booking
   * is marked as reminded whether or not it has an owner and whatever the
   * push's outcome. `fmtDate` and `fmtTime` are the locale formatting of the
   * booking time.
   */
  function Remind(db: Db, recordId: string, net: Transport, fmtDate: Timestamp -> string, fmtTime: Timestamp -> string): (r: Db)
    requires recordId in db.records
    ensures SkipsReminder(db.records[recordId].status) ==> r == db
    ensures r.records.Keys == db.records.Keys && r.vehicles == db.vehicles && r.users.Keys == db.users.Keys
    ensures forall id :: id in db.records && id != recordId ==> r.records[id] == db.records[id]
    ensures r.records[recordId] ==
      if SkipsReminder(db.records[recordId].status) then db.records[recordId]
      else db.records[recordId].(reminderSent := true)
    // A push to the owner, when the booking is not skipped and the owner has a token.
    ensures var rec := db.records[recordId];
      var sent := !SkipsReminder(rec.status) && rec.userId != "" && TokenOf(db.users, rec.userId).Some?;
      r.pushes == db.pushes +
        if sent then
          [Push(rec.userId, TokenOf(db.users, rec.userId).value, ReminderTitle, ReminderPushBody(rec, db.vehicles, fmtTime),
                PushData("reminder", "recordId", recordId), net(|db.pushes|))]
        else []
    // The owner's token is deleted exactly after one of the two token errors.
    ensures var rec := db.records[recordId];
      var sent := !SkipsReminder(rec.status) && rec.userId != "" && TokenOf(db.users, rec.userId).Some?;
      r.users ==
        if sent && ClearsToken(net(|db.pushes|)) then db.users[rec.userId := db.users[rec.userId].(fcmToken := None)]
        else db.users
    // The owner's row, whatever happened to the push.
    ensures var rec := db.records[recordId];
      r.notifications == db.notifications +
        if !SkipsReminder(rec.status) && rec.userId != "" then
          [Notification(rec.userId, ReminderTitle, ReminderRowText(rec, db.vehicles, fmtDate, fmtTime), "service", RecordRef(recordId), false)]
        else []
  {
    var rec := db.records[recordId];
    if SkipsReminder(rec.status) then db
    else
      var d := if rec.userId != "" then
          Append(Deliver(db, rec.userId, ReminderTitle, ReminderPushBody(rec, db.vehicles, fmtTime),
                         PushData("reminder", "recordId", recordId), net),
                 [Notification(rec.userId, ReminderTitle, ReminderRowText(rec, db.vehicles, fmtDate, fmtTime),
                               "service", RecordRef(recordId), false)])
        else db;
      MarkReminded(d, recordId)
  }

  /** The reminders for the selected bookings, one after the other in the order the query returned them. */
  function RemindAll(db: Db, ids: seq<string>, net: Transport, fmtDate: Timestamp -> string, fmtTime: Timestamp -> string): (r: Db)
    requires forall id :: id in ids ==> id in db.records
    ensures r.records.Keys == db.records.Keys && r.vehicles == db.vehicles
    decreases |ids|
  {
    if ids == [] then db
    else
      var mid := RemindAll(db, ids[..|ids| - 1], net, fmtDate, fmtTime);
      Remind(mid, ids[|ids| - 1], net, fmtDate, fmtTime)
  }

  /** The scan over the first `i + 1` bookings is the scan over the first `i` followed by the reminder of booking `i`. */
  lemma RemindAllPrefix(db: Db, ids: seq<string>, i: nat, net: Transport, fmtDate: Timestamp -> string, fmtTime: Timestamp -> string)
    requires i < |ids| && forall x :: x in ids ==> x in db.records
    ensures ids[i] in RemindAll(db, ids[..i], net, fmtDate, fmtTime).records
    ensures RemindAll(db, ids[..i + 1], net, fmtDate, fmtTime) ==
      Remind(RemindAll(db, ids[..i], net, fmtDate, fmtTime), ids[i], net, fmtDate, fmtTime)
  {
    assert ids[..i + 1][..i] == ids[..i];
  }

  /**
   * After a scan over distinct bookings, each of them is marked as reminded
   * unless its status made the scan skip it, in which case it is untouched;
   * no other booking changes.
   */
  lemma {:induction false} RemindAllMarks(db: Db, ids: seq<string>, net: Transport, fmtDate: Timestamp -> string, fmtTime: Timestamp -> string)
    requires forall id :: id in ids ==> id in db.records
    requires forall i, j :: 0 <= i < j < |ids| ==> ids[i] != ids[j]
    ensures var r := RemindAll(db, ids, net, fmtDate, fmtTime);
      forall id :: id in db.records ==>
        r.records[id] ==
          if id in ids && !SkipsReminder(db.records[id].status) then db.records[id].(reminderSent := true)
          else db.records[id]
    decreases |ids|
  {
    if ids != [] {
      var init := ids[..|ids| - 1];
      var last := ids[|ids| - 1];
      RemindAllMarks(db, init, net, fmtDate, fmtTime);
      assert last !in init;
      assert forall id :: id in ids <==> id in init || id == last;
    }
  }

  /** A row a scan over `ids` may add: an unread "service" row for the owner of one of the bookings. */
  predicate IsReminderRow(row: Notification, ids: seq<string>, records: map<string, ServiceRecord>)
  {
    row.kind == "service" && !row.isRead && row.userId != "" && row.title == ReminderTitle && row.entity.RecordRef? &&
    row.entity.recordId in ids && row.entity.recordId in records &&
    !SkipsReminder(records[row.entity.recordId].status) && row.userId == records[row.entity.recordId].userId
  }

  /**
   * A scan over distinct bookings adds at most one unread "service" row per
   * booking, only for a booking with an owner, and no two rows name the same
   * booking.
   */
  lemma {:induction false} RemindAllRows(db: Db, ids: seq<string>, net: Transport, fmtDate: Timestamp -> string, fmtTime: Timestamp -> string)
    requires forall id :: id in ids ==> id in db.records
    requires forall i, j :: 0 <= i < j < |ids| ==> ids[i] != ids[j]
    ensures var r := RemindAll(db, ids, net, fmtDate, fmtTime);
      var n := |db.notifications|;
      n <= |r.notifications| <= n + |ids| &&
      r.notifications[..n] == db.notifications &&
      (forall k :: n <= k < |r.notifications| ==> IsReminderRow(r.notifications[k], ids, db.records)) &&
      (forall k1, k2 :: n <= k1 < k2 < |r.notifications| ==> r.notifications[k1].entity != r.notifications[k2].entity)
    decreases |ids|
  {
    if ids != [] {
      var init := ids[..|ids| - 1];
      var last := ids[|ids| - 1];
      assert ids == init + [last];
      RemindAllRows(db, init, net, fmtDate, fmtTime);
      var mid := RemindAll(db, init, net, fmtDate, fmtTime);
      assert last !in init;
      assert mid.records[last] == db.records[last] by {
        RemindAllMarks(db, init, net, fmtDate, fmtTime);
      }
      var n := |db.notifications|;
      assert mid.notifications[..n] == db.notifications;
      RemindRowsStep(mid, last, n, init, db.records, net, fmtDate, fmtTime);
    }
  }

  /** The step of RemindAllRows: the reminder of a booking not yet covered adds at most one row, naming it. */
  lemma RemindRowsStep(mid: Db, last: string, n: int, init: seq<string>, records: map<string, ServiceRecord>,
                       net: Transport, fmtDate: Timestamp -> string, fmtTime: Timestamp -> string)
    requires last in mid.records && last in records && mid.records[last] == records[last]
    requires last !in init && 0 <= n <= |mid.notifications|
    requires forall k :: n <= k < |mid.notifications| ==> IsReminderRow(mid.notifications[k], init, records)
    requires forall k1, k2 :: n <= k1 < k2 < |mid.notifications| ==> mid.notifications[k1].entity != mid.notifications[k2].entity
    ensures var r := Remind(mid, last, net, fmtDate, fmtTime);
      var ids := init + [last];
      |mid.notifications| <= |r.notifications| <= |mid.notifications| + 1 &&
      r.notifications[..n] == mid.notifications[..n] &&
      (forall k :: n <= k < |r.notifications| ==> IsReminderRow(r.notifications[k], ids, records)) &&
      (forall k1, k2 :: n <= k1 < k2 < |r.notifications| ==> r.notifications[k1].entity != r.notifications[k2].entity)
  {
    RemindOneRow(mid, last, records, net, fmtDate, fmtTime);
    RowsExtend(mid.notifications, Remind(mid, last, net, fmtDate, fmtTime).notifications, n, init, last, records);
  }

  /** One reminder adds at most one row, for its own booking, and adds it when the booking is not skipped and has an owner. */
  lemma RemindOneRow(db: Db, recordId: string, records: map<string, ServiceRecord>,
                     net: Transport, fmtDate: Timestamp -> string, fmtTime: Timestamp -> string)
    requires recordId in db.records && recordId in records && db.records[recordId] == records[recordId]
    ensures var r := Remind(db, recordId, net, fmtDate, fmtTime);
      var m := |db.notifications|;
      m <= |r.notifications| <= m + 1 && r.notifications[..m] == db.notifications &&
      (forall k :: m <= k < |r.notifications| ==> IsReminderRow(r.notifications[k], [recordId], records)) &&
      (!SkipsReminder(records[recordId].status) && records[recordId].userId != "" ==> |r.notifications| == m + 1)
  {
    var r := Remind(db, recordId, net, fmtDate, fmtTime);
    var m := |db.notifications|;
    assert r.notifications[..m] == db.notifications;
  }

  /** Rows for `init`, then at most one row for a booking `last` outside it, are rows for `init + [last]`, one per booking. */
  lemma RowsExtend(rs: seq<Notification>, qs: seq<Notification>, n: int, init: seq<string>, last: string,
                   records: map<string, ServiceRecord>)
    requires last !in init && 0 <= n <= |rs| <= |qs| <= |rs| + 1 && qs[..|rs|] == rs
    requires forall k :: n <= k < |rs| ==> IsReminderRow(rs[k], init, records)
    requires forall k1, k2 :: n <= k1 < k2 < |rs| ==> rs[k1].entity != rs[k2].entity
    requires forall k :: |rs| <= k < |qs| ==> IsReminderRow(qs[k], [last], records)
    ensures qs[..n] == rs[..n]
    ensures forall k :: n <= k < |qs| ==> IsReminderRow(qs[k], init + [last], records)
    ensures forall k1, k2 :: n <= k1 < k2 < |qs| ==> qs[k1].entity != qs[k2].entity
  {
    var m := |rs|;
    assert qs[..n] == rs[..n] by {
      assert qs[..m][..n] == qs[..n];
    }
    forall k | n <= k < |qs|
      ensures IsReminderRow(qs[k], init + [last], records)
    {
      if k < m {
        assert qs[k] == rs[k];
        assert IsReminderRow(rs[k], init, records);
      } else {
        assert IsReminderRow(qs[k], [last], records);
      }
    }
    forall k1, k2 | n <= k1 < k2 < |qs|
      ensures qs[k1].entity != qs[k2].entity
    {
      assert qs[k1] == rs[k1];
      assert IsReminderRow(rs[k1], init, records);
      if k2 < m {
        assert qs[k2] == rs[k2];
      } else {
        assert IsReminderRow(qs[k2], [last], records);
      }
    }
  }

  /** The booking a push names in its data, or "" when it names none. */
  function RecordOf(p: Push): string
  {
    if "recordId" in p.data then p.data["recordId"] else ""
  }

  /**
   * A push a scan over `ids` may send: the reminder for one of the bookings,
   * sent to its owner, for a booking whose status the scan does not skip.
   */
  predicate IsReminderPush(p: Push, ids: seq<string>, records: map<string, ServiceRecord>,
                           vehicles: map<string, Vehicle>, fmtTime: Timestamp -> string)
  {
    "recordId" in p.data && RecordOf(p) in ids && RecordOf(p) in records &&
    var rec := records[RecordOf(p)];
    !SkipsReminder(rec.status) && rec.userId != "" && p.userId == rec.userId &&
    p.title == ReminderTitle && p.body == ReminderPushBody(rec, vehicles, fmtTime) &&
    p.data == PushData("reminder", "recordId", RecordOf(p))
  }

  /**
   * A scan over distinct bookings sends at most one push per booking, each
   * the reminder of a booking that is not skipped, to that booking's owner;
   * the pushes already logged are kept.
   */
  lemma {:induction false} RemindAllPushes(db: Db, ids: seq<string>, net: Transport, fmtDate: Timestamp -> string, fmtTime: Timestamp -> string)
    requires forall id :: id in ids ==> id in db.records
    requires forall i, j :: 0 <= i < j < |ids| ==> ids[i] != ids[j]
    ensures var r := RemindAll(db, ids, net, fmtDate, fmtTime);
      var n := |db.pushes|;
      n <= |r.pushes| <= n + |ids| &&
      r.pushes[..n] == db.pushes &&
      (forall k :: n <= k < |r.pushes| ==> IsReminderPush(r.pushes[k], ids, db.records, db.vehicles, fmtTime)) &&
      (forall k1, k2 :: n <= k1 < k2 < |r.pushes| ==> RecordOf(r.pushes[k1]) != RecordOf(r.pushes[k2]))
    decreases |ids|
  {
    if ids != [] {
      var init := ids[..|ids| - 1];
      var last := ids[|ids| - 1];
      assert ids == init + [last];
      RemindAllPushes(db, init, net, fmtDate, fmtTime);
      var mid := RemindAll(db, init, net, fmtDate, fmtTime);
      assert last !in init;
      assert mid.records[last] == db.records[last] by {
        RemindAllMarks(db, init, net, fmtDate, fmtTime);
      }
      var n := |db.pushes|;
      assert mid.pushes[..n] == db.pushes;
      RemindPushesStep(mid, last, n, init, db.records, db.vehicles, net, fmtDate, fmtTime);
    }
  }

  /** The step of RemindAllPushes: the reminder of a booking not yet covered sends at most one push, for it. */
  lemma RemindPushesStep(mid: Db, last: string, n: int, init: seq<string>, records: map<string, ServiceRecord>,
                         vehicles: map<string, Vehicle>, net: Transport, fmtDate: Timestamp -> string, fmtTime: Timestamp -> string)
    requires last in mid.records && last in records && mid.records[last] == records[last] && mid.vehicles == vehicles
    requires last !in init && 0 <= n <= |mid.pushes|
    requires forall k :: n <= k < |mid.pushes| ==> IsReminderPush(mid.pushes[k], init, records, vehicles, fmtTime)
    requires forall k1, k2 :: n <= k1 < k2 < |mid.pushes| ==> RecordOf(mid.pushes[k1]) != RecordOf(mid.pushes[k2])
    ensures var r := Remind(mid, last, net, fmtDate, fmtTime);
      var ids := init + [last];
      |mid.pushes| <= |r.pushes| <= |mid.pushes| + 1 &&
      r.pushes[..n] == mid.pushes[..n] &&
      (forall k :: n <= k < |r.pushes| ==> IsReminderPush(r.pushes[k], ids, records, vehicles, fmtTime)) &&
      (forall k1, k2 :: n <= k1 < k2 < |r.pushes| ==> RecordOf(r.pushes[k1]) != RecordOf(r.pushes[k2]))
  {
    RemindOnePush(mid, last, records, vehicles, net, fmtDate, fmtTime);
    PushesExtend(mid.pushes, Remind(mid, last, net, fmtDate, fmtTime).pushes, n, init, last, records, vehicles, fmtTime);
  }

  /**
   * One reminder sends at most one push, its own, and sends it when the
   * booking is not skipped and its owner has a token.
   */
  lemma RemindOnePush(db: Db, recordId: string, records: map<string, ServiceRecord>, vehicles: map<string, Vehicle>,
                      net: Transport, fmtDate: Timestamp -> string, fmtTime: Timestamp -> string)
    requires recordId in db.records && recordId in records && db.records[recordId] == records[recordId]
    requires db.vehicles == vehicles
    ensures var r := Remind(db, recordId, net, fmtDate, fmtTime);
      var m := |db.pushes|;
      var rec := records[recordId];
      m <= |r.pushes| <= m + 1 && r.pushes[..m] == db.pushes &&
      (forall k :: m <= k < |r.pushes| ==> IsReminderPush(r.pushes[k], [recordId], records, vehicles, fmtTime)) &&
      (!SkipsReminder(rec.status) && rec.userId != "" && TokenOf(db.users, rec.userId).Some? ==> |r.pushes| == m + 1)
  {
    var r := Remind(db, recordId, net, fmtDate, fmtTime);
    var m := |db.pushes|;
    assert r.pushes[..m] == db.pushes;
    if |r.pushes| > m {
      assert r.pushes[m].data == PushData("reminder", "recordId", recordId);
    }
  }

  /** Pushes for `init`, then at most one push for a booking `last` outside it, are pushes for `init + [last]`, one per booking. */
  lemma PushesExtend(ps: seq<Push>, qs: seq<Push>, n: int, init: seq<string>, last: string,
                     records: map<string, ServiceRecord>, vehicles: map<string, Vehicle>, fmtTime: Timestamp -> string)
    requires last !in init && 0 <= n <= |ps| <= |qs| <= |ps| + 1 && qs[..|ps|] == ps
    requires forall k :: n <= k < |ps| ==> IsReminderPush(ps[k], init, records, vehicles, fmtTime)
    requires forall k1, k2 :: n <= k1 < k2 < |ps| ==> RecordOf(ps[k1]) != RecordOf(ps[k2])
    requires forall k :: |ps| <= k < |qs| ==> IsReminderPush(qs[k], [last], records, vehicles, fmtTime)
    ensures qs[..n] == ps[..n]
    ensures forall k :: n <= k < |qs| ==> IsReminderPush(qs[k], init + [last], records, vehicles, fmtTime)
    ensures forall k1, k2 :: n <= k1 < k2 < |qs| ==> RecordOf(qs[k1]) != RecordOf(qs[k2])
  {
    var m := |ps|;
    assert qs[..n] == ps[..n] by {
      assert qs[..m][..n] == qs[..n];
    }
    forall k | n <= k < |qs|
      ensures IsReminderPush(qs[k], init + [last], records, vehicles, fmtTime)
    {
      if k < m {
        assert qs[k] == ps[k];
        assert IsReminderPush(ps[k], init, records, vehicles, fmtTime);
      } else {
        assert IsReminderPush(qs[k], [last], records, vehicles, fmtTime);
      }
    }
    forall k1, k2 | n <= k1 < k2 < |qs|
      ensures RecordOf(qs[k1]) != RecordOf(qs[k2])
    {
      assert qs[k1] == ps[k1];
      assert IsReminderPush(ps[k1], init, records, vehicles, fmtTime);
      if k2 < m {
        assert qs[k2] == ps[k2];
      } else {
        assert IsReminderPush(qs[k2], [last], records, vehicles, fmtTime);
      }
    }
  }

  /** A scan leaves alone the token of a user who owns none of its bookings. */
  lemma {:induction false} RemindAllKeepsUser(db: Db, ids: seq<string>, net: Transport, fmtDate: Timestamp -> string,
                                              fmtTime: Timestamp -> string, u: string)
    requires forall x :: x in ids ==> x in db.records
    requires forall i, j :: 0 <= i < j < |ids| ==> ids[i] != ids[j]
    requires forall x :: x in ids ==> db.records[x].userId != u
    ensures TokenOf(RemindAll(db, ids, net, fmtDate, fmtTime).users, u) == TokenOf(db.users, u)
    decreases |ids|
  {
    if ids != [] {
      var init := ids[..|ids| - 1];
      var last := ids[|ids| - 1];
      assert ids == init + [last];
      RemindAllKeepsUser(db, init, net, fmtDate, fmtTime, u);
      var mid := RemindAll(db, init, net, fmtDate, fmtTime);
      assert last !in init;
      assert mid.records[last] == db.records[last] by {
        RemindAllMarks(db, init, net, fmtDate, fmtTime);
      }
      RemindKeepsUser(mid, last, net, fmtDate, fmtTime, u);
    }
  }

  /** A reminder touches no user but the booking's owner. */
  lemma RemindKeepsUser(db: Db, recordId: string, net: Transport, fmtDate: Timestamp -> string,
                        fmtTime: Timestamp -> string, u: string)
    requires recordId in db.records && db.records[recordId].userId != u
    ensures TokenOf(Remind(db, recordId, net, fmtDate, fmtTime).users, u) == TokenOf(db.users, u)
  {
    var r := Remind(db, recordId, net, fmtDate, fmtTime);
    assert u in db.users ==> r.users[u] == db.users[u];
  }

  /**
   * Every booking of the scan that is not skipped and whose owner has a
   * token gets its reminder push, provided no other booking of the scan has
   * the same owner (an earlier push to that owner could have deleted the
   * token).
   */
  lemma {:induction false} RemindAllPushFor(db: Db, ids: seq<string>, net: Transport, fmtDate: Timestamp -> string,
                                            fmtTime: Timestamp -> string, id: string)
    requires forall x :: x in ids ==> x in db.records
    requires forall i, j :: 0 <= i < j < |ids| ==> ids[i] != ids[j]
    requires id in ids && !SkipsReminder(db.records[id].status)
    requires db.records[id].userId != "" && TokenOf(db.users, db.records[id].userId).Some?
    requires forall x :: x in ids && x != id ==> db.records[x].userId != db.records[id].userId
    ensures var r := RemindAll(db, ids, net, fmtDate, fmtTime);
      exists k :: |db.pushes| <= k < |r.pushes| && RecordOf(r.pushes[k]) == id
    decreases |ids|
  {
    var init := ids[..|ids| - 1];
    var last := ids[|ids| - 1];
    assert ids == init + [last];
    var mid := RemindAll(db, init, net, fmtDate, fmtTime);
    var r := Remind(mid, last, net, fmtDate, fmtTime);
    assert r == RemindAll(db, ids, net, fmtDate, fmtTime);
    RemindAllPushes(db, init, net, fmtDate, fmtTime);
    if id == last {
      var owner := db.records[id].userId;
      assert last !in init;
      assert mid.records[last] == db.records[last] by {
        RemindAllMarks(db, init, net, fmtDate, fmtTime);
      }
      RemindAllKeepsUser(db, init, net, fmtDate, fmtTime, owner);
      assert r.pushes[|mid.pushes|].data == PushData("reminder", "recordId", id);
      assert RecordOf(r.pushes[|mid.pushes|]) == id;
    } else {
      RemindAllPushFor(db, init, net, fmtDate, fmtTime, id);
      var k :| |db.pushes| <= k < |mid.pushes| && RecordOf(mid.pushes[k]) == id;
      assert r.pushes[..|mid.pushes|] == mid.pushes;
      assert r.pushes[k] == mid.pushes[k];
    }
  }

  /** Every booking of the scan that is not skipped and has an owner gets a reminder row. */
  lemma {:induction false} RemindAllRowFor(db: Db, ids: seq<string>, net: Transport, fmtDate: Timestamp -> string,
                                           fmtTime: Timestamp -> string, id: string)
    requires forall x :: x in ids ==> x in db.records
    requires forall i, j :: 0 <= i < j < |ids| ==> ids[i] != ids[j]
    requires id in ids && !SkipsReminder(db.records[id].status) && db.records[id].userId != ""
    ensures var r := RemindAll(db, ids, net, fmtDate, fmtTime);
      exists k :: |db.notifications| <= k < |r.notifications| && r.notifications[k].entity == RecordRef(id)
    decreases |ids|
  {
    var init := ids[..|ids| - 1];
    var last := ids[|ids| - 1];
    assert ids == init + [last];
    var mid := RemindAll(db, init, net, fmtDate, fmtTime);
    var r := Remind(mid, last, net, fmtDate, fmtTime);
    assert r == RemindAll(db, ids, net, fmtDate, fmtTime);
    RemindAllRows(db, init, net, fmtDate, fmtTime);
    if id == last {
      assert last !in init;
      assert mid.records[last] == db.records[last] by {
        RemindAllMarks(db, init, net, fmtDate, fmtTime);
      }
      assert r.notifications[|mid.notifications|].entity == RecordRef(id);
    } else {
      RemindAllRowFor(db, init, net, fmtDate, fmtTime, id);
      var k :| |db.notifications| <= k < |mid.notifications| && mid.notifications[k].entity == RecordRef(id);
      assert r.notifications[..|mid.notifications|] == mid.notifications;
      assert r.notifications[k] == mid.notifications[k];
    }
  }

  /** What the scan's query selects: the bookings in the window that have not been reminded. */
  function DueIds(records: map<string, ServiceRecord>, nowMs: int): (s: set<string>)
    ensures forall id :: id in s <==> id in records && IsDue(records[id], nowMs)
  {
    set id | id in records && IsDue(records[id], nowMs)
  }

  /**
   * A booking a scan reminded is never selected again, at any later time:
   * the marker makes the reminder one-shot.
   */
  lemma RemindedIsNeverDueAgain(db: Db, ids: seq<string>, net: Transport, fmtDate: Timestamp -> string, fmtTime: Timestamp -> string,
                                id: string, laterMs: int)
    requires forall x :: x in ids ==> x in db.records
    requires forall i, j :: 0 <= i < j < |ids| ==> ids[i] != ids[j]
    requires id in ids && !SkipsReminder(db.records[id].status)
    ensures var r := RemindAll(db, ids, net, fmtDate, fmtTime);
      id in r.records && r.records[id].reminderSent && !IsDue(r.records[id], laterMs)
  {
    RemindAllMarks(db, ids, net, fmtDate, fmtTime);
  }

  /**
   * A booking exactly 24 hours ahead that has not been reminded and is not
   * "completed" or "cancelled" is selected by the scan, is reminded, and is
   * never selected again.
   */
  lemma DayAheadBookingIsRemindedOnce(db: Db, due: seq<string>, nowMs: int, id: string, net: Transport,
                                      fmtDate: Timestamp -> string, fmtTime: Timestamp -> string, laterMs: int)
    requires Enumerates(due, DueIds(db.records, nowMs))
    requires id in db.records && InNanos(db.records[id].serviceDate) == (nowMs + 24 * HourMs) * 1_000_000
    requires !db.records[id].reminderSent && !SkipsReminder(db.records[id].status)
    ensures id in due
    ensures var r := RemindAll(db, due, net, fmtDate, fmtTime);
      r.records[id] == db.records[id].(reminderSent := true) && !IsDue(r.records[id], laterMs)
  {
    TwentyFourHoursIsInWindow(db.records[id].serviceDate, nowMs);
    assert id in DueIds(db.records, nowMs);
    RemindAllMarks(db, due, net, fmtDate, fmtTime);
  }

  /**
   * The skip test compares with "completed" and "cancelled", which are not
   * booking statuses: a cancelled booking ("Booking Canceled") a day ahead
   * is still reminded, and its owner gets a reminder row.
   */
  lemma CanceledBookingIsStillReminded(db: Db, due: seq<string>, nowMs: int, id: string, net: Transport,
                                       fmtDate: Timestamp -> string, fmtTime: Timestamp -> string)
    requires Enumerates(due, DueIds(db.records, nowMs))
    requires id in db.records && InNanos(db.records[id].serviceDate) == (nowMs + 24 * HourMs) * 1_000_000
    requires !db.records[id].reminderSent && db.records[id].status == Canceled && db.records[id].userId != ""
    ensures var r := RemindAll(db, due, net, fmtDate, fmtTime);
      r.records[id].reminderSent &&
      exists k :: |db.notifications| <= k < |r.notifications| && r.notifications[k].entity == RecordRef(id)
  {
    DayAheadBookingIsRemindedOnce(db, due, nowMs, id, net, fmtDate, fmtTime, nowMs);
    RemindAllRowFor(db, due, net, fmtDate, fmtTime, id);
  }
}
