/** The order rows and their outbox. Every transition is one guarded update of a row
    under its lock, committed together with the event it announces. */
module OrderRows {
  import opened Ordering
  import opened InventoryModel

  datatype OrderStatus =
    PendingPayment | CancelPending | PaymentConfirming | Paid | StoreCancelPending | Cancelled

  datatype Reason = NoReason | ReservationExpired | StoreCancelled

  datatype Row = Row(
    id: Id, status: OrderStatus, reservation: Id, holdExpiresAt: Time, reason: Reason,
    paidAt: Option<Time>, session: string, url: string, total: int, items: seq<Item>)

  datatype PaidFacts = PaidFacts(total: int, items: seq<Item>, paidAt: Time)

  /** The outbox: order.placed, and order.cancelled with the paid facts of a paid order. */
  datatype Event =
    | PlacedEvent(order: Id, total: int, items: seq<Item>, at: Time)
    | CancelledEvent(order: Id, why: string, paid: Option<PaidFacts>)

  datatype Db = Db(rows: map<Id, Row>, outbox: seq<Event>)

  datatype Fault = RowNotFound | InvalidTransition
  datatype Outcome<+V> = Done(value: V) | Fails(fault: Fault)

  function PutRow(db: Db, r: Row): Db {
    db.(rows := db.rows[r.id := r])
  }

  /** BeginTransition: claim CANCEL_PENDING or PAYMENT_CONFIRMING, or report the row if
      that claim, or its end state, is already there. */
  function BeginTransition(db: Db, id: Id, target: OrderStatus): (Db, Outcome<Row>) {
    if target != CancelPending && target != PaymentConfirming then (db, Fails(InvalidTransition))
    else if id !in db.rows then (db, Fails(RowNotFound))
    else
      var r := db.rows[id];
      var end := if target == CancelPending then Cancelled else Paid;
      if r.status == target || r.status == end then (db, Done(r))
      else if r.status != PendingPayment then (db, Fails(InvalidTransition))
      else
        var claimed := r.(status := target, url := "");
        (PutRow(db, claimed), Done(claimed))
  }

  /** BeginExpiry: claim an unpaid order whose stock hold has passed. */
  function BeginExpiry(db: Db, id: Id, now: Time): (Db, Outcome<Row>) {
    if id !in db.rows then (db, Fails(RowNotFound))
    else
      var r := db.rows[id];
      if r.status != PendingPayment || r.holdExpiresAt > now then (db, Fails(InvalidTransition))
      else
        var claimed := r.(status := CancelPending, url := "", reason := ReservationExpired);
        (PutRow(db, claimed), Done(claimed))
  }

  function BeginStoreCancellation(db: Db, id: Id): (Db, Outcome<Row>) {
    if id !in db.rows then (db, Fails(RowNotFound))
    else
      var r := db.rows[id];
      if r.status == StoreCancelPending || (r.status == Cancelled && r.reason == StoreCancelled) then (db, Done(r))
      else if r.status != Paid then (db, Fails(InvalidTransition))
      else
        var claimed := r.(status := StoreCancelPending, reason := StoreCancelled);
        (PutRow(db, claimed), Done(claimed))
  }

  function RejectPaymentConfirmation(db: Db, id: Id): (Db, Outcome<()>) {
    if id !in db.rows then (db, Fails(RowNotFound))
    else
      var r := db.rows[id];
      if r.status == PaymentConfirming then (PutRow(db, r.(status := CancelPending)), Done(()))
      else if r.status == CancelPending || r.status == Cancelled then (db, Done(()))
      else (db, Fails(InvalidTransition))
  }

  function MarkPaidWithOutbox(db: Db, id: Id, paidAt: Time, event: Event): (Db, Outcome<()>) {
    if id !in db.rows then (db, Fails(RowNotFound))
    else
      var r := db.rows[id];
      if r.status == PaymentConfirming then
        (PutRow(db, r.(status := Paid, paidAt := Some(paidAt))).(outbox := db.outbox + [event]), Done(()))
      else if r.status == Paid then (db, Done(()))
      else (db, Fails(InvalidTransition))
  }

  /** MarkCancelled finishes either cancellation intent together with its event. */
  function MarkCancelled(db: Db, id: Id, event: Event): (Db, Outcome<()>) {
    if id !in db.rows then (db, Fails(RowNotFound))
    else
      var r := db.rows[id];
      if r.status == CancelPending || r.status == StoreCancelPending then
        (PutRow(db, r.(status := Cancelled)).(outbox := db.outbox + [event]), Done(()))
      else if r.status == Cancelled then (db, Done(()))
      else (db, Fails(InvalidTransition))
  }

  /** BindCheckout never exposes a payment URL for an order that cannot be paid, and
      never rebinds one session to another. */
  function BindCheckout(db: Db, id: Id, session: string, url: string, now: Time): (Db, Outcome<Row>) {
    if id !in db.rows then (db, Fails(RowNotFound))
    else
      var r := db.rows[id];
      if r.status != PendingPayment || r.holdExpiresAt <= now then (db, Fails(InvalidTransition))
      else if r.session != "" && (r.session != session || r.url != url) then (db, Fails(InvalidTransition))
      else
        var bound := if r.session == "" then r.(session := session, url := url) else r;
        (PutRow(db, bound), Done(bound))
  }

  function CreateRow(db: Db, r: Row): (Db, Outcome<()>) {
    if r.id in db.rows then (db, Fails(InvalidTransition)) else (PutRow(db, r), Done(()))
  }

  // ----- what the table keeps -----------------------------------------------

  /** The order was paid: it holds, returns or has returned confirmed stock. */
  ghost predicate WasPaid(r: Row) {
    r.status == Paid || r.status == StoreCancelPending || (r.status == Cancelled && r.reason == StoreCancelled)
  }

  /** How many order.placed (or order.cancelled) events the outbox holds for an order. */
  ghost function Count(outbox: seq<Event>, o: Id, placed: bool): nat {
    if outbox == [] then 0 else
    var e := outbox[|outbox| - 1];
    Count(outbox[..|outbox| - 1], o, placed) + if e.order == o && e.PlacedEvent? == placed then 1 else 0
  }

  lemma CountAppend(outbox: seq<Event>, e: Event, o: Id, placed: bool)
    ensures Count(outbox + [e], o, placed) ==
            Count(outbox, o, placed) + if e.order == o && e.PlacedEvent? == placed then 1 else 0
  {
    assert (outbox + [e])[..|outbox|] == outbox;
  }

  /** A checkout URL only while payment is pending, a paid time exactly for paid orders, a
      store reason exactly for store cancellations. */
  ghost predicate TidyRow(r: Row) {
    (r.url != "" ==> r.status == PendingPayment) && (r.paidAt.Some? <==> WasPaid(r)) &&
    (r.reason == StoreCancelled ==> r.status == StoreCancelPending || r.status == Cancelled) &&
    (r.status == StoreCancelPending ==> r.reason == StoreCancelled)
  }

  /** Rows are tidy, and the outbox holds one order.placed for each paid order, one
      order.cancelled for each cancelled one, and nothing else. */
  ghost predicate Tidy(db: Db) {
    (forall o | o in db.rows :: db.rows[o].id == o && TidyRow(db.rows[o])) &&
    forall o: Id ::
      Count(db.outbox, o, true) == (if o in db.rows && db.rows[o].paidAt.Some? then 1 else 0) &&
      Count(db.outbox, o, false) == (if o in db.rows && db.rows[o].status == Cancelled then 1 else 0)
  }

  /** Nothing changed but, perhaps, the progress of one order; its terms stay. */
  ghost predicate OnlyMoves(db: Db, db': Db, id: Id) {
    db'.rows.Keys == db.rows.Keys && (forall o | o in db.rows && o != id :: db'.rows[o] == db.rows[o]) &&
    (id in db.rows ==>
      db'.rows[id].reservation == db.rows[id].reservation && db'.rows[id].holdExpiresAt == db.rows[id].holdExpiresAt &&
      db'.rows[id].total == db.rows[id].total && db'.rows[id].items == db.rows[id].items)
  }

  lemma QuietIsTidy(db: Db, r: Row)
    requires Tidy(db) && r.id in db.rows && TidyRow(r)
    requires r.paidAt == db.rows[r.id].paidAt && (r.status == Cancelled <==> db.rows[r.id].status == Cancelled)
    ensures Tidy(PutRow(db, r))
  {
  }

  lemma LoudIsTidy(db: Db, r: Row, e: Event)
    requires Tidy(db) && r.id in db.rows && TidyRow(r) && e.order == r.id && db.rows[r.id].status != Cancelled
    requires if e.PlacedEvent? then db.rows[r.id].paidAt.None? && r.paidAt.Some? && r.status != Cancelled
             else r.paidAt == db.rows[r.id].paidAt && r.status == Cancelled
    ensures Tidy(PutRow(db, r).(outbox := db.outbox + [e]))
  {
    var db' := PutRow(db, r).(outbox := db.outbox + [e]);
    forall o: Id
      ensures Count(db'.outbox, o, true) == if o in db'.rows && db'.rows[o].paidAt.Some? then 1 else 0
      ensures Count(db'.outbox, o, false) == if o in db'.rows && db'.rows[o].status == Cancelled then 1 else 0
    {
      CountAppend(db.outbox, e, o, true);
      CountAppend(db.outbox, e, o, false);
    }
  }

  function EndOf(target: OrderStatus): OrderStatus {
    if target == CancelPending then Cancelled else Paid
  }

  /** The repository keeps the rows and the outbox and changes them in place. */
  class OrderRepository {
    var rows: map<Id, Row>
    var outbox: seq<Event>

    ghost function View(): Db
      reads this
    {
      Db(rows, outbox)
    }

    constructor ()
      ensures View() == Db(map[], []) && Tidy(View())
    {
      rows, outbox := map[], [];
    }

    method Create(r: Row) returns (o: Outcome<()>)
      requires Tidy(View())
      modifies this
      ensures o.Done? <==> r.id !in old(rows)
      ensures o.Done? ==> rows == old(rows)[r.id := r] && outbox == old(outbox)
      ensures o.Fails? ==> View() == old(View())
      ensures TidyRow(r) && r.status == PendingPayment ==> Tidy(View())
      ensures (View(), o) == CreateRow(old(View()), r)
    {
      if r.id in rows { return Fails(InvalidTransition); }
      rows := rows[r.id := r];
      o := Done(());
    }

    /** Claims an intent for an unpaid order, or reports the claim or its end state. */
    method Claim(id: Id, target: OrderStatus) returns (o: Outcome<Row>)
      requires Tidy(View())
      modifies this`rows
      ensures Tidy(View()) && OnlyMoves(old(View()), View(), id)
      ensures o.Done? <==> (target == CancelPending || target == PaymentConfirming) && id in old(rows) &&
                           old(rows)[id].status in {PendingPayment, target, EndOf(target)}
      ensures o.Done? ==> id in rows && o.value == rows[id] && o.value.status in {target, EndOf(target)} && o.value.url == ""
      ensures o.Fails? ==> rows == old(rows)
      ensures id in old(rows) && rows[id].status != old(rows)[id].status ==> old(rows)[id].status == PendingPayment && rows[id].status == target
      ensures id in old(rows) ==> rows[id].reason == old(rows)[id].reason && rows[id].paidAt == old(rows)[id].paidAt
      ensures o == Fails(RowNotFound) <==> (target == CancelPending || target == PaymentConfirming) && id !in old(rows)
      ensures (View(), o) == BeginTransition(old(View()), id, target)
    {
      var terminal := Cancelled;
      if target == PaymentConfirming {
        terminal := Paid;
      } else if target != CancelPending {
        return Fails(InvalidTransition);
      }
      if id !in rows { return Fails(RowNotFound); }
      var order := rows[id];
      if order.status == target || order.status == terminal { return Done(order); }
      if order.status != PendingPayment { return Fails(InvalidTransition); }
      order := order.(status := target, url := "");
      QuietIsTidy(View(), order);
      rows := rows[order.id := order];
      o := Done(order);
    }

    /** Claims an unpaid order whose stock hold has passed, and no other. */
    method Expire(id: Id, now: Time) returns (o: Outcome<Row>)
      requires Tidy(View())
      modifies this`rows
      ensures Tidy(View()) && OnlyMoves(old(View()), View(), id)
      ensures o.Done? <==> id in old(rows) && old(rows)[id].status == PendingPayment && old(rows)[id].holdExpiresAt <= now
      ensures o.Done? ==> id in rows && o.value == rows[id] && rows[id].paidAt.None? &&
                          rows[id].status == CancelPending && rows[id].reason == ReservationExpired && rows[id].url == ""
      ensures o.Fails? ==> rows == old(rows)
      ensures o == Fails(RowNotFound) <==> id !in old(rows)
      ensures (View(), o) == BeginExpiry(old(View()), id, now)
    {
      if id !in rows { return Fails(RowNotFound); }
      var order := rows[id];
      if order.status != PendingPayment || order.holdExpiresAt > now { return Fails(InvalidTransition); }
      order := order.(status := CancelPending, url := "", reason := ReservationExpired);
      QuietIsTidy(View(), order);
      rows := rows[order.id := order];
      o := Done(order);
    }

    /** Claims a paid order for the store; what it reports was paid and never is again. */
    method ClaimForStore(id: Id) returns (o: Outcome<Row>)
      requires Tidy(View())
      modifies this`rows
      ensures Tidy(View()) && OnlyMoves(old(View()), View(), id)
      ensures o.Done? <==> id in old(rows) && WasPaid(old(rows)[id])
      ensures o.Done? ==> id in rows && o.value == rows[id] && rows[id].paidAt.Some? && rows[id].paidAt == old(rows)[id].paidAt &&
                          rows[id].reason == StoreCancelled && rows[id].status in {StoreCancelPending, Cancelled}
      ensures o.Done? ==> (rows[id].status == Cancelled <==> old(rows)[id].status == Cancelled)
      ensures o.Fails? ==> rows == old(rows)
      ensures o == Fails(RowNotFound) <==> id !in old(rows)
      ensures (View(), o) == BeginStoreCancellation(old(View()), id)
    {
      if id !in rows { return Fails(RowNotFound); }
      var order := rows[id];
      if order.status == StoreCancelPending || (order.status == Cancelled && order.reason == StoreCancelled) {
        return Done(order);
      }
      if order.status != Paid { return Fails(InvalidTransition); }
      order := order.(status := StoreCancelPending, reason := StoreCancelled);
      QuietIsTidy(View(), order);
      rows := rows[order.id := order];
      o := Done(order);
    }

    /** Turns a payment claim into a cancellation intent; repeating it is harmless. */
    method Reject(id: Id) returns (o: Outcome<()>)
      requires Tidy(View())
      modifies this`rows
      ensures Tidy(View()) && OnlyMoves(old(View()), View(), id)
      ensures o.Done? <==> id in old(rows) && old(rows)[id].status in {PaymentConfirming, CancelPending, Cancelled}
      ensures o.Done? ==> rows[id].reason == old(rows)[id].reason && rows[id].paidAt == old(rows)[id].paidAt &&
                          rows[id].status == if old(rows)[id].status == PaymentConfirming then CancelPending else old(rows)[id].status
      ensures o.Fails? ==> rows == old(rows)
      ensures o == Fails(RowNotFound) <==> id !in old(rows)
      ensures (View(), o) == RejectPaymentConfirmation(old(View()), id)
    {
      if id in rows && rows[id].status == PaymentConfirming {
        QuietIsTidy(View(), rows[id].(status := CancelPending));
        rows := rows[rows[id].id := rows[id].(status := CancelPending)];
        return Done(());
      }
      if id !in rows { return Fails(RowNotFound); }
      if rows[id].status == CancelPending || rows[id].status == Cancelled { return Done(()); }
      o := Fails(InvalidTransition);
    }

    /** Pays a claimed order and announces it in the same commit, once. */
    method MarkPaid(id: Id, paidAt: Time, event: Event) returns (o: Outcome<()>)
      requires Tidy(View())
      modifies this
      ensures event.PlacedEvent? && event.order == id ==> Tidy(View())
      ensures OnlyMoves(old(View()), View(), id)
      ensures o.Done? <==> id in old(rows) && old(rows)[id].status in {PaymentConfirming, Paid}
      ensures o.Done? ==> rows[id].status == Paid && rows[id].paidAt == if old(rows)[id].status == Paid then old(rows)[id].paidAt else Some(paidAt)
      ensures o.Done? ==> rows[id].reason == old(rows)[id].reason && rows[id].url == old(rows)[id].url
      ensures outbox == old(outbox) + if id in old(rows) && old(rows)[id].status == PaymentConfirming then [event] else []
      ensures outbox == old(outbox) ==> rows == old(rows)
      ensures o == Fails(RowNotFound) <==> id !in old(rows)
      ensures (View(), o) == MarkPaidWithOutbox(old(View()), id, paidAt, event)
    {
      assert outbox + [] == outbox;
      if id in rows && rows[id].status == PaymentConfirming {
        var paid := rows[id].(status := Paid, paidAt := Some(paidAt));
        if event.PlacedEvent? && event.order == id {
          LoudIsTidy(View(), paid, event);
        }
        rows := rows[rows[id].id := paid];
        outbox := outbox + [event];
        return Done(());
      }
      if id !in rows { return Fails(RowNotFound); }
      o := if rows[id].status == Paid then Done(()) else Fails(InvalidTransition);
    }

    /** Finishes either cancellation intent and announces it in the same commit, once. */
    method Cancel(id: Id, event: Event) returns (o: Outcome<()>)
      requires Tidy(View())
      modifies this
      ensures event.CancelledEvent? && event.order == id ==> Tidy(View())
      ensures OnlyMoves(old(View()), View(), id)
      ensures o.Done? <==> id in old(rows) && old(rows)[id].status in {CancelPending, StoreCancelPending, Cancelled}
      ensures o.Done? ==> rows[id].status == Cancelled && rows[id].reason == old(rows)[id].reason && rows[id].paidAt == old(rows)[id].paidAt
      ensures outbox == old(outbox) + if id in old(rows) && old(rows)[id].status in {CancelPending, StoreCancelPending} then [event] else []
      ensures outbox == old(outbox) ==> rows == old(rows)
      ensures o == Fails(RowNotFound) <==> id !in old(rows)
      ensures (View(), o) == MarkCancelled(old(View()), id, event)
    {
      assert outbox + [] == outbox;
      if id in rows && (rows[id].status == CancelPending || rows[id].status == StoreCancelPending) {
        var done := rows[id].(status := Cancelled);
        if event.CancelledEvent? && event.order == id {
          LoudIsTidy(View(), done, event);
        }
        rows := rows[rows[id].id := done];
        outbox := outbox + [event];
        return Done(());
      }
      if id !in rows { return Fails(RowNotFound); }
      o := if rows[id].status == Cancelled then Done(()) else Fails(InvalidTransition);
    }

    /** Binds a checkout to a live unpaid order; a bound session and URL never change. */
    method Bind(id: Id, session: string, url: string, now: Time) returns (o: Outcome<Row>)
      requires Tidy(View())
      modifies this`rows
      ensures Tidy(View()) && OnlyMoves(old(View()), View(), id)
      ensures o.Done? <==> id in old(rows) && old(rows)[id].status == PendingPayment && old(rows)[id].holdExpiresAt > now &&
                           (old(rows)[id].session == "" || (old(rows)[id].session == session && old(rows)[id].url == url))
      ensures o.Done? ==> o.value == rows[id] && rows[id].session == session && rows[id].url == url
      ensures id in old(rows) ==> rows[id].status == old(rows)[id].status
      ensures id in old(rows) && old(rows)[id].session != "" ==> rows[id].session == old(rows)[id].session && rows[id].url == old(rows)[id].url
      ensures o.Fails? ==> rows == old(rows)
      ensures o == Fails(RowNotFound) <==> id !in old(rows)
      ensures (View(), o) == BindCheckout(old(View()), id, session, url, now)
    {
      if id !in rows { return Fails(RowNotFound); }
      var order := rows[id];
      if order.status != PendingPayment || order.holdExpiresAt <= now { return Fails(InvalidTransition); }
      if order.session != "" && (order.session != session || order.url != url) { return Fails(InvalidTransition); }
      if order.session == "" {
        order := order.(session := session, url := url);
      }
      QuietIsTidy(View(), order);
      rows := rows[order.id := order];
      o := Done(order);
    }
  }
}
