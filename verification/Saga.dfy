/** The order saga. Orders drive Inventory reservations over a network that loses
    replies, while callbacks, the lifecycle worker, the expiry worker and the store
    race and crash. A thread is a point some execution has reached, with the snapshot
    it carries; threads are never removed, so any number of executions may sit at any
    point, act late, act again, or never act at all (a crash or a lost reply). */
module Saga {
  import opened Ordering
  import opened InventoryModel
  import opened Idempotency
  import opened InventoryStore
  import opened OrderRows

  // ----- Inventory, as far as the saga can see it ---------------------------

  type Holds = map<Id, Reservation>

  datatype Desk = Desk(holds: Holds, table: Table, clock: Time)

  function DeskTransition(holds: Holds, rid: Id, order: Id, reason: string, confirm: bool, expiry: bool, t: Time)
    : Result<(Holds, Reservation)>
  {
    if rid !in holds || holds[rid].order != order then Err(NotFound) else
    var r := holds[rid];
    if expiry && (r.status != ACTIVE || r.expiresAt > t) then Ok((holds, r))
    else if r.status != ACTIVE then
      if (confirm && r.status == CONFIRMED) || (!confirm && (r.status == RELEASED || r.status == EXPIRED))
      then Ok((holds, r)) else Err(WrongState)
    else if confirm && r.expiresAt <= t then Err(WrongState)
    else
      var target := if confirm then CONFIRMED
                    else if expiry || r.expiresAt <= t then EXPIRED else RELEASED;
      Ok((holds[rid := r.(status := target, releaseReason := reason)], r.(status := target)))
  }

  function DeskReturn(holds: Holds, rid: Id, order: Id, reason: string, t: Time): Result<(Holds, Reservation)> {
    if rid !in holds || holds[rid].order != order then Err(NotFound) else
    var r := holds[rid];
    if r.status == RETURNED then Ok((holds, r))
    else if r.status != CONFIRMED then Err(WrongState)
    else Ok((holds[rid := r.(status := RETURNED, releaseReason := reason)], r.(status := RETURNED)))
  }

  function DeskHold(holds: Holds, rid: Id, granted: Result<Reservation>): Result<(Holds, Reservation)> {
    match granted
    case Err(e) => Err(e)
    case Ok(r) => Ok((holds[rid := r], r))
  }

  function Answered(rid: Id, r: Result<(Holds, Reservation)>): Result<(Holds, Response)> {
    match r
    case Ok((holds, hold)) => Ok((holds, HoldResponse(rid, hold)))
    case Err(e) => Err(e)
  }

  function DeskServe(d: Desk, key: Key, request: Request, effect: Result<(Holds, Response)>, t: Time)
    : (Desk, Result<Response>)
  {
    var o := Serve(d.holds, d.table, [key], request, effect);
    (Desk(o.state, o.table, t), o.result)
  }

  /** Keys of version 5 UUIDs named by the order id (section 5.5 of RFC 9562): injective
      functions of the order, never nil. */
  function ConfirmKey(order: Id): Id { 3 * order + 1 }
  function ReleaseKey(order: Id): Id { 3 * order + 2 }
  function ReturnKey(order: Id): Id { 3 * order + 3 }

  function DeskConfirm(d: Desk, order: Id, rid: Id, t: Time): (Desk, Result<Response>) {
    DeskServe(d, Key(ConfirmOp, ConfirmKey(order)), ChangeRequest(rid, order, ConfirmKey(order), ""),
              Answered(rid, DeskTransition(d.holds, rid, order, "", true, false, t)), t)
  }

  function DeskRelease(d: Desk, order: Id, rid: Id, why: string, t: Time): (Desk, Result<Response>) {
    DeskServe(d, Key(ReleaseOp, ReleaseKey(order)), ChangeRequest(rid, order, ReleaseKey(order), why),
              Answered(rid, DeskTransition(d.holds, rid, order, why, false, false, t)), t)
  }

  function DeskGiveBack(d: Desk, order: Id, rid: Id, t: Time): (Desk, Result<Response>) {
    DeskServe(d, Key(ReturnOp, ReturnKey(order)), ChangeRequest(rid, order, ReturnKey(order), STORE_CANCELLED),
              Answered(rid, DeskReturn(d.holds, rid, order, STORE_CANCELLED, t)), t)
  }

  function DeskReserve(d: Desk, order: Id, key: Id, items: seq<Item>, rid: Id, granted: Result<Reservation>, t: Time)
    : (Desk, Result<Response>)
  {
    DeskServe(d, Key(ReserveOp, key), HoldRequest(order, key, SortItems(items)), Answered(rid, DeskHold(d.holds, rid, granted)), t)
  }

  // ----- the world ----------------------------------------------------------

  const ORDER_CANCELLED := "ORDER_CANCELLED"
  const RESERVATION_EXPIRED := "RESERVATION_EXPIRED"
  const STORE_CANCELLED := "STORE_CANCELLED"
  const RESPONSE_INVALID := "ORDER_RESPONSE_INVALID"
  const HOLD_EXPIRED := "ORDER_RESERVATION_EXPIRED"

  /** cancellationReason: the reason persisted with the claim, or the generic one. */
  function ReasonText(reason: Reason): string {
    match reason
    case NoReason => ORDER_CANCELLED
    case ReservationExpired => RESERVATION_EXPIRED
    case StoreCancelled => STORE_CANCELLED
  }

  datatype Thread =
    | AwaitHold(order: Id, key: Id, items: seq<Item>)  // placeOrder: reserve request sent
    | GotHold(order: Id, rid: Id, expiresAt: Time)  // placeOrder: reserve reply received
    | AwaitGiveUp(order: Id, rid: Id, why: string)  // placeOrder: giving the hold up again
    | AwaitConfirm(row: Row)  // finishPayment: confirm request sent
    | GotConfirm(row: Row)  // finishPayment: confirmed reply received
    | GotRefusal(order: Id)  // finishPayment: FAILED_PRECONDITION received
    | AboutToDecide(order: Id)  // paymentStateError: about to read the row
    | AwaitRelease(row: Row)  // finishCancellation: release request sent
    | GotRelease(row: Row)  // finishCancellation: released reply received
    | AwaitReturn(row: Row)  // finishStoreCancellation: return request sent
    | GotReturn(row: Row)  // finishStoreCancellation: returned reply received

  datatype World = World(desk: Desk, db: Db, threads: set<Thread>, rejected: set<Id>)

  const START := World(Desk(map[], map[], 0), Db(map[], []), {}, {})

  datatype Act =
    | PlaceOrder(order: Id, key: Id, items: seq<Item>)
    | DeliverReserve(th: Thread, rid: Id, granted: Result<Reservation>, t: Time)
    | SaveOrder(th: Thread, total: int, items: seq<Item>, now: Time)
    | GiveUp(th: Thread, why: string)
    | DeliverGiveUp(th: Thread, t: Time)
    | Checkout(order: Id, session: string, url: string, now: Time)
    | ConfirmPayment(order: Id)
    | DeliverConfirm(th: Thread, t: Time)
    | FinishPayment(th: Thread, paidAt: Time)
    | RejectPayment(th: Thread)
    | DecideRefund(th: Thread)
    | CancelOrder(order: Id)
    | ExpireOrder(order: Id, now: Time)
    | DeliverRelease(th: Thread, t: Time)
    | FinishCancellation(th: Thread)
    | StoreCancel(order: Id)
    | ResumeStoreCancel(order: Id)
    | DeliverReturn(th: Thread, t: Time)
    | FinishStoreCancellation(th: Thread)
    | SweepHold(rid: Id, t: Time)
    | OtherInventory(news: Table, t: Time)  // production, waste, batch expiry, time passing

  function Spawn(w: World, th: Thread): World {
    w.(threads := w.threads + {th})
  }

  function DoDeliverReserve(w: World, th: Thread, rid: Id, granted: Result<Reservation>, t: Time): World
    requires th.AwaitHold?
  {
    var (d, answer) := DeskReserve(w.desk, th.order, th.key, th.items, rid, granted, t);
    var w' := w.(desk := d);
    if answer.Ok? && answer.value.HoldResponse? && answer.value.hold.status == ACTIVE
    then Spawn(w', GotHold(th.order, answer.value.id, answer.value.hold.expiresAt)) else w'
  }

  function DoConfirmPayment(w: World, order: Id): World {
    var (db, o) := BeginTransition(w.db, order, PaymentConfirming);
    var w' := w.(db := db);
    if o == Fails(InvalidTransition) then Spawn(w', AboutToDecide(order))
    else if o.Done? && o.value.status == PaymentConfirming then Spawn(w', AwaitConfirm(o.value))
    else w'
  }

  function DoDeliverConfirm(w: World, th: Thread, t: Time): World
    requires th.AwaitConfirm?
  {
    var (d, answer) := DeskConfirm(w.desk, th.row.id, th.row.reservation, t);
    var w' := w.(desk := d);
    if answer.Ok? then Spawn(w', GotConfirm(th.row))
    else if answer.error == WrongState then Spawn(w', GotRefusal(th.row.id))
    else w'
  }

  function DoCancelOrder(w: World, order: Id): World {
    var (db, o) := BeginTransition(w.db, order, CancelPending);
    var w' := w.(db := db);
    if o.Done? && o.value.status == CancelPending then Spawn(w', AwaitRelease(o.value)) else w'
  }

  function DoDeliverRelease(w: World, th: Thread, t: Time): World
    requires th.AwaitRelease?
  {
    var (d, answer) := DeskRelease(w.desk, th.row.id, th.row.reservation, ReasonText(th.row.reason), t);
    var w' := w.(desk := d);
    if answer.Ok? then Spawn(w', GotRelease(th.row)) else w'
  }

  function DoStoreCancel(w: World, order: Id): World {
    var (db, o) := BeginStoreCancellation(w.db, order);
    var w' := w.(db := db);
    if o.Done? && o.value.status == StoreCancelPending then Spawn(w', AwaitReturn(o.value)) else w'
  }

  function DoDeliverReturn(w: World, th: Thread, t: Time): World
    requires th.AwaitReturn?
  {
    var (d, answer) := DeskGiveBack(w.desk, th.row.id, th.row.reservation, t);
    var w' := w.(desk := d);
    if answer.Ok? then Spawn(w', GotReturn(th.row)) else w'
  }

  function PaidFactsOf(row: Row): Option<PaidFacts> {
    if row.paidAt.Some? then Some(PaidFacts(row.total, row.items, row.paidAt.value)) else None
  }

  function NewRow(th: Thread, total: int, items: seq<Item>): Row
    requires th.GotHold?
  {
    Row(th.order, PendingPayment, th.rid, th.expiresAt, NoReason, None, "", "", total, items)
  }

  predicate Grantable(holds: Holds, order: Id, r: Reservation) {
    r.order == order && r.status == ACTIVE && forall x | x in holds :: holds[x].order != order
  }

  /** When an act can happen: its thread has been reached, the Inventory clock does not
      run back, and what Inventory generates is new. */
  predicate Enabled(w: World, a: Act) {
    match a
    case PlaceOrder(order, _, _) => order != NIL
    case DeliverReserve(th, rid, granted, t) =>
      th in w.threads && th.AwaitHold? && w.desk.clock <= t && rid !in w.desk.holds &&
      (granted.Ok? ==> Grantable(w.desk.holds, th.order, granted.value))
    case SaveOrder(th, _, _, now) => th in w.threads && th.GotHold? && th.expiresAt > now
    case GiveUp(th, why) => th in w.threads && th.GotHold? && (why == RESPONSE_INVALID || why == HOLD_EXPIRED)
    case DeliverGiveUp(th, t) => th in w.threads && th.AwaitGiveUp? && w.desk.clock <= t
    case Checkout(_, _, _, _) => true
    case ConfirmPayment(_) => true
    case DeliverConfirm(th, t) => th in w.threads && th.AwaitConfirm? && w.desk.clock <= t
    case FinishPayment(th, _) => th in w.threads && th.GotConfirm?
    case RejectPayment(th) => th in w.threads && th.GotRefusal?
    case DecideRefund(th) => th in w.threads && th.AboutToDecide?
    case CancelOrder(_) => true
    case ExpireOrder(_, _) => true
    case DeliverRelease(th, t) => th in w.threads && th.AwaitRelease? && w.desk.clock <= t
    case FinishCancellation(th) => th in w.threads && th.GotRelease?
    case StoreCancel(_) => true
    case ResumeStoreCancel(order) => order in w.db.rows && w.db.rows[order].status == StoreCancelPending
    case DeliverReturn(th, t) => th in w.threads && th.AwaitReturn? && w.desk.clock <= t
    case FinishStoreCancellation(th) => th in w.threads && th.GotReturn?
    case SweepHold(rid, t) => rid in w.desk.holds && w.desk.clock <= t
    case OtherInventory(news, t) =>
      w.desk.clock <= t &&
      forall k | k in news :: k !in w.desk.table && (k.op.CreateOp? || k.op.RestWasteOp? || k.op.WasteOp?)
  }

  function Do(w: World, a: Act): World
    requires Enabled(w, a)
  {
    match a
    case PlaceOrder(order, key, items) => Spawn(w, AwaitHold(order, key, items))
    case DeliverReserve(th, rid, granted, t) => DoDeliverReserve(w, th, rid, granted, t)
    case SaveOrder(th, total, items, now) => w.(db := CreateRow(w.db, NewRow(th, total, items)).0)
    case GiveUp(th, why) => Spawn(w, AwaitGiveUp(th.order, th.rid, why))
    case DeliverGiveUp(th, t) => w.(desk := DeskRelease(w.desk, th.order, th.rid, th.why, t).0)
    case Checkout(order, session, url, now) => w.(db := BindCheckout(w.db, order, session, url, now).0)
    case ConfirmPayment(order) => DoConfirmPayment(w, order)
    case DeliverConfirm(th, t) => DoDeliverConfirm(w, th, t)
    case FinishPayment(th, paidAt) =>
      w.(db := MarkPaidWithOutbox(w.db, th.row.id, paidAt, PlacedEvent(th.row.id, th.row.total, th.row.items, paidAt)).0)
    case RejectPayment(th) =>
      var (db, o) := RejectPaymentConfirmation(w.db, th.order);
      w.(db := db, rejected := if o.Done? then w.rejected + {th.order} else w.rejected)
    case DecideRefund(th) =>
      if Refundable(w.db, th.order) then w.(rejected := w.rejected + {th.order}) else w
    case CancelOrder(order) => DoCancelOrder(w, order)
    case ExpireOrder(order, now) =>
      var (db, o) := BeginExpiry(w.db, order, now);
      if o.Done? then Spawn(w.(db := db), AwaitRelease(o.value)) else w
    case DeliverRelease(th, t) => DoDeliverRelease(w, th, t)
    case FinishCancellation(th) =>
      w.(db := MarkCancelled(w.db, th.row.id, CancelledEvent(th.row.id, ReasonText(th.row.reason), None)).0)
    case StoreCancel(order) => DoStoreCancel(w, order)
    case ResumeStoreCancel(order) => Spawn(w, AwaitReturn(w.db.rows[order]))
    case DeliverReturn(th, t) => DoDeliverReturn(w, th, t)
    case FinishStoreCancellation(th) =>
      w.(db := MarkCancelled(w.db, th.row.id, CancelledEvent(th.row.id, STORE_CANCELLED, PaidFactsOf(th.row))).0)
    case SweepHold(rid, t) =>
      match DeskTransition(w.desk.holds, rid, w.desk.holds[rid].order, TIMEOUT, false, true, t) {
        case Ok((holds, _)) => w.(desk := w.desk.(holds := holds, clock := t))
        case Err(_) => w.(desk := w.desk.(clock := t))
      }
    case OtherInventory(news, t) => w.(desk := w.desk.(table := w.desk.table + news, clock := t))
  }

  /** paymentStateError: an order that can never be paid, and never was. */
  predicate Refundable(db: Db, order: Id) {
    order in db.rows &&
    var r := db.rows[order];
    (r.status == CancelPending || r.status == Cancelled) && r.paidAt.None? && r.reason != StoreCancelled
  }

  ghost predicate IsRun(worlds: seq<World>, acts: seq<Act>) {
    |worlds| == |acts| + 1 && worlds[0] == START &&
    forall i | 0 <= i < |acts| :: Enabled(worlds[i], acts[i]) && worlds[i + 1] == Do(worlds[i], acts[i])
  }
}
