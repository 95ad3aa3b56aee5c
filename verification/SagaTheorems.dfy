/** What the order saga guarantees over every run, however its executions interleave,
    crash or lose replies. */
module SagaTheorems {
  import opened Ordering
  import opened InventoryModel
  import opened Idempotency
  import opened InventoryStore
  import opened OrderRows
  import opened Saga
  import opened SagaInvariant
  import opened SagaSteps

  lemma RunStep(worlds: seq<World>, acts: seq<Act>, i: nat)
    requires IsRun(worlds, acts) && i < |acts|
    ensures Enabled(worlds[i], acts[i]) && i + 1 < |worlds| && worlds[i + 1] == Do(worlds[i], acts[i])
  {
  }

  lemma RunLength(worlds: seq<World>, acts: seq<Act>)
    requires IsRun(worlds, acts)
    ensures |worlds| == |acts| + 1
  {
  }

  lemma {:induction false} EveryWorldSound(worlds: seq<World>, acts: seq<Act>, i: nat)
    requires IsRun(worlds, acts) && i < |worlds|
    ensures Inv(worlds[i])
  {
    if i == 0 {
      StartHolds();
    } else {
      hide *;
      RunLength(worlds, acts);
      RunStep(worlds, acts, i - 1);
      EveryWorldSound(worlds, acts, i - 1);
      ActKeeps(worlds[i - 1], acts[i - 1]);
    }
  }

  // ----- agreement ----------------------------------------------------------

  /** The row of an order and its reservation at Inventory agree. */
  ghost predicate Agrees(r: Row, h: Reservation) {
    (r.status == Paid ==> h.status == CONFIRMED) &&
    (r.status == StoreCancelPending ==> h.status == CONFIRMED || h.status == RETURNED) &&
    (r.status == Cancelled && r.reason == StoreCancelled ==> h.status == RETURNED) &&
    (r.status == Cancelled && r.reason != StoreCancelled ==> h.status == RELEASED || h.status == EXPIRED) &&
    (r.status == PendingPayment || r.status == CancelPending ==> h.status != CONFIRMED && h.status != RETURNED) &&
    (r.url != "" ==> r.status == PendingPayment)
  }

  lemma SagaAgreement(worlds: seq<World>, acts: seq<Act>, i: nat, o: Id)
    requires IsRun(worlds, acts) && i < |worlds| && o in worlds[i].db.rows
    ensures var r := worlds[i].db.rows[o];
            r.reservation in worlds[i].desk.holds && worlds[i].desk.holds[r.reservation].order == o &&
            Agrees(r, worlds[i].desk.holds[r.reservation])
  {
    hide IsRun, Inv;
    EveryWorldSound(worlds, acts, i);
    InvRow(worlds[i], o);
  }

  /** Inventory never sells stock that no order pays for. */
  lemma SoldStockIsOwned(worlds: seq<World>, acts: seq<Act>, i: nat, x: Id)
    requires IsRun(worlds, acts) && i < |worlds| && x in worlds[i].desk.holds && worlds[i].desk.holds[x].status == CONFIRMED
    ensures var o := worlds[i].desk.holds[x].order;
            o in worlds[i].db.rows && worlds[i].db.rows[o].reservation == x &&
            worlds[i].db.rows[o].status in {PaymentConfirming, Paid, StoreCancelPending}
  {
    hide IsRun;
    EveryWorldSound(worlds, acts, i);
    var o := worlds[i].desk.holds[x].order;
    assert Sold(worlds[i].desk.holds[x]);
    assert o in worlds[i].db.rows;
    InvRow(worlds[i], o);
  }

  // ----- what a run never takes back ----------------------------------------

  ghost predicate Prefix(a: seq<Event>, b: seq<Event>) {
    |a| <= |b| && b[..|a|] == a
  }

  /** Rows are never removed, keep their reservation, and once void stay void. */
  ghost predicate DbGrows(db: Db, db': Db) {
    Prefix(db.outbox, db'.outbox) && |db'.outbox| <= |db.outbox| + 1 &&
    forall o | o in db.rows ::
      o in db'.rows && RowGrows(db.rows[o], db'.rows[o])
  }

  ghost predicate Grows(w: World, w': World) {
    w.threads <= w'.threads && w.rejected <= w'.rejected && DbGrows(w.db, w'.db) && w.desk.clock <= w'.desk.clock
  }

  ghost predicate RecordsStay(d: Desk, d': Desk) {
    forall k | k in d.table :: k in d'.table && d'.table[k] == d.table[k]
  }

  lemma ServeKeepsRecords(d: Desk, key: Key, request: Request, effect: Result<(Holds, Response)>, t: Time)
    ensures RecordsStay(d, DeskServe(d, key, request, effect, t).0)
  {
    DeskServeMeaning(d, key, request, effect, t);
  }

  ghost predicate Keyed(db: Db) {
    forall o | o in db.rows ::
      db.rows[o].id == o && (db.rows[o].status == CancelPending ==> db.rows[o].reason != StoreCancelled)
  }

  lemma RowsAreKeyed(w: World)
    requires Inv(w)
    ensures Keyed(w.db)
  {
    forall o | o in w.db.rows ensures w.db.rows[o].id == o && RowSound(w.db.rows[o], w.desk.holds[w.db.rows[o].reservation]) {
      InvRow(w, o);
    }
  }

  ghost predicate RowGrows(r: Row, r': Row) {
    r'.reservation == r.reservation && (Void(r) ==> Void(r') && r'.reason == r.reason)
  }

  lemma PutGrows(db: Db, r: Row, news: seq<Event>)
    requires r.id in db.rows ==> RowGrows(db.rows[r.id], r)
    requires |news| <= 1
    ensures DbGrows(db, PutRow(db, r).(outbox := db.outbox + news))
    ensures DbGrows(db, PutRow(db, r))
  {
  }

  lemma ClaimsGrow(db: Db, o: Id, target: OrderStatus, now: Time)
    requires Keyed(db)
    ensures DbGrows(db, BeginTransition(db, o, target).0)
    ensures DbGrows(db, BeginExpiry(db, o, now).0)
    ensures DbGrows(db, BeginStoreCancellation(db, o).0)
    ensures DbGrows(db, RejectPaymentConfirmation(db, o).0)
  {
    SameGrows(db);
    hide DbGrows;
    if o in db.rows {
      var r := db.rows[o];
      if r.status == PendingPayment {
        PutGrows(db, r.(status := target, url := ""), []);
        PutGrows(db, r.(status := CancelPending, url := "", reason := ReservationExpired), []);
      }
      if r.status == Paid {
        PutGrows(db, r.(status := StoreCancelPending, reason := StoreCancelled), []);
      }
      if r.status == PaymentConfirming {
        PutGrows(db, r.(status := CancelPending), []);
      }
    }
  }

  lemma FinishesGrow(db: Db, o: Id, at: Time, e: Event, r: Row, session: string, url: string)
    requires Keyed(db)
    ensures DbGrows(db, MarkPaidWithOutbox(db, o, at, e).0)
    ensures DbGrows(db, MarkCancelled(db, o, e).0)
    ensures DbGrows(db, CreateRow(db, r).0)
    ensures DbGrows(db, BindCheckout(db, o, session, url, at).0)
  {
    SameGrows(db);
    hide DbGrows;
    if r.id !in db.rows {
      PutGrows(db, r, []);
    }
    if o in db.rows {
      var s := db.rows[o];
      if s.status == PaymentConfirming {
        PutGrows(db, s.(status := Paid, paidAt := Some(at)), [e]);
      }
      if s.status == CancelPending || s.status == StoreCancelPending {
        PutGrows(db, s.(status := Cancelled), [e]);
      }
      if s.status == PendingPayment {
        PutGrows(db, s, []);
        PutGrows(db, s.(session := session, url := url), []);
      }
    }
  }

  lemma ClaimActGrows(w: World, a: Act)
    requires Keyed(w.db) && Enabled(w, a)
    requires a.ConfirmPayment? || a.CancelOrder? || a.ExpireOrder? || a.StoreCancel? || a.RejectPayment?
    ensures Grows(w, Do(w, a))
  {
    hide DbGrows, BeginTransition, BeginExpiry, BeginStoreCancellation, RejectPaymentConfirmation, Keyed;
    SameGrows(w.db);
    match a
    case ConfirmPayment(o) => ClaimsGrow(w.db, o, PaymentConfirming, 0);
    case CancelOrder(o) => ClaimsGrow(w.db, o, CancelPending, 0);
    case ExpireOrder(o, now) => ClaimsGrow(w.db, o, CancelPending, now);
    case StoreCancel(o) => ClaimsGrow(w.db, o, CancelPending, 0);
    case RejectPayment(th) => ClaimsGrow(w.db, th.order, CancelPending, 0);
  }

  lemma FinishActGrows(w: World, a: Act)
    requires Keyed(w.db) && Enabled(w, a)
    requires a.FinishPayment? || a.FinishCancellation? || a.FinishStoreCancellation? || a.SaveOrder? || a.Checkout?
    ensures Grows(w, Do(w, a))
  {
    hide DbGrows, MarkPaidWithOutbox, MarkCancelled, CreateRow, BindCheckout, Keyed;
    var none := Row(0, Cancelled, 0, 0, NoReason, None, "", "", 0, []);
    match a
    case FinishPayment(th, at) =>
      FinishesGrow(w.db, th.row.id, at, PlacedEvent(th.row.id, th.row.total, th.row.items, at), none, "", "");
    case FinishCancellation(th) =>
      FinishesGrow(w.db, th.row.id, 0, CancelledEvent(th.row.id, ReasonText(th.row.reason), None), none, "", "");
    case FinishStoreCancellation(th) =>
      FinishesGrow(w.db, th.row.id, 0, CancelledEvent(th.row.id, STORE_CANCELLED, PaidFactsOf(th.row)), none, "", "");
    case SaveOrder(th, total, items, now) =>
      FinishesGrow(w.db, 0, 0, CancelledEvent(0, "", None), NewRow(th, total, items), "", "");
    case Checkout(o, session, url, now) =>
      FinishesGrow(w.db, o, now, CancelledEvent(0, "", None), none, session, url);
  }

  lemma SameGrows(db: Db)
    ensures DbGrows(db, db)
  {
  }

  lemma ActGrows(w: World, a: Act)
    requires Inv(w) && Enabled(w, a)
    ensures Grows(w, Do(w, a))
  {
    hide Inv, DbGrows, Keyed, DeskTransition, DeskReturn, Answered, Serve;
    RowsAreKeyed(w);
    SameGrows(w.db);
    match a
    case ConfirmPayment(_) => ClaimActGrows(w, a);
    case CancelOrder(_) => ClaimActGrows(w, a);
    case ExpireOrder(_, _) => ClaimActGrows(w, a);
    case StoreCancel(_) => ClaimActGrows(w, a);
    case RejectPayment(_) => ClaimActGrows(w, a);
    case FinishPayment(_, _) => FinishActGrows(w, a);
    case FinishCancellation(_) => FinishActGrows(w, a);
    case FinishStoreCancellation(_) => FinishActGrows(w, a);
    case SaveOrder(_, _, _, _) => FinishActGrows(w, a);
    case Checkout(_, _, _, _) => FinishActGrows(w, a);
    case _ =>
  }

  lemma ActKeepsRecords(w: World, a: Act)
    requires Enabled(w, a)
    ensures RecordsStay(w.desk, Do(w, a).desk)
  {
    hide DeskServe, DeskTransition, DeskReturn, DeskHold, Answered, BeginTransition, BeginExpiry, BeginStoreCancellation,
         RejectPaymentConfirmation, MarkPaidWithOutbox, MarkCancelled, BindCheckout, CreateRow, RecordsStay, SortItems, ReasonText;
    SameRecords(w.desk, w.desk);
    match a
    case SweepHold(rid, t) => SameRecords(w.desk, Do(w, a).desk);
    case OtherInventory(news, t) => MoreRecords(w.desk, Do(w, a).desk, news);
    case DeliverReserve(th, rid, granted, t) =>
      ServeKeepsRecords(w.desk, Key(ReserveOp, th.key), HoldRequest(th.order, th.key, SortItems(th.items)),
                        Answered(rid, DeskHold(w.desk.holds, rid, granted)), t);
    case DeliverGiveUp(th, t) => ReleaseKeepsRecords(w.desk, th.order, th.rid, th.why, t);
    case DeliverConfirm(th, t) =>
      var o, rid := th.row.id, th.row.reservation;
      ServeKeepsRecords(w.desk, Key(ConfirmOp, ConfirmKey(o)), ChangeRequest(rid, o, ConfirmKey(o), ""),
                        Answered(rid, DeskTransition(w.desk.holds, rid, o, "", true, false, t)), t);
    case DeliverRelease(th, t) =>
      ReleaseKeepsRecords(w.desk, th.row.id, th.row.reservation, ReasonText(th.row.reason), t);
    case DeliverReturn(th, t) =>
      var o, rid := th.row.id, th.row.reservation;
      ServeKeepsRecords(w.desk, Key(ReturnOp, ReturnKey(o)), ChangeRequest(rid, o, ReturnKey(o), STORE_CANCELLED),
                        Answered(rid, DeskReturn(w.desk.holds, rid, o, STORE_CANCELLED, t)), t);
    case _ =>
  }

  lemma SameRecords(d: Desk, d': Desk)
    requires d'.table == d.table
    ensures RecordsStay(d, d')
  {
  }

  lemma MoreRecords(d: Desk, d': Desk, news: Table)
    requires d'.table == d.table + news && forall k | k in news :: k !in d.table
    ensures RecordsStay(d, d')
  {
  }

  lemma ReleaseKeepsRecords(d: Desk, o: Id, rid: Id, why: string, t: Time)
    ensures RecordsStay(d, DeskRelease(d, o, rid, why, t).0)
  {
    ServeKeepsRecords(d, Key(ReleaseOp, ReleaseKey(o)), ChangeRequest(rid, o, ReleaseKey(o), why),
                      Answered(rid, DeskTransition(d.holds, rid, o, why, false, false, t)), t);
  }

  /** Grows over several acts, where the outbox may gain more than one event. */
  ghost predicate Extends(w: World, w': World) {
    w.threads <= w'.threads && w.rejected <= w'.rejected && Prefix(w.db.outbox, w'.db.outbox) &&
    w.desk.clock <= w'.desk.clock && RecordsStay(w.desk, w'.desk) &&
    forall o | o in w.db.rows ::
      o in w'.db.rows && RowGrows(w.db.rows[o], w'.db.rows[o])
  }

  lemma ExtendsGrows(w: World, m: World, w': World)
    requires Extends(w, m) && Grows(m, w') && RecordsStay(m.desk, w'.desk)
    ensures Extends(w, w')
  {
  }

  lemma {:induction false} RunExtends(worlds: seq<World>, acts: seq<Act>, i: nat, j: nat)
    requires IsRun(worlds, acts) && i <= j < |worlds|
    ensures Extends(worlds[i], worlds[j])
  {
    hide *;
    RunLength(worlds, acts);
    if i < j {
      var n := j - 1;
      RunExtends(worlds, acts, i, n);
      RunStep(worlds, acts, n);
      EveryWorldSound(worlds, acts, n);
      ActGrows(worlds[n], acts[n]);
      ActKeepsRecords(worlds[n], acts[n]);
      ExtendsGrows(worlds[i], worlds[n], worlds[j]);
    } else {
      ExtendsItself(worlds[i]);
    }
  }

  lemma ExtendsItself(w: World)
    ensures Extends(w, w)
  {
  }

  // ----- refunds ------------------------------------------------------------

  lemma ConfirmRecordSells(d: Desk, o: Id, rid: Id)
    requires DeskSound(d) && rid in d.holds && d.holds[rid].order == o && Key(ConfirmOp, ConfirmKey(o)) in d.table
    ensures Sold(d.holds[rid])
  {
    assert RecordTrue(d, Key(ConfirmOp, ConfirmKey(o)));
  }

  lemma DeadStaysUnconfirmed(d: Desk, o: Id, rid: Id, x: Id, t: Time)
    requires DeskSound(d) && d.clock <= t && rid in d.holds && d.holds[rid].order == o && Dead(d.holds[rid], d.clock)
    ensures DeskConfirm(d, o, x, t).1.Err? && DeskConfirm(d, o, rid, t).1 == Err(WrongState)
  {
    assert OneHold(d.holds);
    hide DeskSound;
    var k := Key(ConfirmOp, ConfirmKey(o));
    if k in d.table {
      ConfirmRecordSells(d, o, rid);
    } else {
      DeskServeMeaning(d, k, ChangeRequest(x, o, ConfirmKey(o), ""),
                       Answered(x, DeskTransition(d.holds, x, o, "", true, false, t)), t);
      DeskServeMeaning(d, k, ChangeRequest(rid, o, ConfirmKey(o), ""),
                       Answered(rid, DeskTransition(d.holds, rid, o, "", true, false, t)), t);
    }
  }

  /** A refusal is final: once Inventory refuses to confirm an order's reservation, every
      confirmation of that order delivered later, or already in flight, is refused too. */
  lemma RefusalIsStable(worlds: seq<World>, acts: seq<Act>, i: nat, j: nat, x: Id, t: Time)
    requires IsRun(worlds, acts) && i < j < |worlds| && acts[i].DeliverConfirm? && worlds[j].desk.clock <= t
    requires var s := acts[i].th.row; DeskConfirm(worlds[i].desk, s.id, s.reservation, acts[i].t).1 == Err(WrongState)
    ensures DeskConfirm(worlds[j].desk, acts[i].th.row.id, x, t).1.Err?
    ensures acts[i].th.row.id in worlds[j].db.rows && worlds[j].db.rows[acts[i].th.row.id].status != Paid
  {
    hide Inv, DeskConfirm;
    var o := acts[i].th.row.id;
    assert GotRefusal(o) in worlds[i + 1].threads;
    RunExtends(worlds, acts, i + 1, j);
    EveryWorldSound(worlds, acts, j);
    InvThread(worlds[j], GotRefusal(o));
    InvDesk(worlds[j]);
    InvRow(worlds[j], o);
    DeadStaysUnconfirmed(worlds[j].desk, o, worlds[j].db.rows[o].reservation, x, t);
  }

  lemma RejectedIsVoid(w: World, o: Id)
    requires Inv(w) && o in w.rejected
    ensures o in w.db.rows && Void(w.db.rows[o])
  {
  }

  lemma PlacedIsPaid(w: World, e: Event)
    requires Inv(w) && e in w.db.outbox && e.PlacedEvent?
    ensures e.order in w.db.rows && !Void(w.db.rows[e.order])
  {
    assert EventTrue(w.db, e);
    InvRow(w, e.order);
  }

  /** Refunds are sound: an order for which Payment was told to refund has no order.placed
      event before or after that answer, in the whole run. */
  lemma RefundsAreSound(worlds: seq<World>, acts: seq<Act>, i: nat, j: nat, e: Event)
    requires IsRun(worlds, acts) && i < |worlds| && j < |worlds|
    requires e.PlacedEvent? && e.order in worlds[i].rejected
    ensures e !in worlds[j].db.outbox
  {
    hide IsRun, Inv;
    var m := if i <= j then j else i;
    RunExtends(worlds, acts, i, m);
    RunExtends(worlds, acts, j, m);
    EveryWorldSound(worlds, acts, m);
    RejectedIsVoid(worlds[m], e.order);
    if e in worlds[j].db.outbox {
      var n :| 0 <= n < |worlds[j].db.outbox| && worlds[j].db.outbox[n] == e;
      assert worlds[m].db.outbox[n] == worlds[m].db.outbox[..|worlds[j].db.outbox|][n];
      PlacedIsPaid(worlds[m], e);
    }
  }

  // ----- events -------------------------------------------------------------

  lemma {:induction false} CountFinds(outbox: seq<Event>, o: Id, placed: bool) returns (n: nat)
    requires Count(outbox, o, placed) > 0
    ensures n < |outbox| && outbox[n].order == o && outbox[n].PlacedEvent? == placed
  {
    var e := outbox[|outbox| - 1];
    if e.order == o && e.PlacedEvent? == placed {
      n := |outbox| - 1;
    } else {
      n := CountFinds(outbox[..|outbox| - 1], o, placed);
    }
  }

  lemma {:induction false} CountTwo(outbox: seq<Event>, o: Id, placed: bool, m: nat, n: nat)
    requires m < n < |outbox| && outbox[m].order == o && outbox[n].order == o
    requires outbox[m].PlacedEvent? == placed && outbox[n].PlacedEvent? == placed
    ensures Count(outbox, o, placed) >= 2
  {
    var front := outbox[..|outbox| - 1];
    if n == |outbox| - 1 {
      CountOne(front, o, placed, m);
    } else {
      CountTwo(front, o, placed, m, n);
    }
  }

  lemma {:induction false} CountOne(outbox: seq<Event>, o: Id, placed: bool, m: nat)
    requires m < |outbox| && outbox[m].order == o && outbox[m].PlacedEvent? == placed
    ensures Count(outbox, o, placed) >= 1
  {
    if m < |outbox| - 1 {
      CountOne(outbox[..|outbox| - 1], o, placed, m);
    }
  }

  /** At most one order.placed and at most one order.cancelled per order. */
  lemma EventsHappenOnce(worlds: seq<World>, acts: seq<Act>, i: nat, m: nat, n: nat)
    requires IsRun(worlds, acts) && i < |worlds| && m < n < |worlds[i].db.outbox|
    requires worlds[i].db.outbox[m].order == worlds[i].db.outbox[n].order
    ensures worlds[i].db.outbox[m].PlacedEvent? != worlds[i].db.outbox[n].PlacedEvent?
  {
    hide IsRun;
    EveryWorldSound(worlds, acts, i);
    var e := worlds[i].db.outbox[m];
    if e.PlacedEvent? == worlds[i].db.outbox[n].PlacedEvent? {
      CountTwo(worlds[i].db.outbox, e.order, e.PlacedEvent?, m, n);
    }
  }

  /** The order.placed event that the paid facts of an order.cancelled event repeat. */
  ghost predicate PlacedBefore(outbox: seq<Event>, n: nat, o: Id, f: PaidFacts) {
    exists m: nat :: m < n && m < |outbox| && outbox[m] == PlacedEvent(o, f.total, f.items, f.paidAt)
  }

  ghost predicate CancelledTellsPaid(outbox: seq<Event>, n: nat)
    requires n < |outbox| && outbox[n].CancelledEvent?
  {
    var e := outbox[n];
    match e.paid
    case Some(f) => PlacedBefore(outbox, n, e.order, f)
    case None => forall m: nat | m < |outbox| :: outbox[m].PlacedEvent? ==> outbox[m].order != e.order
  }

  lemma NewestTellsPaid(w: World, n: nat)
    requires Inv(w) && n == |w.db.outbox| - 1 && w.db.outbox[n].CancelledEvent? && w.db.outbox[n].paid.Some?
    ensures CancelledTellsPaid(w.db.outbox, n)
  {
    InvOutbox(w);
    hide Inv;
    var e := w.db.outbox[n];
    assert EventTrue(w.db, e);
    var m := CountFinds(w.db.outbox, e.order, true);
    assert EventTrue(w.db, w.db.outbox[m]);
    var f := e.paid.value;
    assert w.db.outbox[m] == PlacedEvent(e.order, f.total, f.items, f.paidAt);
  }

  lemma UnpaidTellsNone(w: World, n: nat)
    requires Inv(w) && n < |w.db.outbox| && w.db.outbox[n].CancelledEvent? && w.db.outbox[n].paid.None?
    ensures CancelledTellsPaid(w.db.outbox, n)
  {
    var o := w.db.outbox[n].order;
    assert EventTrue(w.db, w.db.outbox[n]);
    InvRow(w, o);
    forall m: nat | m < |w.db.outbox| && w.db.outbox[m].PlacedEvent? ensures w.db.outbox[m].order != o {
      assert EventTrue(w.db, w.db.outbox[m]);
    }
  }

  lemma TellingLasts(w: World, w': World, n: nat)
    requires Grows(w, w') && Inv(w') && n < |w'.db.outbox| && w'.db.outbox[n].CancelledEvent?
    requires n < |w.db.outbox| && w.db.outbox[n].CancelledEvent? ==> CancelledTellsPaid(w.db.outbox, n)
    ensures CancelledTellsPaid(w'.db.outbox, n)
  {
    var e := w'.db.outbox[n];
    if e.paid.None? {
      UnpaidTellsNone(w', n);
    } else if n < |w.db.outbox| {
      hide Inv;
      assert w.db.outbox[n] == w'.db.outbox[..|w.db.outbox|][n] == e;
      var f := e.paid.value;
      assert PlacedBefore(w.db.outbox, n, e.order, f);
      var m: nat :| m < n && m < |w.db.outbox| && w.db.outbox[m] == PlacedEvent(e.order, f.total, f.items, f.paidAt);
      assert w'.db.outbox[..|w.db.outbox|][m] == w'.db.outbox[m];
      assert PlacedBefore(w'.db.outbox, n, e.order, f);
    } else {
      hide Inv;
      NewestTellsPaid(w', n);
    }
  }

  /** order.cancelled carries the paid facts exactly when order.placed was written before
      it, and then repeats its total, items and time; otherwise there never is one. */
  lemma {:induction false} WasPaidExactlyWhenPlaced(worlds: seq<World>, acts: seq<Act>, i: nat, n: nat)
    requires IsRun(worlds, acts) && i < |worlds| && n < |worlds[i].db.outbox| && worlds[i].db.outbox[n].CancelledEvent?
    ensures CancelledTellsPaid(worlds[i].db.outbox, n)
  {
    hide Inv, Do, Enabled, Grows, CancelledTellsPaid;
    if i > 0 {
      if n < |worlds[i - 1].db.outbox| && worlds[i - 1].db.outbox[n].CancelledEvent? {
        WasPaidExactlyWhenPlaced(worlds, acts, i - 1, n);
      }
      EveryWorldSound(worlds, acts, i - 1);
      EveryWorldSound(worlds, acts, i);
      ActGrows(worlds[i - 1], acts[i - 1]);
      TellingLasts(worlds[i - 1], worlds[i], n);
    }
  }

  // ----- intents finish -----------------------------------------------------

  /** A release of this order was committed for another reason: the compensation of a
      placement that gave the reservation up. */
  ghost predicate GivenUp(d: Desk, o: Id) {
    var k := Key(ReleaseOp, ReleaseKey(o));
    k in d.table && d.table[k].request.ChangeRequest? &&
    (d.table[k].request.reason == RESPONSE_INVALID || d.table[k].request.reason == HOLD_EXPIRED)
  }

  lemma ReleaseWhileVoid(d: Desk, db: Db, o: Id, t: Time)
    requires DeskSound(d) && ReleasesExplained(d, db) && o in db.rows && RowHeld(d, db, o) && Void(db.rows[o])
    requires !Sold(d.holds[db.rows[o].reservation]) && d.clock <= t
    ensures var answer := DeskRelease(d, o, db.rows[o].reservation, ReasonText(db.rows[o].reason), t).1;
            if GivenUp(d, o) then answer == Err(Conflict) else answer.Ok?
  {
    var k := Key(ReleaseOp, ReleaseKey(o));
    var r := db.rows[o];
    var why := ReasonText(r.reason);
    DeskServeMeaning(d, k, ChangeRequest(r.reservation, o, ReleaseKey(o), why),
                     Answered(r.reservation, DeskTransition(d.holds, r.reservation, o, why, false, false, t)), t);
    if k in d.table {
      assert RecordTrue(d, k);
      assert ReasonText(r.reason) != RESPONSE_INVALID && ReasonText(r.reason) != HOLD_EXPIRED;
    }
  }

  /** In CANCEL_PENDING the release with the persisted reason is accepted or replayed,
      exactly unless a placement's give-up was committed under the same key. */
  lemma ReleaseAcceptedIff(worlds: seq<World>, acts: seq<Act>, i: nat, o: Id, t: Time)
    requires IsRun(worlds, acts) && i < |worlds| && worlds[i].desk.clock <= t
    requires o in worlds[i].db.rows && worlds[i].db.rows[o].status == CancelPending
    ensures var r := worlds[i].db.rows[o];
            DeskRelease(worlds[i].desk, o, r.reservation, ReasonText(r.reason), t).1.Ok? <==> !GivenUp(worlds[i].desk, o)
  {
    hide IsRun, Inv, GivenUp, DeskRelease;
    EveryWorldSound(worlds, acts, i);
    InvRow(worlds[i], o);
    InvDesk(worlds[i]);
    ReleaseWhileVoid(worlds[i].desk, worlds[i].db, o, t);
  }

  /** A cancellation intent never meets sold stock, now or later. */
  lemma CancellationStaysPossible(worlds: seq<World>, acts: seq<Act>, i: nat, j: nat, o: Id)
    requires IsRun(worlds, acts) && i <= j < |worlds| && o in worlds[i].db.rows && Void(worlds[i].db.rows[o])
    ensures o in worlds[j].db.rows && Void(worlds[j].db.rows[o]) && worlds[j].db.rows[o].reason == worlds[i].db.rows[o].reason
    ensures worlds[j].db.rows[o].reservation in worlds[j].desk.holds && !Sold(worlds[j].desk.holds[worlds[j].db.rows[o].reservation])
  {
    hide Inv, IsRun;
    RunExtends(worlds, acts, i, j);
    EveryWorldSound(worlds, acts, j);
    InvRow(worlds[j], o);
  }

  /** What the lifecycle worker does for a cancellation intent, when no reply is lost. */
  ghost function CancelAttempt(r: Row, t: Time): seq<Act> {
    [CancelOrder(r.id), DeliverRelease(AwaitRelease(r), t), FinishCancellation(GotRelease(r))]
  }

  ghost function StoreAttempt(r: Row, t: Time): seq<Act> {
    [ResumeStoreCancel(r.id), DeliverReturn(AwaitReturn(r), t), FinishStoreCancellation(GotReturn(r))]
  }

  ghost predicate Reaches(w: World, acts: seq<Act>, w': World)
    decreases |acts|
  {
    if acts == [] then w == w' else Enabled(w, acts[0]) && Reaches(Do(w, acts[0]), acts[1..], w')
  }

  lemma ThreeActs(w: World, a: Act, b: Act, c: Act)
    requires Enabled(w, a) && Enabled(Do(w, a), b) && Enabled(Do(Do(w, a), b), c)
    ensures Reaches(w, [a, b, c], Do(Do(Do(w, a), b), c))
  {
    hide Enabled, Do;
    var w1, w2 := Do(w, a), Do(Do(w, a), b);
    var w3 := Do(w2, c);
    assert [a, b, c][1..] == [b, c] && [b, c][1..] == [c] && [c][1..] == [];
    assert Reaches(w3, [], w3);
    assert Reaches(w2, [c], w3);
    assert Reaches(w1, [b, c], w3);
  }

  ghost function ReasonWords(reason: Reason): string {
    match reason
    case NoReason => "ORDER_CANCELLED"
    case ReservationExpired => "RESERVATION_EXPIRED"
    case StoreCancelled => "STORE_CANCELLED"
  }

  /** The order is cancelled, announced once with this reason and these paid facts, and no
      other row or event has changed. */
  ghost predicate EndsCancelled(w: World, w': World, o: Id, why: string, paid: Option<PaidFacts>) {
    o in w'.db.rows && w'.db.rows == w.db.rows[o := w'.db.rows[o]] && w'.db.rows[o].status == Cancelled && w'.db.rows[o].url == "" &&
    w'.db.outbox == w.db.outbox + [CancelledEvent(o, why, paid)]
  }

  /** Release and finish a claimed cancellation. */
  lemma ReleaseAndFinish(w: World, w1: World, r: Row, a: Act, t: Time) returns (w': World)
    requires Inv(w) && Enabled(w, a) && Do(w, a) == w1 && w1.db.rows == w.db.rows[r.id := r] && w1.db.outbox == w.db.outbox
    requires w1.desk == w.desk && AwaitRelease(r) in w1.threads && r.status == CancelPending && r.url == "" && w.desk.clock <= t
    requires r.id in w.db.rows && r.reservation == w.db.rows[r.id].reservation && !GivenUp(w.desk, r.id)
    ensures Reaches(w, [a, DeliverRelease(AwaitRelease(r), t), FinishCancellation(GotRelease(r))], w')
    ensures EndsCancelled(w, w', r.id, ReasonWords(r.reason), None)
  {
    hide Inv, DeskRelease, GivenUp, Do, Enabled, DeskSound, ReleasesExplained;
    ActKeeps(w, a);
    InvRow(w1, r.id);
    InvDesk(w1);
    ReleaseWhileVoid(w1.desk, w1.db, r.id, t);
    ReleaseDelivered(w1, r, t);
    var b, c := DeliverRelease(AwaitRelease(r), t), FinishCancellation(GotRelease(r));
    CancelFinished(Do(w1, b), r);
    ThreeActs(w, a, b, c);
    w' := Do(Do(w1, b), c);
  }

  lemma ReleaseDelivered(w: World, r: Row, t: Time)
    requires AwaitRelease(r) in w.threads && w.desk.clock <= t && DeskRelease(w.desk, r.id, r.reservation, ReasonText(r.reason), t).1.Ok?
    ensures var b := DeliverRelease(AwaitRelease(r), t);
            Enabled(w, b) && Do(w, b).db == w.db && GotRelease(r) in Do(w, b).threads
  {
    hide DeskRelease, ReasonText;
  }

  lemma CancelFinished(w: World, r: Row)
    requires GotRelease(r) in w.threads && r.id in w.db.rows && w.db.rows[r.id] == r && r.status == CancelPending
    ensures var c := FinishCancellation(GotRelease(r));
            Enabled(w, c) && Do(w, c).db.rows == w.db.rows[r.id := r.(status := Cancelled)] &&
            Do(w, c).db.outbox == w.db.outbox + [CancelledEvent(r.id, ReasonWords(r.reason), None)]
  {
  }

  /** One undisturbed attempt finishes a cancellation intent that was not given up. */
  lemma CancellationFinishes(w: World, o: Id, t: Time) returns (w': World)
    requires Inv(w) && o in w.db.rows && w.db.rows[o].status == CancelPending && w.desk.clock <= t && !GivenUp(w.desk, o)
    ensures Reaches(w, CancelAttempt(w.db.rows[o], t), w')
    ensures EndsCancelled(w, w', o, ReasonWords(w.db.rows[o].reason), None)
  {
    hide Inv, DeskRelease, GivenUp, EndsCancelled;
    var r := w.db.rows[o];
    InvRow(w, o);
    assert w.db.rows[o := r] == w.db.rows;
    w' := ReleaseAndFinish(w, Spawn(w, AwaitRelease(r)), r, CancelOrder(o), t);
  }

  /** A customer's cancellation of an unpaid order, undisturbed, ends with it cancelled. */
  lemma CustomerCancels(w: World, o: Id, t: Time) returns (w': World)
    requires Inv(w) && o in w.db.rows && w.db.rows[o].status == PendingPayment && w.desk.clock <= t && !GivenUp(w.desk, o)
    ensures var r := w.db.rows[o].(status := CancelPending, url := "");
            Reaches(w, [CancelOrder(o), DeliverRelease(AwaitRelease(r), t), FinishCancellation(GotRelease(r))], w')
    ensures EndsCancelled(w, w', o, "ORDER_CANCELLED", None)
  {
    hide Inv, DeskRelease, GivenUp, EndsCancelled;
    var r := w.db.rows[o].(status := CancelPending, url := "");
    InvRow(w, o);
    w' := ReleaseAndFinish(w, Spawn(w.(db := PutRow(w.db, r)), AwaitRelease(r)), r, CancelOrder(o), t);
  }

  /** The expiry worker, undisturbed, cancels an unpaid order whose hold has passed. */
  lemma OverdueIsCancelled(w: World, o: Id, now: Time, t: Time) returns (w': World)
    requires Inv(w) && o in w.db.rows && w.db.rows[o].status == PendingPayment && w.db.rows[o].holdExpiresAt <= now
    requires w.desk.clock <= t && !GivenUp(w.desk, o)
    ensures var r := w.db.rows[o].(status := CancelPending, url := "", reason := ReservationExpired);
            Reaches(w, [ExpireOrder(o, now), DeliverRelease(AwaitRelease(r), t), FinishCancellation(GotRelease(r))], w')
    ensures EndsCancelled(w, w', o, "RESERVATION_EXPIRED", None)
  {
    hide Inv, DeskRelease, GivenUp, EndsCancelled;
    var r := w.db.rows[o].(status := CancelPending, url := "", reason := ReservationExpired);
    InvRow(w, o);
    w' := ReleaseAndFinish(w, Spawn(w.(db := PutRow(w.db, r)), AwaitRelease(r)), r, ExpireOrder(o, now), t);
  }

  /** Return the stock and finish a store cancellation. */
  lemma ReturnAndFinish(w: World, w1: World, r: Row, a: Act, t: Time) returns (w': World)
    requires Inv(w) && Enabled(w, a) && Do(w, a) == w1 && w1.db.rows == w.db.rows[r.id := r] && w1.db.outbox == w.db.outbox
    requires w1.desk == w.desk && AwaitReturn(r) in w1.threads && r.status == StoreCancelPending && w.desk.clock <= t
    requires r.id in w.db.rows
    ensures DeskGiveBack(w.desk, r.id, r.reservation, t).1.Ok? && r.paidAt.Some?
    ensures Reaches(w, [a, DeliverReturn(AwaitReturn(r), t), FinishStoreCancellation(GotReturn(r))], w')
    ensures EndsCancelled(w, w', r.id, "STORE_CANCELLED", Some(PaidFacts(r.total, r.items, r.paidAt.value)))
  {
    hide Inv, DeskGiveBack, DeskSound, SagaSteps.Served, Do, Enabled, ReleasesExplained;
    ActKeeps(w, a);
    InvRow(w1, r.id);
    InvDesk(w1);
    ReturnServed(w1.desk, r.id, r.reservation, t);
    ReturnDelivered(w1, r, t);
    var b, c := DeliverReturn(AwaitReturn(r), t), FinishStoreCancellation(GotReturn(r));
    StoreCancelFinished(Do(w1, b), r);
    ThreeActs(w, a, b, c);
    w' := Do(Do(w1, b), c);
  }

  lemma ReturnDelivered(w: World, r: Row, t: Time)
    requires AwaitReturn(r) in w.threads && w.desk.clock <= t && DeskGiveBack(w.desk, r.id, r.reservation, t).1.Ok?
    ensures var b := DeliverReturn(AwaitReturn(r), t);
            Enabled(w, b) && Do(w, b).db == w.db && GotReturn(r) in Do(w, b).threads
  {
    hide DeskGiveBack;
  }

  lemma StoreCancelFinished(w: World, r: Row)
    requires GotReturn(r) in w.threads && r.id in w.db.rows && w.db.rows[r.id] == r && r.status == StoreCancelPending && r.paidAt.Some?
    ensures var c := FinishStoreCancellation(GotReturn(r));
            Enabled(w, c) && Do(w, c).db.rows == w.db.rows[r.id := r.(status := Cancelled)] &&
            Do(w, c).db.outbox == w.db.outbox + [CancelledEvent(r.id, "STORE_CANCELLED", Some(PaidFacts(r.total, r.items, r.paidAt.value)))]
  {
  }

  /** One undisturbed attempt always finishes a store cancellation: Inventory never
      refuses the return of a paid order. */
  lemma StoreCancellationFinishes(w: World, o: Id, t: Time) returns (w': World)
    requires Inv(w) && o in w.db.rows && w.db.rows[o].status == StoreCancelPending && w.desk.clock <= t
    ensures DeskGiveBack(w.desk, o, w.db.rows[o].reservation, t).1.Ok? && w.db.rows[o].paidAt.Some?
    ensures Reaches(w, StoreAttempt(w.db.rows[o], t), w')
    ensures var r := w.db.rows[o]; EndsCancelled(w, w', o, "STORE_CANCELLED", Some(PaidFacts(r.total, r.items, r.paidAt.value)))
  {
    hide Inv, DeskGiveBack, EndsCancelled;
    var r := w.db.rows[o];
    InvRow(w, o);
    assert w.db.rows[o := r] == w.db.rows;
    w' := ReturnAndFinish(w, Spawn(w, AwaitReturn(r)), r, ResumeStoreCancel(o), t);
  }

  /** The store's cancellation of a paid order, undisturbed, returns its stock and ends with
      it cancelled, carrying what was paid. */
  lemma StoreCancels(w: World, o: Id, t: Time) returns (w': World)
    requires Inv(w) && o in w.db.rows && w.db.rows[o].status == Paid && w.desk.clock <= t
    ensures var r := w.db.rows[o].(status := StoreCancelPending, reason := StoreCancelled);
            r.paidAt.Some? && Reaches(w, [StoreCancel(o), DeliverReturn(AwaitReturn(r), t), FinishStoreCancellation(GotReturn(r))], w') &&
            EndsCancelled(w, w', o, "STORE_CANCELLED", Some(PaidFacts(r.total, r.items, r.paidAt.value)))
  {
    hide Inv, DeskGiveBack, EndsCancelled;
    var r := w.db.rows[o].(status := StoreCancelPending, reason := StoreCancelled);
    InvRow(w, o);
    w' := ReturnAndFinish(w, Spawn(w.(db := PutRow(w.db, r)), AwaitReturn(r)), r, StoreCancel(o), t);
  }

  /** A payment callback from its claim on, when no reply is lost; Inventory refuses exactly
      when the hold is over. */
  ghost function PaymentAttempt(r: Row, dead: bool, t: Time, paidAt: Time): seq<Act> {
    [ConfirmPayment(r.id), DeliverConfirm(AwaitConfirm(r), t), PaymentEnd(r, dead, paidAt)]
  }

  ghost function PaymentEnd(r: Row, dead: bool, paidAt: Time): Act {
    if dead then RejectPayment(GotRefusal(r.id)) else FinishPayment(GotConfirm(r), paidAt)
  }

  /** Paid and announced with its total, items and paid time. */
  ghost predicate EndsPaid(w: World, w': World, r: Row, paidAt: Time) {
    w'.db.rows == w.db.rows[r.id := r.(status := Paid, url := "", paidAt := Some(paidAt))] && w'.rejected == w.rejected &&
    w'.db.outbox == w.db.outbox + [PlacedEvent(r.id, r.total, r.items, paidAt)]
  }

  /** A cancellation intent, the payment to be refunded and nothing announced. */
  ghost predicate EndsRefunded(w: World, w': World, o: Id) {
    o in w'.db.rows && w'.db.rows == w.db.rows[o := w'.db.rows[o]] && w'.db.rows[o].status == CancelPending &&
    w'.rejected == w.rejected + {o} && w'.db.outbox == w.db.outbox
  }

  /** One undisturbed attempt settles a payment, claimed or not yet: the order becomes paid,
      or, when its hold is over, it becomes a cancellation intent and is refunded. */
  lemma PaymentSettles(w: World, o: Id, t: Time, paidAt: Time) returns (w': World)
    requires Inv(w) && o in w.db.rows && w.desk.clock <= t
    requires w.db.rows[o].status == PaymentConfirming || w.db.rows[o].status == PendingPayment
    ensures w.db.rows[o].reservation in w.desk.holds && w.db.rows[o].id == o
    ensures Reaches(w, PaymentAttempt(w.db.rows[o].(status := PaymentConfirming, url := ""), Dead(w.desk.holds[w.db.rows[o].reservation], t), t, paidAt), w')
    ensures Dead(w.desk.holds[w.db.rows[o].reservation], t) ==> EndsRefunded(w, w', o)
    ensures !Dead(w.desk.holds[w.db.rows[o].reservation], t) ==> EndsPaid(w, w', w.db.rows[o].(status := PaymentConfirming, url := ""), paidAt)
  {
    InvRow(w, o);
    InvDesk(w);
    hide Inv, DeskConfirm, Do, Enabled, DeskSound, ReleasesExplained, Dead, PaymentEnd, EndsPaid, EndsRefunded;
    var r := w.db.rows[o].(status := PaymentConfirming, url := "");
    var dead := Dead(w.desk.holds[r.reservation], t);
    ConfirmWhileClaimed(w.desk, o, r.reservation, t);
    var a, b := ConfirmPayment(o), DeliverConfirm(AwaitConfirm(r), t);
    PaymentClaimed(w, o, r);
    var w1 := Do(w, a);
    ConfirmDelivered(w1, r, t);
    var w2 := Do(w1, b);
    var c := PaymentEnd(r, dead, paidAt);
    PaymentAnswered(w, w2, r, dead, paidAt);
    ThreeActs(w, a, b, c);
    w' := Do(w2, c);
  }

  lemma PaymentAnswered(w: World, w2: World, r: Row, dead: bool, paidAt: Time)
    requires w2.db.rows == w.db.rows[r.id := r] && w2.db.outbox == w.db.outbox && w2.rejected == w.rejected
    requires r.status == PaymentConfirming && r.url == "" && (if dead then GotRefusal(r.id) else GotConfirm(r)) in w2.threads
    ensures Enabled(w2, PaymentEnd(r, dead, paidAt))
    ensures dead ==> EndsRefunded(w, Do(w2, PaymentEnd(r, dead, paidAt)), r.id)
    ensures !dead ==> EndsPaid(w, Do(w2, PaymentEnd(r, dead, paidAt)), r, paidAt)
  {
    hide Do, Enabled;
    if dead {
      PaymentRejected(w2, r.id);
    } else {
      PaymentFinished(w2, r, paidAt);
    }
  }

  lemma PaymentClaimed(w: World, o: Id, r: Row)
    requires o in w.db.rows && w.db.rows[o].id == o && r == w.db.rows[o].(status := PaymentConfirming, url := "")
    requires w.db.rows[o].status == PendingPayment || (w.db.rows[o].status == PaymentConfirming && w.db.rows[o].url == "")
    ensures var a := ConfirmPayment(o);
            Enabled(w, a) && Do(w, a).db.rows == w.db.rows[o := r] && Do(w, a).db.outbox == w.db.outbox && Do(w, a).desk == w.desk &&
            AwaitConfirm(r) in Do(w, a).threads && Do(w, a).rejected == w.rejected
  {
    assert w.db.rows[o].status == PaymentConfirming ==> r == w.db.rows[o] && w.db.rows[o := r] == w.db.rows;
  }

  lemma ConfirmDelivered(w: World, r: Row, t: Time)
    requires AwaitConfirm(r) in w.threads && w.desk.clock <= t
    requires DeskConfirm(w.desk, r.id, r.reservation, t).1.Ok? || DeskConfirm(w.desk, r.id, r.reservation, t).1 == Err(WrongState)
    ensures var b := DeliverConfirm(AwaitConfirm(r), t);
            Enabled(w, b) && Do(w, b).db == w.db && Do(w, b).rejected == w.rejected &&
            if DeskConfirm(w.desk, r.id, r.reservation, t).1.Ok? then GotConfirm(r) in Do(w, b).threads else GotRefusal(r.id) in Do(w, b).threads
  {
    hide DeskConfirm;
  }

  lemma PaymentRejected(w: World, o: Id)
    requires GotRefusal(o) in w.threads && o in w.db.rows && w.db.rows[o].id == o && w.db.rows[o].status == PaymentConfirming
    ensures var c := RejectPayment(GotRefusal(o));
            Enabled(w, c) && EndsRefunded(w, Do(w, c), o)
  {
  }

  lemma PaymentFinished(w: World, r: Row, paidAt: Time)
    requires GotConfirm(r) in w.threads && r.id in w.db.rows && w.db.rows[r.id] == r && r.status == PaymentConfirming && r.url == ""
    ensures var c := FinishPayment(GotConfirm(r), paidAt);
            Enabled(w, c) && EndsPaid(w, Do(w, c), r, paidAt)
  {
  }

  lemma ConfirmWhileClaimed(d: Desk, o: Id, rid: Id, t: Time)
    requires DeskSound(d) && d.clock <= t && rid in d.holds && d.holds[rid].order == o && d.holds[rid].status != RETURNED
    ensures var answer := DeskConfirm(d, o, rid, t).1;
            if Dead(d.holds[rid], t) then answer == Err(WrongState) else answer.Ok?
  {
    var k := Key(ConfirmOp, ConfirmKey(o));
    DeskServeMeaning(d, k, ChangeRequest(rid, o, ConfirmKey(o), ""),
                     Answered(rid, DeskTransition(d.holds, rid, o, "", true, false, t)), t);
    if k in d.table {
      assert RecordTrue(d, k);
    }
  }

  // ----- and no refund is forgotten -----------------------------------------

  lemma TwoActs(w: World, a: Act, b: Act)
    requires Enabled(w, a) && Enabled(Do(w, a), b)
    ensures Reaches(w, [a, b], Do(Do(w, a), b))
  {
    hide Enabled, Do;
    var w1, w2 := Do(w, a), Do(Do(w, a), b);
    assert [a, b][1..] == [b] && [b][1..] == [];
    assert Reaches(w2, [], w2);
    assert Reaches(w1, [b], w2);
  }

  /** In every reachable world the refund decision answers PAYMENT_REJECTED exactly for an
      order that is being or was cancelled without ever being paid. */
  lemma RefundIsDecidedExactly(worlds: seq<World>, acts: seq<Act>, i: nat, th: Thread)
    requires IsRun(worlds, acts) && i < |worlds| && Enabled(worlds[i], DecideRefund(th))
    ensures var w, o := worlds[i], th.order;
            Do(w, DecideRefund(th)).rejected == w.rejected + if o in w.db.rows && Void(w.db.rows[o]) then {o} else {}
  {
    hide IsRun;
    EveryWorldSound(worlds, acts, i);
    if th.order in worlds[i].db.rows {
      InvRow(worlds[i], th.order);
    }
    hide Inv;
  }

  /** A payment callback for an order that is being or was cancelled unpaid, undisturbed, is
      told to refund. */
  lemma LatePaymentIsRefunded(worlds: seq<World>, acts: seq<Act>, i: nat, o: Id) returns (w': World)
    requires IsRun(worlds, acts) && i < |worlds| && o in worlds[i].db.rows && Void(worlds[i].db.rows[o])
    ensures Reaches(worlds[i], [ConfirmPayment(o), DecideRefund(AboutToDecide(o))], w') && o in w'.rejected && w'.db == worlds[i].db
  {
    hide IsRun;
    EveryWorldSound(worlds, acts, i);
    var w := worlds[i];
    InvRow(w, o);
    hide Inv;
    var a, b := ConfirmPayment(o), DecideRefund(AboutToDecide(o));
    TwoActs(w, a, b);
    w' := Do(Do(w, a), b);
  }

  /** Whoever received a refusal from Inventory gets the payment refunded, whatever happened
      since; the order is then a cancellation. */
  lemma RefusedPaymentIsRefunded(worlds: seq<World>, acts: seq<Act>, i: nat, th: Thread)
    requires IsRun(worlds, acts) && i < |worlds| && Enabled(worlds[i], RejectPayment(th))
    ensures var w' := Do(worlds[i], RejectPayment(th));
            w'.rejected == worlds[i].rejected + {th.order} && th.order in w'.db.rows && Void(w'.db.rows[th.order])
  {
    hide *;
    EveryWorldSound(worlds, acts, i);
    var w := worlds[i];
    RefusalIsDead(w, th);
    RejectAnswers(w, th);
  }

  lemma RefusalIsDead(w: World, th: Thread)
    requires Inv(w) && Enabled(w, RejectPayment(th))
    ensures th.GotRefusal? && th in w.threads && th.order in w.db.rows && w.db.rows[th.order].id == th.order
    ensures w.db.rows[th.order].status == PaymentConfirming || Void(w.db.rows[th.order])
    ensures w.db.rows[th.order].status == PaymentConfirming ==> w.db.rows[th.order].reason == NoReason
  {
    hide Inv;
    InvThread(w, th);
    InvRow(w, th.order);
  }

  lemma RejectAnswers(w: World, th: Thread)
    requires th.GotRefusal? && th in w.threads && th.order in w.db.rows && w.db.rows[th.order].id == th.order
    requires w.db.rows[th.order].status == PaymentConfirming || Void(w.db.rows[th.order])
    requires w.db.rows[th.order].status == PaymentConfirming ==> w.db.rows[th.order].reason == NoReason
    ensures var w' := Do(w, RejectPayment(th));
            w'.rejected == w.rejected + {th.order} && th.order in w'.db.rows && Void(w'.db.rows[th.order])
  {
  }

  // ----- placing an order ---------------------------------------------------

  /** No order is saved on a hold that the placement already sees as over. */
  lemma SavedInTime(worlds: seq<World>, acts: seq<Act>, i: nat, o: Id)
    requires IsRun(worlds, acts) && i < |acts| && acts[i].SaveOrder? && o !in worlds[i].db.rows && o in worlds[i + 1].db.rows
    ensures acts[i].now < worlds[i + 1].db.rows[o].holdExpiresAt && worlds[i + 1].db.rows[o].status == PendingPayment
    ensures acts[i].th in worlds[i].threads && acts[i].th == GotHold(o, worlds[i + 1].db.rows[o].reservation, worlds[i + 1].db.rows[o].holdExpiresAt)
  {
    RunStep(worlds, acts, i);
    hide IsRun;
  }

  /** One undisturbed placement with a new key and stock for it saves a pending order that
      points to its reservation. */
  lemma PlacementSaves(w: World, order: Id, key: Id, asked: seq<Item>, rid: Id, hold: Reservation, t: Time,
                       total: int, items: seq<Item>, now: Time) returns (w': World)
    requires order != NIL && w.desk.clock <= t && rid !in w.desk.holds && Grantable(w.desk.holds, order, hold)
    requires Key(ReserveOp, key) !in w.desk.table && order !in w.db.rows && now < hold.expiresAt
    ensures Reaches(w, [PlaceOrder(order, key, asked), DeliverReserve(AwaitHold(order, key, asked), rid, Ok(hold), t),
                        SaveOrder(GotHold(order, rid, hold.expiresAt), total, items, now)], w')
    ensures w'.db.outbox == w.db.outbox &&
            w'.db.rows == w.db.rows[order := Row(order, PendingPayment, rid, hold.expiresAt, NoReason, None, "", "", total, items)] &&
            w'.desk.holds == w.desk.holds[rid := hold]
  {
    hide SortItems;
    var th := AwaitHold(order, key, asked);
    var a, b, c := PlaceOrder(order, key, asked), DeliverReserve(th, rid, Ok(hold), t), SaveOrder(GotHold(order, rid, hold.expiresAt), total, items, now);
    var w1 := Do(w, a);
    DeskServeMeaning(w1.desk, Key(ReserveOp, key), HoldRequest(order, key, SortItems(asked)),
                     Answered(rid, DeskHold(w1.desk.holds, rid, Ok(hold))), t);
    ThreeActs(w, a, b, c);
    w' := Do(Do(w1, b), c);
  }
}
