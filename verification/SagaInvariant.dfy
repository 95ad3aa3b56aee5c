/** What every reachable world of the order saga satisfies. */
module SagaInvariant {
  import opened Ordering
  import opened InventoryModel
  import opened Idempotency
  import opened InventoryStore
  import opened OrderRows
  import opened Saga

  // ----- holds --------------------------------------------------------------

  ghost predicate Over(h: Reservation) {
    h.status == RELEASED || h.status == EXPIRED
  }

  ghost predicate Sold(h: Reservation) {
    h.status == CONFIRMED || h.status == RETURNED
  }

  /** No confirmation of this hold can succeed any more. */
  ghost predicate Dead(h: Reservation, clock: Time) {
    Over(h) || (h.status == ACTIVE && h.expiresAt <= clock)
  }

  ghost predicate Records(d: Desk, k: Key, key: Id)
    requires k in d.table
  {
    var rec := d.table[k];
    rec.request.ChangeRequest? && rec.request.reservation in d.holds &&
    d.holds[rec.request.reservation].order == rec.request.order &&
    rec.request.key == k.key && k.key == key
  }

  /** A committed answer stays true of the reservation it was about. */
  ghost predicate RecordTrue(d: Desk, k: Key)
    requires k in d.table
  {
    var rec := d.table[k];
    match k.op
    case ReserveOp =>
      rec.request.HoldRequest? && rec.response.HoldResponse? && rec.response.id in d.holds &&
      d.holds[rec.response.id].order == rec.request.order
    case ConfirmOp =>
      rec.request.ChangeRequest? && Records(d, k, ConfirmKey(rec.request.order)) && rec.request.reason == "" &&
      Sold(d.holds[rec.request.reservation])
    case ReleaseOp =>
      rec.request.ChangeRequest? && Records(d, k, ReleaseKey(rec.request.order)) &&
      Over(d.holds[rec.request.reservation])
    case ReturnOp =>
      rec.request.ChangeRequest? && Records(d, k, ReturnKey(rec.request.order)) &&
      rec.request.reason == STORE_CANCELLED && d.holds[rec.request.reservation].status == RETURNED
    case _ => true
  }

  ghost predicate OneHold(holds: Holds) {
    forall x, y | x in holds && y in holds && holds[x].order == holds[y].order :: x == y
  }

  /** Only the confirm request of its own order sells a hold, and its record stays. */
  ghost predicate SalesRecorded(d: Desk) {
    forall x | x in d.holds && Sold(d.holds[x]) :: Key(ConfirmOp, ConfirmKey(d.holds[x].order)) in d.table
  }

  ghost predicate DeskSound(d: Desk) {
    OneHold(d.holds) && SalesRecorded(d) && forall k | k in d.table :: RecordTrue(d, k)
  }

  // ----- orders -------------------------------------------------------------

  /** The order is being or was cancelled without ever being paid. */
  ghost predicate Void(r: Row) {
    r.status == CancelPending || (r.status == Cancelled && r.reason != StoreCancelled)
  }

  ghost predicate RowSound(r: Row, h: Reservation) {
    (r.status == Paid ==> h.status == CONFIRMED) &&
    (r.status == StoreCancelPending ==> Sold(h)) &&
    (r.status == Cancelled && r.reason == StoreCancelled ==> h.status == RETURNED) &&
    (r.status == Cancelled && r.reason != StoreCancelled ==> Over(h)) &&
    (r.status == CancelPending || r.status == PendingPayment ==> !Sold(h)) &&
    (r.status == PaymentConfirming ==> h.status != RETURNED) &&
    (r.paidAt.Some? <==> WasPaid(r)) &&
    (r.status == StoreCancelPending ==> r.reason == StoreCancelled) &&
    (r.status == CancelPending ==> r.reason != StoreCancelled) &&
    (r.status == PendingPayment || r.status == PaymentConfirming || r.status == Paid ==> r.reason == NoReason) &&
    (r.url != "" ==> r.status == PendingPayment)
  }

  ghost predicate RowHeld(d: Desk, db: Db, o: Id)
    requires o in db.rows
  {
    db.rows[o].id == o && db.rows[o].reservation in d.holds && d.holds[db.rows[o].reservation].order == o
  }

  ghost predicate RowsSound(d: Desk, db: Db) {
    forall o | o in db.rows :: RowHeld(d, db, o) && RowSound(db.rows[o], d.holds[db.rows[o].reservation])
  }

  /** Sold stock always belongs to an order that is paid or being paid. */
  ghost predicate SalesOwned(d: Desk, db: Db) {
    forall x | x in d.holds && Sold(d.holds[x]) :: d.holds[x].order in db.rows
  }

  // ----- threads ------------------------------------------------------------

  ghost predicate SameTerms(r: Row, s: Row) {
    r.id == s.id && r.reservation == s.reservation && r.total == s.total && r.items == s.items
  }

  ghost predicate Tracks(d: Desk, db: Db, s: Row) {
    s.id in db.rows && RowHeld(d, db, s.id) && SameTerms(db.rows[s.id], s)
  }

  ghost predicate ThreadSound(d: Desk, db: Db, th: Thread) {
    match th
    case AwaitHold(order, _, _) => order != NIL
    case GotHold(order, rid, _) => order != NIL && rid in d.holds && d.holds[rid].order == order
    case AwaitGiveUp(order, rid, why) =>
      rid in d.holds && d.holds[rid].order == order && (why == RESPONSE_INVALID || why == HOLD_EXPIRED)
    case AwaitConfirm(s) =>
      Tracks(d, db, s) && db.rows[s.id].status != PendingPayment &&
      (Void(db.rows[s.id]) ==> Dead(d.holds[s.reservation], d.clock))
    case GotConfirm(s) => Tracks(d, db, s) && Sold(d.holds[s.reservation])
    case GotRefusal(o) =>
      o in db.rows && RowHeld(d, db, o) && db.rows[o].status != PendingPayment && Dead(d.holds[db.rows[o].reservation], d.clock)
    case AboutToDecide(o) => true
    case AwaitRelease(s) => Tracks(d, db, s) && Void(db.rows[s.id]) && db.rows[s.id].reason == s.reason
    case GotRelease(s) =>
      Tracks(d, db, s) && Void(db.rows[s.id]) && db.rows[s.id].reason == s.reason && Over(d.holds[s.reservation])
    case AwaitReturn(s) =>
      Tracks(d, db, s) && WasPaid(db.rows[s.id]) && db.rows[s.id].reason == StoreCancelled &&
      db.rows[s.id].paidAt == s.paidAt
    case GotReturn(s) =>
      Tracks(d, db, s) && WasPaid(db.rows[s.id]) && db.rows[s.id].reason == StoreCancelled &&
      db.rows[s.id].paidAt == s.paidAt && d.holds[s.reservation].status == RETURNED
  }

  ghost predicate ThreadsSound(d: Desk, db: Db, threads: set<Thread>) {
    forall th | th in threads :: ThreadSound(d, db, th)
  }

  // ----- the outbox and the answers to Payment ------------------------------

  ghost predicate EventTrue(db: Db, e: Event) {
    e.order in db.rows &&
    var r := db.rows[e.order];
    match e
    case PlacedEvent(_, total, items, at) => total == r.total && items == r.items && r.paidAt == Some(at)
    case CancelledEvent(_, why, paid) =>
      r.status == Cancelled && why == ReasonText(r.reason) &&
      paid == if r.reason == StoreCancelled then PaidFactsOf(r) else None
  }

  ghost predicate OutboxSound(db: Db) {
    (forall e | e in db.outbox :: EventTrue(db, e)) &&
    forall o: Id ::
      Count(db.outbox, o, true) == (if o in db.rows && db.rows[o].paidAt.Some? then 1 else 0) &&
      Count(db.outbox, o, false) == (if o in db.rows && db.rows[o].status == Cancelled then 1 else 0)
  }

  ghost predicate RejectedSound(db: Db, rejected: set<Id>) {
    forall o | o in rejected :: o in db.rows && Void(db.rows[o])
  }

  /** A release committed under an order's release key came from a give-up while the
      order was being placed, or carries the reason persisted in the order's row. */
  ghost predicate ReleasesExplained(d: Desk, db: Db) {
    forall o: Id | Key(ReleaseOp, ReleaseKey(o)) in d.table ::
      var q := d.table[Key(ReleaseOp, ReleaseKey(o))].request;
      q.ChangeRequest? &&
      (q.reason == RESPONSE_INVALID || q.reason == HOLD_EXPIRED ||
        (o in db.rows && Void(db.rows[o]) && q.reason == ReasonText(db.rows[o].reason)))
  }

  ghost predicate Inv(w: World) {
    DeskSound(w.desk) && RowsSound(w.desk, w.db) && SalesOwned(w.desk, w.db) &&
    ThreadsSound(w.desk, w.db, w.threads) && OutboxSound(w.db) && RejectedSound(w.db, w.rejected) &&
    ReleasesExplained(w.desk, w.db)
  }

  lemma InvDesk(w: World)
    requires Inv(w)
    ensures DeskSound(w.desk) && ReleasesExplained(w.desk, w.db)
  {
  }

  lemma InvThread(w: World, th: Thread)
    requires Inv(w) && th in w.threads
    ensures ThreadSound(w.desk, w.db, th)
  {
  }

  lemma InvRow(w: World, o: Id)
    requires Inv(w) && o in w.db.rows
    ensures RowHeld(w.desk, w.db, o) && RowSound(w.db.rows[o], w.desk.holds[w.db.rows[o].reservation])
  {
  }

  // ----- changes at Inventory -----------------------------------------------

  ghost predicate HoldMoves(h: Reservation, h': Reservation, t: Time) {
    h'.order == h.order && h'.expiresAt == h.expiresAt &&
    (h'.status == h.status ||
      (h.status == ACTIVE && Over(h')) ||
      (h.status == ACTIVE && h.expiresAt > t && h'.status == CONFIRMED) ||
      (h.status == CONFIRMED && h'.status == RETURNED))
  }

  ghost predicate DeskMoves(d: Desk, d': Desk) {
    d.clock <= d'.clock && forall x | x in d.holds :: x in d'.holds && HoldMoves(d.holds[x], d'.holds[x], d'.clock)
  }

  /** Stock is sold only to an order claiming payment and returned only by a paid one. */
  ghost predicate Licensed(d: Desk, d': Desk, db: Db) {
    forall x | x in d'.holds ::
      var o := d'.holds[x].order;
      (Sold(d'.holds[x]) ==> x in d.holds) &&
      (Sold(d'.holds[x]) && !Sold(d.holds[x]) ==> o in db.rows && db.rows[o].status == PaymentConfirming) &&
      (d'.holds[x].status == RETURNED && d.holds[x].status != RETURNED ==> o in db.rows && WasPaid(db.rows[o]) && db.rows[o].status != Paid)
  }

  lemma ThreadSurvivesDesk(d: Desk, d': Desk, db: Db, th: Thread)
    requires ThreadSound(d, db, th) && DeskMoves(d, d')
    ensures ThreadSound(d', db, th)
  {
  }

  lemma DeskChangeKeeps(w: World, d': Desk)
    requires Inv(w) && DeskMoves(w.desk, d') && Licensed(w.desk, d', w.db) && DeskSound(d') && ReleasesExplained(d', w.db)
    ensures Inv(w.(desk := d'))
  {
    forall th | th in w.threads ensures ThreadSound(d', w.db, th) {
      ThreadSurvivesDesk(w.desk, d', w.db, th);
    }
  }

  // ----- changes of one row -------------------------------------------------

  /** The row changes the repository can make, given the hold of the order. */
  ghost predicate RowMoves(r: Row, r': Row, h: Reservation, clock: Time) {
    SameTerms(r, r') &&
    (r'.status != PendingPayment || r.status == PendingPayment) &&
    (Void(r) ==> Void(r') && r'.reason == r.reason) &&
    (Void(r') && !Void(r) && r.status != PendingPayment ==> Dead(h, clock)) &&
    (WasPaid(r) ==> WasPaid(r') && r'.paidAt == r.paidAt) &&
    (r.reason == StoreCancelled ==> r'.reason == StoreCancelled) &&
    (r.status == Cancelled ==> r'.status == Cancelled && r'.reason == r.reason) &&
    (r.paidAt.Some? ==> r'.paidAt == r.paidAt)
  }

  lemma ThreadSurvivesRow(d: Desk, db: Db, db': Db, o: Id, th: Thread)
    requires ThreadSound(d, db, th) && o in db.rows && RowHeld(d, db, o)
    requires o in db'.rows && db'.rows == db.rows[o := db'.rows[o]]
    requires RowMoves(db.rows[o], db'.rows[o], d.holds[db.rows[o].reservation], d.clock)
    ensures ThreadSound(d, db', th)
  {
  }

  lemma RowChangeKeeps(w: World, o: Id, db': Db)
    requires Inv(w) && o in w.db.rows && o in db'.rows && db'.rows == w.db.rows[o := db'.rows[o]]
    requires RowMoves(w.db.rows[o], db'.rows[o], w.desk.holds[w.db.rows[o].reservation], w.desk.clock)
    requires RowSound(db'.rows[o], w.desk.holds[w.db.rows[o].reservation])
    requires OutboxSound(db')
    ensures Inv(w.(db := db'))
  {
    assert ThreadsSound(w.desk, db', w.threads) by {
      forall th | th in w.threads ensures ThreadSound(w.desk, db', th) {
        ThreadSurvivesRow(w.desk, w.db, db', o, th);
      }
    }
    hide ThreadsSound, OutboxSound, DeskSound, ReleasesExplained;
    assert ReleasesExplained(w.desk, db') by {
      ReleasesSurviveRow(w.desk, w.db, db', o);
    }
  }

  lemma ReleasesSurviveRow(d: Desk, db: Db, db': Db, o: Id)
    requires ReleasesExplained(d, db) && o in db.rows && o in db'.rows && db'.rows == db.rows[o := db'.rows[o]]
    requires Void(db.rows[o]) ==> Void(db'.rows[o]) && db'.rows[o].reason == db.rows[o].reason
    ensures ReleasesExplained(d, db')
  {
  }

  lemma SpawnKeeps(w: World, th: Thread)
    requires Inv(w) && ThreadSound(w.desk, w.db, th)
    ensures Inv(Spawn(w, th))
  {
  }

  lemma StartHolds()
    ensures Inv(START)
  {
  }
}
