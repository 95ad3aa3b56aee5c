/** Every act of the saga keeps the invariant. */
module SagaSteps {
  import opened Ordering
  import opened InventoryModel
  import opened Idempotency
  import opened InventoryStore
  import opened OrderRows
  import opened Saga
  import opened SagaInvariant

  // ----- one request at Inventory -------------------------------------------

  lemma DeskServeMeaning(d: Desk, key: Key, request: Request, effect: Result<(Holds, Response)>, t: Time)
    ensures var (d', answer) := DeskServe(d, key, request, effect, t);
            d'.clock == t &&
            (key in d.table ==> d'.holds == d.holds && d'.table == d.table) &&
            (key in d.table ==> answer == if d.table[key].request == request then Ok(d.table[key].response) else Err(Conflict)) &&
            (key !in d.table && effect.Err? ==> d'.holds == d.holds && d'.table == d.table && answer == Err(effect.error)) &&
            (key !in d.table && effect.Ok? ==> d'.holds == effect.value.0 && answer == Ok(effect.value.1)) &&
            (key !in d.table && effect.Ok? ==> d'.table == d.table[key := Record(request, effect.value.1)])
  {
    var rest := [key][1..];
    assert rest == [];
    ClaimMeaning(d.table, [key], request, None);
    if key in d.table {
      var saved := d.table[key];
      assert Claim(d.table, rest, request, Some(saved.response)) == Ok(Some(saved.response));
      assert Bind(d.table, [key], Record(request, saved.response)) == Bind(d.table, rest, Record(request, saved.response));
    } else if effect.Ok? {
      var rec := Record(request, effect.value.1);
      assert Bind(d.table, [key], rec) == Bind(d.table[key := rec], rest, rec);
    }
  }

  lemma RecordSurvives(d: Desk, d': Desk, k: Key)
    requires k in d.table && RecordTrue(d, k) && DeskMoves(d, d') && k in d'.table && d'.table[k] == d.table[k]
    ensures RecordTrue(d', k)
  {
  }

  /** One request changes at most one hold and adds at most its own record. */
  ghost predicate Served(d: Desk, d': Desk, k: Key) {
    DeskMoves(d, d') && OneHold(d'.holds) &&
    (d'.table == d.table || (k !in d.table && k in d'.table && d'.table == d.table[k := d'.table[k]] && RecordTrue(d', k))) &&
    (forall x | x in d'.holds && Sold(d'.holds[x]) ::
      (x in d.holds && Sold(d.holds[x])) || (k == Key(ConfirmOp, ConfirmKey(d'.holds[x].order)) && k in d'.table))
  }

  lemma ServedSound(d: Desk, d': Desk, k: Key)
    requires DeskSound(d) && Served(d, d', k)
    ensures DeskSound(d')
  {
    forall x | x in d'.table ensures RecordTrue(d', x) {
      if x in d.table {
        RecordSurvives(d, d', x);
      }
    }
  }

  lemma ConfirmServed(d: Desk, o: Id, rid: Id, t: Time)
    requires DeskSound(d) && d.clock <= t && rid in d.holds && d.holds[rid].order == o
    ensures var (d', answer) := DeskConfirm(d, o, rid, t);
            Served(d, d', Key(ConfirmOp, ConfirmKey(o))) && d'.clock == t &&
            (forall x | x in d'.holds :: x in d.holds && (d'.holds[x] == d.holds[x] || (x == rid && !Sold(d.holds[x]) && d.holds[x].status == ACTIVE && d.holds[x].expiresAt > t))) &&
            (answer.Ok? ==> Sold(d'.holds[rid])) &&
            (answer == Err(WrongState) ==> Dead(d.holds[rid], t) && d'.holds == d.holds)
  {
    var k := Key(ConfirmOp, ConfirmKey(o));
    var effect := Answered(rid, DeskTransition(d.holds, rid, o, "", true, false, t));
    DeskServeMeaning(d, k, ChangeRequest(rid, o, ConfirmKey(o), ""), effect, t);
    if k in d.table {
      assert RecordTrue(d, k);
    }
  }

  lemma ReleaseServed(d: Desk, o: Id, rid: Id, why: string, t: Time)
    requires DeskSound(d) && d.clock <= t && rid in d.holds && d.holds[rid].order == o
    ensures var (d', answer) := DeskRelease(d, o, rid, why, t);
            Served(d, d', Key(ReleaseOp, ReleaseKey(o))) && d'.clock == t &&
            (forall x | x in d'.holds :: x in d.holds && (d'.holds[x] == d.holds[x] || (x == rid && Over(d'.holds[x])))) &&
            (answer.Ok? ==> Over(d'.holds[rid])) &&
            (d'.table != d.table ==> d'.table[Key(ReleaseOp, ReleaseKey(o))].request == ChangeRequest(rid, o, ReleaseKey(o), why))
  {
    var k := Key(ReleaseOp, ReleaseKey(o));
    var effect := Answered(rid, DeskTransition(d.holds, rid, o, why, false, false, t));
    DeskServeMeaning(d, k, ChangeRequest(rid, o, ReleaseKey(o), why), effect, t);
    if k in d.table {
      assert RecordTrue(d, k);
    }
  }

  lemma ReturnServed(d: Desk, o: Id, rid: Id, t: Time)
    requires DeskSound(d) && d.clock <= t && rid in d.holds && d.holds[rid].order == o
    ensures var (d', answer) := DeskGiveBack(d, o, rid, t);
            Served(d, d', Key(ReturnOp, ReturnKey(o))) && d'.clock == t &&
            (forall x | x in d'.holds :: x in d.holds && (d'.holds[x] == d.holds[x] || x == rid)) &&
            (answer.Ok? ==> d'.holds[rid].status == RETURNED) &&
            (Sold(d.holds[rid]) ==> answer.Ok?)
  {
    var k := Key(ReturnOp, ReturnKey(o));
    var effect := Answered(rid, DeskReturn(d.holds, rid, o, STORE_CANCELLED, t));
    DeskServeMeaning(d, k, ChangeRequest(rid, o, ReturnKey(o), STORE_CANCELLED), effect, t);
    if k in d.table {
      assert RecordTrue(d, k);
    }
  }

  lemma ReserveServed(d: Desk, o: Id, key: Id, items: seq<Item>, rid: Id, granted: Result<Reservation>, t: Time)
    requires DeskSound(d) && d.clock <= t && rid !in d.holds && (granted.Ok? ==> Grantable(d.holds, o, granted.value))
    ensures var (d', answer) := DeskReserve(d, o, key, items, rid, granted, t);
            Served(d, d', Key(ReserveOp, key)) && d'.clock == t &&
            (forall x | x in d'.holds :: (x in d.holds && d'.holds[x] == d.holds[x]) || !Sold(d'.holds[x])) &&
            (answer.Ok? ==> answer.value.HoldResponse? && answer.value.id in d'.holds && d'.holds[answer.value.id].order == o)
  {
    var k := Key(ReserveOp, key);
    var effect := Answered(rid, DeskHold(d.holds, rid, granted));
    DeskServeMeaning(d, k, HoldRequest(o, key, SortItems(items)), effect, t);
    if k in d.table {
      assert RecordTrue(d, k);
    }
  }

  // ----- deliveries ---------------------------------------------------------

  lemma ReleasesSurvive(d: Desk, d': Desk, db: Db, k: Key)
    requires ReleasesExplained(d, db) && Served(d, d', k) && !k.op.ReleaseOp?
    ensures ReleasesExplained(d', db)
  {
  }

  lemma ConfirmKeeps(w: World, o: Id, rid: Id, t: Time)
    requires Inv(w) && w.desk.clock <= t && o in w.db.rows && w.db.rows[o].reservation == rid
    requires w.db.rows[o].status != PendingPayment && (Void(w.db.rows[o]) ==> Dead(w.desk.holds[rid], w.desk.clock))
    ensures Inv(w.(desk := DeskConfirm(w.desk, o, rid, t).0))
  {
    hide Inv, DeskSound, ReleasesExplained, DeskConfirm, Served;
    InvDesk(w);
    InvRow(w, o);
    var d' := DeskConfirm(w.desk, o, rid, t).0;
    var k := Key(ConfirmOp, ConfirmKey(o));
    ConfirmServed(w.desk, o, rid, t);
    ServedSound(w.desk, d', k);
    ReleasesSurvive(w.desk, d', w.db, k);
    ServedMoves(w.desk, d', k);
    DeskChangeKeeps(w, d');
  }

  lemma ServedMoves(d: Desk, d': Desk, k: Key)
    requires Served(d, d', k)
    ensures DeskMoves(d, d')
  {
  }

  lemma DeliverConfirmKeeps(w: World, th: Thread, t: Time)
    requires Inv(w) && Enabled(w, DeliverConfirm(th, t))
    ensures Inv(Do(w, DeliverConfirm(th, t)))
  {
    hide Inv, DeskSound, DeskConfirm, Served, Spawn;
    var o, rid := th.row.id, th.row.reservation;
    InvThread(w, th);
    InvDesk(w);
    ConfirmKeeps(w, o, rid, t);
    ConfirmServed(w.desk, o, rid, t);
    ServedMoves(w.desk, DeskConfirm(w.desk, o, rid, t).0, Key(ConfirmOp, ConfirmKey(o)));
    var (d', answer) := DeskConfirm(w.desk, o, rid, t);
    if answer.Ok? {
      SpawnKeeps(w.(desk := d'), GotConfirm(th.row));
    } else if answer.error == WrongState {
      SpawnKeeps(w.(desk := d'), GotRefusal(o));
    }
  }

  lemma ReleaseKeeps(w: World, o: Id, rid: Id, why: string, t: Time)
    requires Inv(w) && w.desk.clock <= t && rid in w.desk.holds && w.desk.holds[rid].order == o
    requires why == RESPONSE_INVALID || why == HOLD_EXPIRED ||
             (o in w.db.rows && Void(w.db.rows[o]) && why == ReasonText(w.db.rows[o].reason))
    ensures Inv(w.(desk := DeskRelease(w.desk, o, rid, why, t).0))
  {
    hide Inv, DeskSound, DeskRelease, ReleasesExplained;
    InvDesk(w);
    var d' := DeskRelease(w.desk, o, rid, why, t).0;
    var k := Key(ReleaseOp, ReleaseKey(o));
    ReleaseServed(w.desk, o, rid, why, t);
    ServedSound(w.desk, d', k);
    ReleaseExplained(w.desk, d', w.db, o, rid, why);
    DeskChangeKeeps(w, d');
  }

  lemma ReleaseExplained(d: Desk, d': Desk, db: Db, o: Id, rid: Id, why: string)
    requires ReleasesExplained(d, db)
    requires why == RESPONSE_INVALID || why == HOLD_EXPIRED ||
             (o in db.rows && Void(db.rows[o]) && why == ReasonText(db.rows[o].reason))
    requires var k := Key(ReleaseOp, ReleaseKey(o));
             d'.table == d.table ||
             (k in d'.table && d'.table == d.table[k := d'.table[k]] && d'.table[k].request == ChangeRequest(rid, o, ReleaseKey(o), why))
    ensures ReleasesExplained(d', db)
  {
  }

  lemma DeliverReleaseKeeps(w: World, th: Thread, t: Time)
    requires Inv(w) && Enabled(w, DeliverRelease(th, t))
    ensures Inv(Do(w, DeliverRelease(th, t)))
  {
    hide Inv, DeskSound, DeskRelease, Served, Spawn;
    var o, rid, why := th.row.id, th.row.reservation, ReasonText(th.row.reason);
    InvThread(w, th);
    InvDesk(w);
    ReleaseKeeps(w, o, rid, why, t);
    ReleaseServed(w.desk, o, rid, why, t);
    ServedMoves(w.desk, DeskRelease(w.desk, o, rid, why, t).0, Key(ReleaseOp, ReleaseKey(o)));
    var (d', answer) := DeskRelease(w.desk, o, rid, why, t);
    if answer.Ok? {
      SpawnKeeps(w.(desk := d'), GotRelease(th.row));
    }
  }

  lemma DeliverGiveUpKeeps(w: World, th: Thread, t: Time)
    requires Inv(w) && Enabled(w, DeliverGiveUp(th, t))
    ensures Inv(Do(w, DeliverGiveUp(th, t)))
  {
    hide Inv, DeskRelease;
    InvThread(w, th);
    ReleaseKeeps(w, th.order, th.rid, th.why, t);
  }

  lemma ReturnKeeps(w: World, o: Id, rid: Id, t: Time)
    requires Inv(w) && w.desk.clock <= t && o in w.db.rows && w.db.rows[o].reservation == rid
    requires WasPaid(w.db.rows[o]) && w.db.rows[o].reason == StoreCancelled
    ensures Inv(w.(desk := DeskGiveBack(w.desk, o, rid, t).0))
  {
    hide Inv, DeskSound, ReleasesExplained, DeskGiveBack, Served;
    InvDesk(w);
    InvRow(w, o);
    var d' := DeskGiveBack(w.desk, o, rid, t).0;
    var k := Key(ReturnOp, ReturnKey(o));
    ReturnServed(w.desk, o, rid, t);
    ServedSound(w.desk, d', k);
    ReleasesSurvive(w.desk, d', w.db, k);
    ServedMoves(w.desk, d', k);
    DeskChangeKeeps(w, d');
  }

  lemma DeliverReturnKeeps(w: World, th: Thread, t: Time)
    requires Inv(w) && Enabled(w, DeliverReturn(th, t))
    ensures Inv(Do(w, DeliverReturn(th, t)))
  {
    hide Inv, DeskSound, DeskGiveBack, Served, Spawn;
    var o, rid := th.row.id, th.row.reservation;
    InvThread(w, th);
    InvDesk(w);
    ReturnKeeps(w, o, rid, t);
    ReturnServed(w.desk, o, rid, t);
    ServedMoves(w.desk, DeskGiveBack(w.desk, o, rid, t).0, Key(ReturnOp, ReturnKey(o)));
    var (d', answer) := DeskGiveBack(w.desk, o, rid, t);
    if answer.Ok? {
      SpawnKeeps(w.(desk := d'), GotReturn(th.row));
    }
  }

  lemma DeliverReserveKeeps(w: World, th: Thread, rid: Id, granted: Result<Reservation>, t: Time)
    requires Inv(w) && Enabled(w, DeliverReserve(th, rid, granted, t))
    ensures Inv(Do(w, DeliverReserve(th, rid, granted, t)))
  {
    assert ThreadSound(w.desk, w.db, th);
    var (d', answer) := DeskReserve(w.desk, th.order, th.key, th.items, rid, granted, t);
    ReserveServed(w.desk, th.order, th.key, th.items, rid, granted, t);
    ServedSound(w.desk, d', Key(ReserveOp, th.key));
    ReleasesSurvive(w.desk, d', w.db, Key(ReserveOp, th.key));
    DeskChangeKeeps(w, d');
    if answer.Ok? && answer.value.hold.status == ACTIVE {
      SpawnKeeps(w.(desk := d'), GotHold(th.order, answer.value.id, answer.value.hold.expiresAt));
    }
  }

  lemma SweepKeeps(w: World, rid: Id, t: Time)
    requires Inv(w) && Enabled(w, SweepHold(rid, t))
    ensures Inv(Do(w, SweepHold(rid, t)))
  {
    var d' := Do(w, SweepHold(rid, t)).desk;
    var k := Key(ReserveOp, NIL);
    hide Inv, DeskSound, ReleasesExplained;
    InvDesk(w);
    SweepServed(w.desk, rid, t, d');
    ServedSound(w.desk, d', k);
    ReleasesSurvive(w.desk, d', w.db, k);
    hide Served;
    ServedMoves(w.desk, d', k);
    DeskChangeKeeps(w, d');
  }

  lemma SweepServed(d: Desk, rid: Id, t: Time, d': Desk)
    requires DeskSound(d) && rid in d.holds && d.clock <= t && d'.clock == t && d'.table == d.table
    requires DeskTransition(d.holds, rid, d.holds[rid].order, TIMEOUT, false, true, t).Ok?
    requires d'.holds == DeskTransition(d.holds, rid, d.holds[rid].order, TIMEOUT, false, true, t).value.0
    ensures Served(d, d', Key(ReserveOp, NIL))
    ensures forall x | x in d'.holds :: x in d.holds && (d'.holds[x] == d.holds[x] || Over(d'.holds[x]))
  {
  }

  lemma OtherKeeps(w: World, news: Table, t: Time)
    requires Inv(w) && Enabled(w, OtherInventory(news, t))
    ensures Inv(Do(w, OtherInventory(news, t)))
  {
    var d' := Do(w, OtherInventory(news, t)).desk;
    hide Inv;
    InvDesk(w);
    OtherSound(w.desk, d', w.db, news);
    DeskChangeKeeps(w, d');
  }

  lemma OtherSound(d: Desk, d': Desk, db: Db, news: Table)
    requires DeskSound(d) && ReleasesExplained(d, db) && d.clock <= d'.clock && d' == Desk(d.holds, d.table + news, d'.clock)
    requires forall k | k in news :: k !in d.table && (k.op.CreateOp? || k.op.RestWasteOp? || k.op.WasteOp?)
    ensures DeskSound(d') && ReleasesExplained(d', db)
  {
    forall x | x in d'.table ensures RecordTrue(d', x) {
      if x in d.table {
        RecordSurvives(d, d', x);
      }
    }
  }

  // ----- row changes --------------------------------------------------------

  /** Nothing that an event tells has changed. */
  ghost predicate SettledAlike(r: Row, r': Row) {
    SameTerms(r, r') && r'.paidAt == r.paidAt && (r'.status == Cancelled <==> r.status == Cancelled) &&
    (r.status == Cancelled ==> r'.reason == r.reason)
  }

  lemma InvOutbox(w: World)
    requires Inv(w)
    ensures OutboxSound(w.db)
  {
  }

  /** A row update without an event. */
  lemma QuietRowKeeps(w: World, r': Row)
    requires Inv(w) && r'.id in w.db.rows
    requires RowMoves(w.db.rows[r'.id], r', w.desk.holds[w.db.rows[r'.id].reservation], w.desk.clock)
    requires RowSound(r', w.desk.holds[w.db.rows[r'.id].reservation])
    requires SettledAlike(w.db.rows[r'.id], r')
    ensures Inv(w.(db := PutRow(w.db, r')))
  {
    hide Inv, OutboxSound, RowMoves, RowSound;
    InvOutbox(w);
    QuietOutbox(w.db, r');
    RowChangeKeeps(w, r'.id, PutRow(w.db, r'));
  }

  lemma QuietOutbox(db: Db, r': Row)
    requires OutboxSound(db) && r'.id in db.rows && SettledAlike(db.rows[r'.id], r')
    ensures OutboxSound(PutRow(db, r'))
  {
    var db' := PutRow(db, r');
    forall e | e in db'.outbox ensures EventTrue(db', e) {
      assert EventTrue(db, e);
    }
  }

  ghost predicate Announces(r: Row, r': Row, e: Event) {
    r.status != Cancelled &&
    if e.PlacedEvent? then r.paidAt.None? && r'.paidAt.Some? && r'.status != Cancelled
    else r'.paidAt == r.paidAt && r'.status == Cancelled
  }

  /** A row update announced by the event that tells its story. */
  lemma LoudRowKeeps(w: World, r': Row, e: Event)
    requires Inv(w) && r'.id in w.db.rows && e.order == r'.id
    requires RowMoves(w.db.rows[r'.id], r', w.desk.holds[w.db.rows[r'.id].reservation], w.desk.clock)
    requires RowSound(r', w.desk.holds[w.db.rows[r'.id].reservation])
    requires EventTrue(PutRow(w.db, r'), e)
    requires Announces(w.db.rows[r'.id], r', e)
    ensures Inv(w.(db := PutRow(w.db, r').(outbox := w.db.outbox + [e])))
  {
    hide Inv, OutboxSound, RowSound;
    InvOutbox(w);
    LoudOutbox(w.db, r', e);
    RowChangeKeeps(w, r'.id, PutRow(w.db, r').(outbox := w.db.outbox + [e]));
  }

  lemma LoudOutbox(db: Db, r': Row, e: Event)
    requires OutboxSound(db) && r'.id in db.rows && e.order == r'.id && SameTerms(db.rows[r'.id], r')
    requires EventTrue(PutRow(db, r'), e) && Announces(db.rows[r'.id], r', e)
    ensures OutboxSound(PutRow(db, r').(outbox := db.outbox + [e]))
  {
    var db' := PutRow(db, r').(outbox := db.outbox + [e]);
    forall x | x in db'.outbox ensures EventTrue(db', x) {
      assert x != e ==> EventTrue(db, x);
    }
    forall o: Id
      ensures Count(db'.outbox, o, true) == if o in db'.rows && db'.rows[o].paidAt.Some? then 1 else 0
      ensures Count(db'.outbox, o, false) == if o in db'.rows && db'.rows[o].status == Cancelled then 1 else 0
    {
      CountAppend(db.outbox, e, o, true);
      CountAppend(db.outbox, e, o, false);
    }
  }

  lemma ConfirmPaymentKeeps(w: World, o: Id)
    requires Inv(w)
    ensures Inv(Do(w, ConfirmPayment(o)))
  {
    hide Inv;
    if o in w.db.rows {
      InvRow(w, o);
      var r := w.db.rows[o];
      if r.status == PendingPayment {
        var r' := r.(status := PaymentConfirming, url := "");
        QuietRowKeeps(w, r');
        SpawnKeeps(w.(db := PutRow(w.db, r')), AwaitConfirm(r'));
      } else if r.status == PaymentConfirming {
        SpawnKeeps(w, AwaitConfirm(r));
      } else if r.status != Paid {
        SpawnKeeps(w, AboutToDecide(o));
      }
    }
  }

  lemma CancelOrderKeeps(w: World, o: Id)
    requires Inv(w)
    ensures Inv(Do(w, CancelOrder(o)))
  {
    hide Inv;
    if o in w.db.rows {
      InvRow(w, o);
      var r := w.db.rows[o];
      if r.status == PendingPayment {
        var r' := r.(status := CancelPending, url := "");
        QuietRowKeeps(w, r');
        SpawnKeeps(w.(db := PutRow(w.db, r')), AwaitRelease(r'));
      } else if r.status == CancelPending {
        SpawnKeeps(w, AwaitRelease(r));
      }
    }
  }

  lemma ExpireOrderKeeps(w: World, o: Id, now: Time)
    requires Inv(w)
    ensures Inv(Do(w, ExpireOrder(o, now)))
  {
    hide Inv;
    if o in w.db.rows {
      InvRow(w, o);
      var r := w.db.rows[o];
      if r.status == PendingPayment && r.holdExpiresAt <= now {
        var r' := r.(status := CancelPending, url := "", reason := ReservationExpired);
        QuietRowKeeps(w, r');
        SpawnKeeps(w.(db := PutRow(w.db, r')), AwaitRelease(r'));
      }
    }
  }

  lemma StoreCancelKeeps(w: World, o: Id)
    requires Inv(w)
    ensures Inv(Do(w, StoreCancel(o)))
  {
    hide Inv;
    if o in w.db.rows {
      InvRow(w, o);
      var r := w.db.rows[o];
      if r.status == Paid {
        var r' := r.(status := StoreCancelPending, reason := StoreCancelled);
        QuietRowKeeps(w, r');
        SpawnKeeps(w.(db := PutRow(w.db, r')), AwaitReturn(r'));
      } else if r.status == StoreCancelPending {
        SpawnKeeps(w, AwaitReturn(r));
      }
    }
  }

  lemma ResumeStoreCancelKeeps(w: World, o: Id)
    requires Inv(w) && Enabled(w, ResumeStoreCancel(o))
    ensures Inv(Do(w, ResumeStoreCancel(o)))
  {
    hide Inv;
    InvRow(w, o);
    SpawnKeeps(w, AwaitReturn(w.db.rows[o]));
  }

  lemma CheckoutKeeps(w: World, o: Id, session: string, url: string, now: Time)
    requires Inv(w)
    ensures Inv(Do(w, Checkout(o, session, url, now)))
  {
    hide Inv;
    if o in w.db.rows {
      InvRow(w, o);
      var (db', res) := BindCheckout(w.db, o, session, url, now);
      if res.Done? {
        QuietRowKeeps(w, res.value);
      }
    }
  }

  lemma FinishPaymentKeeps(w: World, th: Thread, paidAt: Time)
    requires Inv(w) && Enabled(w, FinishPayment(th, paidAt))
    ensures Inv(Do(w, FinishPayment(th, paidAt)))
  {
    hide Inv;
    InvThread(w, th);
    InvRow(w, th.row.id);
    var r := w.db.rows[th.row.id];
    if r.status == PaymentConfirming {
      LoudRowKeeps(w, r.(status := Paid, paidAt := Some(paidAt)),
                   PlacedEvent(th.row.id, th.row.total, th.row.items, paidAt));
    }
  }

  lemma FinishCancellationKeeps(w: World, th: Thread)
    requires Inv(w) && Enabled(w, FinishCancellation(th))
    ensures Inv(Do(w, FinishCancellation(th)))
  {
    hide Inv;
    InvThread(w, th);
    InvRow(w, th.row.id);
    var r := w.db.rows[th.row.id];
    if r.status == CancelPending {
      LoudRowKeeps(w, r.(status := Cancelled), CancelledEvent(th.row.id, ReasonText(th.row.reason), None));
    }
  }

  lemma FinishStoreCancellationKeeps(w: World, th: Thread)
    requires Inv(w) && Enabled(w, FinishStoreCancellation(th))
    ensures Inv(Do(w, FinishStoreCancellation(th)))
  {
    hide Inv;
    InvThread(w, th);
    InvRow(w, th.row.id);
    var r := w.db.rows[th.row.id];
    if r.status == StoreCancelPending {
      LoudRowKeeps(w, r.(status := Cancelled), CancelledEvent(th.row.id, STORE_CANCELLED, PaidFactsOf(th.row)));
    }
  }

  lemma RejectedKeeps(w: World, o: Id)
    requires Inv(w) && o in w.db.rows && Void(w.db.rows[o])
    ensures Inv(w.(rejected := w.rejected + {o}))
  {
  }

  lemma RejectPaymentKeeps(w: World, th: Thread)
    requires Inv(w) && Enabled(w, RejectPayment(th))
    ensures Inv(Do(w, RejectPayment(th)))
  {
    hide Inv;
    InvThread(w, th);
    InvRow(w, th.order);
    var r := w.db.rows[th.order];
    if r.status == PaymentConfirming {
      var r' := r.(status := CancelPending);
      QuietRowKeeps(w, r');
      RejectedKeeps(w.(db := PutRow(w.db, r')), th.order);
    } else if r.status == CancelPending || r.status == Cancelled {
      RejectedKeeps(w, th.order);
    }
  }

  lemma DecideRefundKeeps(w: World, th: Thread)
    requires Inv(w) && Enabled(w, DecideRefund(th))
    ensures Inv(Do(w, DecideRefund(th)))
  {
    if Refundable(w.db, th.order) {
      RejectedKeeps(w, th.order);
    }
  }

  // ----- placing an order ---------------------------------------------------

  lemma SaveOrderKeeps(w: World, th: Thread, total: int, items: seq<Item>, now: Time)
    requires Inv(w) && Enabled(w, SaveOrder(th, total, items, now))
    ensures Inv(Do(w, SaveOrder(th, total, items, now)))
  {
    var r := NewRow(th, total, items);
    if r.id !in w.db.rows {
      var db' := PutRow(w.db, r);
      assert ThreadSound(w.desk, w.db, th) && SalesOwned(w.desk, w.db);
      NewRowThreads(w, r);
      NewRowOutbox(w.db, r);
      NewRowOwned(w.desk, w.db, r);
      hide ThreadsSound, OutboxSound, DeskSound, SalesOwned, ReleasesExplained;
    }
  }

  lemma NewRowThreads(w: World, r: Row)
    requires ThreadsSound(w.desk, w.db, w.threads) && r.id !in w.db.rows
    ensures ThreadsSound(w.desk, PutRow(w.db, r), w.threads)
  {
    forall x | x in w.threads ensures ThreadSound(w.desk, PutRow(w.db, r), x) {
      assert ThreadSound(w.desk, w.db, x);
    }
  }

  lemma NewRowOutbox(db: Db, r: Row)
    requires OutboxSound(db) && r.id !in db.rows && r.paidAt.None? && r.status != Cancelled
    ensures OutboxSound(PutRow(db, r))
  {
    forall e | e in db.outbox ensures EventTrue(PutRow(db, r), e) {
      assert EventTrue(db, e);
    }
  }

  lemma NewRowOwned(d: Desk, db: Db, r: Row)
    requires SalesOwned(d, db) && ReleasesExplained(d, db) && r.id !in db.rows
    ensures SalesOwned(d, PutRow(db, r)) && ReleasesExplained(d, PutRow(db, r))
  {
  }

  /** Every enabled act keeps the invariant. */
  lemma ActKeeps(w: World, a: Act)
    requires Inv(w) && Enabled(w, a)
    ensures Inv(Do(w, a))
  {
    hide Inv;
    match a
    case PlaceOrder(order, key, items) => SpawnKeeps(w, AwaitHold(order, key, items));
    case DeliverReserve(th, rid, granted, t) => DeliverReserveKeeps(w, th, rid, granted, t);
    case SaveOrder(th, total, items, now) => SaveOrderKeeps(w, th, total, items, now);
    case GiveUp(th, why) =>
      InvThread(w, th);
      SpawnKeeps(w, AwaitGiveUp(th.order, th.rid, why));
    case DeliverGiveUp(th, t) => DeliverGiveUpKeeps(w, th, t);
    case Checkout(order, session, url, now) => CheckoutKeeps(w, order, session, url, now);
    case ConfirmPayment(order) => ConfirmPaymentKeeps(w, order);
    case DeliverConfirm(th, t) => DeliverConfirmKeeps(w, th, t);
    case FinishPayment(th, paidAt) => FinishPaymentKeeps(w, th, paidAt);
    case RejectPayment(th) => RejectPaymentKeeps(w, th);
    case DecideRefund(th) => DecideRefundKeeps(w, th);
    case CancelOrder(order) => CancelOrderKeeps(w, order);
    case ExpireOrder(order, now) => ExpireOrderKeeps(w, order, now);
    case DeliverRelease(th, t) => DeliverReleaseKeeps(w, th, t);
    case FinishCancellation(th) => FinishCancellationKeeps(w, th);
    case StoreCancel(order) => StoreCancelKeeps(w, order);
    case ResumeStoreCancel(order) => ResumeStoreCancelKeeps(w, order);
    case DeliverReturn(th, t) => DeliverReturnKeeps(w, th, t);
    case FinishStoreCancellation(th) => FinishStoreCancellationKeeps(w, th);
    case SweepHold(rid, t) => SweepKeeps(w, rid, t);
    case OtherInventory(news, t) => OtherKeeps(w, news, t);
  }
}
