/** The one way a cancellation intent can wedge: a placement that gives its reservation up
    commits a release under the order's release key with a reason of its own, while a
    concurrent retry of the same placement saves the order. Every later release of that
    order then conflicts, and the order stays CANCEL_PENDING for good. */
module SagaWedge {
  import opened Ordering
  import opened InventoryModel
  import opened Idempotency
  import opened InventoryStore
  import opened OrderRows
  import opened Saga
  import opened SagaInvariant
  import opened SagaSteps
  import opened SagaTheorems

  // ----- no release is served ------------------------------------------------

  /** Every release with the persisted reason conflicts, at whatever time it arrives. */
  ghost predicate EveryConflict(w: World, o: Id)
    requires o in w.db.rows
  {
    var r := w.db.rows[o];
    forall t | w.desk.clock <= t :: DeskRelease(w.desk, o, r.reservation, ReasonText(r.reason), t).1 == Err(Conflict)
  }

  lemma EveryReleaseConflicts(w: World, o: Id)
    requires Inv(w) && o in w.db.rows && w.db.rows[o].status == CancelPending && GivenUp(w.desk, o)
    ensures EveryConflict(w, o)
  {
    hide Inv, DeskSound, ReleasesExplained, DeskRelease, GivenUp;
    InvRow(w, o);
    InvDesk(w);
    forall t | w.desk.clock <= t
      ensures DeskRelease(w.desk, o, w.db.rows[o].reservation, ReasonText(w.db.rows[o].reason), t).1 == Err(Conflict)
    {
      ReleaseWhileVoid(w.desk, w.db, o, t);
    }
  }

  // ----- and then it lasts --------------------------------------------------

  /** Whoever received a release answer finds its release on record. */
  ghost predicate Witnessed(d: Desk, th: Thread) {
    th.GotRelease? ==>
      var k := Key(ReleaseOp, ReleaseKey(th.row.id));
      k in d.table && d.table[k].request.ChangeRequest? && d.table[k].request.reason == ReasonText(th.row.reason)
  }

  ghost predicate AllWitnessed(w: World) {
    forall th | th in w.threads :: Witnessed(w.desk, th)
  }

  lemma ReleaseLeavesRecord(d: Desk, o: Id, rid: Id, why: string, t: Time)
    requires DeskRelease(d, o, rid, why, t).1.Ok?
    ensures var d' := DeskRelease(d, o, rid, why, t).0;
            var k := Key(ReleaseOp, ReleaseKey(o));
            k in d'.table && d'.table[k].request.ChangeRequest? && d'.table[k].request.reason == why
  {
    DeskServeMeaning(d, Key(ReleaseOp, ReleaseKey(o)), ChangeRequest(rid, o, ReleaseKey(o), why),
                     Answered(rid, DeskTransition(d.holds, rid, o, why, false, false, t)), t);
  }

  lemma NewReleaseAnswer(w: World, a: Act, th: Thread)
    requires Enabled(w, a) && th in Do(w, a).threads && th !in w.threads && th.GotRelease?
    ensures a.DeliverRelease? && th == GotRelease(a.th.row)
    ensures DeskRelease(w.desk, th.row.id, th.row.reservation, ReasonText(th.row.reason), a.t).1.Ok?
    ensures Do(w, a).desk == DeskRelease(w.desk, th.row.id, th.row.reservation, ReasonText(th.row.reason), a.t).0
  {
    hide DeskReserve, DeskConfirm, DeskRelease, DeskGiveBack, DeskTransition;
  }

  lemma ActKeepsWitnesses(w: World, a: Act)
    requires Enabled(w, a) && AllWitnessed(w)
    ensures AllWitnessed(Do(w, a))
  {
    ActKeepsRecords(w, a);
    hide DeskRelease, Do, Enabled;
    forall th | th in Do(w, a).threads && th.GotRelease? ensures Witnessed(Do(w, a).desk, th) {
      if th in w.threads {
        assert Witnessed(w.desk, th);
      } else {
        NewReleaseAnswer(w, a, th);
        ReleaseLeavesRecord(w.desk, th.row.id, th.row.reservation, ReasonText(th.row.reason), a.t);
      }
    }
  }

  lemma {:induction false} EveryAnswerWitnessed(worlds: seq<World>, acts: seq<Act>, i: nat)
    requires IsRun(worlds, acts) && i < |worlds|
    ensures AllWitnessed(worlds[i])
  {
    if i > 0 {
      hide *;
      RunLength(worlds, acts);
      RunStep(worlds, acts, i - 1);
      EveryAnswerWitnessed(worlds, acts, i - 1);
      ActKeepsWitnesses(worlds[i - 1], acts[i - 1]);
    }
  }

  lemma ActKeepsWedge(w: World, a: Act, o: Id)
    requires Inv(w) && AllWitnessed(w) && Enabled(w, a)
    requires o in w.db.rows && w.db.rows[o].status == CancelPending && GivenUp(w.desk, o)
    ensures o in Do(w, a).db.rows && Do(w, a).db.rows[o].status == CancelPending
  {
    hide Inv, AllWitnessed, Keyed, Do, ReasonText;
    RowsAreKeyed(w);
    if a.FinishCancellation? {
      AnswersBarGiveUps(w, a.th);
    } else if a.FinishStoreCancellation? {
      InvThread(w, a.th);
    }
    hide GivenUp, Enabled;
    OnlyFinishesEnd(w, a, o);
  }

  lemma AnswersBarGiveUps(w: World, th: Thread)
    requires AllWitnessed(w) && th in w.threads && th.GotRelease?
    ensures !GivenUp(w.desk, th.row.id)
  {
    assert Witnessed(w.desk, th);
  }

  lemma OnlyFinishesEnd(w: World, a: Act, o: Id)
    requires Keyed(w.db) && Enabled(w, a) && o in w.db.rows && w.db.rows[o].status == CancelPending
    requires a.FinishCancellation? || a.FinishStoreCancellation? ==> a.th.row.id != o
    ensures o in Do(w, a).db.rows && Do(w, a).db.rows[o].status == CancelPending
  {
    hide DeskReserve, DeskConfirm, DeskRelease, DeskGiveBack, DeskTransition;
  }

  lemma GivenUpLasts(d: Desk, d': Desk, o: Id)
    requires GivenUp(d, o) && RecordsStay(d, d')
    ensures GivenUp(d', o)
  {
  }

  lemma WedgeStays(w: World, a: Act, o: Id)
    requires Inv(w) && AllWitnessed(w) && Enabled(w, a)
    requires o in w.db.rows && w.db.rows[o].status == CancelPending && GivenUp(w.desk, o)
    ensures var w' := Do(w, a); o in w'.db.rows && w'.db.rows[o].status == CancelPending && GivenUp(w'.desk, o)
  {
    hide *;
    ActKeepsWedge(w, a, o);
    ActKeepsRecords(w, a);
    GivenUpLasts(w.desk, Do(w, a).desk, o);
  }

  /** Together with CancellationFinishes: a cancellation intent can finish exactly when no
      give-up was committed for its order. */
  lemma {:induction false} WedgeIsForever(worlds: seq<World>, acts: seq<Act>, i: nat, j: nat, o: Id)
    requires IsRun(worlds, acts) && i <= j < |worlds| == |acts| + 1
    requires o in worlds[i].db.rows && worlds[i].db.rows[o].status == CancelPending && GivenUp(worlds[i].desk, o)
    ensures o in worlds[j].db.rows && worlds[j].db.rows[o].status == CancelPending && GivenUp(worlds[j].desk, o)
  {
    hide *;
    if i < j {
      var n := j - 1;
      RunStep(worlds, acts, n);
      WedgeIsForever(worlds, acts, i, n, o);
      EveryWorldSound(worlds, acts, n);
      EveryAnswerWitnessed(worlds, acts, n);
      WedgeStays(worlds[n], acts[n], o);
    }
  }
}
