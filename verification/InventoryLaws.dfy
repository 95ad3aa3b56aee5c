/** What the stock tables always satisfy, and how one settlement loop changes them. */
module InventoryLaws {
  import opened Ordering
  import opened InventoryModel

  // ----- sums over tables ---------------------------------------------------

  ghost function On(allocations: seq<Allocation>, id: Id): int {
    if allocations == [] then 0 else
    (if allocations[0].batch == id then allocations[0].portions else 0) + On(allocations[1..], id)
  }

  /** Portions of batch `id` that reservations in status `st` account for. */
  ghost function Held(rs: map<Id, Reservation>, st: HoldStatus, id: Id): int
    decreases |rs|
  {
    if |rs| == 0 then 0 else
    Share(rs[AnyOf(rs)], st, id) + Held(rs - {AnyOf(rs)}, st, id)
  }

  ghost function Share(r: Reservation, st: HoldStatus, id: Id): int {
    if r.status == st then On(r.allocations, id) else 0
  }

  ghost function WasteOn(ws: seq<WasteRecord>, id: Id): int {
    if ws == [] then 0 else
    var w := ws[|ws| - 1];
    WasteOn(ws[..|ws| - 1], id) + if w.batch == id then w.portions else 0
  }

  ghost function CostOn(ws: seq<WasteRecord>, id: Id): int {
    if ws == [] then 0 else
    var w := ws[|ws| - 1];
    CostOn(ws[..|ws| - 1], id) + if w.batch == id then w.costLost else 0
  }

  lemma {:induction false} HeldPick(rs: map<Id, Reservation>, st: HoldStatus, id: Id, rid: Id)
    requires rid in rs
    ensures Held(rs, st, id) == Share(rs[rid], st, id) + Held(rs - {rid}, st, id)
    decreases |rs|
  {
    var x := AnyOf(rs);
    if x != rid {
      HeldPick(rs - {x}, st, id, rid);
      HeldPick(rs - {rid}, st, id, x);
      assert rs - {x} - {rid} == rs - {rid} - {x};
    }
  }

  /** Replacing or adding one reservation changes the sum by that reservation only. */
  lemma HeldUpdate(rs: map<Id, Reservation>, st: HoldStatus, id: Id, rid: Id, r: Reservation)
    ensures Held(rs[rid := r], st, id) ==
            Held(rs, st, id) + Share(r, st, id) - if rid in rs then Share(rs[rid], st, id) else 0
  {
    HeldPick(rs[rid := r], st, id, rid);
    assert rs[rid := r] - {rid} == rs - {rid};
    if rid in rs {
      HeldPick(rs, st, id, rid);
    } else {
      assert rs - {rid} == rs;
    }
  }

  lemma OnNonNegative(allocations: seq<Allocation>, id: Id)
    requires forall a | a in allocations :: a.portions > 0
    ensures On(allocations, id) >= 0
    ensures On(allocations, id) > 0 <==> exists a | a in allocations :: a.batch == id
  {
    if allocations != [] {
      OnNonNegative(allocations[1..], id);
      assert forall a :: a in allocations <==> a == allocations[0] || a in allocations[1..];
    }
  }

  lemma {:induction false} HeldBounds(rs: map<Id, Reservation>, st: HoldStatus, id: Id)
    requires forall rid, a | rid in rs && a in rs[rid].allocations :: a.portions > 0
    ensures 0 <= Held(rs, st, id)
    ensures forall rid | rid in rs :: Share(rs[rid], st, id) <= Held(rs, st, id)
    decreases |rs|
  {
    forall rid | rid in rs
      ensures 0 <= Share(rs[rid], st, id) <= Held(rs, st, id)
    {
      HeldPick(rs, st, id, rid);
      OnNonNegative(rs[rid].allocations, id);
      HeldBounds(rs - {rid}, st, id);
    }
  }

  // ----- the movement ledger ------------------------------------------------

  const ZERO := Balances(0, 0, 0, 0)

  ghost predicate ConfirmedIn(ledger: seq<Movement>, rid: Id, id: Id) {
    ledger != [] &&
    var m := ledger[|ledger| - 1];
    ((m.kind.Confirmed? && m.reservation == Some(rid) && m.batch == id) ||
      ConfirmedIn(ledger[..|ledger| - 1], rid, id))
  }

  /** Read the append-only movements of one batch back into balances. A write-off
      made for a reservation draws on sold once that reservation was confirmed. */
  ghost function Replay(ledger: seq<Movement>, id: Id): Balances {
    if ledger == [] then ZERO else
    var prior := ledger[..|ledger| - 1];
    var m := ledger[|ledger| - 1];
    var bal := Replay(prior, id);
    if m.batch != id then bal else
    match m.kind
    case Produced => bal.(available := bal.available + m.portions)
    case Reserved => bal.(available := bal.available - m.portions, reserved := bal.reserved + m.portions)
    case Confirmed => bal.(reserved := bal.reserved - m.portions, sold := bal.sold + m.portions)
    case Released => bal.(reserved := bal.reserved - m.portions, available := bal.available + m.portions)
    case Returned => bal.(sold := bal.sold - m.portions, available := bal.available + m.portions)
    case Wasted =>
      if m.reservation.None? then
        bal.(available := bal.available - m.portions, wasted := bal.wasted + m.portions)
      else if ConfirmedIn(prior, m.reservation.value, id) then
        bal.(sold := bal.sold - m.portions, wasted := bal.wasted + m.portions)
      else
        bal.(reserved := bal.reserved - m.portions, wasted := bal.wasted + m.portions)
  }

  // ----- the settlement loop, seen from one batch ---------------------------

  ghost predicate SameBatch(b: Batch, b': Batch) {
    b'.code == b.code && b'.flavor == b.flavor && b'.expiresAt == b.expiresAt &&
    b'.createdAt == b.createdAt && b'.initial == b.initial && b'.unitCost == b.unitCost &&
    (b'.status.Archived? <==> b.status.Archived?)
  }

  ghost predicate Stamped(b: Batch, b': Batch, t: Time) {
    b' == b || b'.status == StatusAt(b', t)
  }

  ghost predicate Extends(s: Stock, s': Stock) {
    s.ledger <= s'.ledger && s.wastes <= s'.wastes && s.batches.Keys <= s'.batches.Keys
  }

  ghost predicate Spoilt(s: Stock, id: Id, t: Time) {
    id in s.batches && s.batches[id].expiresAt <= t
  }

  /** The portions that a settlement writes off on batch `id`. */
  ghost function Lost(s: Stock, n: int, k: Settlement, t: Time, id: Id): int {
    if !k.Confirming? && Spoilt(s, id, t) then n else 0
  }

  ghost predicate MovedBy(s: Stock, s': Stock, n: int, k: Settlement, t: Time, id: Id) {
    s'.reservations == s.reservations && s'.batches.Keys == s.batches.Keys &&
    (id !in s.batches ==> n == 0) &&
    (id in s.batches ==>
      SameBatch(s.batches[id], s'.batches[id]) && Stamped(s.batches[id], s'.batches[id], t) &&
      Bal(s'.batches[id]) == Shift(Bal(s.batches[id]), n, k, Spoilt(s, id, t)))
  }

  ghost predicate LostBy(s: Stock, s': Stock, n: int, k: Settlement, t: Time, id: Id) {
    s.wastes <= s'.wastes &&
    WasteOn(s'.wastes, id) == WasteOn(s.wastes, id) + Lost(s, n, k, t, id) &&
    (id in s.batches ==>
       CostOn(s'.wastes, id) == CostOn(s.wastes, id) + s.batches[id].unitCost * Lost(s, n, k, t, id)) &&
    (id !in s.batches ==> CostOn(s'.wastes, id) == CostOn(s.wastes, id))
  }

  ghost predicate LoggedBy(s: Stock, s': Stock, n: int, k: Settlement, t: Time, id: Id) {
    s.ledger <= s'.ledger &&
    Replay(s'.ledger, id) == Shift(Replay(s.ledger, id), n, k, Spoilt(s, id, t))
  }

  /** A write-off for `rid` draws on sold exactly when the ledger already shows it confirmed. */
  ghost predicate RightPocket(s: Stock, rid: Id, n: int, k: Settlement, id: Id) {
    (k.Releasing? ==> !ConfirmedIn(s.ledger, rid, id)) &&
    (k.Returning? && n > 0 ==> ConfirmedIn(s.ledger, rid, id))
  }

  lemma ShiftTwice(bal: Balances, n: int, m: int, k: Settlement, spoilt: bool)
    ensures Shift(Shift(bal, n, k, spoilt), m, k, spoilt) == Shift(bal, n + m, k, spoilt)
  {
  }

  lemma SettleOneMoves(s: Stock, rid: Id, a: Allocation, k: Settlement, t: Time, id: Id, s': Stock)
    requires SettleOne(s, rid, a, k, t) == Ok(s')
    ensures MovedBy(s, s', On([a], id), k, t, id)
  {
  }

  lemma SettleOneLoses(s: Stock, rid: Id, a: Allocation, k: Settlement, t: Time, id: Id, s': Stock)
    requires SettleOne(s, rid, a, k, t) == Ok(s')
    ensures LostBy(s, s', On([a], id), k, t, id)
  {
    if |s'.wastes| > |s.wastes| {
      assert s'.wastes[..|s.wastes|] == s.wastes;
    }
  }

  lemma SettleOneConfirms(s: Stock, rid: Id, a: Allocation, k: Settlement, t: Time, id: Id, x: Id, s': Stock)
    requires SettleOne(s, rid, a, k, t) == Ok(s')
    ensures s'.ledger == s.ledger +
              [Movement(a.batch, Some(rid), MovementKind(k, s.batches[a.batch].expiresAt <= t), a.portions, t)]
    ensures ConfirmedIn(s'.ledger, x, id) <==>
              ConfirmedIn(s.ledger, x, id) || (k.Confirming? && x == rid && a.batch == id)
  {
    assert s'.ledger[..|s.ledger|] == s.ledger;
  }

  lemma SettleOneLogs(s: Stock, rid: Id, a: Allocation, k: Settlement, t: Time, id: Id, s': Stock)
    requires SettleOne(s, rid, a, k, t) == Ok(s') && a.portions > 0
    requires RightPocket(s, rid, On([a], id), k, id)
    ensures LoggedBy(s, s', On([a], id), k, t, id)
  {
    SettleOneConfirms(s, rid, a, k, t, id, rid, s');
    assert s'.ledger[..|s.ledger|] == s.ledger;
  }

  /** The whole loop moves exactly what the allocations say. */
  lemma {:induction false} SettleMoves(s: Stock, rid: Id, allocations: seq<Allocation>, k: Settlement, t: Time,
                                       id: Id, s': Stock)
    requires Settle(s, rid, allocations, k, t) == Ok(s')
    ensures MovedBy(s, s', On(allocations, id), k, t, id)
    decreases |allocations|
  {
    if allocations != [] {
      var a := allocations[0];
      var mid := SettleOne(s, rid, a, k, t).value;
      SettleOneMoves(s, rid, a, k, t, id, mid);
      SettleMoves(mid, rid, allocations[1..], k, t, id, s');
      if id in s.batches {
        ShiftTwice(Bal(s.batches[id]), On([a], id), On(allocations[1..], id), k, Spoilt(s, id, t));
      }
    }
  }

  /** What it writes off is recorded portion for portion and at the batch's unit cost. */
  lemma {:induction false} SettleLoses(s: Stock, rid: Id, allocations: seq<Allocation>, k: Settlement, t: Time,
                                       id: Id, s': Stock)
    requires Settle(s, rid, allocations, k, t) == Ok(s')
    ensures LostBy(s, s', On(allocations, id), k, t, id)
    decreases |allocations|
  {
    if allocations != [] {
      var a := allocations[0];
      var mid := SettleOne(s, rid, a, k, t).value;
      SettleOneMoves(s, rid, a, k, t, id, mid);
      SettleOneLoses(s, rid, a, k, t, id, mid);
      SettleLoses(mid, rid, allocations[1..], k, t, id, s');
      if id in s.batches {
        Distribute(s.batches[id].unitCost, On([a], id), On(allocations[1..], id));
      }
    }
  }

  /** The entries a settlement appends move the replayed balances by exactly what
      the allocations say, and mark the reservation confirmed only when it is. */
  lemma {:induction false} SettleLogs(s: Stock, rid: Id, allocations: seq<Allocation>, k: Settlement, t: Time,
                                      id: Id, s': Stock)
    requires Settle(s, rid, allocations, k, t) == Ok(s')
    requires forall a | a in allocations :: a.portions > 0
    requires RightPocket(s, rid, On(allocations, id), k, id)
    ensures LoggedBy(s, s', On(allocations, id), k, t, id)
    decreases |allocations|
  {
    hide Replay, ConfirmedIn, SettleOne, LoggedBy, Spoilt;
    if allocations == [] {
      LoggedNone(s, k, t, id);
    } else {
      var a := allocations[0];
      var mid := SettleOne(s, rid, a, k, t).value;
      OnNonNegative(allocations[1..], id);
      assert a in allocations && On(allocations, id) == On([a], id) + On(allocations[1..], id);
      SettleOneKeepsSpoilt(s, rid, a, k, t, id, mid);
      SettleOneConfirms(s, rid, a, k, t, id, rid, mid);
      SettleOneLogs(s, rid, a, k, t, id, mid);
      SettleLogs(mid, rid, allocations[1..], k, t, id, s');
      LoggedTwice(s, mid, s', On([a], id), On(allocations[1..], id), k, t, id);
    }
  }

  lemma SettleOneKeepsSpoilt(s: Stock, rid: Id, a: Allocation, k: Settlement, t: Time, id: Id, s': Stock)
    requires SettleOne(s, rid, a, k, t) == Ok(s')
    ensures Spoilt(s', id, t) == Spoilt(s, id, t)
  {
  }

  lemma LoggedNone(s: Stock, k: Settlement, t: Time, id: Id)
    ensures LoggedBy(s, s, 0, k, t, id)
  {
  }

  lemma LoggedTwice(s: Stock, mid: Stock, s': Stock, n: int, m: int, k: Settlement, t: Time, id: Id)
    requires LoggedBy(s, mid, n, k, t, id) && LoggedBy(mid, s', m, k, t, id)
    requires Spoilt(mid, id, t) == Spoilt(s, id, t)
    ensures LoggedBy(s, s', n + m, k, t, id)
  {
    ShiftTwice(Replay(s.ledger, id), n, m, k, Spoilt(s, id, t));
  }

  lemma {:induction false} SettleConfirms(s: Stock, rid: Id, allocations: seq<Allocation>, k: Settlement, t: Time,
                                          id: Id, x: Id, s': Stock)
    requires Settle(s, rid, allocations, k, t) == Ok(s')
    requires forall a | a in allocations :: a.portions > 0
    ensures ConfirmedIn(s'.ledger, x, id) <==>
              ConfirmedIn(s.ledger, x, id) || (k.Confirming? && x == rid && On(allocations, id) > 0)
    decreases |allocations|
  {
    if allocations != [] {
      var mid := SettleOne(s, rid, allocations[0], k, t).value;
      OnNonNegative(allocations[1..], id);
      SettleOneConfirms(s, rid, allocations[0], k, t, id, x, mid);
      SettleConfirms(mid, rid, allocations[1..], k, t, id, x, s');
    }
  }

  lemma Distribute(c: int, x: int, y: int)
    ensures c * (x + y) == c * x + c * y
  {
  }

  ghost function Pocket(b: Batch, k: Settlement): int {
    if k.Returning? then b.sold else b.reserved
  }

  /** With enough in the pocket for every allocation, no guard of the loop fires. */
  lemma {:induction false} SettleSucceeds(s: Stock, rid: Id, allocations: seq<Allocation>, k: Settlement, t: Time)
    requires forall a | a in allocations :: a.batch in s.batches && a.portions > 0
    requires forall id | id in s.batches :: On(allocations, id) <= Pocket(s.batches[id], k)
    requires k.Confirming? ==> forall a | a in allocations ::
               s.batches[a.batch].expiresAt > t && !s.batches[a.batch].status.Archived?
    ensures Settle(s, rid, allocations, k, t).Ok?
    decreases |allocations|
  {
    if allocations != [] {
      var a := allocations[0];
      var rest := allocations[1..];
      forall id | id in s.batches
        ensures On(allocations, id) == On([a], id) + On(rest, id) && On(rest, id) >= 0
      {
        OnNonNegative(rest, id);
      }
      assert a.portions <= Pocket(s.batches[a.batch], k);
      var mid := SettleOne(s, rid, a, k, t).value;
      SettleSucceeds(mid, rid, rest, k, t);
    }
  }
}
