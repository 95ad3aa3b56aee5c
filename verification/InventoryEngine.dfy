/** The inventory service as it runs: tables changed in place by loops, with a rollback
    when a transaction fails. Every method is proved equal to the transaction it stands
    for, so the laws of the stock hold of the running service. */
module InventoryEngine {
  import opened Ordering
  import opened InventoryModel
  import opened InventoryLaws
  import opened Fefo
  import opened InventoryInvariant
  import opened Idempotency
  import opened InventoryStore
  import opened InventoryRuns
  import opened InventoryOutcomes
  import opened InventorySweep
  import InventoryTheorems

  // ----- checks on a request ------------------------------------------------

  /** validItems: fills a set of the flavors seen so far. */
  method CheckItems(items: seq<Item>) returns (ok: bool)
    ensures ok <==> WellFormedItems(items)
  {
    if |items| == 0 || |items| > 100 { return false; }
    var seen: set<Id> := {};
    var i := 0;
    while i < |items|
      invariant 0 <= i <= |items|
      invariant forall f :: f in seen <==> exists j :: 0 <= j < i && items[j].flavor == f
      invariant forall j | 0 <= j < i :: items[j].flavor != NIL && 1 <= items[j].portions <= MAX_PORTIONS
      invariant forall j, k | 0 <= j < k < i :: items[j].flavor != items[k].flavor
    {
      if items[i].flavor == NIL || items[i].flavor in seen || items[i].portions < 1 || items[i].portions > MAX_PORTIONS {
        return false;
      }
      seen := seen + {items[i].flavor};
      i := i + 1;
    }
    return true;
  }

  // ----- allocation ---------------------------------------------------------

  /** A batch row with `n` portions moved from available to reserved. */
  function Drawn(b: Batch, n: int): Batch {
    b.(available := b.available - n, reserved := b.reserved + n)
  }

  /** The edited copies of the rows an allocation draws on. */
  ghost predicate Copies(batches: map<Id, Batch>, allocations: seq<Allocation>, held: map<Id, Batch>) {
    forall a | a in allocations ::
      a.batch in batches && a.batch in held && held[a.batch] == Drawn(batches[a.batch], a.portions)
  }

  lemma {:induction false} HoldLimitConcat(batches: map<Id, Batch>, xs: seq<Allocation>, ys: seq<Allocation>, limit: Time)
    requires forall a | a in xs || a in ys :: a.batch in batches
    ensures HoldLimit(batches, xs + ys, limit) == HoldLimit(batches, ys, HoldLimit(batches, xs, limit))
    decreases |xs|
  {
    if xs == [] {
      assert xs + ys == ys;
    } else {
      assert (xs + ys)[1..] == xs[1..] + ys;
      var e := batches[xs[0].batch].expiresAt;
      HoldLimitConcat(batches, xs[1..], ys, if e < limit then e else limit);
    }
  }

  lemma {:induction false} PortionsConcat(xs: seq<Allocation>, ys: seq<Allocation>)
    ensures Portions(xs + ys) == Portions(xs) + Portions(ys)
    decreases |xs|
  {
    if xs == [] {
      assert xs + ys == ys;
    } else {
      assert (xs + ys)[1..] == xs[1..] + ys;
      PortionsConcat(xs[1..], ys);
    }
  }

  lemma TakeStep(batches: map<Id, Batch>, rows: seq<Id>, i: nat, needed: int)
    requires i < |rows| && forall x | x in rows :: x in batches
    ensures var b := batches[rows[i]];
            var take := if needed < b.available then needed else b.available;
            Take(batches, rows[i..], needed) ==
              if needed == 0 then [] else [Allocation(b.flavor, rows[i], take)] + Take(batches, rows[i + 1..], needed - take)
    ensures needed == 0 ==> Take(batches, rows[i + 1..], 0) == []
  {
    assert rows[i..][1..] == rows[i + 1..];
  }

  lemma CopiesStep(batches: map<Id, Batch>, before: seq<Allocation>, taken: seq<Allocation>, held: map<Id, Batch>, a: Allocation)
    requires Copies(batches, before, held) && Copies(batches, taken, held) && a.batch in batches
    requires forall x | x in before || x in taken :: x.batch != a.batch
    ensures var held' := held[a.batch := Drawn(batches[a.batch], a.portions)];
            Copies(batches, before, held') && Copies(batches, taken + [a], held')
  {
  }

  lemma LimitStep(batches: map<Id, Batch>, taken: seq<Allocation>, a: Allocation, end: Time)
    requires a.batch in batches && forall x | x in taken :: x.batch in batches
    ensures var e, l := batches[a.batch].expiresAt, HoldLimit(batches, taken, end);
            HoldLimit(batches, taken + [a], end) == if e < l then e else l
    ensures Portions(taken + [a]) == Portions(taken) + a.portions
  {
    HoldLimitConcat(batches, taken, [a], end);
    PortionsConcat(taken, [a]);
  }

  ghost predicate OnRows(batches: map<Id, Batch>, taken: seq<Allocation>, rows: seq<Id>) {
    forall a | a in taken :: a.batch in rows && a.batch in batches
  }

  /** The row loop of Reserve for one item: walk the locked rows in expiry order, edit
      copies, and keep the earliest expiry met. */
  method AllocateRows(batches: map<Id, Batch>, rows: seq<Id>, portions: int, before: seq<Allocation>, end: Time, copies: map<Id, Batch>)
    returns (taken: seq<Allocation>, expires: Time, held: map<Id, Batch>, needed: int)
    requires Distinct(rows) && forall x | x in rows :: x in batches
    requires Copies(batches, before, copies) && forall a | a in before :: a.batch !in rows
    ensures taken == Take(batches, rows, portions) && OnRows(batches, taken, rows)
    ensures expires == HoldLimit(batches, taken, end)
    ensures Copies(batches, before, held) && Copies(batches, taken, held)
    ensures needed == portions - Portions(taken)
  {
    hide Copies, HoldLimit, Portions, Take;
    needed := portions;
    expires, held := end, copies;
    taken := [];
    EmptyWalk(batches, rows, portions, end, held);
    var i := 0;
    while i < |rows|
      invariant 0 <= i <= |rows|
      invariant taken + Take(batches, rows[i..], needed) == Take(batches, rows, portions)
      invariant OnRows(batches, taken, rows[..i])
      invariant expires == HoldLimit(batches, taken, end)
      invariant needed == portions - Portions(taken)
      invariant Copies(batches, before, held) && Copies(batches, taken, held)
    {
      TakeStep(batches, rows, i, needed);
      var id := rows[i];
      var b := batches[id];
      assert id !in rows[..i];
      assert rows[..i + 1] == rows[..i] + [id];
      if needed != 0 {
        var take := if needed < b.available then needed else b.available;
        var a := Allocation(b.flavor, id, take);
        CopiesStep(batches, before, taken, held, a);
        LimitStep(batches, taken, a, end);
        assert taken + ([a] + Take(batches, rows[i + 1..], needed - take)) == (taken + [a]) + Take(batches, rows[i + 1..], needed - take);
        b := b.(available := b.available - take, reserved := b.reserved + take);
        needed := needed - take;
        held := held[id := b];
        taken := taken + [a];
        if b.expiresAt < expires {
          expires := b.expiresAt;
        }
      }
      i := i + 1;
    }
    assert rows[i..] == [] && rows[..i] == rows;
    NoRowsLeft(batches, needed);
  }

  lemma EmptyWalk(batches: map<Id, Batch>, rows: seq<Id>, portions: int, end: Time, held: map<Id, Batch>)
    requires forall x | x in rows :: x in batches
    ensures [] + Take(batches, rows[0..], portions) == Take(batches, rows, portions)
    ensures HoldLimit(batches, [], end) == end && Portions([]) == 0 && Copies(batches, [], held)
  {
    assert rows[0..] == rows;
  }

  lemma NoRowsLeft(batches: map<Id, Batch>, needed: int)
    ensures Take(batches, [], needed) == []
  {
  }

  lemma {:induction false} PlanPrefix(batches: map<Id, Batch>, items: seq<Item>, t: Time)
    requires items != []
    ensures Portions(Walk(batches, items[0], t)) < items[0].portions ==> Plan(batches, items, t) == Err(OutOfStock)
    ensures Portions(Walk(batches, items[0], t)) >= items[0].portions ==>
              Plan(batches, items, t) == Prepended(Walk(batches, items[0], t), Plan(batches, items[1..], t))
  {
  }

  ghost function Prepended(done: seq<Allocation>, rest: Result<seq<Allocation>>): Result<seq<Allocation>> {
    match rest
    case Err(e) => Err(e)
    case Ok(more) => Ok(done + more)
  }

  ghost predicate OfFlavors(batches: map<Id, Batch>, taken: seq<Allocation>, items: seq<Item>) {
    forall a | a in taken :: a.batch in batches && Asks(items, batches[a.batch].flavor)
  }

  lemma OfFlavorsNext(batches: map<Id, Batch>, done: seq<Allocation>, items: seq<Item>, i: nat, t: Time, taken: seq<Allocation>)
    requires i < |items| && OfFlavors(batches, done, items[..i])
    requires OnRows(batches, taken, FefoRows(batches, items[i].flavor, t))
    ensures OfFlavors(batches, done + taken, items[..i + 1])
  {
    var sofar := items[..i + 1];
    forall a | a in done + taken ensures a.batch in batches && Asks(sofar, batches[a.batch].flavor) {
      if a in done {
        var j :| 0 <= j < i && items[..i][j].flavor == batches[a.batch].flavor;
        assert sofar[j] == items[..i][j];
      } else {
        assert sofar[i].flavor == batches[a.batch].flavor;
      }
    }
  }

  lemma OfFlavorsApart(batches: map<Id, Batch>, done: seq<Allocation>, items: seq<Item>, i: nat, t: Time)
    requires i < |items| && OfFlavors(batches, done, items[..i]) && Fefo.ValidItems(items)
    ensures forall a | a in done :: a.batch !in FefoRows(batches, items[i].flavor, t)
  {
  }

  /** The item loop of Reserve. */
  method Allocate(batches: map<Id, Batch>, items: seq<Item>, t: Time, limit: Time)
    returns (r: Result<seq<Allocation>>, expires: Time, held: map<Id, Batch>)
    requires Fefo.ValidItems(items)
    ensures r == Plan(batches, items, t)
    ensures r.Ok? ==> (forall a | a in r.value :: a.batch in batches) && expires == HoldLimit(batches, r.value, limit) && Copies(batches, r.value, held)
  {
    hide Plan, HoldLimit, Copies, OnRows, OfFlavors, FefoRows;
    var done: seq<Allocation> := [];
    expires, held := limit, map[];
    var i := 0;
    StartAllocation(batches, items, t, limit);
    while i < |items|
      invariant 0 <= i <= |items|
      invariant Plan(batches, items, t) == Prepended(done, Plan(batches, items[i..], t))
      invariant OfFlavors(batches, done, items[..i])
      invariant forall a | a in done :: a.batch in batches
      invariant expires == HoldLimit(batches, done, limit)
      invariant Copies(batches, done, held)
    {
      var rows := FefoRows(batches, items[i].flavor, t);
      FefoRowsStocked(batches, items[i].flavor, t);
      OfFlavorsApart(batches, done, items, i, t);
      var taken, end, copies, needed := AllocateRows(batches, rows, items[i].portions, done, expires, held);
      assert taken == Walk(batches, items[i], t);
      PlanPrefix(batches, items[i..], t);
      assert items[i..][1..] == items[i + 1..];
      if needed > 0 {
        return Err(OutOfStock), expires, held;
      }
      PrependTwice(done, taken, Plan(batches, items[i + 1..], t));
      OfFlavorsNext(batches, done, items, i, t, taken);
      KnownRows(batches, taken, rows);
      HoldLimitConcat(batches, done, taken, limit);
      CopiesConcat(batches, done, taken, copies);
      done, expires, held := done + taken, end, copies;
      i := i + 1;
    }
    assert items[i..] == [];
    NothingLeft(batches, done, t);
    r := Ok(done);
  }

  lemma StartAllocation(batches: map<Id, Batch>, items: seq<Item>, t: Time, limit: Time)
    ensures Plan(batches, items, t) == Prepended([], Plan(batches, items[0..], t))
    ensures OfFlavors(batches, [], items[..0]) && HoldLimit(batches, [], limit) == limit && Copies(batches, [], map[])
  {
    assert items[0..] == items;
    if Plan(batches, items, t).Ok? {
      assert [] + Plan(batches, items, t).value == Plan(batches, items, t).value;
    }
  }

  lemma NothingLeft(batches: map<Id, Batch>, done: seq<Allocation>, t: Time)
    ensures Prepended(done, Plan(batches, [], t)) == Ok(done)
  {
    assert done + [] == done;
  }

  lemma PrependTwice(xs: seq<Allocation>, ys: seq<Allocation>, rest: Result<seq<Allocation>>)
    ensures Prepended(xs, Prepended(ys, rest)) == Prepended(xs + ys, rest)
  {
    if rest.Ok? {
      assert xs + (ys + rest.value) == (xs + ys) + rest.value;
    }
  }

  lemma KnownRows(batches: map<Id, Batch>, taken: seq<Allocation>, rows: seq<Id>)
    requires OnRows(batches, taken, rows)
    ensures forall a | a in taken :: a.batch in batches
  {
  }

  lemma CopiesConcat(batches: map<Id, Batch>, xs: seq<Allocation>, ys: seq<Allocation>, held: map<Id, Batch>)
    requires Copies(batches, xs, held) && Copies(batches, ys, held)
    ensures Copies(batches, xs + ys, held)
  {
  }

  // ----- the write loop -----------------------------------------------------

  lemma HoldStarts(s: Stock, rid: Id, allocations: seq<Allocation>, held: map<Id, Batch>, t: Time)
    requires Copies(s.batches, allocations, held)
    ensures (forall a | a in allocations :: a.batch in s.batches) && allocations[0..] == allocations
  {
  }

  lemma CopyOf(batches: map<Id, Batch>, allocations: seq<Allocation>, held: map<Id, Batch>, i: nat)
    requires Copies(batches, allocations, held) && i < |allocations|
    ensures var a := allocations[i]; a.batch in batches && a.batch in held && held[a.batch] == Drawn(batches[a.batch], a.portions)
  {
  }

  lemma HoldsNext(s: Stock, rid: Id, allocations: seq<Allocation>, i: nat, t: Time)
    requires i < |allocations| && forall a | a in allocations :: a.batch in s.batches
    ensures Hold(s, rid, allocations[i..], t) == Hold(HoldOne(s, rid, allocations[i], t), rid, allocations[i + 1..], t)
  {
    assert allocations[i..][1..] == allocations[i + 1..];
  }

  lemma HoldsDone(s: Stock, rid: Id, allocations: seq<Allocation>, t: Time)
    ensures Hold(s, rid, allocations[|allocations|..], t) == s
  {
  }

  // ----- the service --------------------------------------------------------

  class InventoryService {
    const ttl: int
    var batches: map<Id, Batch>
    var reservations: map<Id, Reservation>
    var ledger: seq<Movement>
    var wastes: seq<WasteRecord>
    var table: Table
    var clock: Time

    constructor (ttl: int)
      ensures View() == EMPTY_STORE && this.ttl == ttl
    {
      this.ttl := ttl;
      batches, reservations, ledger, wastes, table, clock := map[], map[], [], [], map[], 0;
    }

    function Tables(): Stock
      reads this
    {
      Stock(batches, reservations, ledger, wastes)
    }

    function View(): Store
      reads this
    {
      Store(Tables(), table, clock)
    }

    // ----- rows

    method SaveBatch(id: Id, b: Batch, t: Time)
      modifies this`batches
      ensures Tables() == Save(old(Tables()), id, b, t)
    {
      batches := batches[id := b.(status := StatusAt(b, t))];
    }

    method RecordMovement(batch: Id, res: Option<Id>, kind: Kind, n: int, t: Time)
      modifies this`ledger
      ensures Tables() == Move(old(Tables()), batch, res, kind, n, t)
    {
      ledger := ledger + [Movement(batch, res, kind, n, t)];
    }

    method RecordWaste(id: Id, b: Batch, n: int, reason: WasteReason, note: string, res: Option<Id>, t: Time)
      returns (w: WasteRecord)
      modifies this`ledger, this`wastes
      ensures w == WasteRecord(id, b.flavor, n, reason, note, b.unitCost * n, t)
      ensures Tables() == WriteOff(old(Tables()), id, b, n, reason, note, res, t)
    {
      w := WasteRecord(id, b.flavor, n, reason, note, b.unitCost * n, t);
      wastes := wastes + [w];
      RecordMovement(id, res, Wasted, n, t);
    }

    method Rollback(saved: Stock)
      modifies this`batches, this`reservations, this`ledger, this`wastes
      ensures Tables() == saved
    {
      batches, reservations, ledger, wastes := saved.batches, saved.reservations, saved.ledger, saved.wastes;
    }

    // ----- settlement

    method SettleAllocation(rid: Id, a: Allocation, k: Settlement, t: Time) returns (r: Result<()>)
      modifies this`batches, this`ledger, this`wastes
      ensures match SettleOne(old(Tables()), rid, a, k, t)
              case Ok(s) => r == Ok(()) && Tables() == s
              case Err(e) => r == Err(e)
    {
      if a.batch !in batches { return Err(NotFound); }
      var b := batches[a.batch];
      if k.Returning? {
        if b.sold < a.portions { return Err(WrongState); }
        b := b.(sold := b.sold - a.portions);
      } else {
        if b.reserved < a.portions { return Err(WrongState); }
        b := b.(reserved := b.reserved - a.portions);
      }
      if k.Confirming? {
        if b.expiresAt <= t || b.status.Archived? { return Err(WrongState); }
        b := b.(sold := b.sold + a.portions);
        RecordMovement(a.batch, Some(rid), Confirmed, a.portions, t);
      } else if b.expiresAt <= t {
        b := b.(wasted := b.wasted + a.portions);
        var _ := RecordWaste(a.batch, b, a.portions, PastExpiry, SpoiltNote(k), Some(rid), t);
      } else {
        b := b.(available := b.available + a.portions);
        RecordMovement(a.batch, Some(rid), if k.Returning? then Returned else Released, a.portions, t);
      }
      SaveBatch(a.batch, b, t);
      r := Ok(());
    }

    method SettleAll(rid: Id, allocations: seq<Allocation>, k: Settlement, t: Time) returns (r: Result<()>)
      modifies this`batches, this`ledger, this`wastes
      ensures match Settle(old(Tables()), rid, allocations, k, t)
              case Ok(s) => r == Ok(()) && Tables() == s
              case Err(e) => r == Err(e)
    {
      var i := 0;
      while i < |allocations|
        invariant 0 <= i <= |allocations|
        invariant Settle(Tables(), rid, allocations[i..], k, t) == Settle(old(Tables()), rid, allocations, k, t)
      {
        hide SettleOne;
        assert allocations[i..][1..] == allocations[i + 1..];
        var one := SettleAllocation(rid, allocations[i], k, t);
        if one.Err? { return Err(one.error); }
        i := i + 1;
      }
      r := Ok(());
    }

    method CloseReservation(rid: Id, r: Reservation, target: HoldStatus, reason: string)
      modifies this`reservations
      ensures Tables() == Close(old(Tables()), rid, r, target, reason)
    {
      reservations := reservations[rid := r.(status := target, releaseReason := reason)];
    }

    /** `transition` inside its transaction; on an error the caller rolls back. */
    method TransitionInside(rid: Id, order: Id, reason: string, confirm: bool, expiry: bool, t: Time)
      returns (r: Result<Reservation>)
      modifies this`batches, this`ledger, this`wastes, this`reservations
      ensures match InventoryModel.Transition(old(Tables()), rid, order, reason, confirm, expiry, t)
              case Ok((s, hold)) => r == Ok(hold) && Tables() == s
              case Err(e) => r == Err(e)
    {
      if rid !in reservations || reservations[rid].order != order { return Err(NotFound); }
      var hold := reservations[rid];
      if expiry && (hold.status != ACTIVE || hold.expiresAt > t) { return Ok(hold); }
      if hold.status != ACTIVE {
        if (confirm && hold.status == CONFIRMED) || (!confirm && (hold.status == RELEASED || hold.status == EXPIRED)) {
          return Ok(hold);
        }
        return Err(WrongState);
      }
      if confirm && hold.expiresAt <= t { return Err(WrongState); }
      var target := RELEASED;
      if confirm {
        target := CONFIRMED;
      } else if expiry || hold.expiresAt <= t {
        target := EXPIRED;
      }
      hide Settle;
      var settled := SettleAll(rid, hold.allocations, if confirm then Confirming else Releasing, t);
      if settled.Err? { return Err(settled.error); }
      CloseReservation(rid, hold, target, reason);
      r := Ok(hold.(status := target));
    }

    method ReturnInside(rid: Id, order: Id, reason: string, t: Time) returns (r: Result<Reservation>)
      modifies this`batches, this`ledger, this`wastes, this`reservations
      ensures match ReturnConfirmed(old(Tables()), rid, order, reason, t)
              case Ok((s, hold)) => r == Ok(hold) && Tables() == s
              case Err(e) => r == Err(e)
    {
      if rid !in reservations || reservations[rid].order != order { return Err(NotFound); }
      var hold := reservations[rid];
      if hold.status == RETURNED { return Ok(hold); }
      if hold.status != CONFIRMED { return Err(WrongState); }
      hide Settle;
      var settled := SettleAll(rid, hold.allocations, Returning, t);
      if settled.Err? { return Err(settled.error); }
      CloseReservation(rid, hold, RETURNED, reason);
      r := Ok(hold.(status := RETURNED));
    }

    // ----- idempotent mutations

    /** The claim loop of mutateKeys: which keys are new, and what an earlier commit answered. */
    method ClaimKeys(keys: seq<Key>, request: Request) returns (replay: Result<Option<Response>>, claimed: seq<Key>)
      ensures replay == Claim(table, keys, request, None)
      ensures replay.Ok? ==> forall k :: k in claimed <==> k in keys && k !in table
    {
      var answer: Option<Response> := None;
      claimed := [];
      var i := 0;
      while i < |keys|
        invariant 0 <= i <= |keys|
        invariant Claim(table, keys, request, None) == Claim(table, keys[i..], request, answer)
        invariant forall k :: k in claimed <==> k in keys[..i] && k !in table
        invariant i > 0 && keys[i - 1] in table ==> answer == Some(table[keys[i - 1]].response) && table[keys[i - 1]].request == request
      {
        var key := keys[i];
        assert keys[i..][0] == key && keys[i..][1..] == keys[i + 1..];
        assert keys[..i + 1] == keys[..i] + [key];
        if i > 0 && key == keys[i - 1] {
          i := i + 1;
          continue;
        }
        if key !in table {
          claimed := claimed + [key];
          i := i + 1;
          continue;
        }
        var saved := table[key];
        if saved.request != request { return Err(Conflict), claimed; }
        if answer.Some? && answer.value != saved.response { return Err(Conflict), claimed; }
        answer := Some(saved.response);
        i := i + 1;
      }
      assert keys[..i] == keys;
      replay := Ok(answer);
    }

    method BindKeys(claimed: seq<Key>, request: Request, response: Response, ghost keys: seq<Key>)
      requires forall k :: k in claimed <==> k in keys && k !in table
      modifies this`table
      ensures table == Bind(old(table), keys, Record(request, response))
    {
      ghost var before := table;
      var i := 0;
      while i < |claimed|
        invariant 0 <= i <= |claimed|
        invariant forall k :: k in table <==> k in before || k in claimed[..i]
        invariant forall k | k in table :: table[k] == if k in before then before[k] else Record(request, response)
      {
        assert claimed[i] in claimed;
        assert claimed[..i + 1] == claimed[..i] + [claimed[i]];
        table := table[claimed[i] := Record(request, response)];
        i := i + 1;
      }
      assert claimed[..i] == claimed;
      BindMeaning(before, keys, Record(request, response));
    }
  
    // ----- stock effects inside a transaction

    /** The write loop of Reserve saves the copies edited while the rows were walked; as no
        batch repeats, that is the same as editing the stored rows one by one. */
    method WriteHolds(rid: Id, allocations: seq<Allocation>, held: map<Id, Batch>, t: Time)
      requires NoRepeat(allocations) && Copies(batches, allocations, held)
      modifies this`batches, this`ledger
      ensures (forall a | a in allocations :: a.batch in old(batches)) && Tables() == Hold(old(Tables()), rid, allocations, t)
    {
      hide Hold, Copies;
      ghost var start := Tables();
      HoldStarts(start, rid, allocations, held, t);
      var i := 0;
      while i < |allocations|
        invariant 0 <= i <= |allocations|
        invariant batches.Keys == start.batches.Keys
        invariant forall j | i <= j < |allocations| :: batches[allocations[j].batch] == start.batches[allocations[j].batch]
        invariant Hold(Tables(), rid, allocations[i..], t) == Hold(start, rid, allocations, t)
      {
        var a := allocations[i];
        CopyOf(start.batches, allocations, held, i);
        HoldsNext(Tables(), rid, allocations, i, t);
        SaveBatch(a.batch, held[a.batch], t);
        RecordMovement(a.batch, Some(rid), Reserved, a.portions, t);
        i := i + 1;
      }
      HoldsDone(Tables(), rid, allocations, t);
    }

    method ReserveInside(rid: Id, order: Id, items: seq<Item>, t: Time, current: Time) returns (r: Result<Reservation>)
      requires Fefo.ValidItems(items)
      modifies this`batches, this`ledger, this`reservations
      ensures match InventoryModel.Reserve(old(Tables()), rid, order, items, ttl, t, current)
              case Ok((s, hold)) => r == Ok(hold) && Tables() == s
              case Err(e) => r == Err(e)
    {
      hide InventoryModel.Reserve, Plan, HoldLimit, Copies, Hold, Fefo.ValidItems, NoRepeat;
      ReserveUnfolds(Tables(), rid, order, items, ttl, t, current);
      if OrderHasHold(Tables(), order) { return Err(Conflict); }
      if ttl <= 0 { return Err(Invalid); }
      var plan, expires, held := Allocate(batches, items, t, t + ttl);
      if plan.Err? { return Err(plan.error); }
      if expires <= current { return Err(WrongState); }
      PlanRepeatsNone(batches, items, t);
      var hold := Reservation(order, ACTIVE, plan.value, t, expires, "");
      reservations := reservations[rid := hold];
      WriteHolds(rid, plan.value, held, current);
      r := Ok(hold);
    }

    method DiscardInside(id: Id, n: int, reason: WasteReason, note: string, t: Time) returns (r: Result<WasteRecord>)
      modifies this`batches, this`ledger, this`wastes
      ensures match Discard(old(Tables()), id, n, reason, note, t)
              case Ok((s, w)) => r == Ok(w) && Tables() == s
              case Err(e) => r == Err(e)
    {
      if id !in batches { return Err(NotFound); }
      var b := batches[id];
      if b.status.Archived? { return Err(WrongState); }
      if reason.PastExpiry? && b.expiresAt > t { return Err(Invalid); }
      if b.available < n { return Err(OutOfStock); }
      b := b.(available := b.available - n, wasted := b.wasted + n);
      var w := RecordWaste(id, b, n, reason, note, None, t);
      SaveBatch(id, b, t);
      r := Ok(w);
    }

    method CreateInside(id: Id, p: Production, t: Time) returns (r: Result<Batch>)
      requires ValidProduction(p)
      modifies this`batches, this`ledger
      ensures match Create(old(Tables()), id, p, t)
              case Ok((s, b)) => r == Ok(b) && Tables() == s
              case Err(e) => r == Err(e)
    {
      if p.expiresAt <= t { return Err(Invalid); }
      if exists x | x in batches :: batches[x].code == p.code { return Err(BatchCodeConflict); }
      var b := Batch(p.code, p.flavor, p.expiresAt, t, p.initial, p.initial, 0, 0, 0, p.unitCost.value, Active);
      batches := batches[id := b];
      RecordMovement(id, None, Produced, p.initial, t);
      r := Ok(b);
    }

    // ----- calls

    method Reserve(order: Id, key: Id, items: seq<Item>, rid: Id, t: Time, current: Time) returns (a: Result<Response>)
      modifies this
      ensures (View(), a) == StepReserve(old(View()), ttl, CallReserve(order, key, items, rid, t, current))
    {
      var ok := CheckItems(items);
      if !ok || order == NIL || key == NIL { return Err(Invalid); }
      SortedItemsValid(items);
      hide Fefo.ValidItems, WellFormedItems, InventoryModel.Reserve, Claim, Bind;
      var sorted, saved := SortItems(items), Tables();
      var request, keys := HoldRequest(order, key, sorted), SortKeys([Key(ReserveOp, key)]);
      var replay, claimed := ClaimKeys(keys, request);
      clock := current;
      if replay.Err? { return Err(replay.error); }
      if replay.value.Some? {
        a := Ok(replay.value.value);
      } else {
        var r := ReserveInside(rid, order, sorted, t, current);
        if r.Err? {
          Rollback(saved);
          return Err(r.error);
        }
        a := Ok(HoldResponse(rid, r.value));
      }
      BindKeys(claimed, request, a.value, keys);
    }

    method Transition(confirm: bool, rid: Id, order: Id, key: Id, reason: string, t: Time) returns (a: Result<Response>)
      modifies this
      ensures (View(), a) == StepTransition(old(View()), CallTransition(confirm, rid, order, key, reason, t))
    {
      if rid == NIL || order == NIL || key == NIL || !ShortText(reason) { return Err(Invalid); }
      var op, why := ReleaseOp, reason;
      if confirm {
        op, why := ConfirmOp, "";
      }
      hide InventoryModel.Transition, Claim, Bind;
      var saved := Tables();
      var request, keys := ChangeRequest(rid, order, key, why), SortKeys([Key(op, key)]);
      var replay, claimed := ClaimKeys(keys, request);
      clock := t;
      if replay.Err? { return Err(replay.error); }
      if replay.value.Some? {
        a := Ok(replay.value.value);
      } else {
        var r := TransitionInside(rid, order, why, confirm, false, t);
        if r.Err? {
          Rollback(saved);
          return Err(r.error);
        }
        a := Ok(HoldResponse(rid, r.value));
      }
      BindKeys(claimed, request, a.value, keys);
    }

    method Return(rid: Id, order: Id, key: Id, reason: string, t: Time) returns (a: Result<Response>)
      modifies this
      ensures (View(), a) == StepReturn(old(View()), CallReturn(rid, order, key, reason, t))
    {
      if rid == NIL || order == NIL || key == NIL || !ShortText(reason) { return Err(Invalid); }
      hide ReturnConfirmed, Claim, Bind;
      var saved := Tables();
      var request, keys := ChangeRequest(rid, order, key, reason), SortKeys([Key(ReturnOp, key)]);
      var replay, claimed := ClaimKeys(keys, request);
      clock := t;
      if replay.Err? { return Err(replay.error); }
      if replay.value.Some? {
        a := Ok(replay.value.value);
      } else {
        var r := ReturnInside(rid, order, reason, t);
        if r.Err? {
          Rollback(saved);
          return Err(r.error);
        }
        a := Ok(HoldResponse(rid, r.value));
      }
      BindKeys(claimed, request, a.value, keys);
    }

    method Waste(batch: Id, actor: Id, portions: int, why: WasteReason, note: string, key: Id, alias: Option<Id>, t: Time)
      returns (a: Result<Response>)
      modifies this
      ensures (View(), a) == StepWaste(old(View()), CallWaste(batch, actor, portions, why, note, key, alias, t))
    {
      if batch == NIL || actor == NIL || key == NIL { return Err(Invalid); }
      if portions < 1 || portions > MAX_PORTIONS || why.UnknownReason? || !ShortText(note) { return Err(Invalid); }
      hide Discard, Claim, Bind, SortKeys;
      var keys := [Key(WasteOp(actor), key)];
      if alias.Some? {
        keys := keys + [Key(RestWasteOp(actor), alias.value)];
      }
      assert keys == WasteKeys(actor, key, alias);
      SomeKeys(keys);
      keys := SortKeys(keys);
      var saved := Tables();
      var request := DiscardRequest(batch, portions, why, note, key);
      var replay, claimed := ClaimKeys(keys, request);
      clock := t;
      if replay.Err? { return Err(replay.error); }
      if replay.value.Some? {
        a := Ok(replay.value.value);
      } else {
        var r := DiscardInside(batch, portions, why, note, t);
        if r.Err? {
          Rollback(saved);
          return Err(r.error);
        }
        a := Ok(WasteResponse(r.value));
      }
      BindKeys(claimed, request, a.value, keys);
    }

    /** A keyed retry is looked up before the catalog is asked about the flavor. */
    method CreateBatch(actor: Id, production: Production, id: Id, alias: Option<Id>, listed: bool, t: Time)
      returns (a: Result<Response>)
      modifies this
      ensures (View(), a) == StepCreate(old(View()), CallCreate(actor, production, id, alias, listed, t))
    {
      if actor == NIL || !ValidProduction(production) { return Err(Invalid); }
      hide Create, Claim, Bind;
      var saved := Tables();
      clock := t;
      if alias.None? {
        if !listed { return Err(Dependency); }
        var made := CreateInside(id, production, t);
        if made.Err? {
          Rollback(saved);
          return Err(made.error);
        }
        return Ok(BatchResponse(id, made.value));
      }
      var request, keys := ProduceRequest(production), SortKeys([Key(CreateOp(actor), alias.value)]);
      var replay, claimed := ClaimKeys(keys, request);
      if replay.Err? { return Err(replay.error); }
      if replay.value.Some? {
        a := Ok(replay.value.value);
      } else {
        if !listed { return Err(Dependency); }
        var made := CreateInside(id, production, t);
        if made.Err? {
          Rollback(saved);
          return Err(made.error);
        }
        a := Ok(BatchResponse(id, made.value));
      }
      BindKeys(claimed, request, a.value, keys);
    }

    method ExpireBatch(id: Id, t: Time) returns (a: Result<Response>)
      modifies this
      ensures (View(), a) == StepExpireBatch(old(View()), CallExpireBatch(id, t))
    {
      clock := t;
      if id !in batches { return Err(NotFound); }
      var b := batches[id];
      if b.expiresAt > t || b.status.Archived? { return Ok(BatchResponse(id, b)); }
      if b.available > 0 {
        var n := b.available;
        b := b.(available := 0, wasted := b.wasted + n);
        var _ := RecordWaste(id, b, n, PastExpiry, "batch expiry", None, t);
      }
      SaveBatch(id, b, t);
      a := Ok(BatchResponse(id, batches[id]));
    }

    method ExpireHold(rid: Id, order: Id, t: Time) returns (a: Result<Response>)
      modifies this
      ensures (View(), a) == StepExpireHold(old(View()), CallExpireHold(rid, order, t))
    {
      hide InventoryModel.Transition;
      clock := t;
      var saved := Tables();
      var r := TransitionInside(rid, order, TIMEOUT, false, true, t);
      if r.Err? {
        Rollback(saved);
        return Err(r.error);
      }
      a := Ok(HoldResponse(rid, r.value));
    }

    // ----- the sweep

    /** The timeout loop: one transaction for each reservation found; none can fail. */
    method TimeOutHolds(holds: seq<Id>, orders: seq<Id>, readings: nat -> Time, ghost states: seq<Store>)
      returns (r: Result<()>, ghost states': seq<Store>, ghost calls: seq<Call>)
      requires |orders| == |holds| && states == [View()] && IsSegment(states, [], ttl)
      requires Ascending(readings) && clock <= readings(1)
      requires forall i | 0 <= i < |holds| :: InventoryTheorems.Known(Tables(), holds[i], orders[i])
      modifies this
      ensures r == Ok(()) && IsSegment(states', calls, ttl) && |calls| == |holds|
      ensures states'[0] == old(View()) && states'[|calls|] == View() && clock <= readings(|holds| + 1)
      ensures forall i | 0 <= i < |holds| :: calls[i] == CallExpireHold(holds[i], orders[i], readings(i + 1))
    {
      hide IsSegment, StepExpireHold, InventoryTheorems.Known, GoodStep, Ascending;
      states', calls := states, [];
      var i := 0;
      while i < |holds|
        invariant 0 <= i <= |holds| == |orders|
        invariant IsSegment(states', calls, ttl) && |calls| == i && |states'| == i + 1 && states'[i] == View() && states'[0] == old(View())
        invariant clock <= readings(i + 1)
        invariant forall m | i <= m < |holds| :: InventoryTheorems.Known(Tables(), holds[m], orders[m])
        invariant forall m | 0 <= m < i :: calls[m] == CallExpireHold(holds[m], orders[m], readings(m + 1))
      {
        ghost var c := CallExpireHold(holds[i], orders[i], readings(i + 1));
        SegmentSound(states', calls, ttl, i);
        ghost var before := View();
        TimeoutAnswers(before, c);
        var a := ExpireHold(holds[i], orders[i], readings(i + 1));
        ExtendSegment(states', calls, ttl, c);
        KnownLater(before, View(), holds, orders);
        states', calls := states' + [View()], calls + [c];
        i := i + 1;
        Rises(readings, i, i + 1);
      }
      r := Ok(());
    }

    /** The write-off loop, continuing the run recorded so far; none can fail. */
    method WriteOffBatches(found: seq<Id>, first: nat, readings: nat -> Time, ghost states: seq<Store>, ghost done: seq<Call>)
      returns (r: Result<()>, ghost states': seq<Store>, ghost calls: seq<Call>)
      requires IsSegment(states, done, ttl) && |states| == |done| + 1 && states[|done|] == View()
      requires Ascending(readings) && clock <= readings(first) && forall id | id in found :: id in batches
      modifies this
      ensures r == Ok(()) && IsSegment(states', calls, ttl) && |calls| == |done| + |found|
      ensures done == calls[..|done|] && states == states'[..|states|] && states'[|calls|] == View()
      ensures forall m | 0 <= m < |found| :: calls[|done| + m] == CallExpireBatch(found[m], readings(first + m))
    {
      hide IsSegment, StepExpireBatch, GoodStep, Ascending;
      states', calls := states, done;
      ghost var n := |done|;
      var i := 0;
      while i < |found|
        invariant 0 <= i <= |found|
        invariant IsSegment(states', calls, ttl) && |calls| == n + i && |states'| == n + i + 1 && states'[n + i] == View()
        invariant calls[..n] == done && states'[..n + 1] == states
        invariant clock <= readings(first + i) && forall id | id in found :: id in batches
        invariant forall m | 0 <= m < i :: calls[n + m] == CallExpireBatch(found[m], readings(first + m))
      {
        ghost var c := CallExpireBatch(found[i], readings(first + i));
        ghost var before := View();
        WriteOffAnswers(before, c);
        var a := ExpireBatch(found[i], readings(first + i));
        ExtendSegment(states', calls, ttl, c);
        BatchesLater(before, View());
        states', calls := states' + [View()], calls + [c];
        i := i + 1;
        Rises(readings, first + i - 1, first + i);
      }
      r := Ok(());
    }

    /** Sweep, with one clock reading for each query and each transaction. `covered` tells
        whether neither query was cut short by the limit. */
    method Sweep(limit: int, readings: nat -> Time) returns (r: Result<()>, covered: bool)
      requires ValidStore(View()) && NoneArchived(Tables()) && Ascending(readings) && clock <= readings(0)
      modifies this
      ensures r == if 1 <= limit <= 1000 then Ok(()) else Err(Invalid)
      ensures r.Err? ==> View() == old(View())
      ensures ValidStore(View()) && NoneArchived(Tables())
      ensures r.Ok? && covered ==> SweptAsOf(Tables(), readings(0))
      ensures r.Ok? && |old(reservations)| <= limit && |old(batches)| <= limit ==> covered
    {
      if limit < 1 || limit > 1000 { return Err(Invalid), false; }
      hide ValidStore, NoneArchived, Ascending, IsSegment, TimedOut, WrittenOff, OverdueAt, StockedAt;
      var covered', used;
      ghost var states, calls, states', calls';
      covered, used, states, calls := SweepHolds(limit, readings);
      covered', states', calls' := SweepBatches(limit, used, readings, states, calls);
      SegmentLong(states', calls', ttl);
      SegmentSound(states', calls', ttl, |calls'|);
      covered := covered && covered';
      r := Ok(());
      if covered {
        TimedOutStill(calls, calls');
        SweepCompletes(states', calls', ttl, 0, used, |calls'|, |calls'|, readings(0));
      }
    }

    method SweepHolds(limit: nat, readings: nat -> Time) returns (covered: bool, used: nat, ghost states: seq<Store>, ghost calls: seq<Call>)
      requires ValidStore(View()) && NoneArchived(Tables()) && Ascending(readings) && clock <= readings(0)
      modifies this
      ensures IsSegment(states, calls, ttl) && |states| == used + 1 && |calls| == used
      ensures states[0] == old(View()).(clock := readings(0)) && states[used] == View()
      ensures clock <= readings(used + 1) && batches.Keys == old(batches.Keys)
      ensures covered ==> forall rid: Id | OverdueAt(states[0].stock, rid, readings(0)) :: TimedOut(calls, 0, used, rid, states[0].stock.reservations[rid].order)
      ensures |old(reservations)| <= limit ==> covered
    {
      ghost var start := View().(clock := readings(0));
      ValidLater(Tables(), clock, readings(0));
      clock := readings(0);
      hide ValidStore, NoneArchived, IsSegment, Valid, TimedOut;
      var overdue := OverdueRows(reservations, clock);
      covered := |overdue| <= limit;
      var holds := overdue[..if covered then |overdue| else limit];
      var orders := OrdersOf(reservations, holds);
      StartSegment(View(), ttl);
      Rises(readings, 0, 1);
      AllKnown(Tables(), holds);
      hide Ascending, OverdueAt, OverdueRows, OrdersOf, InventoryTheorems.Known;
      var timed;
      timed, states, calls := TimeOutHolds(holds, orders, readings, [View()]);
      used := |holds|;
      SegmentLong(states, calls, ttl);
      SizesKept(states, calls, ttl, used);
      if covered {
        assert holds == overdue;
        CoverHolds(states, calls, used, holds, orders, readings, readings(0));
      }
    }

    method SweepBatches(limit: nat, used: nat, readings: nat -> Time, ghost states: seq<Store>, ghost calls: seq<Call>)
      returns (covered: bool, ghost states': seq<Store>, ghost calls': seq<Call>)
      requires IsSegment(states, calls, ttl) && |states| == used + 1 && |calls| == used && states[used] == View()
      requires Ascending(readings) && clock <= readings(used + 1)
      modifies this
      ensures IsSegment(states', calls', ttl) && used <= |calls'| && calls == calls'[..used] && |states'| == |calls'| + 1
      ensures states'[0] == states[0] && states'[used] == states[used] && states'[|calls'|] == View()
      ensures covered ==> forall id: Id | StockedAt(states'[used].stock, id, readings(0)) :: WrittenOff(calls', used, |calls'|, id)
      ensures |old(batches.Keys)| <= limit ==> covered
    {
      hide IsSegment;
      var t1 := readings(used + 1);
      var expired := ExpiredRows(batches, t1);
      covered := |expired| <= limit;
      assert |batches| == |batches.Keys|;
      var found := expired[..if covered then |expired| else limit];
      Rises(readings, used + 1, used + 2);
      Rises(readings, 0, used + 1);
      hide Ascending;
      var r;
      r, states', calls' := WriteOffBatches(found, used + 2, readings, states, calls);
      SegmentLong(states', calls', ttl);
      assert states'[..|states|][0] == states'[0] && states'[..|states|][used] == states'[used];
      if covered {
        assert found == expired;
        CoverBatches(states', calls', ttl, used, |calls'|, found, used + 2, readings, readings(0), t1);
      }
    }
  }

  function OrdersOf(reservations: map<Id, Reservation>, holds: seq<Id>): (orders: seq<Id>)
    requires forall x | x in holds :: x in reservations
    ensures |orders| == |holds| && forall i | 0 <= i < |holds| :: orders[i] == reservations[holds[i]].order
  {
    seq(|holds|, i requires 0 <= i < |holds| => reservations[holds[i]].order)
  }

  lemma AllKnown(s: Stock, holds: seq<Id>)
    requires forall x | x in holds :: x in s.reservations
    ensures forall i | 0 <= i < |holds| :: InventoryTheorems.Known(s, holds[i], OrdersOf(s.reservations, holds)[i])
  {
  }

  lemma TimedOutStill(calls: seq<Call>, calls': seq<Call>)
    requires |calls| <= |calls'| && calls == calls'[..|calls|]
    ensures forall rid: Id, order: Id | TimedOut(calls, 0, |calls|, rid, order) :: TimedOut(calls', 0, |calls|, rid, order)
  {
    forall rid: Id, order: Id | TimedOut(calls, 0, |calls|, rid, order) ensures TimedOut(calls', 0, |calls|, rid, order) {
      var m :| 0 <= m < |calls| && calls[m].CallExpireHold? && calls[m].rid == rid && calls[m].order == order;
      assert calls'[m] == calls[m];
    }
  }

  // ----- the queries of the sweep -------------------------------------------

  /** Reservations on hold past their time, oldest first. */
  function OverdueRows(reservations: map<Id, Reservation>, t: Time): (rows: seq<Id>)
    ensures forall x :: x in rows <==> x in reservations && reservations[x].status == ACTIVE && reservations[x].expiresAt <= t
    ensures |rows| <= |reservations|
    ensures forall i, j | 0 <= i < j < |rows| :: reservations[rows[i]].expiresAt <= reservations[rows[j]].expiresAt
  {
    var ids := set x | x in reservations && reservations[x].status == ACTIVE && reservations[x].expiresAt <= t;
    FewerKeys(ids, reservations.Keys);
    OrderBy(ids, map x | x in reservations :: Rank(reservations[x].expiresAt, 0))
  }

  /** Expired batches with stock left or not yet marked, oldest first. */
  function ExpiredRows(batches: map<Id, Batch>, t: Time): (rows: seq<Id>)
    ensures forall x :: x in rows <==> x in batches && !batches[x].status.Archived? && batches[x].expiresAt <= t &&
                                       (batches[x].available > 0 || !batches[x].status.Expired?)
    ensures |rows| <= |batches|
    ensures forall i, j | 0 <= i < j < |rows| :: batches[rows[i]].expiresAt <= batches[rows[j]].expiresAt
  {
    var ids := set x | x in batches && !batches[x].status.Archived? && batches[x].expiresAt <= t &&
                       (batches[x].available > 0 || !batches[x].status.Expired?);
    FewerKeys(ids, batches.Keys);
    OrderBy(ids, map x | x in batches :: Rank(batches[x].expiresAt, 0))
  }

  lemma {:induction false} FewerKeys(a: set<Id>, b: set<Id>)
    requires a <= b
    ensures |a| <= |b|
    decreases |a|
  {
    if a != {} {
      var x :| x in a;
      FewerKeys(a - {x}, b - {x});
    }
  }

  lemma Rises(readings: nat -> Time, i: nat, j: nat)
    requires Ascending(readings) && i <= j
    ensures readings(i) <= readings(j)
  {
  }

  lemma StartSegment(st: Store, ttl: int)
    requires ValidStore(st) && NoneArchived(st.stock)
    ensures IsSegment([st], [], ttl)
  {
  }

  lemma WriteOffAnswers(st: Store, c: Call)
    requires c.CallExpireBatch? && c.batch in st.stock.batches
    ensures StepExpireBatch(st, c).1.Ok? && StepExpireBatch(st, c).0.clock == c.t
  {
  }

  lemma BatchesLater(st: Store, st': Store)
    requires GoodStep(st, st')
    ensures forall id | id in st.stock.batches :: id in st'.stock.batches
  {
    hide ValidStore, NoneArchived, NothingRevived;
  }

  lemma CoverHolds(states: seq<Store>, calls: seq<Call>, j: nat, holds: seq<Id>, orders: seq<Id>, readings: nat -> Time, t0: Time)
    requires |states| == |calls| + 1 && j == |holds| == |orders| <= |calls|
    requires forall m | 0 <= m < j :: calls[m] == CallExpireHold(holds[m], orders[m], readings(m + 1))
    requires holds == OverdueRows(states[0].stock.reservations, t0) && orders == OrdersOf(states[0].stock.reservations, holds)
    ensures forall rid: Id | OverdueAt(states[0].stock, rid, t0) :: TimedOut(calls, 0, j, rid, states[0].stock.reservations[rid].order)
  {
    forall rid: Id | OverdueAt(states[0].stock, rid, t0) ensures TimedOut(calls, 0, j, rid, states[0].stock.reservations[rid].order) {
      var m :| 0 <= m < |holds| && holds[m] == rid;
      assert calls[m].CallExpireHold?;
    }
  }

  lemma CoverBatches(states: seq<Store>, calls: seq<Call>, ttl: int, j: nat, k: nat, found: seq<Id>, first: nat,
                     readings: nat -> Time, t0: Time, t1: Time)
    requires IsSegment(states, calls, ttl) && |states| == |calls| + 1 && j <= k == |calls| == j + |found| && t0 <= t1
    requires forall x :: x in found <==> x in ExpiredRows(states[j].stock.batches, t1)
    requires forall m | 0 <= m < |found| :: calls[j + m] == CallExpireBatch(found[m], readings(first + m))
    ensures forall id: Id | StockedAt(states[j].stock, id, t0) :: WrittenOff(calls, j, k, id)
  {
    hide IsSegment;
    SegmentSound(states, calls, ttl, j);
    forall id: Id | StockedAt(states[j].stock, id, t0) ensures WrittenOff(calls, j, k, id) {
      assert BatchSound(states[j].stock.batches[id]);
      assert id in found;
      var m :| 0 <= m < |found| && found[m] == id;
      assert calls[j + m].CallExpireBatch?;
    }
  }

  lemma TimeoutKeepsKeys(st: Store, ttl: int, c: Call)
    requires c.CallExpireHold?
    ensures Step(st, ttl, c).0.stock.batches.Keys == st.stock.batches.Keys
  {
    hide Settle;
    var s := st.stock;
    if c.rid in s.reservations {
      var allocations := s.reservations[c.rid].allocations;
      if Settle(s, c.rid, allocations, Releasing, c.t).Ok? {
        SettleMoves(s, c.rid, allocations, Releasing, c.t, 0, Settle(s, c.rid, allocations, Releasing, c.t).value);
      }
    }
  }

  lemma {:induction false} SizesKept(states: seq<Store>, calls: seq<Call>, ttl: int, j: nat)
    requires IsSegment(states, calls, ttl) && j < |states|
    requires forall i | 0 <= i < |calls| :: calls[i].CallExpireHold?
    ensures states[j].stock.batches.Keys == states[0].stock.batches.Keys
  {
    hide ValidStore, NoneArchived, Step, Admissible;
    if j > 0 {
      SizesKept(states, calls, ttl, j - 1);
      TimeoutKeepsKeys(states[j - 1], ttl, calls[j - 1]);
    }
  }

  ghost predicate Ascending(readings: nat -> Time) {
    forall i: nat, j: nat | i <= j :: readings(i) <= readings(j)
  }

  lemma ExtendSegment(states: seq<Store>, calls: seq<Call>, ttl: int, c: Call)
    requires IsSegment(states, calls, ttl) && |states| == |calls| + 1 && Admissible(states[|calls|], c)
    ensures IsSegment(states + [Step(states[|calls|], ttl, c).0], calls + [c], ttl)
    ensures GoodStep(states[|calls|], Step(states[|calls|], ttl, c).0)
  {
    hide Step, ValidStore, NoneArchived, Admissible;
    SegmentSound(states, calls, ttl, |calls|);
    StepGood(states[|calls|], ttl, c);
  }

  lemma TimeoutAnswers(st: Store, c: Call)
    requires ValidStore(st) && c.CallExpireHold? && st.clock <= c.t && InventoryTheorems.Known(st.stock, c.rid, c.order)
    ensures StepExpireHold(st, c).1.Ok? && StepExpireHold(st, c).0.clock == c.t
  {
    hide Valid, Transition;
    InventoryTheorems.TimeoutOutcome(st.stock, st.clock, c.rid, c.order, c.t);
  }

  lemma KnownLater(st: Store, st': Store, holds: seq<Id>, orders: seq<Id>)
    requires GoodStep(st, st') && |orders| == |holds|
    ensures forall m | 0 <= m < |holds| && InventoryTheorems.Known(st.stock, holds[m], orders[m]) :: InventoryTheorems.Known(st'.stock, holds[m], orders[m])
  {
    hide ValidStore, NoneArchived, NothingRevived;
  }

  lemma SomeKeys(keys: seq<Key>)
    requires keys != []
    ensures SortKeys(keys) != []
  {
    assert keys[0] in SortKeys(keys);
  }
}
