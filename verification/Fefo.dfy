/** First-expired-first-out allocation: exact, greedy and all-or-nothing. */
module Fefo {
  import opened Ordering
  import opened InventoryModel
  import opened InventoryLaws

  ghost predicate Distinct(rows: seq<Id>) {
    forall i, j | 0 <= i < j < |rows| :: rows[i] != rows[j]
  }

  ghost function Supply(batches: map<Id, Batch>, rows: seq<Id>): int
    requires forall x | x in rows :: x in batches
  {
    if rows == [] then 0 else batches[rows[0]].available + Supply(batches, rows[1..])
  }

  ghost predicate Stocked(batches: map<Id, Batch>, rows: seq<Id>) {
    forall x | x in rows :: x in batches && batches[x].available > 0
  }

  ghost function Min(a: int, b: int): int {
    if a < b then a else b
  }

  function Rest(batches: map<Id, Batch>, rows: seq<Id>, needed: int): int
    requires rows != [] && rows[0] in batches
  {
    if needed < batches[rows[0]].available then 0 else needed - batches[rows[0]].available
  }

  lemma {:induction false} TakeExact(batches: map<Id, Batch>, rows: seq<Id>, needed: int)
    requires Stocked(batches, rows) && needed >= 0
    ensures Portions(Take(batches, rows, needed)) == Min(needed, Supply(batches, rows))
    ensures Supply(batches, rows) >= 0
    ensures forall a | a in Take(batches, rows, needed) :: a.portions > 0
    decreases |rows|
  {
    if rows != [] {
      TakeExact(batches, rows[1..], Rest(batches, rows, needed));
    }
  }

  lemma {:induction false} TakeOn(batches: map<Id, Batch>, rows: seq<Id>, needed: int, id: Id)
    requires Stocked(batches, rows) && needed >= 0 && Distinct(rows)
    ensures id !in rows ==> On(Take(batches, rows, needed), id) == 0
    ensures id in rows ==> 0 <= On(Take(batches, rows, needed), id) <= batches[id].available
    decreases |rows|
  {
    if rows != [] {
      TakeOn(batches, rows[1..], Rest(batches, rows, needed), id);
    }
  }

  /** A later row is touched only after every earlier row is drained. */
  lemma {:induction false} TakeGreedy(batches: map<Id, Batch>, rows: seq<Id>, needed: int, i: nat, j: nat)
    requires Stocked(batches, rows) && needed >= 0 && Distinct(rows)
    requires i < j < |rows| && On(Take(batches, rows, needed), rows[j]) > 0
    ensures On(Take(batches, rows, needed), rows[i]) == batches[rows[i]].available
    decreases |rows|
  {
    var rest := Rest(batches, rows, needed);
    TakeOn(batches, rows[1..], rest, rows[0]);
    if i > 0 {
      TakeGreedy(batches, rows[1..], rest, i - 1, j - 1);
    }
  }

  ghost predicate NoRepeat(xs: seq<Allocation>) {
    forall i, j | 0 <= i < j < |xs| :: xs[i].batch != xs[j].batch
  }

  lemma {:induction false} TakeRepeatsNone(batches: map<Id, Batch>, rows: seq<Id>, needed: int)
    requires Stocked(batches, rows) && needed >= 0 && Distinct(rows)
    ensures NoRepeat(Take(batches, rows, needed))
    decreases |rows|
  {
    if rows != [] && needed != 0 {
      var rest := Take(batches, rows[1..], Rest(batches, rows, needed));
      TakeUsesRows(batches, rows[1..], Rest(batches, rows, needed));
      TakeRepeatsNone(batches, rows[1..], Rest(batches, rows, needed));
      NoRepeatConcat(Take(batches, rows, needed)[..1], rest);
      assert Take(batches, rows, needed) == Take(batches, rows, needed)[..1] + rest;
    }
  }

  lemma NoRepeatConcat(xs: seq<Allocation>, ys: seq<Allocation>)
    requires NoRepeat(xs) && NoRepeat(ys)
    requires forall x, y | x in xs && y in ys :: x.batch != y.batch
    ensures NoRepeat(xs + ys)
  {
    forall i, j | 0 <= i < j < |xs + ys|
      ensures (xs + ys)[i].batch != (xs + ys)[j].batch
    {
      if i < |xs| && j >= |xs| {
        assert xs[i] in xs && ys[j - |xs|] in ys;
      }
    }
  }

  // ----- several items ------------------------------------------------------

  ghost predicate ValidItems(items: seq<Item>) {
    (forall i | 0 <= i < |items| :: items[i].portions > 0) &&
    (forall i, j | 0 <= i < j < |items| :: items[i].flavor != items[j].flavor)
  }

  ghost predicate Asks(items: seq<Item>, flavor: Id) {
    exists i | 0 <= i < |items| :: items[i].flavor == flavor
  }

  ghost function FlavorPortions(allocations: seq<Allocation>, flavor: Id): int {
    if allocations == [] then 0 else
    (if allocations[0].flavor == flavor then allocations[0].portions else 0) + FlavorPortions(allocations[1..], flavor)
  }

  lemma FefoRowsStocked(batches: map<Id, Batch>, flavor: Id, t: Time)
    ensures Stocked(batches, FefoRows(batches, flavor, t)) && Distinct(FefoRows(batches, flavor, t))
  {
  }

  lemma {:induction false} OnConcat(xs: seq<Allocation>, ys: seq<Allocation>, id: Id)
    ensures On(xs + ys, id) == On(xs, id) + On(ys, id)
  {
    if xs == [] {
      assert xs + ys == ys;
    } else {
      assert (xs + ys)[1..] == xs[1..] + ys;
      OnConcat(xs[1..], ys, id);
    }
  }

  lemma {:induction false} FlavorConcat(xs: seq<Allocation>, ys: seq<Allocation>, f: Id)
    ensures FlavorPortions(xs + ys, f) == FlavorPortions(xs, f) + FlavorPortions(ys, f)
  {
    if xs == [] {
      assert xs + ys == ys;
    } else {
      assert (xs + ys)[1..] == xs[1..] + ys;
      FlavorConcat(xs[1..], ys, f);
    }
  }

  lemma {:induction false} OneFlavor(xs: seq<Allocation>, f: Id, g: Id)
    requires forall a | a in xs :: a.flavor == f
    ensures FlavorPortions(xs, g) == if f == g then Portions(xs) else 0
  {
    if xs != [] {
      OneFlavor(xs[1..], f, g);
    }
  }

  lemma {:induction false} PlanUses(batches: map<Id, Batch>, items: seq<Item>, t: Time, a: Allocation)
    requires ValidItems(items) && Plan(batches, items, t).Ok? && a in Plan(batches, items, t).value
    ensures a.portions > 0 && a.batch in batches && Eligible(batches[a.batch], a.flavor, t) && Asks(items, a.flavor)
    decreases |items|
  {
    var rows := FefoRows(batches, items[0].flavor, t);
    if a in Take(batches, rows, items[0].portions) {
      FefoRowsStocked(batches, items[0].flavor, t);
      TakeExact(batches, rows, items[0].portions);
      TakeUsesRows(batches, rows, items[0].portions);
    } else {
      PlanUses(batches, items[1..], t, a);
      var i :| 0 <= i < |items| - 1 && items[1..][i].flavor == a.flavor;
      assert items[i + 1].flavor == a.flavor;
    }
  }

  lemma {:induction false} PlanOff(batches: map<Id, Batch>, items: seq<Item>, t: Time, id: Id)
    requires ValidItems(items) && id in batches && Plan(batches, items, t).Ok?
    requires !Asks(items, batches[id].flavor)
    ensures On(Plan(batches, items, t).value, id) == 0
    decreases |items|
  {
    if items != [] {
      assert items[0].flavor != batches[id].flavor;
      assert !Asks(items[1..], batches[id].flavor);
      PlanOff(batches, items[1..], t, id);
      WalkOn(batches, items[0], t, id);
      OnConcat(Walk(batches, items[0], t), Plan(batches, items[1..], t).value, id);
    }
  }

  lemma WalkOn(batches: map<Id, Batch>, item: Item, t: Time, id: Id)
    requires item.portions > 0 && id in batches
    ensures 0 <= On(Walk(batches, item, t), id) <= if batches[id].available < 0 then 0 else batches[id].available
    ensures !Eligible(batches[id], item.flavor, t) ==> On(Walk(batches, item, t), id) == 0
  {
    FefoRowsStocked(batches, item.flavor, t);
    TakeOn(batches, FefoRows(batches, item.flavor, t), item.portions, id);
  }

  /** What a plan takes from batch `id` is what the walk of its own flavor takes. */
  lemma {:induction false} PlanOn(batches: map<Id, Batch>, items: seq<Item>, t: Time, id: Id, i: nat)
    requires ValidItems(items) && id in batches && Plan(batches, items, t).Ok?
    requires i < |items| && items[i].flavor == batches[id].flavor
    ensures On(Plan(batches, items, t).value, id) == On(Walk(batches, items[i], t), id)
    decreases |items|
  {
    hide Walk, On, Portions;
    OnConcat(Walk(batches, items[0], t), Plan(batches, items[1..], t).value, id);
    if i == 0 {
      assert !Asks(items[1..], batches[id].flavor);
      PlanOff(batches, items[1..], t, id);
    } else {
      WalkOn(batches, items[0], t, id);
      PlanOn(batches, items[1..], t, id, i - 1);
    }
  }

  lemma {:induction false} PlanExact(batches: map<Id, Batch>, items: seq<Item>, t: Time, f: Id)
    requires ValidItems(items) && Plan(batches, items, t).Ok?
    ensures !Asks(items, f) ==> FlavorPortions(Plan(batches, items, t).value, f) == 0
    ensures forall i | 0 <= i < |items| && items[i].flavor == f ::
              FlavorPortions(Plan(batches, items, t).value, f) == items[i].portions
    decreases |items|
  {
    if items != [] {
      var rows := FefoRows(batches, items[0].flavor, t);
      var first := Take(batches, rows, items[0].portions);
      PlanExact(batches, items[1..], t, f);
      FefoRowsStocked(batches, items[0].flavor, t);
      TakeExact(batches, rows, items[0].portions);
      TakeUsesRows(batches, rows, items[0].portions);
      OneFlavor(first, items[0].flavor, f);
      FlavorConcat(first, Plan(batches, items[1..], t).value, f);
      assert Asks(items, f) <==> items[0].flavor == f || Asks(items[1..], f);
    }
  }

  lemma WalksDiffer(batches: map<Id, Batch>, items: seq<Item>, t: Time, a: Allocation, b: Allocation)
    requires ValidItems(items) && items != [] && Plan(batches, items[1..], t).Ok?
    requires a in Take(batches, FefoRows(batches, items[0].flavor, t), items[0].portions)
    requires b in Plan(batches, items[1..], t).value
    ensures a.batch != b.batch
  {
    TakeUsesRows(batches, FefoRows(batches, items[0].flavor, t), items[0].portions);
    PlanUses(batches, items[1..], t, b);
  }

  lemma {:induction false} PlanRepeatsNone(batches: map<Id, Batch>, items: seq<Item>, t: Time)
    requires ValidItems(items) && Plan(batches, items, t).Ok?
    ensures NoRepeat(Plan(batches, items, t).value)
    decreases |items|
  {
    if items != [] {
      var rows := FefoRows(batches, items[0].flavor, t);
      var first := Take(batches, rows, items[0].portions);
      var rest := Plan(batches, items[1..], t).value;
      FefoRowsStocked(batches, items[0].flavor, t);
      TakeRepeatsNone(batches, rows, items[0].portions);
      PlanRepeatsNone(batches, items[1..], t);
      forall x, y | x in first && y in rest
        ensures x.batch != y.batch
      {
        WalksDiffer(batches, items, t, x, y);
      }
      NoRepeatConcat(first, rest);
    }
  }

  /** Among live stock of one flavor, a batch is drawn on only when every batch that
      expires before it has been drawn down completely. */
  lemma PlanGreedy(batches: map<Id, Batch>, items: seq<Item>, t: Time, x: Id, y: Id)
    requires ValidItems(items) && Plan(batches, items, t).Ok?
    requires x in batches && y in batches && batches[x].flavor == batches[y].flavor
    requires Eligible(batches[x], batches[x].flavor, t) && Before(BatchRanks(batches), x, y)
    requires On(Plan(batches, items, t).value, y) > 0
    ensures On(Plan(batches, items, t).value, x) == batches[x].available
  {
    var f := batches[x].flavor;
    if !Asks(items, f) {
      PlanOff(batches, items, t, y);
    }
    var i :| 0 <= i < |items| && items[i].flavor == f;
    PlanOn(batches, items, t, x, i);
    PlanOn(batches, items, t, y, i);
    WalkOn(batches, items[i], t, y);
    WalkGreedy(batches, items[i], t, x, y);
  }

  lemma WalkGreedy(batches: map<Id, Batch>, item: Item, t: Time, x: Id, y: Id)
    requires item.portions > 0 && x in batches && y in batches && Before(BatchRanks(batches), x, y)
    requires Eligible(batches[x], item.flavor, t) && Eligible(batches[y], item.flavor, t)
    requires On(Walk(batches, item, t), y) > 0
    ensures On(Walk(batches, item, t), x) == batches[x].available
  {
    hide On, Take, FefoRows, Stocked;
    var rows := FefoRows(batches, item.flavor, t);
    FefoRowsStocked(batches, item.flavor, t);
    var jx, jy := FefoPositions(batches, item.flavor, t, x, y);
    TakeGreedy(batches, rows, item.portions, jx, jy);
  }

  lemma FefoPositions(batches: map<Id, Batch>, flavor: Id, t: Time, x: Id, y: Id) returns (jx: nat, jy: nat)
    requires x in batches && y in batches && Before(BatchRanks(batches), x, y)
    requires Eligible(batches[x], flavor, t) && Eligible(batches[y], flavor, t)
    ensures jx < jy < |FefoRows(batches, flavor, t)|
    ensures FefoRows(batches, flavor, t)[jx] == x && FefoRows(batches, flavor, t)[jy] == y
  {
    var rows := FefoRows(batches, flavor, t);
    jx :| 0 <= jx < |rows| && rows[jx] == x;
    jy :| 0 <= jy < |rows| && rows[jy] == y;
  }

  // ----- when is there enough? ----------------------------------------------

  lemma {:induction false} AvailablePick(batches: map<Id, Batch>, f: Id, t: Time, id: Id)
    requires id in batches
    ensures AvailableAt(batches, f, t) == Countable(batches[id], f, t) + AvailableAt(batches - {id}, f, t)
    decreases |batches|
  {
    var x := AnyOf(batches);
    if x != id {
      AvailablePick(batches - {x}, f, t, id);
      AvailablePick(batches - {id}, f, t, x);
      assert batches - {x} - {id} == batches - {id} - {x};
    }
  }

  lemma {:induction false} SupplyIsAvailable(batches: map<Id, Batch>, rows: seq<Id>, f: Id, t: Time)
    requires Distinct(rows) && forall x | x in rows :: x in batches
    requires forall x | x in batches :: Countable(batches[x], f, t) == if x in rows then batches[x].available else 0
    ensures Supply(batches, rows) == AvailableAt(batches, f, t)
    decreases |batches|
  {
    if rows != [] {
      var rest := batches - {rows[0]};
      AvailablePick(batches, f, t, rows[0]);
      SupplyIsAvailable(rest, rows[1..], f, t);
      SupplyFrame(batches, rest, rows[1..]);
    } else if |batches| != 0 {
      SupplyIsAvailable(batches - {AnyOf(batches)}, rows, f, t);
    }
  }

  lemma {:induction false} SupplyFrame(batches: map<Id, Batch>, rest: map<Id, Batch>, rows: seq<Id>)
    requires forall x | x in rows :: x in batches && x in rest && rest[x] == batches[x]
    ensures Supply(batches, rows) == Supply(rest, rows)
  {
    if rows != [] {
      SupplyFrame(batches, rest, rows[1..]);
    }
  }

  /** Stored status ACTIVE means stock is left, and EXHAUSTED means none is. */
  ghost predicate StatusTellsStock(batches: map<Id, Batch>) {
    forall id | id in batches ::
      batches[id].available >= 0 &&
      (batches[id].status.Active? ==> batches[id].available > 0) &&
      (batches[id].status.Exhausted? ==> batches[id].available == 0)
  }

  ghost predicate Covered(batches: map<Id, Batch>, items: seq<Item>, t: Time) {
    forall i | 0 <= i < |items| :: AvailableAt(batches, items[i].flavor, t) >= items[i].portions
  }

  lemma WalkSuffices(batches: map<Id, Batch>, item: Item, t: Time)
    requires item.portions > 0 && StatusTellsStock(batches)
    ensures Portions(Walk(batches, item, t)) >= item.portions <==>
            AvailableAt(batches, item.flavor, t) >= item.portions
  {
    var rows := FefoRows(batches, item.flavor, t);
    FefoRowsStocked(batches, item.flavor, t);
    TakeExact(batches, rows, item.portions);
    SupplyIsAvailable(batches, rows, item.flavor, t);
  }

  /** The stock check and the allocation agree: a plan exists exactly when the
      enquiry at the same instant covers every item. */
  lemma {:induction false} PlanExistsIffCovered(batches: map<Id, Batch>, items: seq<Item>, t: Time)
    requires ValidItems(items) && StatusTellsStock(batches)
    ensures Plan(batches, items, t).Ok? <==> Covered(batches, items, t)
    ensures Plan(batches, items, t).Err? ==> Plan(batches, items, t).error == OutOfStock
    decreases |items|
  {
    if items != [] {
      WalkSuffices(batches, items[0], t);
      PlanExistsIffCovered(batches, items[1..], t);
      CoveredCons(batches, items, t);
    }
  }

  lemma CoveredCons(batches: map<Id, Batch>, items: seq<Item>, t: Time)
    requires items != []
    ensures Covered(batches, items, t) <==>
            AvailableAt(batches, items[0].flavor, t) >= items[0].portions && Covered(batches, items[1..], t)
  {
    assert forall i | 0 < i < |items| :: items[i] == items[1..][i - 1];
  }
}
