/** The batch inventory as values: its tables, and each stock transaction as a
    function from the tables before it to the tables after it or an error. An
    error carries no tables, so a failed transaction changes nothing. */
module InventoryModel {
  import opened Ordering

  type Time = nat

  const MAX_PORTIONS: int := 0x7fff_ffff
  const MAX_INT64: int := 0x7fff_ffff_ffff_ffff

  datatype Option<+T> = None | Some(value: T)
  datatype Result<+V> = Ok(value: V) | Err(error: Error)
  datatype Error =
    Invalid | NotFound | Conflict | BatchCodeConflict | OutOfStock | WrongState | Dependency

  datatype BatchStatus = Active | Exhausted | Expired | Archived
  datatype Batch = Batch(
    code: string, flavor: Id, expiresAt: Time, createdAt: Time,
    initial: int, available: int, reserved: int, sold: int, wasted: int,
    unitCost: int, status: BatchStatus)

  datatype HoldStatus = ACTIVE | CONFIRMED | RELEASED | EXPIRED | RETURNED
  datatype Allocation = Allocation(flavor: Id, batch: Id, portions: int)
  datatype Reservation = Reservation(
    order: Id, status: HoldStatus, allocations: seq<Allocation>,
    createdAt: Time, expiresAt: Time, releaseReason: string)

  datatype Kind = Produced | Reserved | Confirmed | Released | Wasted | Returned
  datatype Movement = Movement(
    batch: Id, reservation: Option<Id>, kind: Kind, portions: int, at: Time)

  datatype WasteReason = PastExpiry | Damaged | Quality | Adjustment | UnknownReason
  datatype WasteRecord = WasteRecord(
    batch: Id, flavor: Id, portions: int, reason: WasteReason, note: string,
    costLost: int, at: Time)

  datatype Stock = Stock(
    batches: map<Id, Batch>, reservations: map<Id, Reservation>,
    ledger: seq<Movement>, wastes: seq<WasteRecord>)

  datatype Item = Item(flavor: Id, portions: int)

  const EMPTY_STOCK := Stock(map[], map[], [], [])

  // ----- rows ---------------------------------------------------------------

  function StatusAt(b: Batch, t: Time): BatchStatus {
    if b.status.Archived? then Archived
    else if b.expiresAt <= t then Expired
    else if b.available == 0 then Exhausted
    else Active
  }

  function Save(s: Stock, id: Id, b: Batch, t: Time): Stock {
    s.(batches := s.batches[id := b.(status := StatusAt(b, t))])
  }

  function Move(s: Stock, batch: Id, res: Option<Id>, kind: Kind, n: int, t: Time): Stock {
    s.(ledger := s.ledger + [Movement(batch, res, kind, n, t)])
  }

  /** A waste record and its ledger entry are always written together. */
  function WriteOff(s: Stock, id: Id, b: Batch, n: int, reason: WasteReason, note: string,
                    res: Option<Id>, t: Time): Stock
  {
    Move(s.(wastes := s.wastes + [WasteRecord(id, b.flavor, n, reason, note, b.unitCost * n, t)]),
         id, res, Wasted, n, t)
  }

  predicate ShortText(text: string) {
    |text| <= 500 && '\0' !in text
  }

  // ----- settling the allocations of one reservation ------------------------

  datatype Settlement = Confirming | Releasing | Returning

  datatype Balances = Balances(available: int, reserved: int, sold: int, wasted: int)

  function Bal(b: Batch): Balances {
    Balances(b.available, b.reserved, b.sold, b.wasted)
  }

  function WithBal(b: Batch, bal: Balances): Batch {
    b.(available := bal.available, reserved := bal.reserved, sold := bal.sold, wasted := bal.wasted)
  }

  /** Balances after `n` portions are confirmed, released or returned; what was held
      or sold of a batch past its expiry is written off instead of put back. */
  function Shift(bal: Balances, n: int, k: Settlement, spoilt: bool): Balances {
    match k
    case Confirming => bal.(reserved := bal.reserved - n, sold := bal.sold + n)
    case Releasing =>
      if spoilt then bal.(reserved := bal.reserved - n, wasted := bal.wasted + n)
      else bal.(reserved := bal.reserved - n, available := bal.available + n)
    case Returning =>
      if spoilt then bal.(sold := bal.sold - n, wasted := bal.wasted + n)
      else bal.(sold := bal.sold - n, available := bal.available + n)
  }

  function MovementKind(k: Settlement, spoilt: bool): Kind {
    if k.Confirming? then Confirmed
    else if spoilt then Wasted
    else if k.Returning? then Returned
    else Released
  }

  function SpoiltNote(k: Settlement): string {
    if k.Returning? then "returned order after batch expiry" else "reservation expired after batch expiry"
  }

  /** One turn of the allocation loop of `transition` and of `returnConfirmed`. */
  function SettleOne(s: Stock, rid: Id, a: Allocation, k: Settlement, t: Time): Result<Stock> {
    if a.batch !in s.batches then Err(NotFound) else
    var b := s.batches[a.batch];
    if (if k.Returning? then b.sold else b.reserved) < a.portions then Err(WrongState)
    else if k.Confirming? && (b.expiresAt <= t || b.status.Archived?) then Err(WrongState)
    else
      var kind := MovementKind(k, b.expiresAt <= t);
      var recorded := if kind.Wasted?
                      then WriteOff(s, a.batch, b, a.portions, PastExpiry, SpoiltNote(k), Some(rid), t)
                      else Move(s, a.batch, Some(rid), kind, a.portions, t);
      Ok(Save(recorded, a.batch, WithBal(b, Shift(Bal(b), a.portions, k, b.expiresAt <= t)), t))
  }

  function Settle(s: Stock, rid: Id, allocations: seq<Allocation>, k: Settlement, t: Time): Result<Stock>
    decreases |allocations|
  {
    if allocations == [] then Ok(s) else
    match SettleOne(s, rid, allocations[0], k, t)
    case Err(e) => Err(e)
    case Ok(s') => Settle(s', rid, allocations[1..], k, t)
  }

  function Close(s: Stock, rid: Id, r: Reservation, target: HoldStatus, reason: string): Stock {
    s.(reservations := s.reservations[rid := r.(status := target, releaseReason := reason)])
  }

  /** `transition`: confirm, release, or (`expiry`) the sweeper's timeout. */
  function Transition(s: Stock, rid: Id, order: Id, reason: string, confirm: bool, expiry: bool, t: Time)
    : Result<(Stock, Reservation)>
  {
    if rid !in s.reservations || s.reservations[rid].order != order then Err(NotFound) else
    var r := s.reservations[rid];
    if expiry && (r.status != ACTIVE || r.expiresAt > t) then Ok((s, r))
    else if r.status != ACTIVE then
      if (confirm && r.status == CONFIRMED) || (!confirm && (r.status == RELEASED || r.status == EXPIRED))
      then Ok((s, r)) else Err(WrongState)
    else if confirm && r.expiresAt <= t then Err(WrongState)
    else
      var target := if confirm then CONFIRMED
                    else if expiry || r.expiresAt <= t then EXPIRED else RELEASED;
      match Settle(s, rid, r.allocations, if confirm then Confirming else Releasing, t)
      case Err(e) => Err(e)
      case Ok(s') => Ok((Close(s', rid, r, target, reason), r.(status := target)))
  }

  function ReturnConfirmed(s: Stock, rid: Id, order: Id, reason: string, t: Time)
    : Result<(Stock, Reservation)>
  {
    if rid !in s.reservations || s.reservations[rid].order != order then Err(NotFound) else
    var r := s.reservations[rid];
    if r.status == RETURNED then Ok((s, r))
    else if r.status != CONFIRMED then Err(WrongState)
    else
      match Settle(s, rid, r.allocations, Returning, t)
      case Err(e) => Err(e)
      case Ok(s') => Ok((Close(s', rid, r, RETURNED, reason), r.(status := RETURNED)))
  }

  // ----- first-expired-first-out allocation ---------------------------------

  predicate Eligible(b: Batch, flavor: Id, t: Time) {
    b.flavor == flavor && b.status.Active? && b.available > 0 && b.expiresAt > t
  }

  function BatchRanks(batches: map<Id, Batch>): (rank: map<Id, Rank>)
    ensures rank.Keys == batches.Keys
  {
    map id | id in batches :: Rank(batches[id].expiresAt, batches[id].createdAt)
  }

  /** The rows Reserve locks for one flavor, earliest expiry first. */
  function FefoRows(batches: map<Id, Batch>, flavor: Id, t: Time): (rows: seq<Id>)
    ensures forall x :: x in rows <==> x in batches && Eligible(batches[x], flavor, t)
  {
    var rows := set id | id in batches && Eligible(batches[id], flavor, t);
    OrderBy(rows, BatchRanks(batches))
  }

  /** Walk the rows, taking from each what is still needed. */
  function Take(batches: map<Id, Batch>, rows: seq<Id>, needed: int): seq<Allocation>
    requires forall x | x in rows :: x in batches
    decreases |rows|
  {
    if rows == [] || needed == 0 then [] else
    var b := batches[rows[0]];
    var take := if needed < b.available then needed else b.available;
    [Allocation(b.flavor, rows[0], take)] + Take(batches, rows[1..], needed - take)
  }

  function Portions(allocations: seq<Allocation>): int {
    if allocations == [] then 0 else allocations[0].portions + Portions(allocations[1..])
  }

  function Walk(batches: map<Id, Batch>, item: Item, t: Time): seq<Allocation> {
    Take(batches, FefoRows(batches, item.flavor, t), item.portions)
  }

  /** Allocations for all items, or out of stock as soon as one item falls short. */
  function Plan(batches: map<Id, Batch>, items: seq<Item>, t: Time): Result<seq<Allocation>>
    decreases |items|
  {
    if items == [] then Ok([]) else
    var first := Walk(batches, items[0], t);
    if Portions(first) < items[0].portions then Err(OutOfStock) else
    match Plan(batches, items[1..], t)
    case Err(e) => Err(e)
    case Ok(rest) => Ok(first + rest)
  }

  /** The hold ends with its time limit or with the first batch it draws on. */
  function HoldLimit(batches: map<Id, Batch>, allocations: seq<Allocation>, limit: Time): (end: Time)
    requires forall a | a in allocations :: a.batch in batches
    ensures end <= limit
    ensures forall a | a in allocations :: end <= batches[a.batch].expiresAt
    decreases |allocations|
  {
    if allocations == [] then limit else
    var e := batches[allocations[0].batch].expiresAt;
    HoldLimit(batches, allocations[1..], if e < limit then e else limit)
  }

  function HoldOne(s: Stock, rid: Id, a: Allocation, t: Time): Stock
    requires a.batch in s.batches
  {
    var b := s.batches[a.batch];
    Move(Save(s, a.batch, b.(available := b.available - a.portions, reserved := b.reserved + a.portions), t),
         a.batch, Some(rid), Reserved, a.portions, t)
  }

  /** The write loop of Reserve: move each allocation from available to reserved. */
  function Hold(s: Stock, rid: Id, allocations: seq<Allocation>, t: Time): Stock
    requires forall a | a in allocations :: a.batch in s.batches
    decreases |allocations|
  {
    if allocations == [] then s
    else Hold(HoldOne(s, rid, allocations[0], t), rid, allocations[1..], t)
  }

  lemma PlanUsesKnownBatches(batches: map<Id, Batch>, items: seq<Item>, t: Time)
    ensures Plan(batches, items, t).Ok? ==>
              forall a | a in Plan(batches, items, t).value :: a.batch in batches
    decreases |items|
  {
    if items != [] {
      TakeUsesRows(batches, FefoRows(batches, items[0].flavor, t), items[0].portions);
      PlanUsesKnownBatches(batches, items[1..], t);
    }
  }

  lemma TakeUsesRows(batches: map<Id, Batch>, rows: seq<Id>, needed: int)
    requires forall x | x in rows :: x in batches
    ensures forall a | a in Take(batches, rows, needed) :: a.batch in rows && a.flavor == batches[a.batch].flavor
    decreases |rows|
  {
    if rows != [] && needed != 0 {
      var b := batches[rows[0]];
      TakeUsesRows(batches, rows[1..], needed - if needed < b.available then needed else b.available);
    }
  }

  predicate OrderHasHold(s: Stock, order: Id) {
    exists rid | rid in s.reservations :: s.reservations[rid].order == order
  }

  /** Reserve, with the clock read before allocation (`t`) and again after it (`current`). */
  function Reserve(s: Stock, rid: Id, order: Id, items: seq<Item>, ttl: int, t: Time, current: Time)
    : Result<(Stock, Reservation)>
  {
    if OrderHasHold(s, order) then Err(Conflict)
    else if ttl <= 0 then Err(Invalid)
    else
      match Plan(s.batches, items, t)
      case Err(e) => Err(e)
      case Ok(allocations) =>
        PlanUsesKnownBatches(s.batches, items, t);
        var r := Reservation(order, ACTIVE, allocations, t, HoldLimit(s.batches, allocations, t + ttl), "");
        if r.expiresAt <= current then Err(WrongState)
        else Ok((Hold(s.(reservations := s.reservations[rid := r]), rid, allocations, current), r))
  }

  // ----- production, waste and batch expiry ---------------------------------

  datatype Production = Production(
    code: string, flavor: Id, productionDate: Time, expiresAt: Time, initial: int,
    unitCost: Option<int>, inBaht: bool)

  predicate ValidProduction(p: Production) {
    p.flavor != NIL && p.expiresAt >= p.productionDate &&
    1 <= p.initial <= MAX_PORTIONS && p.unitCost.Some? &&
    0 <= p.unitCost.value <= MAX_INT64 / p.initial && p.inBaht
  }

  function Create(s: Stock, id: Id, p: Production, t: Time): Result<(Stock, Batch)>
    requires ValidProduction(p)
  {
    if p.expiresAt <= t then Err(Invalid)
    else if exists x | x in s.batches :: s.batches[x].code == p.code then Err(BatchCodeConflict)
    else
      var b := Batch(p.code, p.flavor, p.expiresAt, t, p.initial, p.initial, 0, 0, 0, p.unitCost.value, Active);
      Ok((Move(s.(batches := s.batches[id := b]), id, None, Produced, p.initial, t), b))
  }

  function Discard(s: Stock, id: Id, n: int, reason: WasteReason, note: string, t: Time)
    : Result<(Stock, WasteRecord)>
  {
    if id !in s.batches then Err(NotFound) else
    var b := s.batches[id];
    if b.status.Archived? then Err(WrongState)
    else if reason.PastExpiry? && b.expiresAt > t then Err(Invalid)
    else if b.available < n then Err(OutOfStock)
    else
      Ok((Save(WriteOff(s, id, b, n, reason, note, None, t),
               id, b.(available := b.available - n, wasted := b.wasted + n), t),
          WasteRecord(id, b.flavor, n, reason, note, b.unitCost * n, t)))
  }

  function ExpireBatch(s: Stock, id: Id, t: Time): Result<Stock> {
    if id !in s.batches then Err(NotFound) else
    var b := s.batches[id];
    if b.expiresAt > t || b.status.Archived? then Ok(s)
    else if b.available > 0 then
      Ok(Save(WriteOff(s, id, b, b.available, PastExpiry, "batch expiry", None, t),
              id, b.(available := 0, wasted := b.wasted + b.available), t))
    else Ok(Save(s, id, b, t))
  }

  // ----- stock enquiry ------------------------------------------------------

  /** What Availability counts for a batch at `t`: stored ACTIVE or EXHAUSTED, not yet expired. */
  function Countable(b: Batch, flavor: Id, t: Time): int {
    if b.flavor == flavor && (b.status.Active? || b.status.Exhausted?) && b.expiresAt > t
    then b.available else 0
  }

  ghost function AnyOf<V>(m: map<Id, V>): (id: Id)
    requires |m| != 0
    ensures id in m
  {
    var id :| id in m; id
  }

  ghost function AvailableAt(batches: map<Id, Batch>, flavor: Id, t: Time): int
    decreases |batches|
  {
    if |batches| == 0 then 0 else
    Countable(batches[AnyOf(batches)], flavor, t) + AvailableAt(batches - {AnyOf(batches)}, flavor, t)
  }
}
