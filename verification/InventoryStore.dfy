/** The inventory service: input checks, idempotent mutations and the sweeper's
    transactions, over one store of stock, idempotency records and a clock. */
module InventoryStore {
  import opened Ordering
  import opened InventoryModel
  import opened Idempotency

  /** Operation names in the order their text sorts; waste and production keys are
      scoped by the acting user. */
  datatype Operation =
    ConfirmOp | CreateOp(actor: Id) | ReleaseOp | ReserveOp | RestWasteOp(actor: Id) | ReturnOp | WasteOp(actor: Id)

  datatype Key = Key(op: Operation, key: Id)

  datatype Request =
    | HoldRequest(order: Id, key: Id, items: seq<Item>)
    | ChangeRequest(reservation: Id, order: Id, key: Id, reason: string)
    | DiscardRequest(batch: Id, portions: int, why: WasteReason, note: string, key: Id)
    | ProduceRequest(production: Production)

  datatype Response =
    | HoldResponse(id: Id, hold: Reservation)
    | WasteResponse(waste: WasteRecord)
    | BatchResponse(id: Id, batch: Batch)

  type Table = map<Key, Record<Request, Response>>

  datatype Store = Store(stock: Stock, table: Table, clock: Time)

  const EMPTY_STORE := Store(EMPTY_STOCK, map[], 0)

  /** One call with what its surroundings supply: fresh identifiers, clock readings
      taken inside its transaction, and whether the catalog vouches for the flavor. */
  datatype Call =
    | CallReserve(order: Id, key: Id, items: seq<Item>, rid: Id, t: Time, current: Time)
    | CallTransition(confirm: bool, rid: Id, order: Id, key: Id, reason: string, t: Time)
    | CallReturn(rid: Id, order: Id, key: Id, reason: string, t: Time)
    | CallWaste(batch: Id, actor: Id, portions: int, why: WasteReason, note: string, key: Id, alias: Option<Id>, t: Time)
    | CallCreate(actor: Id, production: Production, id: Id, alias: Option<Id>, listed: bool, t: Time)
    | CallExpireHold(rid: Id, order: Id, t: Time)
    | CallExpireBatch(batch: Id, t: Time)

  // ----- input checks -------------------------------------------------------

  predicate WellFormedItems(items: seq<Item>) {
    1 <= |items| <= 100 &&
    (forall i | 0 <= i < |items| :: items[i].flavor != NIL && 1 <= items[i].portions <= MAX_PORTIONS) &&
    (forall i, j | 0 <= i < j < |items| :: items[i].flavor != items[j].flavor)
  }

  function InsertItem(x: Item, items: seq<Item>): (r: seq<Item>)
    ensures multiset(r) == multiset{x} + multiset(items)
  {
    if items == [] || x.flavor <= items[0].flavor then [x] + items
    else
      assert items == [items[0]] + items[1..];
      [items[0]] + InsertItem(x, items[1..])
  }

  /** Items in ascending flavor order, as the request is hashed and locked. */
  function SortItems(items: seq<Item>): (r: seq<Item>)
    ensures multiset(r) == multiset(items)
  {
    if items == [] then []
    else
      assert items == [items[0]] + items[1..];
      InsertItem(items[0], SortItems(items[1..]))
  }

  function OpRank(op: Operation): nat {
    match op
    case ConfirmOp => 0
    case CreateOp(_) => 1
    case ReleaseOp => 2
    case ReserveOp => 3
    case RestWasteOp(_) => 4
    case ReturnOp => 5
    case WasteOp(_) => 6
  }

  function Actor(op: Operation): Id {
    if op.CreateOp? || op.RestWasteOp? || op.WasteOp? then op.actor else NIL
  }

  predicate KeyBefore(a: Key, b: Key) {
    OpRank(a.op) < OpRank(b.op) ||
    (OpRank(a.op) == OpRank(b.op) &&
      (Actor(a.op) < Actor(b.op) || (Actor(a.op) == Actor(b.op) && a.key < b.key)))
  }

  function InsertKey(x: Key, keys: seq<Key>): (r: seq<Key>)
    ensures forall k :: k in r <==> k == x || k in keys
  {
    if keys == [] || !KeyBefore(keys[0], x) then [x] + keys
    else [keys[0]] + InsertKey(x, keys[1..])
  }

  function SortKeys(keys: seq<Key>): (r: seq<Key>)
    ensures forall k :: k in r <==> k in keys
  {
    if keys == [] then [] else InsertKey(keys[0], SortKeys(keys[1..]))
  }

  function WasteKeys(actor: Id, key: Id, alias: Option<Id>): seq<Key> {
    [Key(WasteOp(actor), key)] + if alias.Some? then [Key(RestWasteOp(actor), alias.value)] else []
  }

  // ----- calls --------------------------------------------------------------

  function AsHold(rid: Id, r: Result<(Stock, Reservation)>): Result<(Stock, Response)> {
    match r
    case Ok((s, hold)) => Ok((s, HoldResponse(rid, hold)))
    case Err(e) => Err(e)
  }

  function AsWaste(r: Result<(Stock, WasteRecord)>): Result<(Stock, Response)> {
    match r
    case Ok((s, w)) => Ok((s, WasteResponse(w)))
    case Err(e) => Err(e)
  }

  function AsBatch(id: Id, r: Result<(Stock, Batch)>): Result<(Stock, Response)> {
    match r
    case Ok((s, b)) => Ok((s, BatchResponse(id, b)))
    case Err(e) => Err(e)
  }

  function Mutate(st: Store, keys: seq<Key>, request: Request, effect: Result<(Stock, Response)>, t: Time)
    : (Store, Result<Response>)
  {
    var o := Serve(st.stock, st.table, SortKeys(keys), request, effect);
    (Store(o.state, o.table, t), o.result)
  }

  function Unkeyed(st: Store, effect: Result<(Stock, Response)>, t: Time): (Store, Result<Response>) {
    match effect
    case Err(e) => (st.(clock := t), Err(e))
    case Ok((s, v)) => (st.(stock := s, clock := t), Ok(v))
  }

  function StepReserve(st: Store, ttl: int, c: Call): (Store, Result<Response>)
    requires c.CallReserve?
  {
    if !WellFormedItems(c.items) || c.order == NIL || c.key == NIL then (st, Err(Invalid)) else
    var items := SortItems(c.items);
    Mutate(st, [Key(ReserveOp, c.key)], HoldRequest(c.order, c.key, items),
           AsHold(c.rid, Reserve(st.stock, c.rid, c.order, items, ttl, c.t, c.current)), c.current)
  }

  function StepTransition(st: Store, c: Call): (Store, Result<Response>)
    requires c.CallTransition?
  {
    if c.rid == NIL || c.order == NIL || c.key == NIL || !ShortText(c.reason) then (st, Err(Invalid)) else
    var reason := if c.confirm then "" else c.reason;
    Mutate(st, [Key(if c.confirm then ConfirmOp else ReleaseOp, c.key)], ChangeRequest(c.rid, c.order, c.key, reason),
           AsHold(c.rid, Transition(st.stock, c.rid, c.order, reason, c.confirm, false, c.t)), c.t)
  }

  function StepReturn(st: Store, c: Call): (Store, Result<Response>)
    requires c.CallReturn?
  {
    if c.rid == NIL || c.order == NIL || c.key == NIL || !ShortText(c.reason) then (st, Err(Invalid)) else
    Mutate(st, [Key(ReturnOp, c.key)], ChangeRequest(c.rid, c.order, c.key, c.reason),
           AsHold(c.rid, ReturnConfirmed(st.stock, c.rid, c.order, c.reason, c.t)), c.t)
  }

  function StepWaste(st: Store, c: Call): (Store, Result<Response>)
    requires c.CallWaste?
  {
    if c.batch == NIL || c.actor == NIL || c.key == NIL || !(1 <= c.portions <= MAX_PORTIONS) ||
       c.why.UnknownReason? || !ShortText(c.note)
    then (st, Err(Invalid)) else
    Mutate(st, WasteKeys(c.actor, c.key, c.alias), DiscardRequest(c.batch, c.portions, c.why, c.note, c.key),
           AsWaste(Discard(st.stock, c.batch, c.portions, c.why, c.note, c.t)), c.t)
  }

  /** A keyed retry is answered from its record before the catalog is asked. */
  function StepCreate(st: Store, c: Call): (Store, Result<Response>)
    requires c.CallCreate?
  {
    if c.actor == NIL || !ValidProduction(c.production) then (st, Err(Invalid)) else
    var effect := if c.listed then AsBatch(c.id, Create(st.stock, c.id, c.production, c.t)) else Err(Dependency);
    if c.alias.None? then Unkeyed(st, effect, c.t)
    else Mutate(st, [Key(CreateOp(c.actor), c.alias.value)], ProduceRequest(c.production), effect, c.t)
  }

  const TIMEOUT := "reservation timeout"

  function StepExpireHold(st: Store, c: Call): (Store, Result<Response>)
    requires c.CallExpireHold?
  {
    Unkeyed(st, AsHold(c.rid, Transition(st.stock, c.rid, c.order, TIMEOUT, false, true, c.t)), c.t)
  }

  function StepExpireBatch(st: Store, c: Call): (Store, Result<Response>)
    requires c.CallExpireBatch?
  {
    match ExpireBatch(st.stock, c.batch, c.t)
    case Err(e) => (st.(clock := c.t), Err(e))
    case Ok(s) => (st.(stock := s, clock := c.t), Ok(BatchResponse(c.batch, s.batches[c.batch])))
  }

  function Step(st: Store, ttl: int, c: Call): (Store, Result<Response>) {
    match c
    case CallReserve(_, _, _, _, _, _) => StepReserve(st, ttl, c)
    case CallTransition(_, _, _, _, _, _) => StepTransition(st, c)
    case CallReturn(_, _, _, _, _) => StepReturn(st, c)
    case CallWaste(_, _, _, _, _, _, _, _) => StepWaste(st, c)
    case CallCreate(_, _, _, _, _, _) => StepCreate(st, c)
    case CallExpireHold(_, _, _) => StepExpireHold(st, c)
    case CallExpireBatch(_, _) => StepExpireBatch(st, c)
  }

  /** The clock never runs backwards and generated identifiers are new. */
  predicate Admissible(st: Store, c: Call) {
    match c
    case CallReserve(_, _, _, rid, t, current) =>
      st.clock <= t <= current && rid != NIL && rid !in st.stock.reservations
    case CallCreate(_, _, id, _, _, t) => st.clock <= t && id != NIL && id !in st.stock.batches
    case CallTransition(_, _, _, _, _, t) => st.clock <= t
    case CallReturn(_, _, _, _, t) => st.clock <= t
    case CallWaste(_, _, _, _, _, _, _, t) => st.clock <= t
    case CallExpireHold(_, _, t) => st.clock <= t
    case CallExpireBatch(_, t) => st.clock <= t
  }
}
