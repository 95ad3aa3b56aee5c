/** Deadlock freedom of the inventory's concurrent transactions. Every transaction claims
    idempotency keys in sorted order, then at most one order, then flavors ascending, then
    at most one new batch code; it touches reservation and batch rows only under the lock
    of their flavor. The hash that turns a lock name into an advisory lock is injective. */
module Locks {
  import opened Ordering
  import opened InventoryModel
  import opened InventoryLaws
  import opened InventoryInvariant
  import opened InventoryStore
  import opened InventoryTheorems

  datatype Resource =
    | KeyLock(key: Key)
    | OrderLock(order: Id)
    | FlavorLock(flavor: Id)
    | CodeLock(code: string)
    | HoldRow(rid: Id)
    | BatchRow(batch: Id)

  predicate IsRow(r: Resource) {
    r.HoldRow? || r.BatchRow?
  }

  function Tier(r: Resource): nat {
    match r
    case KeyLock(_) => 0
    case OrderLock(_) => 1
    case FlavorLock(_) => 2
    case CodeLock(_) => 3
    case _ => 4
  }

  /** The order in which locks are asked for. */
  predicate LockBefore(a: Resource, b: Resource) {
    Tier(a) < Tier(b) ||
    (a.KeyLock? && b.KeyLock? && KeyBefore(a.key, b.key)) ||
    (a.FlavorLock? && b.FlavorLock? && a.flavor < b.flavor)
  }

  lemma LockOrder(a: Resource, b: Resource, c: Resource)
    ensures !LockBefore(a, a)
    ensures LockBefore(a, b) && LockBefore(b, c) ==> LockBefore(a, c)
  {
  }

  // ----- what one transaction asks for --------------------------------------

  function InsertId(x: Id, ids: seq<Id>): (r: seq<Id>)
    ensures forall y :: y in r <==> y == x || y in ids
    ensures |r| == |ids| + 1
  {
    if ids == [] || x <= ids[0] then [x] + ids else [ids[0]] + InsertId(x, ids[1..])
  }

  function SortIds(ids: seq<Id>): (r: seq<Id>)
    ensures forall y :: y in r <==> y in ids
  {
    if ids == [] then [] else InsertId(ids[0], SortIds(ids[1..]))
  }

  ghost predicate SortedIds(ids: seq<Id>) {
    forall i, j | 0 <= i < j < |ids| :: ids[i] <= ids[j]
  }

  lemma {:induction false} InsertIdSorted(x: Id, ids: seq<Id>)
    requires SortedIds(ids)
    ensures SortedIds(InsertId(x, ids))
  {
    if ids != [] && ids[0] < x {
      var rest := InsertId(x, ids[1..]);
      InsertIdSorted(x, ids[1..]);
      forall j | 0 <= j < |rest| ensures ids[0] <= rest[j] {
        assert rest[j] in rest;
        if rest[j] != x {
          var k :| 0 <= k < |ids[1..]| && ids[1..][k] == rest[j];
        }
      }
    }
  }

  lemma {:induction false} SortIdsSorted(ids: seq<Id>)
    ensures SortedIds(SortIds(ids))
  {
    if ids != [] {
      SortIdsSorted(ids[1..]);
      InsertIdSorted(ids[0], SortIds(ids[1..]));
    }
  }

  ghost predicate Ascending(ids: seq<Id>) {
    forall i, j | 0 <= i < j < |ids| :: ids[i] < ids[j]
  }

  /** lockFlavors: sort a copy, skip repeats, lock the rest one by one. */
  method LockFlavors(ids: seq<Id>) returns (locked: seq<Id>)
    ensures Ascending(locked)
    ensures forall f :: f in locked <==> f in ids && f != NIL
  {
    var sorted := SortIds(ids);
    SortIdsSorted(ids);
    var prev := NIL;
    locked := [];
    var i := 0;
    while i < |sorted|
      invariant 0 <= i <= |sorted|
      invariant Ascending(locked) && forall k | 0 <= k < |locked| :: locked[k] <= prev
      invariant forall f | f in locked :: f != NIL
      invariant forall f :: f in sorted[..i] ==> f in locked || f == NIL
      invariant forall f | f in locked :: f in sorted
      invariant forall j | i <= j < |sorted| :: prev <= sorted[j]
      invariant prev != NIL ==> prev in locked
    {
      assert sorted[..i + 1] == sorted[..i] + [sorted[i]];
      if sorted[i] != prev {
        locked := locked + [sorted[i]];
        prev := sorted[i];
      }
      i := i + 1;
    }
    assert sorted[..i] == sorted;
  }

  // ----- plans --------------------------------------------------------------

  /** Where a row lives: the flavor of a batch, and a flavor of a reservation. Both are
      fixed when the row is written. */
  datatype Homes = Homes(batch: map<Id, Id>, hold: map<Id, Id>)

  ghost predicate Guarded(h: Homes, held: seq<Resource>, r: Resource) {
    match r
    case BatchRow(id) => id in h.batch && FlavorLock(h.batch[id]) in held
    case HoldRow(rid) => rid in h.hold && FlavorLock(h.hold[rid]) in held
    case _ => true
  }

  /** A disciplined plan: locks strictly ascending, rows only under their flavor lock. */
  ghost predicate Disciplined(h: Homes, plan: seq<Resource>) {
    (forall i, j | 0 <= i < j < |plan| && !IsRow(plan[i]) && !IsRow(plan[j]) :: LockBefore(plan[i], plan[j])) &&
    (forall j | 0 <= j < |plan| :: Guarded(h, plan[..j], plan[j]))
  }

  // ----- the lock manager ---------------------------------------------------

  type TxId = nat

  /** A transaction with the locks it will ask for; it holds the first `got` of them. */
  datatype Tx = Tx(plan: seq<Resource>, got: nat)

  type Manager = map<TxId, Tx>

  ghost predicate Holds(m: Manager, u: TxId, r: Resource) {
    u in m && m[u].got <= |m[u].plan| && r in m[u].plan[..m[u].got]
  }

  ghost predicate Asking(m: Manager, t: TxId) {
    t in m && m[t].got < |m[t].plan|
  }

  ghost function Asked(m: Manager, t: TxId): Resource
    requires Asking(m, t)
  {
    m[t].plan[m[t].got]
  }

  /** The waits-for relation. */
  ghost predicate Waits(m: Manager, t: TxId, u: TxId) {
    Asking(m, t) && t != u && Holds(m, u, Asked(m, t))
  }

  ghost predicate Blocked(m: Manager, t: TxId) {
    exists u :: Waits(m, t, u)
  }

  datatype Move = Begin(t: TxId, plan: seq<Resource>) | Acquire(t: TxId) | Finish(t: TxId)

  ghost predicate Allowed(h: Homes, m: Manager, v: Move) {
    match v
    case Begin(t, plan) => t !in m && Disciplined(h, plan)
    case Acquire(t) => Asking(m, t) && !Blocked(m, t)
    case Finish(t) => t in m
  }

  ghost function After(m: Manager, v: Move): Manager
    requires v.Acquire? ==> v.t in m
  {
    match v
    case Begin(t, plan) => m[t := Tx(plan, 0)]
    case Acquire(t) => m[t := m[t].(got := m[t].got + 1)]
    case Finish(t) => m - {t}
  }

  /** Locks are exclusive, and every transaction keeps to a disciplined plan. */
  ghost predicate Sound(h: Homes, m: Manager) {
    (forall t | t in m :: m[t].got <= |m[t].plan| && Disciplined(h, m[t].plan)) &&
    (forall t, u, r | Holds(m, t, r) && Holds(m, u, r) :: t == u)
  }

  lemma MoveKeepsSound(h: Homes, m: Manager, v: Move)
    requires Sound(h, m) && Allowed(h, m, v)
    ensures Sound(h, After(m, v))
  {
    var m' := After(m, v);
    forall t, u, r | Holds(m', t, r) && Holds(m', u, r) ensures t == u {
      HoldsCame(h, m, v, t, r);
      HoldsCame(h, m, v, u, r);
      if t != u {
        assert v == Acquire(t) ==> Waits(m, t, u);
        assert v == Acquire(u) ==> Waits(m, u, t);
      }
    }
  }

  lemma HoldsCame(h: Homes, m: Manager, v: Move, t: TxId, r: Resource)
    requires Sound(h, m) && Allowed(h, m, v) && Holds(After(m, v), t, r)
    ensures Holds(m, t, r) || (v == Acquire(t) && r == Asked(m, t))
  {
    if v == Acquire(t) {
      var x := m[t];
      assert x.plan[..x.got + 1] == x.plan[..x.got] + [x.plan[x.got]];
    }
  }

  ghost predicate IsHistory(h: Homes, managers: seq<Manager>, moves: seq<Move>) {
    |managers| == |moves| + 1 && managers[0] == map[] &&
    forall i | 0 <= i < |moves| :: Allowed(h, managers[i], moves[i]) && managers[i + 1] == After(managers[i], moves[i])
  }

  lemma {:induction false} EveryManagerSound(h: Homes, managers: seq<Manager>, moves: seq<Move>, i: nat)
    requires IsHistory(h, managers, moves) && i < |managers|
    ensures Sound(h, managers[i])
  {
    if i > 0 {
      EveryManagerSound(h, managers, moves, i - 1);
      MoveKeepsSound(h, managers[i - 1], moves[i - 1]);
    }
  }

  // ----- no deadlock --------------------------------------------------------

  /** Nobody ever waits for a row: whoever holds it holds the flavor lock as well. */
  lemma RowsNeverBlock(h: Homes, m: Manager, t: TxId, u: TxId)
    requires Sound(h, m) && Waits(m, t, u)
    ensures !IsRow(Asked(m, t))
  {
    var r := Asked(m, t);
    if IsRow(r) {
      var x, y := m[t], m[u];
      assert Guarded(h, x.plan[..x.got], r);
      var j :| 0 <= j < y.got && y.plan[..y.got][j] == r;
      assert Guarded(h, y.plan[..j], y.plan[j]);
      var f := FlavorLock(if r.BatchRow? then h.batch[r.batch] else h.hold[r.rid]);
      var k :| 0 <= k < j && y.plan[..j][k] == f;
      assert y.plan[..y.got][k] == f;
      assert Holds(m, t, f) && Holds(m, u, f);
    }
  }

  /** Along the waits-for relation the lock asked for strictly ascends. */
  lemma WaitingAscends(h: Homes, m: Manager, t: TxId, u: TxId, v: TxId)
    requires Sound(h, m) && Waits(m, t, u) && Waits(m, u, v)
    ensures LockBefore(Asked(m, t), Asked(m, u))
  {
    RowsNeverBlock(h, m, t, u);
    RowsNeverBlock(h, m, u, v);
    var y := m[u];
    var j :| 0 <= j < y.got && y.plan[..y.got][j] == Asked(m, t);
    assert y.plan[j] == Asked(m, t);
    assert Disciplined(h, y.plan);
  }

  ghost predicate IsChain(m: Manager, chain: seq<TxId>) {
    forall i | 0 <= i < |chain| - 1 :: Waits(m, chain[i], chain[i + 1])
  }

  lemma {:induction false} ChainAscends(h: Homes, m: Manager, chain: seq<TxId>, i: nat, j: nat)
    requires Sound(h, m) && IsChain(m, chain) && i < j < |chain| - 1
    ensures Asking(m, chain[i]) && Asking(m, chain[j]) && LockBefore(Asked(m, chain[i]), Asked(m, chain[j]))
    decreases j
  {
    assert Waits(m, chain[i], chain[i + 1]) && Waits(m, chain[j], chain[j + 1]);
    var k := j - 1;
    assert Waits(m, chain[k], chain[k + 1]);
    WaitingAscends(h, m, chain[k], chain[j], chain[j + 1]);
    if i < k {
      ChainAscends(h, m, chain, i, k);
      LockOrder(Asked(m, chain[i]), Asked(m, chain[k]), Asked(m, chain[j]));
    }
  }

  /** No reachable state has a cycle in the waits-for relation. */
  lemma NoDeadlock(h: Homes, managers: seq<Manager>, moves: seq<Move>, i: nat, cycle: seq<TxId>)
    requires IsHistory(h, managers, moves) && i < |managers|
    requires |cycle| >= 2 && IsChain(managers[i], cycle)
    ensures cycle[0] != cycle[|cycle| - 1]
  {
    var m := managers[i];
    EveryManagerSound(h, managers, moves, i);
    if cycle[0] == cycle[|cycle| - 1] {
      assert Waits(m, cycle[0], cycle[1]);
      var n := |cycle| - 2;
      if n == 0 {
        assert false;
      } else {
        ChainAscends(h, m, cycle, 0, n);
        assert Waits(m, cycle[n], cycle[n + 1]);
        WaitingAscends(h, m, cycle[n], cycle[0], cycle[1]);
        LockOrder(Asked(m, cycle[0]), Asked(m, cycle[n]), Asked(m, cycle[0]));
      }
    }
  }

  lemma {:induction false} TopAsker(m: Manager, ts: set<TxId>) returns (top: TxId)
    requires ts != {} && forall t | t in ts :: Asking(m, t)
    ensures top in ts && forall t | t in ts :: !LockBefore(Asked(m, top), Asked(m, t))
    decreases |ts|
  {
    var x :| x in ts;
    top := x;
    LockOrder(Asked(m, x), Asked(m, x), Asked(m, x));
    if ts != {x} {
      var rest := ts - {x};
      assert ts == rest + {x};
      var y := TopAsker(m, rest);
      if LockBefore(Asked(m, x), Asked(m, y)) {
        top := y;
        LockOrder(Asked(m, y), Asked(m, x), Asked(m, y));
        LockOrder(Asked(m, y), Asked(m, y), Asked(m, y));
      } else {
        forall t | t in ts ensures !LockBefore(Asked(m, top), Asked(m, t)) {
        }
      }
    }
  }

  /** Progress: as long as transactions are open, one of them can take its next lock or
      already has all of them. */
  lemma SomeoneCanProceed(h: Homes, managers: seq<Manager>, moves: seq<Move>, i: nat) returns (t: TxId)
    requires IsHistory(h, managers, moves) && i < |managers| && managers[i] != map[]
    ensures t in managers[i] && (Asking(managers[i], t) ==> Allowed(h, managers[i], Acquire(t)))
  {
    var m := managers[i];
    EveryManagerSound(h, managers, moves, i);
    t :| t in m;
    var stuck := set u | u in m && Blocked(m, u);
    if Blocked(m, t) {
      assert t in stuck;
      t := TopAsker(m, stuck);
      var u :| Waits(m, t, u);
      if Blocked(m, u) {
        var v :| Waits(m, u, v);
        assert u in stuck;
        WaitingAscends(h, m, t, u, v);
        assert false;
      }
      t := u;
    }
  }

  // ----- every call is disciplined ------------------------------------------

  ghost predicate SortedKeys(keys: seq<Key>) {
    forall i, j | 0 <= i < j < |keys| :: KeyBefore(keys[i], keys[j])
  }

  lemma {:induction false} InsertKeySorted(x: Key, keys: seq<Key>)
    requires SortedKeys(keys) && x !in keys
    ensures SortedKeys(InsertKey(x, keys))
  {
    if keys != [] && KeyBefore(keys[0], x) {
      var rest := InsertKey(x, keys[1..]);
      InsertKeySorted(x, keys[1..]);
      forall j | 0 <= j < |rest| ensures KeyBefore(keys[0], rest[j]) {
        assert rest[j] in rest;
        if rest[j] != x {
          var k :| 0 <= k < |keys[1..]| && keys[1..][k] == rest[j];
        }
      }
    } else if keys != [] {
      assert KeyBefore(x, keys[0]);
      forall j | 0 <= j < |keys| ensures KeyBefore(x, keys[j]) {
        assert j > 0 ==> KeyBefore(keys[0], keys[j]);
      }
    }
  }

  /** mutateKeys sorts its keys, which never repeat, so it claims them strictly ascending. */
  lemma {:induction false} SortKeysSorted(keys: seq<Key>)
    requires forall i, j | 0 <= i < j < |keys| :: keys[i] != keys[j]
    ensures SortedKeys(SortKeys(keys))
  {
    if keys != [] {
      SortKeysSorted(keys[1..]);
      assert keys[0] !in keys[1..];
      InsertKeySorted(keys[0], SortKeys(keys[1..]));
    }
  }

  /** What a transaction asks for, in order. */
  datatype Shape = Shape(keys: seq<Key>, orders: seq<Id>, flavors: seq<Id>, codes: seq<string>, rows: seq<Resource>)

  ghost function PlanOf(p: Shape): seq<Resource> {
    seq(|p.keys|, i requires 0 <= i < |p.keys| => KeyLock(p.keys[i])) +
    seq(|p.orders|, i requires 0 <= i < |p.orders| => OrderLock(p.orders[i])) +
    seq(|p.flavors|, i requires 0 <= i < |p.flavors| => FlavorLock(p.flavors[i])) +
    seq(|p.codes|, i requires 0 <= i < |p.codes| => CodeLock(p.codes[i])) + p.rows
  }

  ghost predicate WellShaped(h: Homes, p: Shape) {
    SortedKeys(p.keys) && |p.orders| <= 1 && Ascending(p.flavors) && |p.codes| <= 1 &&
    forall r | r in p.rows ::
      (r.BatchRow? && r.batch in h.batch && h.batch[r.batch] in p.flavors) ||
      (r.HoldRow? && r.rid in h.hold && h.hold[r.rid] in p.flavors)
  }

  ghost function Locked(p: Shape, i: nat): Resource
    requires i < |p.keys| + |p.orders| + |p.flavors| + |p.codes|
  {
    var (a, b, c) := (|p.keys|, |p.keys| + |p.orders|, |p.keys| + |p.orders| + |p.flavors|);
    if i < a then KeyLock(p.keys[i]) else if i < b then OrderLock(p.orders[i - a])
    else if i < c then FlavorLock(p.flavors[i - b]) else CodeLock(p.codes[i - c])
  }

  lemma PlanAt(p: Shape, i: nat)
    requires i < |PlanOf(p)|
    ensures var n := |p.keys| + |p.orders| + |p.flavors| + |p.codes|;
            |PlanOf(p)| == n + |p.rows| && PlanOf(p)[i] == if i < n then Locked(p, i) else p.rows[i - n]
  {
  }

  lemma ShapeIsDisciplined(h: Homes, p: Shape)
    requires WellShaped(h, p)
    ensures Disciplined(h, PlanOf(p))
  {
    var plan := PlanOf(p);
    var n := |p.keys| + |p.orders| + |p.flavors| + |p.codes|;
    hide PlanOf;
    forall j | n <= j < |plan| ensures IsRow(plan[j]) {
      PlanAt(p, j);
      assert p.rows[j - n] in p.rows;
    }
    forall i, j | 0 <= i < j < |plan| && !IsRow(plan[i]) && !IsRow(plan[j]) ensures LockBefore(plan[i], plan[j]) {
      PlanAt(p, i);
      PlanAt(p, j);
    }
    forall j | 0 <= j < |plan| ensures Guarded(h, plan[..j], plan[j]) {
      PlanAt(p, j);
      if j >= n {
        var r := p.rows[j - n];
        assert r in p.rows;
        var f := if r.BatchRow? then h.batch[r.batch] else h.hold[r.rid];
        var k :| 0 <= k < |p.flavors| && p.flavors[k] == f;
        var m := |p.keys| + |p.orders| + k;
        PlanAt(p, m);
        assert plan[..j][m] == FlavorLock(f);
      }
    }
  }

  ghost function HomesOf(s: Stock): Homes {
    Homes(map id | id in s.batches :: s.batches[id].flavor,
          map rid | rid in s.reservations && s.reservations[rid].allocations != [] :: s.reservations[rid].allocations[0].flavor)
  }

  ghost predicate FlavorsOfHold(s: Stock, rid: Id, flavors: seq<Id>) {
    Ascending(flavors) &&
    forall f :: f in flavors <==> rid in s.reservations && exists a | a in s.reservations[rid].allocations :: a.flavor == f
  }

  /** Rows of one transaction: batches of its flavors, and the reservation it changes. */
  ghost predicate RowsUnder(s: Stock, rows: seq<Resource>, flavors: seq<Id>, holds: set<Id>) {
    forall r | r in rows ::
      (r.BatchRow? && r.batch in s.batches && s.batches[r.batch].flavor in flavors) ||
      (r.HoldRow? && r.rid in holds && r.rid in s.reservations)
  }

  /** What each call asks for. */
  ghost predicate AsksFor(s: Stock, c: Call, p: Shape) {
    match c
    case CallReserve(order, key, items, _, _, _) =>
      p.keys == SortKeys([Key(ReserveOp, key)]) && p.orders == [order] && p.codes == [] && Ascending(p.flavors) &&
      (forall f :: f in p.flavors <==> exists i | i in items :: i.flavor == f) && RowsUnder(s, p.rows, p.flavors, {})
    case CallTransition(confirm, rid, order, key, _, _) =>
      p.keys == SortKeys([Key(if confirm then ConfirmOp else ReleaseOp, key)]) && p.orders == [order] && p.codes == [] &&
      FlavorsOfHold(s, rid, p.flavors) && RowsUnder(s, p.rows, p.flavors, {rid})
    case CallReturn(rid, order, key, _, _) =>
      p.keys == SortKeys([Key(ReturnOp, key)]) && p.orders == [order] && p.codes == [] &&
      FlavorsOfHold(s, rid, p.flavors) && RowsUnder(s, p.rows, p.flavors, {rid})
    case CallExpireHold(rid, order, _) =>
      p.keys == [] && p.orders == [order] && p.codes == [] &&
      FlavorsOfHold(s, rid, p.flavors) && RowsUnder(s, p.rows, p.flavors, {rid})
    case CallWaste(batch, actor, _, _, _, key, alias, _) =>
      p.keys == SortKeys(if alias.Some? then [Key(WasteOp(actor), key), Key(RestWasteOp(actor), alias.value)] else [Key(WasteOp(actor), key)]) && p.orders == [] && p.codes == [] &&
      p.flavors == (if batch in s.batches then [s.batches[batch].flavor] else []) && RowsUnder(s, p.rows, p.flavors, {})
    case CallCreate(actor, production, _, alias, _, _) =>
      p.keys == SortKeys(if alias.Some? then [Key(CreateOp(actor), alias.value)] else []) && p.orders == [] &&
      p.flavors == [production.flavor] && p.codes == [production.code] && RowsUnder(s, p.rows, p.flavors, {})
    case CallExpireBatch(batch, _) =>
      p.keys == [] && p.orders == [] && p.codes == [] &&
      p.flavors == (if batch in s.batches then [s.batches[batch].flavor] else []) && RowsUnder(s, p.rows, p.flavors, {})
  }

  lemma HoldRowsGuarded(s: Stock, clock: Time, p: Shape, rid: Id)
    requires Valid(s, clock) && FlavorsOfHold(s, rid, p.flavors) && RowsUnder(s, p.rows, p.flavors, {rid})
    requires SortedKeys(p.keys) && |p.orders| <= 1 && |p.codes| <= 1
    ensures WellShaped(HomesOf(s), p)
  {
    if rid in s.reservations {
      var r := s.reservations[rid];
      assert HoldSound(s, r);
      assert r.allocations[0] in r.allocations;
    }
  }

  /** Every call of the inventory asks for its locks in a disciplined order. */
  lemma CallsAreDisciplined(s: Stock, clock: Time, c: Call, p: Shape)
    requires Valid(s, clock) && AsksFor(s, c, p)
    ensures Disciplined(HomesOf(s), PlanOf(p))
  {
    match c {
      case CallReserve(_, key, _, _, _, _) => SortKeysSorted([Key(ReserveOp, key)]);
      case CallTransition(confirm, rid, _, key, _, _) =>
        SortKeysSorted([Key(if confirm then ConfirmOp else ReleaseOp, key)]);
        HoldRowsGuarded(s, clock, p, rid);
      case CallReturn(rid, _, key, _, _) =>
        SortKeysSorted([Key(ReturnOp, key)]);
        HoldRowsGuarded(s, clock, p, rid);
      case CallExpireHold(rid, _, _) => HoldRowsGuarded(s, clock, p, rid);
      case CallWaste(_, actor, _, _, _, key, alias, _) => 
        SortKeysSorted(if alias.Some? then [Key(WasteOp(actor), key), Key(RestWasteOp(actor), alias.value)] else [Key(WasteOp(actor), key)]);
      case CallCreate(actor, _, _, alias, _, _) =>
        SortKeysSorted(if alias.Some? then [Key(CreateOp(actor), alias.value)] else []);
      case _ =>
    }
    hide Valid, Disciplined;
    ShapeIsDisciplined(HomesOf(s), p);
  }

  /** A transaction of the service: a call, or the notice that a batch is about to expire. */
  datatype Job = CallJob(c: Call) | NoticeJob(batch: Id)

  /** What a transaction asks for, given the tables it reads. */
  ghost predicate Wants(s: Stock, job: Job, p: Shape) {
    match job
    case CallJob(c) => AsksFor(s, c, p)
    case NoticeJob(batch) =>
      p.keys == [] && p.orders == [] && p.codes == [] && batch in s.batches && p.flavors == [s.batches[batch].flavor] &&
      (p.rows == [] || p.rows == [BatchRow(batch)])
  }

  lemma JobsAreDisciplined(s: Stock, clock: Time, job: Job, p: Shape)
    requires Valid(s, clock) && Wants(s, job, p)
    ensures Disciplined(HomesOf(s), PlanOf(p))
  {
    hide Valid, Disciplined, PlanOf;
    match job
    case CallJob(c) => CallsAreDisciplined(s, clock, c, p);
    case NoticeJob(batch) => ShapeIsDisciplined(HomesOf(s), p);
  }

  /** Later tables only add homes, so a plan disciplined at its start stays so. */
  lemma DisciplineLasts(s: Stock, s': Stock, plan: seq<Resource>)
    requires Grown(s, s') && Disciplined(HomesOf(s), plan)
    ensures Disciplined(HomesOf(s'), plan)
  {
    forall j | 0 <= j < |plan| ensures Guarded(HomesOf(s'), plan[..j], plan[j]) {
      assert Guarded(HomesOf(s), plan[..j], plan[j]);
    }
  }

  // ----- the service never deadlocks ----------------------------------------

  /** Where a begun transaction comes from: its job, what it asks for, and which state of
      the inventory's run it reads. */
  datatype Origin = Origin(job: Job, shape: Shape, at: nat)

  /** Lock histories of the service over a run of the inventory: any number of transactions
      begin, take their locks one by one, and finish, in any interleaving. */
  ghost predicate IsServiceHistory(states: seq<Store>, calls: seq<Call>, ttl: int, origins: seq<Origin>,
                                   managers: seq<Manager>, moves: seq<Move>)
  {
    IsRun(states, calls, ttl) && |origins| == |moves| && |managers| == |moves| + 1 && managers[0] == map[] &&
    forall i | 0 <= i < |moves| :: Serves(states, origins[i], managers[i], moves[i]) && managers[i + 1] == After(managers[i], moves[i])
  }

  ghost predicate Serves(states: seq<Store>, o: Origin, m: Manager, v: Move) {
    match v
    case Begin(t, plan) =>
      t !in m && o.at < |states| && Wants(states[o.at].stock, o.job, o.shape) && plan == PlanOf(o.shape)
    case Acquire(t) => Asking(m, t) && !Blocked(m, t)
    case Finish(t) => t in m
  }

  ghost function FinalHomes(states: seq<Store>): Homes
    requires states != []
  {
    HomesOf(states[|states| - 1].stock)
  }

  lemma BegunIsDisciplined(states: seq<Store>, calls: seq<Call>, ttl: int, o: Origin)
    requires IsRun(states, calls, ttl) && o.at < |states| && Wants(states[o.at].stock, o.job, o.shape)
    ensures Disciplined(FinalHomes(states), PlanOf(o.shape))
  {
    hide IsRun, Disciplined, Wants, PlanOf, Grown, Valid, HomesOf;
    RunValid(states, calls, ttl, o.at);
    JobsAreDisciplined(states[o.at].stock, states[o.at].clock, o.job, o.shape);
    HistoryOnlyGrows(states, calls, ttl, o.at, |states| - 1);
    DisciplineLasts(states[o.at].stock, states[|states| - 1].stock, PlanOf(o.shape));
  }

  lemma ServiceHistoriesAreDisciplined(states: seq<Store>, calls: seq<Call>, ttl: int, origins: seq<Origin>,
                                       managers: seq<Manager>, moves: seq<Move>)
    requires IsServiceHistory(states, calls, ttl, origins, managers, moves)
    ensures states != [] && IsHistory(FinalHomes(states), managers, moves)
  {
    var h := FinalHomes(states);
    hide IsRun, Disciplined, Wants, PlanOf, FinalHomes, Blocked, After;
    forall i | 0 <= i < |moves| ensures Allowed(h, managers[i], moves[i]) {
      assert Serves(states, origins[i], managers[i], moves[i]);
      if moves[i].Begin? {
        BegunIsDisciplined(states, calls, ttl, origins[i]);
      }
    }
  }

  /** However the inventory's transactions interleave, no state has a cycle of waiting. */
  lemma ServiceNeverDeadlocks(states: seq<Store>, calls: seq<Call>, ttl: int, origins: seq<Origin>,
                              managers: seq<Manager>, moves: seq<Move>, i: nat, cycle: seq<TxId>)
    requires IsServiceHistory(states, calls, ttl, origins, managers, moves) && i < |managers|
    requires |cycle| >= 2 && IsChain(managers[i], cycle)
    ensures cycle[0] != cycle[|cycle| - 1]
  {
    hide *;
    ServiceHistoriesAreDisciplined(states, calls, ttl, origins, managers, moves);
    NoDeadlock(FinalHomes(states), managers, moves, i, cycle);
  }

  /** And while transactions are open, one of them has all its locks or can take its next. */
  lemma ServiceProgresses(states: seq<Store>, calls: seq<Call>, ttl: int, origins: seq<Origin>,
                          managers: seq<Manager>, moves: seq<Move>, i: nat) returns (t: TxId)
    requires IsServiceHistory(states, calls, ttl, origins, managers, moves) && i < |managers| && managers[i] != map[]
    ensures t in managers[i] && (Asking(managers[i], t) ==> !Blocked(managers[i], t))
  {
    ServiceHistoriesAreDisciplined(states, calls, ttl, origins, managers, moves);
    t := SomeoneCanProceed(FinalHomes(states), managers, moves, i);
  }
}
