/** The promises of the inventory service, for every input and over every run. */
module InventoryTheorems {
  import opened Ordering
  import opened InventoryModel
  import opened InventoryLaws
  import opened Fefo
  import opened InventoryInvariant
  import opened Idempotency
  import opened InventoryStore
  import opened InventoryRuns

  // ----- runs ---------------------------------------------------------------

  ghost predicate IsRun(states: seq<Store>, calls: seq<Call>, ttl: int) {
    |states| == |calls| + 1 && states[0] == EMPTY_STORE &&
    forall i | 0 <= i < |calls| ::
      Admissible(states[i], calls[i]) && states[i + 1] == Step(states[i], ttl, calls[i]).0
  }

  lemma {:induction false} RunValid(states: seq<Store>, calls: seq<Call>, ttl: int, i: nat)
    requires IsRun(states, calls, ttl) && i < |states|
    ensures ValidStore(states[i]) && NoneArchived(states[i].stock)
  {
    if i == 0 {
      EmptyValid(0);
    } else {
      RunValid(states, calls, ttl, i - 1);
      StepGood(states[i - 1], ttl, calls[i - 1]);
    }
  }

  ghost predicate GoodRun(states: seq<Store>) {
    forall i | 0 <= i < |states| - 1 :: GoodStep(states[i], states[i + 1])
  }

  lemma RunIsGood(states: seq<Store>, calls: seq<Call>, ttl: int)
    requires IsRun(states, calls, ttl)
    ensures GoodRun(states)
  {
    forall i | 0 <= i < |states| - 1 ensures GoodStep(states[i], states[i + 1]) {
      RunValid(states, calls, ttl, i);
      StepGood(states[i], ttl, calls[i]);
    }
  }

  /** After every call of every run each batch conserves its portions, what it holds
      and sold is exactly what its reservations say, what it lost is exactly what the
      waste records say, and the ledger alone replays to the same four balances. */
  lemma StockIsConserved(states: seq<Store>, calls: seq<Call>, ttl: int, i: nat, id: Id)
    requires IsRun(states, calls, ttl) && i < |states| && id in states[i].stock.batches
    ensures var s := states[i].stock; var b := s.batches[id];
            b.available >= 0 && b.reserved >= 0 && b.sold >= 0 && b.wasted >= 0 &&
            b.initial == b.available + b.reserved + b.sold + b.wasted &&
            b.reserved == Held(s.reservations, ACTIVE, id) &&
            b.sold == Held(s.reservations, CONFIRMED, id) &&
            b.wasted == WasteOn(s.wastes, id) &&
            Replay(s.ledger, id) == Balances(b.available, b.reserved, b.sold, b.wasted)
  {
    RunValid(states, calls, ttl, i);
    assert Accounted(states[i].stock, id);
  }

  /** What one store is to a later one: history is append-only, batches and
      reservations are never dropped, and a reservation only moves forward. */
  ghost predicate Grown(s: Stock, s': Stock) {
    BatchesKept(s, s') && s.ledger <= s'.ledger && s.wastes <= s'.wastes &&
    forall rid | rid in s.reservations ::
      rid in s'.reservations &&
      (HoldEvolves(s.reservations[rid], s'.reservations[rid]) ||
        (s.reservations[rid].status == ACTIVE && s'.reservations[rid].status == RETURNED &&
          s'.reservations[rid] == s.reservations[rid].(status := RETURNED,
                                                       releaseReason := s'.reservations[rid].releaseReason)))
  }

  lemma GrownThrough(s: Stock, mid: Stock, s': Stock)
    requires Grown(s, mid) && Evolves(mid, s')
    ensures Grown(s, s')
  {
  }

  lemma GrownOnce(st: Store, mid: Store, st': Store)
    requires Grown(st.stock, mid.stock) && st.clock <= mid.clock && Keeps(st.table, mid.table) && GoodStep(mid, st')
    ensures Grown(st.stock, st'.stock) && st.clock <= st'.clock && Keeps(st.table, st'.table)
  {
    GrownThrough(st.stock, mid.stock, st'.stock);
  }

  lemma {:induction false} GrownAlong(states: seq<Store>, i: nat, j: nat)
    requires GoodRun(states) && i <= j < |states|
    ensures Grown(states[i].stock, states[j].stock) && states[i].clock <= states[j].clock
    ensures Keeps(states[i].table, states[j].table)
    decreases j
  {
    hide *;
    if i < j {
      var n := j - 1;
      GrownAlong(states, i, n);
      GoodAt(states, n);
      GrownOnce(states[i], states[n], states[j]);
    } else {
      GrownSame(states[i]);
    }
  }

  lemma GrownSame(st: Store)
    ensures Grown(st.stock, st.stock) && Keeps(st.table, st.table)
  {
  }

  lemma GoodAt(states: seq<Store>, n: nat)
    requires GoodRun(states) && n + 1 < |states|
    ensures GoodStep(states[n], states[n + 1])
  {
  }

  lemma HistoryOnlyGrows(states: seq<Store>, calls: seq<Call>, ttl: int, i: nat, j: nat)
    requires IsRun(states, calls, ttl) && i <= j < |states|
    ensures Grown(states[i].stock, states[j].stock) && states[i].clock <= states[j].clock
    ensures Keeps(states[i].table, states[j].table)
  {
    RunIsGood(states, calls, ttl);
    GrownAlong(states, i, j);
  }

  // ----- exactly-once mutation ----------------------------------------------

  /** The keys and the request of a keyed call that passes its input checks. */
  ghost function KeysOf(c: Call): seq<Key> {
    match c
    case CallReserve(_, key, _, _, _, _) => [Key(ReserveOp, key)]
    case CallTransition(confirm, _, _, key, _, _) => [Key(if confirm then ConfirmOp else ReleaseOp, key)]
    case CallReturn(_, _, key, _, _) => [Key(ReturnOp, key)]
    case CallWaste(_, actor, _, _, _, key, alias, _) =>
      if alias.Some? then [Key(WasteOp(actor), key), Key(RestWasteOp(actor), alias.value)] else [Key(WasteOp(actor), key)]
    case CallCreate(actor, _, _, alias, _, _) => if alias.Some? then [Key(CreateOp(actor), alias.value)] else []
    case _ => []
  }

  lemma WasteHasTheseKeys(c: Call)
    requires c.CallWaste?
    ensures WasteKeys(c.actor, c.key, c.alias) == KeysOf(c)
  {
  }

  ghost function RequestOf(c: Call): Request
    requires KeysOf(c) != []
  {
    match c
    case CallReserve(order, key, items, _, _, _) => HoldRequest(order, key, SortItems(items))
    case CallTransition(confirm, rid, order, key, reason, _) =>
      ChangeRequest(rid, order, key, if confirm then "" else reason)
    case CallReturn(rid, order, key, reason, _) => ChangeRequest(rid, order, key, reason)
    case CallWaste(batch, _, portions, why, note, key, _, _) => DiscardRequest(batch, portions, why, note, key)
    case CallCreate(_, production, _, _, _, _) => ProduceRequest(production)
  }

  ghost function Answer(st: Store, ttl: int, c: Call): Result<Response> {
    Step(st, ttl, c).1
  }

  /** A keyed call answers and binds its keys, or fails and leaves everything as it was. */
  lemma StepBinds(st: Store, ttl: int, c: Call, k: Key)
    requires k in KeysOf(c)
    ensures var (st', answer) := Step(st, ttl, c);
            (answer.Ok? ==> k in st'.table && st'.table[k] == Record(RequestOf(c), answer.value)) &&
            (answer.Err? ==> st'.stock == st.stock && st'.table == st.table) &&
            (k in st.table ==> st'.stock == st.stock)
  {
    match c
    case CallReserve(order, key, items, rid, t, current) =>
      var sorted := SortItems(items);
      MutateBinds(st, KeysOf(c), RequestOf(c), AsHold(rid, Reserve(st.stock, rid, order, sorted, ttl, t, current)), current, k);
    case CallTransition(confirm, rid, order, key, reason, t) =>
      MutateBinds(st, KeysOf(c), RequestOf(c),
                  AsHold(rid, Transition(st.stock, rid, order, if confirm then "" else reason, confirm, false, t)), t, k);
    case CallReturn(rid, order, key, reason, t) =>
      MutateBinds(st, KeysOf(c), RequestOf(c), AsHold(rid, ReturnConfirmed(st.stock, rid, order, reason, t)), t, k);
    case CallWaste(batch, actor, portions, why, note, key, alias, t) =>
      WasteHasTheseKeys(c);
      MutateBinds(st, KeysOf(c), RequestOf(c), AsWaste(Discard(st.stock, batch, portions, why, note, t)), t, k);
    case CallCreate(actor, production, id, alias, listed, t) =>
      if ValidProduction(production) {
        var effect := if listed then AsBatch(id, Create(st.stock, id, production, t)) else Err(Dependency);
        MutateBinds(st, KeysOf(c), RequestOf(c), effect, t, k);
      }
  }

  lemma MutateBinds(st: Store, keys: seq<Key>, request: Request, effect: Result<(Stock, Response)>, t: Time, k: Key)
    requires k in keys
    ensures var (st', answer) := Mutate(st, keys, request, effect, t);
            (answer.Ok? ==> k in st'.table && st'.table[k] == Record(request, answer.value)) &&
            (answer.Err? ==> st'.stock == st.stock && st'.table == st.table) &&
            (k in st.table ==> st'.stock == st.stock)
  {
    ServeRecords(st.stock, st.table, SortKeys(keys), request, effect);
    if k in st.table {
      ServeAgain(st.stock, st.table, SortKeys(keys), request, effect, k);
    }
  }

  ghost predicate GoodText(text: string) {
    |text| <= 500 && forall i | 0 <= i < |text| :: text[i] != '\0'
  }

  ghost predicate GoodItems(items: seq<Item>) {
    1 <= |items| <= 100 &&
    (forall i | 0 <= i < |items| :: items[i].flavor != 0 && 1 <= items[i].portions <= 0x7fff_ffff) &&
    (forall i, j | 0 <= i < |items| && 0 <= j < |items| && items[i].flavor == items[j].flavor :: i == j)
  }

  /** Known flavor, dated, in baht, and no write-off of the batch can leave 64 bits. */
  ghost predicate GoodProduction(p: Production) {
    p.flavor != 0 && p.productionDate <= p.expiresAt && 1 <= p.initial <= 0x7fff_ffff && p.inBaht &&
    p.unitCost.Some? && 0 <= p.unitCost.value && p.unitCost.value * p.initial <= 0x7fff_ffff_ffff_ffff
  }

  /** The input checks that a call makes before it looks at its keys. */
  ghost predicate PassesChecks(c: Call) {
    match c
    case CallReserve(order, key, items, _, _, _) => GoodItems(items) && order != 0 && key != 0
    case CallTransition(_, rid, order, key, reason, _) => rid != 0 && order != 0 && key != 0 && GoodText(reason)
    case CallReturn(rid, order, key, reason, _) => rid != 0 && order != 0 && key != 0 && GoodText(reason)
    case CallWaste(batch, actor, portions, why, note, key, _, _) =>
      batch != 0 && actor != 0 && key != 0 && 1 <= portions <= 0x7fff_ffff && why != UnknownReason && GoodText(note)
    case CallCreate(actor, production, _, _, _, _) => actor != 0 && GoodProduction(production)
    case _ => true
  }

  lemma CostBound(p: Production)
    requires 1 <= p.initial && p.unitCost.Some?
    ensures p.unitCost.value <= MAX_INT64 / p.initial <==> p.unitCost.value * p.initial <= MAX_INT64
  {
    QuotientBound(MAX_INT64, p.initial, p.unitCost.value);
  }

  lemma QuotientBound(m: int, n: int, c: int)
    requires n >= 1
    ensures c <= m / n <==> c * n <= m
  {
    var q, r := m / n, m % n;
    assert m == q * n + r && 0 <= r < n;
    if c <= q {
      Monotone(c, q, n);
    } else {
      Monotone(q + 1, c, n);
      assert (q + 1) * n == q * n + n;
    }
  }

  lemma Monotone(a: int, b: int, n: int)
    requires a <= b && n >= 0
    ensures a * n <= b * n
  {
    assert (b - a) * n >= 0;
    assert (b - a) * n == b * n - a * n;
  }

  lemma ChecksAreExact(items: seq<Item>, p: Production, text: string)
    ensures WellFormedItems(items) <==> GoodItems(items)
    ensures ValidProduction(p) <==> GoodProduction(p)
    ensures ShortText(text) <==> GoodText(text)
  {
    if 1 <= p.initial && p.unitCost.Some? {
      CostBound(p);
    }
    hide GoodProduction, ValidProduction;
    TextIsExact(text);
    ItemsAreExact(items);
  }

  lemma TextIsExact(text: string)
    ensures ShortText(text) <==> GoodText(text)
  {
  }

  lemma ItemsAreExact(items: seq<Item>)
    ensures WellFormedItems(items) <==> GoodItems(items)
  {
  }

  /** A malformed call is refused and changes nothing. */
  lemma MalformedIsRefused(st: Store, ttl: int, c: Call)
    requires !PassesChecks(c)
    ensures Step(st, ttl, c) == (st, Err(Invalid))
  {
    ChecksOf(c);
    hide GoodItems, GoodText, GoodProduction, WellFormedItems, ValidProduction, ShortText;
  }

  lemma ChecksOf(c: Call)
    ensures c.CallReserve? ==> (WellFormedItems(c.items) <==> GoodItems(c.items))
    ensures c.CallTransition? || c.CallReturn? ==> (ShortText(c.reason) <==> GoodText(c.reason))
    ensures c.CallWaste? ==> (ShortText(c.note) <==> GoodText(c.note))
    ensures c.CallCreate? ==> (ValidProduction(c.production) <==> GoodProduction(c.production))
  {
    hide GoodItems, GoodText, GoodProduction, WellFormedItems, ValidProduction, ShortText;
    match c
    case CallReserve(_, _, items, _, _, _) => ItemsAreExact(items);
    case CallTransition(_, _, _, _, reason, _) => TextIsExact(reason);
    case CallReturn(_, _, _, reason, _) => TextIsExact(reason);
    case CallWaste(_, _, _, _, note, _, _, _) => TextIsExact(note);
    case CallCreate(_, p, _, _, _, _) => ChecksAreExact([], p, "");
    case _ =>
  }

  /** The transaction a call runs when none of its keys has been answered. */
  ghost function EffectOf(st: Store, ttl: int, c: Call): Result<(Stock, Response)>
    requires PassesChecks(c)
  {
    ChecksOf(c);
    match c
    case CallReserve(order, _, items, rid, t, current) =>
      AsHold(rid, Reserve(st.stock, rid, order, SortItems(items), ttl, t, current))
    case CallTransition(confirm, rid, order, _, reason, t) =>
      AsHold(rid, if confirm then Transition(st.stock, rid, order, "", true, false, t)
                  else Transition(st.stock, rid, order, reason, false, false, t))
    case CallReturn(rid, order, _, reason, t) => AsHold(rid, ReturnConfirmed(st.stock, rid, order, reason, t))
    case CallWaste(batch, _, portions, why, note, _, _, t) => AsWaste(Discard(st.stock, batch, portions, why, note, t))
    case CallCreate(_, production, id, _, listed, t) =>
      if listed then AsBatch(id, Create(st.stock, id, production, t)) else Err(Dependency)
    case CallExpireHold(rid, order, t) => AsHold(rid, Transition(st.stock, rid, order, "reservation timeout", false, true, t))
    case CallExpireBatch(batch, t) =>
      match ExpireBatch(st.stock, batch, t) {
        case Err(e) => Err(e)
        case Ok(s) => Ok((s, BatchResponse(batch, s.batches[batch])))
      }
  }

  lemma MutateRuns(st: Store, keys: seq<Key>, request: Request, effect: Result<(Stock, Response)>, t: Time)
    requires keys != [] && forall k | k in keys :: k !in st.table
    ensures var (st', answer) := Mutate(st, keys, request, effect, t);
            match effect
            case Err(e) => answer == Err(e) && st'.stock == st.stock && st'.table == st.table
            case Ok((s, v)) => answer == Ok(v) && st'.stock == s
  {
    assert keys[0] in SortKeys(keys);
    ClaimMeaning(st.table, SortKeys(keys), request, None);
  }

  /** A well-formed call none of whose keys has been answered runs its transaction: it
      answers and commits what the transaction yields, or fails and changes nothing. */
  lemma CallRuns(st: Store, ttl: int, c: Call)
    requires PassesChecks(c) && forall k | k in KeysOf(c) :: k !in st.table
    ensures var (st', answer) := Step(st, ttl, c);
            match EffectOf(st, ttl, c)
            case Err(e) => answer == Err(e) && st'.stock == st.stock && st'.table == st.table
            case Ok((s, v)) => answer == Ok(v) && st'.stock == s
  {
    ChecksOf(c);
    var effect := EffectOf(st, ttl, c);
    hide Mutate, GoodItems, GoodText, GoodProduction, WellFormedItems, ValidProduction, ShortText, Reserve, Transition, ReturnConfirmed, Discard, Create;
    match c
    case CallReserve(_, _, _, _, _, current) => MutateRuns(st, KeysOf(c), RequestOf(c), effect, current);
    case CallTransition(_, _, _, _, _, t) => MutateRuns(st, KeysOf(c), RequestOf(c), effect, t);
    case CallReturn(_, _, _, _, t) => MutateRuns(st, KeysOf(c), RequestOf(c), effect, t);
    case CallWaste(_, _, _, _, _, _, _, t) =>
      WasteHasTheseKeys(c);
      MutateRuns(st, KeysOf(c), RequestOf(c), effect, t);
    case CallCreate(_, _, _, alias, _, t) =>
      if alias.Some? {
        MutateRuns(st, KeysOf(c), RequestOf(c), effect, t);
      }
    case _ =>
  }

  lemma MutateReplays(st: Store, keys: seq<Key>, request: Request, effect: Result<(Stock, Response)>, t: Time, k: Key)
    requires k in keys && k in st.table && st.table[k].request == request && Agree(st.table, keys, request, st.table[k].response)
    ensures Mutate(st, keys, request, effect, t).1 == Ok(st.table[k].response)
  {
    ServeAgain(st.stock, st.table, SortKeys(keys), request, effect, k);
  }

  /** An equal request on a committed key gets the committed response, unless another of
      its keys answers something else. */
  lemma StepReplays(st: Store, ttl: int, c: Call, k: Key)
    requires PassesChecks(c) && k in KeysOf(c) && k in st.table && st.table[k].request == RequestOf(c)
    requires Agree(st.table, KeysOf(c), RequestOf(c), st.table[k].response)
    ensures Answer(st, ttl, c) == Ok(st.table[k].response)
  {
    ChecksOf(c);
    hide Mutate, Agree, GoodItems, GoodText, GoodProduction, WellFormedItems, ValidProduction, ShortText;
    match c
    case CallReserve(order, key, items, rid, t, current) =>
      var sorted := SortItems(items);
      MutateReplays(st, KeysOf(c), RequestOf(c), AsHold(rid, Reserve(st.stock, rid, order, sorted, ttl, t, current)), current, k);
    case CallTransition(confirm, rid, order, key, reason, t) =>
      MutateReplays(st, KeysOf(c), RequestOf(c),
                    AsHold(rid, Transition(st.stock, rid, order, if confirm then "" else reason, confirm, false, t)), t, k);
    case CallReturn(rid, order, key, reason, t) =>
      MutateReplays(st, KeysOf(c), RequestOf(c), AsHold(rid, ReturnConfirmed(st.stock, rid, order, reason, t)), t, k);
    case CallWaste(batch, actor, portions, why, note, key, alias, t) =>
      WasteHasTheseKeys(c);
      MutateReplays(st, KeysOf(c), RequestOf(c), AsWaste(Discard(st.stock, batch, portions, why, note, t)), t, k);
    case CallCreate(actor, production, id, alias, listed, t) =>
      var effect := if listed then AsBatch(id, Create(st.stock, id, production, t)) else Err(Dependency);
      MutateReplays(st, KeysOf(c), RequestOf(c), effect, t, k);
  }

  /** No key of the call already answers something else; always so for a call with one key. */
  ghost predicate NoOtherAnswer(table: Table, c: Call, v: Response)
    requires KeysOf(c) != []
  {
    Agree(table, KeysOf(c), RequestOf(c), v)
  }

  /** Over any run: once a keyed call has been answered, every later call that shares one
      of its keys leaves the stock alone. The same request is given the same answer, which
      all its keys are then bound to; any other request is refused and changes nothing. So
      each stock effect happens once and each retry learns of it. */
  lemma MutationHappensOnce(states: seq<Store>, calls: seq<Call>, ttl: int, i: nat, j: nat, k: Key)
    requires IsRun(states, calls, ttl) && i < j < |calls|
    requires k in KeysOf(calls[i]) && k in KeysOf(calls[j])
    requires Answer(states[i], ttl, calls[i]).Ok?
    ensures states[j + 1].stock == states[j].stock
    ensures Answer(states[j], ttl, calls[j]).Ok? ==>
              RequestOf(calls[j]) == RequestOf(calls[i]) &&
              Answer(states[j], ttl, calls[j]) == Answer(states[i], ttl, calls[i])
    ensures RequestOf(calls[j]) != RequestOf(calls[i]) ==>
              Answer(states[j], ttl, calls[j]).Err? && states[j + 1].table == states[j].table
    ensures var v := Answer(states[i], ttl, calls[i]);
            RequestOf(calls[j]) == RequestOf(calls[i]) && PassesChecks(calls[j]) && NoOtherAnswer(states[j].table, calls[j], v.value) ==>
              (Answer(states[j], ttl, calls[j]) == v &&
                forall x | x in KeysOf(calls[j]) :: x in states[j + 1].table && states[j + 1].table[x] == Record(RequestOf(calls[j]), v.value))
  {
    StepBinds(states[i], ttl, calls[i], k);
    HistoryOnlyGrows(states, calls, ttl, i + 1, j);
    HistoryOnlyGrows(states, calls, ttl, j, j + 1);
    StepBinds(states[j], ttl, calls[j], k);
    var v := Answer(states[i], ttl, calls[i]).value;
    RunStep(states, calls, ttl, j);
    hide IsRun, Step;
    if RequestOf(calls[j]) == RequestOf(calls[i]) && PassesChecks(calls[j]) && NoOtherAnswer(states[j].table, calls[j], v) {
      StepReplays(states[j], ttl, calls[j], k);
      forall x | x in KeysOf(calls[j])
        ensures x in states[j + 1].table && states[j + 1].table[x] == Record(RequestOf(calls[j]), v)
      {
        StepBinds(states[j], ttl, calls[j], x);
      }
    }
  }

  lemma RunStep(states: seq<Store>, calls: seq<Call>, ttl: int, i: nat)
    requires IsRun(states, calls, ttl) && i < |calls|
    ensures states[i + 1] == Step(states[i], ttl, calls[i]).0
  {
  }

  /** A call with one key never has another answer under it. */
  lemma OneKeyOneAnswer(table: Table, c: Call, k: Key, v: Response)
    requires KeysOf(c) == [k] && k in table && table[k] == Record(RequestOf(c), v)
    ensures NoOtherAnswer(table, c, v)
  {
  }

  // ----- the same items in another order are the same request ---------------

  ghost predicate ByFlavor(items: seq<Item>) {
    forall i, j | 0 <= i < j < |items| :: items[i].flavor < items[j].flavor
  }

  lemma {:induction false} InsertByFlavor(x: Item, items: seq<Item>)
    requires ByFlavor(items) && forall y | y in items :: y.flavor != x.flavor
    ensures ByFlavor(InsertItem(x, items))
  {
    if items != [] && items[0].flavor < x.flavor {
      var rest := InsertItem(x, items[1..]);
      InsertByFlavor(x, items[1..]);
      forall j | 0 <= j < |rest| ensures items[0].flavor < rest[j].flavor {
        assert rest[j] in multiset(rest);
        if rest[j] != x {
          assert rest[j] in items[1..];
        }
      }
    }
  }

  lemma {:induction false} SortsByFlavor(items: seq<Item>)
    requires ApartFlavors(items)
    ensures ByFlavor(SortItems(items))
  {
    if items != [] {
      SortsByFlavor(items[1..]);
      forall y | y in SortItems(items[1..]) ensures y.flavor != items[0].flavor {
        assert y in multiset(items[1..]);
      }
      InsertByFlavor(items[0], SortItems(items[1..]));
    }
  }

  lemma FirstAgrees(a: seq<Item>, b: seq<Item>)
    requires a != [] && b != [] && ByFlavor(a) && ByFlavor(b)
    requires (forall x | x in a :: x in b) && (forall x | x in b :: x in a)
    ensures a[0] == b[0]
  {
    assert a[0] in b && b[0] in a;
    var i :| 0 <= i < |b| && b[i] == a[0];
    var j :| 0 <= j < |a| && a[j] == b[0];
  }

  lemma TailItems(a: seq<Item>)
    requires a != []
    ensures multiset(a[1..]) == multiset(a) - multiset{a[0]} && (ByFlavor(a) ==> ByFlavor(a[1..]))
  {
    assert a == [a[0]] + a[1..];
  }

  lemma SameElements(a: seq<Item>, b: seq<Item>)
    requires multiset(a) == multiset(b)
    ensures |a| == |b| && (forall x | x in a :: x in b) && (forall x | x in b :: x in a)
  {
    assert |a| == |multiset(a)| == |multiset(b)| == |b|;
    forall x | x in a || x in b ensures x in a && x in b {
      assert x in multiset(a) && x in multiset(b);
    }
  }

  lemma {:induction false} OneOrder(a: seq<Item>, b: seq<Item>)
    requires ByFlavor(a) && ByFlavor(b) && multiset(a) == multiset(b)
    ensures a == b
    decreases |a|
  {
    hide ByFlavor;
    SameElements(a, b);
    if a != [] {
      FirstAgrees(a, b);
      TailItems(a);
      TailItems(b);
      OneOrder(a[1..], b[1..]);
      assert a == [a[0]] + a[1..] && b == [b[0]] + b[1..];
    }
  }

  /** A retry that lists its items in another order is the same request, so it replays. */
  lemma ReorderedItemsAreOneRequest(order: Id, key: Id, a: seq<Item>, b: seq<Item>, rid: Id, rid': Id, t: Time, t': Time)
    requires WellFormedItems(a) && WellFormedItems(b) && multiset(a) == multiset(b)
    ensures RequestOf(CallReserve(order, key, a, rid, t, t)) == RequestOf(CallReserve(order, key, b, rid', t', t'))
    ensures ByFlavor(SortItems(a))
  {
    SortsByFlavor(a);
    SortsByFlavor(b);
    OneOrder(SortItems(a), SortItems(b));
  }

  // ----- outcomes of the reservation calls ----------------------------------

  ghost predicate Known(s: Stock, rid: Id, order: Id) {
    rid in s.reservations && s.reservations[rid].order == order
  }

  /** Confirmation is refused exactly when the hold is over: released, expired,
      returned, or past its time. Neither a short balance nor an expired batch can
      ever be the reason. */
  lemma ConfirmOutcome(s: Stock, clock: Time, rid: Id, order: Id, reason: string, t: Time)
    requires Valid(s, clock) && clock <= t && NoneArchived(s) && Known(s, rid, order)
    ensures var r := s.reservations[rid]; var o := Transition(s, rid, order, reason, true, false, t);
            (o.Ok? <==> r.status == CONFIRMED || (r.status == ACTIVE && r.expiresAt > t)) &&
            (o.Err? ==> o.error == WrongState) &&
            (o.Ok? ==> o.value.1.status == CONFIRMED && rid in o.value.0.reservations &&
                       o.value.0.reservations[rid].status == CONFIRMED)
  {
    var r := s.reservations[rid];
    assert HoldSound(s, r);
    if r.status == ACTIVE && r.expiresAt > t {
      GuardsNeverFire(s, clock, rid, Confirming, t);
    }
  }

  ghost function Released(r: Reservation, t: Time): HoldStatus {
    if r.status != ACTIVE then r.status else if r.expiresAt <= t then EXPIRED else RELEASED
  }

  lemma ReleaseOutcome(s: Stock, clock: Time, rid: Id, order: Id, reason: string, t: Time)
    requires Valid(s, clock) && clock <= t && Known(s, rid, order)
    ensures var r := s.reservations[rid]; var o := Transition(s, rid, order, reason, false, false, t);
            (o.Ok? <==> r.status == ACTIVE || r.status == RELEASED || r.status == EXPIRED) &&
            (o.Err? ==> o.error == WrongState) &&
            (o.Ok? ==> (rid in o.value.0.reservations &&
                        o.value.0.reservations[rid].status == o.value.1.status == Released(r, t)))
  {
    if s.reservations[rid].status == ACTIVE {
      GuardsNeverFire(s, clock, rid, Releasing, t);
    }
  }

  lemma ReturnOutcome(s: Stock, clock: Time, rid: Id, order: Id, reason: string, t: Time)
    requires Valid(s, clock) && clock <= t && Known(s, rid, order)
    ensures var r := s.reservations[rid]; var o := ReturnConfirmed(s, rid, order, reason, t);
            (o.Ok? <==> r.status == CONFIRMED || r.status == RETURNED) &&
            (o.Err? ==> o.error == WrongState) &&
            (o.Ok? ==> o.value.1.status == RETURNED && rid in o.value.0.reservations &&
                       o.value.0.reservations[rid].status == RETURNED)
  {
    if s.reservations[rid].status == CONFIRMED {
      GuardsNeverFire(s, clock, rid, Returning, t);
    }
  }

  lemma TimeoutOutcome(s: Stock, clock: Time, rid: Id, order: Id, t: Time)
    requires Valid(s, clock) && clock <= t && Known(s, rid, order)
    ensures var r := s.reservations[rid]; var o := Transition(s, rid, order, TIMEOUT, false, true, t);
            o.Ok? && rid in o.value.0.reservations &&
            o.value.0.reservations[rid].status == if r.status == ACTIVE && r.expiresAt <= t then EXPIRED else r.status
  {
    if s.reservations[rid].status == ACTIVE {
      GuardsNeverFire(s, clock, rid, Releasing, t);
    }
  }

  /** A hold given up in time puts every portion back on sale and wastes none. */
  lemma TimelyReleaseRestoresStock(s: Stock, clock: Time, rid: Id, order: Id, reason: string, t: Time, id: Id)
    requires Valid(s, clock) && clock <= t && Known(s, rid, order) && id in s.batches
    requires s.reservations[rid].status == ACTIVE && s.reservations[rid].expiresAt > t
    ensures var o := Transition(s, rid, order, reason, false, false, t);
            o.Ok? && id in o.value.0.batches &&
            o.value.0.batches[id].available == s.batches[id].available + On(s.reservations[rid].allocations, id) &&
            o.value.0.batches[id].wasted == s.batches[id].wasted &&
            o.value.0.wastes == s.wastes
  {
    var r := s.reservations[rid];
    assert HoldSound(s, r);
    GuardsNeverFire(s, clock, rid, Releasing, t);
    var s' := Settle(s, rid, r.allocations, Releasing, t).value;
    SettleMoves(s, rid, r.allocations, Releasing, t, id, s');
    OnNonNegative(r.allocations, id);
    LiveReleaseWastesNothing(s, rid, r.allocations, t, s');
  }

  lemma {:induction false} LiveReleaseWastesNothing(s: Stock, rid: Id, allocations: seq<Allocation>, t: Time, s': Stock)
    requires Settle(s, rid, allocations, Releasing, t) == Ok(s')
    requires forall a | a in allocations :: a.batch in s.batches && s.batches[a.batch].expiresAt > t
    ensures s'.wastes == s.wastes
    decreases |allocations|
  {
    if allocations != [] {
      LiveReleaseWastesNothing(SettleOne(s, rid, allocations[0], Releasing, t).value, rid, allocations[1..], t, s');
    }
  }

  // ----- allocation ---------------------------------------------------------

  /** Whether batch `x` comes before batch `y`: it expires first, or was produced first. */
  ghost predicate ExpiresFirst(batches: map<Id, Batch>, x: Id, y: Id)
    requires x in batches && y in batches
  {
    batches[x].expiresAt < batches[y].expiresAt ||
    (batches[x].expiresAt == batches[y].expiresAt &&
      (batches[x].createdAt < batches[y].createdAt || (batches[x].createdAt == batches[y].createdAt && x < y)))
  }

  /** On sale at `t`. */
  ghost predicate OnSale(b: Batch, t: Time) {
    b.status == Active && b.available > 0 && t < b.expiresAt
  }

  /** A reservation takes exactly what was asked of each flavor, from batches of that flavor
      on sale, each at most once and never more than it has, draining every batch that
      expires earlier before touching a later one. */
  lemma ReserveIsFefo(s: Stock, clock: Time, rid: Id, order: Id, items: seq<Item>, ttl: int, t: Time, current: Time)
    requires Valid(s, clock) && Fefo.ValidItems(items)
    requires Reserve(s, rid, order, items, ttl, t, current).Ok?
    ensures var got := Reserve(s, rid, order, items, ttl, t, current).value.1.allocations;
            NoRepeat(got) &&
            (forall i | 0 <= i < |items| :: FlavorPortions(got, items[i].flavor) == items[i].portions) &&
            (forall a | a in got :: a.portions > 0 && a.batch in s.batches && a.flavor == s.batches[a.batch].flavor && OnSale(s.batches[a.batch], t)) &&
            (forall id | id in s.batches :: On(got, id) <= s.batches[id].available) &&
            (forall x, y | x in s.batches && y in s.batches && s.batches[x].flavor == s.batches[y].flavor &&
                           OnSale(s.batches[x], t) && ExpiresFirst(s.batches, x, y) && On(got, y) > 0 ::
               On(got, x) == s.batches[x].available)
  {
    var got := Plan(s.batches, items, t).value;
    PlanRepeatsNone(s.batches, items, t);
    forall i | 0 <= i < |items| ensures FlavorPortions(got, items[i].flavor) == items[i].portions {
      PlanExact(s.batches, items, t, items[i].flavor);
    }
    forall id | id in s.batches ensures On(got, id) <= s.batches[id].available {
      PlanWithinStock(s, clock, items, t, id);
    }
    forall a | a in got
      ensures a.portions > 0 && a.batch in s.batches && a.flavor == s.batches[a.batch].flavor && OnSale(s.batches[a.batch], t)
    {
      PlanUses(s.batches, items, t, a);
    }
    forall x, y | x in s.batches && y in s.batches && s.batches[x].flavor == s.batches[y].flavor &&
                  OnSale(s.batches[x], t) && ExpiresFirst(s.batches, x, y) && On(got, y) > 0
      ensures On(got, x) == s.batches[x].available
    {
      PlanGreedy(s.batches, items, t, x, y);
    }
  }

  /** Stock suffices for Reserve exactly when the enquiry at that instant says so. */
  lemma ReserveAgreesWithEnquiry(s: Stock, clock: Time, rid: Id, order: Id, items: seq<Item>, ttl: int, t: Time, current: Time)
    requires Valid(s, clock) && Fefo.ValidItems(items) && ttl > 0 && !OrderHasHold(s, order)
    ensures Reserve(s, rid, order, items, ttl, t, current) == Err(OutOfStock) <==> !Covered(s.batches, items, t)
  {
    PlanExistsIffCovered(s.batches, items, t);
  }

  // ----- waste cost ---------------------------------------------------------

  /** No write-off of up to the whole batch overflows a 64-bit amount, and neither does
      the cost lost over the whole life of the batch, which is its unit cost times the
      portions wasted. */
  lemma WasteCostFits(s: Stock, clock: Time, id: Id, n: int)
    requires Valid(s, clock) && id in s.batches && 0 <= n <= s.batches[id].initial
    ensures 0 <= s.batches[id].unitCost * n <= MAX_INT64
    ensures 0 <= CostOn(s.wastes, id) == s.batches[id].unitCost * s.batches[id].wasted <= MAX_INT64
  {
    var b := s.batches[id];
    assert Accounted(s, id) && BatchSound(b);
    ScaleUp(b.unitCost, n, b.initial);
    ScaleUp(b.unitCost, b.wasted, b.initial);
  }

  lemma ScaleUp(c: int, n: int, m: int)
    requires 0 <= c && 0 <= n <= m
    ensures 0 <= c * n <= c * m
  {
    assert c * m == c * n + c * (m - n);
  }
}
