/** The daily analytics projection: sales, reversals of paid orders and waste, folded into
    one record per day by a single consumer, while events may be delivered again, arrive in
    any order, and lose the marker that they were processed. */
module Analytics {
  import opened Ordering
  import opened InventoryModel

  type Day = nat

  datatype Line = Line(flavor: Id, name: string, portions: int, subtotal: int)

  /** A row of figures for one flavor, or for one waste reason. */
  datatype Stat = Stat(key: Id, name: string, figures: Figures)
  datatype Figures = Figures(scoops: int, revenue: int, waste: int, cost: int)

  function Plus(a: Figures, b: Figures): Figures {
    Figures(a.scoops + b.scoops, a.revenue + b.revenue, a.waste + b.waste, a.cost + b.cost)
  }

  const ZERO_FIGURES := Figures(0, 0, 0, 0)

  datatype DayRecord = DayRecord(
    gross: int, orders: int, average: int, scoops: int, flavors: seq<Stat>,
    waste: int, cost: int, reasons: seq<Stat>, reversed: seq<Id>)

  const EMPTY_DAY := DayRecord(0, 0, 0, 0, [], 0, 0, [], [])

  /** Integer division as the service's language does it: toward zero. */
  function TruncDiv(a: int, b: int): (q: int)
    requires b > 0
    ensures if a >= 0 then q * b <= a < q * b + b else q * b - b < a <= q * b
  {
    if a >= 0 then
      DivBounds(a, b);
      a / b
    else
      DivBounds(-a, b);
      -((-a) / b)
  }

  lemma DivBounds(a: int, b: int)
    requires a >= 0 && b > 0
    ensures (a / b) * b <= a < (a / b) * b + b && (-(a / b)) * b == -((a / b) * b)
  {
    assert a == b * (a / b) + a % b;
  }

  // ----- rows ---------------------------------------------------------------

  function Merge(s: Stat, name: string, rename: bool, d: Figures): Stat {
    Stat(s.key, if rename && name != "" then name else s.name, Plus(s.figures, d))
  }

  /** Add figures to the first row with this key, or append a row. */
  function Bump(stats: seq<Stat>, key: Id, name: string, rename: bool, d: Figures): seq<Stat> {
    if stats == [] then [Stat(key, name, d)]
    else if stats[0].key == key then [Merge(stats[0], name, rename, d)] + stats[1..]
    else [stats[0]] + Bump(stats[1..], key, name, rename, d)
  }

  lemma {:induction false} BumpAt(stats: seq<Stat>, i: nat, key: Id, name: string, rename: bool, d: Figures)
    requires i <= |stats| && forall j | 0 <= j < i :: stats[j].key != key
    ensures Bump(stats, key, name, rename, d) == stats[..i] + Bump(stats[i..], key, name, rename, d)
    decreases i
  {
    if i == 0 {
      assert stats[0..] == stats && stats[..0] == [];
    } else {
      forall j | 0 <= j < i - 1 ensures stats[1..][j].key != key {
        assert stats[1..][j] == stats[j + 1];
      }
      BumpAt(stats[1..], i - 1, key, name, rename, d);
      assert stats[1..][i - 1..] == stats[i..];
      assert stats[..i] == [stats[0]] + stats[1..][..i - 1];
    }
  }

  /** The search loop over the rows of a record. */
  method BumpRow(stats: seq<Stat>, key: Id, name: string, rename: bool, d: Figures) returns (r: seq<Stat>)
    ensures r == Bump(stats, key, name, rename, d)
  {
    r := stats;
    var i := 0;
    while i < |stats|
      invariant 0 <= i <= |stats| && r == stats
      invariant forall j | 0 <= j < i :: stats[j].key != key
    {
      if stats[i].key == key {
        BumpAt(stats, i, key, name, rename, d);
        assert stats[i..][1..] == stats[i + 1..];
        r := stats[i := Merge(stats[i], name, rename, d)];
        return;
      }
      i := i + 1;
    }
    BumpAt(stats, i, key, name, rename, d);
    r := stats + [Stat(key, name, d)];
  }

  function Signed(sale: bool, x: int): int {
    if sale then x else -x
  }

  function LineFigures(line: Line, sale: bool): Figures {
    Figures(Signed(sale, line.portions), Signed(sale, line.subtotal), 0, 0)
  }

  /** The item loop of a sale or of its reversal; only a sale refreshes the name. */
  function AddLines(stats: seq<Stat>, lines: seq<Line>, sale: bool): seq<Stat>
    decreases |lines|
  {
    if lines == [] then stats
    else AddLines(Bump(stats, lines[0].flavor, lines[0].name, sale, LineFigures(lines[0], sale)), lines[1..], sale)
  }

  function Portions(lines: seq<Line>): int {
    if lines == [] then 0 else lines[0].portions + Portions(lines[1..])
  }

  method AddAllLines(stats: seq<Stat>, scoops: int, lines: seq<Line>, sale: bool) returns (stats': seq<Stat>, scoops': int)
    ensures stats' == AddLines(stats, lines, sale) && scoops' == scoops + Signed(sale, Portions(lines))
  {
    stats', scoops' := stats, scoops;
    var i := 0;
    while i < |lines|
      invariant 0 <= i <= |lines|
      invariant AddLines(stats', lines[i..], sale) == AddLines(stats, lines, sale)
      invariant scoops' + Signed(sale, Portions(lines[i..])) == scoops + Signed(sale, Portions(lines))
    {
      var line := lines[i];
      assert lines[i..][1..] == lines[i + 1..];
      scoops' := scoops' + Signed(sale, line.portions);
      stats' := BumpRow(stats', line.flavor, line.name, sale, LineFigures(line, sale));
      i := i + 1;
    }
    assert lines[i..] == [];
  }

  // ----- events on one day --------------------------------------------------

  /** A sale leaves the average alone while the day's order count is not positive. */
  function Sell(r: DayRecord, total: int, lines: seq<Line>): DayRecord {
    var gross, orders := r.gross + total, r.orders + 1;
    r.(gross := gross, orders := orders, average := if orders > 0 then TruncDiv(gross, orders) else r.average,
       scoops := r.scoops + Portions(lines), flavors := AddLines(r.flavors, lines, true))
  }

  function Reverse(r: DayRecord, order: Id, total: int, lines: seq<Line>): DayRecord {
    if order in r.reversed then r else
    var gross, orders := r.gross - total, r.orders - 1;
    r.(gross := gross, orders := orders, average := if orders > 0 then TruncDiv(gross, orders) else 0,
       scoops := r.scoops - Portions(lines), flavors := AddLines(r.flavors, lines, false), reversed := r.reversed + [order])
  }

  function Throw(r: DayRecord, flavor: Id, name: string, reason: Id, portions: int, cost: int): DayRecord {
    var d := Figures(0, 0, portions, cost);
    r.(waste := r.waste + portions, cost := r.cost + cost,
       reasons := Bump(r.reasons, reason, "", false, d), flavors := Bump(r.flavors, flavor, name, true, d))
  }

  // ----- the service --------------------------------------------------------

  datatype Books = Books(days: map<Day, DayRecord>, processed: set<Id>)

  const EMPTY_BOOKS := Books(map[], {})

  /** An event with its identifier, the day its time falls on if that parses, and whether
      the write of its marker succeeds. */
  datatype Event =
    | Sale(event: Id, day: Option<Day>, total: int, lines: seq<Line>, marked: bool)
    | Cancellation(event: Id, order: Id, paid: bool, day: Option<Day>, total: int, lines: seq<Line>, marked: bool)
    | Waste(event: Id, day: Option<Day>, flavor: Id, name: string, reason: Id, portions: int, cost: int, marked: bool)

  function OnDay(b: Books, day: Day): DayRecord {
    if day in b.days then b.days[day] else EMPTY_DAY
  }

  function Mark(b: Books, e: Event): Books {
    if e.event != NIL && e.marked then b.(processed := b.processed + {e.event}) else b
  }

  /** What an event does to the day it concerns, if anything. */
  function Effect(b: Books, e: Event): Option<(Day, DayRecord)> {
    if e.event != NIL && e.event in b.processed then None
    else if e.day.None? then None
    else
      var r := OnDay(b, e.day.value);
      match e
      case Sale(_, _, total, lines, _) => Some((e.day.value, Sell(r, total, lines)))
      case Cancellation(_, order, paid, _, total, lines, _) =>
        if !paid || order == NIL || order in r.reversed then None else Some((e.day.value, Reverse(r, order, total, lines)))
      case Waste(_, _, flavor, name, reason, portions, cost, _) =>
        Some((e.day.value, Throw(r, flavor, name, reason, portions, cost)))
  }

  /** Whether processing fails, so that the event is neither applied nor marked. */
  predicate Fails(e: Event) {
    match e
    case Cancellation(_, order, paid, _, _, _, _) => paid && (order == NIL || e.day.None?)
    case _ => e.day.None?
  }

  function Process(b: Books, e: Event): Books {
    if e.event != NIL && e.event in b.processed then b
    else if Fails(e) then b
    else
      var done := match Effect(b, e) { case None => b case Some((day, r)) => b.(days := b.days[day := r]) };
      Mark(done, e)
  }

  class AnalyticsService {
    var days: map<Day, DayRecord>
    var processed: set<Id>

    ghost function View(): Books
      reads this
    {
      Books(days, processed)
    }

    constructor ()
      ensures View() == EMPTY_BOOKS
    {
      days, processed := map[], {};
    }

    method GetOrCreate(day: Day) returns (r: DayRecord)
      ensures r == OnDay(View(), day)
    {
      r := if day in days then days[day] else EMPTY_DAY;
    }

    method MarkProcessed(event: Id, marked: bool)
      modifies this`processed
      ensures processed == if event != NIL && marked then old(processed) + {event} else old(processed)
    {
      if event != NIL && marked {
        processed := processed + {event};
      }
    }

    method OrderPlaced(e: Event)
      requires e.Sale?
      modifies this
      ensures View() == Process(old(View()), e)
    {
      if e.event != NIL && e.event in processed { return; }
      if e.day.None? { return; }
      var record := GetOrCreate(e.day.value);
      record := record.(gross := record.gross + e.total, orders := record.orders + 1);
      if record.orders > 0 {
        record := record.(average := TruncDiv(record.gross, record.orders));
      }
      var flavors, scoops := AddAllLines(record.flavors, record.scoops, e.lines, true);
      record := record.(flavors := flavors, scoops := scoops);
      days := days[e.day.value := record];
      MarkProcessed(e.event, e.marked);
    }

    method OrderCancelled(e: Event)
      requires e.Cancellation?
      modifies this
      ensures View() == Process(old(View()), e)
    {
      if e.event != NIL && e.event in processed { return; }
      if e.paid {
        if e.order == NIL || e.day.None? { return; }
        ReversePaidOrder(e.day.value, e.order, e.total, e.lines);
      }
      MarkProcessed(e.event, e.marked);
    }

    method ReversePaidOrder(day: Day, order: Id, total: int, lines: seq<Line>)
      modifies this`days
      ensures days == if order in OnDay(old(View()), day).reversed then old(days)
                      else old(days)[day := Reverse(OnDay(old(View()), day), order, total, lines)]
    {
      var record := GetOrCreate(day);
      var i := 0;
      while i < |record.reversed|
        invariant 0 <= i <= |record.reversed|
        invariant order !in record.reversed[..i]
      {
        assert record.reversed[..i + 1] == record.reversed[..i] + [record.reversed[i]];
        if record.reversed[i] == order { return; }
        i := i + 1;
      }
      assert record.reversed[..i] == record.reversed;
      record := record.(gross := record.gross - total, orders := record.orders - 1, average := 0);
      if record.orders > 0 {
        record := record.(average := TruncDiv(record.gross, record.orders));
      }
      var flavors, scoops := AddAllLines(record.flavors, record.scoops, lines, false);
      record := record.(flavors := flavors, scoops := scoops, reversed := record.reversed + [order]);
      days := days[day := record];
    }

    method WasteRecorded(e: Event)
      requires e.Waste?
      modifies this
      ensures View() == Process(old(View()), e)
    {
      if e.event != NIL && e.event in processed { return; }
      if e.day.None? { return; }
      var record := GetOrCreate(e.day.value);
      var d := Figures(0, 0, e.portions, e.cost);
      var reasons := BumpRow(record.reasons, e.reason, "", false, d);
      var flavors := BumpRow(record.flavors, e.flavor, e.name, true, d);
      record := record.(waste := record.waste + e.portions, cost := record.cost + e.cost, reasons := reasons, flavors := flavors);
      days := days[e.day.value := record];
      MarkProcessed(e.event, e.marked);
    }
  }

  // ----- what a record says -------------------------------------------------

  /** All figures a manager can read off a day. */
  datatype Figure =
    | Gross | Orders | Scoops | WasteTotal | CostTotal
    | FlavorScoops(f: Id) | FlavorRevenue(f: Id) | FlavorWaste(f: Id) | FlavorCost(f: Id)
    | ReasonWaste(f: Id) | ReasonCost(f: Id)

  ghost function At(stats: seq<Stat>, key: Id): Figures {
    if stats == [] then ZERO_FIGURES else
    if stats[0].key == key then Plus(stats[0].figures, At(stats[1..], key)) else At(stats[1..], key)
  }

  ghost function All(stats: seq<Stat>): Figures {
    if stats == [] then ZERO_FIGURES else Plus(stats[0].figures, All(stats[1..]))
  }

  ghost predicate UniqueKeys(stats: seq<Stat>) {
    forall i, j | 0 <= i < j < |stats| :: stats[i].key != stats[j].key
  }

  lemma {:induction false} BumpFigures(stats: seq<Stat>, key: Id, name: string, rename: bool, d: Figures, g: Id)
    ensures At(Bump(stats, key, name, rename, d), g) == if g == key then Plus(At(stats, g), d) else At(stats, g)
    ensures All(Bump(stats, key, name, rename, d)) == Plus(All(stats), d)
  {
    var r := Bump(stats, key, name, rename, d);
    if stats == [] {
      assert r[1..] == [];
    } else if stats[0].key == key {
      assert r[1..] == stats[1..];
    } else {
      assert r[1..] == Bump(stats[1..], key, name, rename, d);
      BumpFigures(stats[1..], key, name, rename, d, g);
    }
  }

  /** The name shown for a flavor. */
  ghost function NameAt(stats: seq<Stat>, key: Id): Option<string> {
    if stats == [] then None else if stats[0].key == key then Some(stats[0].name) else NameAt(stats[1..], key)
  }

  /** A new row takes the name given; an old one is renamed only on request, and never to
      the empty name. */
  lemma {:induction false} BumpNames(stats: seq<Stat>, key: Id, name: string, rename: bool, d: Figures, g: Id)
    ensures NameAt(Bump(stats, key, name, rename, d), g) ==
            if g == key && (NameAt(stats, g) == None || (rename && name != "")) then Some(name) else NameAt(stats, g)
  {
    var r := Bump(stats, key, name, rename, d);
    if stats == [] {
      assert r[1..] == [];
    } else if stats[0].key == key {
      assert r[1..] == stats[1..];
    } else {
      assert r[1..] == Bump(stats[1..], key, name, rename, d);
      BumpNames(stats[1..], key, name, rename, d, g);
    }
  }

  /** A reversal never renames a flavor that is listed. */
  lemma {:induction false} ReversalKeepsNames(stats: seq<Stat>, lines: seq<Line>, g: Id)
    requires NameAt(stats, g).Some?
    ensures NameAt(AddLines(stats, lines, false), g) == NameAt(stats, g)
    decreases |lines|
  {
    if lines != [] {
      var l := lines[0];
      BumpNames(stats, l.flavor, l.name, false, LineFigures(l, false), g);
      ReversalKeepsNames(Bump(stats, l.flavor, l.name, false, LineFigures(l, false)), lines[1..], g);
    }
  }

  /** A sale shows the last name it gives a flavor, if it gives one. */
  lemma {:induction false} SaleRefreshesNames(stats: seq<Stat>, lines: seq<Line>, i: nat)
    requires i < |lines| && lines[i].name != "" && forall j | i < j < |lines| && lines[j].flavor == lines[i].flavor :: lines[j].name == ""
    ensures NameAt(AddLines(stats, lines, true), lines[i].flavor) == Some(lines[i].name)
    decreases |lines|
  {
    var l, next := lines[0], Bump(stats, lines[0].flavor, lines[0].name, true, LineFigures(lines[0], true));
    BumpNames(stats, l.flavor, l.name, true, LineFigures(l, true), lines[i].flavor);
    if i == 0 {
      forall j | 0 <= j < |lines[1..]| && lines[1..][j].flavor == l.flavor ensures lines[1..][j].name == "" {
        assert lines[1..][j] == lines[j + 1];
      }
      NamelessKeeps(next, lines[1..], l.flavor);
    } else {
      assert lines[1..][i - 1] == lines[i];
      forall j | i - 1 < j < |lines[1..]| && lines[1..][j].flavor == lines[i].flavor ensures lines[1..][j].name == "" {
        assert lines[1..][j] == lines[j + 1];
      }
      SaleRefreshesNames(next, lines[1..], i - 1);
    }
  }

  lemma {:induction false} NamelessKeeps(stats: seq<Stat>, lines: seq<Line>, g: Id)
    requires NameAt(stats, g).Some? && forall j | 0 <= j < |lines| && lines[j].flavor == g :: lines[j].name == ""
    ensures NameAt(AddLines(stats, lines, true), g) == NameAt(stats, g)
    decreases |lines|
  {
    if lines != [] {
      var l := lines[0];
      BumpNames(stats, l.flavor, l.name, true, LineFigures(l, true), g);
      NamelessKeeps(Bump(stats, l.flavor, l.name, true, LineFigures(l, true)), lines[1..], g);
    }
  }

  lemma {:induction false} BumpKeys(stats: seq<Stat>, key: Id, name: string, rename: bool, d: Figures)
    requires UniqueKeys(stats)
    ensures UniqueKeys(Bump(stats, key, name, rename, d))
    ensures forall s | s in Bump(stats, key, name, rename, d) :: s.key == key || exists u | u in stats :: u.key == s.key
  {
    if stats != [] && stats[0].key != key {
      BumpKeys(stats[1..], key, name, rename, d);
      var rest := Bump(stats[1..], key, name, rename, d);
      forall j | 0 <= j < |rest| ensures rest[j].key != stats[0].key {
        assert rest[j] in rest;
      }
    }
  }

  /** The portions and the subtotals of one flavor in an order. */
  ghost function ScoopsAt(lines: seq<Line>, f: Id): int {
    if lines == [] then 0 else (if lines[0].flavor == f then lines[0].portions else 0) + ScoopsAt(lines[1..], f)
  }

  ghost function RevenueAt(lines: seq<Line>, f: Id): int {
    if lines == [] then 0 else (if lines[0].flavor == f then lines[0].subtotal else 0) + RevenueAt(lines[1..], f)
  }

  /** Lines of a sale add to their flavor's row, lines of a reversal subtract from it. */
  ghost predicate AddedTo(before: Figures, after: Figures, sale: bool, scoops: int, revenue: int) {
    after.waste == before.waste && after.cost == before.cost &&
    if sale then after.scoops == before.scoops + scoops && after.revenue == before.revenue + revenue
    else after.scoops == before.scoops - scoops && after.revenue == before.revenue - revenue
  }

  lemma {:induction false} LinesFigures(stats: seq<Stat>, lines: seq<Line>, sale: bool, f: Id)
    ensures AddedTo(At(stats, f), At(AddLines(stats, lines, sale), f), sale, ScoopsAt(lines, f), RevenueAt(lines, f))
    decreases |lines|
  {
    hide At, Bump;
    if lines != [] {
      var l := lines[0];
      var next := Bump(stats, l.flavor, l.name, sale, LineFigures(l, sale));
      BumpFigures(stats, l.flavor, l.name, sale, LineFigures(l, sale), f);
      LineAdds(At(stats, f), l, sale);
      LinesFigures(next, lines[1..], sale, f);
      assert AddLines(stats, lines, sale) == AddLines(next, lines[1..], sale);
      hide AddLines, LineFigures, Plus;
    }
  }

  lemma LineAdds(before: Figures, l: Line, sale: bool)
    ensures AddedTo(before, Plus(before, LineFigures(l, sale)), sale, l.portions, l.subtotal)
  {
  }

  lemma {:induction false} LinesTotals(stats: seq<Stat>, lines: seq<Line>, sale: bool)
    ensures var all := All(AddLines(stats, lines, sale));
            all.scoops == All(stats).scoops + Signed(sale, Portions(lines)) &&
            all.waste == All(stats).waste && all.cost == All(stats).cost
    decreases |lines|
  {
    hide All, Bump;
    if lines != [] {
      var l := lines[0];
      var next := Bump(stats, l.flavor, l.name, sale, LineFigures(l, sale));
      BumpFigures(stats, l.flavor, l.name, sale, LineFigures(l, sale), 0);
      LinesTotals(next, lines[1..], sale);
      assert AddLines(stats, lines, sale) == AddLines(next, lines[1..], sale);
      hide AddLines;
    }
  }

  lemma {:induction false} LinesKeys(stats: seq<Stat>, lines: seq<Line>, sale: bool)
    requires UniqueKeys(stats)
    ensures UniqueKeys(AddLines(stats, lines, sale))
    decreases |lines|
  {
    if lines != [] {
      var l := lines[0];
      BumpKeys(stats, l.flavor, l.name, sale, LineFigures(l, sale));
      LinesKeys(Bump(stats, l.flavor, l.name, sale, LineFigures(l, sale)), lines[1..], sale);
    }
  }

  ghost function Read(r: DayRecord, what: Figure): int {
    match what
    case Gross => r.gross
    case Orders => r.orders
    case Scoops => r.scoops
    case WasteTotal => r.waste
    case CostTotal => r.cost
    case FlavorScoops(f) => At(r.flavors, f).scoops
    case FlavorRevenue(f) => At(r.flavors, f).revenue
    case FlavorWaste(f) => At(r.flavors, f).waste
    case FlavorCost(f) => At(r.flavors, f).cost
    case ReasonWaste(f) => At(r.reasons, f).waste
    case ReasonCost(f) => At(r.reasons, f).cost
  }

  // ----- what happened ------------------------------------------------------

  /** Something that really happened on a day: a sale, the reversal of one order, a loss. */
  datatype Fact =
    | Sold(event: Id, day: Day, total: int, lines: seq<Line>)
    | Undone(day: Day, order: Id, total: int, lines: seq<Line>)
    | Thrown(event: Id, day: Day, flavor: Id, reason: Id, portions: int, cost: int)

  ghost function OfSale(total: int, lines: seq<Line>, what: Figure): int {
    match what
    case Gross => total
    case Orders => 1
    case Scoops => Portions(lines)
    case FlavorScoops(f) => ScoopsAt(lines, f)
    case FlavorRevenue(f) => RevenueAt(lines, f)
    case _ => 0
  }

  ghost function Worth(fact: Fact, what: Figure): int {
    match fact
    case Sold(_, _, total, lines) => OfSale(total, lines, what)
    case Undone(_, _, total, lines) => -OfSale(total, lines, what)
    case Thrown(_, _, flavor, reason, portions, cost) =>
      match what
      case WasteTotal => portions
      case CostTotal => cost
      case FlavorWaste(f) => if f == flavor then portions else 0
      case FlavorCost(f) => if f == flavor then cost else 0
      case ReasonWaste(f) => if f == reason then portions else 0
      case ReasonCost(f) => if f == reason then cost else 0
      case _ => 0
  }

  ghost function Sum(log: seq<Fact>, day: Day, what: Figure): int {
    if log == [] then 0 else
    var last := log[|log| - 1];
    Sum(log[..|log| - 1], day, what) + if last.day == day then Worth(last, what) else 0
  }

  /** An event that can be processed: an unpaid cancellation always, a paid one with its
      order and day, anything else with its day. */
  ghost predicate Processable(e: Event) {
    match e
    case Sale(_, day, _, _, _) => day != None
    case Cancellation(_, order, paid, day, _, _, _) => !paid || (order != 0 && day != None)
    case Waste(_, day, _, _, _, _, _, _) => day != None
  }

  /** What an event reports, if it reports anything that counts. */
  ghost function Report(e: Event): seq<Fact> {
    if !Processable(e) then []
    else match e
      case Sale(event, day, total, lines, _) => [Sold(event, day.value, total, lines)]
      case Cancellation(_, order, paid, day, total, lines, _) =>
        if paid then [Undone(day.value, order, total, lines)] else []
      case Waste(event, day, flavor, _, reason, portions, cost, _) =>
        [Thrown(event, day.value, flavor, reason, portions, cost)]
  }

  /** The fact an event adds, if it is applied. */
  ghost function FactOf(b: Books, e: Event): seq<Fact> {
    if Fails(e) || Effect(b, e).None? then [] else Report(e)
  }

  lemma SellReads(r: DayRecord, total: int, lines: seq<Line>, what: Figure)
    ensures Read(Sell(r, total, lines), what) == Read(r, what) + OfSale(total, lines, what)
  {
    match what
    case FlavorScoops(f) => LinesFigures(r.flavors, lines, true, f);
    case FlavorRevenue(f) => LinesFigures(r.flavors, lines, true, f);
    case FlavorWaste(f) => LinesFigures(r.flavors, lines, true, f);
    case FlavorCost(f) => LinesFigures(r.flavors, lines, true, f);
    case _ =>
  }

  lemma ReverseReads(r: DayRecord, order: Id, total: int, lines: seq<Line>, what: Figure)
    requires order !in r.reversed
    ensures Read(Reverse(r, order, total, lines), what) == Read(r, what) - OfSale(total, lines, what)
  {
    match what
    case FlavorScoops(f) => LinesFigures(r.flavors, lines, false, f);
    case FlavorRevenue(f) => LinesFigures(r.flavors, lines, false, f);
    case FlavorWaste(f) => LinesFigures(r.flavors, lines, false, f);
    case FlavorCost(f) => LinesFigures(r.flavors, lines, false, f);
    case _ =>
  }

  lemma ThrowReads(r: DayRecord, flavor: Id, name: string, reason: Id, portions: int, cost: int, what: Figure)
    ensures Read(Throw(r, flavor, name, reason, portions, cost), what) ==
            Read(r, what) + Worth(Thrown(0, 0, flavor, reason, portions, cost), what)
  {
    var d := Figures(0, 0, portions, cost);
    if what.ReasonWaste? || what.ReasonCost? {
      BumpFigures(r.reasons, reason, "", false, d, what.f);
    } else if what.FlavorScoops? || what.FlavorRevenue? || what.FlavorWaste? || what.FlavorCost? {
      BumpFigures(r.flavors, flavor, name, true, d, what.f);
    }
  }

  // ----- the invariant of a record ------------------------------------------

  ghost predicate Balanced(r: DayRecord) {
    UniqueKeys(r.flavors) && UniqueKeys(r.reasons) &&
    All(r.flavors).scoops == r.scoops &&
    All(r.flavors).waste == r.waste && All(r.reasons).waste == r.waste &&
    All(r.flavors).cost == r.cost && All(r.reasons).cost == r.cost &&
    r.average == (if r.orders > 0 then TruncDiv(r.gross, r.orders) else 0) &&
    (forall i, j | 0 <= i < j < |r.reversed| :: r.reversed[i] != r.reversed[j])
  }

  lemma SellBalances(r: DayRecord, total: int, lines: seq<Line>)
    requires Balanced(r)
    ensures Balanced(Sell(r, total, lines))
  {
    hide TruncDiv, AddLines, All, UniqueKeys, Portions;
    LinesTotals(r.flavors, lines, true);
    LinesKeys(r.flavors, lines, true);
  }

  lemma ReverseBalances(r: DayRecord, order: Id, total: int, lines: seq<Line>)
    requires Balanced(r)
    ensures Balanced(Reverse(r, order, total, lines))
  {
    hide TruncDiv, AddLines, All, UniqueKeys, Portions;
    LinesTotals(r.flavors, lines, false);
    LinesKeys(r.flavors, lines, false);
  }

  lemma ThrowBalances(r: DayRecord, flavor: Id, name: string, reason: Id, portions: int, cost: int)
    requires Balanced(r)
    ensures Balanced(Throw(r, flavor, name, reason, portions, cost))
  {
    hide TruncDiv, Bump, All, UniqueKeys;
    var d := Figures(0, 0, portions, cost);
    BumpFigures(r.reasons, reason, "", false, d, 0);
    BumpFigures(r.flavors, flavor, name, true, d, 0);
    BumpKeys(r.reasons, reason, "", false, d);
    BumpKeys(r.flavors, flavor, name, true, d);
  }

  // ----- runs ---------------------------------------------------------------

  ghost function Run(events: seq<Event>): Books {
    if events == [] then EMPTY_BOOKS else Process(Run(events[..|events| - 1]), events[|events| - 1])
  }

  /** What really happened in a run: every applied sale and loss, every order reversed. */
  ghost function Log(events: seq<Event>): seq<Fact> {
    if events == [] then [] else
    Log(events[..|events| - 1]) + FactOf(Run(events[..|events| - 1]), events[|events| - 1])
  }

  lemma SumAppend(log: seq<Fact>, fact: Fact, day: Day, what: Figure)
    ensures Sum(log + [fact], day, what) == Sum(log, day, what) + if fact.day == day then Worth(fact, what) else 0
  {
    assert (log + [fact])[..|log|] == log;
  }

  lemma EffectReads(b: Books, e: Event, what: Figure)
    requires !Fails(e) && Effect(b, e).Some?
    ensures |FactOf(b, e)| == 1 && FactOf(b, e)[0].day == Effect(b, e).value.0 == e.day.value
    ensures Read(Effect(b, e).value.1, what) == Read(OnDay(b, e.day.value), what) + Worth(FactOf(b, e)[0], what)
  {
    hide Read, Sell, Reverse, Throw, Worth;
    var r := OnDay(b, e.day.value);
    match e
    case Sale(_, _, total, lines, _) =>
      SellReads(r, total, lines, what);
      WorthOf(e.event, e.day.value, 0, total, lines, what);
    case Cancellation(_, order, _, _, total, lines, _) =>
      ReverseReads(r, order, total, lines, what);
      WorthOf(e.event, e.day.value, order, total, lines, what);
    case Waste(_, _, flavor, name, reason, portions, cost, _) =>
      ThrowReads(r, flavor, name, reason, portions, cost, what);
      WorthThrown(e.event, e.day.value, flavor, reason, portions, cost, what);
  }

  lemma WorthOf(event: Id, day: Day, order: Id, total: int, lines: seq<Line>, what: Figure)
    ensures Worth(Sold(event, day, total, lines), what) == OfSale(total, lines, what)
    ensures Worth(Undone(day, order, total, lines), what) == -OfSale(total, lines, what)
  {
  }

  lemma WorthThrown(event: Id, day: Day, flavor: Id, reason: Id, portions: int, cost: int, what: Figure)
    ensures Worth(Thrown(event, day, flavor, reason, portions, cost), what) == Worth(Thrown(0, 0, flavor, reason, portions, cost), what)
  {
  }

  lemma ProcessOnDay(b: Books, e: Event, day: Day)
    ensures OnDay(Process(b, e), day) ==
            if !Fails(e) && Effect(b, e).Some? && e.day == Some(day) then Effect(b, e).value.1 else OnDay(b, day)
  {
    hide Sell, Reverse, Throw;
  }

  lemma ProcessReads(b: Books, e: Event, log: seq<Fact>, day: Day, what: Figure)
    requires Read(OnDay(b, day), what) == Sum(log, day, what)
    ensures Read(OnDay(Process(b, e), day), what) == Sum(log + FactOf(b, e), day, what)
  {
    ProcessOnDay(b, e, day);
    hide Read, Process, Sum, Worth;
    if !Fails(e) && Effect(b, e).Some? {
      EffectReads(b, e, what);
      SumAppend(log, FactOf(b, e)[0], day, what);
      hide FactOf, Effect;
      assert FactOf(b, e) == [FactOf(b, e)[0]];
    } else {
      assert log + FactOf(b, e) == log;
    }
  }

  lemma EmptyReads(what: Figure)
    ensures Read(EMPTY_DAY, what) == 0
  {
  }

  /** Every figure of every day is the sum over what happened that day: sales less the
      reversed orders, and losses, in whatever order and however often events came. */
  lemma {:induction false} FiguresMatchLog(events: seq<Event>, day: Day, what: Figure)
    ensures Read(OnDay(Run(events), day), what) == Sum(Log(events), day, what)
  {
    hide Read, Process, FactOf;
    if events == [] {
      EmptyReads(what);
    } else {
      var front := events[..|events| - 1];
      FiguresMatchLog(front, day, what);
      ProcessReads(Run(front), events[|events| - 1], Log(front), day, what);
    }
  }

  lemma ProcessBalances(b: Books, e: Event, day: Day)
    requires forall d :: Balanced(OnDay(b, d))
    ensures Balanced(OnDay(Process(b, e), day))
  {
    ProcessOnDay(b, e, day);
    hide Process, Balanced;
    if !Fails(e) && Effect(b, e).Some? && e.day == Some(day) {
      var r := OnDay(b, day);
      match e
      case Sale(_, _, total, lines, _) => SellBalances(r, total, lines);
      case Cancellation(_, order, _, _, total, lines, _) => ReverseBalances(r, order, total, lines);
      case Waste(_, _, flavor, name, reason, portions, cost, _) => ThrowBalances(r, flavor, name, reason, portions, cost);
    }
  }

  /** On every day of every run flavors and reasons are listed once, flavor scoops add up to
      the scoops sold, waste by flavor and by reason both add up to the waste, and the
      average is gross over orders, or 0 without orders. */
  lemma {:induction false} EveryDayBalanced(events: seq<Event>)
    ensures forall day :: Balanced(OnDay(Run(events), day))
  {
    hide Process, Balanced;
    if events == [] {
      EmptyBalances();
    } else {
      var front := events[..|events| - 1];
      EveryDayBalanced(front);
      forall day ensures Balanced(OnDay(Run(events), day)) {
        ProcessBalances(Run(front), events[|events| - 1], day);
      }
    }
  }

  lemma EmptyBalances()
    ensures Balanced(EMPTY_DAY)
  {
  }

  // ----- each order is reversed once ----------------------------------------

  ghost function Reversals(log: seq<Fact>, day: Day, order: Id): nat {
    if log == [] then 0 else
    var last := log[|log| - 1];
    Reversals(log[..|log| - 1], day, order) + if last.Undone? && last.day == day && last.order == order then 1 else 0
  }

  lemma ReversalsAppend(log: seq<Fact>, fact: Fact, day: Day, order: Id)
    ensures Reversals(log + [fact], day, order) ==
            Reversals(log, day, order) + if fact.Undone? && fact.day == day && fact.order == order then 1 else 0
  {
    assert (log + [fact])[..|log|] == log;
  }

  lemma ReversedFollows(b: Books, e: Event, day: Day)
    ensures var r, r' := OnDay(b, day), OnDay(Process(b, e), day);
            r'.reversed == if !Fails(e) && Effect(b, e).Some? && e.Cancellation? && e.day == Some(day)
                           then r.reversed + [e.order] else r.reversed
  {
    ProcessOnDay(b, e, day);
    hide AddLines, TruncDiv, Bump, Portions;
  }

  /** A paid cancellation is subtracted exactly once, however often it is delivered and
      whether or not its marker was kept: once if the day lists the order as reversed. */
  lemma {:induction false} ReversedOnce(events: seq<Event>, day: Day, order: Id)
    ensures Reversals(Log(events), day, order) == if order in OnDay(Run(events), day).reversed then 1 else 0
  {
    if events != [] {
      hide Process, FactOf, OnDay, Reversals;
      var front, e := events[..|events| - 1], events[|events| - 1];
      ReversedOnce(front, day, order);
      ReversedStep(Run(front), e, Log(front), day, order);
    }
  }

  lemma ReversedStep(b: Books, e: Event, log: seq<Fact>, day: Day, order: Id)
    requires Reversals(log, day, order) == if order in OnDay(b, day).reversed then 1 else 0
    ensures Reversals(log + FactOf(b, e), day, order) == if order in OnDay(Process(b, e), day).reversed then 1 else 0
  {
    ReversedFollows(b, e, day);
    hide Process, Sell, Reverse, Throw, Reversals;
    if FactOf(b, e) == [] {
      assert log + FactOf(b, e) == log;
    } else {
      ReportOne(e);
      ReversalsAppend(log, Report(e)[0], day, order);
    }
  }

  lemma {:induction false} ReversedStays(events: seq<Event>, n: nat, day: Day, order: Id)
    requires n <= |events| && order in OnDay(Run(events[..n]), day).reversed
    ensures order in OnDay(Run(events), day).reversed
    decreases |events|
  {
    if n == |events| {
      assert events[..n] == events;
    } else {
      var front := events[..|events| - 1];
      assert front[..n] == events[..n];
      ReversedStays(front, n, day, order);
      ReversedFollows(Run(front), events[|events| - 1], day);
    }
  }

  lemma ReversedNow(b: Books, e: Event)
    requires e.Cancellation? && e.paid && Processable(e) && (e.event == NIL || e.event !in b.processed)
    ensures e.order in OnDay(Process(b, e), e.day.value).reversed
  {
    ReversedFollows(b, e, e.day.value);
    hide Process, Reverse;
  }

  /** So every paid cancellation that was ever processed counts, for good, and once. */
  lemma CancellationCountsOnce(events: seq<Event>, n: nat)
    requires n < |events| && events[n].Cancellation? && events[n].paid && Processable(events[n])
    requires events[n].event == NIL || events[n].event !in Run(events[..n]).processed
    ensures Reversals(Log(events), events[n].day.value, events[n].order) == 1
  {
    var e, day := events[n], events[n].day.value;
    var front := events[..n + 1];
    assert front[..n] == events[..n];
    ReversedNow(Run(events[..n]), e);
    assert Run(front) == Process(Run(events[..n]), e);
    hide *;
    ReversedStays(events, n + 1, day, e.order);
    ReversedOnce(events, day, e.order);
  }

  // ----- markers ------------------------------------------------------------

  /** Some delivery of the event was processed and its marker written. */
  ghost predicate MarkKept(events: seq<Event>, id: Id) {
    exists i :: 0 <= i < |events| && events[i].event == id && events[i].marked && Processable(events[i])
  }

  lemma MarkKeptGrows(events: seq<Event>, id: Id)
    requires events != []
    ensures var front, e := events[..|events| - 1], events[|events| - 1];
            MarkKept(events, id) <==> MarkKept(front, id) || (e.event == id && e.marked && Processable(e))
  {
    var front := events[..|events| - 1];
    if MarkKept(front, id) {
      var i :| 0 <= i < |front| && front[i].event == id && front[i].marked && Processable(front[i]);
      assert events[i] == front[i];
    }
    if MarkKept(events, id) {
      var i :| 0 <= i < |events| && events[i].event == id && events[i].marked && Processable(events[i]);
      assert i < |front| ==> front[i] == events[i];
    }
  }

  lemma ProcessMarks(b: Books, e: Event, id: Id)
    ensures id in Process(b, e).processed <==> id in b.processed || (id != NIL && e.event == id && e.marked && Processable(e))
  {
    hide Sell, Reverse, Throw;
  }

  lemma {:induction false} ProcessedIffMarkKept(events: seq<Event>, id: Id)
    ensures id in Run(events).processed <==> id != NIL && MarkKept(events, id)
  {
    hide Process;
    if events != [] {
      var front := events[..|events| - 1];
      ProcessedIffMarkKept(front, id);
      MarkKeptGrows(events, id);
      ProcessMarks(Run(front), events[|events| - 1], id);
    }
  }

  // ----- deliveries in any order, any number of times -----------------------

  /** The delivery apart from whether its marker is written. */
  ghost function Payload(e: Event): Event {
    match e
    case Sale(event, day, total, lines, _) => Sale(event, day, total, lines, true)
    case Cancellation(event, order, paid, day, total, lines, _) => Cancellation(event, order, paid, day, total, lines, true)
    case Waste(event, day, flavor, name, reason, portions, cost, _) => Waste(event, day, flavor, name, reason, portions, cost, true)
  }

  /** Equal ids carry equal payloads, and paid cancellations of one order agree. */
  ghost predicate Compatible(x: Event, y: Event) {
    (x.event != NIL && x.event == y.event ==> Payload(x) == Payload(y)) &&
    (x.Cancellation? && y.Cancellation? && x.paid && y.paid && x.order == y.order ==>
      x.day == y.day && x.total == y.total && x.lines == y.lines)
  }

  /** What Analytics relies on; only cancellations may lose their marker or lack an id. */
  ghost predicate Regular(events: seq<Event>) {
    (forall x, y | x in events && y in events :: Compatible(x, y)) &&
    (forall x | x in events && !x.Cancellation? :: x.event != NIL && x.marked)
  }

  ghost function Elements(facts: seq<Fact>): set<Fact> {
    set f | f in facts
  }

  /** Everything reported, once. */
  ghost function Truth(events: seq<Event>): set<Fact> {
    if events == [] then {} else
    Truth(events[..|events| - 1]) + Elements(Report(events[|events| - 1]))
  }

  lemma {:induction false} TruthFrom(events: seq<Event>, f: Fact)
    ensures f in Truth(events) <==> exists e :: e in events && f in Report(e)
  {
    if events != [] {
      var front, last := events[..|events| - 1], events[|events| - 1];
      assert events == front + [last];
      TruthFrom(front, f);
      if f in Truth(front) {
        var e :| e in front && f in Report(e);
        assert e in events;
      }
      assert last in events;
    }
  }

  ghost predicate Exact(log: seq<Fact>, truth: set<Fact>) {
    (forall f :: f in log <==> f in truth) && forall i, j | 0 <= i < j < |log| :: log[i] != log[j]
  }

  lemma {:induction false} ReversalIn(log: seq<Fact>, day: Day, order: Id)
    ensures Reversals(log, day, order) > 0 <==> exists f :: f in log && f.Undone? && f.day == day && f.order == order
  {
    if log != [] {
      var front, last := log[..|log| - 1], log[|log| - 1];
      assert log == front + [last];
      ReversalIn(front, day, order);
      if Reversals(front, day, order) > 0 {
        var f :| f in front && f.Undone? && f.day == day && f.order == order;
        assert f in log;
      }
      assert last in log;
    }
  }

  /** An event that is skipped has been reported before. */
  lemma SkippedIsKnown(events: seq<Event>, e: Event, f: Fact)
    requires Regular(events + [e]) && Exact(Log(events), Truth(events)) && FactOf(Run(events), e) == [] && f in Report(e)
    ensures f in Truth(events)
  {
    var b := Run(events);
    assert e in events + [e] && forall x | x in events :: x in events + [e];
    hide Log, Run, Truth;
    TruthFrom(events, f);
    if e.event != NIL && e.event in b.processed {
      ProcessedIffMarkKept(events, e.event);
      var i :| 0 <= i < |events| && events[i].event == e.event && events[i].marked && Processable(events[i]);
      assert events[i] in events && Compatible(events[i], e);
      SamePayloadReports(events[i], e);
    } else {
      ReversedIsKnown(events, e, f);
    }
  }

  lemma SamePayloadReports(x: Event, y: Event)
    requires Payload(x) == Payload(y)
    ensures Report(x) == Report(y) && Processable(x) == Processable(y)
  {
  }

  lemma ReversedIsKnown(events: seq<Event>, e: Event, f: Fact)
    requires Regular(events + [e]) && Exact(Log(events), Truth(events)) && FactOf(Run(events), e) == [] && f in Report(e)
    requires e.event == NIL || e.event !in Run(events).processed
    ensures f in Truth(events)
  {
    hide Log, Run, Truth, Sell, Reverse, Throw, Reversals;
    var day := e.day.value;
    assert e.Cancellation? && e.order in OnDay(Run(events), day).reversed;
    ReversedOnce(events, day, e.order);
    ReversalIn(Log(events), day, e.order);
    var g :| g in Log(events) && g.Undone? && g.day == day && g.order == e.order;
    TruthFrom(events, g);
    var x :| x in events && g in Report(x);
    assert x in events + [e] && e in events + [e];
    assert Compatible(x, e);
  }

  /** An event that is applied has not been reported before. */
  lemma AppliedIsNews(events: seq<Event>, e: Event, f: Fact)
    requires Regular(events + [e]) && Exact(Log(events), Truth(events)) && FactOf(Run(events), e) != [] && f in Report(e)
    ensures f !in Truth(events)
  {
    hide Log, Run, Truth, Sell, Reverse, Throw, Reversals, MarkKept;
    if f.Undone? {
      ReversalIn(Log(events), f.day, f.order);
      ReversedOnce(events, f.day, f.order);
    } else {
      ProcessedIffMarkKept(events, e.event);
      assert forall x | x in events :: x in events + [e];
      KnownIsMarked(events, f);
    }
  }

  lemma KnownIsMarked(events: seq<Event>, f: Fact)
    requires Regular(events) && !f.Undone?
    ensures f in Truth(events) ==> MarkKept(events, f.event)
  {
    hide Truth;
    TruthFrom(events, f);
    if f in Truth(events) {
      var x :| x in events && f in Report(x);
      ReportedIsMarked(events, x);
    }
  }

  lemma ReportedIsMarked(events: seq<Event>, x: Event)
    requires x in events && Processable(x) && x.marked
    ensures MarkKept(events, x.event)
  {
    var i :| 0 <= i < |events| && events[i] == x;
  }

  lemma ExactGrows(log: seq<Fact>, truth: set<Fact>, f: Fact)
    requires Exact(log, truth) && f !in truth
    ensures Exact(log + [f], truth + {f})
  {
  }

  /** Over regular deliveries the log is everything reported, each thing once. */
  lemma {:induction false} LogIsExact(events: seq<Event>)
    requires Regular(events)
    ensures Exact(Log(events), Truth(events))
  {
    if events != [] {
      var front, e := events[..|events| - 1], events[|events| - 1];
      assert events == front + [e];
      assert Regular(front) by {
        assert forall x | x in front :: x in events;
      }
      LogIsExact(front);
      LogStep(front, e);
    }
  }

  lemma LogStep(front: seq<Event>, e: Event)
    requires Regular(front + [e]) && Exact(Log(front), Truth(front))
    ensures Exact(Log(front + [e]), Truth(front + [e]))
  {
    assert (front + [e])[..|front|] == front;
    var log, truth := Log(front), Truth(front);
    var news := Elements(Report(e));
    assert Log(front + [e]) == log + FactOf(Run(front), e) && Truth(front + [e]) == truth + news;
    hide Log, Run, Truth, Effect;
    if FactOf(Run(front), e) == [] {
      forall f | f in news ensures f in truth {
        SkippedIsKnown(front, e, f);
      }
      assert truth + news == truth && log + [] == log;
    } else {
      ReportOne(e);
      var f := Report(e)[0];
      AppliedIsNews(front, e, f);
      assert news == {f};
      hide Report;
      ExactGrows(log, truth, f);
    }
  }

  lemma ReportOne(e: Event)
    ensures |Report(e)| <= 1 && (Report(e) != [] ==> Report(e) == [Report(e)[0]])
  {
  }

  ghost function AnyFact(s: set<Fact>): (f: Fact)
    requires s != {}
    ensures f in s
  {
    var f :| f in s; f
  }

  /** The sum over a set of facts. */
  ghost function SetSum(s: set<Fact>, day: Day, what: Figure): int
    decreases |s|
  {
    if s == {} then 0 else
    var f := AnyFact(s);
    SetSum(s - {f}, day, what) + if f.day == day then Worth(f, what) else 0
  }

  lemma {:induction false} SetSumPick(s: set<Fact>, f: Fact, day: Day, what: Figure)
    requires f in s
    ensures SetSum(s, day, what) == SetSum(s - {f}, day, what) + if f.day == day then Worth(f, what) else 0
    decreases |s|
  {
    hide Worth;
    var g := AnyFact(s);
    if g != f {
      SetSumPick(s - {g}, f, day, what);
      SetSumPick(s - {f}, g, day, what);
      assert s - {g} - {f} == s - {f} - {g};
    }
  }

  lemma {:induction false} ExactSum(log: seq<Fact>, truth: set<Fact>, day: Day, what: Figure)
    requires Exact(log, truth)
    ensures Sum(log, day, what) == SetSum(truth, day, what)
    decreases |log|
  {
    hide Worth;
    if log == [] {
      assert truth == {};
    } else {
      var front, f := log[..|log| - 1], log[|log| - 1];
      assert log == front + [f];
      assert f in log && f !in front;
      assert Exact(front, truth - {f});
      ExactSum(front, truth - {f}, day, what);
      SetSumPick(truth, f, day, what);
    }
  }

  /** The projection: over deliveries in any order and any number of times, with equal ids
      carrying equal payloads and paid cancellations of one order agreeing, every figure is
      the sum over distinct sales, less distinct reversed orders, plus distinct losses;
      cancellations may lose their markers. */
  lemma FiguresAreTheTruth(events: seq<Event>, day: Day, what: Figure)
    requires Regular(events)
    ensures Read(OnDay(Run(events), day), what) == SetSum(Truth(events), day, what)
  {
    hide *;
    FiguresMatchLog(events, day, what);
    LogIsExact(events);
    ExactSum(Log(events), Truth(events), day, what);
  }

  /** The same reports are in both, in whatever order and however often. */
  ghost predicate SameReports(events: seq<Event>, events': seq<Event>) {
    (forall e | e in events :: exists x :: x in events' && Payload(x) == Payload(e)) &&
    (forall e | e in events' :: exists x :: x in events && Payload(x) == Payload(e))
  }

  lemma ReportsCarryOver(events: seq<Event>, events': seq<Event>, f: Fact)
    requires SameReports(events, events') && f in Truth(events)
    ensures f in Truth(events')
  {
    hide Truth, Report, Payload;
    TruthFrom(events, f);
    TruthFrom(events', f);
    var e :| e in events && f in Report(e);
    var x :| x in events' && Payload(x) == Payload(e);
    SamePayloadReports(x, e);
  }

  lemma SameTruth(events: seq<Event>, events': seq<Event>)
    requires SameReports(events, events')
    ensures Truth(events) == Truth(events')
  {
    forall f ensures f in Truth(events) <==> f in Truth(events') {
      if f in Truth(events) {
        ReportsCarryOver(events, events', f);
      } else if f in Truth(events') {
        ReportsCarryOver(events', events, f);
      }
    }
  }

  /** Permuting or repeating deliveries changes neither a figure nor the average. */
  lemma DeliveryOrderDoesNotMatter(events: seq<Event>, events': seq<Event>, day: Day, what: Figure)
    requires Regular(events) && Regular(events') && SameReports(events, events')
    ensures Read(OnDay(Run(events), day), what) == Read(OnDay(Run(events'), day), what)
    ensures OnDay(Run(events), day).average == OnDay(Run(events'), day).average
  {
    hide Run, Truth, SetSum, Regular, SameReports, TruncDiv;
    SameTruth(events, events');
    forall w: Figure ensures Read(OnDay(Run(events), day), w) == Read(OnDay(Run(events'), day), w) {
      FiguresAreTheTruth(events, day, w);
      FiguresAreTheTruth(events', day, w);
    }
    EveryDayBalanced(events);
    EveryDayBalanced(events');
    var r, r' := OnDay(Run(events), day), OnDay(Run(events'), day);
    assert Read(r, Gross) == Read(r', Gross) && Read(r, Orders) == Read(r', Orders);
    assert Balanced(r) && Balanced(r');
  }

  // ----- how often a sale counts --------------------------------------------

  ghost predicate IsSale(e: Event, id: Id) {
    e.Sale? && e.event == id && Processable(e)
  }

  ghost function TimesSold(log: seq<Fact>, id: Id): nat {
    if log == [] then 0 else
    TimesSold(log[..|log| - 1], id) + if log[|log| - 1].Sold? && log[|log| - 1].event == id then 1 else 0
  }

  ghost function Deliveries(events: seq<Event>, id: Id): nat {
    if events == [] then 0 else Deliveries(events[..|events| - 1], id) + if IsSale(events[|events| - 1], id) then 1 else 0
  }

  lemma TimesSoldAppend(log: seq<Fact>, more: seq<Fact>, id: Id)
    requires |more| <= 1
    ensures TimesSold(log + more, id) == TimesSold(log, id) + if more != [] && more[0].Sold? && more[0].event == id then 1 else 0
  {
    if more == [] {
      assert log + more == log;
    } else {
      assert (log + more)[..|log|] == log;
    }
  }

  lemma SoldFollows(events: seq<Event>, id: Id)
    requires events != [] && id != NIL
    ensures var front, e := events[..|events| - 1], events[|events| - 1];
            TimesSold(Log(events), id) == TimesSold(Log(front), id) + if IsSale(e, id) && !MarkKept(front, id) then 1 else 0
  {
    var front, e := events[..|events| - 1], events[|events| - 1];
    assert Log(events) == Log(front) + FactOf(Run(front), e);
    hide Log, Run, Sell, Reverse, Throw, TimesSold;
    ProcessedIffMarkKept(front, id);
    ReportOne(e);
    TimesSoldAppend(Log(front), FactOf(Run(front), e), id);
  }

  /** While no marker of the sale was kept, every delivery of it counts. */
  lemma {:induction false} UnmarkedSalesCount(events: seq<Event>, id: Id)
    requires id != NIL && !MarkKept(events[..if events == [] then 0 else |events| - 1], id)
    ensures TimesSold(Log(events), id) == Deliveries(events, id)
  {
    if events != [] {
      var front := events[..|events| - 1];
      if front != [] {
        MarkKeptGrows(front, id);
      }
      UnmarkedSalesCount(front, id);
      SoldFollows(events, id);
    }
  }

  /** The first delivery of the event whose marker was kept. */
  ghost predicate FirstMarked(events: seq<Event>, id: Id, m: nat) {
    m < |events| && events[m].event == id && events[m].marked && Processable(events[m]) && !MarkKept(events[..m], id)
  }

  /** A sale counts as often as it is delivered up to and including the first delivery
      whose marker was kept. */
  lemma {:induction false} SaleCountsUntilMarked(events: seq<Event>, id: Id, m: nat)
    requires id != NIL && FirstMarked(events, id, m)
    ensures TimesSold(Log(events), id) == Deliveries(events[..m + 1], id)
    decreases |events|
  {
    var n := |events| - 1;
    var front := events[..n];
    if m == n {
      assert events[..m + 1] == events;
      UnmarkedSalesCount(events, id);
    } else {
      assert front[..m] == events[..m] && front[..m + 1] == events[..m + 1];
      assert front[m] == events[m];
      SaleCountsUntilMarked(front, id, m);
      SoldFollows(events, id);
    }
  }

  /** So a sale counts exactly once if and only if its first delivery kept its marker or it
      is never delivered again. */
  lemma SaleCountsOnceIff(events: seq<Event>, id: Id, n: nat)
    requires id != NIL && n < |events| && IsSale(events[n], id)
    requires forall i | 0 <= i < n :: events[i].event != id
    requires forall i | 0 <= i < |events| && events[i].event == id :: Payload(events[i]) == Payload(events[n])
    ensures TimesSold(Log(events), id) == 1 <==> events[n].marked || forall i | n < i < |events| :: events[i].event != id
  {
    hide Log, TimesSold;
    if events[n].marked {
      assert FirstMarked(events, id, n);
      SaleCountsUntilMarked(events, id, n);
      DeliveriesUpTo(events, id, n, n + 1);
    } else if MarkKept(events, id) {
      var m := FindMarked(events, id);
      SaleCountsUntilMarked(events, id, m);
      DeliveriesUpTo(events, id, n, m + 1);
    } else {
      NotKeptBefore(events, id);
      UnmarkedSalesCount(events, id);
      assert events[..|events|] == events;
      DeliveriesUpTo(events, id, n, |events|);
    }
  }

  lemma NotKeptBefore(events: seq<Event>, id: Id)
    requires !MarkKept(events, id)
    ensures !MarkKept(events[..if events == [] then 0 else |events| - 1], id)
  {
    if events != [] {
      MarkKeptGrows(events, id);
    }
  }

  lemma {:induction false} FindMarked(events: seq<Event>, id: Id) returns (m: nat)
    requires MarkKept(events, id)
    ensures FirstMarked(events, id, m)
    decreases |events|
  {
    var n := |events| - 1;
    MarkKeptGrows(events, id);
    if MarkKept(events[..n], id) {
      m := FindMarked(events[..n], id);
      assert events[..n][..m] == events[..m];
    } else {
      m := n;
    }
  }

  /** Deliveries of a sale first delivered at `n`, up to `k`: one, or more. */
  lemma {:induction false} DeliveriesUpTo(events: seq<Event>, id: Id, n: nat, k: nat)
    requires n < k <= |events| && IsSale(events[n], id)
    requires forall i | 0 <= i < n :: events[i].event != id
    requires forall i | 0 <= i < |events| && events[i].event == id :: Payload(events[i]) == Payload(events[n])
    ensures Deliveries(events[..k], id) >= 1
    ensures Deliveries(events[..k], id) == 1 <==> forall i | n < i < k :: events[i].event != id
    decreases k
  {
    var e := events[k - 1];
    assert events[..k][..k - 1] == events[..k - 1];
    if k == n + 1 {
      NoDeliveries(events, id, n);
    } else {
      DeliveriesUpTo(events, id, n, k - 1);
      if e.event == id {
        SamePayloadReports(e, events[n]);
      }
    }
  }

  lemma {:induction false} NoDeliveries(events: seq<Event>, id: Id, n: nat)
    requires n <= |events| && forall i | 0 <= i < n :: events[i].event != id
    ensures Deliveries(events[..n], id) == 0
  {
    if n > 0 {
      assert events[..n][..n - 1] == events[..n - 1];
      NoDeliveries(events, id, n - 1);
    }
  }

  lemma SaleAddsOrder(b: Books, e: Event)
    requires e.Sale? && e.day.Some? && (e.event == NIL || e.event !in b.processed)
    ensures OnDay(Process(b, e), e.day.value).orders == OnDay(b, e.day.value).orders + 1
    ensures Process(b, e).processed == if e.event != NIL && e.marked then b.processed + {e.event} else b.processed
  {
    hide TruncDiv, AddLines, Portions;
  }

  lemma RunTwo(x: Event, y: Event)
    ensures Run([x, y]) == Process(Process(EMPTY_BOOKS, x), y)
  {
    hide Process;
    assert [x, y][..1] == [x] && [x][..0] == [];
    assert Run([x]) == Process(Run([]), x);
  }

  /** The failing case: a sale whose marker is lost, delivered twice, counts two orders; with
      the marker kept it counts one. */
  lemma LostMarkerCountsTwice(event: Id, day: Day, total: int, lines: seq<Line>)
    requires event != NIL
    ensures var lost, kept := Sale(event, Some(day), total, lines, false), Sale(event, Some(day), total, lines, true);
            OnDay(Run([lost, kept]), day).orders == 2 && OnDay(Run([kept, lost]), day).orders == 1
  {
    hide *;
    var lost, kept := Sale(event, Some(day), total, lines, false), Sale(event, Some(day), total, lines, true);
    RunTwo(lost, kept);
    RunTwo(kept, lost);
    EmptyDay(day);
    SaleAddsOrder(EMPTY_BOOKS, lost);
    SaleAddsOrder(EMPTY_BOOKS, kept);
    SaleAddsOrder(Process(EMPTY_BOOKS, lost), kept);
    MarkedIsSkipped(Process(EMPTY_BOOKS, kept), lost);
  }

  lemma MarkedIsSkipped(b: Books, e: Event)
    requires e.event != NIL && e.event in b.processed
    ensures Process(b, e) == b
  {
  }

  lemma EmptyDay(day: Day)
    ensures OnDay(EMPTY_BOOKS, day).orders == 0 && EMPTY_BOOKS.processed == {} && NIL == 0
  {
  }
}
