/** Kitchen tickets under duplicated and reordered order events: deduplication by event
    id, tombstones for cancellations that overtake their order, queue numbers per pickup
    slot, and the status history of every ticket. */
module Fulfillment {
  import opened Ordering
  import opened InventoryModel

  datatype Status = Queued | Preparing | Ready | PickedUp | Cancelled

  predicate CanTransition(from: Status, to: Status) {
    (from.Queued? && to.Preparing?) || (from.Preparing? && to.Ready?) || (from.Ready? && to.PickedUp?)
  }

  predicate IsCancellable(s: Status) {
    s.Queued? || s.Preparing?
  }

  /** The start of the fifteen-minute pickup slot, in seconds. */
  function SlotOf(pickupAt: Time): Time {
    pickupAt - pickupAt % 900
  }

  /** A slot starts on the quarter of an hour and lasts fifteen minutes. */
  ghost predicate InSlot(slot: Time, pickupAt: Time) {
    slot % 900 == 0 && slot <= pickupAt < slot + 900
  }

  lemma SlotContains(pickupAt: Time)
    ensures InSlot(SlotOf(pickupAt), pickupAt)
  {
    var q, r := pickupAt / 900, pickupAt % 900;
    assert pickupAt == q * 900 + r;
    assert (q * 900) % 900 == 0;
  }

  datatype Ticket = Ticket(
    customer: Option<Id>, slot: Time, number: nat, pickupAt: Time, status: Status, items: seq<Item>, pickedUpAt: Option<Time>)

  datatype Change = Change(order: Id, from: Option<Status>, to: Status, source: Option<Id>)

  datatype Note =
    | QueuedNote(order: Id, recipient: Id, number: nat)
    | ReadyNote(order: Id, customer: Option<Id>, number: nat)
    | PickedUpNote(order: Id, at: Time)

  /** Tickets are unique per order and slots per start, as the tables' keys demand. A slot
      row keeps the next queue number to hand out. */
  datatype Kitchen = Kitchen(
    processed: set<Id>, tombstones: set<Id>, tickets: map<Id, Ticket>, slots: map<Time, nat>,
    history: seq<Change>, outbox: seq<Note>)

  const EMPTY_KITCHEN := Kitchen({}, {}, map[], map[], [], [])

  datatype Placed = Placed(event: Id, order: Id, customer: Id, pickupAt: Time, items: seq<Item>)

  // ----- transactions -------------------------------------------------------

  function NextNumber(slots: map<Time, nat>, slot: Time): nat {
    if slot in slots then slots[slot] else 1
  }

  function NewTicket(k: Kitchen, d: Placed): Ticket {
    Ticket(if d.customer == NIL then None else Some(d.customer), SlotOf(d.pickupAt), NextNumber(k.slots, SlotOf(d.pickupAt)),
           d.pickupAt, Queued, d.items, None)
  }

  /** A ticket that already exists rolls everything back, the mark of the event included. */
  function Place(k: Kitchen, d: Placed): (Kitchen, bool) {
    if d.event in k.processed then (k, false)
    else if d.order in k.tombstones then (k.(processed := k.processed + {d.event}), false)
    else if d.order in k.tickets then (k, false)
    else
      var t := NewTicket(k, d);
      (k.(processed := k.processed + {d.event}, tickets := k.tickets[d.order := t], slots := k.slots[t.slot := t.number + 1],
          history := k.history + [Change(d.order, None, Queued, Some(d.event))],
          outbox := k.outbox + if d.customer == NIL then [] else [QueuedNote(d.order, d.customer, t.number)]), true)
  }

  function Cancel(k: Kitchen, event: Id, order: Id): (Kitchen, bool) {
    if event in k.processed then (k, false) else
    var marked := k.(processed := k.processed + {event});
    if order in k.tickets && IsCancellable(k.tickets[order].status) then
      (marked.(tickets := k.tickets[order := k.tickets[order].(status := Cancelled)],
               history := k.history + [Change(order, Some(k.tickets[order].status), Cancelled, Some(event))]), true)
    else if order in k.tickets then (marked, false)
    else (marked.(tombstones := k.tombstones + {order}), false)
  }

  function NotesFor(order: Id, t: Ticket, now: Time): seq<Note> {
    match t.status
    case Ready => [ReadyNote(order, t.customer, t.number)]
    case PickedUp => [PickedUpNote(order, now)]
    case _ => []
  }

  function Advance(k: Kitchen, order: Id, to: Status, now: Time): (Kitchen, Result<Ticket>) {
    if order !in k.tickets then (k, Err(NotFound)) else
    var t := k.tickets[order];
    if t.status == to then (k, Ok(t))
    else if !CanTransition(t.status, to) then (k, Err(WrongState))
    else
      var t' := t.(status := to, pickedUpAt := if to.PickedUp? then Some(now) else t.pickedUpAt);
      (k.(tickets := k.tickets[order := t'], history := k.history + [Change(order, Some(t.status), to, None)],
          outbox := k.outbox + NotesFor(order, t', now)), Ok(t'))
  }

  // ----- the repository -----------------------------------------------------

  class FulfillmentRepository {
    var processed: set<Id>
    var tombstones: set<Id>
    var tickets: map<Id, Ticket>
    var slots: map<Time, nat>
    var history: seq<Change>
    var outbox: seq<Note>

    ghost function View(): Kitchen
      reads this
    {
      Kitchen(processed, tombstones, tickets, slots, history, outbox)
    }

    constructor ()
      ensures View() == EMPTY_KITCHEN
    {
      processed, tombstones, tickets, slots, history, outbox := {}, {}, map[], map[], [], [];
    }

    /** Records the event id and reports whether it was already there. */
    method MarkProcessed(event: Id) returns (duplicate: bool)
      modifies this`processed
      ensures processed == old(processed) + {event}
      ensures duplicate <==> event in old(processed)
    {
      duplicate := event in processed;
      processed := processed + {event};
    }

    /** Hands out the next queue number of a slot: the first insert stores 2. */
    method TakeNumber(slot: Time) returns (number: nat)
      modifies this`slots
      ensures number == NextNumber(old(slots), slot) && slots == old(slots)[slot := number + 1]
    {
      if slot in slots {
        number := slots[slot];
        slots := slots[slot := slots[slot] + 1];
      } else {
        number := 1;
        slots := slots[slot := 2];
      }
    }

    /** A new event of an order without ticket or tombstone gets the next number of its
        fifteen-minute slot; an event that creates nothing changes at most its own mark. */
    method CreateFromOrderPlaced(d: Placed) returns (created: bool)
      modifies this
      ensures created <==> d.event !in old(processed) && d.order !in old(tombstones) && d.order !in old(tickets)
      ensures !created ==> tickets == old(tickets) && slots == old(slots) && history == old(history) && outbox == old(outbox)
      ensures processed == if created || (d.order in old(tombstones)) then old(processed) + {d.event} else old(processed)
      ensures created ==>
                d.order in tickets && tickets == old(tickets)[d.order := tickets[d.order]] &&
                var t := tickets[d.order];
                t.customer == (if d.customer == NIL then None else Some(d.customer)) && t.pickupAt == d.pickupAt && t.items == d.items &&
                t.status == Queued && t.pickedUpAt == None && InSlot(t.slot, d.pickupAt) &&
                t.number == (if t.slot in old(slots) then old(slots)[t.slot] else 1) && slots == old(slots)[t.slot := t.number + 1] &&
                history == old(history) + [Change(d.order, None, Queued, Some(d.event))] &&
                outbox == old(outbox) + if d.customer == NIL then [] else [QueuedNote(d.order, d.customer, t.number)]
      ensures tombstones == old(tombstones)
      ensures (View(), created) == Place(old(View()), d)
    {
      SlotContains(d.pickupAt);
      hide SlotOf, InSlot;
      var marks, numbers := processed, slots;
      var duplicate := MarkProcessed(d.event);
      if duplicate {
        processed := marks;
        return false;
      }
      if d.order in tombstones { return false; }
      var slot := SlotOf(d.pickupAt);
      var number := TakeNumber(slot);
      if d.order in tickets {
        processed, slots := marks, numbers;
        return false;
      }
      var customer := if d.customer == NIL then None else Some(d.customer);
      tickets := tickets[d.order := Ticket(customer, slot, number, d.pickupAt, Queued, d.items, None)];
      history := history + [Change(d.order, None, Queued, Some(d.event))];
      assert outbox + [] == outbox;
      if customer.Some? {
        outbox := outbox + [QueuedNote(d.order, d.customer, number)];
      }
      return true;
    }

    /** A new cancellation cancels a ticket the kitchen has not finished, leaves a tombstone
        when there is no ticket, and otherwise changes nothing but its own mark. */
    method CancelByOrder(event: Id, order: Id) returns (cancelled: bool)
      modifies this
      ensures cancelled <==> event !in old(processed) && order in old(tickets) && old(tickets)[order].status in {Queued, Preparing}
      ensures processed == old(processed) + {event} && slots == old(slots) && outbox == old(outbox)
      ensures tombstones == old(tombstones) + if event !in old(processed) && order !in old(tickets) then {order} else {}
      ensures !cancelled ==> tickets == old(tickets) && history == old(history)
      ensures cancelled ==> tickets == old(tickets)[order := old(tickets)[order].(status := Cancelled)] &&
                            history == old(history) + [Change(order, Some(old(tickets)[order].status), Cancelled, Some(event))]
      ensures (View(), cancelled) == Cancel(old(View()), event, order)
    {
      var marks := processed;
      var duplicate := MarkProcessed(event);
      if duplicate {
        processed := marks;
        return false;
      }
      if order in tickets && IsCancellable(tickets[order].status) {
        var was := tickets[order].status;
        tickets := tickets[order := tickets[order].(status := Cancelled)];
        history := history + [Change(order, Some(was), Cancelled, Some(event))];
        return true;
      }
      if order !in tickets {
        tombstones := tombstones + {order};
      }
      return false;
    }

    /** The kitchen moves a ticket one step, or repeats its status; READY and PICKED UP are
        announced. */
    method UpdateStatus(order: Id, to: Status, now: Time) returns (r: Result<Ticket>)
      modifies this
      ensures r == Err(NotFound) <==> order !in old(tickets)
      ensures r.Ok? <==> order in old(tickets) &&
                         (old(tickets)[order].status == to ||
                          (old(tickets)[order].status, to) in {(Queued, Preparing), (Preparing, Ready), (Ready, PickedUp)})
      ensures r.Err? ==> r.error in {NotFound, WrongState} && View() == old(View())
      ensures r.Ok? && old(tickets)[order].status == to ==> r.value == old(tickets)[order] && View() == old(View())
      ensures r.Ok? && old(tickets)[order].status != to ==>
                var t := old(tickets)[order];
                r.value == t.(status := to, pickedUpAt := if to == PickedUp then Some(now) else t.pickedUpAt) &&
                tickets == old(tickets)[order := r.value] && history == old(history) + [Change(order, Some(t.status), to, None)] &&
                outbox == old(outbox) + (if to == Ready then [ReadyNote(order, t.customer, t.number)]
                                         else if to == PickedUp then [PickedUpNote(order, now)] else [])
      ensures processed == old(processed) && tombstones == old(tombstones) && slots == old(slots)
      ensures (View(), r) == Advance(old(View()), order, to, now)
    {
      if order !in tickets { return Err(NotFound); }
      var cur := tickets[order];
      if cur.status == to { return Ok(cur); }
      if !CanTransition(cur.status, to) { return Err(WrongState); }
      var updated := cur.(status := to);
      if to.PickedUp? {
        updated := updated.(pickedUpAt := Some(now));
      }
      tickets := tickets[order := updated];
      history := history + [Change(order, Some(cur.status), to, None)];
      assert outbox + [] == outbox;
      match to {
        case Ready => outbox := outbox + [ReadyNote(order, updated.customer, updated.number)];
        case PickedUp => outbox := outbox + [PickedUpNote(order, now)];
        case _ =>
      }
      return Ok(updated);
    }
  }

  // ----- the story of one ticket --------------------------------------------

  ghost function Story(history: seq<Change>, order: Id): seq<Change> {
    if history == [] then [] else
    var last := history[|history| - 1];
    Story(history[..|history| - 1], order) + if last.order == order then [last] else []
  }

  lemma StoryAppend(history: seq<Change>, c: Change, order: Id)
    ensures Story(history + [c], order) == Story(history, order) + if c.order == order then [c] else []
  {
    assert (history + [c])[..|history|] == history;
  }

  /** The steps of a ticket: the kitchen's three, and cancellation before it is ready. */
  ghost predicate Legal(from: Status, to: Status) {
    (from, to) in {(Queued, Preparing), (Preparing, Ready), (Ready, PickedUp), (Queued, Cancelled), (Preparing, Cancelled)}
  }

  /** A connected path of legal moves from the creation of the ticket to `end`. */
  ghost predicate LegalPath(path: seq<Change>, end: Status) {
    path != [] && path[0].from.None? && path[0].to.Queued? && path[|path| - 1].to == end &&
    forall i | 0 < i < |path| :: path[i].from == Some(path[i - 1].to) && Legal(path[i - 1].to, path[i].to)
  }

  lemma PathGrows(path: seq<Change>, end: Status, c: Change)
    requires LegalPath(path, end) && c.from == Some(end) && Legal(end, c.to)
    ensures LegalPath(path + [c], c.to)
  {
  }

  ghost predicate StoryTold(k: Kitchen, order: Id) {
    if order in k.tickets then LegalPath(Story(k.history, order), k.tickets[order].status) else Story(k.history, order) == []
  }

  // ----- events sent --------------------------------------------------------

  ghost function Sent(outbox: seq<Note>, order: Id, what: Status): nat {
    if outbox == [] then 0 else
    var n := outbox[|outbox| - 1];
    Sent(outbox[..|outbox| - 1], order, what) +
      if n.order == order && ((what.Queued? && n.QueuedNote?) || (what.Ready? && n.ReadyNote?) || (what.PickedUp? && n.PickedUpNote?))
      then 1 else 0
  }

  lemma SentAppend(outbox: seq<Note>, n: Note, order: Id, what: Status)
    ensures Sent(outbox + [n], order, what) == Sent(outbox, order, what) + Sent([n], order, what)
  {
    assert (outbox + [n])[..|outbox|] == outbox;
    assert [n][..0] == [];
  }

  /** order_queued once per known customer; ready and picked-up once, exactly when the
      ticket has come that far. */
  ghost predicate NotesMatch(k: Kitchen, order: Id) {
    var t := if order in k.tickets then Some(k.tickets[order]) else None;
    Sent(k.outbox, order, Queued) == (if t.Some? && t.value.customer.Some? then 1 else 0) &&
    Sent(k.outbox, order, Ready) == (if t.Some? && (t.value.status.Ready? || t.value.status.PickedUp?) then 1 else 0) &&
    Sent(k.outbox, order, PickedUp) == (if t.Some? && t.value.status.PickedUp? then 1 else 0)
  }

  // ----- queue numbers ------------------------------------------------------

  ghost predicate HasNumber(k: Kitchen, slot: Time, n: nat) {
    exists o :: o in k.tickets && k.tickets[o].slot == slot && k.tickets[o].number == n
  }

  ghost predicate NumbersUnique(k: Kitchen) {
    forall o, p | o in k.tickets && p in k.tickets && k.tickets[o].slot == k.tickets[p].slot ::
      k.tickets[o].number == k.tickets[p].number ==> o == p
  }

  ghost predicate NumbersFilled(k: Kitchen) {
    (forall slot: Time :: NextNumber(k.slots, slot) >= 1) &&
    (forall slot: Time, n: nat :: HasNumber(k, slot, n) <==> 1 <= n < NextNumber(k.slots, slot))
  }

  /** The numbers handed out in a slot are exactly 1 to next - 1, each to one ticket. */
  ghost predicate NumbersExact(k: Kitchen) {
    NumbersUnique(k) && NumbersFilled(k) && forall o | o in k.tickets :: k.tickets[o].slot == SlotOf(k.tickets[o].pickupAt)
  }

  ghost predicate Valid(k: Kitchen) {
    k.tickets.Keys !! k.tombstones && NumbersExact(k) &&
    (forall o: Id :: StoryTold(k, o)) && (forall o: Id :: NotesMatch(k, o)) &&
    (forall o | o in k.tickets :: k.tickets[o].pickedUpAt.Some? <==> k.tickets[o].status.PickedUp?)
  }

  lemma FilledAfterPlace(k: Kitchen, d: Placed)
    requires NumbersFilled(k) && d.order !in k.tickets && d.order !in k.tombstones && d.event !in k.processed
    ensures NumbersFilled(Place(k, d).0)
  {
    hide SlotOf;
    var k' := Place(k, d).0;
    var t := NewTicket(k, d);
    assert k'.tickets == k.tickets[d.order := t] && k'.slots == k.slots[t.slot := t.number + 1];
    assert NextNumber(k.slots, t.slot) == t.number >= 1;
    forall slot: Time ensures NextNumber(k'.slots, slot) >= 1 {
      assert NextNumber(k.slots, slot) >= 1;
    }
    forall slot: Time, n: nat ensures HasNumber(k', slot, n) <==> 1 <= n < NextNumber(k'.slots, slot) {
      assert HasNumber(k, slot, n) <==> 1 <= n < NextNumber(k.slots, slot);
      if HasNumber(k, slot, n) {
        var o :| o in k.tickets && k.tickets[o].slot == slot && k.tickets[o].number == n;
        assert o in k'.tickets && k'.tickets[o] == k.tickets[o];
      }
      if slot == t.slot && n == t.number {
        assert d.order in k'.tickets && k'.tickets[d.order] == t;
      }
    }
  }

  lemma NumbersAfterPlace(k: Kitchen, d: Placed)
    requires NumbersExact(k) && d.order !in k.tickets && d.order !in k.tombstones && d.event !in k.processed
    ensures NumbersExact(Place(k, d).0)
  {
    hide SlotOf;
    var t := NewTicket(k, d);
    FilledAfterPlace(k, d);
    assert !HasNumber(k, t.slot, t.number);
    hide NumbersFilled;
  }

  lemma NumbersKept(k: Kitchen, k': Kitchen)
    requires NumbersExact(k) && k'.slots == k.slots && k'.tickets.Keys == k.tickets.Keys
    requires forall o | o in k.tickets ::
               k'.tickets[o].slot == k.tickets[o].slot && k'.tickets[o].number == k.tickets[o].number &&
               k'.tickets[o].pickupAt == k.tickets[o].pickupAt
    ensures NumbersExact(k')
  {
    hide SlotOf;
    forall slot: Time, n: nat ensures HasNumber(k', slot, n) <==> HasNumber(k, slot, n) {
      if HasNumber(k, slot, n) {
        var o :| o in k.tickets && k.tickets[o].slot == slot && k.tickets[o].number == n;
        assert o in k'.tickets && k'.tickets[o].slot == slot && k'.tickets[o].number == n;
      }
      if HasNumber(k', slot, n) {
        var o :| o in k'.tickets && k'.tickets[o].slot == slot && k'.tickets[o].number == n;
        assert o in k.tickets && k.tickets[o].slot == slot && k.tickets[o].number == n;
      }
    }
    hide HasNumber;
  }

  lemma PlaceKeepsValid(k: Kitchen, d: Placed)
    requires Valid(k)
    ensures Valid(Place(k, d).0)
  {
    hide SlotOf;
    var k' := Place(k, d).0;
    if d.event !in k.processed && d.order !in k.tombstones && d.order !in k.tickets {
      NumbersAfterPlace(k, d);
      hide NumbersExact;
      forall o: Id ensures StoryTold(k', o) {
        assert StoryTold(k, o);
        StoryAppend(k.history, Change(d.order, None, Queued, Some(d.event)), o);
      }
      forall o: Id ensures NotesMatch(k', o) {
        assert NotesMatch(k, o);
        PlaceNotes(k, d, o);
      }
    } else {
      NumbersKept(k, k');
      hide NumbersExact;
      forall o: Id ensures StoryTold(k', o) && NotesMatch(k', o) {
        assert StoryTold(k, o) && NotesMatch(k, o);
      }
    }
  }

  lemma PlaceNotes(k: Kitchen, d: Placed, o: Id)
    requires NotesMatch(k, o) && d.event !in k.processed && d.order !in k.tombstones && d.order !in k.tickets
    ensures NotesMatch(Place(k, d).0, o)
  {
    hide SlotOf;
    var n := QueuedNote(d.order, d.customer, NewTicket(k, d).number);
    SentAppend(k.outbox, n, o, Queued);
    SentAppend(k.outbox, n, o, Ready);
    SentAppend(k.outbox, n, o, PickedUp);
    assert k.outbox + [] == k.outbox;
  }

  /** One ticket moves legally, with its history entry. */
  lemma StoryMoves(k: Kitchen, k': Kitchen, order: Id, c: Change, o: Id)
    requires StoryTold(k, o) && order in k.tickets && k'.history == k.history + [c] && c.order == order
    requires order in k'.tickets && k'.tickets == k.tickets[order := k'.tickets[order]]
    requires c.from == Some(k.tickets[order].status) && c.to == k'.tickets[order].status && Legal(k.tickets[order].status, c.to)
    ensures StoryTold(k', o)
  {
    StoryAppend(k.history, c, o);
    if o == order {
      PathGrows(Story(k.history, o), k.tickets[order].status, c);
    }
  }

  lemma CancelKeepsValid(k: Kitchen, event: Id, order: Id)
    requires Valid(k)
    ensures Valid(Cancel(k, event, order).0)
  {
    var k' := Cancel(k, event, order).0;
    NumbersKept(k, k');
    hide NumbersExact;
    forall o: Id ensures StoryTold(k', o) {
      assert StoryTold(k, o);
      if event !in k.processed && order in k.tickets && IsCancellable(k.tickets[order].status) {
        StoryMoves(k, k', order, Change(order, Some(k.tickets[order].status), Cancelled, Some(event)), o);
      }
    }
    forall o: Id ensures NotesMatch(k', o) {
      assert NotesMatch(k, o);
    }
  }

  lemma AdvanceKeepsValid(k: Kitchen, order: Id, to: Status, now: Time)
    requires Valid(k)
    ensures Valid(Advance(k, order, to, now).0)
  {
    var k' := Advance(k, order, to, now).0;
    NumbersKept(k, k');
    hide NumbersExact;
    if order in k.tickets && CanTransition(k.tickets[order].status, to) {
      forall o: Id ensures StoryTold(k', o) {
        assert StoryTold(k, o);
        StoryMoves(k, k', order, Change(order, Some(k.tickets[order].status), to, None), o);
      }
      forall o: Id ensures NotesMatch(k', o) {
        assert NotesMatch(k, o);
        AdvanceNotes(k, order, to, now, o);
      }
    }
  }

  lemma AdvanceNotes(k: Kitchen, order: Id, to: Status, now: Time, o: Id)
    requires NotesMatch(k, o) && order in k.tickets && CanTransition(k.tickets[order].status, to)
    ensures NotesMatch(Advance(k, order, to, now).0, o)
  {
    var t := k.tickets[order];
    var n := if to.Ready? then ReadyNote(order, t.customer, t.number) else PickedUpNote(order, now);
    SentAppend(k.outbox, n, o, Queued);
    SentAppend(k.outbox, n, o, Ready);
    SentAppend(k.outbox, n, o, PickedUp);
    assert k.outbox + [] == k.outbox;
  }

  // ----- runs ---------------------------------------------------------------

  /** Deliveries may repeat, overtake each other and interleave with staff updates. */
  datatype Input = PlacedInput(d: Placed) | CancelInput(event: Id, order: Id) | StaffInput(order: Id, to: Status, now: Time)

  ghost function Step(k: Kitchen, i: Input): Kitchen {
    match i
    case PlacedInput(d) => Place(k, d).0
    case CancelInput(event, order) => Cancel(k, event, order).0
    case StaffInput(order, to, now) => Advance(k, order, to, now).0
  }

  ghost function Run(inputs: seq<Input>): Kitchen {
    if inputs == [] then EMPTY_KITCHEN else Step(Run(inputs[..|inputs| - 1]), inputs[|inputs| - 1])
  }

  lemma StepKeepsValid(k: Kitchen, i: Input)
    requires Valid(k)
    ensures Valid(Step(k, i))
  {
    match i
    case PlacedInput(d) => PlaceKeepsValid(k, d);
    case CancelInput(event, order) => CancelKeepsValid(k, event, order);
    case StaffInput(order, to, now) => AdvanceKeepsValid(k, order, to, now);
  }

  /** After any deliveries and updates: no order has both a ticket and a tombstone, queue
      numbers are exact, every ticket's history is a legal path to its status, and each
      event was sent exactly as often as the status says. */
  lemma {:induction false} EveryKitchenValid(inputs: seq<Input>)
    ensures Valid(Run(inputs))
  {
    if inputs == [] {
      EmptyIsValid();
    } else {
      EveryKitchenValid(inputs[..|inputs| - 1]);
      StepKeepsValid(Run(inputs[..|inputs| - 1]), inputs[|inputs| - 1]);
    }
  }

  lemma EmptyIsValid()
    ensures Valid(EMPTY_KITCHEN)
  {
    forall slot: Time, n: nat ensures !HasNumber(EMPTY_KITCHEN, slot, n) {
    }
  }

  /** The order is out of the kitchen's hands. */
  ghost predicate Closed(k: Kitchen, order: Id) {
    order in k.tombstones || (order in k.tickets && !IsCancellable(k.tickets[order].status))
  }

  lemma ClosedStays(k: Kitchen, i: Input, order: Id)
    requires Valid(k) && Closed(k, order)
    ensures Closed(Step(k, i), order)
  {
    hide SlotOf;
  }

  lemma {:induction false} RunMonotone(inputs: seq<Input>, n: nat, order: Id)
    requires n <= |inputs| && Closed(Run(inputs[..n]), order)
    ensures Closed(Run(inputs), order)
    decreases |inputs|
  {
    if n == |inputs| {
      assert inputs[..n] == inputs;
    } else {
      var front := inputs[..|inputs| - 1];
      assert front[..n] == inputs[..n];
      RunMonotone(front, n, order);
      EveryKitchenValid(front);
      ClosedStays(Run(front), inputs[|inputs| - 1], order);
    }
  }

  /** Once a cancellation of the order has been committed, whatever is delivered later,
      its ticket is never again, or for the first time, queued or in preparation. */
  lemma CancellationIsFinal(inputs: seq<Input>, n: nat, event: Id, order: Id)
    requires n < |inputs| && inputs[n] == CancelInput(event, order) && event !in Run(inputs[..n]).processed
    ensures var k := Run(inputs);
            order in k.tickets ==> k.tickets[order].status != Queued && k.tickets[order].status != Preparing
  {
    hide SlotOf;
    assert inputs[..n + 1][..n] == inputs[..n];
    EveryKitchenValid(inputs[..n]);
    RunMonotone(inputs, n + 1, order);
    EveryKitchenValid(inputs);
  }

  /** A redelivered event changes nothing, even right after it created the ticket. */
  lemma RedeliveryIsIdle(k: Kitchen, d: Placed, event: Id, order: Id)
    ensures Place(Place(k, d).0, d) == (Place(k, d).0, false)
    ensures Cancel(Cancel(k, event, order).0, event, order) == (Cancel(k, event, order).0, false)
  {
    hide SlotOf;
  }

  /** Three updates in a row take every queued ticket through the kitchen to its customer. */
  lemma KitchenFinishes(k: Kitchen, order: Id, t1: Time, t2: Time, t3: Time)
    requires order in k.tickets && k.tickets[order].status == Queued
    ensures var k1, r1 := Advance(k, order, Preparing, t1).0, Advance(k, order, Preparing, t1).1;
            var k2, r2 := Advance(k1, order, Ready, t2).0, Advance(k1, order, Ready, t2).1;
            var k3, r3 := Advance(k2, order, PickedUp, t3).0, Advance(k2, order, PickedUp, t3).1;
            r1.Ok? && r2.Ok? && r3.Ok? && order in k3.tickets &&
            k3.tickets[order] == k.tickets[order].(status := PickedUp, pickedUpAt := Some(t3)) &&
            k3.outbox == k.outbox + [ReadyNote(order, k.tickets[order].customer, k.tickets[order].number)] + [PickedUpNote(order, t3)]
  {
    assert k.outbox + [] == k.outbox;
  }
}
