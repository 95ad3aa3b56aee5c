/** The replay buffer of the notification stream and the hand-off from replay to live
    events of one connection, as used with `Last-Event-ID` (section 9.2.4 of the WHATWG
    HTML Living Standard). */
module Notification {
  import opened Ordering
  import opened InventoryModel

  datatype Note = Note(id: Id, addedAt: Time)

  // ----- the ring buffer ----------------------------------------------------

  /** The last `n` elements. */
  function Last(s: seq<Note>, n: nat): seq<Note> {
    if |s| <= n then s else s[|s| - n..]
  }

  /** The slot of the i-th oldest of `n` items. */
  function SlotOf(head: nat, i: nat, n: nat): (slot: nat)
    requires head < n && i < n
    ensures slot < n
  {
    if head + i < n then head + i else head + i - n
  }

  lemma SlotIsModulo(head: nat, i: nat, n: nat)
    requires head < n && i < n
    ensures SlotOf(head, i, n) == (head + i) % n
  {
    if head + i < n {
      SmallModulo(head + i, n);
    } else {
      WrapModulo(head + i, n);
    }
  }

  lemma SmallModulo(a: nat, n: nat)
    requires a < n
    ensures a % n == a
  {
  }

  lemma WrapModulo(a: nat, n: nat)
    requires n <= a < 2 * n
    ensures a % n == a - n
  {
    assert a == n * 1 + (a - n);
  }

  /** The slots in chronological order. */
  function Unrolled(items: seq<Note>, head: nat): seq<Note> {
    if head >= |items| then [] else items[head..] + items[..head]
  }

  lemma UnrolledAt(items: seq<Note>, head: nat, i: nat)
    requires head < |items| && i < |items|
    ensures |Unrolled(items, head)| == |items| && Unrolled(items, head)[i] == items[(head + i) % |items|]
  {
    SlotIsModulo(head, i, |items|);
  }

  /** Overwriting the oldest slot and moving the head drops the oldest item. */
  lemma Overwrite(items: seq<Note>, head: nat, it: Note)
    requires head < |items|
    ensures Unrolled(items[head := it], (head + 1) % |items|) == Unrolled(items, head)[1..] + [it]
  {
    NextHead(head, |items|);
    if head + 1 == |items| {
      assert items[head..] == [items[head]];
      assert items[head := it] == items[..head] + [it];
    } else {
      assert items[head := it][head + 1..] == items[head + 1..];
      assert items[head := it][..head + 1] == items[..head] + [it];
    }
  }

  lemma PushKeepsLast(items: seq<Note>, head: nat, it: Note, cap: nat)
    requires 0 < cap && |items| <= cap && (items != [] ==> head < |items|) && (|items| < cap ==> head == 0)
    ensures |items| < cap ==> Unrolled(items + [it], 0) == Last(Unrolled(items, head) + [it], cap)
    ensures |items| == cap ==> Unrolled(items[head := it], (head + 1) % cap) == Last(Unrolled(items, head) + [it], cap)
  {
    if |items| == cap {
      Overwrite(items, head, it);
    }
  }

  lemma InUnrolled(items: seq<Note>, head: nat, it: Note)
    requires head < |items|
    ensures it in Unrolled(items, head) <==> it in items
  {
    assert items == items[..head] + items[head..];
  }

  class RingBuffer {
    var items: seq<Note>
    var head: nat
    const cap: nat
    ghost var accepted: seq<Note>

    ghost predicate Valid()
      reads this
    {
      cap > 0 && |items| <= cap && (items != [] ==> head < |items|) && (|items| < cap ==> head == 0) &&
      Contents() == Last(accepted, cap)
    }

    ghost function Contents(): seq<Note>
      reads this
    {
      Unrolled(items, head)
    }

    constructor (capacity: int)
      ensures Valid() && accepted == [] && cap == if capacity <= 0 then 500 else capacity
    {
      items, head, accepted := [], 0, [];
      cap := if capacity <= 0 then 500 else capacity;
    }

    /** The buffer always holds exactly the last `cap` accepted items, oldest first. */
    method Add(it: Note)
      requires Valid()
      modifies this
      ensures Valid() && accepted == old(accepted) + [it]
      ensures Contents() == Last(old(Contents()) + [it], cap)
    {
      hide Unrolled, Last;
      LastPush(accepted, it, cap);
      PushKeepsLast(items, head, it, cap);
      accepted := accepted + [it];
      if |items| < cap {
        items := items + [it];
      } else {
        NextHead(head, cap);
        items := items[head := it];
        head := (head + 1) % cap;
      }
    }

    method At(i: nat) returns (it: Note)
      requires Valid() && i < |items|
      ensures it == Contents()[i]
    {
      UnrolledAt(items, head, i);
      it := items[(head + i) % |items|];
    }

    method Contains(id: Id) returns (found: bool)
      requires Valid()
      ensures found <==> exists it :: it in Contents() && it.id == id
    {
      var i := 0;
      while i < |items|
        invariant 0 <= i <= |items|
        invariant forall j | 0 <= j < i :: items[j].id != id
      {
        if items[i].id == id {
          InUnrolled(items, head, items[i]);
          return true;
        }
        i := i + 1;
      }
      if items != [] {
        forall it ensures it in Contents() <==> it in items {
          InUnrolled(items, head, it);
        }
      }
      return false;
    }

    /** The items not older than `ttl`, oldest first. */
    method ValidItems(now: Time, ttl: nat) returns (out: seq<Note>)
      requires Valid()
      ensures forall it :: it in out <==> it in Contents() && now <= it.addedAt + ttl
      ensures out == Fresh(Contents(), now, ttl)
    {
      out := [];
      var i := 0;
      ghost var all := Contents();
      while i < |items|
        invariant 0 <= i <= |items| == |all|
        invariant out == Fresh(all[..i], now, ttl)
      {
        var it := At(i);
        FreshAppend(all[..i], it, now, ttl);
        assert all[..i + 1] == all[..i] + [it];
        if now - it.addedAt <= ttl {
          out := out + [it];
        }
        i := i + 1;
      }
      assert all[..i] == all;
      forall it ensures it in out <==> it in all && now <= it.addedAt + ttl {
        FreshHas(all, it, now, ttl);
      }
    }
  }

  lemma NextHead(head: nat, cap: nat)
    requires head < cap
    ensures (head + 1) % cap == if head + 1 == cap then 0 else head + 1
  {
    if head + 1 < cap {
      SmallModulo(head + 1, cap);
    }
  }

  lemma LastPush(accepted: seq<Note>, it: Note, cap: nat)
    requires cap > 0
    ensures Last(accepted + [it], cap) == Last(Last(accepted, cap) + [it], cap)
  {
  }

  function Fresh(items: seq<Note>, now: Time, ttl: nat): seq<Note> {
    if items == [] then [] else
    var last := items[|items| - 1];
    Fresh(items[..|items| - 1], now, ttl) + if now - last.addedAt <= ttl then [last] else []
  }

  lemma {:induction false} FreshHas(items: seq<Note>, it: Note, now: Time, ttl: nat)
    ensures it in Fresh(items, now, ttl) <==> it in items && now <= it.addedAt + ttl
  {
    if items != [] {
      var front, last := items[..|items| - 1], items[|items| - 1];
      assert items == front + [last];
      FreshHas(front, it, now, ttl);
    }
  }

  lemma FreshAppend(items: seq<Note>, it: Note, now: Time, ttl: nat)
    ensures Fresh(items + [it], now, ttl) == Fresh(items, now, ttl) + if now - it.addedAt <= ttl then [it] else []
  {
    assert (items + [it])[..|items|] == items;
  }

  // ----- merging the user's and the role's notifications --------------------

  /** A buffered notification, for the user or broadcast to the user's role. */
  datatype Sent = Sent(item: Note, toRole: bool)

  /** One insertion of a stable sort by time: after everything not younger. */
  function Place(s: seq<Sent>, x: Sent): seq<Sent> {
    if s == [] || s[|s| - 1].item.addedAt <= x.item.addedAt then s + [x]
    else Place(s[..|s| - 1], x) + [s[|s| - 1]]
  }

  function PlaceAll(s: seq<Sent>, xs: seq<Sent>): seq<Sent>
    decreases |xs|
  {
    if xs == [] then s else Place(PlaceAll(s, xs[..|xs| - 1]), xs[|xs| - 1])
  }

  /** What ReplayFor merges: the user's items, then the role's, sorted stably by time. */
  function Merged(user: seq<Sent>, role: seq<Sent>): seq<Sent> {
    PlaceAll(PlaceAll([], user), role)
  }

  /** What follows the last event the client has seen, or everything. */
  function AfterEvent(all: seq<Sent>, last: Id): seq<Sent> {
    if last == NIL then all else CutAfter(all, all, last)
  }

  function CutAfter(rest: seq<Sent>, all: seq<Sent>, last: Id): seq<Sent>
    decreases |rest|
  {
    if rest == [] then all else if rest[0].item.id == last then rest[1..] else CutAfter(rest[1..], all, last)
  }

  /** Only what came after the first event with that id, if the buffer still has it. */
  lemma {:induction false} CutAt(rest: seq<Sent>, all: seq<Sent>, last: Id, i: nat)
    requires i < |rest| && rest[i].item.id == last && forall j | 0 <= j < i :: rest[j].item.id != last
    ensures CutAfter(rest, all, last) == rest[i + 1..]
    decreases |rest|
  {
    if i > 0 {
      forall j | 0 <= j < i - 1 ensures rest[1..][j].item.id != last {
        assert rest[1..][j] == rest[j + 1];
      }
      CutAt(rest[1..], all, last, i - 1);
      assert rest[1..][i..] == rest[i + 1..];
    }
  }

  /** And everything if it has not. */
  lemma {:induction false} CutNowhere(rest: seq<Sent>, all: seq<Sent>, last: Id)
    requires forall j | 0 <= j < |rest| :: rest[j].item.id != last
    ensures CutAfter(rest, all, last) == all
    decreases |rest|
  {
    if rest != [] {
      CutNowhere(rest[1..], all, last);
    }
  }

  ghost predicate FirstAt(all: seq<Sent>, last: Id, i: nat)
    requires i < |all|
  {
    all[i].item.id == last && forall j | 0 <= j < i :: all[j].item.id != last
  }

  /** The search loop for Last-Event-ID. */
  method FindAfter(all: seq<Sent>, last: Id) returns (out: seq<Sent>)
    ensures last == NIL || (forall i | 0 <= i < |all| :: all[i].item.id != last) ==> out == all
    ensures last != NIL ==> forall i | 0 <= i < |all| && FirstAt(all, last, i) :: out == all[i + 1..]
    ensures out == AfterEvent(all, last)
  {
    if last == NIL { return all; }
    assert all[0..] == all;
    if forall i | 0 <= i < |all| :: all[i].item.id != last {
      CutNowhere(all, all, last);
    }
    forall i: nat | i < |all| && FirstAt(all, last, i) ensures CutAfter(all, all, last) == all[i + 1..] {
      CutAt(all, all, last, i);
    }
    var i := 0;
    while i < |all|
      invariant 0 <= i <= |all|
      invariant CutAfter(all[i..], all, last) == CutAfter(all, all, last)
    {
      assert all[i..][1..] == all[i + 1..];
      if all[i].item.id == last { return all[i + 1..]; }
      i := i + 1;
    }
    return all;
  }

  ghost function Part(log: seq<Sent>, toRole: bool): seq<Sent> {
    if log == [] then [] else
    var x := log[|log| - 1];
    Part(log[..|log| - 1], toRole) + if x.toRole == toRole then [x] else []
  }

  ghost predicate InTime(log: seq<Sent>) {
    forall i, j | 0 <= i < j < |log| :: log[i].item.addedAt <= log[j].item.addedAt
  }

  /** No broadcast is followed by a personal notification buffered at the same instant. */
  ghost predicate NoTieInverted(log: seq<Sent>) {
    forall i, j | 0 <= i < j < |log| && log[i].toRole && !log[j].toRole :: log[i].item.addedAt < log[j].item.addedAt
  }

  lemma {:induction false} PushThrough(s: seq<Sent>, x: Sent, xs: seq<Sent>)
    requires forall r | r in xs :: r.item.addedAt < x.item.addedAt
    ensures PlaceAll(s + [x], xs) == PlaceAll(s, xs) + [x]
    decreases |xs|
  {
    if xs != [] {
      var front, r := xs[..|xs| - 1], xs[|xs| - 1];
      PushThrough(s, x, front);
      var t := PlaceAll(s, front);
      assert (t + [x])[..|t|] == t;
    }
  }

  lemma {:induction false} PartFrom(log: seq<Sent>, toRole: bool, x: Sent)
    ensures x in Part(log, toRole) <==> x in log && x.toRole == toRole
  {
    if log != [] {
      assert log == log[..|log| - 1] + [log[|log| - 1]];
      PartFrom(log[..|log| - 1], toRole, x);
    }
  }

  lemma {:induction false} PlaceInTime(s: seq<Sent>, x: Sent) returns (k: nat)
    requires InTime(s)
    ensures k <= |s| && Place(s, x) == s[..k] + [x] + s[k..]
    ensures forall i | 0 <= i < k :: s[i].item.addedAt <= x.item.addedAt
    ensures forall i | k <= i < |s| :: x.item.addedAt < s[i].item.addedAt
    decreases |s|
  {
    if s == [] || s[|s| - 1].item.addedAt <= x.item.addedAt {
      k := |s|;
    } else {
      var front, y := s[..|s| - 1], s[|s| - 1];
      k := PlaceInTime(front, x);
      assert s == front + [y];
      assert Place(s, x) == front[..k] + [x] + front[k..] + [y];
      hide Place;
      assert front[k..] + [y] == s[k..] && front[..k] == s[..k];
    }
  }

  /** What a stable merge yields: in time order, personal before broadcast on a tie. */
  ghost predicate PersonalFirst(s: seq<Sent>) {
    InTime(s) && NoTieInverted(s)
  }

  lemma PlaceKeepsPersonalFirst(s: seq<Sent>, x: Sent)
    requires PersonalFirst(s) && (x.toRole || forall y | y in s :: !y.toRole)
    ensures PersonalFirst(Place(s, x))
  {
    var k := PlaceInTime(s, x);
    var r := s[..k] + [x] + s[k..];
    forall i, j | 0 <= i < j < |r| ensures r[i].item.addedAt <= r[j].item.addedAt && (r[i].toRole && !r[j].toRole ==> r[i].item.addedAt < r[j].item.addedAt) {
      assert r[i] == (if i < k then s[i] else if i == k then x else s[i - 1]);
      assert r[j] == (if j < k then s[j] else if j == k then x else s[j - 1]);
      assert i < k ==> s[i] in s;
    }
  }

  lemma {:induction false} PlaceHas(s: seq<Sent>, x: Sent, y: Sent)
    ensures y in Place(s, x) <==> y in s || y == x
  {
    if s != [] && s[|s| - 1].item.addedAt > x.item.addedAt {
      var front, z := s[..|s| - 1], s[|s| - 1];
      assert s == front + [z];
      PlaceHas(front, x, y);
    }
  }

  lemma {:induction false} PlaceAllHas(s: seq<Sent>, xs: seq<Sent>, y: Sent)
    ensures y in PlaceAll(s, xs) <==> y in s || y in xs
    decreases |xs|
  {
    if xs != [] {
      var front, x := xs[..|xs| - 1], xs[|xs| - 1];
      assert xs == front + [x];
      PlaceAllHas(s, front, y);
      PlaceHas(PlaceAll(s, front), x, y);
    }
  }

  lemma {:induction false} PlaceAllPersonalFirst(s: seq<Sent>, xs: seq<Sent>)
    requires PersonalFirst(s)
    requires (forall x | x in xs :: x.toRole) || ((forall x | x in xs :: !x.toRole) && forall y | y in s :: !y.toRole)
    ensures PersonalFirst(PlaceAll(s, xs))
    decreases |xs|
  {
    if xs != [] {
      hide PersonalFirst, Place;
      var front, x := xs[..|xs| - 1], xs[|xs| - 1];
      assert forall y | y in front :: y in xs;
      PlaceAllPersonalFirst(s, front);
      forall y | y in PlaceAll(s, front) ensures y in s || y in front {
        PlaceAllHas(s, front, y);
      }
      PlaceKeepsPersonalFirst(PlaceAll(s, front), x);
    }
  }

  lemma PartStep(log: seq<Sent>, toRole: bool)
    requires log != []
    ensures var front, x := log[..|log| - 1], log[|log| - 1];
            Part(log, toRole) == if x.toRole == toRole then Part(front, toRole) + [x] else Part(front, toRole)
  {
  }

  lemma PlaceAllStep(s: seq<Sent>, xs: seq<Sent>, x: Sent)
    ensures PlaceAll(s, xs + [x]) == Place(PlaceAll(s, xs), x)
  {
    assert (xs + [x])[..|xs|] == xs;
  }

  lemma {:induction false} MergeRestores(log: seq<Sent>)
    requires InTime(log) && NoTieInverted(log)
    ensures Merged(Part(log, false), Part(log, true)) == log
  {
    if log != [] {
      hide Part, Place, PlaceAll, InTime, NoTieInverted;
      var front, x := log[..|log| - 1], log[|log| - 1];
      FrontOrdered(log);
      MergeRestores(front);
      PartStep(log, false);
      PartStep(log, true);
      MergeStep(front, x, log);
    }
  }

  lemma FrontOrdered(log: seq<Sent>)
    requires log != [] && InTime(log) && NoTieInverted(log)
    ensures var front, x := log[..|log| - 1], log[|log| - 1];
            log == front + [x] && InTime(front) && NoTieInverted(front) && NotYounger(front, x)
  {
  }

  ghost predicate NotYounger(front: seq<Sent>, x: Sent) {
    forall i | 0 <= i < |front| :: front[i].item.addedAt <= x.item.addedAt
  }

  lemma MergeStep(front: seq<Sent>, x: Sent, log: seq<Sent>)
    requires log == front + [x] && NoTieInverted(log) && InTime(front) && NotYounger(front, x)
    requires Merged(Part(front, false), Part(front, true)) == front
    ensures x.toRole ==> Merged(Part(front, false), Part(front, true) + [x]) == log
    ensures !x.toRole ==> Merged(Part(front, false) + [x], Part(front, true)) == log
  {
    hide Part, Place, PlaceAll, InTime, NoTieInverted, NotYounger;
    var user, role := Part(front, false), Part(front, true);
    if x.toRole {
      PlaceAllStep(PlaceAll([], user), role, x);
      PlaceAtEnd(front, x);
    } else {
      RoleEarlier(front, x, log);
      UserInOrder(front);
      PlaceLast(front, x);
      PlaceAllStep([], user, x);
      PushThrough(user, x, role);
    }
  }

  lemma PlaceAtEnd(front: seq<Sent>, x: Sent)
    requires NotYounger(front, x)
    ensures Place(front, x) == front + [x]
  {
  }

  lemma RoleEarlier(front: seq<Sent>, x: Sent, log: seq<Sent>)
    requires log == front + [x] && NoTieInverted(log) && !x.toRole
    ensures forall r | r in Part(front, true) :: r.item.addedAt < x.item.addedAt
  {
    forall r | r in Part(front, true) ensures r.item.addedAt < x.item.addedAt {
      PartFrom(front, true, r);
      var i :| 0 <= i < |front| && front[i] == r;
      assert log[i] == r && log[|front|] == x;
    }
  }

  lemma {:induction false} UserInOrder(log: seq<Sent>)
    requires InTime(log)
    ensures PlaceAll([], Part(log, false)) == Part(log, false)
  {
    if log != [] {
      var front, x := log[..|log| - 1], log[|log| - 1];
      UserInOrder(front);
      PartStep(log, false);
      if !x.toRole {
        PlaceAllStep([], Part(front, false), x);
        PlaceLast(front, x);
      }
    }
  }

  lemma PlaceLast(front: seq<Sent>, x: Sent)
    requires NotYounger(front, x)
    ensures Place(Part(front, false), x) == Part(front, false) + [x]
  {
    var user := Part(front, false);
    if user != [] {
      PartFrom(front, false, user[|user| - 1]);
    }
  }

  /** Replay shows both kinds in the order they were dispatched exactly when no broadcast
      shares its instant with a later personal notification. */
  lemma ReplayOrderIff(log: seq<Sent>)
    requires InTime(log)
    ensures Merged(Part(log, false), Part(log, true)) == log <==> NoTieInverted(log)
  {
    var user, role := Part(log, false), Part(log, true);
    if NoTieInverted(log) {
      MergeRestores(log);
    } else {
      forall x ensures x in user ==> !x.toRole {
        PartFrom(log, false, x);
      }
      forall x ensures x in role ==> x.toRole {
        PartFrom(log, true, x);
      }
      PlaceAllPersonalFirst([], user);
      forall y | y in PlaceAll([], user) ensures y in user {
        PlaceAllHas([], user, y);
      }
      PlaceAllPersonalFirst(PlaceAll([], user), role);
    }
  }

  /** Such a tie does reorder what the client sees. */
  lemma TieReorders(a: Id, b: Id, t: Time)
    ensures var log := [Sent(Note(a, t), true), Sent(Note(b, t), false)];
            InTime(log) && Merged(Part(log, false), Part(log, true)) != log
  {
    var log := [Sent(Note(a, t), true), Sent(Note(b, t), false)];
    assert InTime(log) && log[0].toRole && !log[1].toRole;
    ReplayOrderIff(log);
  }
}
