/** What the replay read yields: the ring buffers of the user and of the role keep the last
    notifications buffered for each, and ReplayFor merges what has not expired. */
module Replay {
  import opened Ordering
  import opened InventoryModel
  import opened Notification

  // ----- what the two rings retain ------------------------------------------

  function Notes(s: seq<Sent>): (r: seq<Note>)
    ensures |r| == |s| && forall i | 0 <= i < |s| :: r[i] == s[i].item
  {
    seq(|s|, i requires 0 <= i < |s| => s[i].item)
  }

  function Tagged(s: seq<Note>, toRole: bool): (r: seq<Sent>)
    ensures |r| == |s| && forall i | 0 <= i < |s| :: r[i] == Sent(s[i], toRole)
  {
    seq(|s|, i requires 0 <= i < |s| => Sent(s[i], toRole))
  }

  /** The unexpired items of one ring after everything in `log` was buffered: a ring holds
      the last `room` items added to it. */
  ghost function Ring(log: seq<Sent>, toRole: bool, room: nat, now: Time, ttl: nat): seq<Sent> {
    Tagged(Fresh(Last(Notes(Part(log, toRole)), room), now, ttl), toRole)
  }

  /** ReplayFor without an event id. */
  ghost function ReadOut(log: seq<Sent>, room: nat, now: Time, ttl: nat): seq<Sent> {
    Merged(Ring(log, false, room, now, ttl), Ring(log, true, room, now, ttl))
  }

  function Drop<T>(s: seq<T>, m: nat): seq<T> {
    if m <= |s| then s[m..] else []
  }

  ghost predicate Aging(s: seq<Note>) {
    forall i, j | 0 <= i < j < |s| :: s[i].addedAt <= s[j].addedAt
  }

  /** As items age in order, what has expired is a prefix. */
  lemma {:induction false} FreshIsSuffix(s: seq<Note>, now: Time, ttl: nat) returns (m: nat)
    requires Aging(s)
    ensures m <= |s| && Fresh(s, now, ttl) == s[m..]
  {
    if s == [] {
      m := 0;
    } else {
      var front, x := s[..|s| - 1], s[|s| - 1];
      m := FreshIsSuffix(front, now, ttl);
      if now - x.addedAt <= ttl {
        assert front[m..] + [x] == s[m..];
      } else {
        AllExpired(front, now, ttl, x);
        m := |s|;
      }
    }
  }

  lemma {:induction false} AllExpired(s: seq<Note>, now: Time, ttl: nat, x: Note)
    requires now - x.addedAt > ttl && forall i | 0 <= i < |s| :: s[i].addedAt <= x.addedAt
    ensures Fresh(s, now, ttl) == []
  {
    if s != [] {
      AllExpired(s[..|s| - 1], now, ttl, x);
    }
  }

  lemma {:induction false} PartInTime(log: seq<Sent>, toRole: bool)
    requires InTime(log)
    ensures InTime(Part(log, toRole))
  {
    if log != [] {
      var front, x := log[..|log| - 1], log[|log| - 1];
      PartInTime(front, toRole);
      PartStep(log, toRole);
      forall y | y in Part(front, toRole) ensures y.item.addedAt <= x.item.addedAt {
        PartFrom(front, toRole, y);
        var i :| 0 <= i < |front| && front[i] == y;
      }
      hide Part;
      var p := Part(front, toRole);
      assert forall i | 0 <= i < |p| :: p[i] in p;
    }
  }

  /** Each ring retains the latest of its notifications, from some point on. */
  lemma RingIsSuffix(log: seq<Sent>, toRole: bool, room: nat, now: Time, ttl: nat) returns (m: nat)
    requires InTime(log)
    ensures Ring(log, toRole, room, now, ttl) == Drop(Part(log, toRole), m)
  {
    var part := Part(log, toRole);
    PartInTime(log, toRole);
    forall i | 0 <= i < |part| ensures part[i].toRole == toRole {
      PartFrom(log, toRole, part[i]);
    }
    hide Part;
    m := SuffixOf(part, toRole, room, now, ttl);
  }

  lemma SuffixOf(part: seq<Sent>, toRole: bool, room: nat, now: Time, ttl: nat) returns (m: nat)
    requires InTime(part) && forall i | 0 <= i < |part| :: part[i].toRole == toRole
    ensures Tagged(Fresh(Last(Notes(part), room), now, ttl), toRole) == Drop(part, m)
  {
    hide Fresh;
    var skip := if |part| <= room then 0 else |part| - room;
    assert Last(Notes(part), room) == Notes(part)[skip..];
    var k := FreshIsSuffix(Last(Notes(part), room), now, ttl);
    m := skip + k;
    assert Notes(part)[skip..][k..] == Notes(part)[m..];
    hide Last;
    assert Tagged(Notes(part)[m..], toRole) == part[m..];
  }

  // ----- the retained log ---------------------------------------------------

  /** The log without the first `a` personal and the first `b` broadcast notifications. */
  ghost function Retained(log: seq<Sent>, a: nat, b: nat): seq<Sent> {
    if log == [] then [] else
    var front, x := log[..|log| - 1], log[|log| - 1];
    var seen := |Part(front, x.toRole)|;
    Retained(front, a, b) + if seen >= (if x.toRole then b else a) then [x] else []
  }

  lemma DropPush<T>(s: seq<T>, x: T, m: nat)
    ensures |s| >= m ==> Drop(s + [x], m) == Drop(s, m) + [x]
    ensures |s| < m ==> Drop(s + [x], m) == Drop(s, m)
  {
  }

  lemma RetainedStep(log: seq<Sent>, a: nat, b: nat)
    requires log != []
    ensures var front, x := log[..|log| - 1], log[|log| - 1];
            Retained(log, a, b) == if |Part(front, x.toRole)| >= (if x.toRole then b else a)
                                   then Retained(front, a, b) + [x] else Retained(front, a, b)
  {
  }

  lemma {:induction false} RetainedParts(log: seq<Sent>, a: nat, b: nat, toRole: bool)
    ensures Part(Retained(log, a, b), toRole) == Drop(Part(log, toRole), if toRole then b else a)
  {
    if log != [] {
      var front, x := log[..|log| - 1], log[|log| - 1];
      var kept := Retained(front, a, b);
      RetainedParts(front, a, b, toRole);
      PartStep(log, toRole);
      RetainedStep(log, a, b);
      hide Part, Retained, Drop;
      DropPush(Part(front, toRole), x, if toRole then b else a);
      assert (kept + [x])[..|kept|] == kept;
      PartStep(kept + [x], toRole);
    }
  }

  /** Numbered in the order of publication. */
  ghost predicate Numbered(log: seq<Sent>) {
    forall i | 0 <= i < |log| :: log[i].item.id == i + 1
  }

  ghost predicate RisingIds(s: seq<Sent>) {
    forall i, j | 0 <= i < j < |s| :: s[i].item.id < s[j].item.id
  }

  lemma {:induction false} RetainedFrom(log: seq<Sent>, a: nat, b: nat, y: Sent)
    requires y in Retained(log, a, b)
    ensures y in log
  {
    var front, x := log[..|log| - 1], log[|log| - 1];
    if y in Retained(front, a, b) {
      RetainedFrom(front, a, b, y);
      assert log == front + [x];
    }
  }

  lemma {:induction false} RetainedOrdered(log: seq<Sent>, a: nat, b: nat)
    requires Numbered(log) && InTime(log)
    ensures RisingIds(Retained(log, a, b)) && InTime(Retained(log, a, b))
  {
    if log != [] {
      var front, x := log[..|log| - 1], log[|log| - 1];
      RetainedOrdered(front, a, b);
      var kept := Retained(front, a, b);
      forall i | 0 <= i < |kept| ensures kept[i].item.id < x.item.id && kept[i].item.addedAt <= x.item.addedAt {
        RetainedFrom(front, a, b, kept[i]);
        var j :| 0 <= j < |front| && front[j] == kept[i];
      }
    }
  }

  // ----- the merge repeats nothing ------------------------------------------

  ghost predicate Apart(s: seq<Sent>) {
    forall i, j | 0 <= i < j < |s| :: s[i].item.id != s[j].item.id
  }

  ghost predicate NewTo(s: seq<Sent>, x: Sent) {
    forall i | 0 <= i < |s| :: s[i].item.id != x.item.id
  }

  lemma {:induction false} PlaceApart(s: seq<Sent>, x: Sent)
    requires Apart(s) && NewTo(s, x)
    ensures Apart(Place(s, x))
  {
    if s != [] && s[|s| - 1].item.addedAt > x.item.addedAt {
      var front, y := s[..|s| - 1], s[|s| - 1];
      PlaceApart(front, x);
      var r := Place(front, x);
      forall i | 0 <= i < |r| ensures r[i].item.id != y.item.id {
        PlaceHas(front, x, r[i]);
        if r[i] in front {
          var j :| 0 <= j < |front| && front[j] == r[i];
        }
      }
      hide Place;
    }
  }

  lemma {:induction false} PlaceAllApart(s: seq<Sent>, xs: seq<Sent>)
    requires Apart(s) && Apart(xs) && forall x | x in xs :: NewTo(s, x)
    ensures Apart(PlaceAll(s, xs))
    decreases |xs|
  {
    if xs != [] {
      var front, x := xs[..|xs| - 1], xs[|xs| - 1];
      assert xs == front + [x];
      PlaceAllApart(s, front);
      var r := PlaceAll(s, front);
      forall i | 0 <= i < |r| ensures r[i].item.id != x.item.id {
        PlaceAllHas(s, front, r[i]);
        if r[i] in s {
          var j :| 0 <= j < |s| && s[j] == r[i];
          assert NewTo(s, x);
        } else {
          var j :| 0 <= j < |front| && front[j] == r[i];
        }
      }
      PlaceApart(r, x);
    }
  }

  lemma {:induction false} PartApart(log: seq<Sent>, toRole: bool)
    requires RisingIds(log)
    ensures Apart(Part(log, toRole))
  {
    if log != [] {
      var front, x := log[..|log| - 1], log[|log| - 1];
      PartApart(front, toRole);
      PartStep(log, toRole);
      var p := Part(front, toRole);
      forall i | 0 <= i < |p| ensures p[i].item.id != x.item.id {
        PartFrom(front, toRole, p[i]);
        var j :| 0 <= j < |front| && front[j] == p[i];
      }
      hide Part;
    }
  }

  lemma SameId(log: seq<Sent>, x: Sent, y: Sent)
    requires RisingIds(log) && x in log && y in log && x.item.id == y.item.id
    ensures x == y
  {
    var i :| 0 <= i < |log| && log[i] == x;
    var j :| 0 <= j < |log| && log[j] == y;
  }

  /** The merge holds exactly the retained notifications, each once. */
  lemma MergeIsExact(kept: seq<Sent>)
    requires RisingIds(kept)
    ensures Apart(Merged(Part(kept, false), Part(kept, true)))
    ensures forall y :: y in Merged(Part(kept, false), Part(kept, true)) <==> y in kept
  {
    var user, role := Part(kept, false), Part(kept, true);
    var first := PlaceAll([], user);
    PartApart(kept, false);
    PartApart(kept, true);
    PlaceAllApart([], user);
    forall x | x in role ensures NewTo(first, x) {
      forall i | 0 <= i < |first| ensures first[i].item.id != x.item.id {
        PlaceAllHas([], user, first[i]);
        PartFrom(kept, false, first[i]);
        PartFrom(kept, true, x);
        if first[i].item.id == x.item.id {
          SameId(kept, first[i], x);
        }
      }
    }
    PlaceAllApart(first, role);
    forall y ensures y in Merged(user, role) <==> y in kept {
      PlaceAllHas([], user, y);
      PlaceAllHas(first, role, y);
      PartFrom(kept, false, y);
      PartFrom(kept, true, y);
    }
  }

  lemma {:induction false} OneRisingOrder(a: seq<Sent>, b: seq<Sent>)
    requires RisingIds(a) && RisingIds(b) && forall y :: y in a <==> y in b
    ensures a == b
    decreases |a|
  {
    EmptyAlike(a, b);
    if a != [] {
      LastsAgree(a, b);
      var x := a[|a| - 1];
      var fa, fb := a[..|a| - 1], b[..|b| - 1];
      assert a == fa + [x] && b == fb + [x];
      forall y ensures y in fa <==> y in fb {
        assert y in a <==> y in b;
      }
      OneRisingOrder(fa, fb);
    }
  }

  lemma EmptyAlike(a: seq<Sent>, b: seq<Sent>)
    requires forall y :: y in a <==> y in b
    ensures a == [] <==> b == []
  {
    assert a != [] ==> a[0] in a;
    assert b != [] ==> b[0] in b;
  }

  lemma LastsAgree(a: seq<Sent>, b: seq<Sent>)
    requires a != [] && b != [] && RisingIds(a) && RisingIds(b) && forall y :: y in a <==> y in b
    ensures a[|a| - 1] == b[|b| - 1] && a[|a| - 1] !in a[..|a| - 1] && b[|b| - 1] !in b[..|b| - 1]
  {
    var x, y := a[|a| - 1], b[|b| - 1];
    assert x in b && y in a;
    var i :| 0 <= i < |b| && b[i] == x;
    var j :| 0 <= j < |a| && a[j] == y;
  }

  // ----- the read-out -------------------------------------------------------

  /** What is read out is what the two rings retain, each once; it is in the order of
      publication exactly when no retained broadcast shares its instant with a later
      retained personal notification. */
  lemma ReadOutIsExact(log: seq<Sent>, room: nat, now: Time, ttl: nat) returns (kept: seq<Sent>)
    requires Numbered(log) && InTime(log)
    ensures var out := ReadOut(log, room, now, ttl);
            RisingIds(kept) && Apart(out) && (forall y :: y in out <==> y in kept) && (forall y | y in kept :: y in log) &&
            (forall y :: y in out <==> y in Ring(log, false, room, now, ttl) || y in Ring(log, true, room, now, ttl)) &&
            (RisingIds(out) <==> NoTieInverted(kept))
  {
    var out := ReadOut(log, room, now, ttl);
    var a := RingIsSuffix(log, false, room, now, ttl);
    var b := RingIsSuffix(log, true, room, now, ttl);
    kept := Retained(log, a, b);
    RetainedParts(log, a, b, false);
    RetainedParts(log, a, b, true);
    RetainedOrdered(log, a, b);
    var user, role := Part(kept, false), Part(kept, true);
    assert out == Merged(user, role);
    hide Ring, Retained, Part, Merged;
    MergeIsExact(kept);
    ReplayOrderIff(kept);
    forall y ensures y in out <==> y in user || y in role {
      PartFrom(kept, false, y);
      PartFrom(kept, true, y);
    }
    forall y | y in kept ensures y in log {
      RetainedFrom(log, a, b, y);
    }
    if RisingIds(out) {
      OneRisingOrder(out, kept);
    }
  }
}
