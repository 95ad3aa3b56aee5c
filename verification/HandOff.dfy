/** The hand-off from replay to live events of one notification stream. The connection
    subscribes first, then reads the replay buffers, then drains its channel, while one
    publisher buffers each notification before it offers it, giving up the oldest of a full
    channel in a step of its own. Notifications are numbered from 1 in the order they are
    published; the publisher skips event ids it has seen. */
module HandOff {
  import opened Ordering
  import opened InventoryModel
  import opened Notification
  import opened Replay

  /** Where the publisher is with the notification it offers: about to send, about to make
      room because the channel was full, or about to send once more. */
  datatype Phase = FirstSend | MakeRoom | SecondSend

  /** `log` is what the publisher has buffered and `offered` how much of it it has offered;
      `from` is what had been offered when the connection subscribed; `replay` is what the
      connection read from the buffers at `readNow`, when `readAt` notifications had been
      buffered; `live` is what it wrote from its channel; `dropped` what the publisher took
      out of the full channel. */
  datatype Stream = Stream(
    log: seq<Sent>, offered: nat, phase: Phase, from: Option<nat>, chan: seq<nat>, dropped: set<nat>,
    replay: Option<seq<nat>>, readAt: nat, readNow: Time, live: seq<nat>)

  const START := Stream([], 0, FirstSend, None, [], {}, None, 0, 0, [])

  /** The sizes of the channel and of each ring, and the time to live of a buffered item. */
  datatype Limits = Limits(cap: nat, room: nat, ttl: nat)

  datatype Act =
    | Buffer(at: Time, toRole: bool)  // the hook adds the next notification to a ring
    | Send  // the hub tries to put it into the channel
    | Evict  // the channel was full: take out the oldest, if it is still there
    | Subscribe
    | ReadReplay(now: Time)
    | Receive  // the handler takes the next notification from the channel

  function Ids(s: seq<Sent>): (r: seq<nat>)
    ensures |r| == |s| && forall i | 0 <= i < |s| :: r[i] == s[i].item.id
  {
    seq(|s|, i requires 0 <= i < |s| => s[i].item.id)
  }

  predicate NotBefore(log: seq<Sent>, t: Time) {
    log == [] || log[|log| - 1].item.addedAt <= t
  }

  /** The hub's lock keeps a connection from subscribing in the middle of an offer; the
      handler may receive at any point of it. */
  predicate Enabled(y: Stream, a: Act) {
    match a
    case Buffer(at, _) => y.offered == |y.log| && NotBefore(y.log, at)
    case Send => y.offered < |y.log| && !y.phase.MakeRoom?
    case Evict => y.phase.MakeRoom?
    case Subscribe => y.from.None? && y.phase.FirstSend?
    case ReadReplay(now) => y.from.Some? && y.replay.None? && NotBefore(y.log, now)
    case Receive => y.replay.Some? && y.chan != []
  }

  ghost function Do(y: Stream, a: Act, z: Limits): Stream
    requires Enabled(y, a)
  {
    match a
    case Buffer(at, toRole) => y.(log := y.log + [Sent(Note(|y.log| + 1, at), toRole)])
    case Send =>
      if y.from.None? then y.(offered := y.offered + 1)
      else if |y.chan| < z.cap then y.(chan := y.chan + [y.offered + 1], offered := y.offered + 1, phase := FirstSend)
      else y.(phase := MakeRoom)
    case Evict =>
      if y.chan == [] then y.(phase := SecondSend)
      else y.(chan := y.chan[1..], dropped := y.dropped + {y.chan[0]}, phase := SecondSend)
    case Subscribe => y.(from := Some(y.offered))
    case ReadReplay(now) =>
      y.(replay := Some(Ids(ReadOut(y.log, z.room, now, z.ttl))), readAt := |y.log|, readNow := now)
    case Receive =>
      if y.chan[0] in y.replay.value then y.(chan := y.chan[1..])
      else y.(chan := y.chan[1..], live := y.live + [y.chan[0]])
  }

  ghost function Written(y: Stream): seq<nat> {
    if y.replay.None? then [] else y.replay.value + y.live
  }

  /** What had been offered when the connection subscribed. */
  ghost function Since(y: Stream): nat {
    if y.from.Some? then y.from.value else y.offered
  }

  // ----- the invariant ------------------------------------------------------

  ghost predicate Rising(s: seq<nat>) {
    forall i, j | 0 <= i < j < |s| :: s[i] < s[j]
  }

  ghost predicate Distinct(s: seq<nat>) {
    forall i, j | 0 <= i < j < |s| :: s[i] != s[j]
  }

  /** Everything offered since the subscription is still queued, was taken out of the full
      channel, was replayed, or was written live. */
  ghost predicate Accounted(y: Stream, n: nat) {
    n in y.chan || n in y.dropped || (y.replay.Some? && (n in y.replay.value || n in y.live))
  }

  /** Already through the channel. */
  ghost predicate Before(n: nat, y: Stream) {
    n <= y.offered && forall i | 0 <= i < |y.chan| :: n < y.chan[i]
  }

  ghost predicate Published(y: Stream) {
    Numbered(y.log) && InTime(y.log) && y.offered <= |y.log| <= y.offered + 1 &&
    (!y.phase.FirstSend? ==> y.from.Some? && y.offered < |y.log|)
  }

  ghost predicate Queued(y: Stream, cap: nat) {
    |y.chan| <= cap && (y.phase.SecondSend? ==> |y.chan| < cap) &&
    Rising(y.chan) && (forall i | 0 <= i < |y.chan| :: y.chan[i] <= y.offered) &&
    Rising(y.live) && (forall i | 0 <= i < |y.live| :: Before(y.live[i], y)) &&
    (forall d | d in y.dropped :: Before(d, y) && d !in y.live) &&
    (y.from.None? ==> y.chan == [] && y.dropped == {} && y.replay.None?) &&
    (y.replay.None? ==> y.live == []) &&
    (y.from.Some? ==> y.from.value <= y.offered && forall n | n in y.chan || n in y.live || n in y.dropped :: y.from.value < n)
  }

  ghost predicate Complete(y: Stream) {
    y.from.Some? ==> forall n | y.from.value < n <= y.offered :: Accounted(y, n)
  }

  ghost predicate ReplayTrue(y: Stream, z: Limits) {
    y.replay.Some? ==>
      y.readAt <= |y.log| && y.replay.value == Ids(ReadOut(y.log[..y.readAt], z.room, y.readNow, z.ttl)) &&
      forall n | n in y.live :: n !in y.replay.value
  }

  ghost predicate Inv(y: Stream, z: Limits) {
    z.cap > 0 && Published(y) && Queued(y, z.cap) && Complete(y) && ReplayTrue(y, z)
  }

  lemma PublishedKept(y: Stream, a: Act, z: Limits)
    requires z.cap > 0 && Published(y) && Queued(y, z.cap) && Enabled(y, a)
    ensures Published(Do(y, a, z))
  {
    hide ReadOut, Rising, Before;
  }

  lemma SendQueues(y: Stream, z: Limits)
    requires Published(y) && Queued(y, z.cap) && Enabled(y, Send)
    ensures Queued(Do(y, Send, z), z.cap)
  {
    hide Numbered, InTime;
  }

  lemma EvictQueues(y: Stream, z: Limits)
    requires z.cap > 0 && Published(y) && Queued(y, z.cap) && Enabled(y, Evict)
    ensures Queued(Do(y, Evict, z), z.cap)
  {
    hide Numbered, InTime;
    var y' := Do(y, Evict, z);
    if y.chan != [] {
      assert y.chan[0] in y.chan && y.chan == [y.chan[0]] + y'.chan;
    }
  }

  lemma ReceiveQueues(y: Stream, z: Limits)
    requires Published(y) && Queued(y, z.cap) && Enabled(y, Receive)
    ensures Queued(Do(y, Receive, z), z.cap)
  {
    hide Numbered, InTime;
    var y' := Do(y, Receive, z);
    var n := y.chan[0];
    assert n in y.chan && y.chan == [n] + y'.chan;
    assert Rising(y'.live) by {
      forall i | 0 <= i < |y.live| ensures y.live[i] < n {
        assert Before(y.live[i], y);
      }
    }
    forall m | Before(m, y) || m == n ensures Before(m, y') {
      forall i | 0 <= i < |y'.chan| ensures m < y'.chan[i] {
        assert y'.chan[i] == y.chan[i + 1];
      }
    }
    assert Rising(y'.chan) && forall m | m in y'.chan :: m in y.chan;
    hide Rising;
    forall d | d in y.dropped ensures d !in y'.live {
      assert Before(d, y);
    }
    hide Before;
  }

  lemma QueuedKept(y: Stream, a: Act, z: Limits)
    requires z.cap > 0 && Published(y) && Queued(y, z.cap) && Enabled(y, a)
    ensures Queued(Do(y, a, z), z.cap)
  {
    hide ReadOut, Numbered, InTime;
    match a
    case Send => SendQueues(y, z);
    case Evict => EvictQueues(y, z);
    case Receive => ReceiveQueues(y, z);
    case _ =>
  }

  lemma CompleteKept(y: Stream, a: Act, z: Limits)
    requires Complete(y) && Enabled(y, a) && (y.from.None? ==> y.replay.None?) && (y.phase.MakeRoom? ==> y.from.Some?)
    ensures Complete(Do(y, a, z))
  {
    hide ReadOut;
    var y' := Do(y, a, z);
    if y'.from.Some? {
      forall n | y'.from.value < n <= y'.offered ensures Accounted(y', n) {
        assert y.from.Some? && n <= y.offered ==> Accounted(y, n);
        if a.Send? && n > y.offered {
          assert y'.chan[|y'.chan| - 1] == n;
        }
      }
    }
  }

  lemma ReplayKept(y: Stream, a: Act, z: Limits)
    requires ReplayTrue(y, z) && Enabled(y, a) && (y.replay.None? ==> y.live == [])
    ensures ReplayTrue(Do(y, a, z), z)
  {
    hide ReadOut;
    var y' := Do(y, a, z);
    if a.Buffer? && y.replay.Some? {
      assert y'.log[..y.readAt] == y.log[..y.readAt];
    } else if a.ReadReplay? {
      assert y.log[..|y.log|] == y.log;
    }
  }

  lemma ActKeeps(y: Stream, a: Act, z: Limits)
    requires Inv(y, z) && Enabled(y, a)
    ensures Inv(Do(y, a, z), z)
  {
    PublishedKept(y, a, z);
    QueuedKept(y, a, z);
    CompleteKept(y, a, z);
    ReplayKept(y, a, z);
    hide Published, Queued, Complete, ReplayTrue, Do;
  }

  ghost predicate IsRun(streams: seq<Stream>, acts: seq<Act>, z: Limits) {
    z.cap > 0 && |streams| == |acts| + 1 && streams[0] == START &&
    forall i | 0 <= i < |acts| :: Enabled(streams[i], acts[i]) && streams[i + 1] == Do(streams[i], acts[i], z)
  }

  lemma {:induction false} EveryStreamSound(streams: seq<Stream>, acts: seq<Act>, z: Limits, i: nat)
    requires IsRun(streams, acts, z) && i < |streams|
    ensures Inv(streams[i], z)
  {
    hide Do, Enabled, Inv;
    if i == 0 {
      StartSound(z);
    } else {
      EveryStreamSound(streams, acts, z, i - 1);
      ActKeeps(streams[i - 1], acts[i - 1], z);
    }
  }

  lemma StartSound(z: Limits)
    requires z.cap > 0
    ensures Inv(START, z)
  {
  }

  // ----- what every interleaving guarantees ---------------------------------

  /** A notification goes into the channel whenever there is room; only a full channel makes
      the publisher take out its oldest; and then the second attempt always finds room, as
      only the publisher fills the channel. So everything is offered to every subscriber. */
  lemma OfferSucceeds(streams: seq<Stream>, acts: seq<Act>, z: Limits, i: nat)
    requires IsRun(streams, acts, z) && i < |acts| && acts[i].Send? && streams[i].from.Some?
    ensures var y, y' := streams[i], streams[i + 1];
            (y.phase.SecondSend? ==> |y.chan| < z.cap) &&
            if |y.chan| < z.cap then y'.chan == y.chan + [y.offered + 1] && y'.offered == y.offered + 1 && y'.dropped == y.dropped
            else |y.chan| == z.cap && y' == y.(phase := MakeRoom)
  {
    RunStep(streams, acts, z, i);
    EveryStreamSound(streams, acts, z, i);
    hide IsRun, ReadOut;
  }

  /** What the full channel gives up is its oldest notification, and nothing else. */
  lemma OnlyOldestIsDropped(streams: seq<Stream>, acts: seq<Act>, z: Limits, i: nat)
    requires IsRun(streams, acts, z) && i < |acts| && streams[i + 1].dropped != streams[i].dropped
    ensures acts[i].Evict? && streams[i].phase.MakeRoom? && streams[i].chan != [] &&
            streams[i + 1].dropped == streams[i].dropped + {streams[i].chan[0]} && streams[i + 1].chan == streams[i].chan[1..]
  {
    RunStep(streams, acts, z, i);
    hide IsRun, ReadOut;
  }

  lemma ReplayIsExact(y: Stream, z: Limits) returns (kept: seq<Sent>)
    requires Inv(y, z) && y.replay.Some?
    ensures Distinct(y.replay.value) && RisingIds(kept) && (forall x | x in kept :: x in y.log[..y.readAt])
    ensures forall n :: n in y.replay.value <==> Carries(kept, n)
    ensures Rising(y.replay.value) <==> NoTieInverted(kept)
  {
    var log := y.log[..y.readAt];
    assert Numbered(log) && InTime(log);
    kept := ReadOutIsExact(log, z.room, y.readNow, z.ttl);
    var out := ReadOut(log, z.room, y.readNow, z.ttl);
    hide ReadOut, Ring, Inv, NoTieInverted;
    forall n ensures n in Ids(out) <==> Carries(kept, n) {
      CarriedAlike(out, kept, n);
    }
    assert Rising(Ids(out)) <==> RisingIds(out);
  }

  ghost predicate Carries(s: seq<Sent>, n: nat) {
    exists x :: x in s && x.item.id == n
  }

  lemma CarriedAlike(out: seq<Sent>, kept: seq<Sent>, n: nat)
    requires forall y :: y in out <==> y in kept
    ensures n in Ids(out) <==> Carries(kept, n)
  {
    if n in Ids(out) {
      var i :| 0 <= i < |out| && Ids(out)[i] == n;
      assert out[i] in out;
    }
    if Carries(kept, n) {
      var x :| x in kept && x.item.id == n;
      var i :| 0 <= i < |out| && out[i] == x;
      assert Ids(out)[i] == n;
    }
  }

  /** Under every interleaving no notification is written twice. */
  lemma NothingTwice(streams: seq<Stream>, acts: seq<Act>, z: Limits, i: nat)
    requires IsRun(streams, acts, z) && i < |streams|
    ensures Distinct(Written(streams[i]))
  {
    EveryStreamSound(streams, acts, z, i);
    hide IsRun;
    var y := streams[i];
    if y.replay.Some? {
      var kept := ReplayIsExact(y, z);
      assert Rising(y.live) && forall n | n in y.live :: n !in y.replay.value;
      hide Inv, Carries;
      DistinctConcat(y.replay.value, y.live);
    }
  }

  lemma DistinctConcat(a: seq<nat>, b: seq<nat>)
    requires Distinct(a) && Rising(b) && forall n | n in b :: n !in a
    ensures Distinct(a + b)
  {
    forall i, j | 0 <= i < j < |a + b| ensures (a + b)[i] != (a + b)[j] {
      if i < |a| <= j {
        assert a[i] in a && b[j - |a|] in b;
      }
    }
  }

  /** Everything the buffers still retain at the read is written: the last `room` of each
      kind that have not expired; what was offered since subscribing is queued or was taken
      out of the full channel. */
  lemma ReplayedOrOffered(streams: seq<Stream>, acts: seq<Act>, z: Limits, i: nat, x: Sent, n: nat)
    requires IsRun(streams, acts, z) && i < |acts| && acts[i].ReadReplay?
    ensures x.item in Fresh(Last(Notes(Part(streams[i].log, x.toRole)), z.room), acts[i].now, z.ttl) ==>
              x.item.id in Written(streams[i + 1])
    ensures Since(streams[i]) < n <= streams[i].offered ==> n in streams[i].chan || n in streams[i].dropped
  {
    hide *;
    RunStep(streams, acts, z, i);
    EveryStreamSound(streams, acts, z, i);
    var y, now := streams[i], acts[i].now;
    ReadWrites(y, now, z);
    OfferedIsQueued(y, now, z, n);
    LogIsOrdered(y, z);
    if x.item in Fresh(Last(Notes(Part(y.log, x.toRole)), z.room), now, z.ttl) {
      RetainedIsRead(y.log, z, now, x);
    }
  }

  lemma RunStep(streams: seq<Stream>, acts: seq<Act>, z: Limits, i: nat)
    requires IsRun(streams, acts, z) && i < |acts|
    ensures i + 1 < |streams| && Enabled(streams[i], acts[i]) && streams[i + 1] == Do(streams[i], acts[i], z)
  {
  }

  lemma LogIsOrdered(y: Stream, z: Limits)
    requires Inv(y, z)
    ensures Numbered(y.log) && InTime(y.log)
  {
  }

  lemma OfferedIsQueued(y: Stream, now: Time, z: Limits, n: nat)
    requires Inv(y, z) && Enabled(y, ReadReplay(now))
    ensures Since(y) < n <= y.offered ==> n in y.chan || n in y.dropped
  {
    hide ReadOut, Published, Queued;
    if Since(y) < n <= y.offered {
      assert Accounted(y, n);
    }
  }

  lemma ReadWrites(y: Stream, now: Time, z: Limits)
    requires Enabled(y, ReadReplay(now))
    ensures Written(Do(y, ReadReplay(now), z)) == Ids(ReadOut(y.log, z.room, now, z.ttl)) + y.live
  {
    hide ReadOut;
  }

  lemma RetainedIsRead(log: seq<Sent>, z: Limits, now: Time, x: Sent)
    requires Numbered(log) && InTime(log) && x.item in Fresh(Last(Notes(Part(log, x.toRole)), z.room), now, z.ttl)
    ensures x.item.id in Ids(ReadOut(log, z.room, now, z.ttl))
  {
    var ring := Fresh(Last(Notes(Part(log, x.toRole)), z.room), now, z.ttl);
    var j :| 0 <= j < |ring| && ring[j] == x.item;
    assert Tagged(ring, x.toRole)[j] == x;
    assert x in Ring(log, x.toRole, z.room, now, z.ttl);
    hide Ring, ReadOut;
    var out := ReadOut(log, z.room, now, z.ttl);
    var kept := ReadOutIsExact(log, z.room, now, z.ttl);
    assert x in out;
    var k :| 0 <= k < |out| && out[k] == x;
    assert Ids(out)[k] == x.item.id;
  }

  /** Once the channel is drained and the publisher idle, the connection has written exactly
      what was replayed and what was offered since it subscribed, save what was taken out of
      its full channel. */
  lemma HandOffIsComplete(streams: seq<Stream>, acts: seq<Act>, z: Limits, i: nat, n: nat)
    requires IsRun(streams, acts, z) && i < |streams|
    requires streams[i].replay.Some? && streams[i].chan == [] && streams[i].offered == |streams[i].log|
    ensures var y := streams[i];
            n in Written(y) <==> n in y.replay.value || (Since(y) < n <= |y.log| && n !in y.dropped)
  {
    EveryStreamSound(streams, acts, z, i);
    hide IsRun, ReadOut;
    var y := streams[i];
    if Since(y) < n <= |y.log| {
      assert Accounted(y, n);
    }
    if n in y.live {
      var j :| 0 <= j < |y.live| && y.live[j] == n;
      assert Before(y.live[j], y);
    }
  }

  /** No replayed broadcast shares its instant with a later replayed personal notification. */
  ghost predicate NoReplayedTie(y: Stream)
    requires y.replay.Some?
  {
    forall m, n | m in y.replay.value && n in y.replay.value && 1 <= m < n <= |y.log| && y.log[m - 1].toRole && !y.log[n - 1].toRole ::
      y.log[m - 1].item.addedAt < y.log[n - 1].item.addedAt
  }

  lemma TiesAlike(y: Stream, kept: seq<Sent>)
    requires y.replay.Some? && Numbered(y.log) && RisingIds(kept) && forall x | x in kept :: x in y.log
    requires forall n :: n in y.replay.value <==> Carries(kept, n)
    ensures NoReplayedTie(y) <==> NoTieInverted(kept)
  {
    hide NoReplayedTie, NoTieInverted, Carries;
    if NoTieInverted(kept) {
      TiesOutward(y, kept);
    }
    if NoReplayedTie(y) {
      TiesInward(y, kept);
    }
  }

  lemma FoundAt(log: seq<Sent>, x: Sent)
    requires Numbered(log) && x in log
    ensures 1 <= x.item.id <= |log| && log[x.item.id - 1] == x
  {
    var j :| 0 <= j < |log| && log[j] == x;
  }

  lemma CarriedAt(log: seq<Sent>, kept: seq<Sent>, n: nat) returns (i: nat)
    requires Numbered(log) && (forall x | x in kept :: x in log) && Carries(kept, n)
    ensures 1 <= n <= |log| && i < |kept| && kept[i] == log[n - 1] && kept[i].item.id == n
  {
    var x :| x in kept && x.item.id == n;
    FoundAt(log, x);
    i :| 0 <= i < |kept| && kept[i] == x;
  }

  lemma TiesOutward(y: Stream, kept: seq<Sent>)
    requires y.replay.Some? && Numbered(y.log) && RisingIds(kept) && forall x | x in kept :: x in y.log
    requires (forall n :: n in y.replay.value <==> Carries(kept, n)) && NoTieInverted(kept)
    ensures NoReplayedTie(y)
  {
    hide Carries;
    forall m, n | m in y.replay.value && n in y.replay.value && 1 <= m < n <= |y.log| && y.log[m - 1].toRole && !y.log[n - 1].toRole
      ensures y.log[m - 1].item.addedAt < y.log[n - 1].item.addedAt
    {
      var i := CarriedAt(y.log, kept, m);
      var j := CarriedAt(y.log, kept, n);
    }
  }

  lemma TiesInward(y: Stream, kept: seq<Sent>)
    requires y.replay.Some? && Numbered(y.log) && RisingIds(kept) && forall x | x in kept :: x in y.log
    requires (forall n :: n in y.replay.value <==> Carries(kept, n)) && NoReplayedTie(y)
    ensures NoTieInverted(kept)
  {
    forall i, j | 0 <= i < j < |kept| && kept[i].toRole && !kept[j].toRole ensures kept[i].item.addedAt < kept[j].item.addedAt {
      assert kept[i] in kept && kept[j] in kept;
      FoundAt(y.log, kept[i]);
      FoundAt(y.log, kept[j]);
      assert Carries(kept, kept[i].item.id) && Carries(kept, kept[j].item.id);
    }
  }

  /** If all that was published between subscribing and reading was still retained, then
      everything is written in the order it was published exactly when no replayed
      broadcast shares its instant with a later replayed personal notification. */
  lemma WrittenInOrderIff(streams: seq<Stream>, acts: seq<Act>, z: Limits, i: nat)
    requires IsRun(streams, acts, z) && i < |streams| && streams[i].replay.Some?
    requires forall n | Since(streams[i]) < n <= streams[i].readAt :: n in streams[i].replay.value
    ensures Rising(Written(streams[i])) <==> NoReplayedTie(streams[i])
  {
    EveryStreamSound(streams, acts, z, i);
    hide IsRun;
    var y := streams[i];
    var kept := ReplayIsExact(y, z);
    LogIsOrdered(y, z);
    LiveIsLater(y, z);
    hide *;
    ReplayedIsEarlier(y, kept);
    TiesAlike(y, kept);
    RisingConcat(y.replay.value, y.live, y.readAt);
    WrittenIs(y);
  }

  lemma WrittenIs(y: Stream)
    requires y.replay.Some?
    ensures Written(y) == y.replay.value + y.live
  {
  }

  lemma ReplayedIsEarlier(y: Stream, kept: seq<Sent>)
    requires y.replay.Some? && Numbered(y.log) && y.readAt <= |y.log| && forall x | x in kept :: x in y.log[..y.readAt]
    requires forall n :: n in y.replay.value <==> Carries(kept, n)
    ensures forall j | 0 <= j < |y.replay.value| :: y.replay.value[j] <= y.readAt
    ensures forall x | x in kept :: x in y.log
  {
    hide Carries;
    forall j | 0 <= j < |y.replay.value| ensures y.replay.value[j] <= y.readAt {
      assert y.replay.value[j] in y.replay.value;
      var k := CarriedAt(y.log[..y.readAt], kept, y.replay.value[j]);
    }
    assert forall x | x in y.log[..y.readAt] :: x in y.log;
  }

  lemma LiveIsLater(y: Stream, z: Limits)
    requires Inv(y, z) && y.replay.Some? && forall n | Since(y) < n <= y.readAt :: n in y.replay.value
    ensures (forall j | 0 <= j < |y.live| :: y.readAt < y.live[j]) && Rising(y.live)
  {
    hide ReadOut;
    forall j | 0 <= j < |y.live| ensures y.readAt < y.live[j] {
      assert y.live[j] in y.live;
    }
  }

  lemma RisingConcat(a: seq<nat>, b: seq<nat>, m: nat)
    requires Rising(b) && (forall i | 0 <= i < |a| :: a[i] <= m) && forall j | 0 <= j < |b| :: m < b[j]
    ensures Rising(a + b) <==> Rising(a)
  {
    if Rising(a + b) {
      forall i, j | 0 <= i < j < |a| ensures a[i] < a[j] {
        assert (a + b)[i] == a[i] && (a + b)[j] == a[j];
      }
    }
  }
}
