/** The flavor catalog in Redis: atomic scripts that compare and swap a document, keep a
    unique-name index, append to an audit list, and remember the reply to a keyed request.
    Callers may act on arbitrarily stale snapshots. Stored text is the injective encoding
    of its document, and the name key is the folded (trimmed, lower-cased) name. */
module Catalog {
  import opened Ordering
  import opened InventoryModel

  datatype Doc = Doc(id: Id, name: string, folded: string, rest: string)

  datatype Action = CreateAction | UpdateAction | ReplaceAction | ArchiveAction

  /** One audit entry: the document before and after the change. */
  datatype Entry = Entry(actor: Id, action: Action, before: Option<Doc>, after: Doc)

  /** What a keyed change is identified by; the digest of these is injective. */
  datatype Fingerprint = Fingerprint(actor: Id, action: Action, id: Id, payload: string)

  datatype Reply = Reply(hash: Fingerprint, status: int, body: Option<Doc>)
  datatype CreateReply = CreateReply(hash: string, body: Doc)

  datatype Redis = Redis(
    docs: map<Id, Doc>, names: map<string, Id>, ids: set<Id>, audits: map<Id, seq<Entry>>,
    creates: map<string, CreateReply>, replies: map<Id, Reply>)

  const EMPTY_REDIS := Redis(map[], map[], {}, map[], map[], map[])

  datatype Answer =
    | Created(doc: Doc) | Replayed(original: Option<Doc>) | Updated
    | NameConflict | UpdateConflict | FlavorNotFound | AuditStorage | Unavailable | KeyConflict | BadAudit

  /** A creation key in canonical and in raw spelling, with the hash of the payload. */
  datatype CreateKey = CreateKey(key: string, raw: string, hash: string)

  /** Which checks pass, all made before the first write: the reply key may be written, the
      document key and then all keys have the right type, the writes are permitted. */
  datatype Health = Health(cache: bool, document: bool, types: bool, permitted: bool)

  function AuditOf(r: Redis, id: Id): seq<Entry> {
    if id in r.audits then r.audits[id] else []
  }

  // ----- the scripts --------------------------------------------------------

  function CachedCreate(r: Redis, k: CreateKey): Option<CreateReply> {
    if k.key in r.creates then Some(r.creates[k.key])
    else if k.raw in r.creates then Some(r.creates[k.raw])
    else None
  }

  function CreateFlavor(r: Redis, actor: Id, doc: Doc, key: Option<CreateKey>, health: Health): (Redis, Answer) {
    if actor == NIL || doc.id == NIL then (r, BadAudit)
    else if key.Some? && CachedCreate(r, key.value).Some? then
      var saved := CachedCreate(r, key.value).value;
      (r, if saved.hash != key.value.hash then KeyConflict else Replayed(Some(saved.body)))
    else if key.Some? && !health.cache then (r, Unavailable)
    else if !health.types then (r, AuditStorage)
    else if doc.folded in r.names then (r, NameConflict)
    else if doc.id in r.docs then (r, UpdateConflict)
    else if !health.permitted then (r, AuditStorage)
    else
      (r.(docs := r.docs[doc.id := doc], names := r.names[doc.folded := doc.id], ids := r.ids + {doc.id},
          audits := r.audits[doc.id := AuditOf(r, doc.id) + [Entry(actor, CreateAction, None, doc)]],
          creates := if key.Some? then r.creates[key.value.key := CreateReply(key.value.hash, doc)] else r.creates),
       Created(doc))
  }

  /** The writes both update scripts share. */
  function Swap(r: Redis, actor: Id, action: Action, previous: Doc, doc: Doc): Redis {
    var names := if previous.folded != doc.folded && previous.folded in r.names && r.names[previous.folded] == doc.id
                 then r.names - {previous.folded} else r.names;
    r.(names := names[doc.folded := doc.id], docs := r.docs[doc.id := doc],
       audits := r.audits[doc.id := AuditOf(r, doc.id) + [Entry(actor, action, Some(previous), doc)]])
  }

  predicate Auditable(actor: Id, action: Action, previous: Doc, doc: Doc) {
    actor != NIL && !action.CreateAction? && doc.id != NIL && previous.id == doc.id
  }

  function UpdateFlavor(r: Redis, actor: Id, action: Action, previous: Doc, doc: Doc, health: Health): (Redis, Answer) {
    if !Auditable(actor, action, previous, doc) then (r, BadAudit)
    else if !health.types then (r, AuditStorage)
    else if doc.id !in r.docs then (r, FlavorNotFound)
    else if r.docs[doc.id] != previous then (r, UpdateConflict)
    else if doc.folded in r.names && r.names[doc.folded] != doc.id then (r, NameConflict)
    else if !health.permitted then (r, AuditStorage)
    else (Swap(r, actor, action, previous, doc), Updated)
  }

  function StatusOf(action: Action): int {
    if action.ArchiveAction? then 204 else 200
  }

  function ReplyTo(hash: Fingerprint, doc: Doc): Reply {
    Reply(hash, StatusOf(hash.action), if hash.action.ArchiveAction? then None else Some(doc))
  }

  /** What the caller makes of a remembered reply. */
  function Decode(reply: Reply, hash: Fingerprint): Answer {
    if reply.hash != hash then KeyConflict
    else if reply.status != StatusOf(hash.action) then Unavailable
    else if reply.status == 204 then (if reply.body.Some? then Unavailable else Replayed(None))
    else if reply.body.None? || reply.body.value.id != hash.id then Unavailable
    else Replayed(reply.body)
  }

  /** A keyed update; a change that changes nothing is remembered but not audited. */
  function UpdateKeyed(r: Redis, key: Id, hash: Fingerprint, previous: Doc, doc: Doc, health: Health): (Redis, Answer) {
    if hash.action.CreateAction? || key == NIL || doc.id == NIL || hash.id != doc.id then (r, Unavailable)
    else if !Auditable(hash.actor, hash.action, previous, doc) then (r, BadAudit)
    else if key in r.replies then (r, Decode(r.replies[key], hash))
    else if !health.cache then (r, Unavailable)
    else if !health.document then (r, AuditStorage)
    else if doc.id !in r.docs then (r, FlavorNotFound)
    else if r.docs[doc.id] != previous then (r, UpdateConflict)
    else if doc == previous then (r.(replies := r.replies[key := ReplyTo(hash, doc)]), Updated)
    else if !health.types then (r, AuditStorage)
    else if doc.folded in r.names && r.names[doc.folded] != doc.id then (r, NameConflict)
    else if !health.permitted then (r, AuditStorage)
    else (Swap(r, hash.actor, hash.action, previous, doc).(replies := r.replies[key := ReplyTo(hash, doc)]), Updated)
  }

  // ----- what a swap shows --------------------------------------------------

  /** The stored document is still the snapshot, and no other flavor has the new name. */
  ghost predicate Swappable(r: Redis, previous: Doc, doc: Doc) {
    doc.id in r.docs && r.docs[doc.id] == previous &&
    forall id | id in r.docs && id != doc.id :: r.docs[id].folded != doc.folded
  }

  /** The document is the new one, its name leads to it, its old name is free, one entry was
      added to its audit, and no other flavor changed. */
  ghost predicate Swapped(r: Redis, r': Redis, actor: Id, action: Action, doc: Doc) {
    r'.docs == r.docs[doc.id := doc] && r'.ids == r.ids && doc.folded in r'.names && r'.names[doc.folded] == doc.id &&
    (doc.id in r.docs && r.docs[doc.id].folded != doc.folded ==> r.docs[doc.id].folded !in r'.names) &&
    doc.id in r.docs && AuditOf(r', doc.id) == AuditOf(r, doc.id) + [Entry(actor, action, Some(r.docs[doc.id]), doc)] &&
    forall id | id != doc.id :: AuditOf(r', id) == AuditOf(r, id)
  }

  lemma FreeIsSwappable(r: Redis, previous: Doc, doc: Doc)
    requires Consistent(r)
    ensures Swappable(r, previous, doc) <==>
            doc.id in r.docs && r.docs[doc.id] == previous && (doc.folded in r.names ==> r.names[doc.folded] == doc.id)
  {
  }

  lemma SwapShows(r: Redis, actor: Id, action: Action, previous: Doc, doc: Doc)
    requires Consistent(r)
    ensures Swappable(r, previous, doc) ==> Swapped(r, Swap(r, actor, action, previous, doc), actor, action, doc)
    ensures Swap(r, actor, action, previous, doc).docs == r.docs[doc.id := doc]
    ensures Swap(r, actor, action, previous, doc).replies == r.replies
    ensures Swap(r, actor, action, previous, doc).creates == r.creates
  {
  }

  lemma KeyedUpdatesWhen(r: Redis, key: Id, hash: Fingerprint, previous: Doc, doc: Doc, health: Health)
    requires Consistent(r)
    ensures UpdateKeyed(r, key, hash, previous, doc, health).1.Updated? <==>
            key != NIL && hash.id == doc.id && Auditable(hash.actor, hash.action, previous, doc) && key !in r.replies &&
            health.cache && health.document && Swappable(r, previous, doc) &&
            (doc == previous || (health.types && health.permitted))
  {
    FreeIsSwappable(r, previous, doc);
    hide Consistent, Swappable, Swap;
  }

  lemma KeyedReplaysStored(r: Redis, key: Id, hash: Fingerprint, previous: Doc, doc: Doc, health: Health)
    requires Consistent(r)
    ensures var a := UpdateKeyed(r, key, hash, previous, doc, health).1;
            (a.Replayed? ==> key in r.replies && r.replies[key].hash == hash && a.original == r.replies[key].body) &&
            (a.Replayed? && a.original.Some? ==> a.original.value.id == doc.id && WasStored(r, a.original.value)) &&
            (a.KeyConflict? ==> key in r.replies && r.replies[key].hash != hash)
  {
    assert key in r.replies ==> ReplyTrue(r, r.replies[key]);
    hide Consistent, WasStored, Swap;
  }

  lemma KeyedShows(r: Redis, key: Id, hash: Fingerprint, previous: Doc, doc: Doc, health: Health)
    requires Consistent(r)
    ensures var (r', a) := UpdateKeyed(r, key, hash, previous, doc, health);
            (a.Updated? <==> key != NIL && hash.id == doc.id && Auditable(hash.actor, hash.action, previous, doc) && key !in r.replies &&
                             health.cache && health.document && Swappable(r, previous, doc) &&
                             (doc == previous || (health.types && health.permitted))) &&
            (a.Updated? ==> r'.replies == r.replies[key := ReplyTo(hash, doc)] && r'.docs == r.docs[doc.id := doc]) &&
            (a.Updated? ==> doc == previous || Swapped(r, r', hash.actor, hash.action, doc)) &&
            (a.Updated? && doc == previous ==> r'.audits == r.audits && r'.names == r.names) &&
            (!a.Updated? ==> r' == r) &&
            (a.Replayed? ==> key in r'.replies && r'.replies[key].hash == hash && a.original == r'.replies[key].body) &&
            (a.Replayed? && a.original.Some? ==> a.original.value.id == doc.id && WasStored(r', a.original.value)) &&
            (a.KeyConflict? ==> key in r'.replies && r'.replies[key].hash != hash)
  {
    KeyedUpdatesWhen(r, key, hash, previous, doc, health);
    KeyedReplaysStored(r, key, hash, previous, doc, health);
    SwapShows(r, hash.actor, hash.action, previous, doc);
    FreeIsSwappable(r, previous, doc);
    var mid := Swap(r, hash.actor, hash.action, previous, doc);
    if Swappable(r, previous, doc) {
      SwappedStill(r, mid, hash.actor, hash.action, doc, r.replies[key := ReplyTo(hash, doc)]);
      assert r.docs[doc.id := previous] == r.docs;
    }
    hide Consistent, Swappable, Swapped, Swap, WasStored, Decode, ReplyTo;
  }

  lemma CreateShows(r: Redis, actor: Id, doc: Doc, key: Option<CreateKey>, health: Health)
    requires Consistent(r)
    ensures var (r', a) := CreateFlavor(r, actor, doc, key, health);
            (a.Created? ==> doc.id !in r.docs && doc.folded !in r.names && r'.docs == r.docs[doc.id := doc]) &&
            (!a.Created? ==> r' == r) &&
            (a.Replayed? ==> key.Some? && a.original.Some? && WasStored(r, a.original.value))
  {
    hide IndexExact, AuditTold, ReplyTrue;
  }

  lemma SwappedStill(r: Redis, r': Redis, actor: Id, action: Action, doc: Doc, replies: map<Id, Reply>)
    requires Swapped(r, r', actor, action, doc)
    ensures Swapped(r, r'.(replies := replies), actor, action, doc)
  {
  }

  // ----- which answer when --------------------------------------------------

  /** No stored flavor has the name of the document, except perhaps the document itself. */
  ghost predicate NameFree(r: Redis, doc: Doc) {
    forall id | id in r.docs && id != doc.id :: r.docs[id].folded != doc.folded
  }

  /** What a creation is answered, in terms of the stored flavors and replies. */
  lemma CreateAnswers(r: Redis, actor: Id, doc: Doc, key: Option<CreateKey>, health: Health)
    requires Consistent(r)
    ensures var a := CreateFlavor(r, actor, doc, key, health).1;
            if actor == 0 || doc.id == 0 then a == BadAudit
            else if key.Some? && (key.value.key in r.creates || key.value.raw in r.creates) then
              var reply := if key.value.key in r.creates then r.creates[key.value.key] else r.creates[key.value.raw];
              a == if reply.hash == key.value.hash then Replayed(Some(reply.body)) else KeyConflict
            else if key.Some? && !health.cache then a == Unavailable
            else if !health.types then a == AuditStorage
            else if exists id :: id in r.docs && r.docs[id].folded == doc.folded then a == NameConflict
            else if doc.id in r.docs then a == UpdateConflict
            else if !health.permitted then a == AuditStorage
            else a == Created(doc)
    ensures var (r', a) := CreateFlavor(r, actor, doc, key, health);
            a.Created? ==>
              r'.docs == r.docs[doc.id := doc] && r'.names == r.names[doc.folded := doc.id] && r'.ids == r.ids + {doc.id} &&
              AuditOf(r', doc.id) == AuditOf(r, doc.id) + [Entry(actor, CreateAction, None, doc)] && r'.replies == r.replies &&
              r'.creates == if key.Some? then r.creates[key.value.key := CreateReply(key.value.hash, doc)] else r.creates
  {
    NamesAreTaken(r, doc);
    hide Consistent;
  }

  lemma NamesAreTaken(r: Redis, doc: Doc)
    requires Consistent(r)
    ensures doc.folded in r.names <==> exists id :: id in r.docs && r.docs[id].folded == doc.folded
    ensures doc.folded in r.names && r.names[doc.folded] != doc.id <==> !NameFree(r, doc)
  {
    if doc.folded in r.names {
      assert r.docs[r.names[doc.folded]].folded == doc.folded;
    }
    hide AuditTold, ReplyTrue, WasStored;
  }

  lemma UpdateAnswers(r: Redis, actor: Id, action: Action, previous: Doc, doc: Doc, health: Health)
    requires Consistent(r)
    ensures var a := UpdateFlavor(r, actor, action, previous, doc, health).1;
            if actor == 0 || action == CreateAction || doc.id == 0 || previous.id != doc.id then a == BadAudit
            else if !health.types then a == AuditStorage
            else if doc.id !in r.docs then a == FlavorNotFound
            else if r.docs[doc.id] != previous then a == UpdateConflict
            else if !NameFree(r, doc) then a == NameConflict
            else if !health.permitted then a == AuditStorage
            else a == Updated
  {
    NamesAreTaken(r, doc);
    hide Consistent, Swap;
  }

  lemma KeyedAnswers(r: Redis, key: Id, hash: Fingerprint, previous: Doc, doc: Doc, health: Health)
    requires Consistent(r)
    ensures var a := UpdateKeyed(r, key, hash, previous, doc, health).1;
            if key == 0 || doc.id == 0 || hash.id != doc.id || hash.action == CreateAction then a == Unavailable
            else if hash.actor == 0 || previous.id != doc.id then a == BadAudit
            else if key in r.replies then a == if r.replies[key].hash == hash then Replayed(r.replies[key].body) else KeyConflict
            else if !health.cache then a == Unavailable
            else if !health.document then a == AuditStorage
            else if doc.id !in r.docs then a == FlavorNotFound
            else if r.docs[doc.id] != previous then a == UpdateConflict
            else if doc == previous then a == Updated
            else if !health.types then a == AuditStorage
            else if !NameFree(r, doc) then a == NameConflict
            else if !health.permitted then a == AuditStorage
            else a == Updated
  {
    NamesAreTaken(r, doc);
    assert key in r.replies ==> ReplyTrue(r, r.replies[key]);
    hide Consistent, Swap, WasStored;
  }

  // ----- the same, write by write -------------------------------------------

  class RedisFlavorRepository {
    var docs: map<Id, Doc>
    var names: map<string, Id>
    var ids: set<Id>
    var audits: map<Id, seq<Entry>>
    var creates: map<string, CreateReply>
    var replies: map<Id, Reply>

    ghost function View(): Redis
      reads this
    {
      Redis(docs, names, ids, audits, creates, replies)
    }

    constructor ()
      ensures View() == EMPTY_REDIS
    {
      docs, names, ids, audits, creates, replies := map[], map[], {}, map[], map[], map[];
    }

    method Push(id: Id, entry: Entry)
      modifies this`audits
      ensures audits == old(audits)[id := AuditOf(old(View()), id) + [entry]]
    {
      audits := audits[id := (if id in audits then audits[id] else []) + [entry]];
    }

    /** The create script, check by check and write by write. */
    method CreateScript(actor: Id, doc: Doc, key: Option<CreateKey>, health: Health) returns (a: Answer)
      modifies this
      ensures (View(), a) == CreateFlavor(old(View()), actor, doc, key, health)
    {
      if actor == NIL || doc.id == NIL { return BadAudit; }
      if key.Some? {
        var spellings := [key.value.key, key.value.raw];
        var i := 0;
        while i < 2
          invariant 0 <= i <= 2
          invariant forall j | 0 <= j < i :: spellings[j] !in creates
        {
          assert i == 0 || spellings[0] !in creates;
          if spellings[i] in creates {
            var record := creates[spellings[i]];
            if record.hash != key.value.hash { return KeyConflict; }
            return Replayed(Some(record.body));
          }
          i := i + 1;
        }
        assert spellings[0] !in creates && spellings[1] !in creates;
        if !health.cache { return Unavailable; }
      }
      if !health.types { return AuditStorage; }
      if doc.folded in names { return NameConflict; }
      if doc.id in docs { return UpdateConflict; }
      if !health.permitted { return AuditStorage; }
      docs := docs[doc.id := doc];
      names := names[doc.folded := doc.id];
      ids := ids + {doc.id};
      Push(doc.id, Entry(actor, CreateAction, None, doc));
      if key.Some? {
        creates := creates[key.value.key := CreateReply(key.value.hash, doc)];
      }
      return Created(doc);
    }

    /** Stores a new document under a free name, or changes nothing. */
    method Create(actor: Id, doc: Doc, key: Option<CreateKey>, health: Health) returns (a: Answer)
      requires Consistent(View())
      modifies this
      ensures Consistent(View()) && Remembers(old(View()), View())
      ensures a.Created? ==> doc.id !in old(docs) && doc.folded !in old(names) && docs == old(docs)[doc.id := doc]
      ensures !a.Created? ==> View() == old(View())
      ensures a.Replayed? ==> key.Some? && a.original.Some? && WasStored(View(), a.original.value)
      ensures (View(), a) == CreateFlavor(old(View()), actor, doc, key, health)
    {
      CreateKeeps(View(), actor, doc, key, health);
      CreateShows(View(), actor, doc, key, health);
      hide Consistent, Remembers, WasStored, CreateFlavor;
      a := CreateScript(actor, doc, key, health);
    }

    method WriteSwap(actor: Id, action: Action, previous: Doc, doc: Doc)
      modifies this`docs, this`names, this`audits
      ensures View() == Swap(old(View()), actor, action, previous, doc)
    {
      if previous.folded != doc.folded {
        if previous.folded in names && names[previous.folded] == doc.id {
          names := names - {previous.folded};
        }
      }
      names := names[doc.folded := doc.id];
      docs := docs[doc.id := doc];
      Push(doc.id, Entry(actor, action, Some(previous), doc));
    }

    /** Swaps a document that is still the caller's snapshot, unless another flavor has the
        new name; in every other case nothing changes. */
    method Update(actor: Id, action: Action, previous: Doc, doc: Doc, health: Health) returns (a: Answer)
      requires Consistent(View())
      modifies this
      ensures Consistent(View()) && Remembers(old(View()), View())
      ensures a.Updated? <==> Auditable(actor, action, previous, doc) && health.types && health.permitted && Swappable(old(View()), previous, doc)
      ensures a.Updated? ==> Swapped(old(View()), View(), actor, action, doc)
      ensures !a.Updated? ==> View() == old(View())
      ensures (View(), a) == UpdateFlavor(old(View()), actor, action, previous, doc, health)
    {
      UpdateKeeps(View(), actor, action, previous, doc, health);
      FreeIsSwappable(View(), previous, doc);
      SwapShows(View(), actor, action, previous, doc);
      hide Consistent, Remembers, AuditOf, Swap, Swappable, Swapped;
      if !Auditable(actor, action, previous, doc) { return BadAudit; }
      if !health.types { return AuditStorage; }
      if doc.id !in docs { return FlavorNotFound; }
      if docs[doc.id] != previous { return UpdateConflict; }
      if doc.folded in names && names[doc.folded] != doc.id { return NameConflict; }
      if !health.permitted { return AuditStorage; }
      WriteSwap(actor, action, previous, doc);
      return Updated;
    }

    /** The keyed update script, check by check and write by write. */
    method ReplayScript(key: Id, hash: Fingerprint, previous: Doc, doc: Doc, health: Health) returns (a: Answer)
      modifies this
      ensures (View(), a) == UpdateKeyed(old(View()), key, hash, previous, doc, health)
    {
      if hash.action.CreateAction? || key == NIL || doc.id == NIL || hash.id != doc.id { return Unavailable; }
      if !Auditable(hash.actor, hash.action, previous, doc) { return BadAudit; }
      if key in replies { return Decode(replies[key], hash); }
      if !health.cache { return Unavailable; }
      if !health.document { return AuditStorage; }
      if doc.id !in docs { return FlavorNotFound; }
      if docs[doc.id] != previous { return UpdateConflict; }
      if doc == previous {
        replies := replies[key := ReplyTo(hash, doc)];
        return Updated;
      }
      if !health.types { return AuditStorage; }
      if doc.folded in names && names[doc.folded] != doc.id { return NameConflict; }
      if !health.permitted { return AuditStorage; }
      WriteSwap(hash.actor, hash.action, previous, doc);
      replies := replies[key := ReplyTo(hash, doc)];
      return Updated;
    }

    /** As Update, and the reply is remembered with the change; a request whose key has a
        reply gets that reply, or a conflict, and changes nothing. */
    method UpdateIdempotent(key: Id, hash: Fingerprint, previous: Doc, doc: Doc, health: Health) returns (a: Answer)
      requires Consistent(View())
      modifies this
      ensures Consistent(View()) && Remembers(old(View()), View())
      ensures a.Updated? <==> key != NIL && hash.id == doc.id && Auditable(hash.actor, hash.action, previous, doc) && key !in old(replies) &&
                              health.cache && health.document && Swappable(old(View()), previous, doc) &&
                              (doc == previous || (health.types && health.permitted))
      ensures a.Updated? ==> replies == old(replies)[key := ReplyTo(hash, doc)]
      ensures a.Updated? ==> docs == old(docs)[doc.id := doc] && (doc == previous || Swapped(old(View()), View(), hash.actor, hash.action, doc))
      ensures a.Updated? && doc == previous ==> audits == old(audits) && names == old(names)
      ensures !a.Updated? ==> View() == old(View())
      ensures a.Replayed? ==> key in replies && replies[key].hash == hash && a.original == replies[key].body
      ensures a.Replayed? && a.original.Some? ==> a.original.value.id == doc.id && WasStored(View(), a.original.value)
      ensures a.KeyConflict? ==> key in replies && replies[key].hash != hash
      ensures (View(), a) == UpdateKeyed(old(View()), key, hash, previous, doc, health)
    {
      KeyedKeeps(View(), key, hash, previous, doc, health);
      KeyedShows(View(), key, hash, previous, doc, health);
      hide Consistent, Remembers, WasStored, Swappable, Swapped, Auditable, ReplyTo, UpdateKeyed;
      a := ReplayScript(key, hash, previous, doc, health);
    }
  }

  // ----- consistency --------------------------------------------------------

  /** The index is exactly folded name to id of the stored flavors, one to one. */
  ghost predicate IndexExact(r: Redis) {
    (forall id | id in r.docs :: r.docs[id].id == id && r.docs[id].folded in r.names && r.names[r.docs[id].folded] == id) &&
    (forall n | n in r.names :: r.names[n] in r.docs && r.docs[r.names[n]].folded == n) &&
    r.ids == r.docs.Keys
  }

  /** The audit list tells the whole life of a document, each entry from where the last
      one ended. */
  ghost predicate ChainTo(chain: seq<Entry>, doc: Doc) {
    chain != [] && chain[0].action.CreateAction? && chain[0].before.None? && chain[|chain| - 1].after == doc &&
    forall i | 0 < i < |chain| :: chain[i].before == Some(chain[i - 1].after) && !chain[i].action.CreateAction?
  }

  ghost predicate AuditTold(r: Redis, id: Id) {
    if id in r.docs then ChainTo(AuditOf(r, id), r.docs[id]) else AuditOf(r, id) == []
  }

  /** A version of a document that was really stored. */
  ghost predicate WasStored(r: Redis, d: Doc) {
    exists i :: 0 <= i < |AuditOf(r, d.id)| && AuditOf(r, d.id)[i].after == d
  }

  ghost predicate ReplyTrue(r: Redis, reply: Reply) {
    reply.status == StatusOf(reply.hash.action) && (reply.body.None? <==> reply.hash.action.ArchiveAction?) &&
    (reply.body.Some? ==> reply.body.value.id == reply.hash.id && WasStored(r, reply.body.value))
  }

  ghost predicate Consistent(r: Redis) {
    IndexExact(r) && (forall id: Id :: AuditTold(r, id)) &&
    (forall k | k in r.replies :: ReplyTrue(r, r.replies[k])) &&
    (forall k | k in r.creates :: WasStored(r, r.creates[k].body))
  }

  /** Nothing remembered is forgotten: audit lists only grow, replies never change. */
  ghost predicate Remembers(r: Redis, r': Redis) {
    (forall id: Id :: AuditOf(r, id) <= AuditOf(r', id)) &&
    (forall k | k in r.replies :: k in r'.replies && r'.replies[k] == r.replies[k]) &&
    (forall k | k in r.creates :: k in r'.creates && r'.creates[k] == r.creates[k]) &&
    (forall id | id in r.docs :: id in r'.docs)
  }

  lemma StoredStays(r: Redis, r': Redis, d: Doc)
    requires WasStored(r, d) && AuditOf(r, d.id) <= AuditOf(r', d.id)
    ensures WasStored(r', d)
  {
    var i :| 0 <= i < |AuditOf(r, d.id)| && AuditOf(r, d.id)[i].after == d;
    assert AuditOf(r', d.id)[i] == AuditOf(r, d.id)[i];
  }

  lemma RememberedStaysTrue(r: Redis, r': Redis)
    requires Remembers(r, r')
    ensures forall reply | ReplyTrue(r, reply) :: ReplyTrue(r', reply)
    ensures forall d | WasStored(r, d) :: WasStored(r', d)
  {
    forall d | WasStored(r, d) ensures WasStored(r', d) {
      StoredStays(r, r', d);
    }
  }

  lemma CurrentIsStored(r: Redis, id: Id)
    requires Consistent(r) && id in r.docs
    ensures WasStored(r, r.docs[id])
  {
    assert AuditTold(r, id);
    assert AuditOf(r, id)[|AuditOf(r, id)| - 1].after == r.docs[id];
  }

  lemma CreateKeeps(r: Redis, actor: Id, doc: Doc, key: Option<CreateKey>, health: Health)
    requires Consistent(r)
    ensures var r' := CreateFlavor(r, actor, doc, key, health).0; Consistent(r') && Remembers(r, r')
  {
    hide Consistent, CreateFlavor, Remembers, WasStored, AuditTold;
    var (r', a) := CreateFlavor(r, actor, doc, key, health);
    CreateShows(r, actor, doc, key, health);
    if a.Created? {
      CreateKeepsIndex(r, actor, doc, key, health);
      CreateTells(r, actor, doc, key, health);
      AddedIsConsistent(r, r', doc);
    } else {
      RemembersItself(r);
    }
  }

  lemma AddedIsConsistent(r: Redis, r': Redis, doc: Doc)
    requires Consistent(r) && IndexExact(r') && (forall id: Id :: AuditTold(r', id)) && Remembers(r, r')
    requires WasStored(r', doc) && r'.replies == r.replies
    requires forall k | k in r'.creates :: (k in r.creates && r'.creates[k] == r.creates[k]) || r'.creates[k].body == doc
    ensures Consistent(r')
  {
    hide IndexExact, AuditTold, WasStored, ReplyTrue, Remembers;
    RememberedStaysTrue(r, r');
  }

  lemma CreateKeepsIndex(r: Redis, actor: Id, doc: Doc, key: Option<CreateKey>, health: Health)
    requires Consistent(r)
    ensures IndexExact(CreateFlavor(r, actor, doc, key, health).0)
  {
  }

  lemma CreateTells(r: Redis, actor: Id, doc: Doc, key: Option<CreateKey>, health: Health)
    requires Consistent(r) && CreateFlavor(r, actor, doc, key, health).1.Created?
    ensures var r' := CreateFlavor(r, actor, doc, key, health).0;
            WasStored(r', doc) && (forall id: Id :: AuditTold(r', id)) && Remembers(r, r') && r'.replies == r.replies &&
            (forall k | k in r'.creates :: (k in r.creates && r'.creates[k] == r.creates[k]) || r'.creates[k].body == doc)
  {
    var r' := CreateFlavor(r, actor, doc, key, health).0;
    assert AuditTold(r, doc.id);
    assert AuditOf(r', doc.id) == [Entry(actor, CreateAction, None, doc)];
    assert AuditOf(r', doc.id)[0].after == doc;
    forall id: Id ensures AuditTold(r', id) {
      assert AuditTold(r, id);
    }
  }

  lemma SwapKeepsIndex(r: Redis, actor: Id, action: Action, previous: Doc, doc: Doc)
    requires IndexExact(r) && doc.id in r.docs && r.docs[doc.id] == previous
    requires doc.folded in r.names ==> r.names[doc.folded] == doc.id
    ensures IndexExact(Swap(r, actor, action, previous, doc))
  {
  }

  lemma SwapKeepsAudit(r: Redis, actor: Id, action: Action, previous: Doc, doc: Doc, id: Id)
    requires AuditTold(r, id) && doc.id in r.docs && r.docs[doc.id] == previous && !action.CreateAction?
    ensures AuditTold(Swap(r, actor, action, previous, doc), id)
  {
  }

  lemma SwapRemembers(r: Redis, actor: Id, action: Action, previous: Doc, doc: Doc)
    ensures Remembers(r, Swap(r, actor, action, previous, doc))
    ensures WasStored(Swap(r, actor, action, previous, doc), doc)
  {
    var r' := Swap(r, actor, action, previous, doc);
    assert AuditOf(r', doc.id)[|AuditOf(r, doc.id)|].after == doc;
  }

  lemma SwapKeeps(r: Redis, actor: Id, action: Action, previous: Doc, doc: Doc)
    requires Consistent(r) && doc.id in r.docs && r.docs[doc.id] == previous && !action.CreateAction?
    requires doc.folded in r.names ==> r.names[doc.folded] == doc.id
    ensures Consistent(Swap(r, actor, action, previous, doc))
  {
    var r' := Swap(r, actor, action, previous, doc);
    SwapKeepsIndex(r, actor, action, previous, doc);
    SwapRemembers(r, actor, action, previous, doc);
    RememberedStaysTrue(r, r');
    forall id: Id ensures AuditTold(r', id) {
      assert AuditTold(r, id);
      SwapKeepsAudit(r, actor, action, previous, doc, id);
    }
    hide IndexExact, AuditTold, WasStored, ReplyTrue;
  }

  lemma UpdateKeeps(r: Redis, actor: Id, action: Action, previous: Doc, doc: Doc, health: Health)
    requires Consistent(r)
    ensures var r' := UpdateFlavor(r, actor, action, previous, doc, health).0; Consistent(r') && Remembers(r, r')
  {
    var (r', a) := UpdateFlavor(r, actor, action, previous, doc, health);
    if a.Updated? {
      SwapKeeps(r, actor, action, previous, doc);
      SwapRemembers(r, actor, action, previous, doc);
    }
  }

  lemma RememberReply(r: Redis, key: Id, hash: Fingerprint, doc: Doc)
    requires Consistent(r) && key !in r.replies && WasStored(r, doc) && doc.id == hash.id
    ensures var r' := r.(replies := r.replies[key := ReplyTo(hash, doc)]); Consistent(r') && Remembers(r, r')
  {
    var r' := r.(replies := r.replies[key := ReplyTo(hash, doc)]);
    assert forall id: Id :: AuditOf(r', id) == AuditOf(r, id);
    RememberedStaysTrue(r, r');
    forall id: Id ensures AuditTold(r', id) {
      assert AuditTold(r, id);
    }
    hide WasStored;
  }

  lemma KeyedKeeps(r: Redis, key: Id, hash: Fingerprint, previous: Doc, doc: Doc, health: Health)
    requires Consistent(r)
    ensures var r' := UpdateKeyed(r, key, hash, previous, doc, health).0; Consistent(r') && Remembers(r, r')
  {
    hide Consistent, Remembers, Swap, AuditOf;
    var (r', a) := UpdateKeyed(r, key, hash, previous, doc, health);
    if !a.Updated? {
      RemembersItself(r);
    } else if doc == previous {
      CurrentIsStored(r, doc.id);
      RememberReply(r, key, hash, doc);
    } else {
      var mid := Swap(r, hash.actor, hash.action, previous, doc);
      SwapKeeps(r, hash.actor, hash.action, previous, doc);
      SwapRemembers(r, hash.actor, hash.action, previous, doc);
      SwapShows(r, hash.actor, hash.action, previous, doc);
      RememberReply(mid, key, hash, doc);
      RemembersThrough(r, mid, r');
    }
  }

  lemma RemembersItself(r: Redis)
    ensures Remembers(r, r)
  {
  }

  lemma RemembersThrough(a: Redis, b: Redis, c: Redis)
    requires Remembers(a, b) && Remembers(b, c)
    ensures Remembers(a, c)
  {
  }

  // ----- runs ---------------------------------------------------------------

  datatype Input =
    | CreateInput(actor: Id, doc: Doc, ckey: Option<CreateKey>, health: Health)
    | UpdateInput(actor: Id, action: Action, previous: Doc, doc: Doc, health: Health)
    | KeyedInput(key: Id, hash: Fingerprint, previous: Doc, doc: Doc, health: Health)
    | ReplyExpires(gone: Id)  // the time to live of a remembered reply has passed
    | CreateReplyExpires(lost: string)

  ghost function Step(r: Redis, i: Input): (Redis, Answer) {
    match i
    case CreateInput(actor, doc, ckey, health) => CreateFlavor(r, actor, doc, ckey, health)
    case UpdateInput(actor, action, previous, doc, health) => UpdateFlavor(r, actor, action, previous, doc, health)
    case KeyedInput(key, hash, previous, doc, health) => UpdateKeyed(r, key, hash, previous, doc, health)
    case ReplyExpires(key) => (r.(replies := r.replies - {key}), Updated)
    case CreateReplyExpires(key) => (r.(creates := r.creates - {key}), Updated)
  }

  ghost function Run(inputs: seq<Input>): Redis {
    if inputs == [] then EMPTY_REDIS else Step(Run(inputs[..|inputs| - 1]), inputs[|inputs| - 1]).0
  }

  lemma ForgetKeeps(r: Redis, r': Redis)
    requires Consistent(r) && r' == r.(replies := r'.replies, creates := r'.creates)
    requires forall k | k in r'.replies :: k in r.replies && r'.replies[k] == r.replies[k]
    requires forall k | k in r'.creates :: k in r.creates && r'.creates[k] == r.creates[k]
    ensures Consistent(r')
  {
    forall id: Id ensures AuditTold(r', id) && AuditOf(r', id) == AuditOf(r, id) {
      assert AuditTold(r, id);
    }
    forall d ensures WasStored(r', d) <==> WasStored(r, d) {
    }
  }

  lemma StepKeeps(r: Redis, i: Input)
    requires Consistent(r)
    ensures Consistent(Step(r, i).0)
    ensures !i.ReplyExpires? && !i.CreateReplyExpires? ==> Remembers(r, Step(r, i).0)
  {
    match i
    case CreateInput(actor, doc, ckey, health) => CreateKeeps(r, actor, doc, ckey, health);
    case UpdateInput(actor, action, previous, doc, health) => UpdateKeeps(r, actor, action, previous, doc, health);
    case KeyedInput(key, hash, previous, doc, health) => KeyedKeeps(r, key, hash, previous, doc, health);
    case ReplyExpires(key) => ForgetKeeps(r, Step(r, i).0);
    case CreateReplyExpires(key) => ForgetKeeps(r, Step(r, i).0);
  }

  /** After any mix of creates and updates, keyed or not, on any snapshots: the index is a
      bijection, the id set is the stored flavors, and every document's audit list is the
      unbroken chain of its versions. */
  lemma {:induction false} EveryCatalogConsistent(inputs: seq<Input>)
    ensures Consistent(Run(inputs))
  {
    if inputs != [] {
      EveryCatalogConsistent(inputs[..|inputs| - 1]);
      StepKeeps(Run(inputs[..|inputs| - 1]), inputs[|inputs| - 1]);
    }
  }

  /** A remembered reply stays until its time to live has passed. */
  lemma StepKeepsReply(r: Redis, i: Input, key: Id)
    requires Consistent(r) && key in r.replies && i != ReplyExpires(key)
    ensures key in Step(r, i).0.replies && Step(r, i).0.replies[key] == r.replies[key]
  {
    StepKeeps(r, i);
    hide Consistent;
  }

  lemma StepKeepsCreateReply(r: Redis, i: Input, key: string)
    requires Consistent(r) && key in r.creates && i != CreateReplyExpires(key)
    ensures key in Step(r, i).0.creates && Step(r, i).0.creates[key] == r.creates[key]
  {
    StepKeeps(r, i);
    hide Consistent;
  }

  lemma {:induction false} ReplyStays(inputs: seq<Input>, n: nat, key: Id)
    requires n <= |inputs| && key in Run(inputs[..n]).replies
    requires forall m | n <= m < |inputs| :: inputs[m] != ReplyExpires(key)
    ensures key in Run(inputs).replies && Run(inputs).replies[key] == Run(inputs[..n]).replies[key]
    decreases |inputs|
  {
    if n == |inputs| {
      assert inputs[..n] == inputs;
    } else {
      var front, last := inputs[..|inputs| - 1], inputs[|inputs| - 1];
      assert front[..n] == inputs[..n];
      ReplyStays(front, n, key);
      EveryCatalogConsistent(front);
      hide Consistent, Step;
      StepKeepsReply(Run(front), last, key);
    }
  }

  lemma {:induction false} CreateReplyStays(inputs: seq<Input>, n: nat, key: string)
    requires n <= |inputs| && key in Run(inputs[..n]).creates
    requires forall m | n <= m < |inputs| :: inputs[m] != CreateReplyExpires(key)
    ensures key in Run(inputs).creates && Run(inputs).creates[key] == Run(inputs[..n]).creates[key]
    decreases |inputs|
  {
    if n == |inputs| {
      assert inputs[..n] == inputs;
    } else {
      var front, last := inputs[..|inputs| - 1], inputs[|inputs| - 1];
      assert front[..n] == inputs[..n];
      CreateReplyStays(front, n, key);
      EveryCatalogConsistent(front);
      hide Consistent, Step;
      StepKeepsCreateReply(Run(front), last, key);
    }
  }

  /** The change a keyed input stands for. */
  ghost function FirstReply(i: Input): Option<Doc>
    requires i.KeyedInput?
  {
    if i.hash.action.ArchiveAction? then None else Some(i.doc)
  }

  /** Until its reply expires, and whatever happens in between, a keyed retry gets the reply
      of the change that was committed and changes nothing; another request on that key is
      refused and changes nothing. */
  lemma KeyedRetryReplays(inputs: seq<Input>, n: nat, retry: Input)
    requires n < |inputs| && inputs[n].KeyedInput? && Step(Run(inputs[..n]), inputs[n]).1.Updated?
    requires forall m | n < m < |inputs| :: inputs[m] != ReplyExpires(inputs[n].key)
    requires retry.KeyedInput? && retry.key == inputs[n].key && retry.doc.id == retry.hash.id
    requires Auditable(retry.hash.actor, retry.hash.action, retry.previous, retry.doc)
    ensures Step(Run(inputs), retry).0 == Run(inputs)
    ensures Step(Run(inputs), retry).1 == if retry.hash == inputs[n].hash then Replayed(FirstReply(inputs[n])) else KeyConflict
  {
    hide Run;
    CommittedReplyStays(inputs, n);
  }

  lemma CommittedReplyStays(inputs: seq<Input>, n: nat)
    requires n < |inputs| && inputs[n].KeyedInput? && Step(Run(inputs[..n]), inputs[n]).1.Updated?
    requires forall m | n < m < |inputs| :: inputs[m] != ReplyExpires(inputs[n].key)
    ensures inputs[n].key in Run(inputs).replies && Run(inputs).replies[inputs[n].key] == ReplyTo(inputs[n].hash, inputs[n].doc)
    ensures inputs[n].doc.id == inputs[n].hash.id && inputs[n].key != NIL
  {
    var before, first := Run(inputs[..n]), Run(inputs[..n + 1]);
    assert first == Step(before, inputs[n]).0 by {
      assert inputs[..n + 1][..n] == inputs[..n];
    }
    hide Run;
    FirstBinds(before, inputs[n]);
    ReplyStays(inputs, n + 1, inputs[n].key);
  }

  lemma FirstBinds(r: Redis, i: Input)
    requires i.KeyedInput? && Step(r, i).1.Updated?
    ensures var r' := Step(r, i).0; i.key in r'.replies && r'.replies[i.key] == ReplyTo(i.hash, i.doc) && i.doc.id == i.hash.id && i.key != NIL
  {
  }

  /** Until its reply expires, a keyed creation is answered with the document it created. */
  lemma CreateRetryReplays(inputs: seq<Input>, n: nat, retry: Input)
    requires n < |inputs| && inputs[n].CreateInput? && inputs[n].ckey.Some? && Step(Run(inputs[..n]), inputs[n]).1.Created?
    requires retry.CreateInput? && retry.ckey.Some? && retry.ckey.value.key == inputs[n].ckey.value.key
    requires forall m | n < m < |inputs| :: inputs[m] != CreateReplyExpires(inputs[n].ckey.value.key)
    requires retry.actor != NIL && retry.doc.id != NIL
    ensures Step(Run(inputs), retry).0 == Run(inputs)
    ensures Step(Run(inputs), retry).1 ==
            if retry.ckey.value.hash == inputs[n].ckey.value.hash then Replayed(Some(inputs[n].doc)) else KeyConflict
  {
    var before, first, key := Run(inputs[..n]), Run(inputs[..n + 1]), inputs[n].ckey.value;
    assert first == Step(before, inputs[n]).0 by {
      assert inputs[..n + 1][..n] == inputs[..n];
    }
    hide Run;
    assert key.key in first.creates && first.creates[key.key] == CreateReply(key.hash, inputs[n].doc);
    CreateReplyStays(inputs, n + 1, key.key);
  }

  /** A writer holding an outdated snapshot never overwrites a newer document. */
  lemma StaleWritersLose(r: Redis, i: Input)
    requires (i.UpdateInput? || i.KeyedInput?) && Consistent(r) && i.doc.id in r.docs && r.docs[i.doc.id] != i.previous
    ensures Step(r, i).0 == r
  {
  }

  /** Every committed change of a document is one new audit entry of its own; nothing else
      adds an entry, save an unkeyed update that rewrites a document as it was. */
  lemma OneEntryPerChange(r: Redis, i: Input, id: Id)
    requires Consistent(r)
    ensures var r' := Step(r, i).0;
            var changed := (id in r'.docs) != (id in r.docs) || (id in r.docs && id in r'.docs && r'.docs[id] != r.docs[id]);
            var rewritten := i.UpdateInput? && Step(r, i).1.Updated? && i.doc.id == id && i.doc == i.previous;
            |AuditOf(r', id)| == |AuditOf(r, id)| + if changed || rewritten then 1 else 0
  {
  }
}
