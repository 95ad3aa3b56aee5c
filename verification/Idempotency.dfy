/** Exactly-once mutations. A claim on every key of a request, the stock effect and
    the response commit together; a later request on any of those keys replays the
    committed response, is refused, or binds new aliases to it. The request hash is
    taken as injective, so a record keeps the request itself. */
module Idempotency {
  import opened InventoryModel

  datatype Record<Q, V> = Record(request: Q, response: V)

  /** The claim loop: walk the keys, remember the response to replay, and stop at a
      record of another request or with another response. */
  function Claim<K(==), Q(==), V(==)>(table: map<K, Record<Q, V>>, keys: seq<K>, request: Q, replay: Option<V>)
    : Result<Option<V>>
    decreases |keys|
  {
    if keys == [] then Ok(replay)
    else if keys[0] !in table then Claim(table, keys[1..], request, replay)
    else
      var saved := table[keys[0]];
      if saved.request != request then Err(Conflict)
      else if replay.Some? && replay.value != saved.response then Err(Conflict)
      else Claim(table, keys[1..], request, Some(saved.response))
  }

  /** Persist the response under every claimed key; a committed record is never replaced. */
  function Bind<K(==), Q, V>(table: map<K, Record<Q, V>>, keys: seq<K>, record: Record<Q, V>): map<K, Record<Q, V>>
    decreases |keys|
  {
    if keys == [] then table
    else Bind(if keys[0] in table then table else table[keys[0] := record], keys[1..], record)
  }

  datatype Served<S, K(==), Q, V> = Served(state: S, table: map<K, Record<Q, V>>, result: Result<V>, ran: bool)

  function Serve<S, K(==), Q(==), V(==)>(state: S, table: map<K, Record<Q, V>>, keys: seq<K>, request: Q,
                                         effect: Result<(S, V)>): Served<S, K, Q, V>
  {
    if keys == [] then Served(state, table, Err(Invalid), false) else
    match Claim(table, keys, request, None)
    case Err(e) => Served(state, table, Err(e), false)
    case Ok(Some(v)) => Served(state, Bind(table, keys, Record(request, v)), Ok(v), false)
    case Ok(None) =>
      match effect
      case Err(e) => Served(state, table, Err(e), false)
      case Ok((state', v)) => Served(state', Bind(table, keys, Record(request, v)), Ok(v), true)
  }

  // ----- what the loops compute ---------------------------------------------

  /** The keys already present agree on `request` and on the response `v`. */
  ghost predicate Agree<K, Q, V>(table: map<K, Record<Q, V>>, keys: seq<K>, request: Q, v: V) {
    forall k | k in keys && k in table :: table[k] == Record(request, v)
  }

  lemma {:induction false} ClaimMeaning<K, Q, V>(table: map<K, Record<Q, V>>, keys: seq<K>, request: Q, replay: Option<V>)
    ensures Claim(table, keys, request, replay) == Ok(None) <==>
              replay.None? && forall k | k in keys :: k !in table
    ensures forall v :: Claim(table, keys, request, replay) == Ok(Some(v)) <==>
              Agree(table, keys, request, v) && (replay == Some(v) || (replay.None? && exists k | k in keys :: k in table))
    ensures Claim(table, keys, request, replay).Err? ==> Claim(table, keys, request, replay).error == Conflict
    decreases |keys|
  {
    if keys != [] {
      assert forall k :: k in keys <==> k == keys[0] || k in keys[1..];
      var next := if keys[0] in table then Some(table[keys[0]].response) else replay;
      ClaimMeaning(table, keys[1..], request, next);
    }
  }

  lemma {:induction false} BindMeaning<K, Q, V>(table: map<K, Record<Q, V>>, keys: seq<K>, record: Record<Q, V>)
    ensures forall k | k in table || k in keys :: k in Bind(table, keys, record)
    ensures forall k | k in Bind(table, keys, record) :: k in table || k in keys
    ensures forall k | k in Bind(table, keys, record) ::
              Bind(table, keys, record)[k] == if k in table then table[k] else record
    decreases |keys|
  {
    if keys != [] {
      BindMeaning(if keys[0] in table then table else table[keys[0] := record], keys[1..], record);
    }
  }

  ghost predicate Keeps<K, Q, V>(table: map<K, Record<Q, V>>, table': map<K, Record<Q, V>>) {
    forall k | k in table :: k in table' && table'[k] == table[k]
  }

  /** Success leaves every key of the request bound to the answer that was given, and
      no committed record changes; failure changes nothing at all. */
  lemma ServeRecords<S, K, Q, V>(state: S, table: map<K, Record<Q, V>>, keys: seq<K>, request: Q, effect: Result<(S, V)>)
    ensures var o := Serve(state, table, keys, request, effect);
            Keeps(table, o.table) &&
            (o.result.Ok? ==> forall k | k in keys :: k in o.table && o.table[k] == Record(request, o.result.value)) &&
            (o.result.Err? ==> o.state == state && o.table == table) &&
            (o.ran <==> o.result.Ok? && forall k | k in keys :: k !in table) &&
            (!o.ran ==> o.state == state) &&
            (o.ran ==> effect.Ok? && effect.value == (o.state, o.result.value)) &&
            (forall k | k in o.table && k !in table :: k in keys)
  {
    ClaimMeaning(table, keys, request, None);
    if Claim(table, keys, request, None).Ok? {
      var c := Claim(table, keys, request, None).value;
      if c.Some? {
        assert Claim(table, keys, request, None) == Ok(Some(c.value));
        var bound := Bind(table, keys, Record(request, c.value));
        BindMeaning(table, keys, Record(request, c.value));
        assert Serve(state, table, keys, request, effect).table == bound;
        forall k | k in keys ensures k in bound && bound[k] == Record(request, c.value) {
        }
      } else if effect.Ok? {
        BindMeaning(table, keys, Record(request, effect.value.1));
      }
    }
  }

  /** Once some key of a request is committed, whatever happened since: the same
      request gets the original response (and its remaining keys become aliases of
      it) unless another of its keys already answers something else, in which case,
      as for any other request on that key, it is refused and nothing changes. */
  lemma ServeAgain<S, K, Q, V>(state: S, table: map<K, Record<Q, V>>, keys: seq<K>, request: Q, effect: Result<(S, V)>, k: K)
    requires k in keys && k in table
    ensures var o := Serve(state, table, keys, request, effect);
            !o.ran && o.state == state &&
            (o.result.Ok? <==> Agree(table, keys, request, table[k].response)) &&
            (o.result.Ok? ==> o.result.value == table[k].response && table[k].request == request) &&
            (o.result.Err? ==> o.result.error == Conflict && o.table == table)
  {
    ClaimMeaning(table, keys, request, None);
    if Claim(table, keys, request, None).Ok? {
      var c := Claim(table, keys, request, None).value;
      assert c.Some? && Agree(table, keys, request, c.value);
      assert table[k] == Record(request, c.value);
    }
  }
}
