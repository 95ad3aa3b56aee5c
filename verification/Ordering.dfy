/** The row orders that the services ask their stores for: ascending by two
    timestamps and then by id, so the order is strict and its result unique. */
module Ordering {

  /** A canonical UUID read as a 128-bit number. Fixed-width lower-case hexadecimal
      text sorts like the number, so `<` is also the order of the text form. Zero
      stands for the nil UUID and for any text that does not parse. */
  type Id = nat

  const NIL: Id := 0

  datatype Rank = Rank(major: nat, minor: nat)

  predicate Before(rank: map<Id, Rank>, a: Id, b: Id)
    requires a in rank && b in rank
  {
    rank[a].major < rank[b].major ||
    (rank[a].major == rank[b].major &&
      (rank[a].minor < rank[b].minor || (rank[a].minor == rank[b].minor && a < b)))
  }

  ghost predicate IsFirst(ids: set<Id>, rank: map<Id, Rank>, m: Id)
    requires ids <= rank.Keys
  {
    m in ids && forall x | x in ids && x != m :: Before(rank, m, x)
  }

  lemma {:induction false} FirstExists(ids: set<Id>, rank: map<Id, Rank>)
    requires ids != {} && ids <= rank.Keys
    ensures exists m :: IsFirst(ids, rank, m)
    decreases |ids|
  {
    var x :| x in ids;
    if ids == {x} {
      assert IsFirst(ids, rank, x);
    } else {
      var rest := ids - {x};
      assert ids == rest + {x};
      FirstExists(rest, rank);
      var m :| IsFirst(rest, rank, m);
      assert IsFirst(ids, rank, if Before(rank, x, m) then x else m);
    }
  }

  /** `SELECT ... ORDER BY major, minor, id` over the rows `ids`. */
  function OrderBy(ids: set<Id>, rank: map<Id, Rank>): (rows: seq<Id>)
    requires ids <= rank.Keys
    ensures |rows| == |ids|
    ensures forall x :: x in rows <==> x in ids
    ensures forall i, j | 0 <= i < j < |rows| :: Before(rank, rows[i], rows[j])
    decreases |ids|
  {
    if ids == {} then [] else
      FirstExists(ids, rank);
      var m :| m in ids && forall x | x in ids && x != m :: Before(rank, m, x);
      [m] + OrderBy(ids - {m}, rank)
  }
}
