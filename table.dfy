/** The `SELECT * FROM t WHERE <filter> ORDER BY created_at DESC` query that
    every listing handler runs, over a table abstracted as a map from row id
    to row.  The SQL order among rows with the same `created_at` is left open
    by the database; the model fixes it (the larger id first) but the listing
    contracts only promise a non-increasing `created_at`. */
module Table {
  import opened Base

  /** `SELECT * FROM t WHERE id = ?`, which the get, update and delete
      handlers of every table start from: the row, or not-found. */
  function Find<R>(rows: map<nat, R>, id: nat): (r: Option<R>)
    ensures r.Some? <==> id in rows
    ensures r.Some? ==> r.value == rows[id]
  {
    if id in rows then Some(rows[id]) else None
  }

  /** Row `a` is listed no later than row `b`: a later stamp, or the same
      stamp and an id at least as large. */
  predicate Precedes<R>(rows: map<nat, R>, stamp: R -> nat, a: nat, b: nat)
    requires a in rows && b in rows
  {
    stamp(rows[a]) > stamp(rows[b]) || (stamp(rows[a]) == stamp(rows[b]) && a >= b)
  }

  /** `m` is the row of `ids` to list first. */
  predicate IsNewest<R>(rows: map<nat, R>, stamp: R -> nat, ids: set<nat>, m: nat)
    requires ids <= rows.Keys
  {
    m in ids && forall k :: k in ids ==> Precedes(rows, stamp, m, k)
  }

  /** Every non-empty set of rows has a row to list first. */
  lemma {:induction false} NewestExists<R>(rows: map<nat, R>, stamp: R -> nat, ids: set<nat>)
    requires ids <= rows.Keys && ids != {}
    ensures exists m :: IsNewest(rows, stamp, ids, m)
    decreases ids
  {
    var x :| x in ids;
    if ids == {x} {
      assert IsNewest(rows, stamp, ids, x);
    } else {
      NewestExists(rows, stamp, ids - {x});
      var m :| IsNewest(rows, stamp, ids - {x}, m);
      if Precedes(rows, stamp, x, m) {
        forall k | k in ids
          ensures Precedes(rows, stamp, x, k)
        {
          if k != x { assert Precedes(rows, stamp, m, k); }
        }
        assert IsNewest(rows, stamp, ids, x);
      } else {
        assert IsNewest(rows, stamp, ids, m);
      }
    }
  }

  /** The ids of `ids`, newest first. */
  function NewestFirst<R>(rows: map<nat, R>, stamp: R -> nat, ids: set<nat>): (r: seq<nat>)
    requires ids <= rows.Keys
    ensures forall k :: k in r <==> k in ids
    ensures |r| == |ids|
    ensures forall i, j :: 0 <= i < j < |r| ==> r[i] != r[j] && Precedes(rows, stamp, r[i], r[j])
    decreases ids
  {
    if ids == {} then []
    else
      NewestExists(rows, stamp, ids);
      var m :| IsNewest(rows, stamp, ids, m);
      [m] + NewestFirst(rows, stamp, ids - {m})
  }

  /** `SELECT * ... WHERE keep ORDER BY stamp DESC`, as (id, row) pairs:
      exactly the rows that satisfy `keep`, each once, newest first. */
  function Select<R>(rows: map<nat, R>, keep: R -> bool, stamp: R -> nat): (r: seq<(nat, R)>)
    ensures forall p :: p in r ==> p.0 in rows && rows[p.0] == p.1 && keep(p.1)
    ensures forall id :: id in rows && keep(rows[id]) ==> (id, rows[id]) in r
    ensures forall i, j :: 0 <= i < j < |r| ==> r[i].0 != r[j].0 && stamp(r[i].1) >= stamp(r[j].1)
  {
    var ids := NewestFirst(rows, stamp, set k | k in rows && keep(rows[k]));
    Pairs(rows, ids)
  }

  /** The WHERE clause `user_id = ?` of an owner listing, over the table's
      owner column `owner`. */
  function OwnedBy<R, K(==)>(owner: R -> K, user: K): R -> bool {
    (row: R) => owner(row) == user
  }

  /** `SELECT * FROM t WHERE user_id = ? ORDER BY created_at DESC`, the
      per-user listing of videos, icons and analytics events: exactly the
      rows of `user`, each once, newest first. */
  function ListOwned<R, K(==)>(rows: map<nat, R>, owner: R -> K, stamp: R -> nat, user: K): (r: seq<(nat, R)>)
    ensures forall p :: p in r ==> p.0 in rows && rows[p.0] == p.1 && owner(p.1) == user
    ensures forall id :: id in rows && owner(rows[id]) == user ==> (id, rows[id]) in r
    ensures forall i, j :: 0 <= i < j < |r| ==> r[i].0 != r[j].0 && stamp(r[i].1) >= stamp(r[j].1)
  {
    Select(rows, OwnedBy(owner, user), stamp)
  }

  /** The rows under `ids`, in that order, paired with their ids. */
  function Pairs<R>(rows: map<nat, R>, ids: seq<nat>): (r: seq<(nat, R)>)
    requires forall k :: k in ids ==> k in rows
    ensures |r| == |ids|
    ensures forall i :: 0 <= i < |r| ==> r[i] == (ids[i], rows[ids[i]])
    ensures forall p :: p in r ==> p.0 in ids && rows[p.0] == p.1
    ensures forall k :: k in ids ==> (k, rows[k]) in r
  {
    if ids == [] then [] else [(ids[0], rows[ids[0]])] + Pairs(rows, ids[1..])
  }

  /** A row whose stamp is later than every other row's is listed first by
      any query that keeps it. */
  lemma LatestListedFirst<R>(rows: map<nat, R>, keep: R -> bool, stamp: R -> nat, id: nat)
    requires id in rows && keep(rows[id])
    requires forall k :: k in rows && k != id ==> stamp(rows[k]) < stamp(rows[id])
    ensures |Select(rows, keep, stamp)| > 0 && Select(rows, keep, stamp)[0] == (id, rows[id])
  {
    var r := Select(rows, keep, stamp);
    assert (id, rows[id]) in r;
    var i :| 0 <= i < |r| && r[i] == (id, rows[id]);
    assert i == 0;
  }

  /** A row inserted with a stamp later than every stored row's leads any
      listing that keeps it: with a valid table and `elapsed > 0`, the row a
      create handler inserts is the first its listing shows. */
  lemma InsertedListedFirst<R>(rows: map<nat, R>, keep: R -> bool, stamp: R -> nat, id: nat, row: R)
    requires keep(row)
    requires forall k :: k in rows ==> stamp(rows[k]) < stamp(row)
    ensures |Select(rows[id := row], keep, stamp)| > 0 && Select(rows[id := row], keep, stamp)[0] == (id, row)
  {
    var after := rows[id := row];
    assert forall k :: k in after && k != id ==> stamp(after[k]) < stamp(row);
    LatestListedFirst(after, keep, stamp, id);
  }
}
