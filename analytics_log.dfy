/** The `analytics` table of server/controllers/analyticsController.js: an
    append-only event log, listed per user newest first, and summarised as
    one count per event type (`GROUP BY event_type ORDER BY count DESC`). */
module AnalyticsLog {
  import opened Base
  import Table

  datatype AnalyticsEvent = AnalyticsEvent(
    user_id: Option<nat>,
    event_type: string,
    event_data: Json,
    created_at: nat)

  /** The row trackEvent inserts: `user_id ?? null` and `event_data ?? {}`.
      A JSON `null` in the body is JavaScript's `null` after parsing, so it
      is replaced by `{}` whether it arrives as `Null` or as `Given(JNull)`. */
  function RecordedEvent(user_id: Input<nat>, event_type: string, event_data: Input<Json>, stamp: nat)
    : (e: AnalyticsEvent)
    ensures e.user_id.None? <==> (user_id.Undefined? || user_id.Null?)
    ensures user_id.Given? ==> e.user_id == Some(user_id.value)
    ensures event_data.Given? && event_data.value != JNull ==> e.event_data == event_data.value
    ensures event_data.Undefined? || event_data.Null? || event_data == Given(JNull) ==> e.event_data == JObj(map[])
    ensures e.event_data != JNull
    ensures e.event_type == event_type && e.created_at == stamp
  {
    var data := if event_data == Given(JNull) then Null else event_data;
    AnalyticsEvent(Nullish(user_id), event_type, Nullish(data).GetOr(JObj(map[])), stamp)
  }

  /** The owner column, which the per-user listing filters on; a NULL
      owner matches no user. */
  function Owner(e: AnalyticsEvent): Option<nat> {
    e.user_id
  }

  /** The ORDER BY key. */
  function CreatedAt(e: AnalyticsEvent): nat {
    e.created_at
  }

  // ---------------------------------------------------------------------
  // The summary

  /** One row of the summary: an event type and its number of events. */
  datatype Group = Group(event_type: string, count: nat)

  /** The ids of the rows of type `t`. */
  function RowsOfType(rows: map<nat, AnalyticsEvent>, t: string): set<nat> {
    set id | id in rows && rows[id].event_type == t
  }

  /** The event types that occur in the log. */
  function EventTypes(rows: map<nat, AnalyticsEvent>): set<string> {
    set id | id in rows :: rows[id].event_type
  }

  predicate Distinct(s: seq<string>) {
    forall i, j :: 0 <= i < j < |s| ==> s[i] != s[j]
  }

  /** The event types of a list of groups, in order. */
  function Types(g: seq<Group>): (s: seq<string>)
    ensures |s| == |g| && forall i :: 0 <= i < |g| ==> s[i] == g[i].event_type
  {
    if g == [] then [] else [g[0].event_type] + Types(g[1..])
  }

  predicate SortedByCount(g: seq<Group>) {
    forall i, j :: 0 <= i < j < |g| ==> g[i].count >= g[j].count
  }

  /** The count listed for `t`, 0 when `t` is not listed. */
  function CountOf(g: seq<Group>, t: string): nat {
    if g == [] then 0 else if g[0].event_type == t then g[0].count else CountOf(g[1..], t)
  }

  /** The sum of the counts. */
  function Total(g: seq<Group>): nat {
    if g == [] then 0 else g[0].count + Total(g[1..])
  }

  /** The number of times `t` occurs in `s`. */
  function Occurrences(s: seq<string>, t: string): nat {
    if s == [] then 0 else Occurrences(s[..|s| - 1], t) + (if s[|s| - 1] == t then 1 else 0)
  }

  /** `g` with one more event of type `t` counted: the first group of that
      type grows by one, or a group `(t, 1)` is added at the end. */
  function Bump(g: seq<Group>, t: string): seq<Group> {
    if g == [] then [Group(t, 1)]
    else if g[0].event_type == t then [g[0].(count := g[0].count + 1)] + g[1..]
    else [g[0]] + Bump(g[1..], t)
  }

  /** The groups of `s`, in order of first occurrence. */
  function Tally(s: seq<string>): seq<Group> {
    if s == [] then [] else Bump(Tally(s[..|s| - 1]), s[|s| - 1])
  }

  /** `e` placed into `g` before the first group whose count is not larger. */
  function Insert(e: Group, g: seq<Group>): seq<Group> {
    if g == [] || g[0].count <= e.count then [e] + g else [g[0]] + Insert(e, g[1..])
  }

  /** Insertion sort by count, largest first. */
  function SortByCount(g: seq<Group>): seq<Group> {
    if g == [] then [] else Insert(g[0], SortByCount(g[1..]))
  }

  lemma {:induction false} BumpCount(g: seq<Group>, t: string, u: string)
    ensures CountOf(Bump(g, t), u) == CountOf(g, u) + (if u == t then 1 else 0)
  {
    if g != [] && g[0].event_type != t {
      BumpCount(g[1..], t, u);
    }
  }

  lemma {:induction false} BumpTotal(g: seq<Group>, t: string)
    ensures Total(Bump(g, t)) == Total(g) + 1
  {
    if g != [] && g[0].event_type != t {
      BumpTotal(g[1..], t);
    }
  }

  lemma {:induction false} BumpTypes(g: seq<Group>, t: string)
    ensures t in Types(g) ==> Types(Bump(g, t)) == Types(g)
    ensures t !in Types(g) ==> Types(Bump(g, t)) == Types(g) + [t]
  {
    if g != [] && g[0].event_type != t {
      BumpTypes(g[1..], t);
      assert Types(g) == [g[0].event_type] + Types(g[1..]);
    }
  }

  lemma {:induction false} TallyCount(s: seq<string>, u: string)
    ensures CountOf(Tally(s), u) == Occurrences(s, u)
  {
    if s != [] {
      TallyCount(s[..|s| - 1], u);
      BumpCount(Tally(s[..|s| - 1]), s[|s| - 1], u);
    }
  }

  lemma {:induction false} TallyTotal(s: seq<string>)
    ensures Total(Tally(s)) == |s|
  {
    if s != [] {
      TallyTotal(s[..|s| - 1]);
      BumpTotal(Tally(s[..|s| - 1]), s[|s| - 1]);
    }
  }

  /** Tally lists each element of `s` once. */
  lemma {:induction false} TallyTypes(s: seq<string>)
    ensures Distinct(Types(Tally(s)))
    ensures forall u :: u in Types(Tally(s)) <==> u in s
  {
    if s != [] {
      var p, x := s[..|s| - 1], s[|s| - 1];
      TallyTypes(p);
      BumpTypes(Tally(p), x);
      assert s == p + [x];
    }
  }

  lemma {:induction false} InsertTotal(e: Group, g: seq<Group>)
    ensures Total(Insert(e, g)) == e.count + Total(g)
  {
    if g != [] && g[0].count > e.count {
      InsertTotal(e, g[1..]);
    }
  }

  lemma {:induction false} InsertPermutes(e: Group, g: seq<Group>)
    ensures multiset(Insert(e, g)) == multiset{e} + multiset(g)
  {
    if g != [] && g[0].count > e.count {
      InsertPermutes(e, g[1..]);
      assert g == [g[0]] + g[1..];
    }
  }

  lemma {:induction false} InsertPermutesTypes(e: Group, g: seq<Group>)
    ensures multiset(Types(Insert(e, g))) == multiset{e.event_type} + multiset(Types(g))
  {
    if g == [] || g[0].count <= e.count {
      assert ([e] + g)[1..] == g;
    } else {
      InsertPermutesTypes(e, g[1..]);
      var r := Insert(e, g[1..]);
      assert ([g[0]] + r)[1..] == r;
      assert Types(g) == [g[0].event_type] + Types(g[1..]);
      assert Types([g[0]] + r) == [g[0].event_type] + Types(r);
    }
  }

  lemma {:induction false} InsertSorted(e: Group, g: seq<Group>)
    requires SortedByCount(g)
    ensures SortedByCount(Insert(e, g))
  {
    if g != [] && g[0].count > e.count {
      InsertSorted(e, g[1..]);
      InsertPermutes(e, g[1..]);
      var r := Insert(e, g[1..]);
      forall j | 0 <= j < |r| ensures g[0].count >= r[j].count {
        assert r[j] in multiset(r);
        assert r[j] == e || r[j] in g[1..];
      }
    }
  }

  lemma {:induction false} SortFacts(g: seq<Group>)
    ensures SortedByCount(SortByCount(g))
    ensures multiset(SortByCount(g)) == multiset(g)
    ensures Total(SortByCount(g)) == Total(g)
  {
    if g != [] {
      SortFacts(g[1..]);
      InsertSorted(g[0], SortByCount(g[1..]));
      InsertPermutes(g[0], SortByCount(g[1..]));
      InsertTotal(g[0], SortByCount(g[1..]));
      assert g == [g[0]] + g[1..];
    }
  }

  lemma {:induction false} SortPermutesTypes(g: seq<Group>)
    ensures multiset(Types(SortByCount(g))) == multiset(Types(g))
  {
    if g != [] {
      SortPermutesTypes(g[1..]);
      InsertPermutesTypes(g[0], SortByCount(g[1..]));
      assert Types(g) == [g[0].event_type] + Types(g[1..]);
    }
  }

  /** A sequence is duplicate-free exactly when no element occurs twice. */
  lemma {:induction false} DistinctMultiplicity(s: seq<string>)
    ensures Distinct(s) <==> forall x :: multiset(s)[x] <= 1
  {
    if s != [] {
      DistinctMultiplicity(s[1..]);
      assert s == [s[0]] + s[1..];
      if Distinct(s) {
        assert s[0] !in s[1..] by {
          forall k | 0 <= k < |s[1..]| ensures s[1..][k] != s[0] {
            assert s[k + 1] != s[0];
          }
        }
      }
      if forall x :: multiset(s)[x] <= 1 {
        assert multiset(s) == multiset{s[0]} + multiset(s[1..]);
        assert forall x :: multiset(s[1..])[x] <= multiset(s)[x];
        assert Distinct(s[1..]);
        assert multiset(s[1..])[s[0]] == 0;
        forall i, j | 0 <= i < j < |s| ensures s[i] != s[j] {
          if i == 0 {
            assert s[j] == s[1..][j - 1];
            assert s[j] in multiset(s[1..]);
          } else {
            assert s[1..][i - 1] == s[i] && s[1..][j - 1] == s[j];
          }
        }
      }
    }
  }

  /** In a list with one group per type, a listed group's count is its type's count. */
  lemma {:induction false} CountOfListed(g: seq<Group>, e: Group)
    requires Distinct(Types(g)) && e in g
    ensures CountOf(g, e.event_type) == e.count
  {
    if g[0] != e {
      var i :| 1 <= i < |g| && g[i] == e;
      assert Types(g)[0] != Types(g)[i];
      assert Distinct(Types(g[1..])) by {
        forall a, b | 0 <= a < b < |g[1..]| ensures Types(g[1..])[a] != Types(g[1..])[b] {
          assert Types(g)[a + 1] != Types(g)[b + 1];
        }
      }
      assert g[1..][i - 1] == e;
      CountOfListed(g[1..], e);
    }
  }

  /** The event types of the rows under `ids`, in that order. */
  function TypeColumn(rows: map<nat, AnalyticsEvent>, ids: seq<nat>): (s: seq<string>)
    requires forall k :: k in ids ==> k in rows
    ensures |s| == |ids|
    ensures forall i :: 0 <= i < |ids| ==> s[i] == rows[ids[i]].event_type
  {
    if ids == [] then [] else TypeColumn(rows, ids[..|ids| - 1]) + [rows[ids[|ids| - 1]].event_type]
  }

  /** The ids among `ids` whose row has type `t`. */
  function MatchingIds(rows: map<nat, AnalyticsEvent>, ids: seq<nat>, t: string): set<nat>
    requires forall k :: k in ids ==> k in rows
  {
    set k | k in ids && rows[k].event_type == t
  }

  lemma MatchingIdsStep(rows: map<nat, AnalyticsEvent>, p: seq<nat>, last: nat, t: string)
    requires forall k :: k in p + [last] ==> k in rows
    requires last !in p
    ensures |MatchingIds(rows, p + [last], t)| ==
            |MatchingIds(rows, p, t)| + (if rows[last].event_type == t then 1 else 0)
  {
    var before := MatchingIds(rows, p, t);
    var after := MatchingIds(rows, p + [last], t);
    if rows[last].event_type == t {
      assert after == before + {last};
    } else {
      assert after == before;
    }
  }

  /** Counting a type in the column counts the rows of that type. */
  lemma {:induction false} OccurrencesAreRows(rows: map<nat, AnalyticsEvent>, ids: seq<nat>, t: string)
    requires forall k :: k in ids ==> k in rows
    requires forall i, j :: 0 <= i < j < |ids| ==> ids[i] != ids[j]
    ensures Occurrences(TypeColumn(rows, ids), t) == |MatchingIds(rows, ids, t)|
  {
    if ids != [] {
      var p, last := ids[..|ids| - 1], ids[|ids| - 1];
      assert ids == p + [last];
      var column := TypeColumn(rows, ids);
      assert column[..|column| - 1] == TypeColumn(rows, p);
      assert column[|column| - 1] == rows[last].event_type;
      OccurrencesAreRows(rows, p, t);
      assert last !in p by {
        forall i | 0 <= i < |p| ensures p[i] != last {
          assert ids[i] != ids[|ids| - 1];
        }
      }
      MatchingIdsStep(rows, p, last, t);
    }
  }

  /** Every row of the log, in some order. */
  function AllIds(rows: map<nat, AnalyticsEvent>): (ids: seq<nat>)
    ensures forall k :: k in ids <==> k in rows
    ensures forall i, j :: 0 <= i < j < |ids| ==> ids[i] != ids[j]
    ensures |ids| == |rows|
  {
    var ids := Table.NewestFirst(rows, CreatedAt, rows.Keys);
    assert |rows.Keys| == |rows|;
    ids
  }

  /** The `event_type` column of the whole log. */
  function Column(rows: map<nat, AnalyticsEvent>): seq<string> {
    TypeColumn(rows, AllIds(rows))
  }

  /** `SELECT event_type, COUNT(*) AS count FROM analytics GROUP BY event_type
      ORDER BY count DESC`. */
  function Summary(rows: map<nat, AnalyticsEvent>): seq<Group> {
    SortByCount(Tally(Column(rows)))
  }

  lemma SummaryOnePerType(rows: map<nat, AnalyticsEvent>)
    ensures Distinct(Types(Summary(rows)))
  {
    var groups := Tally(Column(rows));
    TallyTypes(Column(rows));
    SortPermutesTypes(groups);
    DistinctMultiplicity(Types(groups));
    DistinctMultiplicity(Types(Summary(rows)));
  }

  /** The column holds exactly the event types of the log. */
  lemma ColumnTypes(rows: map<nat, AnalyticsEvent>)
    ensures forall t :: t in Column(rows) <==> t in EventTypes(rows)
  {
    var ids, column := AllIds(rows), Column(rows);
    forall t | t in column ensures t in EventTypes(rows) {
      var i :| 0 <= i < |column| && column[i] == t;
      assert ids[i] in rows;
    }
    forall t | t in EventTypes(rows) ensures t in column {
      var id :| id in rows && rows[id].event_type == t;
      var i :| 0 <= i < |ids| && ids[i] == id;
      assert column[i] == t;
    }
  }

  lemma SummaryTypes(rows: map<nat, AnalyticsEvent>)
    ensures forall t :: t in Types(Summary(rows)) <==> t in EventTypes(rows)
  {
    var groups := Tally(Column(rows));
    ColumnTypes(rows);
    TallyTypes(Column(rows));
    SortPermutesTypes(groups);
    forall t ensures t in Types(Summary(rows)) <==> t in Types(groups) {
      assert t in Types(Summary(rows)) <==> t in multiset(Types(Summary(rows)));
      assert t in Types(groups) <==> t in multiset(Types(groups));
    }
  }

  /** A type occurs in the column once per row of that type. */
  lemma ColumnCount(rows: map<nat, AnalyticsEvent>, t: string)
    ensures Occurrences(Column(rows), t) == |RowsOfType(rows, t)|
  {
    var ids := AllIds(rows);
    OccurrencesAreRows(rows, ids, t);
    assert MatchingIds(rows, ids, t) == RowsOfType(rows, t);
  }

  lemma SummaryGroupCount(rows: map<nat, AnalyticsEvent>, e: Group)
    requires e in Summary(rows)
    ensures e.count == |RowsOfType(rows, e.event_type)|
  {
    var column := Column(rows);
    var groups := Tally(column);
    TallyTypes(column);
    SortFacts(groups);
    assert e in multiset(Summary(rows));
    assert e in groups;
    CountOfListed(groups, e);
    TallyCount(column, e.event_type);
    ColumnCount(rows, e.event_type);
  }

  lemma SummaryCounts(rows: map<nat, AnalyticsEvent>)
    ensures forall e :: e in Summary(rows) ==> e.count == |RowsOfType(rows, e.event_type)|
  {
    forall e | e in Summary(rows) ensures e.count == |RowsOfType(rows, e.event_type)| {
      SummaryGroupCount(rows, e);
    }
  }

  lemma SummaryOrderAndTotal(rows: map<nat, AnalyticsEvent>)
    ensures SortedByCount(Summary(rows))
    ensures Total(Summary(rows)) == |rows|
  {
    SortFacts(Tally(Column(rows)));
    TallyTotal(Column(rows));
  }

  /** The summary has one group per event type in the log, counting the rows
      of that type, largest count first, and its counts add up to the number
      of rows. */
  lemma SummaryCorrect(rows: map<nat, AnalyticsEvent>)
    ensures var r := Summary(rows);
      && (forall i, j :: 0 <= i < j < |r| ==> r[i].event_type != r[j].event_type)
      && (forall t :: t in Types(r) <==> t in EventTypes(rows))
      && (forall e :: e in r ==> e.count == |RowsOfType(rows, e.event_type)|)
      && (forall i, j :: 0 <= i < j < |r| ==> r[i].count >= r[j].count)
      && Total(r) == |rows|
  {
    SummaryOnePerType(rows);
    SummaryTypes(rows);
    SummaryCounts(rows);
    SummaryOrderAndTotal(rows);
    var r := Summary(rows);
    forall i, j | 0 <= i < j < |r| ensures r[i].event_type != r[j].event_type {
      assert Types(r)[i] != Types(r)[j];
    }
  }

  // ---------------------------------------------------------------------
  // The table

  class AnalyticsTable {
    var rows: map<nat, AnalyticsEvent>
    var nextId: nat
    var clock: nat

    ghost predicate Valid()
      reads this
    {
      1 <= nextId &&
      forall id :: id in rows ==> 1 <= id < nextId && rows[id].created_at <= clock
    }

    constructor ()
      ensures Valid() && rows == map[] && nextId == 1 && clock == 0
    {
      rows, nextId, clock := map[], 1, 0;
    }

    /** trackEvent: append exactly one row under a fresh id.  The API has no
        update or delete for this table, so this is its only change: every
        earlier row stays as it was. */
    method TrackEvent(user_id: Input<nat>, event_type: string, event_data: Input<Json>, elapsed: nat)
      returns (id: nat)
      requires Valid()
      modifies this
      ensures Valid()
      ensures id !in old(rows) && id == old(nextId) && clock == old(clock) + elapsed
      ensures rows == old(rows)[id := RecordedEvent(user_id, event_type, event_data, clock)]
      ensures |rows| == |old(rows)| + 1
      ensures forall k :: k in old(rows) ==> k in rows && rows[k] == old(rows)[k]
    {
      clock := clock + elapsed;
      id := nextId;
      rows := rows[id := RecordedEvent(user_id, event_type, event_data, clock)];
      nextId := nextId + 1;
    }
  }
}
