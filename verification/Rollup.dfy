/** The incremental statistics rollup: completed request rows are folded, a batch at a time, into
    five-minute buckets, with a cursor that is read back from the buckets themselves. */
module Rollup {
  import opened Strings

  const BUCKET_MS := 5 * 60 * 1000
  const BATCH_LIMIT := 5000

  /** The columns of a request row that the rollup reads. */
  datatype Row = Row(id: string, createdAt: int, route: string, requestModel: string,
                     responseModel: Option<string>, apiKeyName: Option<string>, status: Option<int>,
                     failoverFrom: Option<string>, cacheRead: int, cacheCreate: int, input: int,
                     output: int, cachedInput: int, reasoning: int, completedAt: int,
                     firstTokenAt: Option<int>)

  datatype Key = Key(bucket: int, route: string, model: string, client: string)

  /** One bucket's counters; `cursor` is the column max_request_created_at, which holds the largest
      completed_at. */
  datatype Aggregate = Aggregate(requests: int, errors: int, failovers: int, cacheHits: int,
                                 cacheCreates: int, input: int, output: int, cacheRead: int,
                                 cacheCreate: int, cachedInput: int, reasoning: int, duration: int,
                                 firstToken: int, generation: int, timed: int, cursor: int)

  const ZERO := Aggregate(0, 0, 0, 0, 0, 0, 0, 0, 0, 0, 0, 0, 0, 0, 0, 0)

  type Stats = map<Key, Aggregate>

  function Max(a: int, b: int): int {
    if a < b then b else a
  }

  /** Integer division truncates towards zero. */
  function AlignDown(ms: int, granularity: nat): int {
    if granularity == 0 then ms
    else if ms >= 0 then ms / granularity * granularity
    else -((-ms) / granularity * granularity)
  }

  /** A bucket starts at a multiple of its length; it contains its moment exactly when truncation rounds
      down, that is for every moment since the epoch. */
  lemma AlignDownIs(ms: int, granularity: nat)
    requires granularity > 0
    ensures AlignDown(ms, granularity) % granularity == 0
    ensures AlignDown(ms, granularity) <= ms < AlignDown(ms, granularity) + granularity <==>
            ms >= 0 || ms % granularity == 0
  {
    var q := if ms >= 0 then ms / granularity else -((-ms) / granularity);
    assert AlignDown(ms, granularity) == q * granularity;
    MultipleHasNoRest(q, granularity);
    if ms < 0 {
      var p := (-ms) / granularity;
      var rest := (-ms) % granularity;
      assert -ms == p * granularity + rest;
      if rest == 0 {
        assert ms == q * granularity;
      } else {
        assert ms == (q - 1) * granularity + (granularity - rest);
        RestIs(q - 1, granularity, granularity - rest);
      }
    }
  }

  lemma MultipleHasNoRest(q: int, g: nat)
    requires g > 0
    ensures (q * g) % g == 0
  {
    RestIs(q, g, 0);
  }

  lemma RestIs(q: int, g: nat, rest: nat)
    requires rest < g
    ensures (q * g + rest) % g == rest
  {
    var n := q * g + rest;
    var d, r := n / g, n % g;
    assert (q - d) * g == r - rest;
    MultipleIsFar(q - d, g);
  }

  lemma MultipleIsFar(k: int, g: nat)
    requires g > 0
    ensures k > 0 ==> k * g >= g
    ensures k < 0 ==> k * g + g <= 0
  {
    if k > 0 {
      assert (k - 1) * g >= 0;
    } else if k < 0 {
      assert (-k - 1) * g >= 0;
    }
  }

  function StrOr(s: Option<string>, default: string): string {
    if s.Some? then s.value else default
  }

  /** `resolveModel`: the upstream's own model name if it gave one. */
  function ResolveModel(row: Row): string {
    if StrOr(row.responseModel, "") != "" then row.responseModel.value else row.requestModel
  }

  function KeyOf(row: Row): Key {
    Key(AlignDown(row.createdAt, BUCKET_MS), row.route, ResolveModel(row), StrOr(row.apiKeyName, ""))
  }

  function One(b: bool): int {
    if b then 1 else 0
  }

  /** What one row adds to its bucket. */
  function Contribution(row: Row): Aggregate {
    Aggregate(1, One(row.status.None? || row.status.value >= 400), One(StrOr(row.failoverFrom, "") != ""),
              One(row.cacheRead > 0), One(row.cacheCreate > 0), row.input, row.output, row.cacheRead,
              row.cacheCreate, row.cachedInput, row.reasoning, row.completedAt - row.createdAt,
              if row.firstTokenAt.Some? then row.firstTokenAt.value - row.createdAt else 0,
              if row.firstTokenAt.Some? then row.completedAt - row.firstTokenAt.value else 0,
              1, Max(0, row.completedAt))
  }

  /** The additive upsert: every column is summed, but the cursor column is maximized. */
  function Add(a: Aggregate, b: Aggregate): Aggregate {
    Aggregate(a.requests + b.requests, a.errors + b.errors, a.failovers + b.failovers,
              a.cacheHits + b.cacheHits, a.cacheCreates + b.cacheCreates, a.input + b.input,
              a.output + b.output, a.cacheRead + b.cacheRead, a.cacheCreate + b.cacheCreate,
              a.cachedInput + b.cachedInput, a.reasoning + b.reasoning, a.duration + b.duration,
              a.firstToken + b.firstToken, a.generation + b.generation, a.timed + b.timed,
              Max(a.cursor, b.cursor))
  }

  function Get(stats: Stats, key: Key): Aggregate {
    if key in stats then stats[key] else ZERO
  }

  /** Upserting every row of `more` into `stats`. */
  function Merge(stats: Stats, more: Stats): Stats {
    map key | key in stats.Keys + more.Keys :: Add(Get(stats, key), Get(more, key))
  }

  /** The buckets computed from scratch: group the rows by key and add up each group. */
  function View(rows: seq<Row>): Stats {
    if rows == [] then map[]
    else
      var last := rows[|rows| - 1];
      var stats := View(rows[..|rows| - 1]);
      stats[KeyOf(last) := Add(Get(stats, KeyOf(last)), Contribution(last))]
  }

  // ----- The view as a sum -----

  lemma AddLaws(a: Aggregate, b: Aggregate, c: Aggregate)
    ensures Add(a, b) == Add(b, a)
    ensures Add(Add(a, b), c) == Add(a, Add(b, c))
    ensures a.cursor >= 0 ==> Add(ZERO, a) == a
  {
  }

  /** No bucket has a negative cursor. */
  ghost predicate CursorsOk(stats: Stats) {
    forall key :: key in stats ==> stats[key].cursor >= 0
  }

  lemma {:induction false} ViewCursorsOk(rows: seq<Row>)
    ensures CursorsOk(View(rows))
  {
    if rows != [] {
      ViewCursorsOk(rows[..|rows| - 1]);
    }
  }

  lemma ViewSnoc(rows: seq<Row>, row: Row)
    ensures View(rows + [row]) ==
            View(rows)[KeyOf(row) := Add(Get(View(rows), KeyOf(row)), Contribution(row))]
  {
    assert (rows + [row])[..|rows|] == rows;
  }

  lemma MergeNothing(stats: Stats)
    requires CursorsOk(stats)
    ensures Merge(stats, map[]) == stats
  {
    hide Add;
    forall key | key in stats
      ensures Merge(stats, map[])[key] == stats[key]
    {
      AddLaws(stats[key], ZERO, ZERO);
    }
  }

  lemma MergeStep(stats: Stats, more: Stats, key: Key, c: Aggregate)
    ensures Merge(stats, more[key := Add(Get(more, key), c)]) ==
            Merge(stats, more)[key := Add(Get(Merge(stats, more), key), c)]
  {
    hide Add;
    AddLaws(Get(stats, key), Get(more, key), c);
    AddLaws(ZERO, ZERO, c);
    AddZero();
    var left := Merge(stats, more[key := Add(Get(more, key), c)]);
    var right := Merge(stats, more)[key := Add(Get(Merge(stats, more), key), c)];
    assert left.Keys == right.Keys;
    assert left[key] == right[key];
    assert forall k :: k in left && k != key ==> left[k] == right[k];
  }

  lemma AddZero()
    ensures Add(ZERO, ZERO) == ZERO
  {
  }

  /** The incremental step is exact: merging the buckets of a batch into the buckets of everything before
      gives the buckets of both, computed from scratch. */
  lemma {:induction false} MergeIsView(rows: seq<Row>, batch: seq<Row>)
    ensures Merge(View(rows), View(batch)) == View(rows + batch)
  {
    hide Add, Contribution, KeyOf;
    if batch == [] {
      ViewCursorsOk(rows);
      MergeNothing(View(rows));
      assert rows + batch == rows;
    } else {
      hide View, Merge;
      var front, last := batch[..|batch| - 1], batch[|batch| - 1];
      assert batch == front + [last] && rows + batch == (rows + front) + [last];
      MergeIsView(rows, front);
      ViewSnoc(front, last);
      ViewSnoc(rows + front, last);
      MergeStep(View(rows), View(front), KeyOf(last), Contribution(last));
    }
  }

  lemma MergeCommutes(a: Stats, b: Stats)
    ensures Merge(a, b) == Merge(b, a)
  {
    hide Add;
    assert Merge(a, b).Keys == Merge(b, a).Keys;
    forall key | key in Merge(a, b)
      ensures Merge(a, b)[key] == Merge(b, a)[key]
    {
      AddLaws(Get(a, key), Get(b, key), ZERO);
    }
  }

  /** The order of two parts does not matter. */
  lemma ViewSwap(a: seq<Row>, b: seq<Row>)
    ensures View(a + b) == View(b + a)
  {
    hide View, Merge;
    MergeIsView(a, b);
    MergeIsView(b, a);
    MergeCommutes(View(a), View(b));
  }

  /** Any row can be folded last. */
  lemma RowLast(rows: seq<Row>, i: nat)
    requires i < |rows|
    ensures View(rows) == Merge(View(rows[i + 1..] + rows[..i]), View([rows[i]]))
  {
    hide View, Merge;
    Rotated(rows[..i], [rows[i]], rows[i + 1..]);
    SplitAround(rows, i);
  }

  lemma SplitAround(rows: seq<Row>, i: nat)
    requires i < |rows|
    ensures rows == rows[..i] + ([rows[i]] + rows[i + 1..])
  {
  }

  lemma Rotated(left: seq<Row>, x: seq<Row>, right: seq<Row>)
    ensures View(left + (x + right)) == Merge(View(right + left), View(x))
  {
    hide View, Merge;
    ViewSwap(left, x + right);
    assert (x + right) + left == x + (right + left);
    ViewSwap(x, right + left);
    MergeIsView(right + left, x);
  }

  lemma MovedOut(rows: seq<Row>, i: nat)
    requires i < |rows|
    ensures multiset(rows[i + 1..] + rows[..i]) == multiset(rows) - multiset{rows[i]}
  {
    assert rows == rows[..i] + [rows[i]] + rows[i + 1..];
  }

  /** Rows can be folded in any order. */
  lemma {:induction false} ViewIgnoresOrder(a: seq<Row>, b: seq<Row>)
    requires multiset(a) == multiset(b)
    ensures View(a) == View(b)
    decreases |a|
  {
    if a == [] {
      assert |multiset(b)| == 0;
      assert b == [];
    } else {
      hide View, Merge;
      var n := |a| - 1;
      assert a[n] in multiset(b);
      var i :| 0 <= i < |b| && b[i] == a[n];
      MovedOut(a, n);
      MovedOut(b, i);
      RowLast(a, n);
      RowLast(b, i);
      ViewIgnoresOrder(a[n + 1..] + a[..n], b[i + 1..] + b[..i]);
    }
  }

  // ----- Counting -----

  function CountFor(rows: seq<Row>, key: Key): nat {
    if rows == [] then 0
    else CountFor(rows[..|rows| - 1], key) + if KeyOf(rows[|rows| - 1]) == key then 1 else 0
  }

  /** A bucket's `requests` is the number of rows folded into it, no more and no less. */
  lemma {:induction false} RequestsCountRows(rows: seq<Row>, key: Key)
    ensures Get(View(rows), key).requests == CountFor(rows, key)
  {
    if rows != [] {
      hide KeyOf;
      RequestsCountRows(rows[..|rows| - 1], key);
    }
  }

  // ----- The columns of a bucket -----

  /** The sum of a column over the rows of a bucket. */
  function SumFor(rows: seq<Row>, key: Key, column: Row -> int): int {
    if rows == [] then 0
    else
      var last := rows[|rows| - 1];
      SumFor(rows[..|rows| - 1], key, column) + if KeyOf(last) == key then column(last) else 0
  }

  /** How many rows of a bucket there are of some kind. */
  function CountIf(rows: seq<Row>, key: Key, kind: Row -> bool): int {
    if rows == [] then 0
    else
      var last := rows[|rows| - 1];
      CountIf(rows[..|rows| - 1], key, kind) + if KeyOf(last) == key && kind(last) then 1 else 0
  }

  /** The row names another channel that it failed over from. */
  predicate FailedOver(row: Row) {
    row.failoverFrom.Some? && row.failoverFrom.value != ""
  }

  /** Without a status, or with one of at least 400. */
  predicate Failed(row: Row) {
    row.status.Some? ==> row.status.value >= 400
  }

  /** What a bucket has to hold about its rows, column by column. */
  ghost predicate ColumnsAre(bucket: Aggregate, rows: seq<Row>, key: Key) {
    && bucket.requests == CountIf(rows, key, (row: Row) => true)
    && bucket.errors == CountIf(rows, key, Failed)
    && bucket.failovers == CountIf(rows, key, FailedOver)
    && bucket.cacheHits == CountIf(rows, key, (row: Row) => row.cacheRead > 0)
    && bucket.cacheCreates == CountIf(rows, key, (row: Row) => row.cacheCreate > 0)
    && bucket.input == SumFor(rows, key, (row: Row) => row.input)
    && bucket.output == SumFor(rows, key, (row: Row) => row.output)
    && bucket.cacheRead == SumFor(rows, key, (row: Row) => row.cacheRead)
    && bucket.cacheCreate == SumFor(rows, key, (row: Row) => row.cacheCreate)
    && bucket.cachedInput == SumFor(rows, key, (row: Row) => row.cachedInput)
    && bucket.reasoning == SumFor(rows, key, (row: Row) => row.reasoning)
    && bucket.duration == SumFor(rows, key, (row: Row) => row.completedAt - row.createdAt)
    && bucket.firstToken ==
       SumFor(rows, key,
              (row: Row) => if row.firstTokenAt.Some? then row.firstTokenAt.value - row.createdAt else 0)
    && bucket.generation ==
       SumFor(rows, key,
              (row: Row) => if row.firstTokenAt.Some? then row.completedAt - row.firstTokenAt.value else 0)
    && bucket.timed == CountIf(rows, key, (row: Row) => true)
  }

  /** Every column of a bucket computed from scratch is the count or the sum it stands for. */
  lemma {:induction false} ViewColumns(rows: seq<Row>, key: Key)
    ensures ColumnsAre(Get(View(rows), key), rows, key)
  {
    if rows != [] {
      hide ColumnsAre, KeyOf, View, Add, Contribution;
      var front, last := rows[..|rows| - 1], rows[|rows| - 1];
      assert rows == front + [last];
      ViewColumns(front, key);
      ViewSnoc(front, last);
      ColumnsGrow(Get(View(front), key), front, last, key);
    } else {
      ViewOfNothing();
    }
  }

  lemma SumsGrow(front: seq<Row>, last: Row, key: Key)
    ensures forall column: Row -> int :: SumFor(front + [last], key, column) ==
                                         SumFor(front, key, column) + if KeyOf(last) == key then column(last) else 0
    ensures forall kind: Row -> bool :: CountIf(front + [last], key, kind) ==
                                        CountIf(front, key, kind) + if KeyOf(last) == key && kind(last) then 1 else 0
  {
    hide KeyOf;
    assert (front + [last])[..|front|] == front;
  }

  lemma ColumnsGrow(bucket: Aggregate, front: seq<Row>, last: Row, key: Key)
    requires ColumnsAre(bucket, front, key)
    ensures ColumnsAre(if KeyOf(last) == key then Add(bucket, Contribution(last)) else bucket, front + [last], key)
  {
    SumsGrow(front, last, key);
    hide SumFor, CountIf, KeyOf;
  }

  /** The key of a row: its route, its client or none, the model the upstream named or else the requested one,
      and the five minutes in which it was created. */
  lemma KeyIs(row: Row)
    requires row.createdAt >= 0
    ensures
      var key := KeyOf(row);
      && key.route == row.route
      && key.client == (if row.apiKeyName.Some? then row.apiKeyName.value else "")
      && (row.responseModel.Some? && row.responseModel.value != "" ==> key.model == row.responseModel.value)
      && (row.responseModel.None? || row.responseModel.value == "" ==> key.model == row.requestModel)
      && key.bucket % 300000 == 0 && key.bucket <= row.createdAt < key.bucket + 300000
  {
    AlignDownIs(row.createdAt, BUCKET_MS);
  }

  /** All requests in all buckets. */
  ghost function Total(stats: Stats): int {
    if stats == map[] then 0
    else
      var key :| key in stats;
      stats[key].requests + Total(stats - {key})
  }

  lemma {:induction false} TotalWithout(stats: Stats, key: Key)
    requires key in stats
    ensures Total(stats) == stats[key].requests + Total(stats - {key})
    decreases |stats|
  {
    var first :| first in stats && Total(stats) == stats[first].requests + Total(stats - {first});
    if first != key {
      TotalWithout(stats - {first}, key);
      TotalWithout(stats - {key}, first);
      assert stats - {first} - {key} == stats - {key} - {first};
    }
  }

  lemma TotalUpdated(stats: Stats, key: Key, aggregate: Aggregate)
    ensures Total(stats[key := aggregate]) == Total(stats) - Get(stats, key).requests + aggregate.requests
  {
    TotalWithout(stats[key := aggregate], key);
    assert stats[key := aggregate] - {key} == stats - {key};
    if key in stats {
      TotalWithout(stats, key);
    } else {
      assert stats - {key} == stats;
    }
  }

  /** Over all buckets together every folded row counts once. */
  lemma {:induction false} TotalCountsRows(rows: seq<Row>)
    ensures Total(View(rows)) == |rows|
  {
    if rows != [] {
      hide KeyOf;
      var front, last := rows[..|rows| - 1], rows[|rows| - 1];
      TotalCountsRows(front);
      TotalUpdated(View(front), KeyOf(last), Add(Get(View(front), KeyOf(last)), Contribution(last)));
    }
  }

  lemma {:induction false} CountForAppend(a: seq<Row>, b: seq<Row>, key: Key)
    ensures CountFor(a + b, key) == CountFor(a, key) + CountFor(b, key)
  {
    hide KeyOf;
    if b == [] {
      assert a + b == a;
    } else {
      assert (a + b)[..|a + b| - 1] == a + b[..|b| - 1];
      CountForAppend(a, b[..|b| - 1], key);
    }
  }

  // ----- The cursor -----

  /** `COALESCE(MAX(max_request_created_at), 0)`. */
  ghost predicate IsCursor(stats: Stats, c: int) {
    && c >= 0
    && (forall key :: key in stats ==> stats[key].cursor <= c)
    && (c == 0 || exists key :: key in stats && stats[key].cursor == c)
  }

  function LastCompleted(rows: seq<Row>): int {
    if rows == [] then 0 else Max(LastCompleted(rows[..|rows| - 1]), rows[|rows| - 1].completedAt)
  }

  lemma {:induction false} CursorIsLastCompleted(rows: seq<Row>)
    ensures IsCursor(View(rows), LastCompleted(rows))
  {
    if rows == [] {
    } else {
      hide KeyOf;
      var front, last := rows[..|rows| - 1], rows[|rows| - 1];
      CursorIsLastCompleted(front);
      var stats, c := View(front), LastCompleted(front);
      var key := KeyOf(last);
      assert View(rows)[key].cursor == Max(Get(stats, key).cursor, Max(0, last.completedAt));
      if LastCompleted(rows) == c && c != 0 {
        var k :| k in stats && stats[k].cursor == c;
        assert View(rows)[k].cursor == c;
      }
    }
  }

  lemma CursorIsUnique(stats: Stats, a: int, b: int)
    requires IsCursor(stats, a) && IsCursor(stats, b)
    ensures a == b
  {
  }

  // ----- The job -----

  /** `fold`, counter by counter. */
  method Fold(aggregate: Aggregate, row: Row) returns (ag: Aggregate)
    requires aggregate.cursor >= 0
    ensures ag == Add(aggregate, Contribution(row))
  {
    ag := aggregate.(requests := aggregate.requests + 1);
    if row.status.None? || row.status.value >= 400 {
      ag := ag.(errors := ag.errors + 1);
    }
    if row.failoverFrom.Some? && row.failoverFrom.value != "" {
      ag := ag.(failovers := ag.failovers + 1);
    }
    if row.cacheRead > 0 {
      ag := ag.(cacheHits := ag.cacheHits + 1);
    }
    if row.cacheCreate > 0 {
      ag := ag.(cacheCreates := ag.cacheCreates + 1);
    }
    ag := ag.(input := ag.input + row.input, output := ag.output + row.output,
              cacheRead := ag.cacheRead + row.cacheRead, cacheCreate := ag.cacheCreate + row.cacheCreate,
              cachedInput := ag.cachedInput + row.cachedInput, reasoning := ag.reasoning + row.reasoning);
    ag := ag.(duration := ag.duration + row.completedAt - row.createdAt, timed := ag.timed + 1);
    if row.firstTokenAt.Some? {
      ag := ag.(firstToken := ag.firstToken + row.firstTokenAt.value - row.createdAt);
      ag := ag.(generation := ag.generation + row.completedAt - row.firstTokenAt.value);
    }
    if row.completedAt > ag.cursor {
      ag := ag.(cursor := row.completedAt);
    }
  }

  /** The batch query: rows completed after the cursor, oldest first, at most `limit` of them.  Which of
      several rows completed at the same moment come first is up to the database. */
  ghost predicate IsBatch(table: seq<Row>, cursor: int, limit: nat, batch: seq<Row>) {
    && (forall i, j :: 0 <= i < j < |batch| ==> batch[i] != batch[j])
    && (forall i, j :: 0 <= i < j < |batch| ==> batch[i].completedAt <= batch[j].completedAt)
    && (forall row :: row in batch ==> row in table && row.completedAt > cursor)
    && (forall row :: IsLeftOver(table, cursor, batch, row) ==>
          |batch| >= limit && forall b :: b in batch ==> b.completedAt <= row.completedAt)
    && |batch| <= limit
  }

  /** An eligible row that the batch leaves for later. */
  ghost predicate IsLeftOver(table: seq<Row>, cursor: int, batch: seq<Row>, row: Row) {
    row in table && row.completedAt > cursor && row !in batch
  }

  function Without(stats: Stats, keys: set<Key>): Stats {
    map key | key in stats && key !in keys :: stats[key]
  }

  lemma UpsertOneMore(stats: Stats, aggs: Stats, keys: set<Key>, key: Key)
    requires key in keys && key in aggs && aggs[key].cursor >= 0
    ensures
      var part := Merge(stats, Without(aggs, keys));
      part[key := Add(Get(part, key), aggs[key])] == Merge(stats, Without(aggs, keys - {key}))
  {
    hide Add, Merge;
    AddLaws(aggs[key], ZERO, ZERO);
    MergeStep(stats, Without(aggs, keys), key, aggs[key]);
    assert Without(aggs, keys)[key := aggs[key]] == Without(aggs, keys - {key});
  }

  lemma ViewOfNothing()
    ensures View([]) == map[]
  {
  }

  /** The job with its table. */
  class RollupJob {
    var stats: Stats

    constructor ()
      ensures stats == map[]
    {
      stats := map[];
    }

    /** The cursor, read back from the buckets. */
    method ReadCursor() returns (cursor: int)
      requires CursorsOk(stats)
      ensures IsCursor(stats, cursor)
    {
      cursor := 0;
      var keys := stats.Keys;
      while keys != {}
        invariant keys <= stats.Keys && cursor >= 0
        invariant forall key :: key in stats.Keys - keys ==> stats[key].cursor <= cursor
        invariant cursor == 0 || exists key :: key in stats && stats[key].cursor == cursor
        decreases |keys|
      {
        var key :| key in keys;
        if stats[key].cursor > cursor {
          cursor := stats[key].cursor;
        }
        keys := keys - {key};
      }
    }

    /** `upsertAggregate`. */
    method UpsertAggregate(key: Key, aggregate: Aggregate)
      requires aggregate.cursor >= 0
      modifies this
      ensures stats == old(stats)[key := Add(Get(old(stats), key), aggregate)]
    {
      AddLaws(aggregate, ZERO, ZERO);
      if key in stats {
        stats := stats[key := Add(stats[key], aggregate)];
      } else {
        stats := stats[key := aggregate];
      }
    }

    /** `persist`: upsert every bucket of the batch, in whatever order the map yields them. */
    method Persist(aggs: Stats)
      requires CursorsOk(aggs) && CursorsOk(stats)
      modifies this
      ensures stats == Merge(old(stats), aggs)
    {
      hide Add, Merge, Get;
      var keys := aggs.Keys;
      MergeNothing(stats);
      assert Without(aggs, keys) == map[];
      while keys != {}
        invariant keys <= aggs.Keys
        invariant stats == Merge(old(stats), Without(aggs, keys))
        decreases |keys|
      {
        var key :| key in keys;
        UpsertOneMore(old(stats), aggs, keys, key);
        UpsertAggregate(key, aggs[key]);
        keys := keys - {key};
      }
      assert Without(aggs, keys) == aggs;
    }

    /** Fold a batch and persist it. */
    method FoldBatch(batch: seq<Row>)
      requires CursorsOk(stats)
      modifies this
      ensures stats == Merge(old(stats), View(batch))
    {
      var aggs: Stats := map[];
      for i := 0 to |batch|
        invariant aggs == View(batch[..i]) && stats == old(stats)
      {
        hide Add, Contribution, KeyOf, View;
        var row := batch[i];
        var key := KeyOf(row);
        ViewCursorsOk(batch[..i]);
        ViewSnoc(batch[..i], row);
        assert batch[..i + 1] == batch[..i] + [row];
        var ag := Fold(Get(aggs, key), row);
        aggs := aggs[key := ag];
      }
      assert batch[..|batch|] == batch;
      ViewCursorsOk(batch);
      Persist(aggs);
    }

    /** `RollupTick`: one tick of the system, `query` being the database's answer to the batch query. */
    method RollupTick(ghost s: System, query: int -> seq<Row>)
      requires SystemOk(s) && stats == s.stats
      requires forall cursor: int :: IsBatch(s.table, cursor, BATCH_LIMIT, query(cursor))
      modifies this
      ensures
        var batch := query(LastCompleted(s.folded));
        Next(s, Tick(batch), s.(folded := s.folded + batch, stats := stats))
    {
      hide View, Merge, LastCompleted;
      ViewCursorsOk(s.folded);
      var cursor := ReadCursor();
      CursorIsLastCompleted(s.folded);
      CursorIsUnique(stats, cursor, LastCompleted(s.folded));
      var rows := query(cursor);
      if |rows| == 0 {
        MergeNothing(stats);
        ViewOfNothing();
        return;
      }
      FoldBatch(rows);
    }
  }

  // ----- The system: completions, ticks and pruning, in any order -----

  /** `table` is what the log holds of the completed rows; `completed` all rows that ever completed and
      `folded` all rows the job has processed, in order. */
  datatype System = System(table: seq<Row>, completed: seq<Row>, folded: seq<Row>, stats: Stats)

  const EMPTY_SYSTEM := System([], [], [], map[])

  datatype Event =
    | Complete(row: Row)
    | Tick(batch: seq<Row>)
    | Prune(survivors: seq<Row>)

  predicate Distinct(rows: seq<Row>) {
    forall i, j :: 0 <= i < j < |rows| ==> rows[i] != rows[j]
  }

  ghost predicate Next(s: System, e: Event, s': System) {
    match e
    case Complete(row) =>
      && row !in s.completed
      && s' == s.(table := s.table + [row], completed := s.completed + [row])
    case Tick(batch) =>
      && IsBatch(s.table, LastCompleted(s.folded), BATCH_LIMIT, batch)
      && s' == s.(folded := s.folded + batch, stats := Merge(s.stats, View(batch)))
    case Prune(survivors) =>
      && (forall row :: row in survivors ==> row in s.table)
      && s' == s.(table := survivors)
  }

  /** The states of a run, from the empty one on. */
  ghost predicate IsRun(states: seq<System>, events: seq<Event>) {
    && |states| == |events| + 1
    && states[0] == EMPTY_SYSTEM
    && forall i :: 0 <= i < |events| ==> Next(states[i], events[i], states[i + 1])
  }

  ghost predicate SystemOk(s: System) {
    && s.stats == View(s.folded)
    && Distinct(s.folded) && Distinct(s.completed)
    && (forall row :: row in s.folded ==> row in s.completed && row.completedAt <= LastCompleted(s.folded))
    && (forall row :: row in s.table ==> row in s.completed)
  }

  lemma {:induction false} NoneCompletedLater(rows: seq<Row>)
    ensures forall row :: row in rows ==> row.completedAt <= LastCompleted(rows)
    ensures LastCompleted(rows) >= 0
    ensures LastCompleted(rows) == 0 || exists row :: row in rows && row.completedAt == LastCompleted(rows)
  {
    if rows != [] {
      NoneCompletedLater(rows[..|rows| - 1]);
      assert rows == rows[..|rows| - 1] + [rows[|rows| - 1]];
    }
  }

  /** Rows folded later were completed later, so the cursor only moves forward. */
  lemma {:induction false} CursorMovesForward(rows: seq<Row>, batch: seq<Row>)
    ensures LastCompleted(rows + batch) >= LastCompleted(rows)
  {
    if batch == [] {
      assert rows + batch == rows;
    } else {
      assert (rows + batch)[..|rows + batch| - 1] == rows + batch[..|batch| - 1];
      CursorMovesForward(rows, batch[..|batch| - 1]);
    }
  }

  lemma DistinctAppend(a: seq<Row>, b: seq<Row>)
    requires Distinct(a) && Distinct(b) && forall row :: row in b ==> row !in a
    ensures Distinct(a + b)
  {
    var c := a + b;
    forall i, j | 0 <= i < j < |c|
      ensures c[i] != c[j]
    {
      assert i < |a| ==> c[i] in a;
      assert j >= |a| ==> c[j] in b;
    }
  }

  /** Whatever happens, the buckets are those of the rows folded so far, no row is folded twice, and the
      cursor column says how far the folding has come. */
  lemma NextKeepsSystemOk(s: System, e: Event, s': System)
    requires SystemOk(s) && Next(s, e, s')
    ensures SystemOk(s')
    ensures LastCompleted(s'.folded) >= LastCompleted(s.folded)
    ensures |s.folded| <= |s'.folded| && s'.folded[..|s.folded|] == s.folded
  {
    match e
    case Complete(row) => DistinctAppend(s.completed, [row]);
    case Tick(batch) =>
      MergeIsView(s.folded, batch);
      DistinctAppend(s.folded, batch);
      CursorMovesForward(s.folded, batch);
      NoneCompletedLater(s.folded + batch);
    case Prune(_) =>
  }

  lemma {:induction false} RunsStayOk(states: seq<System>, events: seq<Event>, i: nat)
    requires IsRun(states, events) && i < |states|
    ensures SystemOk(states[i])
  {
    hide SystemOk, Next;
    if i == 0 {
      EmptyIsOk();
    } else {
      RunsStayOk(states, events, i - 1);
      assert Next(states[i - 1], events[i - 1], states[i]);
      NextKeepsSystemOk(states[i - 1], events[i - 1], states[i]);
    }
  }

  lemma EmptyIsOk()
    ensures SystemOk(EMPTY_SYSTEM)
  {
  }

  /** Over every run, with ties and pruning at any point: the request counts are the numbers of folded rows,
      which are distinct completed rows, and the cursor in the buckets never goes back. */
  lemma NoRowIsCountedTwice(states: seq<System>, events: seq<Event>, i: nat, key: Key)
    requires IsRun(states, events) && i < |events|
    ensures
      var s, s' := states[i], states[i + 1];
      && Get(s'.stats, key).requests == CountFor(s'.folded, key)
      && Total(s'.stats) == |s'.folded|
      && Distinct(s'.folded) && (forall row :: row in s'.folded ==> row in s'.completed)
      && IsCursor(s.stats, LastCompleted(s.folded)) && IsCursor(s'.stats, LastCompleted(s'.folded))
      && LastCompleted(s.folded) <= LastCompleted(s'.folded)
  {
    hide View, Merge;
    RunsStayOk(states, events, i);
    RunsStayOk(states, events, i + 1);
    assert Next(states[i], events[i], states[i + 1]);
    NextKeepsSystemOk(states[i], events[i], states[i + 1]);
    RequestsCountRows(states[i + 1].folded, key);
    TotalCountsRows(states[i + 1].folded);
    CursorIsLastCompleted(states[i].folded);
    CursorIsLastCompleted(states[i + 1].folded);
  }

  /** In every state of every run each column of each bucket is the count or sum over the rows folded so
      far. */
  lemma RunColumns(states: seq<System>, events: seq<Event>, i: nat, key: Key)
    requires IsRun(states, events) && i < |states|
    ensures ColumnsAre(Get(states[i].stats, key), states[i].folded, key)
  {
    hide View, ColumnsAre;
    RunsStayOk(states, events, i);
    ViewColumns(states[i].folded, key);
  }

  // ----- Exactness -----

  /** The rows completed up to `c`. */
  function UpTo(rows: seq<Row>, c: int): seq<Row> {
    if rows == [] then []
    else
      var last := rows[|rows| - 1];
      UpTo(rows[..|rows| - 1], c) + if last.completedAt <= c then [last] else []
  }

  /** The buckets are what a from-scratch aggregation over all rows completed up to the cursor gives. */
  ghost predicate Exact(s: System) {
    s.stats == View(UpTo(s.completed, LastCompleted(s.folded)))
  }

  /** A row the cursor has passed without its being folded. */
  ghost predicate IsMissed(s: System, row: Row) {
    row in s.completed && row.completedAt <= LastCompleted(s.folded) && row !in s.folded
  }

  /** A step that loses no row: a row completes beyond the cursor, or every row that is completed, beyond
      the cursor and not in the batch completed later than all of the batch.  Such a row may have been left
      out by the limit, or pruned before it was folded. */
  ghost predicate LosesNothing(s: System, e: Event) {
    match e
    case Complete(row) => row.completedAt > LastCompleted(s.folded)
    case Tick(batch) =>
      forall row, b :: IsLeftOver(s.completed, LastCompleted(s.folded), batch, row) && b in batch ==>
        b.completedAt < row.completedAt
    case Prune(_) => true
  }

  lemma {:induction false} UpToMembers(rows: seq<Row>, c: int)
    ensures forall row :: row in UpTo(rows, c) <==> row in rows && row.completedAt <= c
    ensures Distinct(rows) ==> Distinct(UpTo(rows, c))
  {
    if rows != [] {
      var front, last := rows[..|rows| - 1], rows[|rows| - 1];
      UpToMembers(front, c);
      assert rows == front + [last];
    }
  }

  lemma DistinctMultiset(rows: seq<Row>)
    requires Distinct(rows)
    ensures forall row :: multiset(rows)[row] == if row in rows then 1 else 0
  {
    forall row
      ensures multiset(rows)[row] == if row in rows then 1 else 0
    {
      OnlyOnce(rows, row);
    }
  }

  lemma {:induction false} OnlyOnce(rows: seq<Row>, row: Row)
    requires Distinct(rows)
    ensures multiset(rows)[row] == if row in rows then 1 else 0
  {
    if rows != [] {
      var front, last := rows[..|rows| - 1], rows[|rows| - 1];
      assert rows == front + [last];
      OnlyOnce(front, row);
    }
  }

  lemma {:induction false} CountWithin(rows: seq<Row>, more: seq<Row>, extra: Row)
    requires Distinct(rows) && Distinct(more) && extra in more && extra !in rows
    requires forall row :: row in rows ==> row in more
    ensures CountFor(rows, KeyOf(extra)) < CountFor(more, KeyOf(extra))
    decreases |rows|
  {
    var key := KeyOf(extra);
    var i :| 0 <= i < |more| && more[i] == extra;
    if rows == [] {
      CountSplit(more, i, key);
    } else {
      hide KeyOf;
      var front, last := rows[..|rows| - 1], rows[|rows| - 1];
      assert rows == front + [last];
      assert last in more;
      var j :| 0 <= j < |more| && more[j] == last;
      var rest := more[..j] + more[j + 1..];
      CountSplit(more, j, key);
      WithoutOne(more, j);
      WithoutOne(rows, |rows| - 1);
      assert rows[..|rows| - 1] + rows[|rows|..] == front;
      CountWithin(front, rest, extra);
    }
  }

  lemma WithoutOne(rows: seq<Row>, i: nat)
    requires Distinct(rows) && i < |rows|
    ensures
      var rest := rows[..i] + rows[i + 1..];
      Distinct(rest) && forall row :: row in rest <==> row in rows && row != rows[i]
  {
    var rest := rows[..i] + rows[i + 1..];
    assert rows == rows[..i] + [rows[i]] + rows[i + 1..];
    assert forall k :: 0 <= k < |rest| ==> rest[k] == rows[if k < i then k else k + 1];
  }

  lemma CountSplit(rows: seq<Row>, i: nat, key: Key)
    requires i < |rows|
    ensures CountFor(rows, key) ==
            CountFor(rows[..i] + rows[i + 1..], key) + if KeyOf(rows[i]) == key then 1 else 0
  {
    hide KeyOf;
    var left, x, right := rows[..i], [rows[i]], rows[i + 1..];
    assert CountFor(x, key) == if KeyOf(rows[i]) == key then 1 else 0 by {
      assert x[..0] == [];
    }
    assert rows == left + (x + right);
    hide CountFor;
    CountForAppend(left, right, key);
    CountForAppend(left, x + right, key);
    CountForAppend(x, right, key);
  }

  /** The buckets are exact exactly when no row has been missed. */
  lemma ExactMeansNothingMissed(s: System)
    requires SystemOk(s)
    ensures Exact(s) <==> forall row :: !IsMissed(s, row)
  {
    hide View, KeyOf;
    var c := LastCompleted(s.folded);
    var all := UpTo(s.completed, c);
    UpToMembers(s.completed, c);
    if missed :| IsMissed(s, missed) {
      CountWithin(s.folded, all, missed);
      RequestsCountRows(s.folded, KeyOf(missed));
      RequestsCountRows(all, KeyOf(missed));
    } else {
      forall row
        ensures row in all <==> row in s.folded
      {
        assert !IsMissed(s, row);
      }
      DistinctMultiset(all);
      DistinctMultiset(s.folded);
      assert multiset(all) == multiset(s.folded);
      ViewIgnoresOrder(all, s.folded);
    }
  }

  /** A step misses a row exactly when it is not one of the steps that lose nothing, and a missed row stays
      missed. */
  lemma MissedRowsStay(s: System, e: Event, s': System)
    requires SystemOk(s) && Next(s, e, s')
    ensures (forall row :: !IsMissed(s', row)) <==> (forall row :: !IsMissed(s, row)) && LosesNothing(s, e)
  {
    var c := LastCompleted(s.folded);
    match e
    case Complete(row) =>
      assert IsMissed(s', row) <==> row.completedAt <= c by {
        assert row !in s.folded;
      }
      assert forall r :: IsMissed(s, r) ==> IsMissed(s', r);
      assert forall r :: r != row ==> (IsMissed(s', r) <==> IsMissed(s, r));
    case Tick(batch) => TickMisses(s, batch, s');
    case Prune(_) =>
      assert forall r :: IsMissed(s', r) <==> IsMissed(s, r);
  }

  lemma LastOfBatch(rows: seq<Row>, batch: seq<Row>)
    requires forall b :: b in batch ==> b.completedAt > LastCompleted(rows)
    ensures forall b :: b in batch ==> b.completedAt <= LastCompleted(rows + batch)
    ensures batch == [] ==> LastCompleted(rows + batch) == LastCompleted(rows)
    ensures batch != [] ==> exists b :: b in batch && b.completedAt == LastCompleted(rows + batch)
  {
    NoneCompletedLater(rows);
    NoneCompletedLater(rows + batch);
    if batch == [] {
      assert rows + batch == rows;
    } else {
      assert batch[0] in rows + batch;
    }
  }

  lemma TickMissedRow(s: System, batch: seq<Row>, s': System, row: Row)
    requires SystemOk(s) && Next(s, Tick(batch), s')
    ensures IsMissed(s', row) <==>
            IsMissed(s, row)
            || (IsLeftOver(s.completed, LastCompleted(s.folded), batch, row)
                && row.completedAt <= LastCompleted(s'.folded))
  {
    hide View, Merge, LastCompleted;
    CursorMovesForward(s.folded, batch);
    assert row in s'.folded <==> row in s.folded || row in batch;
  }

  lemma TickMisses(s: System, batch: seq<Row>, s': System)
    requires SystemOk(s) && Next(s, Tick(batch), s')
    ensures (forall row :: !IsMissed(s', row)) <==>
            (forall row :: !IsMissed(s, row)) && LosesNothing(s, Tick(batch))
  {
    hide View, Merge, LastCompleted, IsMissed, SystemOk;
    var c, c' := LastCompleted(s.folded), LastCompleted(s'.folded);
    LastOfBatch(s.folded, batch);
    forall row
      ensures IsMissed(s', row) <==>
              IsMissed(s, row) || (IsLeftOver(s.completed, c, batch, row) && row.completedAt <= c')
    {
      TickMissedRow(s, batch, s', row);
    }
    if LosesNothing(s, Tick(batch)) {
      forall row | IsLeftOver(s.completed, c, batch, row)
        ensures row.completedAt > c'
      {
        LeftOverIsLater(s, batch, row);
      }
    } else {
      var row, b :| IsLeftOver(s.completed, c, batch, row) && b in batch && b.completedAt >= row.completedAt;
      assert IsMissed(s', row);
    }
  }

  lemma LeftOverIsLater(s: System, batch: seq<Row>, row: Row)
    requires IsBatch(s.table, LastCompleted(s.folded), BATCH_LIMIT, batch)
    requires LosesNothing(s, Tick(batch)) && IsLeftOver(s.completed, LastCompleted(s.folded), batch, row)
    ensures row.completedAt > LastCompleted(s.folded + batch)
  {
    hide LastCompleted;
    LastOfBatch(s.folded, batch);
    if batch != [] {
      var b :| b in batch && b.completedAt == LastCompleted(s.folded + batch);
      assert b.completedAt < row.completedAt;
    }
  }

  /** Incremental view maintenance.  In every run of completions, ticks and prunes the buckets are those of a
      from-scratch aggregation over all rows completed up to the cursor, exactly when every step so far lost
      nothing. */
  lemma {:induction false} RollupIsExact(states: seq<System>, events: seq<Event>, n: nat)
    requires IsRun(states, events) && n <= |events|
    ensures Exact(states[n]) <==> forall i :: 0 <= i < n ==> LosesNothing(states[i], events[i])
  {
    hide Exact, IsMissed, LosesNothing, SystemOk, Next;
    RunsStayOk(states, events, n);
    ExactMeansNothingMissed(states[n]);
    if n == 0 {
      EmptySystemMissesNothing();
    } else {
      RunsStayOk(states, events, n - 1);
      ExactMeansNothingMissed(states[n - 1]);
      RollupIsExact(states, events, n - 1);
      MissedRowsStay(states[n - 1], events[n - 1], states[n]);
    }
  }

  // ----- Pruning that does no harm -----

  /** The step prunes no row that the cursor has still to pass. */
  predicate KeepsPending(s: System, e: Event) {
    e.Prune? ==> forall row :: row in s.table && row.completedAt > LastCompleted(s.folded) ==> row in e.survivors
  }

  /** A row completes beyond the cursor, and a batch does not part rows that completed at the same moment. */
  ghost predicate PartsNoTie(s: System, e: Event) {
    match e
    case Complete(row) => row.completedAt > LastCompleted(s.folded)
    case Tick(batch) =>
      forall row, b :: IsLeftOver(s.table, LastCompleted(s.folded), batch, row) && b in batch ==>
        b.completedAt != row.completedAt
    case Prune(_) => true
  }

  /** Every completed row that the cursor has not passed is in the table. */
  ghost predicate PendingAreHeld(s: System) {
    forall row :: row in s.completed && row.completedAt > LastCompleted(s.folded) ==> row in s.table
  }

  lemma PendingStayHeld(s: System, e: Event, s': System)
    requires SystemOk(s) && Next(s, e, s') && KeepsPending(s, e) && PendingAreHeld(s)
    ensures PendingAreHeld(s')
    ensures LosesNothing(s, e) <==> PartsNoTie(s, e)
  {
    hide View, Merge, LastCompleted, SystemOk;
    NextKeepsSystemOk(s, e, s');
    var c := LastCompleted(s.folded);
    if e.Tick? {
      forall row
        ensures IsLeftOver(s.completed, c, e.batch, row) <==> IsLeftOver(s.table, c, e.batch, row)
      {
        TableIsCompleted(s, row);
      }
    }
  }

  lemma TableIsCompleted(s: System, row: Row)
    requires SystemOk(s)
    ensures row in s.table ==> row in s.completed
  {
  }

  /** As long as only rows are pruned that the cursor has passed, pruning does no harm at all: the buckets are
      exact exactly when no row completed at or before the cursor and no batch parted a tie. */
  lemma {:induction false} HarmlessPruning(states: seq<System>, events: seq<Event>, n: nat)
    requires IsRun(states, events) && n <= |events|
    requires forall i :: 0 <= i < n ==> KeepsPending(states[i], events[i])
    ensures Exact(states[n]) <==> forall i :: 0 <= i < n ==> PartsNoTie(states[i], events[i])
    ensures PendingAreHeld(states[n])
  {
    hide Exact, LosesNothing, PartsNoTie, PendingAreHeld, KeepsPending, SystemOk, Next;
    RollupIsExact(states, events, n);
    if n == 0 {
      NothingPending();
    } else {
      HarmlessPruning(states, events, n - 1);
      RollupIsExact(states, events, n - 1);
      RunsStayOk(states, events, n - 1);
      PendingStayHeld(states[n - 1], events[n - 1], states[n]);
    }
  }

  lemma NothingPending()
    ensures PendingAreHeld(EMPTY_SYSTEM)
  {
  }

  /** A tick that finds fewer rows than its limit catches up: if the buckets were exact before it and nothing
      pending was pruned, they are now the aggregation of all rows that ever completed. */
  lemma ShortTickCatchesUp(states: seq<System>, events: seq<Event>, n: nat)
    requires IsRun(states, events) && n < |events|
    requires forall i :: 0 <= i < n ==> KeepsPending(states[i], events[i])
    requires Exact(states[n]) && events[n].Tick? && |events[n].batch| < BATCH_LIMIT
    ensures states[n + 1].stats == View(states[n + 1].completed)
  {
    hide Exact, View, Merge, LastCompleted, KeepsPending;
    var s, s', batch := states[n], states[n + 1], events[n].batch;
    RunsStayOk(states, events, n);
    RunsStayOk(states, events, n + 1);
    HarmlessPruning(states, events, n);
    ExactMeansNothingMissed(s);
    assert Next(s, events[n], s');
    forall row
      ensures row in s'.completed <==> row in s'.folded
    {
      assert !IsMissed(s, row) && !IsLeftOver(s.table, LastCompleted(s.folded), batch, row);
    }
    DistinctMultiset(s'.completed);
    DistinctMultiset(s'.folded);
    assert multiset(s'.completed) == multiset(s'.folded);
    ViewIgnoresOrder(s'.completed, s'.folded);
  }

  lemma EmptySystemMissesNothing()
    ensures forall row :: !IsMissed(EMPTY_SYSTEM, row)
  {
  }

  /** Nothing is exact unconditionally: a row that completes at the very moment the cursor stands at is never
      counted. */
  lemma LateCompletionIsLost(a: Row, b: Row)
    requires a != b && a.completedAt == b.completedAt > 0
    ensures
      var s0 := EMPTY_SYSTEM;
      var s1 := s0.(table := [a], completed := [a]);
      var s2 := s1.(folded := [a], stats := Merge(map[], View([a])));
      var s3 := s2.(table := [a, b], completed := [a, b]);
      IsRun([s0, s1, s2, s3], [Complete(a), Tick([a]), Complete(b)]) && !Exact(s3)
  {
    var s0 := EMPTY_SYSTEM;
    var s1 := s0.(table := [a], completed := [a]);
    var s2 := s1.(folded := [a], stats := Merge(map[], View([a])));
    var s3 := s2.(table := [a, b], completed := [a, b]);
    var states, events := [s0, s1, s2, s3], [Complete(a), Tick([a]), Complete(b)];
    assert [a][..0] == [] && LastCompleted([a]) == a.completedAt;
    hide View, Merge, Exact;
    assert [] + [a] == [a] && [a] + [b] == [a, b];
    assert Next(s0, events[0], s1) && Next(s1, events[1], s2) && Next(s2, events[2], s3);
    assert IsRun(states, events);
    RollupIsExact(states, events, 3);
    assert !LosesNothing(states[2], events[2]);
  }

  /** Nothing folded yet. */
  function Unfolded(table: seq<Row>, completed: seq<Row>): System {
    System(table, completed, [], map[])
  }

  function PrunedRun(a: Row, b: Row): seq<System> {
    [EMPTY_SYSTEM, Unfolded([a], [a]), Unfolded([a, b], [a, b]), Unfolded([b], [a, b]),
     System([b], [a, b], [b], Merge(map[], View([b])))]
  }

  lemma PrunedRunRuns(a: Row, b: Row)
    requires 0 < a.completedAt < b.completedAt
    ensures IsRun(PrunedRun(a, b), [Complete(a), Complete(b), Prune([b]), Tick([b])])
  {
    hide View, Merge;
    assert [] + [a] == [a] && [a] + [b] == [a, b] && [] + [b] == [b];
    assert Next(EMPTY_SYSTEM, Complete(a), Unfolded([a], [a]));
    assert Next(Unfolded([a], [a]), Complete(b), Unfolded([a, b], [a, b]));
    assert Next(Unfolded([a, b], [a, b]), Prune([b]), Unfolded([b], [a, b]));
    assert Next(Unfolded([b], [a, b]), Tick([b]), PrunedRun(a, b)[4]);
  }

  /** Pruning a row before it was folded loses it as soon as a later row is folded. */
  lemma PrunedRowIsLost(a: Row, b: Row)
    requires 0 < a.completedAt < b.completedAt
    ensures
      var states, events := PrunedRun(a, b), [Complete(a), Complete(b), Prune([b]), Tick([b])];
      IsRun(states, events) && Exact(states[3]) && !Exact(states[4])
  {
    var states, events := PrunedRun(a, b), [Complete(a), Complete(b), Prune([b]), Tick([b])];
    hide View, Merge, Exact, IsRun;
    PrunedRunRuns(a, b);
    RollupIsExact(states, events, 3);
    RollupIsExact(states, events, 4);
    var s := Unfolded([b], [a, b]);
    assert states[3] == s && IsLeftOver(s.completed, LastCompleted(s.folded), [b], a) && b in [b];
    assert !LosesNothing(states[3], events[3]);
  }
}
