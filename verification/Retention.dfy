/** Pruning the request log down to its retention cap. */
module Retention {
  datatype LogRow = LogRow(id: string, createdAt: int)

  function CreatedAts(rows: seq<LogRow>): seq<int> {
    if rows == [] then [] else CreatedAts(rows[..|rows| - 1]) + [rows[|rows| - 1].createdAt]
  }

  // ----- Descending order -----

  function InsertDescending(xs: seq<int>, x: int): seq<int> {
    if xs == [] then [x]
    else if x >= xs[0] then [x] + xs
    else [xs[0]] + InsertDescending(xs[1..], x)
  }

  /** `ORDER BY created_at DESC`. */
  function Descending(xs: seq<int>): seq<int> {
    if xs == [] then [] else InsertDescending(Descending(xs[..|xs| - 1]), xs[|xs| - 1])
  }

  predicate IsDescending(xs: seq<int>) {
    forall i, j :: 0 <= i < j < |xs| ==> xs[i] >= xs[j]
  }

  /** How many of `xs` are at least `c`. */
  function AtLeast(xs: seq<int>, c: int): nat {
    if xs == [] then 0 else AtLeast(xs[..|xs| - 1], c) + if xs[|xs| - 1] >= c then 1 else 0
  }

  lemma {:induction false} AtLeastCons(x: int, xs: seq<int>, c: int)
    ensures AtLeast([x] + xs, c) == AtLeast(xs, c) + if x >= c then 1 else 0
  {
    if xs == [] {
      assert [x] + xs == [x] && [x][..0] == [];
    } else {
      assert ([x] + xs)[..|xs|] == [x] + xs[..|xs| - 1];
      AtLeastCons(x, xs[..|xs| - 1], c);
    }
  }

  lemma DescendingCons(x: int, xs: seq<int>)
    requires IsDescending(xs) && forall y :: y in xs ==> x >= y
    ensures IsDescending([x] + xs)
  {
    var ys := [x] + xs;
    forall i, j | 0 <= i < j < |ys|
      ensures ys[i] >= ys[j]
    {
      assert ys[j] == xs[j - 1] && xs[j - 1] in xs;
    }
  }

  lemma {:induction false} InsertIsOrdered(xs: seq<int>, x: int)
    requires IsDescending(xs)
    ensures IsDescending(InsertDescending(xs, x)) && |InsertDescending(xs, x)| == |xs| + 1
    ensures forall y :: y in InsertDescending(xs, x) <==> y in xs || y == x
  {
    if xs == [] {
    } else {
      assert xs == [xs[0]] + xs[1..];
      if x >= xs[0] {
        DescendingCons(x, xs);
      } else {
        InsertIsOrdered(xs[1..], x);
        DescendingCons(xs[0], InsertDescending(xs[1..], x));
      }
    }
  }

  lemma {:induction false} InsertCounts(xs: seq<int>, x: int, c: int)
    ensures AtLeast(InsertDescending(xs, x), c) == AtLeast(xs, c) + if x >= c then 1 else 0
  {
    if xs == [] {
      assert [x][..0] == [];
    } else {
      hide AtLeast;
      assert xs == [xs[0]] + xs[1..];
      AtLeastCons(x, xs, c);
      AtLeastCons(xs[0], xs[1..], c);
      AtLeastCons(xs[0], InsertDescending(xs[1..], x), c);
      if x < xs[0] {
        InsertCounts(xs[1..], x, c);
      }
    }
  }

  lemma {:induction false} DescendingIsOrdered(xs: seq<int>, c: int)
    ensures IsDescending(Descending(xs)) && |Descending(xs)| == |xs|
    ensures AtLeast(Descending(xs), c) == AtLeast(xs, c)
  {
    if xs != [] {
      DescendingIsOrdered(xs[..|xs| - 1], c);
      InsertIsOrdered(Descending(xs[..|xs| - 1]), xs[|xs| - 1]);
      InsertCounts(Descending(xs[..|xs| - 1]), xs[|xs| - 1], c);
    }
  }

  /** In a descending list, the first entries are the ones at least as large. */
  lemma {:induction false} OrderedCount(xs: seq<int>, c: int, k: nat)
    requires IsDescending(xs) && k <= |xs|
    requires forall i :: 0 <= i < k ==> xs[i] >= c
    requires forall i :: k <= i < |xs| ==> xs[i] < c
    ensures AtLeast(xs, c) == k
  {
    if xs != [] {
      var n := |xs| - 1;
      OrderedCount(xs[..n], c, if k <= n then k else n);
    }
  }

  /** `c` stands at position `n` in descending order: at most `n` values are larger, more than `n` are at
      least as large. */
  predicate IsCutoff(xs: seq<int>, n: nat, c: int) {
    AtLeast(xs, c + 1) <= n < AtLeast(xs, c)
  }

  lemma OffsetIsCutoff(xs: seq<int>, n: nat)
    requires n < |xs|
    ensures n < |Descending(xs)| && IsCutoff(xs, n, Descending(xs)[n])
  {
    hide Descending, AtLeast;
    DescendingIsOrdered(xs, 0);
    var ys := Descending(xs);
    var c := ys[n];
    DescendingIsOrdered(xs, c);
    DescendingIsOrdered(xs, c + 1);
    OrderedCount(ys, c, FirstBelow(ys, c));
    OrderedCount(ys, c + 1, FirstBelow(ys, c + 1));
  }

  function FirstBelow(xs: seq<int>, c: int): (k: nat)
    requires IsDescending(xs)
    ensures k <= |xs|
    ensures forall i :: 0 <= i < k ==> xs[i] >= c
    ensures forall i :: k <= i < |xs| ==> xs[i] < c
  {
    if xs == [] || xs[0] < c then 0 else 1 + FirstBelow(xs[1..], c)
  }

  lemma {:induction false} AtLeastFalls(xs: seq<int>, a: int, b: int)
    requires a <= b
    ensures AtLeast(xs, b) <= AtLeast(xs, a) <= |xs|
  {
    if xs != [] {
      AtLeastFalls(xs[..|xs| - 1], a, b);
    }
  }

  lemma CutoffIsUnique(xs: seq<int>, n: nat, a: int, b: int)
    requires IsCutoff(xs, n, a) && IsCutoff(xs, n, b)
    ensures a == b
  {
    if a < b {
      AtLeastFalls(xs, a + 1, b);
    } else if b < a {
      AtLeastFalls(xs, b + 1, a);
    }
  }

  // ----- Cleanup -----

  function NotOlder(rows: seq<LogRow>, cutoff: int): seq<LogRow> {
    if rows == [] then []
    else
      var last := rows[|rows| - 1];
      NotOlder(rows[..|rows| - 1], cutoff) + if last.createdAt < cutoff then [] else [last]
  }

  /** The log after pruning. */
  function Cleaned(rows: seq<LogRow>, maxRecords: nat): seq<LogRow>
  {
    if |rows| <= maxRecords then rows
    else
      LengthOfCreatedAts(rows);
      OffsetIsCutoff(CreatedAts(rows), maxRecords);
      NotOlder(rows, Descending(CreatedAts(rows))[maxRecords])
  }

  class Repository {
    var rows: seq<LogRow>
    const maxRecords: nat

    constructor (maxRecords: nat)
      ensures rows == [] && this.maxRecords == maxRecords
    {
      rows, this.maxRecords := [], maxRecords;
    }

    /** `Cleanup`: count, find the cut-off, delete what is older. */
    method Cleanup()
      modifies this
      ensures rows == Cleaned(old(rows), maxRecords)
    {
      if |rows| <= maxRecords {
        return;
      }
      LengthOfCreatedAts(rows);
      OffsetIsCutoff(CreatedAts(rows), maxRecords);
      var cutoff := Descending(CreatedAts(rows))[maxRecords];
      var kept: seq<LogRow> := [];
      for i := 0 to |rows|
        invariant kept == NotOlder(rows[..i], cutoff) && rows == old(rows)
      {
        assert rows[..i + 1][..i] == rows[..i];
        if rows[i].createdAt >= cutoff {
          kept := kept + [rows[i]];
        }
      }
      assert rows[..|rows|] == rows;
      rows := kept;
    }
  }

  lemma {:induction false} LengthOfCreatedAts(rows: seq<LogRow>)
    ensures |CreatedAts(rows)| == |rows|
  {
    if rows != [] {
      LengthOfCreatedAts(rows[..|rows| - 1]);
    }
  }

  lemma CountSnoc(rows: seq<LogRow>, row: LogRow, c: int)
    ensures AtLeast(CreatedAts(rows + [row]), c) == AtLeast(CreatedAts(rows), c) + if row.createdAt >= c then 1 else 0
  {
    assert (rows + [row])[..|rows|] == rows;
    var xs := CreatedAts(rows);
    assert (xs + [row.createdAt])[..|xs|] == xs;
  }

  lemma NotOlderSnoc(rows: seq<LogRow>, row: LogRow, cutoff: int)
    ensures NotOlder(rows + [row], cutoff) ==
            if row.createdAt < cutoff then NotOlder(rows, cutoff) else NotOlder(rows, cutoff) + [row]
  {
    assert (rows + [row])[..|rows|] == rows;
  }

  lemma NothingCounts(cutoff: int, c: int)
    ensures NotOlder([], cutoff) == [] && AtLeast(CreatedAts([]), cutoff) == AtLeast(CreatedAts([]), c) == 0
  {
  }

  lemma {:induction false} NotOlderCounts(rows: seq<LogRow>, cutoff: int, c: int)
    requires c >= cutoff
    ensures |NotOlder(rows, cutoff)| == AtLeast(CreatedAts(rows), cutoff)
    ensures AtLeast(CreatedAts(NotOlder(rows, cutoff)), c) == AtLeast(CreatedAts(rows), c)
    ensures NotOlder(NotOlder(rows, cutoff), cutoff) == NotOlder(rows, cutoff)
  {
    hide NotOlder, AtLeast, CreatedAts;
    if rows == [] {
      NothingCounts(cutoff, c);
    } else {
      var front, last := rows[..|rows| - 1], rows[|rows| - 1];
      assert rows == front + [last];
      NotOlderCounts(front, cutoff, c);
      NotOlderSnoc(front, last, cutoff);
      CountSnoc(front, last, cutoff);
      CountSnoc(front, last, c);
      if last.createdAt >= cutoff {
        CountSnoc(NotOlder(front, cutoff), last, c);
        NotOlderSnoc(NotOlder(front, cutoff), last, cutoff);
      }
    }
  }

  lemma {:induction false} NotOlderMembers(rows: seq<LogRow>, cutoff: int)
    ensures forall row :: row in NotOlder(rows, cutoff) <==> row in rows && row.createdAt >= cutoff
  {
    if rows != [] {
      NotOlderMembers(rows[..|rows| - 1], cutoff);
      assert rows == rows[..|rows| - 1] + [rows[|rows| - 1]];
    }
  }

  /** What the cut-off is when there is something to prune. */
  lemma CutoffOf(rows: seq<LogRow>, maxRecords: nat) returns (c: int)
    requires |rows| > maxRecords
    ensures IsCutoff(CreatedAts(rows), maxRecords, c) && Cleaned(rows, maxRecords) == NotOlder(rows, c)
  {
    hide Descending, IsCutoff, CreatedAts;
    LengthOfCreatedAts(rows);
    OffsetIsCutoff(CreatedAts(rows), maxRecords);
    c := Descending(CreatedAts(rows))[maxRecords];
  }

  /** A row is removed only when more than `maxRecords` rows are strictly newer, and with it every row that is
      as old or older. */
  lemma OnlyOldRowsGo(rows: seq<LogRow>, maxRecords: nat, row: LogRow)
    requires row in rows
    ensures row !in Cleaned(rows, maxRecords) <==>
            AtLeast(CreatedAts(rows), row.createdAt + 1) > maxRecords
    ensures forall other: LogRow :: row !in Cleaned(rows, maxRecords) && other.createdAt <= row.createdAt ==>
              other !in Cleaned(rows, maxRecords)
    ensures forall other: LogRow :: other in Cleaned(rows, maxRecords) ==> other in rows
  {
    hide AtLeast, CreatedAts, Cleaned;
    LengthOfCreatedAts(rows);
    if |rows| > maxRecords {
      var c := CutoffOf(rows, maxRecords);
      NotOlderMembers(rows, c);
      if row.createdAt < c {
        AtLeastFalls(CreatedAts(rows), row.createdAt + 1, c);
      } else {
        AtLeastFalls(CreatedAts(rows), c + 1, row.createdAt + 1);
      }
    } else {
      AtLeastFalls(CreatedAts(rows), row.createdAt, row.createdAt + 1);
      NothingToPrune(rows, maxRecords);
    }
  }

  lemma NothingToPrune(rows: seq<LogRow>, maxRecords: nat)
    requires |rows| <= maxRecords
    ensures Cleaned(rows, maxRecords) == rows
  {
  }

  /** Pruning twice is pruning once. */
  lemma CleanupIsIdempotent(rows: seq<LogRow>, maxRecords: nat)
    ensures Cleaned(Cleaned(rows, maxRecords), maxRecords) == Cleaned(rows, maxRecords)
  {
    hide Cleaned, CreatedAts, AtLeast, NotOlder;
    if |rows| > maxRecords {
      var c := CutoffOf(rows, maxRecords);
      var kept := Cleaned(rows, maxRecords);
      NotOlderCounts(rows, c, c);
      NotOlderCounts(rows, c, c + 1);
      var c' := CutoffOf(kept, maxRecords);
      CutoffIsUnique(CreatedAts(kept), maxRecords, c, c');
    } else {
      NothingToPrune(rows, maxRecords);
    }
  }

  /** The cap itself is never reached by pruning: the row at the cut-off position stays, so a log that was above
      the cap is left with more than `maxRecords` rows. */
  lemma CleanupStaysAboveTheCap(rows: seq<LogRow>, maxRecords: nat)
    ensures |Cleaned(rows, maxRecords)| <= maxRecords <==> |rows| <= maxRecords
    ensures |Cleaned(rows, maxRecords)| <= |rows|
  {
    hide Cleaned, CreatedAts, AtLeast, NotOlder;
    if |rows| > maxRecords {
      var c := CutoffOf(rows, maxRecords);
      NotOlderCounts(rows, c, c);
      LengthOfCreatedAts(rows);
      AtLeastFalls(CreatedAts(rows), c, c);
    } else {
      NothingToPrune(rows, maxRecords);
    }
  }

  /** With creation times all different, exactly one row too many stays. */
  lemma DistinctTimesLeaveOneTooMany(rows: seq<LogRow>, maxRecords: nat)
    requires |rows| > maxRecords
    requires forall i, j :: 0 <= i < j < |rows| ==> rows[i].createdAt != rows[j].createdAt
    ensures |Cleaned(rows, maxRecords)| == maxRecords + 1
  {
    hide Cleaned, CreatedAts, AtLeast, NotOlder;
    var c := CutoffOf(rows, maxRecords);
    NotOlderCounts(rows, c, c);
    DistinctTimesCountOnce(rows, c);
  }

  lemma {:induction false} DistinctTimesCountOnce(rows: seq<LogRow>, c: int)
    requires forall i, j :: 0 <= i < j < |rows| ==> rows[i].createdAt != rows[j].createdAt
    ensures AtLeast(CreatedAts(rows), c) <=
            AtLeast(CreatedAts(rows), c + 1) + if exists i :: 0 <= i < |rows| && rows[i].createdAt == c then 1 else 0
  {
    if rows != [] {
      var n := |rows| - 1;
      var front := rows[..n];
      DistinctTimesCountOnce(front, c);
      assert CreatedAts(rows)[..|CreatedAts(front)|] == CreatedAts(front);
      if rows[n].createdAt == c {
        assert forall i :: 0 <= i < n ==> front[i] == rows[i];
        assert !exists i :: 0 <= i < n && front[i].createdAt == c;
      } else if i :| 0 <= i < n && front[i].createdAt == c {
        assert rows[i].createdAt == c;
      }
    }
  }
}
