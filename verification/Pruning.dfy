/** The retention of request rows as a step of the rollup's system. */
module Pruning {
  import opened Retention
  import opened Rollup

  function LogRowOf(row: Row): LogRow {
    LogRow(row.id, row.createdAt)
  }

  /** The log, in which rows that have not completed yet count too, holds all rows of the table. */
  predicate Logged(table: seq<Row>, log: seq<LogRow>) {
    forall row :: row in table ==> LogRowOf(row) in log
  }

  /** What pruning the log leaves of the completed rows. */
  function Survivors(table: seq<Row>, log: seq<LogRow>, maxRecords: nat): (r: seq<Row>)
    ensures forall row :: row in r <==> row in table && LogRowOf(row) in Cleaned(log, maxRecords)
  {
    if table == [] then []
    else
      var front, last := table[..|table| - 1], table[|table| - 1];
      assert table == front + [last];
      Survivors(front, log, maxRecords) + if LogRowOf(last) in Cleaned(log, maxRecords) then [last] else []
  }

  /** `Cleanup` is a prune of the rollup's system, and it keeps every row the cursor has still to pass exactly
      when no such row has more than `maxRecords` rows that were created after it. */
  lemma CleanupKeepsPendingExactlyWhen(s: System, log: seq<LogRow>, maxRecords: nat)
    requires Logged(s.table, log)
    ensures
      var prune, survivors := Prune(Survivors(s.table, log, maxRecords)), Survivors(s.table, log, maxRecords);
      && Next(s, prune, s.(table := survivors))
      && (KeepsPending(s, prune) <==>
          forall row :: row in s.table && row.completedAt > LastCompleted(s.folded) ==>
            AtLeast(CreatedAts(log), row.createdAt + 1) <= maxRecords)
  {
    hide Cleaned, AtLeast, CreatedAts, LastCompleted;
    forall row | row in s.table
      ensures row in Survivors(s.table, log, maxRecords) <==>
              AtLeast(CreatedAts(log), row.createdAt + 1) <= maxRecords
    {
      OnlyOldRowsGo(log, maxRecords, LogRowOf(row));
    }
  }
}
