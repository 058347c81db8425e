/** The notifications table as a sweep's SELECT sees it: filter, order by the sort key, limit. */
module Tables {
  import opened Domain
  import opened Sweeps

  type Table = map<Id, Row>

  /** The rows a sweep's WHERE clause accepts. */
  function EligibleIds(table: Table, sweep: Sweep, now: Nanos): set<Id> {
    set id | id in table && Eligible(sweep, table[id], now)
  }

  /**
   * A result of SELECT ... ORDER BY key LIMIT `limit`: distinct eligible rows, oldest first, and no
   * row left out that is older than one taken, or left out at all while there was room.
   */
  ghost predicate IsSelection(table: Table, sweep: Sweep, now: Nanos, limit: nat, ids: seq<Id>) {
    && |ids| <= limit
    && (forall k | 0 <= k < |ids| :: ids[k] in EligibleIds(table, sweep, now))
    && (forall k, l | 0 <= k < l < |ids| :: ids[k] != ids[l] && SortKey(sweep, table[ids[k]]) <= SortKey(sweep, table[ids[l]]))
    && (forall id | id in EligibleIds(table, sweep, now) && id !in ids ::
          |ids| == limit && forall k | 0 <= k < |ids| :: SortKey(sweep, table[ids[k]]) <= SortKey(sweep, table[id]))
  }

  /** A selection, row by row. */
  lemma SelectionMeans(table: Table, sweep: Sweep, now: Nanos, limit: nat, ids: seq<Id>)
    requires IsSelection(table, sweep, now, limit, ids)
    ensures forall k | 0 <= k < |ids| :: ids[k] in table && Eligible(sweep, table[ids[k]], now)
    ensures forall k, l | 0 <= k < l < |ids| :: ids[k] != ids[l] && SortKey(sweep, table[ids[k]]) <= SortKey(sweep, table[ids[l]])
    ensures |ids| <= limit
    ensures forall id | id in table && Eligible(sweep, table[id], now) && id !in ids ::
              |ids| == limit && forall k | 0 <= k < |ids| :: SortKey(sweep, table[ids[k]]) <= SortKey(sweep, table[id])
  {
    hide Eligible, SortKey;
  }

  lemma OldestExists(table: Table, sweep: Sweep, ids: set<Id>) returns (oldest: Id)
    requires ids != {} && ids <= table.Keys
    ensures oldest in ids && forall id | id in ids :: SortKey(sweep, table[oldest]) <= SortKey(sweep, table[id])
  {
    oldest :| oldest in ids;
    if ids != {oldest} {
      var other := OldestExists(table, sweep, ids - {oldest});
      if SortKey(sweep, table[other]) < SortKey(sweep, table[oldest]) {
        oldest := other;
      }
    }
  }

  /** Takes the oldest remaining row until the limit is reached. */
  method OldestFirst(table: Table, sweep: Sweep, now: Nanos, limit: nat) returns (ids: seq<Id>)
    ensures IsSelection(table, sweep, now, limit, ids)
  {
    var left := EligibleIds(table, sweep, now);
    ids := [];
    while |ids| < limit && left != {}
      invariant |ids| <= limit
      invariant left <= EligibleIds(table, sweep, now)
      invariant forall id | id in EligibleIds(table, sweep, now) :: id in left <==> id !in ids
      invariant forall k | 0 <= k < |ids| :: ids[k] in EligibleIds(table, sweep, now)
      invariant forall k, l | 0 <= k < l < |ids| :: ids[k] != ids[l] && SortKey(sweep, table[ids[k]]) <= SortKey(sweep, table[ids[l]])
      invariant forall k, id | 0 <= k < |ids| && id in left :: SortKey(sweep, table[ids[k]]) <= SortKey(sweep, table[id])
      decreases left
    {
      ghost var first := OldestExists(table, sweep, left);
      var oldest :| oldest in left && forall id | id in left :: SortKey(sweep, table[oldest]) <= SortKey(sweep, table[id]);
      ids := ids + [oldest];
      left := left - {oldest};
    }
  }
}
