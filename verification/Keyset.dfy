/** Listing notifications page by page, newest first, with a keyset cursor. */
module Keyset {
  import opened Collections
  import opened Domain
  import opened Base64
  import opened Timestamps
  import opened Cursor

  const DEFAULT_LIST_LIMIT: int := 20
  const MAX_LIST_LIMIT: int := 100

  // ---------------------------------------------------------------------------------------------
  // The table and its order
  // ---------------------------------------------------------------------------------------------

  datatype Channel = Sms | Email | Push

  /** An instant of the years 0 to 9999. */
  type Instant = t: int | InRange(t) witness 0

  /** The columns that the listing reads. */
  datatype Record = Record(status: Status, channel: Channel, batchId: Option<Uuid>, createdAt: Instant)

  type Records = map<Uuid, Record>

  /** The sort key of a row; no two rows share one. */
  datatype Key = Key(createdAt: int, id: Uuid)

  predicate Less(a: Key, b: Key) {
    a.createdAt < b.createdAt || (a.createdAt == b.createdAt && a.id < b.id)
  }

  ghost predicate IsDescending(keys: seq<Key>) {
    forall i, j | 0 <= i < j < |keys| :: Less(keys[j], keys[i])
  }

  predicate IsGreatest(keys: set<Key>, k: Key) {
    k in keys && forall l | l in keys :: l == k || Less(l, k)
  }

  lemma {:induction false} GreatestExists(keys: set<Key>) returns (greatest: Key)
    requires keys != {}
    ensures greatest in keys && IsGreatest(keys, greatest)
  {
    var any :| any in keys;
    var others := keys - {any};
    greatest := any;
    if others != {} {
      var other := GreatestExists(others);
      if Less(any, other) {
        greatest := other;
      }
    }
    forall l | l in keys
      ensures l == greatest || Less(l, greatest)
    {
      assert l == any || l in others;
    }
  }

  /** The keys in descending order. */
  ghost function Descending(keys: set<Key>): seq<Key>
    decreases |keys|
  {
    if keys == {} then []
    else
      assert exists k :: IsGreatest(keys, k) by {
        var greatest := GreatestExists(keys);
      }
      var greatest :| IsGreatest(keys, greatest);
      [greatest] + Descending(keys - {greatest})
  }

  lemma DescendingOfNone()
    ensures Descending({}) == []
  {
  }

  lemma DescendingStep(keys: set<Key>, greatest: Key)
    requires IsGreatest(keys, greatest)
    ensures Descending(keys) == [greatest] + Descending(keys - {greatest})
  {
    var chosen := Descending(keys)[0];
    assert IsGreatest(keys, chosen);
    assert chosen == greatest;
  }

  lemma ConsDescending(greatest: Key, keys: set<Key>, s: seq<Key>)
    requires IsGreatest(keys, greatest) && IsDescending(s) && forall k | k in s :: k in keys && k != greatest
    ensures IsDescending([greatest] + s)
  {
  }

  lemma {:induction false} DescendingSorts(keys: set<Key>)
    ensures IsDescending(Descending(keys)) && |Descending(keys)| == |keys|
    ensures forall k :: k in keys <==> k in Descending(keys)
    decreases |keys|
  {
    hide Less;
    if keys != {} {
      var greatest := GreatestExists(keys);
      var others := keys - {greatest};
      DescendingStep(keys, greatest);
      DescendingSorts(others);
      ConsDescending(greatest, keys, Descending(others));
      hide IsGreatest, IsDescending, Descending;
      forall k
        ensures k in keys <==> k in [greatest] + Descending(others)
      {
        assert k in keys <==> k == greatest || k in others;
      }
    }
  }

  /** Only one order of a set of keys is descending. */
  lemma {:induction false} DescendingIsUnique(keys: set<Key>, s: seq<Key>)
    requires IsDescending(s) && forall k :: k in keys <==> k in s
    ensures s == Descending(keys)
    decreases |s|
  {
    if s == [] {
      assert keys == {};
    } else {
      var others := keys - {s[0]};
      assert IsGreatest(keys, s[0]);
      DescendingStep(keys, s[0]);
      forall k
        ensures k in others <==> k in s[1..]
      {
        assert s == [s[0]] + s[1..];
        assert s[0] !in s[1..];
      }
      DescendingIsUnique(others, s[1..]);
    }
  }

  /** Newest first, and by id where creation times are the same. */
  lemma NewestFirst(keys: seq<Key>)
    requires IsDescending(keys)
    ensures forall i, j | 0 <= i < j < |keys| ::
              keys[i].createdAt > keys[j].createdAt || (keys[i].createdAt == keys[j].createdAt && keys[i].id > keys[j].id)
  {
    forall i, j | 0 <= i < j < |keys|
      ensures keys[i].createdAt > keys[j].createdAt || (keys[i].createdAt == keys[j].createdAt && keys[i].id > keys[j].id)
    {
      assert Less(keys[j], keys[i]);
    }
  }

  // ---------------------------------------------------------------------------------------------
  // Filters, cursors and pages
  // ---------------------------------------------------------------------------------------------

  datatype Filter = Filter(
    status: Option<Status>,
    channel: Option<Channel>,
    batchId: Option<seq<Byte>>,
    createdAfter: Option<int>,
    createdBefore: Option<int>
  )

  predicate Matches(filter: Filter, r: Record) {
    && (filter.status.Some? ==> r.status == filter.status.value)
    && (filter.channel.Some? ==> r.channel == filter.channel.value)
    && (filter.batchId.Some? ==> r.batchId.Some? && ParseUuid(filter.batchId.value) == Success(r.batchId.value))
    && (filter.createdAfter.Some? ==> filter.createdAfter.value <= r.createdAt)
    && (filter.createdBefore.Some? ==> r.createdAt <= filter.createdBefore.value)
  }

  /** The key a cursor stands for; the empty cursor stands for the start. */
  function CursorKey(cursor: seq<Byte>): Result<Option<Key>, CursorError> {
    if cursor == [] then Success(None)
    else match DecodeCursor(cursor)
      case Failure(e) => Failure(e)
      case Success((t, id)) =>
        match ParseUuid(id)
        case Failure(e) => Failure(e)
        case Success(u) => Success(Some(Key(t, u)))
  }

  /** The cursor that continues after a key, and the empty cursor at the end. */
  function CursorOf(next: Option<Key>): seq<Byte>
    requires next.Some? ==> InRange(next.value.createdAt)
  {
    if next.None? then [] else EncodeCursor(next.value.createdAt, UuidToString(next.value.id))
  }

  /** A cursor is a timestamp and an id. */
  lemma CursorMeans(cursor: seq<Byte>)
    ensures CursorKey(cursor).Failure? <==>
            cursor != [] && (DecodeCursor(cursor).Failure? || ParseUuid(DecodeCursor(cursor).value.1).Failure?)
    ensures CursorKey(cursor).Success? ==> (CursorKey(cursor).value.None? <==> cursor == [])
    ensures CursorKey(cursor).Success? && cursor != [] ==>
              CursorKey(cursor).value.value == Key(DecodeCursor(cursor).value.0, ParseUuid(DecodeCursor(cursor).value.1).value)
  {
    hide DecodeCursor, ParseUuid;
  }

  lemma CursorOfKey(next: Option<Key>)
    requires next.Some? ==> InRange(next.value.createdAt)
    ensures CursorKey(CursorOf(next)) == Success(next) && (CursorOf(next) == [] <==> next.None?)
  {
    hide EncodeCursor, DecodeCursor, ParseUuid, UuidToString;
    if next.Some? {
      CursorRoundTrip(next.value.createdAt, UuidToString(next.value.id));
      UuidRoundTrip(next.value.id);
    }
  }

  /** The keys of the rows that match, from the cursor's position on: the whole rest of the listing. */
  ghost function Rest(table: Records, filter: Filter, from: Option<Key>): set<Key> {
    set id | id in table && Matches(filter, table[id])
             && (from.Some? ==> Less(Key(table[id].createdAt, id), from.value)) :: Key(table[id].createdAt, id)
  }

  /** The page at a position of filter-then-sort. */
  ghost function PageRows(table: Records, filter: Filter, from: Option<Key>, limit: nat): seq<Key> {
    var all := Descending(Rest(table, filter, from));
    if |all| <= limit then all else all[..limit]
  }

  /** Where the next page starts, if there is one. */
  ghost function PageNext(table: Records, filter: Filter, from: Option<Key>, limit: nat): (next: Option<Key>)
    requires limit > 0
    ensures next.Some? ==> InRange(next.value.createdAt)
  {
    var rest := Rest(table, filter, from);
    DescendingSorts(rest);
    var all := Descending(rest);
    if |all| <= limit then None
    else
      assert all[limit - 1] in rest;
      Some(all[limit - 1])
  }

  /** The rows of a listing, column by column. */
  lemma RestMeans(table: Records, filter: Filter, from: Option<Key>, k: Key)
    ensures k in Rest(table, filter, from) <==>
              && k.id in table && table[k.id].createdAt == k.createdAt
              && (filter.status.Some? ==> table[k.id].status == filter.status.value)
              && (filter.channel.Some? ==> table[k.id].channel == filter.channel.value)
              && (filter.batchId.Some? ==> table[k.id].batchId.Some? && ParseUuid(filter.batchId.value) == Success(table[k.id].batchId.value))
              && (filter.createdAfter.Some? ==> table[k.id].createdAt >= filter.createdAfter.value)
              && (filter.createdBefore.Some? ==> table[k.id].createdAt <= filter.createdBefore.value)
              && (from.Some? ==> k.createdAt < from.value.createdAt || (k.createdAt == from.value.createdAt && k.id < from.value.id))
  {
  }

  /** The first `limit` keys in descending order: all that are left out are smaller. */
  lemma PrefixOfDescending(rest: set<Key>, limit: nat, rows: seq<Key>)
    requires limit > 0 && rows == if |Descending(rest)| <= limit then Descending(rest) else Descending(rest)[..limit]
    ensures IsDescending(rows) && |rows| <= limit && forall k | k in rows :: k in rest
    ensures forall k | k in rest && k !in rows :: |Descending(rest)| > limit && Less(k, rows[limit - 1])
    ensures |Descending(rest)| > limit ==> Descending(rest)[limit] in rest && Descending(rest)[limit] !in rows
  {
    DescendingSorts(rest);
    var all := Descending(rest);
    hide Descending;
    forall k | k in rest && k !in rows
      ensures |all| > limit && Less(k, rows[limit - 1])
    {
      var j :| 0 <= j < |all| && all[j] == k;
    }
  }

  /** What a page holds: only rows that match and lie below its start, newest first. */
  lemma PageHolds(table: Records, filter: Filter, from: Option<Key>, limit: nat)
    requires limit > 0
    ensures var rows := PageRows(table, filter, from, limit);
            && |rows| <= limit
            && (forall i, j | 0 <= i < j < |rows| ::
              rows[i].createdAt > rows[j].createdAt || (rows[i].createdAt == rows[j].createdAt && rows[i].id > rows[j].id))
    ensures forall k | k in PageRows(table, filter, from, limit) ::
              && k.id in table && table[k.id].createdAt == k.createdAt
              && (filter.status.Some? ==> table[k.id].status == filter.status.value)
              && (filter.channel.Some? ==> table[k.id].channel == filter.channel.value)
              && (filter.batchId.Some? ==> table[k.id].batchId.Some? && ParseUuid(filter.batchId.value) == Success(table[k.id].batchId.value))
              && (filter.createdAfter.Some? ==> table[k.id].createdAt >= filter.createdAfter.value)
              && (filter.createdBefore.Some? ==> table[k.id].createdAt <= filter.createdBefore.value)
              && (from.Some? ==> k.createdAt < from.value.createdAt || (k.createdAt == from.value.createdAt && k.id < from.value.id))
  {
    var rows := PageRows(table, filter, from, limit);
    PrefixOfDescending(Rest(table, filter, from), limit, rows);
    NewestFirst(rows);
    hide Rest, Descending, IsDescending, PageRows, Less, ParseUuid;
    forall k | k in rows
      ensures && k.id in table && table[k.id].createdAt == k.createdAt
              && (filter.status.Some? ==> table[k.id].status == filter.status.value)
              && (filter.channel.Some? ==> table[k.id].channel == filter.channel.value)
              && (filter.batchId.Some? ==> table[k.id].batchId.Some? && ParseUuid(filter.batchId.value) == Success(table[k.id].batchId.value))
              && (filter.createdAfter.Some? ==> table[k.id].createdAt >= filter.createdAfter.value)
              && (filter.createdBefore.Some? ==> table[k.id].createdAt <= filter.createdBefore.value)
              && (from.Some? ==> k.createdAt < from.value.createdAt || (k.createdAt == from.value.createdAt && k.id < from.value.id))
    {
      RestMeans(table, filter, from, k);
    }
  }

  /** A row that a page leaves out: the page is full, and its last row, where the next page starts, is newer. */
  lemma LeftOut(table: Records, filter: Filter, from: Option<Key>, limit: nat, k: Key)
    requires limit > 0 && k in Rest(table, filter, from) && k !in PageRows(table, filter, from, limit)
    ensures var rows := PageRows(table, filter, from, limit);
            && |rows| == limit && PageNext(table, filter, from, limit) == Some(rows[limit - 1])
            && (k.createdAt < rows[limit - 1].createdAt || (k.createdAt == rows[limit - 1].createdAt && k.id < rows[limit - 1].id))
  {
    PrefixOfDescending(Rest(table, filter, from), limit, PageRows(table, filter, from, limit));
    hide Rest, Descending, IsDescending;
  }

  /** What a page leaves out: only when it is full, and then only older rows. */
  lemma PageLeavesOut(table: Records, filter: Filter, from: Option<Key>, limit: nat)
    requires limit > 0
    ensures var rows := PageRows(table, filter, from, limit);
            forall id | id in table && Key(table[id].createdAt, id) !in rows
              && (filter.status.Some? ==> table[id].status == filter.status.value)
              && (filter.channel.Some? ==> table[id].channel == filter.channel.value)
              && (filter.batchId.Some? ==> table[id].batchId.Some? && ParseUuid(filter.batchId.value) == Success(table[id].batchId.value))
              && (filter.createdAfter.Some? ==> table[id].createdAt >= filter.createdAfter.value)
              && (filter.createdBefore.Some? ==> table[id].createdAt <= filter.createdBefore.value)
              && (from.Some? ==> table[id].createdAt < from.value.createdAt
                                 || (table[id].createdAt == from.value.createdAt && id < from.value.id)) ::
              && |rows| == limit && PageNext(table, filter, from, limit) == Some(rows[limit - 1])
              && (table[id].createdAt < rows[limit - 1].createdAt
                  || (table[id].createdAt == rows[limit - 1].createdAt && id < rows[limit - 1].id))
  {
    hide Rest, PageRows, PageNext, ParseUuid;
    forall id | id in table && Key(table[id].createdAt, id) in Rest(table, filter, from)
                && Key(table[id].createdAt, id) !in PageRows(table, filter, from, limit)
      ensures var rows := PageRows(table, filter, from, limit);
              && |rows| == limit && PageNext(table, filter, from, limit) == Some(rows[limit - 1])
              && (table[id].createdAt < rows[limit - 1].createdAt
                  || (table[id].createdAt == rows[limit - 1].createdAt && id < rows[limit - 1].id))
    {
      LeftOut(table, filter, from, limit, Key(table[id].createdAt, id));
    }
    forall id | id in table
      ensures Key(table[id].createdAt, id) in Rest(table, filter, from) <==>
              && id in table
              && (filter.status.Some? ==> table[id].status == filter.status.value)
              && (filter.channel.Some? ==> table[id].channel == filter.channel.value)
              && (filter.batchId.Some? ==> table[id].batchId.Some? && ParseUuid(filter.batchId.value) == Success(table[id].batchId.value))
              && (filter.createdAfter.Some? ==> table[id].createdAt >= filter.createdAfter.value)
              && (filter.createdBefore.Some? ==> table[id].createdAt <= filter.createdBefore.value)
              && (from.Some? ==> table[id].createdAt < from.value.createdAt
                                 || (table[id].createdAt == from.value.createdAt && id < from.value.id))
    {
      RestMeans(table, filter, from, Key(table[id].createdAt, id));
    }
  }

  /** A page that names a next one leaves something out for it. */
  lemma NextHasRows(table: Records, filter: Filter, from: Option<Key>, limit: nat) returns (id: Uuid)
    requires limit > 0 && PageNext(table, filter, from, limit).Some?
    ensures id in table && Key(table[id].createdAt, id) !in PageRows(table, filter, from, limit)
    ensures && (filter.status.Some? ==> table[id].status == filter.status.value)
            && (filter.channel.Some? ==> table[id].channel == filter.channel.value)
            && (filter.batchId.Some? ==> table[id].batchId.Some? && ParseUuid(filter.batchId.value) == Success(table[id].batchId.value))
            && (filter.createdAfter.Some? ==> table[id].createdAt >= filter.createdAfter.value)
            && (filter.createdBefore.Some? ==> table[id].createdAt <= filter.createdBefore.value)
            && (from.Some? ==> table[id].createdAt < from.value.createdAt
                               || (table[id].createdAt == from.value.createdAt && id < from.value.id))
  {
    var all := Descending(Rest(table, filter, from));
    PrefixOfDescending(Rest(table, filter, from), limit, PageRows(table, filter, from, limit));
    RestMeans(table, filter, from, all[limit]);
    id := all[limit].id;
    assert Key(table[id].createdAt, id) == all[limit];
  }

  // ---------------------------------------------------------------------------------------------
  // The repository
  // ---------------------------------------------------------------------------------------------

  datatype ListParams = ListParams(
    status: Option<Status>,
    channel: Option<Channel>,
    batchId: Option<Uuid>,
    createdAfter: Option<int>,
    createdBefore: Option<int>,
    cursorCreatedAt: Option<int>,
    cursorId: Uuid,
    rowLimit: int
  )

  /** The WHERE clause; an absent parameter (NULL) skips its test. */
  predicate Selects(p: ListParams, id: Uuid, r: Record) {
    && (p.status.None? || r.status == p.status.value)
    && (p.channel.None? || r.channel == p.channel.value)
    && (p.batchId.None? || r.batchId == p.batchId)
    && (p.createdAfter.None? || r.createdAt >= p.createdAfter.value)
    && (p.createdBefore.None? || r.createdAt <= p.createdBefore.value)
    && (p.cursorCreatedAt.None? || r.createdAt < p.cursorCreatedAt.value
        || (r.createdAt == p.cursorCreatedAt.value && id < p.cursorId))
  }

  /** A conversion to a 32-bit integer. */
  function Int32(x: int): int {
    (x + 0x8000_0000) % 0x1_0000_0000 - 0x8000_0000
  }

  /** Translates a filter and a cursor into parameters that select exactly the rest of the listing. */
  method BuildListParams(filter: Filter, cursor: seq<Byte>, limit: int) returns (r: Result<ListParams, CursorError>)
    ensures r.Failure? <==> CursorKey(cursor).Failure? || (filter.batchId.Some? && ParseUuid(filter.batchId.value).Failure?)
    ensures r.Success? ==> forall id: Uuid, row: Record ::
              Selects(r.value, id, row) <==>
              Matches(filter, row)
              && (CursorKey(cursor).value.Some? ==> Less(Key(row.createdAt, id), CursorKey(cursor).value.value))
    ensures r.Success? && -0x8000_0000 <= limit < MAX_INT32 ==> r.value.rowLimit == limit + 1
  {
    hide DecodeCursor, ParseUuid;
    var params := ListParams(None, None, None, None, None, None, 0, Int32(limit + 1));
    if cursor != [] {
      var decoded := DecodeCursor(cursor);
      if decoded.Failure? {
        return Failure(decoded.error);
      }
      var id := ParseUuid(decoded.value.1);
      if id.Failure? {
        return Failure(id.error);
      }
      params := params.(cursorCreatedAt := Some(decoded.value.0));
      params := params.(cursorId := id.value);
    }
    if filter.status.Some? {
      params := params.(status := filter.status);
    }
    if filter.channel.Some? {
      params := params.(channel := filter.channel);
    }
    if filter.batchId.Some? {
      var bid := ParseUuid(filter.batchId.value);
      if bid.Failure? {
        return Failure(bid.error);
      }
      params := params.(batchId := Some(bid.value));
    }
    if filter.createdAfter.Some? {
      params := params.(createdAfter := filter.createdAfter);
    }
    if filter.createdBefore.Some? {
      params := params.(createdBefore := filter.createdBefore);
    }
    return Success(params);
  }

  function Selected(table: Records, p: ListParams): set<Key> {
    set id | id in table && Selects(p, id, table[id]) :: Key(table[id].createdAt, id)
  }

  lemma PrefixIsNewestFirst(keys: set<Key>, limit: nat, rows: seq<Key>)
    requires rows == if |Descending(keys)| <= limit then Descending(keys) else Descending(keys)[..limit]
    ensures |rows| <= limit && forall k | k in rows :: k in keys
    ensures forall i, j | 0 <= i < j < |rows| ::
              rows[i].createdAt > rows[j].createdAt || (rows[i].createdAt == rows[j].createdAt && rows[i].id > rows[j].id)
  {
    DescendingSorts(keys);
    hide Descending;
    assert IsDescending(rows);
    NewestFirst(rows);
  }

  lemma OneMoreListed(items: seq<Key>, left: set<Key>, greatest: Key, all: seq<Key>)
    requires items + Descending(left) == all && IsGreatest(left, greatest)
    ensures items + [greatest] + Descending(left - {greatest}) == all
  {
    DescendingStep(left, greatest);
    hide Descending, IsGreatest;
    assert items + [greatest] + Descending(left - {greatest}) == items + ([greatest] + Descending(left - {greatest}));
  }

  lemma AllListed(items: seq<Key>, left: set<Key>, all: seq<Key>, limit: nat)
    requires items + Descending(left) == all && |items| <= limit && (left == {} || |items| == limit)
    ensures items == if |all| <= limit then all else all[..limit]
  {
    DescendingOfNone();
    hide Descending;
  }

  /** The greatest remaining key, again and again, up to the limit. */
  method TakeGreatest(keys: set<Key>, limit: nat) returns (items: seq<Key>)
    ensures var all := Descending(keys); items == if |all| <= limit then all else all[..limit]
  {
    hide Less, IsGreatest, Descending;
    var left := keys;
    items := [];
    while |items| < limit && left != {}
      invariant |items| <= limit && items + Descending(left) == Descending(keys)
      decreases left
    {
      ghost var first := GreatestExists(left);
      assert first in left && IsGreatest(left, first);
      var greatest :| greatest in left && IsGreatest(left, greatest);
      OneMoreListed(items, left, greatest, Descending(keys));
      items := items + [greatest];
      left := left - {greatest};
    }
    AllListed(items, left, Descending(keys), limit);
  }

  /** SELECT ... WHERE ... ORDER BY created_at DESC, id DESC LIMIT. */
  method ListNotifications(table: Records, p: ListParams) returns (items: seq<Key>)
    requires p.rowLimit >= 0
    ensures var all := Descending(Selected(table, p)); items == if |all| <= p.rowLimit then all else all[..p.rowLimit]
    ensures forall i, j | 0 <= i < j < |items| ::
            items[i].createdAt > items[j].createdAt || (items[i].createdAt == items[j].createdAt && items[i].id > items[j].id)
    ensures |items| <= p.rowLimit && forall k | k in items :: k in Selected(table, p)
  {
    hide Selected, Descending;
    items := TakeGreatest(Selected(table, p), p.rowLimit);
    PrefixIsNewestFirst(Selected(table, p), p.rowLimit, items);
  }

  /** Cuts the extra row off and turns the last row kept into the next cursor. */
  method Paginate(items: seq<Key>, limit: nat) returns (page: seq<Key>, next: seq<Byte>)
    requires limit > 0 && forall k | 0 <= k < |items| :: InRange(items[k].createdAt)
    ensures |page| <= limit && page <= items && (next == [] <==> page == items)
    ensures next != [] ==> |page| == limit && CursorKey(next) == Success(Some(page[limit - 1])) && next == CursorOf(Some(page[limit - 1]))
  {
    if |items| <= limit {
      return items, [];
    }
    var last := items[limit - 1];
    CursorOfKey(Some(last));
    page, next := items[..limit], EncodeCursor(last.createdAt, UuidToString(last.id));
  }

  lemma SelectedIsRest(table: Records, p: ListParams, filter: Filter, from: Option<Key>)
    requires forall id: Uuid, row: Record ::
               Selects(p, id, row) <==> Matches(filter, row) && (from.Some? ==> Less(Key(row.createdAt, id), from.value))
    ensures Selected(table, p) == Rest(table, filter, from)
  {
    hide Selects, Matches, Less;
  }

  lemma RestInRange(table: Records, filter: Filter, from: Option<Key>)
    ensures forall k | k in Descending(Rest(table, filter, from)) :: InRange(k.createdAt)
  {
    DescendingSorts(Rest(table, filter, from));
  }

  /** One page: the limit + 1 fast form returns exactly the page of filter-then-sort at the cursor. */
  method List(table: Records, filter: Filter, cursor: seq<Byte>, limit: nat) returns (r: Result<(seq<Key>, seq<Byte>), CursorError>)
    requires 0 < limit < MAX_INT32
    ensures r.Failure? <==> CursorKey(cursor).Failure? || (filter.batchId.Some? && ParseUuid(filter.batchId.value).Failure?)
    ensures r.Failure? <==>
            || (cursor != [] && (DecodeCursor(cursor).Failure? || ParseUuid(DecodeCursor(cursor).value.1).Failure?))
            || (filter.batchId.Some? && ParseUuid(filter.batchId.value).Failure?)
    ensures r.Success? ==> |r.value.0| <= limit
    ensures r.Success? ==>
              var rows := r.value.0;
              forall i, j | 0 <= i < j < |rows| ::
                rows[i].createdAt > rows[j].createdAt || (rows[i].createdAt == rows[j].createdAt && rows[i].id > rows[j].id)
    ensures r.Success? && cursor != [] ==>
              var t, u := DecodeCursor(cursor).value.0, ParseUuid(DecodeCursor(cursor).value.1).value;
              forall k | k in r.value.0 :: k.createdAt < t || (k.createdAt == t && k.id < u)
    ensures r.Success? ==>
              forall k | k in r.value.0 ::
                && k.id in table && table[k.id].createdAt == k.createdAt
                && (filter.status.Some? ==> table[k.id].status == filter.status.value)
                && (filter.channel.Some? ==> table[k.id].channel == filter.channel.value)
                && (filter.batchId.Some? ==> table[k.id].batchId.Some? && ParseUuid(filter.batchId.value) == Success(table[k.id].batchId.value))
                && (filter.createdAfter.Some? ==> table[k.id].createdAt >= filter.createdAfter.value)
                && (filter.createdBefore.Some? ==> table[k.id].createdAt <= filter.createdBefore.value)
    ensures r.Success? ==>
              && r.value.0 == PageRows(table, filter, CursorKey(cursor).value, limit)
              && r.value.1 == CursorOf(PageNext(table, filter, CursorKey(cursor).value, limit))
  {
    hide CursorKey, ParseUuid, Selects, Matches, Less, Selected, Rest, EncodeCursor, Descending;
    CursorMeans(cursor);
    var params := BuildListParams(filter, cursor, limit);
    if params.Failure? {
      return Failure(params.error);
    }
    var rows := ListNotifications(table, params.value);
    SelectedIsRest(table, params.value, filter, CursorKey(cursor).value);
    RestInRange(table, filter, CursorKey(cursor).value);
    var page, next := Paginate(rows, limit);
    assert page == PageRows(table, filter, CursorKey(cursor).value, limit);
    assert next == CursorOf(PageNext(table, filter, CursorKey(cursor).value, limit));
    hide PageRows, PageNext, CursorOf, DecodeCursor;
    PageHolds(table, filter, CursorKey(cursor).value, limit);
    return Success((page, next));
  }

  /** The use case: a limit that is out of range becomes the default. */
  method Execute(table: Records, filter: Filter, cursor: seq<Byte>, limit: int) returns (r: Result<(seq<Key>, seq<Byte>), CursorError>)
    ensures r.Failure? <==> CursorKey(cursor).Failure? || (filter.batchId.Some? && ParseUuid(filter.batchId.value).Failure?)
    ensures r.Failure? <==>
            || (cursor != [] && (DecodeCursor(cursor).Failure? || ParseUuid(DecodeCursor(cursor).value.1).Failure?))
            || (filter.batchId.Some? && ParseUuid(filter.batchId.value).Failure?)
    ensures r.Success? ==> |r.value.0| <= if 1 <= limit <= 100 then limit else 20
    ensures r.Success? ==>
              var rows := r.value.0;
              forall i, j | 0 <= i < j < |rows| ::
                rows[i].createdAt > rows[j].createdAt || (rows[i].createdAt == rows[j].createdAt && rows[i].id > rows[j].id)
    ensures r.Success? && cursor != [] ==>
              var t, u := DecodeCursor(cursor).value.0, ParseUuid(DecodeCursor(cursor).value.1).value;
              forall k | k in r.value.0 :: k.createdAt < t || (k.createdAt == t && k.id < u)
    ensures r.Success? ==>
              var clamped := if 1 <= limit <= 100 then limit else 20;
              && r.value.0 == PageRows(table, filter, CursorKey(cursor).value, clamped)
              && r.value.1 == CursorOf(PageNext(table, filter, CursorKey(cursor).value, clamped))
  {
    var clamped := limit;
    if limit <= 0 || limit > MAX_LIST_LIMIT {
      clamped := DEFAULT_LIST_LIMIT;
    }
    r := List(table, filter, cursor, clamped);
  }

  // ---------------------------------------------------------------------------------------------
  // Walks
  // ---------------------------------------------------------------------------------------------

  /** One page read: the table at that moment, the cursor passed in, and what List returned. */
  datatype Page = Page(table: Records, cursor: seq<Byte>, rows: seq<Key>, next: seq<Byte>)

  ghost predicate IsPage(filter: Filter, limit: nat, r: Page)
    requires limit > 0
  {
    && CursorKey(r.cursor).Success?
    && r.rows == PageRows(r.table, filter, CursorKey(r.cursor).value, limit)
    && r.next == CursorOf(PageNext(r.table, filter, CursorKey(r.cursor).value, limit))
  }

  /** Following the next cursor from the empty one on, whatever happens to the table in between. */
  ghost predicate IsWalk(filter: Filter, limit: nat, pages: seq<Page>)
    requires limit > 0
  {
    && (forall k | 0 <= k < |pages| :: IsPage(filter, limit, pages[k]))
    && (|pages| > 0 ==> pages[0].cursor == [])
    && (forall k, l | 0 <= k && l == k + 1 && l < |pages| :: pages[k].next != [] && pages[l].cursor == pages[k].next)
  }

  /** All rows of a walk, in the order they were read. */
  ghost function Rows(pages: seq<Page>): seq<Key> {
    if pages == [] then [] else Rows(pages[..|pages| - 1]) + pages[|pages| - 1].rows
  }

  lemma RowsStep(pages: seq<Page>, front: seq<Page>, last: Page)
    requires pages == front + [last]
    ensures Rows(pages) == Rows(front) + last.rows
  {
    assert pages[..|pages| - 1] == front;
  }

  /** Where the next read of a walk starts. */
  ghost predicate NextFrom(pages: seq<Page>, from: Option<Key>) {
    if pages == [] then from.None?
    else pages[|pages| - 1].next != [] && CursorKey(pages[|pages| - 1].next) == Success(from)
  }

  /** A page lies before its start, holds everything from there down to its last row, and says whether that was all. */
  lemma PageFacts(filter: Filter, limit: nat, r: Page, from: Option<Key>)
    requires limit > 0 && IsPage(filter, limit, r) && CursorKey(r.cursor) == Success(from)
    ensures var rest := Rest(r.table, filter, from);
            && IsDescending(r.rows) && |r.rows| <= limit && (forall k | k in r.rows :: k in rest)
            && (r.next == [] ==> (forall k | k in rest :: k in r.rows) && |r.rows| == |rest|)
            && (r.next != [] ==> |r.rows| == limit < |rest| && CursorKey(r.next) == Success(Some(r.rows[limit - 1]))
                                 && forall k | k in rest && k !in r.rows :: Less(k, r.rows[limit - 1]))
  {
    hide Rest, CursorKey, CursorOf, Less;
    var rest := Rest(r.table, filter, from);
    DescendingSorts(rest);
    var all := Descending(rest);
    CursorOfKey(PageNext(r.table, filter, from, limit));
    forall k | k in rest && k !in r.rows
      ensures |all| > limit && Less(k, all[limit - 1])
    {
      assert forall j | 0 <= j < limit && j < |all| :: all[j] == r.rows[j];
      var j :| 0 <= j < |all| && all[j] == k;
    }
  }

  lemma RestIsBelow(table: Records, filter: Filter, from: Option<Key>, k: Key)
    ensures k in Rest(table, filter, from) <==>
            k.id in table && k.createdAt == table[k.id].createdAt && Matches(filter, table[k.id]) && (from.Some? ==> Less(k, from.value))
  {
  }

  lemma ConcatDescending(s: seq<Key>, t: seq<Key>, from: Option<Key>)
    requires IsDescending(s) && IsDescending(t)
    requires from.None? ==> s == []
    requires from.Some? ==> s != [] && from.value == s[|s| - 1] && forall k | k in t :: Less(k, from.value)
    ensures IsDescending(s + t)
  {
    forall i, j | 0 <= i < j < |s + t|
      ensures Less((s + t)[j], (s + t)[i])
    {
      if i < |s| <= j {
        assert Less(t[j - |s|], from.value);
        assert i == |s| - 1 || Less(s[|s| - 1], s[i]);
      }
    }
  }

  lemma LastOf(s: seq<Key>, t: seq<Key>)
    requires t != []
    ensures s + t != [] && (s + t)[|s + t| - 1] == t[|t| - 1]
  {
  }

  lemma PageIsBelow(filter: Filter, limit: nat, r: Page, from: Option<Key>)
    requires limit > 0 && IsPage(filter, limit, r) && CursorKey(r.cursor) == Success(from)
    ensures from.Some? ==> forall k | k in r.rows :: Less(k, from.value)
  {
    hide IsPage, CursorKey, Less, IsDescending;
    PageFacts(filter, limit, r, from);
    forall k | k in r.rows && from.Some?
      ensures Less(k, from.value)
    {
      RestIsBelow(r.table, filter, from, k);
    }
  }

  /** A page continues what was read before its start, in descending order. */
  lemma PageExtends(filter: Filter, limit: nat, p: Page, from: Option<Key>, before: seq<Key>)
    requires limit > 0 && IsPage(filter, limit, p) && CursorKey(p.cursor) == Success(from) && IsDescending(before)
    requires from.None? <==> before == []
    requires from.Some? ==> before != [] && from.value == before[|before| - 1]
    ensures IsDescending(before + p.rows)
    ensures p.next != [] ==> |p.rows| == limit && CursorKey(p.next) == Success(Some(p.rows[limit - 1]))
  {
    hide IsPage, CursorKey, Less, IsDescending, Rest;
    PageFacts(filter, limit, p, from);
    PageIsBelow(filter, limit, p, from);
    ConcatDescending(before, p.rows, from);
  }

  lemma WalkPrefix(filter: Filter, limit: nat, pages: seq<Page>)
    requires limit > 0 && IsWalk(filter, limit, pages) && pages != []
    ensures var front := pages[..|pages| - 1]; IsWalk(filter, limit, front) && (front != [] ==> front[|front| - 1].next != [])
  {
    hide IsPage;
    var front := pages[..|pages| - 1];
    assert forall k | 0 <= k < |front| :: front[k] == pages[k];
    forall k, l | 0 <= k && l == k + 1 && l < |front|
      ensures front[k].next != [] && front[l].cursor == front[k].next
    {
      assert pages[l].cursor == pages[k].next;
    }
    if front != [] {
      var k, l := |pages| - 2, |pages| - 1;
      assert pages[l].cursor == pages[k].next && front[|front| - 1] == pages[k];
    }
  }

  lemma NothingDescends()
    ensures IsDescending([])
  {
  }

  lemma StartOf(filter: Filter, limit: nat, pages: seq<Page>, front: seq<Page>, last: Page, start: Option<Key>)
    requires limit > 0 && IsWalk(filter, limit, pages) && pages == front + [last] && NextFrom(front, start)
    ensures IsPage(filter, limit, last) && CursorKey(last.cursor) == Success(start)
  {
    hide IsPage;
    assert pages[|front|] == last;
    if front == [] {
      assert pages[0] == last;
    } else {
      assert pages[|front| - 1] == front[|front| - 1];
    }
  }

  /** The rows read so far descend strictly, and the next page starts after the last of them. */
  lemma {:induction false} WalkFrom(filter: Filter, limit: nat, pages: seq<Page>) returns (from: Option<Key>)
    requires limit > 0 && IsWalk(filter, limit, pages)
    requires pages != [] ==> pages[|pages| - 1].next != []
    ensures NextFrom(pages, from) && IsDescending(Rows(pages))
    ensures from.None? <==> Rows(pages) == []
    ensures from.Some? ==> Rows(pages) != [] && from.value == Rows(pages)[|Rows(pages)| - 1]
  {
    hide IsPage, IsWalk, CursorKey, Less, IsDescending, Rest;
    if pages == [] {
      from := None;
      NothingDescends();
    } else {
      var front, last := pages[..|pages| - 1], pages[|pages| - 1];
      WalkPrefix(filter, limit, pages);
      RowsStep(pages, front, last);
      var start := WalkFrom(filter, limit, front);
      StartOf(filter, limit, pages, front, last, start);
      hide Rows;
      PageExtends(filter, limit, last, start, Rows(front));
      from := Some(last.rows[limit - 1]);
      LastOf(Rows(front), last.rows);
    }
  }

  /** Every walk yields strictly descending keys, so no row twice, whatever is written between the pages. */
  lemma WalkDescends(filter: Filter, limit: nat, pages: seq<Page>)
    requires limit > 0 && IsWalk(filter, limit, pages)
    ensures IsDescending(Rows(pages))
    ensures forall i, j | 0 <= i < j < |Rows(pages)| ::
              Rows(pages)[i].createdAt > Rows(pages)[j].createdAt || (Rows(pages)[i].createdAt == Rows(pages)[j].createdAt && Rows(pages)[i].id > Rows(pages)[j].id)
  {
    hide IsPage, CursorKey, Less, IsDescending;
    if pages == [] {
      NothingDescends();
    } else {
      var front, last := pages[..|pages| - 1], pages[|pages| - 1];
      WalkPrefix(filter, limit, pages);
      var start := WalkFrom(filter, limit, front);
      StartOf(filter, limit, pages, front, last, start);
      PageFacts(filter, limit, last, start);
      PageIsBelow(filter, limit, last, start);
      ConcatDescending(Rows(front), last.rows, start);
    }
    NewestFirst(Rows(pages));
  }

  /** A row that matches whenever a page is read; nothing ever changes its created_at. */
  ghost predicate AlwaysMatches(filter: Filter, pages: seq<Page>, k: Key) {
    forall r | r in pages :: k.id in r.table && r.table[k.id].createdAt == k.createdAt && Matches(filter, r.table[k.id])
  }

  lemma {:induction false} NotYetPassed(filter: Filter, limit: nat, pages: seq<Page>, k: Key)
    requires limit > 0 && IsWalk(filter, limit, pages) && AlwaysMatches(filter, pages, k)
    ensures k in Rows(pages)
            || ((pages != [] ==> pages[|pages| - 1].next != [])
                && forall from | NextFrom(pages, from) && from.Some? :: Less(k, from.value))
  {
    hide IsPage, CursorKey, Less, IsDescending, Matches;
    if pages != [] {
      var front, last := pages[..|pages| - 1], pages[|pages| - 1];
      WalkPrefix(filter, limit, pages);
      NotYetPassed(filter, limit, front, k);
      if k !in Rows(front) {
        var start := WalkFrom(filter, limit, front);
        StartOf(filter, limit, pages, front, last, start);
        assert last in pages;
        RestIsBelow(last.table, filter, start, k);
        PageFacts(filter, limit, last, start);
      }
    }
  }

  /**
   * A walk that has reached the end has read every row that matched at each of its page reads exactly
   * once, however other rows were inserted, updated or deleted in between.
   */
  lemma WalkReadsEachOnce(filter: Filter, limit: nat, pages: seq<Page>, k: Key)
    requires limit > 0 && IsWalk(filter, limit, pages) && pages != [] && pages[|pages| - 1].next == []
    requires AlwaysMatches(filter, pages, k)
    ensures exists i :: 0 <= i < |Rows(pages)| && Rows(pages)[i] == k && forall j | 0 <= j < |Rows(pages)| && j != i :: Rows(pages)[j] != k
  {
    hide IsPage, CursorKey, Matches;
    NotYetPassed(filter, limit, pages, k);
    WalkDescends(filter, limit, pages);
    var i :| 0 <= i < |Rows(pages)| && Rows(pages)[i] == k;
    forall j | 0 <= j < |Rows(pages)| && j != i
      ensures Rows(pages)[j] != k
    {
      assert if j < i then Less(Rows(pages)[i], Rows(pages)[j]) else Less(Rows(pages)[j], Rows(pages)[i]);
    }
  }

  // ---------------------------------------------------------------------------------------------
  // Walks over a table that does not change
  // ---------------------------------------------------------------------------------------------

  ghost predicate Unchanging(table: Records, pages: seq<Page>) {
    forall p | p in pages :: p.table == table
  }

  lemma {:induction false} OnlyMatches(filter: Filter, limit: nat, pages: seq<Page>, table: Records, k: Key)
    requires limit > 0 && IsWalk(filter, limit, pages) && Unchanging(table, pages) && k in Rows(pages)
    ensures k in Rest(table, filter, None)
  {
    hide IsPage, IsWalk, CursorKey, Less, IsDescending, Matches, Rest;
    var front, last := pages[..|pages| - 1], pages[|pages| - 1];
    WalkPrefix(filter, limit, pages);
    if k in Rows(front) {
      OnlyMatches(filter, limit, front, table, k);
    } else {
      var start := WalkFrom(filter, limit, front);
      StartOf(filter, limit, pages, front, last, start);
      PageFacts(filter, limit, last, start);
      assert last in pages;
      RestIsBelow(table, filter, start, k);
      RestIsBelow(table, filter, None, k);
    }
  }

  /** All pages but the last are full. */
  lemma {:induction false} FullPages(filter: Filter, limit: nat, pages: seq<Page>)
    requires limit > 0 && IsWalk(filter, limit, pages) && (pages != [] ==> pages[|pages| - 1].next != [])
    ensures |Rows(pages)| == limit * |pages|
  {
    hide IsPage, IsWalk, CursorKey, Less, IsDescending, Rest, NextFrom;
    if pages == [] {
    } else {
      hide Rows;
      var front, last := pages[..|pages| - 1], pages[|pages| - 1];
      WalkPrefix(filter, limit, pages);
      RowsStep(pages, front, last);
      FullPages(filter, limit, front);
      var start := WalkFrom(filter, limit, front);
      StartOf(filter, limit, pages, front, last, start);
      PageFacts(filter, limit, last, start);
      assert limit * |pages| == limit * |front| + limit;
    }
  }

  lemma AnotherKey(keys: set<Key>, s: seq<Key>) returns (k: Key)
    requires |s| < |keys|
    ensures k in keys && k !in s
  {
    SetOfAtMost(s);
    var inSeq := SetOf(s);
    if keys <= inSeq {
      SubsetSize(keys, inSeq);
      assert false;
    }
    k :| k in keys && k !in inSeq;
  }

  lemma SameTablePage(filter: Filter, limit: nat, p: Page, p': Page, from: Option<Key>, from': Option<Key>)
    requires limit > 0 && IsPage(filter, limit, p) && IsPage(filter, limit, p') && p.table == p'.table
    requires CursorKey(p.cursor) == Success(from) && p.next != [] && p'.cursor == p.next
    requires CursorKey(p'.cursor) == Success(from')
    ensures p'.rows != []
  {
    hide IsPage, CursorKey, Less, IsDescending, Matches, Rest;
    PageFacts(filter, limit, p, from);
    PageFacts(filter, limit, p', from');
    var rest := Rest(p.table, filter, from);
    var k := AnotherKey(rest, p.rows);
    RestIsBelow(p.table, filter, from, k);
    RestIsBelow(p.table, filter, from', k);
    if p'.next == [] {
      assert k in p'.rows;
    }
  }

  /** max(1, ceil(n / limit)) */
  function PageCount(n: nat, limit: nat): nat
    requires limit > 0
  {
    if n == 0 then 1 else (n + limit - 1) / limit
  }

  lemma PageCountMeans(n: nat, limit: nat)
    requires limit > 0
    ensures if n == 0 then PageCount(n, limit) == 1
            else limit * PageCount(n, limit) - limit < n <= limit * PageCount(n, limit)
  {
    if n > 0 {
      var x := n + limit - 1;
      assert x == limit * (x / limit) + x % limit;
    }
  }

  lemma CountIs(n: nat, limit: nat, full: nat, last: nat)
    requires limit > 0 && n == limit * full + last && last <= limit && (full > 0 ==> last > 0)
    ensures PageCount(n, limit) == full + 1
  {
    if n > 0 {
      var x := n + limit - 1;
      assert last > 0;
      assert limit * (full + 1) == limit * full + limit;
      assert limit * (full + 1) <= x < limit * (full + 1) + limit;
      QuotientIs(x, limit, full + 1);
    }
  }

  lemma MatchesThroughout(filter: Filter, limit: nat, pages: seq<Page>, table: Records, k: Key)
    requires limit > 0 && IsWalk(filter, limit, pages) && Unchanging(table, pages)
    requires pages != [] && pages[|pages| - 1].next == [] && k in Rest(table, filter, None)
    ensures k in Rows(pages)
  {
    hide IsPage, CursorKey, Less, Matches, Rest, Rows;
    RestIsBelow(table, filter, None, k);
    WalkReadsEachOnce(filter, limit, pages, k);
  }

  lemma AreAdjacent(filter: Filter, limit: nat, pages: seq<Page>, p: Page, p': Page)
    requires limit > 0 && IsWalk(filter, limit, pages) && |pages| > 1
    requires p == pages[|pages| - 2] && p' == pages[|pages| - 1]
    ensures IsPage(filter, limit, p) && CursorKey(p.cursor).Success? && p.next != [] && p'.cursor == p.next
  {
    hide CursorKey;
  }

  lemma LastPage(filter: Filter, limit: nat, pages: seq<Page>, table: Records)
    requires limit > 0 && IsWalk(filter, limit, pages) && Unchanging(table, pages) && pages != [] && pages[|pages| - 1].next == []
    ensures |pages| == PageCount(|Rows(pages)|, limit)
  {
    hide IsPage, IsWalk, CursorKey, Less, IsDescending, Rest, Rows, NextFrom, PageCount;
    var front, last := pages[..|pages| - 1], pages[|pages| - 1];
    WalkPrefix(filter, limit, pages);
    RowsStep(pages, front, last);
    var start := WalkFrom(filter, limit, front);
    StartOf(filter, limit, pages, front, last, start);
    PageFacts(filter, limit, last, start);
    if front != [] {
      var previous := pages[|pages| - 2];
      AreAdjacent(filter, limit, pages, previous, last);
      assert previous in pages && last in pages;
      SameTablePage(filter, limit, previous, last, CursorKey(previous.cursor).value, start);
    }
    FullPages(filter, limit, front);
    CountIs(|Rows(pages)|, limit, |front|, |last.rows|);
  }

  /**
   * On a table that does not change, the pages of a complete walk concatenate to filter-then-sort, and
   * there are max(1, ceil(N / limit)) of them for its N matching rows.
   */
  lemma StaticWalk(filter: Filter, limit: nat, pages: seq<Page>, table: Records)
    requires limit > 0 && IsWalk(filter, limit, pages) && Unchanging(table, pages)
    requires pages != [] && pages[|pages| - 1].next == []
    ensures Rows(pages) == Descending(Rest(table, filter, None))
    ensures |pages| == PageCount(|Rest(table, filter, None)|, limit)
    ensures forall k ::
              k in Rows(pages) <==>
              && k.id in table && table[k.id].createdAt == k.createdAt
              && (filter.status.Some? ==> table[k.id].status == filter.status.value)
              && (filter.channel.Some? ==> table[k.id].channel == filter.channel.value)
              && (filter.batchId.Some? ==> table[k.id].batchId.Some? && ParseUuid(filter.batchId.value) == Success(table[k.id].batchId.value))
              && (filter.createdAfter.Some? ==> table[k.id].createdAt >= filter.createdAfter.value)
              && (filter.createdBefore.Some? ==> table[k.id].createdAt <= filter.createdBefore.value)
    ensures forall i, j | 0 <= i < j < |Rows(pages)| ::
              || Rows(pages)[i].createdAt > Rows(pages)[j].createdAt
              || (Rows(pages)[i].createdAt == Rows(pages)[j].createdAt && Rows(pages)[i].id > Rows(pages)[j].id)
    ensures if Rows(pages) == [] then |pages| == 1 else limit * |pages| - limit < |Rows(pages)| <= limit * |pages|
  {
    hide IsPage, IsWalk, CursorKey, Less, Matches, Rest, Rows;
    var all := Rest(table, filter, None);
    WalkDescends(filter, limit, pages);
    forall k
      ensures k in all <==> k in Rows(pages)
      ensures k in Rows(pages) <==>
              && k.id in table && table[k.id].createdAt == k.createdAt
              && (filter.status.Some? ==> table[k.id].status == filter.status.value)
              && (filter.channel.Some? ==> table[k.id].channel == filter.channel.value)
              && (filter.batchId.Some? ==> table[k.id].batchId.Some? && ParseUuid(filter.batchId.value) == Success(table[k.id].batchId.value))
              && (filter.createdAfter.Some? ==> table[k.id].createdAt >= filter.createdAfter.value)
              && (filter.createdBefore.Some? ==> table[k.id].createdAt <= filter.createdBefore.value)
    {
      RestMeans(table, filter, None, k);
      if k in all {
        MatchesThroughout(filter, limit, pages, table, k);
      }
      if k in Rows(pages) {
        OnlyMatches(filter, limit, pages, table, k);
      }
    }
    DescendingIsUnique(all, Rows(pages));
    DescendingSorts(all);
    LastPage(filter, limit, pages, table);
    PageCountMeans(|Rows(pages)|, limit);
  }
}
