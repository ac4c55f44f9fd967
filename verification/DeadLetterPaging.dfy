/**
 GET /v1/admin/dead-letters: newest first by creation time and id, with the cursor row
 looked up again on every request, while rows are recorded, resolved and expired between
 the requests. A row is identified by its creation time and id, which never change.
 */
module DeadLetterPaging {
  import opened Wrappers
  import opened Events
  import opened Keyset
  import opened DeadLetters

  datatype Key = Key(createdAt: int, id: string)

  function KeyOf(row: Row): Key { Key(row.createdAt, row.id) }

  /** ORDER BY created_at DESC, id DESC. */
  predicate Before(a: Key, b: Key) {
    b.createdAt < a.createdAt || (a.createdAt == b.createdAt && Less(b.id, a.id))
  }

  /** The WHERE clause for rows after the cursor row. */
  predicate AfterCursor(row: Row, cursor: Key) {
    row.createdAt < cursor.createdAt || (row.createdAt == cursor.createdAt && Less(row.id, cursor.id))
  }

  predicate Matches(row: Row, resolved: Option<bool>) {
    resolved.None? || (row.resolvedAt.Some? <==> resolved.value)
  }

  function Keys(t: Table): set<Key> {
    set e | e in t :: KeyOf(t[e])
  }

  function MatchingKeys(t: Table, resolved: Option<bool>): (s: set<Key>)
    ensures s <= Keys(t)
  {
    set e | e in t && Matches(t[e], resolved) :: KeyOf(t[e])
  }

  lemma BeforeIsStrictTotal(s: set<Key>)
    ensures StrictTotalOn(s, Before)
  {
    LessIsStrictTotal();
  }

  lemma BeforeIsAsymmetric(a: Key, b: Key)
    requires Before(a, b)
    ensures !Before(b, a)
  {
    if Less(b.id, a.id) {
      LessIsAsymmetric(b.id, a.id);
    }
  }

  lemma BeforeIsTransitive(a: Key, b: Key, c: Key)
    requires Before(a, b) && Before(b, c)
    ensures Before(a, c)
  {
    if Less(b.id, a.id) && Less(c.id, b.id) {
      LessIsTransitive(c.id, b.id, a.id);
    }
  }

  /** `findUnique` by row id. */
  ghost function FindById(t: Table, id: string): (r: Option<Key>)
    ensures r.Some? ==> r.value in Keys(t) && r.value.id == id
    ensures r.None? ==> forall key <- Keys(t) :: key.id != id
  {
    if k :| k in Keys(t) && k.id == id then Some(k) else None
  }

  datatype Response = Response(rows: seq<Key>, total: nat, hasMore: bool, nextCursor: Option<string>)

  /** The count, the page and the next cursor for a cursor row that is there, or for none. */
  ghost function ListAfter(matching: set<Key>, cursorRow: Option<Key>, limit: nat): Response
    requires 1 <= limit
  {
    BeforeIsStrictTotal(matching);
    PageProperties(matching, Before, cursorRow, limit);
    var (page, more) := Page(matching, Before, cursorRow, limit);
    Response(page, |matching|, more, if more then Some(page[|page| - 1].id) else None)
  }

  ghost function List(t: Table, resolved: Option<bool>, cursor: Option<string>, limit: nat): Response
    requires 1 <= limit
  {
    var matching := MatchingKeys(t, resolved);
    var cursorRow := if cursor.Some? then FindById(t, cursor.value) else None;
    if cursor.Some? && cursorRow.None? then Response([], |matching|, false, None)
    else ListAfter(matching, cursorRow, limit)
  }

  /** The order and the cursor clause agree: a row passes iff it comes strictly after the cursor row. */
  lemma CursorClauseIsStrictlyAfter(row: Row, cursor: Key)
    ensures AfterCursor(row, cursor) <==> Before(cursor, KeyOf(row))
    ensures !(Before(cursor, KeyOf(row)) && Before(KeyOf(row), cursor))
    ensures KeyOf(row) == cursor || Before(cursor, KeyOf(row)) || Before(KeyOf(row), cursor)
  {
    LessIsStrictTotal();
  }

  // ---------- a walk over a changing table ----------

  /**
   The tables at the successive requests. Rows that join after the first request are newer
   than all there were then, and no id is used for two rows.
   */
  ghost predicate Evolving(tables: seq<Table>) {
    tables != [] && forall j {:trigger EvolvedFrom(tables, j)} :: 0 <= j < |tables| ==> EvolvedFrom(tables, j)
  }

  ghost predicate EvolvedFrom(tables: seq<Table>, j: nat)
    requires j < |tables|
  {
    forall key, key0 :: key in Keys(tables[j]) && key0 in Keys(tables[0]) ==>
      && (key.id == key0.id ==> key == key0)
      && (key !in Keys(tables[0]) ==> Before(key, key0))
  }

  /** The cursor of request `k`: none at first, then whatever the last response said. */
  function CursorAt(rs: seq<Response>, k: nat): Option<string>
    requires k <= |rs|
  {
    if k == 0 then None else rs[k - 1].nextCursor
  }

  /** The responses of a client that follows `nextCursor`; only the last may end the walk. */
  ghost predicate IsWalk(tables: seq<Table>, rs: seq<Response>, resolved: Option<bool>, limit: nat) {
    && 1 <= limit && 1 <= |rs| <= |tables|
    && forall k {:trigger Answered(tables, rs, k, resolved, limit)} :: 0 <= k < |rs| ==>
      Answered(tables, rs, k, resolved, limit)
  }

  ghost predicate Answered(tables: seq<Table>, rs: seq<Response>, k: nat, resolved: Option<bool>, limit: nat)
    requires k < |rs| <= |tables| && 1 <= limit
  {
    && rs[k] == List(tables[k], resolved, CursorAt(rs, k), limit)
    && (k > 0 ==> rs[k - 1].nextCursor.Some?)
  }

  /** Every cursor the walk uses still names a row when it is used. */
  ghost predicate CursorsSurvive(tables: seq<Table>, rs: seq<Response>)
    requires |rs| <= |tables|
  {
    forall k :: 1 <= k < |rs| && rs[k - 1].nextCursor.Some? ==> FindById(tables[k], rs[k - 1].nextCursor.value).Some?
  }

  predicate Finished(rs: seq<Response>)
    requires rs != []
  {
    rs[|rs| - 1].nextCursor.None?
  }

  /** All rows the client was shown, page after page. */
  function Shown(rs: seq<Response>): seq<Key> {
    if rs == [] then [] else Shown(rs[..|rs| - 1]) + rs[|rs| - 1].rows
  }

  ghost predicate AlwaysMatches(tables: seq<Table>, n: nat, resolved: Option<bool>, key: Key)
    requires n <= |tables|
  {
    forall j :: 0 <= j < n ==> key in MatchingKeys(tables[j], resolved)
  }

  /** The rows that existed at the first request and come after the cursor. */
  ghost function Ahead(tables: seq<Table>, cursor: Option<Key>): set<Key>
    requires tables != []
  {
    After(Keys(tables[0]), Before, cursor)
  }

  ghost function IdOf(cursor: Option<Key>): Option<string> {
    if cursor.Some? then Some(cursor.value.id) else None
  }

  /** What a page of the rows after the cursor holds. */
  ghost predicate PageHolds(after: set<Key>, page: seq<Key>, more: bool) {
    && IsSorted(page, Before)
    && (forall x <- page :: x in after)
    && (more ==> page != [])
    && (forall x <- after :: x in page || (more && Before(page[|page| - 1], x)))
  }

  lemma ListAfterHolds(matching: set<Key>, cursor: Option<Key>, limit: nat)
    requires 1 <= limit
    ensures var r := ListAfter(matching, cursor, limit);
            && PageHolds(After(matching, Before, cursor), r.rows, r.nextCursor.Some?)
            && (r.nextCursor.Some? ==> r.nextCursor.value == r.rows[|r.rows| - 1].id)
  {
    BeforeIsStrictTotal(matching);
    PageProperties(matching, Before, cursor, limit);
  }

  /** A response as the query defines it, for a cursor row that is there. */
  lemma ListProperties(t: Table, resolved: Option<bool>, cursor: Option<Key>, limit: nat)
    requires 1 <= limit && (cursor.Some? ==> FindById(t, cursor.value.id) == cursor)
    ensures var r := List(t, resolved, IdOf(cursor), limit);
            && PageHolds(After(MatchingKeys(t, resolved), Before, cursor), r.rows, r.nextCursor.Some?)
            && (r.nextCursor.Some? ==> r.nextCursor.value == r.rows[|r.rows| - 1].id)
            && (r.hasMore <==> r.nextCursor.Some?) && r.total == |MatchingKeys(t, resolved)|
  {
    ListAfterHolds(MatchingKeys(t, resolved), cursor, limit);
  }

  /** What the filter asks for, on the row's own resolution: all rows, the resolved, or the unresolved. */
  predicate Wanted(row: Row, resolved: Option<bool>) {
    match resolved
    case None => true
    case Some(true) => row.resolvedAt != None
    case Some(false) => row.resolvedAt == None
  }

  ghost predicate WantedAt(t: Table, resolved: Option<bool>, key: Key, e: EventId) {
    e in t && Wanted(t[e], resolved) && t[e].createdAt == key.createdAt && t[e].id == key.id
  }

  /** The rows listed for a filter are exactly those it asks for. */
  lemma MatchingIsWanted(t: Table, resolved: Option<bool>, key: Key)
    ensures key in MatchingKeys(t, resolved) <==> exists e :: WantedAt(t, resolved, key, e)
  {
    if key in MatchingKeys(t, resolved) {
      var e :| e in t && Matches(t[e], resolved) && KeyOf(t[e]) == key;
      assert WantedAt(t, resolved, key, e);
    }
  }

  /** A page shows nothing but rows its filter asks for, and every one of them up to its last. */
  lemma PageShowsWanted(t: Table, resolved: Option<bool>, cursor: Option<Key>, limit: nat)
    requires 1 <= limit && (cursor.Some? ==> FindById(t, cursor.value.id) == cursor)
    ensures var r := List(t, resolved, IdOf(cursor), limit);
            && (forall key <- r.rows :: exists e :: WantedAt(t, resolved, key, e))
            && forall e <- t :: && Wanted(t[e], resolved)
                                && (cursor.Some? ==> Before(cursor.value, KeyOf(t[e])))
                                && KeyOf(t[e]) !in r.rows ==>
                 r.hasMore && r.rows != [] && Before(r.rows[|r.rows| - 1], KeyOf(t[e]))
  {
    var r, after := List(t, resolved, IdOf(cursor), limit), After(MatchingKeys(t, resolved), Before, cursor);
    ListProperties(t, resolved, cursor, limit);
    forall key | key in r.rows ensures exists e :: WantedAt(t, resolved, key, e) {
      assert key in after;
      MatchingIsWanted(t, resolved, key);
    }
    forall e | e in t && Wanted(t[e], resolved) && (cursor.Some? ==> Before(cursor.value, KeyOf(t[e])))
        && KeyOf(t[e]) !in r.rows
      ensures r.hasMore && r.rows != [] && Before(r.rows[|r.rows| - 1], KeyOf(t[e]))
    {
      assert WantedAt(t, resolved, KeyOf(t[e]), e);
      MatchingIsWanted(t, resolved, KeyOf(t[e]));
      assert KeyOf(t[e]) in after;
    }
  }

  /** A page holds old rows only, and all matching ones up to its last. */
  ghost predicate PageGood(tables: seq<Table>, k: nat, resolved: Option<bool>, cursor: Option<Key>, page: seq<Key>,
                           more: bool)
    requires k < |tables|
  {
    && IsSorted(page, Before)
    && (more ==> page != [])
    && (forall x <- page :: x in Ahead(tables, cursor))
    && (forall x :: x in Ahead(tables, cursor) && x in MatchingKeys(tables[k], resolved) ==>
          x in page || (more && Before(page[|page| - 1], x)))
  }

  lemma OneRequest(tables: seq<Table>, k: nat, resolved: Option<bool>, cursor: Option<Key>, limit: nat)
    requires Evolving(tables) && k < |tables| && 1 <= limit
    requires cursor.None? ==> k == 0
    requires cursor.Some? ==> cursor.value in Keys(tables[0]) && FindById(tables[k], cursor.value.id).Some?
    ensures var r := List(tables[k], resolved, IdOf(cursor), limit);
            && PageGood(tables, k, resolved, cursor, r.rows, r.nextCursor.Some?)
            && (r.nextCursor.Some? ==> r.nextCursor.value == r.rows[|r.rows| - 1].id)
  {
    assert EvolvedFrom(tables, k);
    ListProperties(tables[k], resolved, cursor, limit);
    var r := List(tables[k], resolved, IdOf(cursor), limit);
    forall x | x in r.rows ensures x in Ahead(tables, cursor) {
      StaysOld(tables, k, cursor, x);
    }
  }

  /** A row after an old row is old. */
  lemma StaysOld(tables: seq<Table>, k: nat, cursor: Option<Key>, x: Key)
    requires Evolving(tables) && k < |tables| && x in Keys(tables[k])
    requires cursor.None? ==> k == 0
    requires cursor.Some? ==> cursor.value in Keys(tables[0]) && Before(cursor.value, x)
    ensures x in Ahead(tables, cursor)
  {
    assert EvolvedFrom(tables, k);
    if cursor.Some? {
      BeforeIsAsymmetric(cursor.value, x);
    }
  }

  /** After `n` requests: in order, old rows only, and nothing missed that matched in all of them. */
  ghost predicate WalkGood(tables: seq<Table>, n: nat, resolved: Option<bool>, rows: seq<Key>, more: bool)
    requires 1 <= n <= |tables|
  {
    && IsSorted(rows, Before)
    && (forall x <- rows :: x in Keys(tables[0]))
    && (if more then n <= |rows| else n - 1 <= |rows|)
    && (forall x :: x in Keys(tables[0]) && AlwaysMatches(tables, n, resolved, x) ==>
          x in rows || (more && Before(rows[|rows| - 1], x)))
  }

  lemma FirstPage(tables: seq<Table>, resolved: Option<bool>, page: seq<Key>, more: bool)
    requires tables != [] && PageGood(tables, 0, resolved, None, page, more)
    ensures WalkGood(tables, 1, resolved, page, more)
  {
  }

  /** Another page from the last row shown. */
  lemma NextPage(tables: seq<Table>, n: nat, resolved: Option<bool>, rows: seq<Key>, page: seq<Key>, more: bool)
    requires 1 <= n < |tables| && WalkGood(tables, n, resolved, rows, true)
    requires PageGood(tables, n, resolved, Some(rows[|rows| - 1]), page, more)
    ensures WalkGood(tables, n + 1, resolved, rows + page, more)
  {
    var last, all := rows[|rows| - 1], rows + page;
    PagesStaySorted(rows, page);
    forall x | x in Keys(tables[0]) && AlwaysMatches(tables, n + 1, resolved, x)
      ensures x in all || (more && Before(all[|all| - 1], x))
    {
      assert AlwaysMatches(tables, n, resolved, x);
      assert x in MatchingKeys(tables[n], resolved);
      if x !in rows {
        assert x in Ahead(tables, Some(last));
      }
    }
  }

  lemma PagesStaySorted(page: seq<Key>, rest: seq<Key>)
    requires page != [] && IsSorted(page, Before) && IsSorted(rest, Before)
    requires forall x <- rest :: Before(page[|page| - 1], x)
    ensures IsSorted(page + rest, Before)
  {
    var all := page + rest;
    forall i, j | 0 <= i < j < |all| ensures Before(all[i], all[j]) {
      if i < |page| <= j {
        assert rest[j - |page|] in rest;
        if i < |page| - 1 {
          BeforeIsTransitive(page[i], page[|page| - 1], all[j]);
        }
      }
    }
  }

  lemma ShownSnoc(rs: seq<Response>, n: nat)
    requires n < |rs|
    ensures Shown(rs[..n + 1]) == Shown(rs[..n]) + rs[n].rows
  {
    assert rs[..n + 1][..n] == rs[..n];
  }

  /** `rows` is a good walk's showing after `n` responses, and the next cursor names its last row. */
  ghost predicate PrefixGood(tables: seq<Table>, rs: seq<Response>, n: nat, resolved: Option<bool>, rows: seq<Key>)
    requires 1 <= n <= |rs| <= |tables|
  {
    && WalkGood(tables, n, resolved, rows, rs[n - 1].nextCursor.Some?)
    && (rs[n - 1].nextCursor.Some? ==> rows != [] && rs[n - 1].nextCursor.value == rows[|rows| - 1].id)
  }

  lemma FirstPrefix(tables: seq<Table>, rs: seq<Response>, resolved: Option<bool>, limit: nat)
    requires Evolving(tables) && IsWalk(tables, rs, resolved, limit) && CursorsSurvive(tables, rs)
    ensures PrefixGood(tables, rs, 1, resolved, rs[0].rows)
  {
    RequestGood(tables, rs, 0, resolved, None, limit);
    FirstPage(tables, resolved, rs[0].rows, rs[0].nextCursor.Some?);
  }

  lemma NextPrefix(tables: seq<Table>, rs: seq<Response>, n: nat, resolved: Option<bool>, limit: nat, rows: seq<Key>)
    requires Evolving(tables) && IsWalk(tables, rs, resolved, limit) && CursorsSurvive(tables, rs) && 1 <= n < |rs|
    requires PrefixGood(tables, rs, n, resolved, rows)
    ensures PrefixGood(tables, rs, n + 1, resolved, rows + rs[n].rows)
  {
    NotLast(tables, rs, n, resolved, limit);
    var last := rows[|rows| - 1];
    assert last in rows;
    RequestGood(tables, rs, n, resolved, Some(last), limit);
    NextPage(tables, n, resolved, rows, rs[n].rows, rs[n].nextCursor.Some?);
  }

  lemma {:induction false} WalkPrefixIsGood(tables: seq<Table>, rs: seq<Response>, n: nat, resolved: Option<bool>,
                                            limit: nat)
    requires Evolving(tables) && IsWalk(tables, rs, resolved, limit) && CursorsSurvive(tables, rs) && 1 <= n <= |rs|
    ensures PrefixGood(tables, rs, n, resolved, Shown(rs[..n]))
  {
    ShownSnoc(rs, n - 1);
    if n == 1 {
      assert Shown(rs[..0]) + rs[0].rows == rs[0].rows;
      FirstPrefix(tables, rs, resolved, limit);
    } else {
      WalkPrefixIsGood(tables, rs, n - 1, resolved, limit);
      NextPrefix(tables, rs, n - 1, resolved, limit, Shown(rs[..n - 1]));
    }
  }

  lemma NotLast(tables: seq<Table>, rs: seq<Response>, k: nat, resolved: Option<bool>, limit: nat)
    requires IsWalk(tables, rs, resolved, limit) && 1 <= k < |rs|
    ensures rs[k - 1].nextCursor.Some?
  {
    assert Answered(tables, rs, k, resolved, limit);
  }

  lemma RequestGood(tables: seq<Table>, rs: seq<Response>, k: nat, resolved: Option<bool>, cursor: Option<Key>,
                    limit: nat)
    requires Evolving(tables) && IsWalk(tables, rs, resolved, limit) && CursorsSurvive(tables, rs) && k < |rs|
    requires cursor.None? <==> k == 0
    requires cursor.Some? ==> cursor.value in Keys(tables[0])
    requires CursorAt(rs, k) == IdOf(cursor)
    ensures PageGood(tables, k, resolved, cursor, rs[k].rows, rs[k].nextCursor.Some?)
    ensures rs[k].nextCursor.Some? ==> rs[k].rows != [] && rs[k].nextCursor.value == rs[k].rows[|rs[k].rows| - 1].id
  {
    assert Answered(tables, rs, k, resolved, limit);
    OneRequest(tables, k, resolved, cursor, limit);
  }

  lemma {:induction false} SortedFits(rows: seq<Key>, s: set<Key>)
    requires IsSorted(rows, Before) && forall x <- rows :: x in s
    ensures |rows| <= |s|
  {
    if rows != [] {
      var shorter, last := rows[..|rows| - 1], rows[|rows| - 1];
      forall x | x in shorter ensures x in s - {last} {
        var i :| 0 <= i < |shorter| && shorter[i] == x;
        assert Before(rows[i], last);
        BeforeIsAsymmetric(rows[i], last);
      }
      SortedFits(shorter, s - {last});
    }
  }

  lemma SortedIsDistinct(rows: seq<Key>)
    requires IsSorted(rows, Before)
    ensures forall i, j :: 0 <= i < j < |rows| ==> rows[i] != rows[j]
  {
    forall i, j | 0 <= i < j < |rows| ensures rows[i] != rows[j] {
      assert Before(rows[i], rows[j]);
      BeforeIsAsymmetric(rows[i], rows[j]);
    }
  }

  /** What a good walk has shown, once it is over. */
  lemma GoodWalkShowsAll(tables: seq<Table>, n: nat, resolved: Option<bool>, rows: seq<Key>, more: bool)
    requires 1 <= n <= |tables| && WalkGood(tables, n, resolved, rows, more)
    ensures !more ==> forall x :: AlwaysMatches(tables, n, resolved, x) ==> x in rows
    ensures n <= |Keys(tables[0])| + 1 && (n == |Keys(tables[0])| + 1 ==> !more)
  {
    SortedFits(rows, Keys(tables[0]));
    forall x | AlwaysMatches(tables, n, resolved, x) ensures x in Keys(tables[0]) {
      assert x in MatchingKeys(tables[0], resolved);
    }
  }

  /**
   A walk lists every row that existed at its start and matched at every request, exactly
   once and in order, whatever was recorded or resolved meanwhile, as long as no cursor row
   is deleted; and it ends after at most one request more than there were rows.
   */
  lemma WalkMissesNothing(tables: seq<Table>, rs: seq<Response>, resolved: Option<bool>, limit: nat)
    requires Evolving(tables) && IsWalk(tables, rs, resolved, limit) && CursorsSurvive(tables, rs)
    ensures IsSorted(Shown(rs), Before)
    ensures forall i, j :: 0 <= i < j < |Shown(rs)| ==> Shown(rs)[i] != Shown(rs)[j]
    ensures forall x <- Shown(rs) :: x in Keys(tables[0])
    ensures Finished(rs) ==> forall x :: AlwaysMatches(tables, |rs|, resolved, x) ==> x in Shown(rs)
    ensures |rs| <= |Keys(tables[0])| + 1
    ensures |rs| == |Keys(tables[0])| + 1 ==> Finished(rs)
  {
    WalkPrefixIsGood(tables, rs, |rs|, resolved, limit);
    assert rs[..|rs|] == rs;
    SortedIsDistinct(Shown(rs));
    GoodWalkShowsAll(tables, |rs|, resolved, Shown(rs), rs[|rs| - 1].nextCursor.Some?);
  }

  /** A deleted cursor row ends the walk with an empty page, whatever is left. */
  lemma DeletedCursorEndsWalk(t: Table, resolved: Option<bool>, id: string, limit: nat)
    requires 1 <= limit
    ensures var r := List(t, resolved, Some(id), limit);
            (forall e <- t :: t[e].id != id) ==> r.rows == [] && r.nextCursor.None?
  {
    if forall e <- t :: t[e].id != id {
      assert forall key <- Keys(t) :: key.id != id;
    }
  }

  // ---------- the real operations evolve a table this way ----------

  /** Every fresh row is stamped with an unused id and a later time. */
  ghost predicate FreshStamps(start: Table, ops: seq<Op>) {
    forall k, key :: 0 <= k < |ops| && ops[k].RecordOp? && key in Keys(start) ==>
      ops[k].stamp.rowId != key.id && key.createdAt < ops[k].stamp.now
  }

  lemma StepKeys(t: Table, op: Op, t': Table)
    requires Wf(t) && Step(t, op, t')
    ensures forall key <- Keys(t') :: key in Keys(t) || (op.RecordOp? && key == Key(op.stamp.now, op.stamp.rowId))
  {
    forall key | key in Keys(t')
      ensures key in Keys(t) || (op.RecordOp? && key == Key(op.stamp.now, op.stamp.rowId))
    {
      var e :| e in t' && KeyOf(t'[e]) == key;
      if e in t {
        StepKeepsRow(t, op, t', e);
        assert KeyOf(t[e]) == key;
      }
    }
  }

  ghost predicate UniqueIds(t: Table) {
    forall key, key' :: key in Keys(t) && key' in Keys(t) && key.id == key'.id ==> key == key'
  }

  lemma {:induction false} OperationsEvolve(tables: seq<Table>, ops: seq<Op>, k: nat, key: Key, key0: Key)
    requires IsRun(tables, ops) && Wf(tables[0]) && UniqueIds(tables[0]) && FreshStamps(tables[0], ops) && k < |tables|
    requires key in Keys(tables[k]) && key0 in Keys(tables[0])
    ensures key.id == key0.id ==> key == key0
    ensures key !in Keys(tables[0]) ==> Before(key, key0)
  {
    if k > 0 {
      RunKeepsWf(tables, ops, k - 1);
      StepKeys(tables[k - 1], ops[k - 1], tables[k]);
      if key in Keys(tables[k - 1]) {
        OperationsEvolve(tables, ops, k - 1, key, key0);
      }
    }
  }

  /** The moments of the requests: never back, and the first one at the start. */
  ghost predicate IsSchedule(picks: seq<nat>, n: nat) {
    && picks != [] && picks[0] == 0
    && (forall i, j :: 0 <= i < j < |picks| ==> picks[i] <= picks[j])
    && forall i :: 0 <= i < |picks| ==> picks[i] < n
  }

  function Picked(tables: seq<Table>, picks: seq<nat>): (r: seq<Table>)
    requires forall i :: 0 <= i < |picks| ==> picks[i] < |tables|
    ensures |r| == |picks| && forall i :: 0 <= i < |r| ==> r[i] == tables[picks[i]]
  {
    seq(|picks|, i requires 0 <= i < |picks| => tables[picks[i]])
  }

  /**
   Recordings, replay passes and prunes, any number of them between two requests or none, are
   all the walk has to bear.
   */
  lemma RunsAreEvolving(tables: seq<Table>, ops: seq<Op>, picks: seq<nat>)
    requires IsRun(tables, ops) && Wf(tables[0]) && UniqueIds(tables[0]) && FreshStamps(tables[0], ops)
    requires IsSchedule(picks, |tables|)
    ensures Evolving(Picked(tables, picks))
  {
    var seen := Picked(tables, picks);
    forall j | 0 <= j < |seen| ensures EvolvedFrom(seen, j) {
      forall key, key0 | key in Keys(seen[j]) && key0 in Keys(seen[0])
        ensures (key.id == key0.id ==> key == key0) && (key !in Keys(seen[0]) ==> Before(key, key0))
      {
        OperationsEvolve(tables, ops, picks[j], key, key0);
      }
    }
  }

  /** The walk of a client whose requests fall anywhere in a run of the table's operations. */
  lemma WalkDuringRun(tables: seq<Table>, ops: seq<Op>, picks: seq<nat>, rs: seq<Response>, resolved: Option<bool>,
                      limit: nat)
    requires IsRun(tables, ops) && Wf(tables[0]) && UniqueIds(tables[0]) && FreshStamps(tables[0], ops)
    requires IsSchedule(picks, |tables|) && |rs| == |picks|
    requires IsWalk(Picked(tables, picks), rs, resolved, limit) && CursorsSurvive(Picked(tables, picks), rs)
    ensures IsSorted(Shown(rs), Before)
    ensures forall i, j :: 0 <= i < j < |Shown(rs)| ==> Shown(rs)[i] != Shown(rs)[j]
    ensures forall x <- Shown(rs) :: x in Keys(tables[0])
    ensures Finished(rs) ==> forall x ::
      (forall i :: 0 <= i < |picks| ==> x in MatchingKeys(tables[picks[i]], resolved)) ==> x in Shown(rs)
    ensures |rs| <= |Keys(tables[0])| + 1
  {
    var seen := Picked(tables, picks);
    RunsAreEvolving(tables, ops, picks);
    WalkMissesNothing(seen, rs, resolved, limit);
    forall x | Finished(rs) && forall i :: 0 <= i < |picks| ==> x in MatchingKeys(tables[picks[i]], resolved)
      ensures x in Shown(rs)
    {
      assert AlwaysMatches(seen, |rs|, resolved, x);
    }
  }
}
