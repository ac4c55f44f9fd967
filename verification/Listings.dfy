/** GET /v1/ngos and GET /v1/donors: their orders, cursor clauses and pages. */
module Listings {
  import opened Wrappers
  import opened Keyset
  import opened CursorWalk

  // ---------- the NGO directory ----------

  datatype SortMode = Newest | Oldest | Name

  datatype NgoListRow = NgoListRow(id: string, name: string, displayName: Option<string>, verified: bool,
    createdAt: int)

  /** COALESCE(NULLIF(display_name, ''), name) */
  function PublicName(r: NgoListRow): string {
    if r.displayName.Some? && r.displayName.value != "" then r.displayName.value else r.name
  }

  /** One ORDER BY column: how two rows compare in it, NULL meaning the column says nothing. */
  datatype Column = Smaller | Same | Greater

  function CompareText(a: string, b: string): Column {
    if Less(a, b) then Smaller else if Less(b, a) then Greater else Same
  }

  function CompareTime(a: int, b: int): Column {
    if a < b then Smaller else if b < a then Greater else Same
  }

  function Reverse(c: Column): Column {
    match c case Smaller => Greater case Same => Same case Greater => Smaller
  }

  /** `CASE WHEN sort = mode THEN ... END`: NULL in every row unless the mode is chosen. */
  function When(chosen: bool, c: Column): Column { if chosen then c else Same }

  function FirstDifference(columns: seq<Column>): Column {
    if columns == [] then Same else if columns[0] != Same then columns[0] else FirstDifference(columns[1..])
  }

  /** The ORDER BY clause, its four columns in turn. */
  predicate Precedes(mode: SortMode, a: NgoListRow, b: NgoListRow) {
    FirstDifference([
      When(mode.Name?, CompareText(PublicName(a), PublicName(b))),
      When(mode.Oldest?, CompareTime(a.createdAt, b.createdAt)),
      When(mode.Newest?, Reverse(CompareTime(a.createdAt, b.createdAt))),
      CompareText(a.id, b.id)]) == Smaller
  }

  /** SQL's row comparison `(x, id) > (y, id')`. */
  predicate RowAfterText(x: string, id: string, y: string, id': string) {
    Less(y, x) || (x == y && Less(id', id))
  }

  predicate RowAfterTime(x: int, id: string, y: int, id': string) {
    y < x || (x == y && Less(id', id))
  }

  /** The WHERE clause on the cursor row, mode by mode. */
  predicate AfterCursor(mode: SortMode, cursor: NgoListRow, ngo: NgoListRow) {
    || (mode.Name? && RowAfterText(PublicName(ngo), ngo.id, PublicName(cursor), cursor.id))
    || (mode.Oldest? && RowAfterTime(ngo.createdAt, ngo.id, cursor.createdAt, cursor.id))
    || (mode.Newest? && (ngo.createdAt < cursor.createdAt
      || (ngo.createdAt == cursor.createdAt && Less(cursor.id, ngo.id))))
  }

  lemma CompareTextIsTotal(a: string, b: string)
    ensures CompareText(a, b) == Same <==> a == b
    ensures CompareText(a, b) == Smaller <==> Less(a, b)
    ensures CompareText(a, b) == Greater <==> Less(b, a)
  {
    LessIsIrreflexive(a);
    LessIsTotal(a, b);
    if Less(a, b) {
      LessIsAsymmetric(a, b);
    }
    if Less(b, a) {
      LessIsAsymmetric(b, a);
    }
  }

  lemma FourColumns(a: Column, b: Column, c: Column, d: Column)
    ensures FirstDifference([a, b, c, d]) ==
      if a != Same then a else if b != Same then b else if c != Same then c else d
  {
    assert [a, b, c, d][1..] == [b, c, d] && [b, c, d][1..] == [c, d] && [c, d][1..] == [d] && [d][1..] == [];
    assert FirstDifference([d]) == d;
    assert FirstDifference([c, d]) == if c != Same then c else d;
    assert FirstDifference([b, c, d]) == if b != Same then b else FirstDifference([c, d]);
  }

  /** In each mode the cursor clause keeps exactly the rows strictly after the cursor row. */
  lemma CursorClauseIsStrictlyAfter(mode: SortMode, cursor: NgoListRow, ngo: NgoListRow)
    ensures AfterCursor(mode, cursor, ngo) <==> Precedes(mode, cursor, ngo)
  {
    CompareTextIsTotal(PublicName(cursor), PublicName(ngo));
    CompareTextIsTotal(cursor.id, ngo.id);
    FourColumns(
      When(mode.Name?, CompareText(PublicName(cursor), PublicName(ngo))),
      When(mode.Oldest?, CompareTime(cursor.createdAt, ngo.createdAt)),
      When(mode.Newest?, Reverse(CompareTime(cursor.createdAt, ngo.createdAt))),
      CompareText(cursor.id, ngo.id));
  }

  ghost predicate IdsUnique(s: set<NgoListRow>) {
    forall x, y :: x in s && y in s && x.id == y.id ==> x == y
  }

  lemma PrecedesIsTransitive(mode: SortMode, x: NgoListRow, y: NgoListRow, z: NgoListRow)
    requires Precedes(mode, x, y) && Precedes(mode, y, z)
    ensures Precedes(mode, x, z)
  {
    CursorClauseIsStrictlyAfter(mode, x, y);
    CursorClauseIsStrictlyAfter(mode, y, z);
    CursorClauseIsStrictlyAfter(mode, x, z);
    if Less(PublicName(x), PublicName(y)) && Less(PublicName(y), PublicName(z)) {
      LessIsTransitive(PublicName(x), PublicName(y), PublicName(z));
    }
    if Less(x.id, y.id) && Less(y.id, z.id) {
      LessIsTransitive(x.id, y.id, z.id);
    }
  }

  lemma PrecedesIsTotal(mode: SortMode, x: NgoListRow, y: NgoListRow)
    ensures !Precedes(mode, x, x)
    ensures x.id != y.id ==> Precedes(mode, x, y) || Precedes(mode, y, x)
  {
    CursorClauseIsStrictlyAfter(mode, x, x);
    CursorClauseIsStrictlyAfter(mode, x, y);
    CursorClauseIsStrictlyAfter(mode, y, x);
    LessIsIrreflexive(PublicName(x));
    LessIsIrreflexive(x.id);
    LessIsTotal(PublicName(x), PublicName(y));
    LessIsTotal(x.id, y.id);
  }

  function InMode(mode: SortMode): (NgoListRow, NgoListRow) -> bool {
    (a, b) => Precedes(mode, a, b)
  }

  /** In each mode the order is strict and total on rows with distinct ids. */
  lemma ModeIsStrictTotal(mode: SortMode, s: set<NgoListRow>)
    requires IdsUnique(s)
    ensures StrictTotalOn(s, InMode(mode))
  {
    var lt := InMode(mode);
    forall x | x in s ensures !lt(x, x) {
      PrecedesIsTotal(mode, x, x);
    }
    forall x, y, z | x in s && y in s && z in s && lt(x, y) && lt(y, z) ensures lt(x, z) {
      PrecedesIsTransitive(mode, x, y, z);
    }
    forall x, y | x in s && y in s && x != y ensures lt(x, y) || lt(y, x) {
      PrecedesIsTotal(mode, x, y);
    }
  }

  /** The rows the query can return: verified, and matching the search, which may be any test on the row. */
  ghost function Candidates(ngos: set<NgoListRow>, search: NgoListRow -> bool): set<NgoListRow> {
    set r | r in ngos && r.verified && search(r)
  }

  /** The query's rows for a cursor row that exists, through the WHERE clause as written. */
  ghost function AfterByClause(rows: set<NgoListRow>, mode: SortMode, cursor: Option<NgoListRow>): set<NgoListRow> {
    set r | r in rows && (cursor.None? || AfterCursor(mode, cursor.value, r))
  }

  /** The rows a page is cut from are the ones the WHERE clause as written keeps. */
  lemma ClauseKeepsRowsAfterCursor(rows: set<NgoListRow>, mode: SortMode, cursor: Option<NgoListRow>)
    ensures After(rows, InMode(mode), cursor) == AfterByClause(rows, mode, cursor)
  {
    if cursor.Some? {
      forall r | r in rows ensures InMode(mode)(cursor.value, r) <==> AfterCursor(mode, cursor.value, r) {
        CursorClauseIsStrictlyAfter(mode, cursor.value, r);
      }
    }
  }

  function NgoId(r: NgoListRow): string { r.id }

  /** LIMIT limit + 1, cut back to the page. */
  function FirstPage(rows: seq<NgoListRow>, limit: nat): Answer<NgoListRow>
    requires 1 <= limit
  {
    var fetched := rows[..Min(limit + 1, |rows|)];
    if |fetched| > limit then Rows(fetched[..limit], Some(fetched[limit - 1].id)) else Rows(fetched, None)
  }

  /** `cursor_ngo`: the cursor id is looked up among all NGOs, listed or not. */
  ghost function CursorNgo(ngos: set<NgoListRow>, id: string): (r: Option<NgoListRow>)
    ensures r.Some? ==> r.value in ngos && r.value.id == id
    ensures r.None? ==> forall x <- ngos :: x.id != id
  {
    if r :| r in ngos && r.id == id then Some(r) else None
  }

  /** The whole query; an unknown cursor leaves nothing after it. */
  ghost function Query(ngos: set<NgoListRow>, search: NgoListRow -> bool, mode: SortMode, cursor: Option<string>,
                       limit: nat)
    : Answer<NgoListRow>
    requires IdsUnique(ngos) && 1 <= limit
  {
    var row := if cursor.Some? then CursorNgo(ngos, cursor.value) else None;
    if cursor.Some? && row.None? then Rows([], None)
    else
      var rows := AfterByClause(Candidates(ngos, search), mode, row);
      ModeIsStrictTotal(mode, rows);
      FirstPage(Sorted(rows, InMode(mode)), limit)
  }

  /** Asking with a row's id gives the page after that row, and its next cursor. */
  lemma CursorIdNamesItsRow(ngos: set<NgoListRow>, search: NgoListRow -> bool, mode: SortMode, row: NgoListRow,
                            limit: nat)
    requires IdsUnique(ngos) && 1 <= limit && row in ngos
    ensures var rows := After(Candidates(ngos, search), InMode(mode), Some(row));
            && StrictTotalOn(rows, InMode(mode))
            && Query(ngos, search, mode, Some(row.id), limit) == FirstPage(Sorted(rows, InMode(mode)), limit)
  {
    ClauseKeepsRowsAfterCursor(Candidates(ngos, search), mode, Some(row));
    ModeIsStrictTotal(mode, After(Candidates(ngos, search), InMode(mode), Some(row)));
  }

  lemma FirstPageOfRest(all: seq<NgoListRow>, start: nat, limit: nat)
    requires 1 <= limit && start <= |all|
    ensures FirstPage(all[start..], limit) == PageAt(all, NgoId, start, limit)
  {
    if start + limit < |all| {
      assert all[start..][..limit + 1][..limit] == all[start..start + limit];
    } else {
      assert all[start..][..|all| - start] == all[start..];
    }
  }

  lemma QueryCutsPages(ngos: set<NgoListRow>, search: NgoListRow -> bool, mode: SortMode, all: seq<NgoListRow>,
                       limit: nat, start: nat)
    requires IdsUnique(ngos) && 1 <= limit && start <= |all|
    requires Lists(all, Candidates(ngos, search)) && IsSorted(all, InMode(mode))
    ensures Query(ngos, search, mode, CursorBefore(all, NgoId, start), limit) == PageAt(all, NgoId, start, limit)
  {
    var rows := Candidates(ngos, search);
    ModeIsStrictTotal(mode, rows);
    FirstPageOfRest(all, start, limit);
    if start > 0 {
      assert all[start - 1] in all;
      CursorIdNamesItsRow(ngos, search, mode, all[start - 1], limit);
      SortedAfter(all, rows, InMode(mode), start - 1);
    } else {
      assert AfterByClause(rows, mode, None) == rows;
      SortedIsUnique(Sorted(rows, InMode(mode)), all, rows, InMode(mode));
      assert all[0..] == all;
    }
  }

  /**
   A client that follows the cursors of the query is shown the sorted, filtered directory in
   order, whole when its walk ends, which takes at most one request more than there are rows.
   */
  lemma NgoPagesListEverything(ngos: set<NgoListRow>, search: NgoListRow -> bool, mode: SortMode, all: seq<NgoListRow>,
                               limit: nat, answers: seq<Answer<NgoListRow>>)
    requires IdsUnique(ngos) && 1 <= limit
    requires Lists(all, Candidates(ngos, search)) && IsSorted(all, InMode(mode))
    requires IsWalk(cursor => Query(ngos, search, mode, cursor, limit), answers)
    ensures ShowsPrefix(all, NgoId, Shown(answers), answers[|answers| - 1], |answers|)
  {
    var fetch := cursor => Query(ngos, search, mode, cursor, limit);
    forall start: nat | start <= |all|
      ensures fetch(CursorBefore(all, NgoId, start)) == PageAt(all, NgoId, start, limit)
    {
      QueryCutsPages(ngos, search, mode, all, limit, start);
    }
    WalkShowsPrefix(all, NgoId, limit, fetch, answers);
  }

  /** What the public may see of the directory. */
  predicate Public(r: NgoListRow, search: NgoListRow -> bool) { r.verified && search(r) }

  lemma CandidatesArePublic(ngos: set<NgoListRow>, search: NgoListRow -> bool, r: NgoListRow)
    ensures r in Candidates(ngos, search) <==> r in ngos && Public(r, search)
  {
  }

  /** The name a row is listed under. */
  predicate ListedAs(r: NgoListRow, name: string) {
    && (r.displayName == None || r.displayName == Some("") ==> name == r.name)
    && (r.displayName != None && r.displayName != Some("") ==> Some(name) == r.displayName)
  }

  /** In which order two rows are listed, on their own columns. Equal rows go by id. */
  ghost predicate ListedBefore(mode: SortMode, a: NgoListRow, b: NgoListRow) {
    match mode
    case Newest => b.createdAt < a.createdAt || (a.createdAt == b.createdAt && Less(a.id, b.id))
    case Oldest => a.createdAt < b.createdAt || (a.createdAt == b.createdAt && Less(a.id, b.id))
    case Name => exists x, y :: && ListedAs(a, x) && ListedAs(b, y)
                                && (Less(x, y) || (x == y && Less(a.id, b.id)))
  }

  lemma OrderIsOnColumns(mode: SortMode, a: NgoListRow, b: NgoListRow)
    ensures Precedes(mode, a, b) <==> ListedBefore(mode, a, b)
  {
    CursorClauseIsStrictlyAfter(mode, a, b);
    if mode.Name? {
      assert ListedAs(a, PublicName(a)) && ListedAs(b, PublicName(b));
    }
  }

  /**
   What a client's walk has shown: public rows alone, none twice, in the order of the mode;
   and when the walk ends, every public row.
   */
  lemma WalkShowsThePublic(ngos: set<NgoListRow>, search: NgoListRow -> bool, mode: SortMode, all: seq<NgoListRow>,
                           limit: nat, answers: seq<Answer<NgoListRow>>)
    requires IdsUnique(ngos) && 1 <= limit
    requires Lists(all, Candidates(ngos, search)) && IsSorted(all, InMode(mode))
    requires IsWalk(cursor => Query(ngos, search, mode, cursor, limit), answers)
    ensures var shown := Shown(answers);
            && (forall r <- shown :: r in ngos && Public(r, search))
            && (forall i, j :: 0 <= i < j < |shown| ==> ListedBefore(mode, shown[i], shown[j]))
            && var last := answers[|answers| - 1];
               last.Rows? && (last.nextCursor.None? ==> forall r <- ngos :: Public(r, search) ==> r in shown)
  {
    NgoPagesListEverything(ngos, search, mode, all, limit, answers);
    var shown := Shown(answers);
    assert shown <= all;
    forall r | r in shown ensures r in ngos && Public(r, search) {
      var i :| 0 <= i < |shown| && shown[i] == r;
      assert all[i] == r && all[i] in all;
      CandidatesArePublic(ngos, search, r);
    }
    forall r | r in ngos && Public(r, search) ensures r in all {
      CandidatesArePublic(ngos, search, r);
    }
    forall i, j | 0 <= i < j < |shown| ensures ListedBefore(mode, shown[i], shown[j]) {
      assert shown[i] == all[i] && shown[j] == all[j] && InMode(mode)(all[i], all[j]);
      OrderIsOnColumns(mode, shown[i], shown[j]);
    }
  }

  // ---------- the ranked donors ----------

  datatype Donor = Donor(id: string, committed: int, withdrawn: int)

  datatype Ranking = ByCommitted | ByWithdrawn

  function Value(sort: Ranking, d: Donor): int { if sort.ByCommitted? then d.committed else d.withdrawn }

  /** The comparison function given to sort: by value in the asked direction, then by id upwards. */
  function Compare(sort: Ranking, ascending: bool, left: Donor, right: Donor): Column {
    var byValue := CompareTime(Value(sort, left), Value(sort, right));
    if byValue != Same then (if ascending then byValue else Reverse(byValue)) else CompareText(left.id, right.id)
  }

  function Ranked(sort: Ranking, ascending: bool): (Donor, Donor) -> bool {
    (left, right) => Compare(sort, ascending, left, right) == Smaller
  }

  ghost predicate DonorIdsUnique(s: set<Donor>) {
    forall x, y :: x in s && y in s && x.id == y.id ==> x == y
  }

  lemma RankingIsStrictTotal(sort: Ranking, ascending: bool, s: set<Donor>)
    requires DonorIdsUnique(s)
    ensures StrictTotalOn(s, Ranked(sort, ascending))
  {
    var lt := Ranked(sort, ascending);
    forall x | x in s ensures !lt(x, x) {
      CompareTextIsTotal(x.id, x.id);
    }
    forall x, y, z | x in s && y in s && z in s && lt(x, y) && lt(y, z) ensures lt(x, z) {
      CompareTextIsTotal(x.id, y.id);
      CompareTextIsTotal(y.id, z.id);
      CompareTextIsTotal(x.id, z.id);
      if Less(x.id, y.id) && Less(y.id, z.id) {
        LessIsTransitive(x.id, y.id, z.id);
      }
    }
    forall x, y | x in s && y in s && x != y ensures lt(x, y) || lt(y, x) {
      CompareTextIsTotal(x.id, y.id);
      CompareTextIsTotal(y.id, x.id);
    }
  }

  /** Who ranks before whom, on the donors' own amounts; equal amounts go by id, upwards either way. */
  predicate RanksBefore(sort: Ranking, ascending: bool, a: Donor, b: Donor) {
    match sort
    case ByCommitted =>
      || (if ascending then a.committed < b.committed else b.committed < a.committed)
      || (a.committed == b.committed && Less(a.id, b.id))
    case ByWithdrawn =>
      || (if ascending then a.withdrawn < b.withdrawn else b.withdrawn < a.withdrawn)
      || (a.withdrawn == b.withdrawn && Less(a.id, b.id))
  }

  lemma RankingIsOnAmounts(sort: Ranking, ascending: bool, a: Donor, b: Donor)
    ensures Ranked(sort, ascending)(a, b) <==> RanksBefore(sort, ascending, a, b)
  {
    CompareTextIsTotal(a.id, b.id);
  }

  /** `findIndex` by id: the position of the first match, or -1. */
  function FindIndex(ranked: seq<Donor>, id: string): (i: int)
    ensures -1 <= i < |ranked|
    ensures i >= 0 ==> ranked[i].id == id && forall j :: 0 <= j < i ==> ranked[j].id != id
    ensures i == -1 ==> forall d <- ranked :: d.id != id
  {
    if ranked == [] then -1
    else if ranked[0].id == id then 0
    else
      var i := FindIndex(ranked[1..], id);
      if i == -1 then -1 else i + 1
  }

  function DonorId(d: Donor): string { d.id }

  /** One row more than the page is sliced off, to know whether there is a next one. */
  function CutPage(ranked: seq<Donor>, start: nat, limit: nat): Answer<Donor>
    requires 1 <= limit && start <= |ranked|
  {
    var page := ranked[start..Min(start + limit + 1, |ranked|)];
    if |page| > limit then Rows(page[..limit], Some(page[limit - 1].id)) else Rows(page, None)
  }

  function PageOf(ranked: seq<Donor>, cursor: Option<string>, limit: nat): Answer<Donor>
    requires 1 <= limit
  {
    var cursorIndex := if cursor.Some? then FindIndex(ranked, cursor.value) else -1;
    if cursor.Some? && cursorIndex == -1 then BadCursor else CutPage(ranked, cursorIndex + 1, limit)
  }

  lemma IndexFindsDonor(ranked: seq<Donor>, i: nat)
    requires i < |ranked| && forall j, k :: 0 <= j < k < |ranked| ==> ranked[j].id != ranked[k].id
    ensures FindIndex(ranked, ranked[i].id) == i
  {
    var k := FindIndex(ranked, ranked[i].id);
    assert ranked[i] in ranked;
  }

  lemma SliceOfSlice<T>(s: seq<T>, from: nat, to: nat, n: nat)
    requires from + n <= to <= |s|
    ensures s[from..to][..n] == s[from..from + n]
  {
  }

  lemma CutPageIs(ranked: seq<Donor>, start: nat, limit: nat)
    requires 1 <= limit && start <= |ranked|
    ensures CutPage(ranked, start, limit) == PageAt(ranked, DonorId, start, limit)
  {
    if start + limit < |ranked| {
      SliceOfSlice(ranked, start, start + limit + 1, limit);
    }
  }

  lemma PageFrom(ranked: seq<Donor>, start: nat, limit: nat)
    requires 1 <= limit && start <= |ranked|
    requires forall j, k :: 0 <= j < k < |ranked| ==> ranked[j].id != ranked[k].id
    ensures PageOf(ranked, CursorBefore(ranked, DonorId, start), limit) == PageAt(ranked, DonorId, start, limit)
  {
    if start > 0 {
      IndexFindsDonor(ranked, start - 1);
    }
    CutPageIs(ranked, start, limit);
  }

  lemma RankedIdsDiffer(donors: set<Donor>, ranked: seq<Donor>, lt: (Donor, Donor) -> bool, j: nat, k: nat)
    requires DonorIdsUnique(donors) && StrictTotalOn(donors, lt) && Lists(ranked, donors) && IsSorted(ranked, lt)
    requires j < k < |ranked|
    ensures ranked[j].id != ranked[k].id
  {
    assert lt(ranked[j], ranked[k]);
    assert ranked[j] in ranked && ranked[k] in ranked;
    assert !lt(ranked[j], ranked[j]);
  }

  /**
   Both rankings in both directions: no page is refused, the walk ends within one request
   more than there are donors, and its pages are then the whole ranked list, cut in order.
   */
  lemma DonorPagesListEverything(donors: set<Donor>, sort: Ranking, ascending: bool, ranked: seq<Donor>, limit: nat,
                                 answers: seq<Answer<Donor>>)
    requires DonorIdsUnique(donors) && Lists(ranked, donors) && IsSorted(ranked, Ranked(sort, ascending)) && 1 <= limit
    requires IsWalk(cursor => PageOf(ranked, cursor, limit), answers)
    ensures ShowsPrefix(ranked, DonorId, Shown(answers), answers[|answers| - 1], |answers|)
  {
    RankingIsStrictTotal(sort, ascending, donors);
    forall j, k | 0 <= j < k < |ranked| ensures ranked[j].id != ranked[k].id {
      RankedIdsDiffer(donors, ranked, Ranked(sort, ascending), j, k);
    }
    var fetch := cursor => PageOf(ranked, cursor, limit);
    forall start: nat | start <= |ranked|
      ensures fetch(CursorBefore(ranked, DonorId, start)) == PageAt(ranked, DonorId, start, limit)
    {
      PageFrom(ranked, start, limit);
    }
    WalkShowsPrefix(ranked, DonorId, limit, fetch, answers);
  }

  /** What a client's walk has shown: donors in the order of their own amounts, and in the end all of them. */
  lemma WalkShowsTheRanking(donors: set<Donor>, sort: Ranking, ascending: bool, ranked: seq<Donor>, limit: nat,
                            answers: seq<Answer<Donor>>)
    requires DonorIdsUnique(donors) && Lists(ranked, donors) && IsSorted(ranked, Ranked(sort, ascending)) && 1 <= limit
    requires IsWalk(cursor => PageOf(ranked, cursor, limit), answers)
    ensures var shown := Shown(answers);
            && (forall d <- shown :: d in donors)
            && (forall i, j :: 0 <= i < j < |shown| ==> RanksBefore(sort, ascending, shown[i], shown[j]))
            && var last := answers[|answers| - 1];
               last.Rows? && (last.nextCursor.None? ==> forall d <- donors :: d in shown)
  {
    DonorPagesListEverything(donors, sort, ascending, ranked, limit, answers);
    var shown := Shown(answers);
    assert shown <= ranked;
    forall d | d in shown ensures d in donors {
      var i :| 0 <= i < |shown| && shown[i] == d;
      assert ranked[i] == d && ranked[i] in ranked;
    }
    forall i, j | 0 <= i < j < |shown| ensures RanksBefore(sort, ascending, shown[i], shown[j]) {
      assert shown[i] == ranked[i] && shown[j] == ranked[j];
      RankingIsOnAmounts(sort, ascending, shown[i], shown[j]);
    }
  }
}
