/**
 Committed totals: per stream, per token, per NGO and per donor, and each NGO's share of
 the platform. The status-blind database sum agrees with the status-aware one because a
 cancelled stream has nothing left.
 */
module Totals {
  import opened Wrappers
  import opened Keyset
  import opened StreamTables
  import opened AuditReading

  const PERCENT_SCALE := 1_000_000_000_000

  /** A cancelled stream counts what it paid out; a live one also what it still holds. */
  function Committed(row: StreamRow): int {
    if row.status.Cancelled? then row.withdrawn else row.balance + row.withdrawn
  }

  function CommittedTotal(rows: seq<StreamRow>): int {
    if rows == [] then 0 else CommittedTotal(rows[..|rows| - 1]) + Committed(rows[|rows| - 1])
  }

  /** SELECT SUM(balance + withdrawn): the status plays no part. */
  function StatusBlindTotal(rows: seq<StreamRow>): int {
    if rows == [] then 0
    else StatusBlindTotal(rows[..|rows| - 1]) + rows[|rows| - 1].balance + rows[|rows| - 1].withdrawn
  }

  /** The total of the rows with one value of a grouping column. */
  function GroupTotal(rows: seq<StreamRow>, column: StreamRow -> string, value: string): int {
    if rows == [] then 0
    else
      var last := rows[|rows| - 1];
      GroupTotal(rows[..|rows| - 1], column, value) + if column(last) == value then Committed(last) else 0
  }

  function SumOfGroups(rows: seq<StreamRow>, column: StreamRow -> string, values: seq<string>): int {
    if values == [] then 0
    else SumOfGroups(rows, column, values[..|values| - 1]) + GroupTotal(rows, column, values[|values| - 1])
  }

  function TokenOf(row: StreamRow): string { row.token }
  function NgoOf(row: StreamRow): string { row.ngo }
  function DonorOf(row: StreamRow): string { row.donor }

  ghost predicate NoDuplicates(values: seq<string>) {
    forall i, j :: 0 <= i < j < |values| ==> values[i] != values[j]
  }

  lemma {:induction false} GroupsOfNothing(column: StreamRow -> string, values: seq<string>)
    ensures SumOfGroups([], column, values) == 0
  {
    if values != [] {
      GroupsOfNothing(column, values[..|values| - 1]);
    }
  }

  /** One more row adds its amount to exactly one group of a duplicate-free list. */
  lemma {:induction false} OneMoreRow(rows: seq<StreamRow>, row: StreamRow, column: StreamRow -> string,
                                      values: seq<string>)
    requires NoDuplicates(values)
    ensures SumOfGroups(rows + [row], column, values)
            == SumOfGroups(rows, column, values) + if column(row) in values then Committed(row) else 0
  {
    if values != [] {
      var shorter, last := values[..|values| - 1], values[|values| - 1];
      OneMoreRow(rows, row, column, shorter);
      assert (rows + [row])[..|rows|] == rows;
      assert values == shorter + [last];
    }
  }

  /** Whatever the grouping column, the groups add up to the whole. */
  lemma {:induction false} GroupsAddUp(rows: seq<StreamRow>, column: StreamRow -> string, values: seq<string>)
    requires NoDuplicates(values) && forall row <- rows :: column(row) in values
    ensures SumOfGroups(rows, column, values) == CommittedTotal(rows)
  {
    if rows == [] {
      GroupsOfNothing(column, values);
    } else {
      var shorter, last := rows[..|rows| - 1], rows[|rows| - 1];
      assert rows == shorter + [last] && last in rows;
      GroupsAddUp(shorter, column, values);
      OneMoreRow(shorter, last, column, values);
    }
  }

  // ---------- the status-blind sum ----------

  ghost predicate CancelledAreEmpty(rows: seq<StreamRow>) {
    forall row <- rows :: row.status.Cancelled? ==> row.balance == 0
  }

  lemma {:induction false} StatusBlindAgrees(rows: seq<StreamRow>)
    requires CancelledAreEmpty(rows)
    ensures StatusBlindTotal(rows) == CommittedTotal(rows)
  {
    if rows != [] {
      assert rows[|rows| - 1] in rows;
      StatusBlindAgrees(rows[..|rows| - 1]);
    }
  }

  /** Any listing of the stream table: one row per stream, in any order. */
  ghost predicate ListsStreams(rows: seq<StreamRow>, ids: seq<int>, t: Tables) {
    && |rows| == |ids|
    && (forall i, j :: 0 <= i < j < |ids| ==> ids[i] != ids[j])
    && (forall id :: id in ids <==> id in t.streams)
    && forall i :: 0 <= i < |ids| ==> ids[i] in t.streams && rows[i] == t.streams[ids[i]]
  }

  /** In every state the handlers can reach, both totals agree and no amount is negative. */
  lemma ReachableTotalsAgree(db: Db, rows: seq<StreamRow>, ids: seq<int>)
    requires Reachable(db) && ListsStreams(rows, ids, db.tables)
    ensures StatusBlindTotal(rows) == CommittedTotal(rows)
    ensures forall row <- rows :: 0 <= Committed(row) && (row.status.Cancelled? ==> row.balance == 0 && row.rate == 0)
  {
    TablesReadBackFromLog(db);
    ReachableLogIsNonNegative(db);
    forall row | row in rows
      ensures 0 <= Committed(row) && (row.status.Cancelled? ==> row.balance == 0 && row.rate == 0)
    {
      var i :| 0 <= i < |rows| && rows[i] == row;
      assert Lookup(db.tables.streams, ids[i]) == StreamReading(db.log, ids[i]);
      AccruedNonNegative(db.log, ids[i]);
      SettlementNonNegative(db.log, ids[i]);
    }
    StatusBlindAgrees(rows);
  }

  lemma ReachableLogIsNonNegative(db: Db)
    requires Reachable(db)
    ensures LogNonNegative(db.log)
  {
    var ds: seq<Delivery> :| (forall d <- ds :: Events.NonNegative(d.event.message))
      && db == DeliverAll(Db(EMPTY_TABLES, []), ds);
    DeliverAllKeepsInv(ds);
  }

  // ---------- committedTotalsByToken ----------

  datatype TokenTotal = TokenTotal(tokenAddress: string, amount: int)

  function Tokens(rows: seq<StreamRow>): set<string> {
    set row | row in rows :: row.token
  }

  lemma StrictTotalLess(s: set<string>)
    ensures StrictTotalOn(s, Less)
  {
    LessIsStrictTotal();
  }

  predicate InOrder(totals: seq<TokenTotal>) {
    forall i, j :: 0 <= i < j < |totals| ==> Less(totals[i].tokenAddress, totals[j].tokenAddress)
  }

  predicate AllBefore(totals: seq<TokenTotal>, left: set<string>) {
    forall i, token :: 0 <= i < |totals| && token in left ==> Less(totals[i].tokenAddress, token)
  }

  /** The entries taken so far, in order and before every token left. */
  ghost predicate SortedSoFar(sums: map<string, int>, left: set<string>, totals: seq<TokenTotal>) {
    && left <= sums.Keys && InOrder(totals) && AllBefore(totals, left)
    && (forall i :: 0 <= i < |totals| ==>
      totals[i].tokenAddress in sums && totals[i].amount == sums[totals[i].tokenAddress])
    && (forall token <- sums :: token in left || token in TokenList(totals))
  }

  lemma OrderOneMore(totals: seq<TokenTotal>, left: set<string>, entry: TokenTotal)
    requires InOrder(totals) && AllBefore(totals, left) && entry.tokenAddress in left
    requires forall other <- left :: other != entry.tokenAddress ==> Less(entry.tokenAddress, other)
    ensures InOrder(totals + [entry]) && AllBefore(totals + [entry], left - {entry.tokenAddress})
  {
  }

  lemma CoverOneMore(sums: map<string, int>, left: set<string>, totals: seq<TokenTotal>, entry: TokenTotal)
    requires forall token <- sums :: token in left || token in TokenList(totals)
    ensures forall token <- sums :: token in left - {entry.tokenAddress} || token in TokenList(totals + [entry])
  {
    assert TokenList(totals + [entry]) == TokenList(totals) + [entry.tokenAddress];
  }

  lemma SortedOneMore(sums: map<string, int>, left: set<string>, totals: seq<TokenTotal>, token: string)
    requires SortedSoFar(sums, left, totals)
    requires token in left && forall other <- left :: other != token ==> Less(token, other)
    ensures SortedSoFar(sums, left - {token}, totals + [TokenTotal(token, sums[token])])
  {
    OrderOneMore(totals, left, TokenTotal(token, sums[token]));
    CoverOneMore(sums, left, totals, TokenTotal(token, sums[token]));
  }

  /** `sort` and `map` on the entries of a map: the least key left is taken in turn. */
  method SortedEntries(sums: map<string, int>) returns (totals: seq<TokenTotal>)
    ensures forall i, j :: 0 <= i < j < |totals| ==> Less(totals[i].tokenAddress, totals[j].tokenAddress)
    ensures forall i :: 0 <= i < |totals| ==>
      totals[i].tokenAddress in sums && totals[i].amount == sums[totals[i].tokenAddress]
    ensures forall token <- sums :: token in TokenList(totals)
  {
    var left := sums.Keys;
    totals := [];
    while left != {}
      invariant SortedSoFar(sums, left, totals)
      decreases |left|
    {
      StrictTotalLess(left);
      LeastExists(left, Less);
      var token :| token in left && forall other <- left :: other != token ==> Less(token, other);
      SortedOneMore(sums, left, totals, token);
      totals := totals + [TokenTotal(token, sums[token])];
      left := left - {token};
    }
  }

  /** The totals of each token that occurs, in token order. */
  method CommittedTotalsByToken(rows: seq<StreamRow>) returns (totals: seq<TokenTotal>)
    ensures forall i, j :: 0 <= i < j < |totals| ==> Less(totals[i].tokenAddress, totals[j].tokenAddress)
    ensures forall i :: 0 <= i < |totals| ==> totals[i].amount == GroupTotal(rows, TokenOf, totals[i].tokenAddress)
    ensures forall token :: token in Tokens(rows) <==> token in TokenList(totals)
  {
    var sums: map<string, int> := map[];
    for n := 0 to |rows|
      invariant sums.Keys == Tokens(rows[..n])
      invariant forall token <- sums :: sums[token] == GroupTotal(rows[..n], TokenOf, token)
    {
      var row := rows[n];
      var committed := if row.status.Cancelled? then row.withdrawn else row.balance + row.withdrawn;
      assert rows[..n + 1] == rows[..n] + [row] && rows[..n + 1][..n] == rows[..n];
      if row.token !in sums {
        AbsentTokenHasNoTotal(rows[..n], row.token);
      }
      sums := sums[row.token := (if row.token in sums then sums[row.token] else 0) + committed];
      assert Tokens(rows[..n + 1]) == Tokens(rows[..n]) + {row.token};
    }
    assert rows[..|rows|] == rows;
    totals := SortedEntries(sums);
  }

  lemma {:induction false} AbsentTokenHasNoTotal(rows: seq<StreamRow>, token: string)
    requires token !in Tokens(rows)
    ensures GroupTotal(rows, TokenOf, token) == 0
  {
    if rows != [] {
      var shorter, last := rows[..|rows| - 1], rows[|rows| - 1];
      assert last in rows && last.token in Tokens(rows);
      assert Tokens(shorter) <= Tokens(rows);
      AbsentTokenHasNoTotal(shorter, token);
    }
  }

  function Amounts(totals: seq<TokenTotal>): int {
    if totals == [] then 0 else Amounts(totals[..|totals| - 1]) + totals[|totals| - 1].amount
  }

  function TokenList(totals: seq<TokenTotal>): (r: seq<string>)
    ensures |r| == |totals| && forall i :: 0 <= i < |r| ==> r[i] == totals[i].tokenAddress
  {
    seq(|totals|, i requires 0 <= i < |totals| => totals[i].tokenAddress)
  }

  lemma {:induction false} AmountsAreGroupSums(rows: seq<StreamRow>, totals: seq<TokenTotal>)
    requires forall i :: 0 <= i < |totals| ==> totals[i].amount == GroupTotal(rows, TokenOf, totals[i].tokenAddress)
    ensures Amounts(totals) == SumOfGroups(rows, TokenOf, TokenList(totals))
  {
    if totals != [] {
      AmountsAreGroupSums(rows, totals[..|totals| - 1]);
      assert TokenList(totals)[..|totals| - 1] == TokenList(totals[..|totals| - 1]);
    }
  }

  /** Any output the method can give: no token twice, and the amounts are the whole total. */
  lemma TokenTotalsAddUp(rows: seq<StreamRow>, totals: seq<TokenTotal>)
    requires forall i, j :: 0 <= i < j < |totals| ==> Less(totals[i].tokenAddress, totals[j].tokenAddress)
    requires forall i :: 0 <= i < |totals| ==> totals[i].amount == GroupTotal(rows, TokenOf, totals[i].tokenAddress)
    requires forall token :: token in Tokens(rows) <==> token in TokenList(totals)
    ensures NoDuplicates(TokenList(totals)) && Amounts(totals) == CommittedTotal(rows)
  {
    var tokens := TokenList(totals);
    forall i, j | 0 <= i < j < |tokens| ensures tokens[i] != tokens[j] {
      LessIsAsymmetric(totals[i].tokenAddress, totals[j].tokenAddress);
    }
    forall row | row in rows ensures TokenOf(row) in tokens {
      assert row.token in Tokens(rows);
    }
    AmountsAreGroupSums(rows, totals);
    GroupsAddUp(rows, TokenOf, tokens);
  }

  // ---------- platform shares ----------

  /** `platformSharePercent` before its division by the scale: a truncated integer quotient. */
  function ScaledShare(ngoCommitted: int, platformCommitted: int): int {
    if platformCommitted > 0 then (ngoCommitted * 100 * PERCENT_SCALE) / platformCommitted else 0
  }

  /**
   The share is the largest number of units of a million-millionth of a percent that does not
   exceed the NGO's part of the platform; of an empty platform every NGO has none.
   */
  lemma ShareIsFloor(ngo: int, platform: int)
    ensures platform <= 0 ==> ScaledShare(ngo, platform) == 0
    ensures var share, unit := ScaledShare(ngo, platform), 1_000_000_000_000;
            0 < platform ==> share * platform <= ngo * 100 * unit < share * platform + platform
  {
    if 0 < platform {
      QuotientBounds(ngo * 100 * PERCENT_SCALE, platform);
    }
  }

  function SharesTotal(rows: seq<StreamRow>, ngos: seq<string>, platform: int): int {
    if ngos == [] then 0
    else SharesTotal(rows, ngos[..|ngos| - 1], platform)
         + ScaledShare(GroupTotal(rows, NgoOf, ngos[|ngos| - 1]), platform)
  }

  lemma QuotientBounds(x: int, y: int)
    requires 0 < y
    ensures x / y * y <= x < x / y * y + y
  {
  }

  /** One more quotient, in the arithmetic of the bracket alone. */
  lemma BracketStep(total: int, sum: int, quotient: int, amount: int, platform: int, whole: int, n: nat)
    requires 0 < platform && total * platform <= sum * whole <= total * platform + n * platform
    requires quotient * platform <= amount * whole < quotient * platform + platform
    ensures (total + quotient) * platform <= (sum + amount) * whole < (total + quotient) * platform + (n + 1) * platform
  {
    assert (total + quotient) * platform == total * platform + quotient * platform;
    assert (sum + amount) * whole == sum * whole + amount * whole;
    assert (n + 1) * platform == n * platform + platform;
  }

  /** Truncation loses less than one unit per NGO. */
  lemma {:induction false} SharesBracket(rows: seq<StreamRow>, ngos: seq<string>, platform: int)
    requires 0 < platform
    ensures
      var total, sum, whole := SharesTotal(rows, ngos, platform), SumOfGroups(rows, NgoOf, ngos), 100 * PERCENT_SCALE;
      && total * platform <= sum * whole <= total * platform + |ngos| * platform
      && (ngos != [] ==> sum * whole < total * platform + |ngos| * platform)
  {
    if ngos != [] {
      var shorter, last, whole := ngos[..|ngos| - 1], ngos[|ngos| - 1], 100 * PERCENT_SCALE;
      SharesBracket(rows, shorter, platform);
      var amount := GroupTotal(rows, NgoOf, last);
      assert amount * 100 * PERCENT_SCALE == amount * whole;
      QuotientBounds(amount * whole, platform);
      BracketStep(SharesTotal(rows, shorter, platform), SumOfGroups(rows, NgoOf, shorter),
        ScaledShare(amount, platform),
                  amount, platform, whole, |shorter|);
    }
  }

  lemma CancelFactor(a: int, b: int, p: int)
    requires 0 < p
    ensures a * p < b * p ==> a < b
    ensures a * p <= b * p ==> a <= b
  {
  }

  /** The shares of all NGOs add up to 100%, short by less than one unit of the scale per NGO. */
  lemma SharesAddUp(rows: seq<StreamRow>, ngos: seq<string>)
    requires NoDuplicates(ngos) && forall row <- rows :: NgoOf(row) in ngos
    requires 0 < CommittedTotal(rows)
    ensures var total := SharesTotal(rows, ngos, CommittedTotal(rows));
            100 * PERCENT_SCALE - |ngos| < total <= 100 * PERCENT_SCALE
  {
    var platform := CommittedTotal(rows);
    GroupsAddUp(rows, NgoOf, ngos);
    SharesBracket(rows, ngos, platform);
    FromBracket(SharesTotal(rows, ngos, platform), |ngos|, platform, 100 * PERCENT_SCALE);
  }

  lemma FromBracket(total: int, n: nat, platform: int, whole: int)
    requires 0 < platform && total * platform <= platform * whole < total * platform + n * platform
    ensures whole - n < total <= whole
  {
    CancelFactor(total, whole, platform);
    assert (total + n) * platform == total * platform + n * platform;
    CancelFactor(whole, total + n, platform);
  }

  lemma {:induction false} GroupWithinTotal(rows: seq<StreamRow>, column: StreamRow -> string, value: string)
    requires forall row <- rows :: 0 <= Committed(row)
    ensures 0 <= GroupTotal(rows, column, value) <= CommittedTotal(rows)
  {
    if rows != [] {
      assert rows[|rows| - 1] in rows;
      GroupWithinTotal(rows[..|rows| - 1], column, value);
    }
  }

  /** Each share is a percentage. */
  lemma ShareIsPercentage(rows: seq<StreamRow>, ngo: string)
    requires forall row <- rows :: 0 <= Committed(row)
    ensures 0 <= ScaledShare(GroupTotal(rows, NgoOf, ngo), CommittedTotal(rows)) <= 100 * PERCENT_SCALE
  {
    GroupWithinTotal(rows, NgoOf, ngo);
    var platform, amount := CommittedTotal(rows), GroupTotal(rows, NgoOf, ngo);
    if 0 < platform {
      QuotientBounds(amount * 100 * PERCENT_SCALE, platform);
      ShareFromBounds(ScaledShare(amount, platform), amount, platform, 100 * PERCENT_SCALE);
    }
  }

  lemma ShareFromBounds(share: int, amount: int, platform: int, whole: int)
    requires 0 < platform && 0 <= amount <= platform && 0 <= whole
    requires share * platform <= amount * whole < share * platform + platform
    ensures 0 <= share <= whole
  {
    assert 0 <= amount * whole <= platform * whole;
    CancelFactor(share, whole, platform);
    assert (share + 1) * platform == share * platform + platform;
    CancelFactor(0, share + 1, platform);
  }

  /** The four ways of adding up a reachable stream table give one number. */
  lemma AllTotalsAgree(db: Db, rows: seq<StreamRow>, ids: seq<int>, tokens: seq<string>, ngos: seq<string>,
                       donors: seq<string>)
    requires Reachable(db) && ListsStreams(rows, ids, db.tables)
    requires NoDuplicates(tokens) && NoDuplicates(ngos) && NoDuplicates(donors)
    requires forall row <- rows :: row.token in tokens && row.ngo in ngos && row.donor in donors
    ensures SumOfGroups(rows, TokenOf, tokens) == SumOfGroups(rows, NgoOf, ngos) == SumOfGroups(rows, DonorOf, donors)
            == CommittedTotal(rows) == StatusBlindTotal(rows)
  {
    GroupsAddUp(rows, TokenOf, tokens);
    GroupsAddUp(rows, NgoOf, ngos);
    GroupsAddUp(rows, DonorOf, donors);
    ReachableTotalsAgree(db, rows, ids);
  }
}
