/**
 The dead-letter table: recording a failure, replaying the unresolved rows, and expiring
 the resolved ones. A replayed event goes to a dispatcher the table knows nothing about;
 only what that dispatcher did to the table matters, and it is one of four things.
 */
module DeadLetters {
  import opened Wrappers
  import opened Events

  const MAX_ERROR_LENGTH := 2000
  const DAY_MS := 86_400_000
  const DEFAULT_RETENTION_DAYS := 90
  const MAX_SAFE_INTEGER := 9_007_199_254_740_991

  datatype Row = Row(
    id: string,
    eventId: EventId,
    ledger: nat,
    contractId: Option<string>,
    error: string,
    attempts: nat,
    resolvedAt: Option<int>,
    createdAt: int)

  /** The unique index on the event id is what makes the table a map. */
  type Table = map<EventId, Row>

  /** The random row id and the clock reading a fresh row receives. */
  datatype Stamp = Stamp(rowId: string, now: int)

  datatype Dispatch =
    | Returns
    | Records(error: string)
    | Throws(error: string)
    | RecordsThenThrows(recorded: string, thrown: string)

  datatype Report = Report(attempted: nat, resolved: nat, failed: nat)

  predicate Wf(t: Table) {
    forall id <- t :: t[id].eventId == id
  }

  function DescribeError(text: string): (r: string)
    ensures |r| <= MAX_ERROR_LENGTH && r <= text
    ensures |text| <= MAX_ERROR_LENGTH ==> r == text
  {
    if |text| <= MAX_ERROR_LENGTH then text else text[..MAX_ERROR_LENGTH]
  }

  /** The upsert: a known event keeps its row, its resolution and its creation time. */
  function Recorded(t: Table, eventId: EventId, ledger: nat, contractId: Option<string>, error: string,
                    stamp: Stamp): Table {
    if eventId in t then
      t[eventId := t[eventId].(error := DescribeError(error), attempts := t[eventId].attempts + 1)]
    else
      t[eventId := Row(stamp.rowId, eventId, ledger, contractId, DescribeError(error), 1, None, stamp.now)]
  }

  /**
   What a recording leaves of the event's row: a new one with its first attempt, or the old one
   with one attempt more. The newest error wins, and a resolution stands.
   */
  lemma RecordingSays(t: Table, eventId: EventId, ledger: nat, contractId: Option<string>, error: string, stamp: Stamp)
    ensures var t' := Recorded(t, eventId, ledger, contractId, error, stamp);
            && t'.Keys == t.Keys + {eventId}
            && (forall id <- t :: id != eventId ==> t'[id] == t[id])
            && t'[eventId].error == DescribeError(error)
            && (eventId !in t ==>
                  var row := t'[eventId];
                  && row.eventId == eventId && row.ledger == ledger && row.contractId == contractId
                  && row.attempts == 1 && row.resolvedAt == None
                  && row.id == stamp.rowId && row.createdAt == stamp.now)
            && (eventId in t ==>
                  var (before, after) := (t[eventId], t'[eventId]);
                  && after.attempts == before.attempts + 1 && after.resolvedAt == before.resolvedAt
                  && after.id == before.id && after.createdAt == before.createdAt && after.eventId == before.eventId
                  && after.ledger == before.ledger && after.contractId == before.contractId)
  {
  }

  function Bumped(t: Table, eventId: EventId, error: string): Table
    requires eventId in t
  {
    t[eventId := t[eventId].(error := DescribeError(error), attempts := t[eventId].attempts + 1)]
  }

  function Resolved(t: Table, eventId: EventId, now: int): Table
    requires eventId in t
  {
    t[eventId := t[eventId].(resolvedAt := Some(now), attempts := t[eventId].attempts + 1)]
  }

  predicate Watched(row: Row, watched: set<string>) {
    row.contractId.Some? && row.contractId.value in watched
  }

  predicate Resolves(row: Row, watched: set<string>, out: Dispatch) {
    Watched(row, watched) && out.Returns?
  }

  /** How far one replay attempt moves a row's `attempts` counter. */
  function AttemptsAdded(row: Row, watched: set<string>, out: Dispatch): nat {
    if Watched(row, watched) && out.RecordsThenThrows? then 2 else 1
  }

  /** What the dispatcher itself writes: a repeated failure of a row that already exists. */
  function Dispatched(t: Table, row: Row, out: Dispatch): Table {
    match out
    case Records(error) => Recorded(t, row.eventId, row.ledger, row.contractId, error, Stamp("", 0))
    case RecordsThenThrows(error, _) => Recorded(t, row.eventId, row.ledger, row.contractId, error, Stamp("", 0))
    case _ => t
  }

  function ThrownBy(out: Dispatch): Option<string> {
    match out
    case Throws(error) => Some(error)
    case RecordsThenThrows(_, error) => Some(error)
    case _ => None
  }

  /** The rows a replay pass reads up front: every unresolved row once, oldest ledger first. */
  ghost predicate IsSnapshot(t: Table, s: seq<Row>) {
    && (forall i :: 0 <= i < |s| ==> s[i].eventId in t && t[s[i].eventId] == s[i] && s[i].resolvedAt.None?)
    && (forall i, j :: 0 <= i < j < |s| ==> s[i].eventId != s[j].eventId && s[i].ledger <= s[j].ledger)
    && (forall id <- t :: t[id].resolvedAt.None? ==> t[id] in s)
  }

  /** Why a row whose contract is no longer watched is not dispatched at all. */
  function UnwatchedError(row: Row): string {
    "contract " + (if row.contractId.Some? then row.contractId.value else "<none>")
    + " is not one of the currently watched contracts"
  }

  /** The latest failure's text; a success leaves the old one standing. */
  function ErrorLeft(row: Row, watched: set<string>, out: Dispatch): string {
    if !Watched(row, watched) then DescribeError(UnwatchedError(row))
    else
      match out
      case Returns => row.error
      case Records(error) => DescribeError(error)
      case Throws(error) => DescribeError(error)
      case RecordsThenThrows(_, error) => DescribeError(error)
  }

  /** The row a pass leaves behind for one attempted row. */
  ghost predicate ReplayOutcome(before: Row, after: Row, watched: set<string>, out: Dispatch, now: int) {
    after == before.(
      error := ErrorLeft(before, watched, out),
      attempts := before.attempts + AttemptsAdded(before, watched, out),
      resolvedAt := if Resolves(before, watched, out) then Some(now) else None)
  }

  function ResolvedCount(s: seq<Row>, watched: set<string>, outs: seq<Dispatch>): nat
    requires |outs| == |s|
  {
    if s == [] then 0
    else
      ResolvedCount(s[..|s| - 1], watched, outs[..|s| - 1])
      + if Resolves(s[|s| - 1], watched, outs[|s| - 1]) then 1 else 0
  }

  ghost predicate ReplayedTable(t: Table, t': Table, s: seq<Row>, watched: set<string>, outs: seq<Dispatch>, now: int)
    requires |outs| == |s|
  {
    && t'.Keys == t.Keys
    && (forall i :: 0 <= i < |s| ==> s[i].eventId in t' && ReplayOutcome(s[i], t'[s[i].eventId], watched, outs[i], now))
    && (forall id <- t :: (forall i :: 0 <= i < |s| ==> s[i].eventId != id) ==> t'[id] == t[id])
  }

  /** The pass after `n` turns: earlier rows are settled, later ones and the rest are as they were. */
  ghost predicate ReplayedUpTo(t: Table, t': Table, s: seq<Row>, watched: set<string>, outs: seq<Dispatch>, now: int,
                               n: nat)
    requires n <= |s| == |outs|
  {
    && t'.Keys == t.Keys
    && (forall i :: 0 <= i < |s| ==> s[i].eventId in t')
    && (forall i :: 0 <= i < n ==> ReplayOutcome(s[i], t'[s[i].eventId], watched, outs[i], now))
    && (forall i :: n <= i < |s| ==> t'[s[i].eventId] == s[i])
    && (forall id <- t :: (forall i :: 0 <= i < |s| ==> s[i].eventId != id) ==> t'[id] == t[id])
  }

  lemma ReplayedOneMore(t: Table, t1: Table, t2: Table, s: seq<Row>, watched: set<string>, outs: seq<Dispatch>,
                        now: int, n: nat)
    requires n < |s| == |outs| && IsSnapshot(t, s) && ReplayedUpTo(t, t1, s, watched, outs, now, n)
    requires t2.Keys == t1.Keys && ReplayOutcome(s[n], t2[s[n].eventId], watched, outs[n], now)
    requires forall id <- t2 :: id != s[n].eventId ==> t2[id] == t1[id]
    ensures ReplayedUpTo(t, t2, s, watched, outs, now, n + 1)
  {
    assert forall i :: 0 <= i < |s| && i != n ==> s[i].eventId != s[n].eventId;
  }

  lemma ResolvedCountOneMore(s: seq<Row>, watched: set<string>, outs: seq<Dispatch>, n: nat)
    requires n < |s| == |outs|
    ensures ResolvedCount(s[..n + 1], watched, outs[..n + 1])
         == ResolvedCount(s[..n], watched, outs[..n]) + if Resolves(s[n], watched, outs[n]) then 1 else 0
  {
    assert s[..n + 1][..n] == s[..n] && outs[..n + 1][..n] == outs[..n];
  }

  /** Where a pass over the rows unresolved in `t` stands after `n` turns. */
  ghost predicate InPass(t: Table, t': Table, s: seq<Row>, watched: set<string>, outs: seq<Dispatch>, now: int,
                         n: nat, resolved: nat)
    requires n <= |s| == |outs|
  {
    && IsSnapshot(t, s)
    && ReplayedUpTo(t, t', s, watched, outs, now, n)
    && resolved == ResolvedCount(s[..n], watched, outs[..n])
  }

  lemma PassStarts(t: Table, s: seq<Row>, watched: set<string>, outs: seq<Dispatch>, now: int)
    requires |s| == |outs| && IsSnapshot(t, s)
    ensures InPass(t, t, s, watched, outs, now, 0, 0)
  {
  }

  lemma TurnMeetsItsRow(t: Table, t1: Table, s: seq<Row>, watched: set<string>, outs: seq<Dispatch>, now: int,
                        n: nat, resolved: nat)
    requires n < |s| == |outs| && InPass(t, t1, s, watched, outs, now, n, resolved)
    ensures s[n].eventId in t1 && t1[s[n].eventId] == s[n] && s[n].resolvedAt.None?
  {
  }

  lemma TurnPasses(t: Table, t1: Table, t2: Table, s: seq<Row>, watched: set<string>, outs: seq<Dispatch>, now: int,
                   n: nat, resolved: nat)
    requires n < |s| == |outs| && InPass(t, t1, s, watched, outs, now, n, resolved)
    requires t2.Keys == t1.Keys && s[n].eventId in t2 && ReplayOutcome(s[n], t2[s[n].eventId], watched, outs[n], now)
    requires forall id <- t2 :: id != s[n].eventId ==> t2[id] == t1[id]
    ensures InPass(t, t2, s, watched, outs, now, n + 1,
                   if Resolves(s[n], watched, outs[n]) then resolved + 1 else resolved)
  {
    ReplayedOneMore(t, t1, t2, s, watched, outs, now, n);
    ResolvedCountOneMore(s, watched, outs, n);
  }

  lemma PassEnds(t: Table, t': Table, s: seq<Row>, watched: set<string>, outs: seq<Dispatch>, now: int, resolved: nat)
    requires |s| == |outs| && InPass(t, t', s, watched, outs, now, |s|, resolved)
    ensures ReplayedTable(t, t', s, watched, outs, now) && resolved == ResolvedCount(s, watched, outs)
  {
    assert s[..|s|] == s && outs[..|s|] == outs;
  }

  predicate Expired(row: Row, cutoff: int) {
    row.resolvedAt.Some? && row.resolvedAt.value < cutoff
  }

  function Pruned(t: Table, cutoff: int): Table {
    map id | id in t && !Expired(t[id], cutoff) :: t[id]
  }

  function RetentionDays(configured: Option<int>): (days: int)
    ensures 0 < days
    ensures configured.Some? && 0 < configured.value <= MAX_SAFE_INTEGER ==> days == configured.value
    ensures configured.None? || !(0 < configured.value <= MAX_SAFE_INTEGER) ==> days == 90
  {
    if configured.Some? && 0 < configured.value <= MAX_SAFE_INTEGER then configured.value else DEFAULT_RETENTION_DAYS
  }

  /**
   Which rows retention deletes: those resolved more than the retention time ago, by default 90
   days. An unresolved row stays however old it is, and what stays is as it was.
   */
  lemma RetentionDeletesOldResolved(t: Table, now: int, configured: Option<int>, id: EventId)
    ensures var days := if configured.Some? && 0 < configured.value <= 9_007_199_254_740_991 then configured.value
                        else 90;
            var t' := Pruned(t, now - RetentionDays(configured) * DAY_MS);
            && (id in t' ==> id in t && t'[id] == t[id])
            && (id in t && id !in t' <==>
                  id in t && t[id].resolvedAt != None && t[id].resolvedAt.value < now - days * 86_400_000)
  {
  }

  class DeadLetterTable {
    var rows: Table

    constructor ()
      ensures rows == map[]
    {
      rows := map[];
    }

    /** `recordDeadLetter`: one upsert on the unique event id. */
    method Record(eventId: EventId, ledger: nat, contractId: Option<string>, error: string, stamp: Stamp)
      modifies this
      ensures rows == Recorded(old(rows), eventId, ledger, contractId, error, stamp)
    {
      var text := DescribeError(error);
      if eventId in rows {
        var row := rows[eventId];
        rows := rows[eventId := row.(error := text, attempts := row.attempts + 1)];
      } else {
        rows := rows[eventId := Row(stamp.rowId, eventId, ledger, contractId, text, 1, None, stamp.now)];
      }
    }

    /** A failed attempt: the error is noted and counted. */
    method Fail(row: Row, error: string)
      requires row.eventId in rows
      modifies this
      ensures rows == Bumped(old(rows), row.eventId, error)
    {
      rows := Bumped(rows, row.eventId, error);
    }

    /** After the dispatcher: a throw fails the attempt, and so does a failure it recorded itself. */
    method Settle(row: Row, thrown: Option<string>, now: int) returns (resolved: bool)
      requires row.eventId in rows
      modifies this
      ensures resolved <==> thrown.None? && old(rows)[row.eventId].attempts <= row.attempts
      ensures rows ==
        if thrown.Some? then Bumped(old(rows), row.eventId, thrown.value)
        else if resolved then Resolved(old(rows), row.eventId, now)
        else old(rows)
    {
      resolved := false;
      if thrown.Some? {
        Fail(row, thrown.value);
        return;
      }
      var current := rows[row.eventId];
      if current.attempts > row.attempts {
        return;
      }
      rows := Resolved(rows, row.eventId, now);
      resolved := true;
    }

    /** One turn of the replay loop, with any dispatcher. */
    method ReplayRow(row: Row, watched: set<string>, out: Dispatch, now: int) returns (resolved: bool)
      requires row.eventId in rows && rows[row.eventId] == row && row.resolvedAt.None?
      modifies this
      ensures rows.Keys == old(rows.Keys)
      ensures ReplayOutcome(row, rows[row.eventId], watched, out, now)
      ensures forall id <- rows :: id != row.eventId ==> rows[id] == old(rows)[id]
      ensures resolved == Resolves(row, watched, out)
    {
      if !Watched(row, watched) {
        Fail(row, UnwatchedError(row));
        return false;
      }
      rows := Dispatched(rows, row, out);
      resolved := Settle(row, ThrownBy(out), now);
    }

    /** The same turn within its pass over the rows that were unresolved in `t`. */
    method ReplayTurn(ghost t: Table, snapshot: seq<Row>, watched: set<string>, outs: seq<Dispatch>, now: int,
                      i: nat, ghost soFar: nat)
      returns (resolved: bool)
      requires i < |snapshot| == |outs| && InPass(t, rows, snapshot, watched, outs, now, i, soFar)
      modifies this
      ensures InPass(t, rows, snapshot, watched, outs, now, i + 1, if resolved then soFar + 1 else soFar)
    {
      TurnMeetsItsRow(t, rows, snapshot, watched, outs, now, i, soFar);
      ghost var before := rows;
      resolved := ReplayRow(snapshot[i], watched, outs[i], now);
      TurnPasses(t, before, rows, snapshot, watched, outs, now, i, soFar);
    }

    /** `replayDeadLetters`: every unresolved row, oldest first, one at a time. */
    method Replay(snapshot: seq<Row>, watched: set<string>, outs: seq<Dispatch>, now: int) returns (report: Report)
      requires IsSnapshot(rows, snapshot) && |outs| == |snapshot|
      modifies this
      ensures ReplayedTable(old(rows), rows, snapshot, watched, outs, now)
      ensures report.attempted == |snapshot| == report.resolved + report.failed
      ensures report.resolved == ResolvedCount(snapshot, watched, outs)
    {
      var resolved, failed := 0, 0;
      PassStarts(rows, snapshot, watched, outs, now);
      for i := 0 to |snapshot|
        invariant resolved + failed == i
        invariant InPass(old(rows), rows, snapshot, watched, outs, now, i, resolved)
      {
        var ok := ReplayTurn(old(rows), snapshot, watched, outs, now, i, resolved);
        if ok {
          resolved := resolved + 1;
        } else {
          failed := failed + 1;
        }
      }
      PassEnds(old(rows), rows, snapshot, watched, outs, now, resolved);
      report := Report(|snapshot|, resolved, failed);
    }

    /** The dead-letter half of `pruneOldLogs`. */
    method Prune(now: int, configured: Option<int>) returns (count: nat)
      modifies this
      ensures rows == Pruned(old(rows), now - RetentionDays(configured) * DAY_MS)
      ensures count == |old(rows)| - |rows|
    {
      var cutoff := now - RetentionDays(configured) * DAY_MS;
      var kept := Pruned(rows, cutoff);
      assert kept.Keys <= rows.Keys;
      FewerKeys(kept, rows);
      count := |rows| - |kept|;
      rows := kept;
    }
  }

  lemma FewerKeys(a: Table, b: Table)
    requires a.Keys <= b.Keys
    ensures |a| <= |b|
  {
    var rest := b.Keys - a.Keys;
    assert b.Keys == a.Keys + rest;
    assert |b.Keys| == |a.Keys| + |rest|;
  }

  // ---------- whole runs ----------

  /** Any one change to the table: a recording, a whole replay pass, or a prune. */
  datatype Op =
    | RecordOp(eventId: EventId, ledger: nat, contractId: Option<string>, error: string, stamp: Stamp)
    | ReplayOp(snapshot: seq<Row>, watched: set<string>, outs: seq<Dispatch>, now: int)
    | PruneOp(cutoff: int)

  ghost predicate Step(t: Table, op: Op, t': Table) {
    match op
    case RecordOp(eventId, ledger, contractId, error, stamp) =>
      t' == Recorded(t, eventId, ledger, contractId, error, stamp)
    case ReplayOp(snapshot, watched, outs, now) =>
      |outs| == |snapshot| && IsSnapshot(t, snapshot) && ReplayedTable(t, t', snapshot, watched, outs, now)
    case PruneOp(cutoff) => t' == Pruned(t, cutoff)
  }

  /** A run is the table before each operation and after the last. */
  ghost predicate IsRun(tables: seq<Table>, ops: seq<Op>) {
    && |tables| == |ops| + 1
    && forall k :: 0 <= k < |ops| ==> Step(tables[k], ops[k], tables[k + 1])
  }

  /** What one operation may do to the row of an event that has one. */
  ghost predicate KeepsRow(t: Table, t': Table, id: EventId)
    requires id in t
  {
    && (id !in t' ==> t[id].resolvedAt.Some?)
    && (id in t' ==>
        && t'[id].id == t[id].id && t'[id].createdAt == t[id].createdAt
        && t[id].attempts <= t'[id].attempts
        && (t[id].resolvedAt.Some? ==> t'[id].resolvedAt == t[id].resolvedAt))
  }

  lemma StepKeepsRow(t: Table, op: Op, t': Table, id: EventId)
    requires Wf(t) && id in t && Step(t, op, t')
    ensures KeepsRow(t, t', id)
  {
    if op.ReplayOp? {
      if i :| 0 <= i < |op.snapshot| && op.snapshot[i].eventId == id {
        assert ReplayOutcome(op.snapshot[i], t'[id], op.watched, op.outs[i], op.now);
      }
    }
  }

  lemma StepKeepsWf(t: Table, op: Op, t': Table)
    requires Wf(t) && Step(t, op, t')
    ensures Wf(t')
  {
    if op.ReplayOp? {
      forall id <- t' ensures t'[id].eventId == id {
        if i :| 0 <= i < |op.snapshot| && op.snapshot[i].eventId == id {
          assert ReplayOutcome(op.snapshot[i], t'[id], op.watched, op.outs[i], op.now);
        }
      }
    }
  }

  lemma {:induction false} RunKeepsWf(tables: seq<Table>, ops: seq<Op>, k: nat)
    requires IsRun(tables, ops) && Wf(tables[0]) && k <= |ops|
    ensures Wf(tables[k])
  {
    if k > 0 {
      RunKeepsWf(tables, ops, k - 1);
      StepKeepsWf(tables[k - 1], ops[k - 1], tables[k]);
    }
  }

  /** An unresolved row outlives every run that never resolves it; its counter only grows. */
  lemma {:induction false} UnresolvedRowSurvives(tables: seq<Table>, ops: seq<Op>, id: EventId, k: nat)
    requires IsRun(tables, ops) && Wf(tables[0]) && id in tables[0] && k <= |ops|
    requires forall j :: 0 <= j < k && id in tables[j] ==> tables[j][id].resolvedAt.None?
    ensures id in tables[k] && tables[k][id].id == tables[0][id].id
    ensures tables[0][id].attempts <= tables[k][id].attempts
  {
    if k > 0 {
      UnresolvedRowSurvives(tables, ops, id, k - 1);
      RunKeepsWf(tables, ops, k - 1);
      StepKeepsRow(tables[k - 1], ops[k - 1], tables[k], id);
    }
  }

  /** While a resolved row exists, nothing reopens it or moves its resolution time. */
  lemma {:induction false} ResolutionIsNeverUndone(tables: seq<Table>, ops: seq<Op>, id: EventId, k: nat)
    requires IsRun(tables, ops) && Wf(tables[0]) && k <= |ops|
    requires forall j :: 0 <= j <= k ==> id in tables[j]
    requires tables[0][id].resolvedAt.Some?
    ensures tables[k][id].resolvedAt == tables[0][id].resolvedAt && tables[k][id].id == tables[0][id].id
  {
    if k > 0 {
      ResolutionIsNeverUndone(tables, ops, id, k - 1);
      RunKeepsWf(tables, ops, k - 1);
      StepKeepsRow(tables[k - 1], ops[k - 1], tables[k], id);
    }
  }

  /** Two passes in a row never retry what the first one resolved. */
  lemma ResolvedRowsAreNotReplayed(t: Table, t': Table, s: seq<Row>, s': seq<Row>, watched: set<string>,
                                   outs: seq<Dispatch>, now: int, i: nat, j: nat)
    requires Wf(t) && |outs| == |s| && IsSnapshot(t, s)
    requires ReplayedTable(t, t', s, watched, outs, now) && IsSnapshot(t', s')
    requires i < |s| && j < |s'| && Resolves(s[i], watched, outs[i])
    ensures s'[j].eventId != s[i].eventId
  {
    assert ReplayOutcome(s[i], t'[s[i].eventId], watched, outs[i], now);
  }
}
