/** Replaying dead letters through the event handlers themselves. */
module ReplayHandlers {
  import opened Wrappers
  import opened Events
  import opened DeadLetters
  import opened StreamTables

  const NO_CLOSE_TIME := "PrismaClientValidationError: invalid date"

  /** The handler writes the ledger's close time into a stream row. */
  predicate NeedsCloseTime(t: Tables, m: Message) {
    m.ToVault? && (|| m.vault.Created?
                   || (m.vault.Withdraw? && LiveStream(t, m.vault.streamId))
                   || (m.vault.Cancel? && LiveStream(t, m.vault.streamId)))
  }

  /** A rebuilt event has no close time, so a handler that needs one throws inside its transaction. */
  function ReplayFault(t: Tables, m: Message, fault: Fault): Fault {
    if NeedsCloseTime(t, m) && !fault.BeforeCommit? then BeforeCommit(NO_CLOSE_TIME) else fault
  }

  /** What the handlers do to a dead letter when its rebuilt event is dispatched again. */
  function DispatchOf(t: Tables, m: Message, fault: Fault): Dispatch {
    match Outcome(t, m, ReplayFault(t, m, fault))
    case Returned => if RecordsItself(t, m, fault) then Records(UNKNOWN_STREAM) else Returns
    case Threw(error) =>
      if RecordsItself(t, m, fault) then RecordsThenThrows(UNKNOWN_STREAM, error) else Throws(error)
  }

  function AfterReplay(t: Tables, event: ChainEvent, fault: Fault): Tables {
    if Commits(t, event.message, ReplayFault(t, event.message, fault))
    then Effect(t, event.message, event.txHash) else t
  }

  /** The stored fields that the rebuilt event carries. */
  predicate Rebuilt(row: Row, event: ChainEvent) {
    event.id == row.eventId && event.ledger == row.ledger && event.contractId == row.contractId
  }

  /** The tables after the first `n` turns of a pass. */
  function TablesAt(t: Tables, s: seq<Row>, es: seq<ChainEvent>, watched: set<string>, faults: seq<Fault>,
                    n: nat): Tables
    requires n <= |s| == |es| == |faults|
  {
    if n == 0 then t
    else
      var before := TablesAt(t, s, es, watched, faults, n - 1);
      if Watched(s[n - 1], watched) then AfterReplay(before, es[n - 1], faults[n - 1]) else before
  }

  function OutsOf(t: Tables, s: seq<Row>, es: seq<ChainEvent>, watched: set<string>,
                  faults: seq<Fault>): (outs: seq<Dispatch>)
    requires |s| == |es| == |faults|
    ensures |outs| == |s|
  {
    seq(|s|, i requires 0 <= i < |s| =>
      DispatchOf(TablesAt(t, s, es, watched, faults, i), es[i].message, faults[i]))
  }

  /** One turn of the replay loop, with the handlers as the dispatcher. */
  method ReplayEvent(db: StreamDb, dead: DeadLetterTable, row: Row, event: ChainEvent, watched: set<string>,
                     fault: Fault, now: int)
    returns (resolved: bool)
    requires row.eventId in dead.rows && dead.rows[row.eventId] == row && row.resolvedAt.None? && Rebuilt(row, event)
    modifies db, dead
    ensures db.View() == if Watched(row, watched) then AfterReplay(old(db.View()), event, fault) else old(db.View())
    ensures dead.rows.Keys == old(dead.rows.Keys)
    ensures ReplayOutcome(row, dead.rows[row.eventId], watched, DispatchOf(old(db.View()), event.message, fault), now)
    ensures forall id <- dead.rows :: id != row.eventId ==> dead.rows[id] == old(dead.rows)[id]
    ensures resolved == Resolves(row, watched, DispatchOf(old(db.View()), event.message, fault))
  {
    if !Watched(row, watched) {
      dead.Fail(row, UnwatchedError(row));
      return false;
    }
    var handled := db.Dispatch(event, ReplayFault(db.View(), event.message, fault), dead, Stamp("", now));
    resolved := dead.Settle(row, if handled.Threw? then Some(handled.error) else None, now);
  }

  lemma OutsAt(start: Tables, s: seq<Row>, es: seq<ChainEvent>, watched: set<string>, faults: seq<Fault>, i: nat)
    requires i < |s| == |es| == |faults|
    ensures var tables := TablesAt(start, s, es, watched, faults, i);
            && OutsOf(start, s, es, watched, faults)[i] == DispatchOf(tables, es[i].message, faults[i])
            && TablesAt(start, s, es, watched, faults, i + 1) ==
               if Watched(s[i], watched) then AfterReplay(tables, es[i], faults[i]) else tables
  {
  }

  /** The same turn within its pass over the rows that were unresolved in `t`. */
  method ReplayEventInPass(db: StreamDb, dead: DeadLetterTable, ghost start: Tables, ghost t: Table, s: seq<Row>,
                           es: seq<ChainEvent>, watched: set<string>, faults: seq<Fault>, now: int, i: nat,
                           ghost soFar: nat)
    returns (resolved: bool)
    requires i < |s| == |es| == |faults| && Rebuilt(s[i], es[i])
    requires InPass(t, dead.rows, s, watched, OutsOf(start, s, es, watched, faults), now, i, soFar)
    requires db.View() == TablesAt(start, s, es, watched, faults, i)
    modifies db, dead
    ensures InPass(t, dead.rows, s, watched, OutsOf(start, s, es, watched, faults), now, i + 1,
                   if resolved then soFar + 1 else soFar)
    ensures db.View() == TablesAt(start, s, es, watched, faults, i + 1)
  {
    ghost var outs := OutsOf(start, s, es, watched, faults);
    TurnMeetsItsRow(t, dead.rows, s, watched, outs, now, i, soFar);
    OutsAt(start, s, es, watched, faults, i);
    ghost var before := dead.rows;
    resolved := ReplayEvent(db, dead, s[i], es[i], watched, faults[i], now);
    TurnPasses(t, before, dead.rows, s, watched, outs, now, i, soFar);
  }

  /** A whole pass: each turn meets the tables the earlier turns left. */
  method ReplayPass(db: StreamDb, dead: DeadLetterTable, s: seq<Row>, es: seq<ChainEvent>, watched: set<string>,
                    faults: seq<Fault>, now: int)
    returns (report: Report)
    requires IsSnapshot(dead.rows, s) && |s| == |es| == |faults|
    requires forall i :: 0 <= i < |s| ==> Rebuilt(s[i], es[i])
    modifies db, dead
    ensures ReplayedTable(old(dead.rows), dead.rows, s, watched, OutsOf(old(db.View()), s, es, watched, faults), now)
    ensures db.View() == TablesAt(old(db.View()), s, es, watched, faults, |s|)
    ensures report.attempted == |s| == report.resolved + report.failed
    ensures report.resolved == ResolvedCount(s, watched, OutsOf(old(db.View()), s, es, watched, faults))
  {
    var resolved, failed := 0, 0;
    ghost var start, t := db.View(), dead.rows;
    PassStarts(t, s, watched, OutsOf(start, s, es, watched, faults), now);
    for i := 0 to |s|
      invariant resolved + failed == i
      invariant InPass(t, dead.rows, s, watched, OutsOf(start, s, es, watched, faults), now, i, resolved)
      invariant db.View() == TablesAt(start, s, es, watched, faults, i)
    {
      var ok := ReplayEventInPass(db, dead, start, t, s, es, watched, faults, now, i, resolved);
      if ok {
        resolved := resolved + 1;
      } else {
        failed := failed + 1;
      }
    }
    PassEnds(t, dead.rows, s, watched, OutsOf(start, s, es, watched, faults), now, resolved);
    report := Report(|s|, resolved, failed);
  }

  /** One row, replayed by the handlers on these tables. */
  ghost predicate CountsAttempts(before: Row, after: Row, watched: set<string>, tables: Tables, m: Message,
                                 fault: Fault) {
    && (after.attempts == before.attempts + 2 <==>
          Watched(before, watched) && UnknownStream(tables, m) && fault.AfterCommit?)
    && (after.attempts == before.attempts + 1 || after.attempts == before.attempts + 2)
    && (after.resolvedAt.Some? <==>
          && Watched(before, watched) && !UnknownStream(tables, m)
          && Outcome(tables, m, ReplayFault(tables, m, fault)).Returned?)
  }

  lemma HandlersCountAttempts(before: Row, after: Row, watched: set<string>, tables: Tables, m: Message, fault: Fault,
                              now: int)
    requires ReplayOutcome(before, after, watched, DispatchOf(tables, m, fault), now)
    ensures CountsAttempts(before, after, watched, tables, m, fault)
  {
  }

  /** No replay touches the stream or the donor table. */
  lemma ReplayLeavesStreams(t: Tables, event: ChainEvent, fault: Fault)
    ensures AfterReplay(t, event, fault).streams == t.streams && AfterReplay(t, event, fault).donors == t.donors
  {
  }

  /**
   A pass changes no stream and no donor row, whatever it replays: every event that would is
   refused for want of its close time.
   */
  lemma {:induction false} PassLeavesStreams(start: Tables, s: seq<Row>, es: seq<ChainEvent>, watched: set<string>,
                                             faults: seq<Fault>, n: nat)
    requires n <= |s| == |es| == |faults|
    ensures TablesAt(start, s, es, watched, faults, n).streams == start.streams
    ensures TablesAt(start, s, es, watched, faults, n).donors == start.donors
  {
    if n > 0 {
      PassLeavesStreams(start, s, es, watched, faults, n - 1);
      ReplayLeavesStreams(TablesAt(start, s, es, watched, faults, n - 1), es[n - 1], faults[n - 1]);
    }
  }

  /**
   "One attempt per pass" fails exactly for a watched row whose event withdraws from or cancels
   a stream unknown at that turn, when the transaction fails after the handler has recorded it;
   such a row gains two. A row is resolved iff its handler returns and knew the stream.
   */
  lemma AttemptsRiseByOne(start: Tables, t: Table, t': Table, s: seq<Row>, es: seq<ChainEvent>, watched: set<string>,
                          faults: seq<Fault>, now: int, i: nat)
    requires i < |s| == |es| == |faults| && IsSnapshot(t, s)
    requires ReplayedTable(t, t', s, watched, OutsOf(start, s, es, watched, faults), now)
    ensures s[i].eventId in t && s[i].eventId in t'
    ensures CountsAttempts(t[s[i].eventId], t'[s[i].eventId], watched,
                           TablesAt(start, s, es, watched, faults, i), es[i].message, faults[i])
  {
    OutsAt(start, s, es, watched, faults, i);
    HandlersCountAttempts(s[i], t'[s[i].eventId], watched, TablesAt(start, s, es, watched, faults, i),
                          es[i].message, faults[i], now);
  }

  /** The vault events a replay can settle: those with nothing left to write. */
  predicate NothingToWrite(t: Tables, m: Message, fault: Fault) {
    && m.ToVault?
    && (|| m.vault.IgnoredVaultTopic?
        || (&& (m.vault.Withdraw? || m.vault.Cancel?) && m.vault.streamId in t.streams
            && t.streams[m.vault.streamId].status.Cancelled? && !fault.BeforeCommit?))
  }

  lemma VaultSettlesIff(t: Tables, m: Message, fault: Fault)
    requires m.ToVault?
    ensures !UnknownStream(t, m) && Outcome(t, m, ReplayFault(t, m, fault)).Returned? <==> NothingToWrite(t, m, fault)
  {
  }

  /**
   A pass resolves a vault event's row iff its contract is watched and the event had nothing to
   write on the tables the pass began with: never a `created`, and never a withdrawal from or
   a cancellation of a stream that is live.
   */
  lemma VaultRowResolvedIff(start: Tables, t: Table, t': Table, s: seq<Row>, es: seq<ChainEvent>, watched: set<string>,
                            faults: seq<Fault>, now: int, i: nat)
    requires i < |s| == |es| == |faults| && IsSnapshot(t, s) && es[i].message.ToVault?
    requires ReplayedTable(t, t', s, watched, OutsOf(start, s, es, watched, faults), now)
    ensures s[i].eventId in t && s[i].eventId in t'
    ensures t'[s[i].eventId].resolvedAt.Some? <==>
      Watched(t[s[i].eventId], watched) && NothingToWrite(start, es[i].message, faults[i])
  {
    AttemptsRiseByOne(start, t, t', s, es, watched, faults, now, i);
    PassLeavesStreams(start, s, es, watched, faults, i);
    VaultSettlesIff(TablesAt(start, s, es, watched, faults, i), es[i].message, faults[i]);
  }
}
