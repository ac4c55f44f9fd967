/** What a dead letter says of its event, and that a replay can use it. */
module RecordedRows {
  import opened Wrappers
  import opened Events
  import opened DeadLetters
  import opened StreamTables
  import opened ChainLog
  import opened Worker
  import opened IndexerRuns
  import opened ReplayHandlers

  /** This row of the table is of that event, and nobody has resolved it. */
  ghost predicate RowOf(row: Row, e: ChainEvent) {
    Rebuilt(row, e) && row.resolvedAt.None? && 1 <= row.attempts
  }

  /** Every row that was not there at the start is of an event on the chain. */
  ghost predicate RowsAreOfEvents(start: Table, log: seq<ChainEvent>, t: Table) {
    forall id <- t :: id in start || exists i :: 0 <= i < |log| && log[i].id == id && RowOf(t[id], log[i])
  }

  lemma RecordedRow(t: Table, e: ChainEvent, error: string, stamp: Stamp)
    ensures e.id in Recorded(t, e.id, e.ledger, e.contractId, error, stamp)
    ensures var row := Recorded(t, e.id, e.ledger, e.contractId, error, stamp)[e.id];
            && (e.id !in t ==> RowOf(row, e))
            && (e.id in t && RowOf(t[e.id], e) ==> RowOf(row, e))
  {
  }

  lemma RecordedKeeps(start: Table, log: seq<ChainEvent>, t: Table, e: ChainEvent, error: string, stamp: Stamp)
    requires RowsAreOfEvents(start, log, t) && e in log
    requires forall i, j :: 0 <= i < j < |log| ==> log[i].id != log[j].id
    ensures RowsAreOfEvents(start, log, Recorded(t, e.id, e.ledger, e.contractId, error, stamp))
  {
    var t' := Recorded(t, e.id, e.ledger, e.contractId, error, stamp);
    RecordedRow(t, e, error, stamp);
    var k :| 0 <= k < |log| && log[k] == e;
    forall id | id in t' && id !in start
      ensures exists i :: 0 <= i < |log| && log[i].id == id && RowOf(t'[id], log[i])
    {
      if id == e.id {
        if id in t {
          var i :| 0 <= i < |log| && log[i].id == id && RowOf(t[id], log[i]);
          assert i == k;
        }
        assert log[k].id == id && RowOf(t'[id], log[k]);
      } else {
        var i :| 0 <= i < |log| && log[i].id == id && RowOf(t[id], log[i]);
        assert t'[id] == t[id];
      }
    }
  }

  /** The dead letters after one turn: as before, with the handler's recording, with the loop's, or both. */
  lemma TurnRecords(s: State, e: ChainEvent, a: Answer)
    ensures var s1 := AfterHandler(s, e, a);
            var dead := HandleOne(s, e, a).0.dead;
            && (s1.dead == s.dead || s1.dead == Recorded(s.dead, e.id, e.ledger, e.contractId, UNKNOWN_STREAM, a.stamp))
            && (|| dead == s.dead || dead == s1.dead
                || exists error :: dead == Recorded(s1.dead, e.id, e.ledger, e.contractId, error, a.deadStamp))
  {
    if a.death.Survives? {
      if Outcome(s.tables, e.message, a.fault).Returned? {
        WayOutOfReturn(s, e, a);
      } else {
        WaysOutOfCatch(s, e, a);
        CatchRecords(s, e, a);
      }
    }
  }

  lemma CatchRecords(s: State, e: ChainEvent, a: Answer)
    requires a.death.Survives? && Outcome(s.tables, e.message, a.fault).Threw?
    ensures var s1, error := AfterHandler(s, e, a), Outcome(s.tables, e.message, a.fault).error;
            var dead := HandleOne(s, e, a).0.dead;
            dead == s1.dead || dead == Recorded(s1.dead, e.id, e.ledger, e.contractId, error, a.deadStamp)
  {
  }

  lemma TurnKeepsRows(start: Table, s: State, e: ChainEvent, a: Answer)
    requires WfChain(s.chain) && e in s.chain.log && RowsAreOfEvents(start, s.chain.log, s.dead)
    ensures RowsAreOfEvents(start, s.chain.log, HandleOne(s, e, a).0.dead)
  {
    var s1, dead := AfterHandler(s, e, a), HandleOne(s, e, a).0.dead;
    TurnRecords(s, e, a);
    RecordedKeeps(start, s.chain.log, s.dead, e, UNKNOWN_STREAM, a.stamp);
    if dead != s.dead && dead != s1.dead {
      var error :| dead == Recorded(s1.dead, e.id, e.ledger, e.contractId, error, a.deadStamp);
      RecordedKeeps(start, s.chain.log, s1.dead, e, error, a.deadStamp);
    }
  }

  lemma TurnKeepsChain(s: State, e: ChainEvent, a: Answer)
    ensures HandleOne(s, e, a).0.chain == s.chain
  {
  }

  lemma {:induction false} PageKeepsRows(start: Table, s: State, events: seq<ChainEvent>, answers: seq<Answer>)
    requires WfChain(s.chain) && |events| <= |answers| && (forall e <- events :: e in s.chain.log)
    requires RowsAreOfEvents(start, s.chain.log, s.dead)
    ensures RowsAreOfEvents(start, s.chain.log, HandlePage(s, events, answers).0.dead)
    decreases |events|
  {
    if events != [] {
      var (s', exit) := HandleOne(s, events[0], answers[0]);
      TurnKeepsRows(start, s, events[0], answers[0]);
      TurnKeepsChain(s, events[0], answers[0]);
      if exit.Finished? {
        PageKeepsRows(start, s', events[1..], answers[1..]);
      }
    }
  }

  lemma LongerLogKeepsRows(start: Table, log: seq<ChainEvent>, log': seq<ChainEvent>, t: Table)
    requires RowsAreOfEvents(start, log, t) && log <= log'
    ensures RowsAreOfEvents(start, log', t)
  {
    forall id | id in t && id !in start
      ensures exists i :: 0 <= i < |log'| && log'[i].id == id && RowOf(t[id], log'[i])
    {
      var i :| 0 <= i < |log| && log[i].id == id && RowOf(t[id], log[i]);
      assert log'[i] == log[i];
    }
  }

  lemma PollFromKeepsRows(start: Table, cfg: Config, s: State, o: Oracle)
    requires s.mem.Some? && ValidOracle(cfg, s, o) && RowsAreOfEvents(start, s.chain.log, s.dead)
    ensures RowsAreOfEvents(start, o.scan.log, PollFrom(s, o).0.dead)
  {
    LongerLogKeepsRows(start, s.chain.log, o.scan.log, s.dead);
    if o.page.Page? {
      PageKeepsRows(start, s.(chain := o.scan), o.page.events, o.answers);
    }
  }

  /** The chain a poll leaves is the one its recordings are of. */
  lemma PollKeepsRows(start: Table, cfg: Config, s: State, o: Oracle)
    requires ValidOracle(cfg, s, o) && RowsAreOfEvents(start, s.chain.log, s.dead)
    ensures RowsAreOfEvents(start, Poll(cfg, s, o).0.chain.log, Poll(cfg, s, o).0.dead)
  {
    PollGrowsChain(cfg, s, o);
    if Poll(cfg, s, o).0.dead != s.dead {
      DeadChangesOnScan(cfg, s, o);
      if s.mem.Some? {
        PollFromKeepsRows(start, cfg, s, o);
      } else {
        PollFromKeepsRows(start, cfg, StartedAt(s, s.disk.value), o);
      }
    } else {
      LongerLogKeepsRows(start, s.chain.log, Poll(cfg, s, o).0.chain.log, s.dead);
    }
  }

  lemma DeadChangesOnScan(cfg: Config, s: State, o: Oracle)
    requires ValidOracle(cfg, s, o) && Poll(cfg, s, o).0.dead != s.dead
    ensures s.mem.Some? || s.disk.Some?
    ensures Poll(cfg, s, o) == PollFrom(if s.mem.Some? then s else StartedAt(s, s.disk.value), o)
    ensures Poll(cfg, s, o).0.chain == o.scan
  {
    if o.page.Page? {
      HandlePageSameChain((if s.mem.Some? || s.disk.None? then s else StartedAt(s, s.disk.value)).(chain := o.scan),
        o.page.events, o.answers);
    }
  }

  lemma {:induction false} RunKeepsRows(cfg: Config, xs: seq<Moment>, ms: seq<Move>, k: nat)
    requires IndexerRuns.IsRun(cfg, xs, ms) && Initial(xs[0]) && k < |xs|
    ensures RowsAreOfEvents(xs[0].state.dead, xs[k].state.chain.log, xs[k].state.dead)
  {
    if k > 0 {
      RunKeepsRows(cfg, xs, ms, k - 1);
      MoveKeepsRows(cfg, xs[0].state.dead, xs[k - 1], ms[k - 1], xs[k]);
    }
  }

  lemma MoveKeepsRows(cfg: Config, start: Table, x: Moment, m: Move, y: Moment)
    requires Next(cfg, x, m, y) && RowsAreOfEvents(start, x.state.chain.log, x.state.dead)
    ensures RowsAreOfEvents(start, y.state.chain.log, y.state.dead)
  {
    match m {
      case Growth(c) => LongerLogKeepsRows(start, x.state.chain.log, c.log, x.state.dead);
      case PollMove(o) => PollKeepsRows(start, cfg, x.state, o);
      case RestartMove =>
    }
  }

  /**
   In every run an event that the loop gave up as dead-lettered has a row that is its own: its
   id, ledger and contract, unresolved. (A row that was there before may say something else.)
   */
  lemma DeadLettersSayTheirEvent(cfg: Config, xs: seq<Moment>, ms: seq<Move>, k: nat, i: nat)
    requires IndexerRuns.IsRun(cfg, xs, ms) && Initial(xs[0]) && k < |xs| && i < |xs[k].state.life.history|
    requires var entry := xs[k].state.life.history[i];
             entry.fate.DeadLettered? && entry.event.id !in xs[0].state.dead
    ensures var e := xs[k].state.life.history[i].event;
            e.id in xs[k].state.dead && RowOf(xs[k].state.dead[e.id], e)
  {
    var s := xs[k].state;
    var e := s.life.history[i].event;
    RunKeepsGood(cfg, xs, ms, k);
    RunKeepsRows(cfg, xs, ms, k);
    EntryIsOnChain(s, i);
    var j :| 0 <= j < |s.chain.log| && s.chain.log[j].id == e.id && RowOf(s.dead[e.id], s.chain.log[j]);
  }

  lemma EntryIsOnChain(s: State, i: nat)
    requires Inv(s) && i < |s.life.history|
    ensures s.life.history[i].event in s.chain.log && WfChain(s.chain)
    ensures s.life.history[i].fate.DeadLettered? ==> s.life.history[i].event.id in s.dead
  {
    LiveIsCounted(s);
    SegmentEntries(s.chain, s.life.origin.value, s.mem.value, s.life.history);
  }

  /** The replay pass picks up an unresolved row, and resolves it iff it is watched and its dispatch goes well. */
  lemma UnresolvedRowIsReplayed(t: Table, t': Table, s: seq<Row>, watched: set<string>, outs: seq<Dispatch>, now: int,
                                id: EventId)
    returns (i: nat)
    requires |outs| == |s| && IsSnapshot(t, s) && ReplayedTable(t, t', s, watched, outs, now)
    requires id in t && t[id].eventId == id && t[id].resolvedAt.None?
    ensures i < |s| && s[i] == t[id] && id in t'
    ensures t'[id].resolvedAt.Some? <==> t[id].contractId.Some? && t[id].contractId.value in watched && outs[i].Returns?
    ensures t'[id].resolvedAt.Some? ==> t'[id].resolvedAt == Some(now)
  {
    assert t[id] in s;
    i :| 0 <= i < |s| && s[i] == t[id];
    assert ReplayOutcome(s[i], t'[s[i].eventId], watched, outs[i], now);
  }

  /**
   An event recorded for the first time can be replayed: the next pass resolves its row iff the
   event's contract is watched and the dispatcher returns without recording it again.
   */
  lemma FirstFailureIsReplayed(t: Table, e: ChainEvent, error: string, stamp: Stamp, t': Table, s: seq<Row>,
                               watched: set<string>, outs: seq<Dispatch>, now: int)
    returns (i: nat)
    requires e.id !in t && |outs| == |s|
    requires var recorded := Recorded(t, e.id, e.ledger, e.contractId, error, stamp);
             IsSnapshot(recorded, s) && ReplayedTable(recorded, t', s, watched, outs, now)
    ensures i < |s| && Rebuilt(s[i], e) && e.id in t'
    ensures t'[e.id].resolvedAt == Some(now) <==>
      e.contractId.Some? && e.contractId.value in watched && outs[i].Returns?
    ensures t'[e.id].ledger == e.ledger && t'[e.id].contractId == e.contractId
  {
    var recorded := Recorded(t, e.id, e.ledger, e.contractId, error, stamp);
    RecordedRow(t, e, error, stamp);
    i := UnresolvedRowIsReplayed(recorded, t', s, watched, outs, now, e.id);
    assert ReplayOutcome(s[i], t'[s[i].eventId], watched, outs[i], now);
  }

  /** From the poll to the replay: an event given up in a run is resolved by a pass under the same condition. */
  lemma DeadLetteredEventIsReplayed(cfg: Config, xs: seq<Moment>, ms: seq<Move>, k: nat, j: nat, t': Table,
                                    s: seq<Row>, watched: set<string>, outs: seq<Dispatch>, now: int)
    returns (i: nat)
    requires IndexerRuns.IsRun(cfg, xs, ms) && Initial(xs[0]) && k < |xs| && j < |xs[k].state.life.history|
    requires var entry := xs[k].state.life.history[j];
             entry.fate.DeadLettered? && entry.event.id !in xs[0].state.dead
    requires |outs| == |s| && IsSnapshot(xs[k].state.dead, s)
    requires ReplayedTable(xs[k].state.dead, t', s, watched, outs, now)
    ensures var e := xs[k].state.life.history[j].event;
            && i < |s| && Rebuilt(s[i], e) && e.id in t'
            && (t'[e.id].resolvedAt == Some(now) <==>
                  e.contractId.Some? && e.contractId.value in watched && outs[i].Returns?)
  {
    var e := xs[k].state.life.history[j].event;
    DeadLettersSayTheirEvent(cfg, xs, ms, k, j);
    i := UnresolvedRowIsReplayed(xs[k].state.dead, t', s, watched, outs, now, e.id);
  }
}
