/** What the process after a crash does to the tables with the events it is handed again. */
module CrashDrift {
  import opened Wrappers
  import opened Events
  import opened StreamTables
  import opened ChainLog
  import opened Redelivery
  import opened Worker
  import opened IndexerRuns

  /** The events of a history whose handlers committed. */
  function CommittedEvents(h: seq<Entry>): seq<ChainEvent> {
    if h == [] then []
    else CommittedEvents(h[..|h| - 1]) + if h[|h| - 1].committed then [h[|h| - 1].event] else []
  }

  lemma EffectAllSnoc(t: Tables, es: seq<ChainEvent>, e: ChainEvent)
    ensures EffectAll(t, es + [e]) == Effect(EffectAll(t, es), e.message, e.txHash)
  {
    assert (es + [e])[..|es|] == es;
  }

  lemma {:induction false} ReplayIsEffectAll(t: Tables, h: seq<Entry>)
    ensures ReplayHistory(t, h) == EffectAll(t, CommittedEvents(h))
  {
    if h != [] {
      var shorter := h[..|h| - 1];
      ReplayIsEffectAll(t, shorter);
      EffectAllSnoc(t, CommittedEvents(shorter), h[|h| - 1].event);
      assert CommittedEvents(shorter) + [] == CommittedEvents(shorter);
    }
  }

  lemma {:induction false} ReplaySplits(t: Tables, a: seq<Entry>, b: seq<Entry>)
    ensures ReplayHistory(t, a + b) == ReplayHistory(ReplayHistory(t, a), b)
  {
    if b == [] {
      assert a + b == a;
    } else {
      var ab := a + b;
      assert ab[..|ab| - 1] == a + b[..|b| - 1];
      ReplaySplits(t, a, b[..|b| - 1]);
    }
  }

  /** What was committed after the saved position: the unsaved events, and the one in flight. */
  function Unsaved(s: State): seq<ChainEvent>
    requires s.mem.Some? && s.disk.Some? && s.life.origin.Some? && 0 <= SavedPrefix(s) <= |s.life.history|
    requires s.life.pending ==> Index(s.chain, s.mem.value) < |s.chain.log|
  {
    CommittedEvents(s.life.history[SavedPrefix(s)..])
    + if s.life.pending then [s.chain.log[Index(s.chain, s.mem.value)]] else []
  }

  /** The tables as they were for the saved position. */
  function SavedTables(s: State): Tables
    requires s.mem.Some? && s.disk.Some? && s.life.origin.Some? && 0 <= SavedPrefix(s) <= |s.life.history|
  {
    ReplayHistory(s.life.base, s.life.history[..SavedPrefix(s)])
  }

  lemma TailReplays(base: Tables, h: seq<Entry>, n: nat)
    requires n <= |h|
    ensures ReplayHistory(base, h) == EffectAll(ReplayHistory(base, h[..n]), CommittedEvents(h[n..]))
  {
    assert h == h[..n] + h[n..];
    ReplaySplits(base, h[..n], h[n..]);
    ReplayIsEffectAll(ReplayHistory(base, h[..n]), h[n..]);
  }

  lemma TablesAreSavedAndUnsaved(s: State)
    requires Inv(s) && s.mem.Some? && s.disk.Some?
    ensures s.life.origin.Some? && 0 <= SavedPrefix(s) <= |s.life.history|
    ensures s.life.pending ==> Index(s.chain, s.mem.value) < |s.chain.log|
    ensures s.tables == EffectAll(SavedTables(s), Unsaved(s))
  {
    SavedPrefixCounts(s);
    TailReplays(s.life.base, s.life.history, SavedPrefix(s));
    var es := CommittedEvents(s.life.history[SavedPrefix(s)..]);
    if s.life.pending {
      EffectAllSnoc(SavedTables(s), es, s.chain.log[Index(s.chain, s.mem.value)]);
    } else {
      assert es + [] == es;
    }
  }

  // ---------- one process ----------

  /** Everything a process has committed: its history's commits, and the one in flight. */
  function CommittedSince(s: State): seq<ChainEvent>
    requires s.mem.Some? && s.life.pending ==> Index(s.chain, s.mem.value) < |s.chain.log|
  {
    if s.mem.None? then []
    else
      CommittedEvents(s.life.history)
      + if s.life.pending then [s.chain.log[Index(s.chain, s.mem.value)]] else []
  }

  lemma LifeTables(s: State)
    requires Inv(s)
    ensures s.mem.Some? && s.life.pending ==> Index(s.chain, s.mem.value) < |s.chain.log|
    ensures s.tables == EffectAll(s.life.base, CommittedSince(s))
  {
    if s.mem.Some? {
      var es := CommittedEvents(s.life.history);
      ReplayIsEffectAll(s.life.base, s.life.history);
      if s.life.pending {
        EffectAllSnoc(s.life.base, es, s.chain.log[Index(s.chain, s.mem.value)]);
      } else {
        assert es + [] == es;
      }
    }
  }

  /** A process either still has no position and has touched nothing, or goes on from where it began. */
  ghost predicate SameProcess(cfg: Config, b: State, s: State) {
    && b.chain.tip <= s.chain.tip
    && (s.mem.None? ==> s.tables == b.tables && s.disk == b.disk && s.life == b.life)
    && (s.mem.Some? ==> s.life.base == b.tables && BeginsAfter(cfg, b, s.life.origin))
  }

  /** The saved position, or else the configured ledger, or else a tip read since. */
  predicate BeginsAfter(cfg: Config, b: State, origin: Option<Position>) {
    if b.disk.Some? then origin == b.disk
    else if cfg.start.Some? then origin == Some(At(cfg.start.value, None))
    else origin.Some? && origin.value.eventId.None? && b.chain.tip <= origin.value.ledger
  }

  lemma MoveSameProcess(cfg: Config, b: State, x: Moment, m: Move, y: Moment)
    requires Good(x) && b.mem.None? && SameProcess(cfg, b, x.state) && Next(cfg, x, m, y) && !m.RestartMove?
    ensures SameProcess(cfg, b, y.state)
  {
    StepShape(cfg, x, m, y);
  }

  lemma {:induction false} RunSameProcess(cfg: Config, xs: seq<Moment>, ms: seq<Move>, b: nat, j: nat)
    requires IsRun(cfg, xs, ms) && Good(xs[0]) && b <= j < |xs| && xs[b].state.mem.None? && NoRestart(ms, b, j)
    ensures SameProcess(cfg, xs[b].state, xs[j].state)
  {
    RunKeepsGoodFrom(cfg, xs, ms, b);
    if b < j {
      RunSameProcess(cfg, xs, ms, b, j - 1);
      RunKeepsGoodFrom(cfg, xs, ms, j - 1);
      MoveSameProcess(cfg, xs[b].state, xs[j - 1], ms[j - 1], xs[j]);
    }
  }

  /** A process's tables are the ones it found, with everything it committed applied once. */
  lemma ProcessTables(cfg: Config, xs: seq<Moment>, ms: seq<Move>, b: nat, j: nat)
    requires IsRun(cfg, xs, ms) && Initial(xs[0]) && b <= j < |xs| && xs[b].state.mem.None? && NoRestart(ms, b, j)
    ensures var s := xs[j].state;
            && (s.mem.Some? && s.life.pending ==> Index(s.chain, s.mem.value) < |s.chain.log|)
            && s.tables == EffectAll(xs[b].state.tables, CommittedSince(s))
  {
    RunKeepsGood(cfg, xs, ms, b);
    RunKeepsGood(cfg, xs, ms, j);
    RunSameProcess(cfg, xs, ms, b, j);
    LifeTables(xs[j].state);
  }

  // ---------- amounts stay non-negative ----------

  lemma {:induction false} CommittedAreEntries(h: seq<Entry>)
    ensures forall e <- CommittedEvents(h) :: e in EventsOf(h)
  {
    if h != [] {
      var shorter := h[..|h| - 1];
      CommittedAreEntries(shorter);
      assert EventsOf(h) == EventsOf(shorter) + [h[|h| - 1].event];
    }
  }

  lemma CommittedAreOnChain(s: State)
    requires Inv(s)
    ensures s.mem.Some? && s.life.pending ==> Index(s.chain, s.mem.value) < |s.chain.log|
    ensures forall e <- CommittedSince(s) :: e in s.chain.log
  {
    if s.mem.Some? {
      CommittedAreEntries(s.life.history);
      forall e | e in EventsOf(s.life.history) ensures e in s.chain.log {
      }
    }
  }

  /** The moment at which the process of this moment began. */
  lemma {:induction false} ProcessStart(cfg: Config, xs: seq<Moment>, ms: seq<Move>, j: nat) returns (b: nat)
    requires IsRun(cfg, xs, ms) && Initial(xs[0]) && j < |xs|
    ensures b <= j && xs[b].state.mem.None? && NoRestart(ms, b, j)
    ensures b == 0 || (b - 1 < |ms| && ms[b - 1].RestartMove?)
  {
    if j == 0 {
      b := 0;
    } else if ms[j - 1].RestartMove? {
      b := j;
    } else {
      b := ProcessStart(cfg, xs, ms, j - 1);
    }
  }

  lemma {:induction false} RunKeepsBalances(cfg: Config, xs: seq<Moment>, ms: seq<Move>, i: nat, j: nat)
    requires IsRun(cfg, xs, ms) && Initial(xs[0]) && BalancesOk(xs[0].state.tables) && i <= j < |xs|
    requires AllNonNegative(xs[j].state.chain.log)
    ensures BalancesOk(xs[i].state.tables)
    decreases i
  {
    var b := ProcessStart(cfg, xs, ms, i);
    if b > 0 {
      RunKeepsBalances(cfg, xs, ms, b - 1, j);
      assert Next(cfg, xs[b - 1], ms[b - 1], xs[b - 1 + 1]);
    }
    ProcessTables(cfg, xs, ms, b, i);
    RunKeepsGood(cfg, xs, ms, i);
    CommittedAreOnChain(xs[i].state);
    ChainsGrow(cfg, xs, ms, i, j);
    EffectsKeepBalances(xs[b].state.tables, CommittedSince(xs[i].state));
  }

  // ---------- after the crash ----------

  /** A crash at `k`, and a later moment `j` of the process that follows it. */
  ghost predicate AfterCrash(cfg: Config, xs: seq<Moment>, ms: seq<Move>, k: nat, j: nat) {
    && IsRun(cfg, xs, ms) && Initial(xs[0])
    && k < |ms| && ms[k].RestartMove? && k < j < |xs| && NoRestart(ms, k + 1, j)
  }

  /**
   The process after a crash starts on the tables as they are. It is handed the log from the
   saved position on; without one, from the configured ledger on; and without that, none of
   what was on the chain at the crash.
   */
  lemma CrashHandsOutAgain(cfg: Config, xs: seq<Moment>, ms: seq<Move>, k: nat, j: nat)
    requires AfterCrash(cfg, xs, ms, k, j)
    ensures var s := xs[j].state;
            && (s.mem.Some? && s.life.pending ==> Index(s.chain, s.mem.value) < |s.chain.log|)
            && s.tables == EffectAll(xs[k].state.tables, CommittedSince(s))
            && (forall e <- CommittedSince(s) :: e in s.chain.log)
            && (s.mem.Some? ==>
                && s.life.origin.Some?
                && var from, to := Index(s.chain, s.life.origin.value), Index(s.chain, s.mem.value);
                && from <= to && EventsOf(s.life.history) == s.chain.log[from..to]
                && (xs[k].state.disk.Some? ==> s.life.origin == xs[k].state.disk)
                && (xs[k].state.disk.None? && cfg.start.Some? ==> s.life.origin == Some(At(cfg.start.value, None)))
                && (xs[k].state.disk.None? && cfg.start.None? ==> |xs[k].state.chain.log| <= from))
  {
    assert Next(cfg, xs[k], ms[k], xs[k + 1]);
    RunSameProcess(cfg, xs, ms, k + 1, j);
    ProcessTables(cfg, xs, ms, k + 1, j);
    RunKeepsGood(cfg, xs, ms, j);
    CommittedAreOnChain(xs[j].state);
    if xs[j].state.mem.Some? && xs[k].state.disk.None? && cfg.start.None? {
      RunKeepsGood(cfg, xs, ms, k);
      ChainsGrow(cfg, xs, ms, k, j);
      LaterTipIsBehind(xs[k].state.chain, xs[j].state.chain, xs[j].state.life.origin.value.ledger);
    }
  }

  lemma LaterTipIsBehind(c: Chain, c': Chain, ledger: nat)
    requires WfChain(c) && WfChain(c') && c.log <= c'.log && c.tip <= ledger
    ensures |c.log| <= Index(c', At(ledger, None))
  {
    AfterLedgerSplits(c'.log, ledger);
    if c.log != [] {
      assert c'.log[|c.log| - 1] == c.log[|c.log| - 1];
    }
  }

  /**
   What a stream row has become at any moment after a crash, in the middle of an event too,
   for a stream the crash found: a cancelled one is as it was; a live one is withdrawn from
   by every withdrawal committed since, first delivery or second, up to a cancellation.
   */
  lemma CrashDriftsStreams(cfg: Config, xs: seq<Moment>, ms: seq<Move>, k: nat, j: nat, id: int)
    requires AfterCrash(cfg, xs, ms, k, j) && BalancesOk(xs[0].state.tables) && AllNonNegative(xs[j].state.chain.log)
    requires id in xs[k].state.tables.streams
    ensures var s := xs[j].state;
            s.mem.Some? && s.life.pending ==> Index(s.chain, s.mem.value) < |s.chain.log|
    ensures id in xs[j].state.tables.streams
    ensures var (before, after, es) :=
              (xs[k].state.tables.streams[id], xs[j].state.tables.streams[id], CommittedSince(xs[j].state));
            && (before.status.Cancelled? ==> after == before)
            && (before.status.Active? && (forall i :: 0 <= i < |es| ==> !CancelsStream(es[i].message, id)) ==>
                  after == Withdrawn(before, Drift(es, id)))
            && (before.status.Active? ==> forall i :: 0 <= i < |es| && IsFirstCancel(es, id, i) ==>
                  after == CancelledRow(Withdrawn(before, Drift(es[..i], id)), es[i].message.vault.accrued))
  {
    CrashHandsOutAgain(cfg, xs, ms, k, j);
    RunKeepsBalances(cfg, xs, ms, k, j);
    StreamAfter(xs[k].state.tables, CommittedSince(xs[j].state), id);
  }

  ghost predicate IsFirstCancel(es: seq<ChainEvent>, id: int, i: nat)
    requires i < |es|
  {
    CancelsStream(es[i].message, id) && forall j :: 0 <= j < i ==> !CancelsStream(es[j].message, id)
  }

  lemma StreamAfter(t: Tables, es: seq<ChainEvent>, id: int)
    requires BalancesOk(t) && AllNonNegative(es) && id in t.streams
    ensures id in EffectAll(t, es).streams
    ensures var before, after := t.streams[id], EffectAll(t, es).streams[id];
            && (before.status.Cancelled? ==> after == before)
            && (before.status.Active? && (forall i :: 0 <= i < |es| ==> !CancelsStream(es[i].message, id)) ==>
                  after == Withdrawn(before, Drift(es, id)))
            && (before.status.Active? ==> forall i :: 0 <= i < |es| && IsFirstCancel(es, id, i) ==>
                  after == CancelledRow(Withdrawn(before, Drift(es[..i], id)), es[i].message.vault.accrued))
  {
    StreamsStayKnown(t, es, id);
    if t.streams[id].status.Cancelled? {
      CancelledStaysPut(t, es, id);
    } else {
      if forall i :: 0 <= i < |es| ==> !CancelsStream(es[i].message, id) {
        LiveStreamAbsorbs(t, es, id);
      }
      forall i | 0 <= i < |es| && IsFirstCancel(es, id, i)
        ensures EffectAll(t, es).streams[id]
             == CancelledRow(Withdrawn(t.streams[id], Drift(es[..i], id)), es[i].message.vault.accrued)
      {
        LiveStreamSettles(t, es, id, i);
      }
    }
  }

  /** The same for an NGO row the crash found: it takes the last name and the last verdict committed since. */
  lemma CrashDriftsNgos(cfg: Config, xs: seq<Moment>, ms: seq<Move>, k: nat, j: nat, owner: string)
    requires AfterCrash(cfg, xs, ms, k, j) && owner in xs[k].state.tables.ngos
    ensures var s := xs[j].state;
            s.mem.Some? && s.life.pending ==> Index(s.chain, s.mem.value) < |s.chain.log|
    ensures owner in xs[j].state.tables.ngos
    ensures var (before, after, es) :=
              (xs[k].state.tables.ngos[owner], xs[j].state.tables.ngos[owner], CommittedSince(xs[j].state));
            && after.name == (match SegmentName(es, owner) case Some(n) => n case None => before.name)
            && after.verified == (match SegmentVerdict(es, owner) case Some(v) => v case None => before.verified)
  {
    CrashHandsOutAgain(cfg, xs, ms, k, j);
    KnownNgoTakesLast(xs[k].state.tables, CommittedSince(xs[j].state), owner);
  }

  /** The later process has committed exactly what was committed since the saved position. */
  ghost predicate CommitsAgain(s: State, s': State) {
    && s.mem.Some? && s.disk.Some? && s.life.origin.Some? && 0 <= SavedPrefix(s) <= |s.life.history|
    && (s.life.pending ==> Index(s.chain, s.mem.value) < |s.chain.log|)
    && (s'.mem.Some? && s'.life.pending ==> Index(s'.chain, s'.mem.value) < |s'.chain.log|)
    && CommittedSince(s') == Unsaved(s)
  }

  /**
   When the new process has committed again exactly what was committed since the saved
   position, an NGO row is off iff its last verdict was an approval given before it was known.
   If every cancellation among those events was of a stream already known, a live stream is
   off by those withdrawals, and every other stream row is as it was.
   */
  lemma SameCommitsAgainDrift(cfg: Config, xs: seq<Moment>, ms: seq<Move>, k: nat, j: nat, id: int, owner: string)
    requires AfterCrash(cfg, xs, ms, k, j) && BalancesOk(xs[0].state.tables) && AllNonNegative(xs[j].state.chain.log)
    requires CommitsAgain(xs[k].state, xs[j].state)
    ensures var (s, s') := (xs[k].state, xs[j].state);
            && (id in s.tables.streams && CancelsOnlyKnown(SavedTables(s), Unsaved(s), id) ==>
                  && id in s'.tables.streams
                  && s'.tables.streams[id]
                     == if LiveStream(s.tables, id) then Withdrawn(s.tables.streams[id], Drift(Unsaved(s), id))
                        else s.tables.streams[id])
            && (owner in s.tables.ngos ==>
                  && owner in s'.tables.ngos
                  && (s'.tables.ngos[owner] != s.tables.ngos[owner] <==>
                      SegmentVerdict(Unsaved(s), owner) == Some(true) && !s.tables.ngos[owner].verified))
  {
    var s := xs[k].state;
    CrashHandsOutAgain(cfg, xs, ms, k, j);
    RunKeepsGood(cfg, xs, ms, k);
    TablesAreSavedAndUnsaved(s);
    RunKeepsBalances(cfg, xs, ms, k, j);
    if id in s.tables.streams && CancelsOnlyKnown(SavedTables(s), Unsaved(s), id) {
      RedeliveredSegmentDriftsStreams(SavedTables(s), Unsaved(s), id);
    }
    if owner in s.tables.ngos {
      RedeliveredSegmentDriftsNgo(SavedTables(s), Unsaved(s), owner);
    }
  }
}
