/** What holds over every run of the indexer: polls, chain growth, crashes and restarts. */
module IndexerRuns {
  import opened Wrappers
  import opened Events
  import opened StreamTables
  import opened ChainLog
  import opened Redelivery
  import opened Worker

  datatype Move = Growth(chain: Chain) | PollMove(oracle: Oracle) | RestartMove

  /** A process that died in a poll can only be restarted. */
  datatype Moment = Moment(state: State, alive: bool)

  ghost predicate Next(cfg: Config, x: Moment, m: Move, y: Moment) {
    match m
    case Growth(c) => Grows(x.state.chain, c) && y == Moment(x.state.(chain := c), x.alive)
    case PollMove(o) =>
      && x.alive && ValidOracle(cfg, x.state, o)
      && y == Moment(Poll(cfg, x.state, o).0, !Poll(cfg, x.state, o).1.Dead?)
    case RestartMove => y == Moment(Restarted(x.state), true)
  }

  ghost predicate Initial(x: Moment) {
    && WfChain(x.state.chain) && x.state.disk.None? && x.state.mem.None? && x.alive
    && x.state.life == Life(None, [], 0, false, x.state.tables)
  }

  ghost predicate IsRun(cfg: Config, xs: seq<Moment>, ms: seq<Move>) {
    && |xs| == |ms| + 1
    && forall k {:trigger ms[k]} :: 0 <= k < |ms| ==> Next(cfg, xs[k], ms[k], xs[k + 1])
  }

  ghost predicate Good(x: Moment) {
    Inv(x.state) && (x.alive ==> PendingIsRegistry(x.state))
  }

  lemma NextKeepsGood(cfg: Config, x: Moment, m: Move, y: Moment)
    requires Good(x) && Next(cfg, x, m, y)
    ensures Good(y)
  {
    match m {
      case Growth(c) => GrowKeepsInv(x.state, c);
      case PollMove(o) => PollKeepsInv(cfg, x.state, o);
      case RestartMove => RestartKeepsInv(x.state);
    }
  }

  lemma StepKeepsGood(cfg: Config, xs: seq<Moment>, ms: seq<Move>, k: nat)
    requires IsRun(cfg, xs, ms) && k < |ms| && Good(xs[k])
    ensures Good(xs[k + 1])
  {
    NextKeepsGood(cfg, xs[k], ms[k], xs[k + 1]);
  }

  lemma {:induction false} RunKeepsGoodFrom(cfg: Config, xs: seq<Moment>, ms: seq<Move>, k: nat)
    requires IsRun(cfg, xs, ms) && Good(xs[0]) && k < |xs|
    ensures Good(xs[k])
  {
    if k > 0 {
      RunKeepsGoodFrom(cfg, xs, ms, k - 1);
      StepKeepsGood(cfg, xs, ms, k - 1);
    }
  }

  lemma RunKeepsGood(cfg: Config, xs: seq<Moment>, ms: seq<Move>, k: nat)
    requires IsRun(cfg, xs, ms) && Initial(xs[0]) && k < |xs|
    ensures Good(xs[k])
  {
    RunKeepsGoodFrom(cfg, xs, ms, k);
  }

  /** Where a life began, and with which tables. */
  ghost predicate SameLife(s: State, s': State) {
    s.mem.Some? && s'.mem.Some? && s'.life.base == s.life.base && s'.life.origin == s.life.origin
  }

  lemma HandleOneSameLife(s: State, e: ChainEvent, a: Answer)
    requires s.mem.Some?
    ensures SameLife(s, HandleOne(s, e, a).0)
  {
    if a.death.Survives? {
      if Outcome(s.tables, e.message, a.fault).Returned? {
        WayOutOfReturn(s, e, a);
      } else {
        WaysOutOfCatch(s, e, a);
      }
    }
  }

  lemma {:induction false} HandlePageSameLife(s: State, events: seq<ChainEvent>, answers: seq<Answer>)
    requires s.mem.Some? && |events| <= |answers|
    ensures SameLife(s, HandlePage(s, events, answers).0)
    decreases |events|
  {
    if events != [] {
      HandleOneSameLife(s, events[0], answers[0]);
      var (s', exit) := HandleOne(s, events[0], answers[0]);
      if exit.Finished? {
        HandlePageSameLife(s', events[1..], answers[1..]);
      }
    }
  }

  lemma PollFromSameLife(s: State, o: Oracle)
    requires s.mem.Some? && (o.page.Page? ==> |o.page.events| <= |o.answers|)
    ensures SameLife(s, PollFrom(s, o).0)
  {
    if o.page.Page? {
      HandlePageSameLife(s.(chain := o.scan), o.page.events, o.answers);
    }
  }

  lemma PollGrowsChain(cfg: Config, s: State, o: Oracle)
    requires ValidOracle(cfg, s, o)
    ensures Poll(cfg, s, o).0.chain == s.chain || Poll(cfg, s, o).0.chain == o.scan
  {
    if s.mem.Some? {
      PollFromChain(s, o);
    } else if s.disk.Some? {
      PollFromChain(StartedAt(s, s.disk.value), o);
    }
  }

  lemma {:induction false} HandlePageSameChain(s: State, events: seq<ChainEvent>, answers: seq<Answer>)
    requires |events| <= |answers|
    ensures HandlePage(s, events, answers).0.chain == s.chain
    decreases |events|
  {
    if events != [] {
      var (s', exit) := HandleOne(s, events[0], answers[0]);
      if exit.Finished? {
        HandlePageSameChain(s', events[1..], answers[1..]);
      }
    }
  }

  lemma PollFromChain(s: State, o: Oracle)
    requires s.mem.Some? && (o.page.Page? ==> |o.page.events| <= |o.answers|)
    ensures PollFrom(s, o).0.chain == s.chain || PollFrom(s, o).0.chain == o.scan
  {
    if o.page.Page? {
      HandlePageSameChain(s.(chain := o.scan), o.page.events, o.answers);
    }
  }

  lemma ChainGrows(cfg: Config, x: Moment, m: Move, y: Moment)
    requires Next(cfg, x, m, y)
    ensures x.state.chain.log <= y.state.chain.log && x.state.chain.tip <= y.state.chain.tip
    ensures WfChain(x.state.chain) ==> Grows(x.state.chain, y.state.chain)
  {
    if m.PollMove? {
      PollGrowsChain(cfg, x.state, m.oracle);
    }
  }

  lemma GrowsAt(cfg: Config, xs: seq<Moment>, ms: seq<Move>, k: nat)
    requires IsRun(cfg, xs, ms) && k < |ms| && WfChain(xs[k].state.chain)
    ensures Grows(xs[k].state.chain, xs[k + 1].state.chain)
  {
    ChainGrows(cfg, xs[k], ms[k], xs[k + 1]);
  }

  lemma {:induction false} ChainsGrow(cfg: Config, xs: seq<Moment>, ms: seq<Move>, i: nat, j: nat)
    requires IsRun(cfg, xs, ms) && i <= j < |xs| && WfChain(xs[i].state.chain)
    ensures Grows(xs[i].state.chain, xs[j].state.chain)
  {
    if i < j {
      ChainsGrow(cfg, xs, ms, i, j - 1);
      GrowsAt(cfg, xs, ms, j - 1);
      GrowsOn(xs[i].state.chain, xs[j - 1].state.chain, xs[j].state.chain);
    }
  }

  lemma GrowsOn(a: Chain, b: Chain, c: Chain)
    requires Grows(a, b) && Grows(b, c)
    ensures Grows(a, c)
  {
  }

  /** Where a process that starts now begins. */
  function FirstPosition(cfg: Config, s: State): Position {
    if s.disk.Some? then s.disk.value
    else At(if cfg.start.Some? then cfg.start.value else s.chain.tip, None)
  }

  /** A poll without a cursor does nothing, or begins at the first position. */
  lemma PollBegins(cfg: Config, s: State, o: Oracle)
    requires Inv(s) && s.mem.None? && (o.page.Page? ==> |o.page.events| <= |o.answers|)
    ensures var s' := Poll(cfg, s, o).0;
            && (s'.mem.None? ==> s' == s)
            && (s'.mem.Some? ==> s'.life.origin == Some(FirstPosition(cfg, s)) && s'.life.base == s.tables)
            && (s'.mem.Some? && s.disk.None? ==> s'.chain == s.chain && s'.mem == s'.life.origin)
    ensures cfg.watching && o.readOk && o.tipOk ==> Poll(cfg, s, o).0.mem.Some?
  {
    if s.disk.Some? {
      PollFromSameLife(StartedAt(s, s.disk.value), o);
    }
  }

  /** How a move treats the process's position: it goes on, begins, or has none. */
  ghost predicate Shaped(cfg: Config, s: State, restart: bool, s': State) {
    && Grows(s.chain, s'.chain)
    && (s.mem.Some? && s'.mem.None? ==> restart)
    && (s.mem.Some? && s'.mem.Some? ==> SameLife(s, s'))
    && (s'.mem.None? ==> s'.disk == s.disk && s'.tables == s.tables && (!restart ==> s'.life == s.life))
    && (s.mem.None? && s'.mem.Some? ==>
        && s'.life.origin == Some(FirstPosition(cfg, s)) && s'.life.base == s.tables
        && (s.disk.None? ==> s'.chain == s.chain && s'.mem == s'.life.origin))
  }

  lemma StepShape(cfg: Config, x: Moment, m: Move, y: Moment)
    requires Good(x) && Next(cfg, x, m, y)
    ensures Good(y) && Shaped(cfg, x.state, m.RestartMove?, y.state)
  {
    NextKeepsGood(cfg, x, m, y);
    ChainGrows(cfg, x, m, y);
    if m.PollMove? {
      if x.state.mem.Some? {
        PollFromSameLife(x.state, m.oracle);
      } else {
        PollBegins(cfg, x.state, m.oracle);
      }
    }
  }

  /** One step of a run, as far as positions go. */
  lemma ShapedAt(cfg: Config, xs: seq<Moment>, ms: seq<Move>, k: nat)
    requires IsRun(cfg, xs, ms) && Initial(xs[0]) && k < |ms|
    ensures Shaped(cfg, xs[k].state, ms[k].RestartMove?, xs[k + 1].state)
  {
    RunKeepsGood(cfg, xs, ms, k);
    StepShape(cfg, xs[k], ms[k], xs[k + 1]);
  }

  lemma RegistryLeavesStreamsAlone(t: Tables, m: Message, txHash: string)
    requires m.ToRegistry?
    ensures Effect(t, m, txHash).streams == t.streams && Effect(t, m, txHash).donors == t.donors
  {
  }

  lemma SegmentEntries(c: Chain, origin: Position, mem: Position, h: seq<Entry>)
    requires HistoryIsSegment(c, origin, mem, h)
    ensures Index(c, origin) + |h| == Index(c, mem)
    ensures forall i :: 0 <= i < |h| ==> h[i].event == c.log[Index(c, origin) + i]
  {
    assert |EventsOf(h)| == Index(c, mem) - Index(c, origin);
    forall i | 0 <= i < |h| ensures h[i].event == c.log[Index(c, origin) + i] {
      assert EventsOf(h)[i] == c.log[Index(c, origin) + i];
    }
  }

  lemma LivingTables(s: State)
    requires Inv(s) && PendingIsRegistry(s) && s.mem.Some?
    ensures s.tables.streams == ReplayHistory(s.life.base, s.life.history).streams
    ensures s.tables.donors == ReplayHistory(s.life.base, s.life.history).donors
    ensures !s.life.pending ==> s.tables == ReplayHistory(s.life.base, s.life.history)
  {
    if s.life.pending {
      var e := s.chain.log[Index(s.chain, s.mem.value)];
      RegistryLeavesStreamsAlone(ReplayHistory(s.life.base, s.life.history), e.message, e.txHash);
    }
  }

  /**
   Within one process, every event from where it started to its cursor has exactly one
   entry, in log order, and the stream and donor tables are what its committed events make
   them, each applied once, whatever failed and however pages were cut.
   */
  lemma EveryEventIsAccountedOnce(cfg: Config, xs: seq<Moment>, ms: seq<Move>, k: nat)
    requires IsRun(cfg, xs, ms) && Initial(xs[0]) && k < |xs| && xs[k].state.mem.Some?
    ensures var s := xs[k].state;
            && s.life.origin.Some?
            && var from, to := Index(s.chain, s.life.origin.value), Index(s.chain, s.mem.value);
            && from + |s.life.history| == to
            && (forall i :: 0 <= i < |s.life.history| ==> s.life.history[i].event == s.chain.log[from + i])
            && (forall i :: 0 <= i < |s.life.history| ==>
                  FateFits(ReplayHistory(s.life.base, s.life.history[..i]), s.life.history[i]))
            && (forall i :: 0 <= i < |s.life.history| && s.life.history[i].fate.DeadLettered? ==>
                  s.life.history[i].event.id in s.dead)
            && (xs[k].alive ==>
                && s.tables.streams == ReplayHistory(s.life.base, s.life.history).streams
                && s.tables.donors == ReplayHistory(s.life.base, s.life.history).donors
                && (!s.life.pending ==> s.tables == ReplayHistory(s.life.base, s.life.history)))
  {
    RunKeepsGood(cfg, xs, ms, k);
    var s := xs[k].state;
    SegmentEntries(s.chain, s.life.origin.value, s.mem.value, s.life.history);
    if xs[k].alive {
      LivingTables(s);
    }
  }

  /** The saved checkpoint lies this far back in the process's history. */
  function SavedPrefix(s: State): int
    requires s.disk.Some? && s.life.origin.Some?
  {
    Index(s.chain, s.disk.value) - Index(s.chain, s.life.origin.value)
  }

  lemma TailEvents(c: Chain, origin: Position, mem: Position, h: seq<Entry>, n: nat)
    requires HistoryIsSegment(c, origin, mem, h) && n <= |h|
    ensures EventsOf(h[n..]) == c.log[Index(c, origin) + n..Index(c, mem)]
  {
    SegmentEntries(c, origin, mem, h);
  }

  lemma TailCounts(c: Chain, origin: Position, mem: Position, disk: Position, life: Life)
    requires HistoryIsSegment(c, origin, mem, life.history) && UnsavedCounted(c, origin, mem, Some(disk), life)
    ensures
      var n := Index(c, disk) - Index(c, origin);
      && 0 <= n <= |life.history|
      && Index(c, disk) + |life.history[n..]| == Index(c, mem)
      && Handlings(life.history[n..]) == life.unsaved
      && EventsOf(life.history[n..]) == c.log[Index(c, disk)..Index(c, mem)]
  {
    SegmentEntries(c, origin, mem, life.history);
    TailEvents(c, origin, mem, life.history, Index(c, disk) - Index(c, origin));
  }

  lemma LiveIsCounted(s: State)
    requires Inv(s) && s.mem.Some?
    ensures s.life.origin.Some?
    ensures HistoryIsSegment(s.chain, s.life.origin.value, s.mem.value, s.life.history)
    ensures UnsavedCounted(s.chain, s.life.origin.value, s.mem.value, s.disk, s.life)
    ensures s.life.pending ==> Index(s.chain, s.mem.value) < |s.chain.log|
  {
  }

  lemma SavedPrefixCounts(s: State)
    requires Inv(s) && s.mem.Some? && s.disk.Some?
    ensures s.life.origin.Some? && 0 <= SavedPrefix(s) <= |s.life.history|
    ensures Index(s.chain, s.disk.value) + |s.life.history[SavedPrefix(s)..]| == Index(s.chain, s.mem.value)
    ensures Handlings(s.life.history[SavedPrefix(s)..]) == s.life.unsaved
    ensures EventsOf(s.life.history[SavedPrefix(s)..])
      == s.chain.log[Index(s.chain, s.disk.value)..Index(s.chain, s.mem.value)]
    ensures s.life.pending ==> Index(s.chain, s.mem.value) < |s.chain.log|
  {
    LiveIsCounted(s);
    TailCounts(s.chain, s.life.origin.value, s.mem.value, s.disk.value, s.life);
  }

  /** Until a save has reached the disk, a process with a configured start ledger began there. */
  ghost predicate BeganAtStart(cfg: Config, s: State) {
    s.mem.Some? && s.disk.None? && cfg.start.Some? ==> s.life.origin == Some(At(cfg.start.value, None))
  }

  lemma MoveBeganAtStart(cfg: Config, x: Moment, m: Move, y: Moment)
    requires Good(x) && Next(cfg, x, m, y) && BeganAtStart(cfg, x.state)
    ensures BeganAtStart(cfg, y.state)
  {
    StepShape(cfg, x, m, y);
    NextNeverMovesBack(cfg, x, m, y);
  }

  lemma {:induction false} RunBeganAtStart(cfg: Config, xs: seq<Moment>, ms: seq<Move>, k: nat)
    requires IsRun(cfg, xs, ms) && Initial(xs[0]) && k < |xs|
    ensures BeganAtStart(cfg, xs[k].state)
  {
    if k > 0 {
      RunBeganAtStart(cfg, xs, ms, k - 1);
      RunKeepsGood(cfg, xs, ms, k - 1);
      MoveBeganAtStart(cfg, xs[k - 1], ms[k - 1], xs[k]);
    }
  }

  lemma NeverSavedCounts(s: State)
    requires Inv(s) && s.mem.Some? && s.disk.None?
    ensures s.life.origin.Some? && Handlings(s.life.history) == s.life.unsaved
    ensures Index(s.chain, s.life.origin.value) + |s.life.history| == Index(s.chain, s.mem.value)
    ensures s.life.pending ==> Index(s.chain, s.mem.value) < |s.chain.log|
  {
    LiveIsCounted(s);
    SegmentEntries(s.chain, s.life.origin.value, s.mem.value, s.life.history);
  }

  lemma TipIsAtEnd(c: Chain)
    requires WfChain(c)
    ensures Index(c, At(c.tip, None)) == |c.log|
  {
    AfterLedgerSplits(c.log, c.tip);
  }

  /** How much of its history a process has to its credit on the disk. */
  function Kept(cfg: Config, s: State): int
    requires s.life.origin.Some?
  {
    if s.disk.Some? then SavedPrefix(s) else if cfg.start.Some? then 0 else |s.life.history|
  }

  /**
   What the process after a crash is handed again. With a checkpoint: exactly the events whose
   saves failed since the last one that reached the disk. Without one but with a configured
   start ledger: all of them. With neither: nothing, not even what has arrived behind the
   cursor, because the new process begins at the tip. The event in flight counts as behind.
   */
  lemma CrashRedeliversExactlyTheUnsaved(cfg: Config, xs: seq<Moment>, ms: seq<Move>, k: nat)
    requires IsRun(cfg, xs, ms) && Initial(xs[0]) && k < |xs| && xs[k].state.mem.Some?
    ensures var s := xs[k].state;
            && s.life.origin.Some? && 0 <= Kept(cfg, s) <= |s.life.history|
            && var again := s.life.history[Kept(cfg, s)..];
               var first := Index(s.chain, FirstPosition(cfg, Restarted(s)));
            && (s.disk.Some? || cfg.start.Some? ==>
                  first + |again| == Index(s.chain, s.mem.value) && Handlings(again) == s.life.unsaved)
            && (s.disk.None? && cfg.start.None? ==>
                  again == [] && first == |s.chain.log| && Handlings(s.life.history) == s.life.unsaved)
            && (s.life.pending ==> Index(s.chain, s.mem.value) < |s.chain.log|)
  {
    RunKeepsGood(cfg, xs, ms, k);
    RunBeganAtStart(cfg, xs, ms, k);
    var s := xs[k].state;
    if s.disk.Some? {
      SavedPrefixCounts(s);
    } else {
      NeverSavedCounts(s);
      TipIsAtEnd(s.chain);
      assert s.life.history[0..] == s.life.history;
    }
  }

  // ---------- the bound the comments claim fails, by any amount ----------

  const FAILED_SAVE := Answer(Nothing, DeadLetters.Stamp("", 0), Survives, true, Done, DeadLetters.Stamp("", 0),
    Failed(false))

  function OneFailedSave(s: State): Oracle
    requires s.mem.Some? && Index(s.chain, s.mem.value) < |s.chain.log|
  {
    Oracle(true, true, s.chain, Page([s.chain.log[Index(s.chain, s.mem.value)]]), Done, [FAILED_SAVE])
  }

  lemma FailedSaveCounts(s: State, e: ChainEvent)
    ensures HandleOne(s, e, FAILED_SAVE).1.Rejected?
    ensures HandleOne(s, e, FAILED_SAVE).0.life.unsaved == s.life.unsaved + 1
    ensures HandleOne(s, e, FAILED_SAVE).0.mem == Some(At(e.ledger, Some(e.id)))
    ensures HandleOne(s, e, FAILED_SAVE).0.chain == s.chain
    ensures HandleOne(s, e, FAILED_SAVE).0.disk == s.disk
  {
  }

  lemma PageOfOne(s: State, e: ChainEvent, a: Answer)
    requires HandleOne(s, e, a).1.Rejected?
    ensures HandlePage(s, [e], [a]) == HandleOne(s, e, a)
  {
  }

  /** A cursor with events left is never where the poll returns early. */
  lemma EventsLeftMeansBehind(c: Chain, p: Position)
    requires WfChain(c) && Index(c, p) < |c.log|
    ensures p.eventId.None? ==> p.ledger < c.tip
  {
    AfterLedgerSplits(c.log, p.ledger);
  }

  lemma OneFailedSaveIsValid(cfg: Config, s: State)
    requires WfChain(s.chain) && (cfg.limit.Some? ==> 1 <= cfg.limit.value)
    requires s.mem.Some? && Index(s.chain, s.mem.value) < |s.chain.log|
    ensures ValidOracle(cfg, s, OneFailedSave(s))
  {
    var i := Index(s.chain, s.mem.value);
    assert [s.chain.log[i]] == s.chain.log[i..i + 1];
  }

  lemma OneFailedSavePoll(cfg: Config, s: State)
    requires WfChain(s.chain) && cfg.watching && s.mem.Some? && Index(s.chain, s.mem.value) < |s.chain.log|
    ensures Poll(cfg, s, OneFailedSave(s)) == HandleOne(s, s.chain.log[Index(s.chain, s.mem.value)], FAILED_SAVE)
  {
    var e := s.chain.log[Index(s.chain, s.mem.value)];
    EventsLeftMeansBehind(s.chain, s.mem.value);
    FailedSaveCounts(s, e);
    assert s.(chain := s.chain) == s;
    PageOfOne(s, e, FAILED_SAVE);
  }

  /** Exactly the decodable events of this process have committed. */
  ghost predicate AllCommitted(s: State) {
    !s.life.pending && forall entry <- s.life.history :: entry.committed <==> !Undecodable(entry.event.message)
  }

  lemma FailedSaveCommits(s: State, e: ChainEvent)
    requires AllCommitted(s)
    ensures AllCommitted(HandleOne(s, e, FAILED_SAVE).0)
  {
  }

  lemma OneFailedSaveMoves(cfg: Config, x: Moment) returns (y: Moment)
    requires Good(x) && x.alive && cfg.watching && (cfg.limit.Some? ==> 1 <= cfg.limit.value)
    requires x.state.mem.Some? && Index(x.state.chain, x.state.mem.value) < |x.state.chain.log|
    ensures Next(cfg, x, PollMove(OneFailedSave(x.state)), y)
    ensures y.alive && y.state.mem.Some? && y.state.chain == x.state.chain && y.state.disk == x.state.disk
    ensures y.state.life.unsaved == x.state.life.unsaved + 1
    ensures Index(y.state.chain, y.state.mem.value) == Index(x.state.chain, x.state.mem.value) + 1
    ensures AllCommitted(x.state) ==> AllCommitted(y.state)
  {
    var s := x.state;
    OneFailedSaveIsValid(cfg, s);
    OneFailedSavePoll(cfg, s);
    if AllCommitted(s) {
      FailedSaveCommits(s, s.chain.log[Index(s.chain, s.mem.value)]);
    }
    FailedSaveCounts(s, s.chain.log[Index(s.chain, s.mem.value)]);
    AfterEventFinds(s.chain.log, Index(s.chain, s.mem.value));
    y := Moment(Poll(cfg, s, OneFailedSave(s)).0, true);
  }

  /**
   "At most the in-flight event" is not a bound: whatever is left of the log can be handled
   with every save failing, and a crash then hands all of it out again.
   */
  lemma {:induction false} FailedSavesAddUp(cfg: Config, x: Moment, n: nat) returns (xs: seq<Moment>, ms: seq<Move>)
    requires Good(x) && x.alive && x.state.mem.Some?
    requires cfg.watching && (cfg.limit.Some? ==> 1 <= cfg.limit.value)
    requires Index(x.state.chain, x.state.mem.value) + n <= |x.state.chain.log|
    ensures IsRun(cfg, xs, ms) && xs[0] == x && |ms| == n
    ensures xs[n].state.mem.Some? && xs[n].alive && xs[n].state.chain == x.state.chain
    ensures xs[n].state.life.unsaved == x.state.life.unsaved + n && xs[n].state.disk == x.state.disk
    ensures Index(x.state.chain, xs[n].state.mem.value) == Index(x.state.chain, x.state.mem.value) + n
    ensures AllCommitted(x.state) ==> AllCommitted(xs[n].state)
    ensures NoRestart(ms, 0, n)
  {
    if n == 0 {
      return [x], [];
    }
    xs, ms := FailedSavesAddUp(cfg, x, n - 1);
    RunKeepsGoodFrom(cfg, xs, ms, n - 1);
    var m := PollMove(OneFailedSave(xs[n - 1].state));
    var y := OneFailedSaveMoves(cfg, xs[n - 1]);
    RunExtends(cfg, xs, ms, m, y);
    xs, ms := xs + [y], ms + [m];
  }

  ghost predicate NoRestart(ms: seq<Move>, b: nat, j: nat) {
    forall i :: b <= i < j && i < |ms| ==> !ms[i].RestartMove?
  }

  lemma RunExtends(cfg: Config, xs: seq<Moment>, ms: seq<Move>, m: Move, y: Moment)
    requires IsRun(cfg, xs, ms) && Next(cfg, xs[|ms|], m, y)
    ensures IsRun(cfg, xs + [y], ms + [m])
    ensures NoRestart(ms, 0, |ms|) && !m.RestartMove? ==> NoRestart(ms + [m], 0, |ms| + 1)
  {
  }

  // ---------- and the bound is broken from the very first start ----------

  /** A closed ledger with these messages. */
  function LedgerOf(messages: seq<Message>, ledger: nat): (log: seq<ChainEvent>)
    ensures |log| == |messages|
  {
    seq(|messages|, i requires 0 <= i < |messages| =>
      ChainEvent(seq(i, _ => 'x'), ledger, None, "", messages[i]))
  }

  lemma LedgerIdsDiffer(messages: seq<Message>, ledger: nat, i: nat, j: nat)
    requires i < j < |messages|
    ensures LedgerOf(messages, ledger)[i].id != LedgerOf(messages, ledger)[j].id
  {
    assert |LedgerOf(messages, ledger)[i].id| == i && |LedgerOf(messages, ledger)[j].id| == j;
  }

  /** One ledger closes, with these messages. */
  lemma LedgerCloses(messages: seq<Message>, ledger: nat) returns (c: Chain)
    ensures Grows(Chain([], ledger), c) && Index(c, At(ledger, None)) == 0
    ensures |c.log| == |messages| && forall i :: 0 <= i < |messages| ==> c.log[i].message == messages[i]
  {
    var log := LedgerOf(messages, ledger + 1);
    forall i, j | 0 <= i < j < |log| ensures log[i].id != log[j].id {
      LedgerIdsDiffer(messages, ledger + 1, i, j);
    }
    NextLedgerGrows(log, ledger);
    NoneUpTo(log, ledger);
    c := Chain(log, ledger + 1);
  }

  lemma NextLedgerGrows(log: seq<ChainEvent>, ledger: nat)
    requires forall i, j :: 0 <= i < j < |log| ==> log[i].id != log[j].id
    requires forall i :: 0 <= i < |log| ==> log[i].ledger == ledger + 1
    ensures Grows(Chain([], ledger), Chain(log, ledger + 1))
  {
  }

  lemma NoneUpTo(log: seq<ChainEvent>, ledger: nat)
    requires forall i :: 0 <= i < |log| ==> ledger < log[i].ledger
    ensures AfterLedger(log, ledger) == 0
  {
    AfterLedgerGrows([], log, ledger);
    assert [] + log == log;
  }

  /** A first start on an empty chain saves the tip, or the configured ledger. */
  lemma FirstStart(cfg: Config, t: Tables, dead: DeadLetters.Table) returns (x: Moment, m: Move, y: Moment)
    requires cfg.watching
    ensures Initial(x) && x.state.tables == t && Next(cfg, x, m, y)
    ensures y.alive && y.state.chain == Chain([], y.state.chain.tip)
    ensures y.state.mem == y.state.disk == Some(At(y.state.chain.tip, None)) && y.state.life.unsaved == 0
    ensures y.state.life.history == [] && !y.state.life.pending && m.PollMove?
  {
    var first := if cfg.start.Some? then cfg.start.value else 0;
    var c := Chain([], first);
    x := Moment(State(c, t, dead, None, None, Life(None, [], 0, false, t)), true);
    var o := Oracle(true, true, c, RpcError, Done, []);
    m := PollMove(o);
    y := Moment(Poll(cfg, x.state, o).0, true);
  }

  lemma RunsJoin(cfg: Config, xs: seq<Moment>, ms: seq<Move>, ys: seq<Moment>, fs: seq<Move>)
    returns (zs: seq<Moment>, gs: seq<Move>)
    requires IsRun(cfg, xs, ms) && IsRun(cfg, ys, fs) && xs[|ms|] == ys[0]
    ensures IsRun(cfg, zs, gs) && zs == xs + ys[1..] && gs == ms + fs
    ensures zs[0] == xs[0] && zs[|gs|] == ys[|fs|]
  {
    zs, gs := xs + ys[1..], ms + fs;
    forall k | 0 <= k < |gs| ensures Next(cfg, zs[k], gs[k], zs[k + 1]) {
      if k < |ms| {
        assert gs[k] == ms[k];
      } else {
        assert gs[k] == fs[k - |ms|];
        assert zs[k] == ys[k - |ms|];
      }
    }
  }

  /** A process that has just started and saved, with these messages behind its cursor. */
  ghost predicate Ready(x: Moment, messages: seq<Message>) {
    var s := x.state;
    && x.alive && s.mem.Some? && s.disk == s.mem && s.life.unsaved == 0 && Index(s.chain, s.mem.value) == 0
    && s.life.history == [] && !s.life.pending
    && |s.chain.log| == |messages| && forall i :: 0 <= i < |messages| ==> s.chain.log[i].message == messages[i]
  }

  lemma EventsArrive(cfg: Config, y: Moment, messages: seq<Message>) returns (m: Move, z: Moment)
    requires y.alive && y.state.chain == Chain([], y.state.chain.tip) && y.state.life.unsaved == 0
    requires y.state.mem == y.state.disk == Some(At(y.state.chain.tip, None))
    requires y.state.life.history == [] && !y.state.life.pending
    ensures Next(cfg, y, m, z) && m.Growth? && Ready(z, messages)
  {
    var c := LedgerCloses(messages, y.state.chain.tip);
    z := Moment(y.state.(chain := c), true);
    m := Growth(c);
  }

  /** The run up to the moment when these messages lie behind the cursor. */
  lemma StartBeforeEvents(cfg: Config, t: Tables, dead: DeadLetters.Table, messages: seq<Message>)
    returns (xs: seq<Moment>, ms: seq<Move>)
    requires cfg.watching
    ensures IsRun(cfg, xs, ms) && |ms| == 2 && Initial(xs[0]) && xs[0].state.tables == t && Good(xs[2])
    ensures Ready(xs[2], messages) && NoRestart(ms, 0, 2)
  {
    var x, m, y := FirstStart(cfg, t, dead);
    var n, z := EventsArrive(cfg, y, messages);
    xs, ms := RunExtendsTwice(cfg, [x], [], m, y, n, z);
    RunKeepsGood(cfg, xs, ms, 2);
  }

  lemma RunExtendsTwice(cfg: Config, xs: seq<Moment>, ms: seq<Move>, m: Move, y: Moment, n: Move, z: Moment)
    returns (ys: seq<Moment>, gs: seq<Move>)
    requires IsRun(cfg, xs, ms) && Next(cfg, xs[|ms|], m, y) && Next(cfg, y, n, z)
    ensures IsRun(cfg, ys, gs) && |gs| == |ms| + 2 && ys[0] == xs[0] && ys[|gs|] == z
    ensures NoRestart(ms, 0, |ms|) && !m.RestartMove? && !n.RestartMove? ==> NoRestart(gs, 0, |gs|)
  {
    RunExtends(cfg, xs, ms, m, y);
    RunExtends(cfg, xs + [y], ms + [m], n, z);
    ys, gs := xs + [y] + [z], ms + [m] + [n];
  }

  /** A run that goes on with failing saves. */
  lemma FailedSavesFollow(cfg: Config, xs: seq<Moment>, ms: seq<Move>, n: nat) returns (zs: seq<Moment>, gs: seq<Move>)
    requires IsRun(cfg, xs, ms)
    requires var x := xs[|ms|];
             && Good(x) && x.alive && x.state.mem.Some?
             && Index(x.state.chain, x.state.mem.value) + n <= |x.state.chain.log|
    requires cfg.watching && (cfg.limit.Some? ==> 1 <= cfg.limit.value)
    ensures IsRun(cfg, zs, gs) && xs <= zs && ms <= gs && |gs| == |ms| + n && NoRestart(gs, |ms|, |gs|)
    ensures AllCommitted(xs[|ms|].state) ==> AllCommitted(zs[|gs|].state)
    ensures var x, z := xs[|ms|], zs[|gs|];
            && z.alive && z.state.mem.Some? && z.state.chain == x.state.chain && z.state.disk == x.state.disk
            && z.state.life.unsaved == x.state.life.unsaved + n
            && Index(x.state.chain, z.state.mem.value) == Index(x.state.chain, x.state.mem.value) + n
  {
    var ys, fs := FailedSavesAddUp(cfg, xs[|ms|], n);
    zs, gs := RunsJoin(cfg, xs, ms, ys, fs);
    forall i | |ms| <= i < |gs| ensures !gs[i].RestartMove? {
      assert gs[i] == fs[i - |ms|];
    }
  }

  /**
   From a first start on any tables, and whatever n events follow: there is a run at whose end
   a crash hands out all n of them again.
   */
  lemma AnyNumberIsRedelivered(cfg: Config, t: Tables, dead: DeadLetters.Table, messages: seq<Message>)
    returns (xs: seq<Moment>, ms: seq<Move>)
    requires cfg.watching && (cfg.limit.Some? ==> 1 <= cfg.limit.value)
    ensures IsRun(cfg, xs, ms) && Initial(xs[0]) && xs[0].state.tables == t
    ensures var s := xs[|ms|].state;
            && xs[|ms|].alive && s.mem.Some? && s.disk.Some?
            && |s.chain.log| == |messages|
              && (forall i :: 0 <= i < |messages| ==> s.chain.log[i].message == messages[i])
            && Index(s.chain, s.disk.value) == 0 && Index(s.chain, s.mem.value) == |messages|
            && s.life.unsaved == |messages|
  {
    var before, moves := StartBeforeEvents(cfg, t, dead, messages);
    xs, ms := FailedSavesFollow(cfg, before, moves, |messages|);
  }

  // ---------- positions never move backwards ----------

  ghost predicate NotBefore(c: Chain, p: Position, c': Chain, p': Position) {
    p.ledger <= p'.ledger && Index(c, p) <= Index(c', p')
  }

  /** The cursor moves on, and a new checkpoint is at least where the cursor was. */
  ghost predicate Onward(s: State, s': State) {
    && s.mem.Some? && s'.mem.Some? && s'.chain == s.chain
    && NotBefore(s.chain, s.mem.value, s.chain, s'.mem.value)
    && (s'.disk == s.disk || (s'.disk.Some? && NotBefore(s.chain, s.mem.value, s.chain, s'.disk.value)))
  }

  lemma AdvancedIsOnward(s: State, e: ChainEvent, fate: Fate, save: Write)
    requires s.mem.Some? && NotBefore(s.chain, s.mem.value, s.chain, At(e.ledger, Some(e.id)))
    ensures Onward(s, Advanced(s, e, fate, save).0)
  {
  }

  lemma HandleOneIsOnward(s: State, e: ChainEvent, a: Answer)
    requires s.mem.Some? && NotBefore(s.chain, s.mem.value, s.chain, At(e.ledger, Some(e.id)))
    ensures Onward(s, HandleOne(s, e, a).0)
  {
    var s1 := AfterHandler(s, e, a);
    if a.death.Survives? {
      match Outcome(s.tables, e.message, a.fault) {
        case Returned => AdvancedIsOnward(s1, e, FateOf(s.tables, e.message), a.save);
        case Threw(error) =>
          WaysOutOfCatch(s, e, a);
          AdvancedIsOnward(WithDeadLetter(s1, e, error, a.deadStamp), e, DeadLettered, a.save);
      }
    }
  }

  lemma {:induction false} HandlePageIsOnward(s: State, events: seq<ChainEvent>, answers: seq<Answer>)
    requires Inv(s) && PendingIsRegistry(s) && |events| <= |answers| && NextInLog(s.chain, s.mem, events)
    ensures Onward(s, HandlePage(s, events, answers).0)
    decreases |events|
  {
    if events != [] {
      RestIsNextInLog(s.chain, s.mem, events);
      NextPosition(s.chain, s.mem.value, events[0]);
      HandleOneIsOnward(s, events[0], answers[0]);
      HandleOneKeepsInv(s, events[0], answers[0]);
      var (s', exit) := HandleOne(s, events[0], answers[0]);
      if exit.Finished? {
        FinishedMovesCursor(s, events[0], answers[0]);
        HandlePageIsOnward(s', events[1..], answers[1..]);
      }
    }
  }

  lemma JumpIsOnward(s: State, latest: nat, skip: bool, w: Write)
    requires s.mem.Some? && NotBefore(s.chain, s.mem.value, s.chain, At(latest, None))
    ensures Onward(s, Saved(if skip then SkippedTo(s, latest) else JumpedTo(s, latest), w, false))
  {
  }

  lemma PageIsOnward(cfg: Config, s: State, o: Oracle)
    requires Fetches(cfg, s, o) && o.page.Page?
    ensures Onward(s.(chain := o.scan), HandlePage(s.(chain := o.scan), o.page.events, o.answers).0)
  {
    ScanReachesPending(cfg, s, o);
    PageIsNextInLog(cfg, s, o);
    HandlePageIsOnward(s.(chain := o.scan), o.page.events, o.answers);
  }

  lemma TipIsNotBefore(cfg: Config, s: State, o: Oracle)
    requires Fetches(cfg, s, o)
    ensures NotBefore(o.scan, s.mem.value, o.scan, At(s.chain.tip, None))
  {
    ScanReachesPending(cfg, s, o);
    IndexWithinLedger(o.scan, s.mem.value, s.chain.tip);
  }

  lemma FetchIsOnward(cfg: Config, s: State, o: Oracle)
    requires Fetches(cfg, s, o) && o.tipOk
    ensures Onward(s.(chain := o.scan), PollFrom(s, o).0)
  {
    var s1, latest := s.(chain := o.scan), s.chain.tip;
    TipIsNotBefore(cfg, s, o);
    JumpIsOnward(s1, latest, true, o.jumpSave);
    JumpIsOnward(s1, latest, false, o.jumpSave);
    if o.page.Page? {
      PageIsOnward(cfg, s, o);
    }
  }

  lemma PollFromNeverMovesBack(cfg: Config, s: State, o: Oracle)
    requires Inv(s) && PendingIsRegistry(s) && s.mem.Some? && ValidOracle(cfg, s, o)
    ensures var s' := PollFrom(s, o).0;
            && (s.disk.Some? ==> s'.disk.Some? && NotBefore(s.chain, s.disk.value, s'.chain, s'.disk.value))
            && s'.mem.Some? && NotBefore(s.chain, s.mem.value, s'.chain, s'.mem.value)
  {
    if o.tipOk && Fetches(cfg, s, o) {
      FetchIsOnward(cfg, s, o);
      IndexOnlyGrows(s.chain, o.scan, s.mem.value);
      if s.disk.Some? {
        IndexOnlyGrows(s.chain, o.scan, s.disk.value);
      }
    }
  }

  lemma PollNeverMovesBack(cfg: Config, s: State, o: Oracle)
    requires Inv(s) && PendingIsRegistry(s) && ValidOracle(cfg, s, o)
    ensures var s' := Poll(cfg, s, o).0;
            && (s.disk.Some? ==> s'.disk.Some? && NotBefore(s.chain, s.disk.value, s'.chain, s'.disk.value))
            && (s.mem.Some? ==> s'.mem.Some? && NotBefore(s.chain, s.mem.value, s'.chain, s'.mem.value))
  {
    if cfg.watching && s.mem.Some? {
      PollFromNeverMovesBack(cfg, s, o);
    } else if cfg.watching && o.readOk && s.disk.Some? {
      StartKeepsInv(s, s.disk.value);
      PollFromNeverMovesBack(cfg, StartedAt(s, s.disk.value), o);
    }
  }

  lemma NextNeverMovesBack(cfg: Config, x: Moment, m: Move, y: Moment)
    requires Good(x) && Next(cfg, x, m, y)
    ensures x.state.disk.Some? ==>
      y.state.disk.Some? && NotBefore(x.state.chain, x.state.disk.value, y.state.chain, y.state.disk.value)
    ensures x.state.mem.Some? && !m.RestartMove? ==>
      y.state.mem.Some? && NotBefore(x.state.chain, x.state.mem.value, y.state.chain, y.state.mem.value)
  {
    match m {
      case Growth(c) =>
        if x.state.disk.Some? {
          IndexOnlyGrows(x.state.chain, c, x.state.disk.value);
        }
        if x.state.mem.Some? {
          IndexOnlyGrows(x.state.chain, c, x.state.mem.value);
        }
      case PollMove(o) => PollNeverMovesBack(cfg, x.state, o);
      case RestartMove =>
    }
  }

  /** Over any run with any crashes, the saved position never moves backwards. */
  lemma {:induction false} CheckpointNeverMovesBack(cfg: Config, xs: seq<Moment>, ms: seq<Move>, j: nat, k: nat)
    requires IsRun(cfg, xs, ms) && Initial(xs[0]) && j <= k < |xs| && xs[j].state.disk.Some?
    ensures xs[k].state.disk.Some?
    ensures NotBefore(xs[j].state.chain, xs[j].state.disk.value, xs[k].state.chain, xs[k].state.disk.value)
  {
    if j < k {
      CheckpointNeverMovesBack(cfg, xs, ms, j, k - 1);
      RunKeepsGood(cfg, xs, ms, k - 1);
      NextNeverMovesBack(cfg, xs[k - 1], ms[k - 1], xs[k]);
    }
  }

  /** Within one process, neither does the cached one. */
  lemma {:induction false} CursorNeverMovesBack(cfg: Config, xs: seq<Moment>, ms: seq<Move>, j: nat, k: nat)
    requires IsRun(cfg, xs, ms) && Initial(xs[0]) && j <= k < |xs| && xs[j].state.mem.Some?
    requires forall i :: j <= i < k ==> !ms[i].RestartMove?
    ensures xs[k].state.mem.Some?
    ensures NotBefore(xs[j].state.chain, xs[j].state.mem.value, xs[k].state.chain, xs[k].state.mem.value)
  {
    if j < k {
      CursorNeverMovesBack(cfg, xs, ms, j, k - 1);
      RunKeepsGood(cfg, xs, ms, k - 1);
      NextNeverMovesBack(cfg, xs[k - 1], ms[k - 1], xs[k]);
    }
  }

  /** A configured start ledger is itself not indexed: the first event is a later ledger's. */
  lemma StartLedgerItselfIsNotIndexed(cfg: Config, s: State, o: Oracle)
    requires Inv(s) && s.mem.None? && s.disk.None? && cfg.watching && cfg.start.Some? && o.readOk
    requires o.page.Page? ==> |o.page.events| <= |o.answers|
    ensures var s' := Poll(cfg, s, o).0;
            && s'.mem == s'.life.origin == Some(At(cfg.start.value, None))
            && forall i :: 0 <= i < |s.chain.log| ==>
                 (s.chain.log[i].ledger <= cfg.start.value <==> i < Index(s.chain, s'.mem.value))
  {
    AfterLedgerSplits(s.chain.log, cfg.start.value);
  }
}
