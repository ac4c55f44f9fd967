/** Which events no process ever hands to a handler or gives up: those a restart at the tip leaves out. */
module LostEvents {
  import opened Wrappers
  import opened Events
  import opened StreamTables
  import opened ChainLog
  import opened Worker
  import opened IndexerRuns
  import opened CrashDrift

  // ---------- having an entry ----------

  ghost predicate InHistory(s: State, e: ChainEvent) {
    exists n :: 0 <= n < |s.life.history| && s.life.history[n].event == e
  }

  /** Some process up to this moment has accounted for the event. */
  ghost predicate HasEntry(xs: seq<Moment>, k: nat, e: ChainEvent)
    requires k < |xs|
  {
    exists j :: 0 <= j <= k && InHistory(xs[j].state, e)
  }

  /** Every event behind the first ledger and before this position has an entry by now. */
  ghost predicate Accounted(xs: seq<Moment>, k: nat, first: nat, p: Position)
    requires k < |xs|
  {
    var c := xs[k].state.chain;
    forall i :: 0 <= i < Index(c, p) && first < c.log[i].ledger ==> HasEntry(xs, k, c.log[i])
  }

  /** A position the tip has passed, or the very first one. */
  ghost predicate Placed(c: Chain, first: nat, p: Position) {
    p == At(first, None) || (WfPosition(c, p) && p.ledger <= c.tip)
  }

  ghost predicate Settled(xs: seq<Moment>, k: nat, first: nat, p: Position)
    requires k < |xs|
  {
    Placed(xs[k].state.chain, first, p) && Accounted(xs, k, first, p)
  }

  lemma SegmentHolds(c: Chain, origin: Position, mem: Position, s: State, i: nat)
    requires HistoryIsSegment(c, origin, mem, s.life.history) && Index(c, origin) <= i < Index(c, mem)
    ensures InHistory(s, c.log[i])
  {
    SegmentEntries(c, origin, mem, s.life.history);
    assert s.life.history[i - Index(c, origin)].event == c.log[i];
  }

  lemma OwnSegment(s: State, i: nat)
    requires Inv(s) && s.mem.Some? && s.life.origin.Some?
    requires Index(s.chain, s.life.origin.value) <= i < Index(s.chain, s.mem.value)
    ensures InHistory(s, s.chain.log[i])
  {
    LiveIsCounted(s);
    SegmentHolds(s.chain, s.life.origin.value, s.mem.value, s, i);
  }

  /** And nothing else is in a process's history. */
  lemma SegmentHoldsOnly(c: Chain, origin: Position, mem: Position, s: State, d: Chain, i: nat)
    requires HistoryIsSegment(c, origin, mem, s.life.history) && WfChain(d) && c.log <= d.log
    requires i < |d.log| && InHistory(s, d.log[i])
    ensures Index(c, origin) <= i < Index(c, mem)
  {
    SegmentEntries(c, origin, mem, s.life.history);
    var n :| 0 <= n < |s.life.history| && s.life.history[n].event == d.log[i];
    var j := Index(c, origin) + n;
    assert d.log[j] == c.log[j];
  }

  lemma OnlyOwnSegment(s: State, c: Chain, i: nat)
    requires Inv(s) && WfChain(c) && s.chain.log <= c.log && i < |c.log| && InHistory(s, c.log[i])
    ensures s.mem.Some? && s.life.origin.Some?
    ensures Index(s.chain, s.life.origin.value) <= i < Index(s.chain, s.mem.value)
  {
    LiveIsCounted(s);
    SegmentHoldsOnly(s.chain, s.life.origin.value, s.mem.value, s, c, i);
  }

  lemma SettledStays(xs: seq<Moment>, k: nat, first: nat, p: Position)
    requires k + 1 < |xs| && Settled(xs, k, first, p) && Grows(xs[k].state.chain, xs[k + 1].state.chain)
    ensures Settled(xs, k + 1, first, p)
  {
    var c, c' := xs[k].state.chain, xs[k + 1].state.chain;
    if p == At(first, None) {
      FirstIsSettled(xs, k + 1, first);
    } else {
      IndexIsStable(c, c', p);
      forall i | 0 <= i < Index(c', p) && first < c'.log[i].ledger ensures HasEntry(xs, k + 1, c'.log[i]) {
        assert c'.log[i] == c.log[i];
      }
    }
  }

  lemma FirstIsSettled(xs: seq<Moment>, k: nat, first: nat)
    requires k < |xs| && WfChain(xs[k].state.chain)
    ensures Settled(xs, k, first, At(first, None))
  {
    AfterLedgerSplits(xs[k].state.chain.log, first);
  }

  lemma RunGrows(cfg: Config, xs: seq<Moment>, ms: seq<Move>, i: nat, j: nat)
    requires IsRun(cfg, xs, ms) && WfChain(xs[0].state.chain) && i <= j < |xs|
    ensures Grows(xs[i].state.chain, xs[j].state.chain)
  {
    ChainsGrow(cfg, xs, ms, 0, i);
    ChainsGrow(cfg, xs, ms, i, j);
  }

  // ---------- nothing is lost unless a process begins at a tip that has run away ----------

  /** The last process had this cursor at `i`, and the next one begins, at `j`, at a tip behind which events lie. */
  ghost predicate LossyStart(cfg: Config, xs: seq<Moment>, i: nat, j: nat) {
    && i < j && j + 1 < |xs|
    && xs[i].state.mem.Some? && (forall l :: i < l <= j ==> xs[l].state.mem.None?) && xs[j + 1].state.mem.Some?
    && cfg.start.None? && xs[j].state.disk.None?
    && Index(xs[j].state.chain, xs[i].state.mem.value) < |xs[j].state.chain.log|
  }

  ghost predicate NoLossyStart(cfg: Config, xs: seq<Moment>, k: nat) {
    forall i, j :: 0 <= i < j < k ==> !LossyStart(cfg, xs, i, j)
  }

  /** The moment the first cursor is there. */
  ghost predicate FirstCursor(xs: seq<Moment>, b: nat, first: nat) {
    && b < |xs| && xs[b].state.mem == Some(At(first, None))
    && forall i :: 0 <= i < b ==> xs[i].state.mem.None?
  }

  ghost predicate AllSettled(xs: seq<Moment>, b: nat, k: nat, first: nat)
    requires k < |xs|
  {
    && (forall i :: b <= i <= k && xs[i].state.mem.Some? ==> Settled(xs, k, first, xs[i].state.mem.value))
    && (xs[k].state.disk.Some? ==> Settled(xs, k, first, xs[k].state.disk.value))
    && (xs[k].state.mem.Some? ==>
        xs[k].state.life.origin.Some? && Settled(xs, k, first, xs[k].state.life.origin.value))
  }

  /** What a living process has passed is accounted for if all before its origin is. */
  lemma OriginSettlesCursor(xs: seq<Moment>, k: nat, first: nat)
    requires k < |xs| && Inv(xs[k].state) && xs[k].state.mem.Some? && xs[k].state.life.origin.Some?
    requires Settled(xs, k, first, xs[k].state.life.origin.value)
    ensures Settled(xs, k, first, xs[k].state.mem.value)
    ensures xs[k].state.disk.Some? ==> Settled(xs, k, first, xs[k].state.disk.value)
  {
    var s := xs[k].state;
    CursorPlaced(s, first);
    var to := Index(s.chain, s.mem.value);
    forall i | 0 <= i < to && first < s.chain.log[i].ledger ensures HasEntry(xs, k, s.chain.log[i]) {
      if Index(s.chain, s.life.origin.value) <= i {
        OwnSegment(s, i);
      }
    }
  }

  lemma CursorPlaced(s: State, first: nat)
    requires Inv(s) && s.mem.Some? && s.life.origin.Some? && Placed(s.chain, first, s.life.origin.value)
    ensures Placed(s.chain, first, s.mem.value) && Index(s.chain, s.mem.value) <= |s.chain.log|
    ensures s.disk.Some? ==>
      Placed(s.chain, first, s.disk.value) && Index(s.chain, s.disk.value) <= Index(s.chain, s.mem.value)
  {
  }

  /** The last moment before `j` at which some process had a cursor. */
  lemma {:induction false} LastCursor(xs: seq<Moment>, b: nat, j: nat) returns (i: nat)
    requires b < j < |xs| && xs[b].state.mem.Some? && xs[j].state.mem.None?
    ensures b <= i < j && xs[i].state.mem.Some? && forall l :: i < l <= j ==> xs[l].state.mem.None?
  {
    if xs[j - 1].state.mem.Some? {
      i := j - 1;
    } else {
      i := LastCursor(xs, b, j - 1);
    }
  }

  /** Where a process begins later on is settled, unless the tip ran away from the last cursor. */
  lemma BeginsSettled(cfg: Config, xs: seq<Moment>, b: nat, k: nat, first: nat)
    requires b < k && k + 1 < |xs| && FirstCursor(xs, b, first) && AllSettled(xs, b, k, first)
    requires WfChain(xs[k].state.chain) && (cfg.start.Some? ==> cfg.start.value == first)
    requires xs[k].state.mem.None? && xs[k + 1].state.mem.Some? && NoLossyStart(cfg, xs, k + 1)
    ensures Settled(xs, k, first, FirstPosition(cfg, xs[k].state))
  {
    var s := xs[k].state;
    if s.disk.None? {
      if cfg.start.Some? {
        FirstIsSettled(xs, k, first);
      } else {
        var i := LastCursor(xs, b, k);
        assert !LossyStart(cfg, xs, i, k);
        TipIsAtEnd(s.chain);
        assert Settled(xs, k, first, xs[i].state.mem.value);
      }
    }
  }

  lemma CursorsStaySettled(xs: seq<Moment>, b: nat, k: nat, first: nat)
    requires k + 1 < |xs| && AllSettled(xs, b, k, first) && Grows(xs[k].state.chain, xs[k + 1].state.chain)
    ensures forall i :: b <= i <= k && xs[i].state.mem.Some? ==> Settled(xs, k + 1, first, xs[i].state.mem.value)
    ensures xs[k].state.disk.Some? ==> Settled(xs, k + 1, first, xs[k].state.disk.value)
  {
    forall i | b <= i <= k && xs[i].state.mem.Some? ensures Settled(xs, k + 1, first, xs[i].state.mem.value) {
      SettledStays(xs, k, first, xs[i].state.mem.value);
    }
    if xs[k].state.disk.Some? {
      SettledStays(xs, k, first, xs[k].state.disk.value);
    }
  }

  /** The origin of the process after the step is settled. */
  lemma OriginSettled(cfg: Config, xs: seq<Moment>, restart: bool, b: nat, k: nat, first: nat)
    requires b <= k && k + 1 < |xs| && FirstCursor(xs, b, first) && AllSettled(xs, b, k, first)
    requires Shaped(cfg, xs[k].state, restart, xs[k + 1].state) && xs[k + 1].state.mem.Some?
    requires NoLossyStart(cfg, xs, k + 1) && (cfg.start.Some? ==> cfg.start.value == first)
    ensures xs[k + 1].state.life.origin.Some?
    ensures Settled(xs, k + 1, first, xs[k + 1].state.life.origin.value)
  {
    if xs[k].state.mem.None? {
      BeginsSettled(cfg, xs, b, k, first);
    }
    SettledStays(xs, k, first, xs[k + 1].state.life.origin.value);
  }

  lemma SettledStep(cfg: Config, xs: seq<Moment>, restart: bool, b: nat, k: nat, first: nat)
    requires b <= k && k + 1 < |xs| && FirstCursor(xs, b, first) && AllSettled(xs, b, k, first)
    requires Shaped(cfg, xs[k].state, restart, xs[k + 1].state) && Inv(xs[k + 1].state)
    requires NoLossyStart(cfg, xs, k + 1) && (cfg.start.Some? ==> cfg.start.value == first)
    ensures AllSettled(xs, b, k + 1, first)
  {
    CursorsStaySettled(xs, b, k, first);
    if xs[k + 1].state.mem.Some? {
      OriginSettled(cfg, xs, restart, b, k, first);
      OriginSettlesCursor(xs, k + 1, first);
    }
  }

  lemma FirstCursorSettled(cfg: Config, xs: seq<Moment>, ms: seq<Move>, b: nat, first: nat)
    requires IsRun(cfg, xs, ms) && Initial(xs[0]) && FirstCursor(xs, b, first)
    ensures AllSettled(xs, b, b, first)
  {
    FirstStartShape(cfg, xs, ms, b, first);
    RunKeepsGood(cfg, xs, ms, b);
    FirstIsSettled(xs, b, first);
    OriginSettlesCursor(xs, b, first);
  }

  lemma {:induction false} RunStaysSettled(cfg: Config, xs: seq<Moment>, ms: seq<Move>, b: nat, k: nat, first: nat)
    requires IsRun(cfg, xs, ms) && Initial(xs[0]) && b <= k < |xs| && FirstCursor(xs, b, first)
    requires NoLossyStart(cfg, xs, k)
    ensures AllSettled(xs, b, k, first)
  {
    if b == k {
      FirstCursorSettled(cfg, xs, ms, b, first);
    } else {
      RunStaysSettled(cfg, xs, ms, b, k - 1, first);
      FirstStartShape(cfg, xs, ms, b, first);
      ShapedAt(cfg, xs, ms, k - 1);
      RunKeepsGood(cfg, xs, ms, k);
      SettledStep(cfg, xs, ms[k - 1].RestartMove?, b, k - 1, first);
    }
  }

  lemma {:induction false} NoCursorNoCheckpoint(cfg: Config, xs: seq<Moment>, ms: seq<Move>, k: nat)
    requires IsRun(cfg, xs, ms) && Initial(xs[0]) && k < |xs| && forall i :: 0 <= i <= k ==> xs[i].state.mem.None?
    ensures xs[k].state.disk.None?
  {
    if k > 0 {
      NoCursorNoCheckpoint(cfg, xs, ms, k - 1);
      ShapedAt(cfg, xs, ms, k - 1);
    }
  }

  /** The first process begins at the configured ledger or at the tip. */
  lemma FirstStartShape(cfg: Config, xs: seq<Moment>, ms: seq<Move>, b: nat, first: nat)
    requires IsRun(cfg, xs, ms) && Initial(xs[0]) && FirstCursor(xs, b, first)
    ensures xs[b].state.life.origin == xs[b].state.mem
    ensures if cfg.start.Some? then cfg.start.value == first else xs[b].state.chain.tip == first
  {
    NoCursorNoCheckpoint(cfg, xs, ms, b - 1);
    ShapedAt(cfg, xs, ms, b - 1);
  }

  // ---------- and otherwise something is ----------

  ghost predicate Beyond(s: State, n: nat) {
    && n <= |s.chain.log|
    && (s.disk.Some? ==> n <= Index(s.chain, s.disk.value))
    && (s.mem.Some? ==>
        s.life.origin.Some? && n <= Index(s.chain, s.life.origin.value) && n <= Index(s.chain, s.mem.value))
  }

  lemma StaysBeyond(cfg: Config, x: Moment, m: Move, y: Moment, n: nat)
    requires Good(x) && Next(cfg, x, m, y) && Beyond(x.state, n) && cfg.start.None?
    ensures Beyond(y.state, n)
  {
    StepShape(cfg, x, m, y);
    var c, c' := x.state.chain, y.state.chain;
    if y.state.mem.None? {
      if x.state.disk.Some? {
        IndexOnlyGrows(c, c', x.state.disk.value);
      }
    } else {
      if x.state.mem.None? && x.state.disk.None? {
        TipIsAtEnd(c);
      } else {
        IndexOnlyGrows(c, c', y.state.life.origin.value);
      }
      OriginBeyond(y.state, n);
    }
  }

  lemma OriginBeyond(s: State, n: nat)
    requires Inv(s) && s.mem.Some? && s.life.origin.Some? && n <= Index(s.chain, s.life.origin.value)
    ensures Beyond(s, n)
  {
  }

  lemma {:induction false} RunStaysBeyond(cfg: Config, xs: seq<Moment>, ms: seq<Move>, j: nat, k: nat, n: nat)
    requires IsRun(cfg, xs, ms) && Initial(xs[0]) && j <= k < |xs| && Beyond(xs[j].state, n) && cfg.start.None?
    ensures Beyond(xs[k].state, n)
  {
    if j < k {
      RunStaysBeyond(cfg, xs, ms, j, k - 1, n);
      RunKeepsGood(cfg, xs, ms, k - 1);
      StaysBeyond(cfg, xs[k - 1], ms[k - 1], xs[k], n);
    }
  }

  /** Where the log's reader has got to, or the log's end. */
  function Reach(s: State): (n: nat)
    ensures n <= |s.chain.log|
  {
    if s.mem.Some? then Index(s.chain, s.mem.value) else |s.chain.log|
  }

  lemma ReachRises(cfg: Config, x: Moment, m: Move, y: Moment)
    requires Good(x) && Next(cfg, x, m, y) && x.state.disk.None? && cfg.start.None?
    ensures Reach(x.state) <= Reach(y.state)
  {
    StepShape(cfg, x, m, y);
    NextNeverMovesBack(cfg, x, m, y);
    TipIsAtEnd(x.state.chain);
  }

  lemma {:induction false} RunReachRises(cfg: Config, xs: seq<Moment>, ms: seq<Move>, l: nat, i: nat)
    requires IsRun(cfg, xs, ms) && Initial(xs[0]) && l <= i < |xs| && xs[i].state.disk.None? && cfg.start.None?
    ensures Reach(xs[l].state) <= Reach(xs[i].state)
  {
    if l < i {
      RunKeepsGood(cfg, xs, ms, i - 1);
      NextNeverMovesBack(cfg, xs[i - 1], ms[i - 1], xs[i]);
      RunReachRises(cfg, xs, ms, l, i - 1);
      ReachRises(cfg, xs[i - 1], ms[i - 1], xs[i]);
    }
  }

  /** Without a checkpoint now there was none before. */
  lemma NoEarlierCheckpoint(cfg: Config, xs: seq<Moment>, ms: seq<Move>, i: nat, j: nat)
    requires IsRun(cfg, xs, ms) && Initial(xs[0]) && i <= j < |xs| && xs[j].state.disk.None?
    ensures xs[i].state.disk.None?
  {
    if xs[i].state.disk.Some? {
      CheckpointNeverMovesBack(cfg, xs, ms, i, j);
    }
  }

  /** The first event behind the last cursor has no entry up to the lossy start. */
  lemma NoEntryBefore(cfg: Config, xs: seq<Moment>, ms: seq<Move>, i: nat, j: nat, l: nat)
    requires IsRun(cfg, xs, ms) && Initial(xs[0]) && LossyStart(cfg, xs, i, j) && l <= j
    ensures var c := xs[j].state.chain; !InHistory(xs[l].state, c.log[Index(c, xs[i].state.mem.value)])
  {
    var c := xs[j].state.chain;
    var n := Index(c, xs[i].state.mem.value);
    RunKeepsGood(cfg, xs, ms, l);
    RunGrows(cfg, xs, ms, l, j);
    if InHistory(xs[l].state, c.log[n]) {
      OnlyOwnSegment(xs[l].state, c, n);
      NoEarlierCheckpoint(cfg, xs, ms, i, j);
      RunReachRises(cfg, xs, ms, l, i);
      RunKeepsGood(cfg, xs, ms, i);
      RunGrows(cfg, xs, ms, i, j);
      IndexOnlyGrows(xs[i].state.chain, c, xs[i].state.mem.value);
    }
  }

  /** After the lossy start every position lies at or behind the end of the log it found. */
  lemma BeyondAfter(cfg: Config, xs: seq<Moment>, ms: seq<Move>, i: nat, j: nat, l: nat)
    requires IsRun(cfg, xs, ms) && Initial(xs[0]) && LossyStart(cfg, xs, i, j) && j < l < |xs|
    ensures Beyond(xs[l].state, |xs[j].state.chain.log|)
  {
    var c := xs[j].state.chain;
    ShapedAt(cfg, xs, ms, j);
    TipIsAtEnd(c);
    RunKeepsGood(cfg, xs, ms, j + 1);
    OriginBeyond(xs[j + 1].state, |c.log|);
    RunStaysBeyond(cfg, xs, ms, j + 1, l, |c.log|);
  }

  lemma NotInHistoryBeyond(s: State, c: Chain, i: nat, n: nat)
    requires Inv(s) && Beyond(s, n) && WfChain(c) && c.log <= s.chain.log && i < |c.log| && i < n
    ensures !InHistory(s, c.log[i])
  {
    if InHistory(s, c.log[i]) {
      assert s.chain.log[i] == c.log[i];
      OnlyOwnSegment(s, s.chain, i);
    }
  }

  /** Nor after it. */
  lemma NoEntryAfter(cfg: Config, xs: seq<Moment>, ms: seq<Move>, i: nat, j: nat, l: nat)
    requires IsRun(cfg, xs, ms) && Initial(xs[0]) && LossyStart(cfg, xs, i, j) && j < l < |xs|
    ensures var c := xs[j].state.chain; !InHistory(xs[l].state, c.log[Index(c, xs[i].state.mem.value)])
    ensures Beyond(xs[l].state, |xs[j].state.chain.log|) && xs[j].state.chain.log <= xs[l].state.chain.log
  {
    var c := xs[j].state.chain;
    BeyondAfter(cfg, xs, ms, i, j, l);
    RunGrows(cfg, xs, ms, j, l);
    RunKeepsGood(cfg, xs, ms, l);
    NotInHistoryBeyond(xs[l].state, c, Index(c, xs[i].state.mem.value), |c.log|);
  }

  /** The lost event lies in a ledger after the first one. */
  lemma LostLedger(cfg: Config, xs: seq<Moment>, ms: seq<Move>, b: nat, first: nat, i: nat, j: nat)
    requires IsRun(cfg, xs, ms) && Initial(xs[0]) && FirstCursor(xs, b, first) && LossyStart(cfg, xs, i, j)
    ensures var c := xs[j].state.chain; first < c.log[Index(c, xs[i].state.mem.value)].ledger
  {
    var c := xs[j].state.chain;
    FirstStartShape(cfg, xs, ms, b, first);
    NoEarlierCheckpoint(cfg, xs, ms, i, j);
    RunReachRises(cfg, xs, ms, b, i);
    RunKeepsGood(cfg, xs, ms, i);
    RunGrows(cfg, xs, ms, i, j);
    RunGrows(cfg, xs, ms, b, j);
    IndexOnlyGrows(xs[i].state.chain, c, xs[i].state.mem.value);
    IndexIsStable(xs[b].state.chain, c, At(first, None));
    AfterLedgerSplits(c.log, first);
  }

  lemma LossyStartLoses(cfg: Config, xs: seq<Moment>, ms: seq<Move>, b: nat, k: nat, first: nat, i: nat, j: nat)
    requires IsRun(cfg, xs, ms) && Initial(xs[0]) && k < |xs| && FirstCursor(xs, b, first) && xs[k].state.mem.Some?
    requires LossyStart(cfg, xs, i, j) && j < k
    ensures !Accounted(xs, k, first, xs[k].state.mem.value)
  {
    var c := xs[j].state.chain;
    var n := Index(c, xs[i].state.mem.value);
    forall l | 0 <= l <= k ensures !InHistory(xs[l].state, c.log[n]) {
      if l <= j {
        NoEntryBefore(cfg, xs, ms, i, j, l);
      } else {
        NoEntryAfter(cfg, xs, ms, i, j, l);
      }
    }
    NoEntryAfter(cfg, xs, ms, i, j, k);
    LostLedger(cfg, xs, ms, b, first, i, j);
    assert xs[k].state.chain.log[n] == c.log[n];
    assert !HasEntry(xs, k, xs[k].state.chain.log[n]);
  }

  /**
   Over any run: every event behind the ledger the first process began after, up to the cursor,
   has an entry in some process's history iff no process, with no start ledger configured and no
   checkpoint saved, began at a tip when events lay behind the last process's cursor.
   */
  lemma EventsLostIffTipRanAway(cfg: Config, xs: seq<Moment>, ms: seq<Move>, b: nat, k: nat, first: nat)
    requires IsRun(cfg, xs, ms) && Initial(xs[0]) && b <= k < |xs| && FirstCursor(xs, b, first)
    requires xs[k].state.mem.Some?
    ensures Accounted(xs, k, first, xs[k].state.mem.value) <==> NoLossyStart(cfg, xs, k)
  {
    if NoLossyStart(cfg, xs, k) {
      RunStaysSettled(cfg, xs, ms, b, k, first);
    } else {
      var i, j :| 0 <= i < j < k && LossyStart(cfg, xs, i, j);
      LossyStartLoses(cfg, xs, ms, b, k, first, i, j);
    }
  }

  /** A process that had a cursor and is restarted before any checkpoint of it, or an earlier one, reached the disk. */
  ghost predicate RestartsUnsaved(xs: seq<Moment>, ms: seq<Move>, l: nat) {
    l < |ms| && l < |xs| && ms[l].RestartMove? && xs[l].state.mem.Some? && xs[l].state.disk.None?
  }

  lemma LossyStartRestartsUnsaved(cfg: Config, xs: seq<Moment>, ms: seq<Move>, i: nat, j: nat)
    requires IsRun(cfg, xs, ms) && Initial(xs[0]) && LossyStart(cfg, xs, i, j)
    ensures RestartsUnsaved(xs, ms, i)
  {
    RunKeepsGood(cfg, xs, ms, i);
    ShapedAt(cfg, xs, ms, i);
    NoEarlierCheckpoint(cfg, xs, ms, i, j);
  }

  /** So a configured start ledger, or a checkpoint saved before every restart, loses nothing. */
  lemma NothingLostOnceSaved(cfg: Config, xs: seq<Moment>, ms: seq<Move>, b: nat, k: nat, first: nat)
    requires IsRun(cfg, xs, ms) && Initial(xs[0]) && b <= k < |xs| && FirstCursor(xs, b, first)
    requires xs[k].state.mem.Some?
    requires cfg.start.Some? || forall l :: 0 <= l < k ==> !RestartsUnsaved(xs, ms, l)
    ensures Accounted(xs, k, first, xs[k].state.mem.value)
  {
    forall i, j | 0 <= i < j < k ensures !LossyStart(cfg, xs, i, j) {
      if LossyStart(cfg, xs, i, j) {
        LossyStartRestartsUnsaved(cfg, xs, ms, i, j);
      }
    }
    EventsLostIffTipRanAway(cfg, xs, ms, b, k, first);
  }

  // ---------- when a crash now can lose something ----------

  /** After a crash now and no other, an event between the old cursor and the new one has no entry. */
  ghost predicate LosesBetween(cfg: Config, ys: seq<Moment>, gs: seq<Move>, n: nat) {
    && IsRun(cfg, ys, gs) && gs != [] && gs[0].RestartMove? && NoRestart(gs, 1, |gs|)
    && ys[0].state.mem.Some? && ys[|gs|].state.mem.Some?
    && var c := ys[|gs|].state.chain;
    && Index(c, ys[0].state.mem.value) <= n < Index(c, ys[|gs|].state.mem.value)
    && !HasEntry(ys, |gs|, c.log[n])
  }

  ghost predicate CrashCanLose(cfg: Config, x: Moment) {
    exists ys, gs, n :: LosesBetween(cfg, ys, gs, n) && ys[0] == x
  }

  /** A process that begins no later than the old one's cursor passes everything in between. */
  lemma HandedOnIsNotLost(cfg: Config, ys: seq<Moment>, gs: seq<Move>, n: nat)
    requires IsRun(cfg, ys, gs) && Good(ys[0]) && ys[0].state.mem.Some? && BeganAtStart(cfg, ys[0].state)
    requires ys[0].state.disk.Some? || cfg.start.Some?
    ensures !LosesBetween(cfg, ys, gs, n)
  {
    if LosesBetween(cfg, ys, gs, n) {
      var s, s' := ys[0].state, ys[|gs|].state;
      assert Next(cfg, ys[0], gs[0], ys[1]);
      RunSameProcess(cfg, ys, gs, 1, |gs|);
      RunKeepsGoodFrom(cfg, ys, gs, |gs|);
      RunGrows(cfg, ys, gs, 0, |gs|);
      GrowKeepsInv(s, s'.chain);
      OriginNotAfterCursor(s.(chain := s'.chain));
      OwnSegment(s', n);
    }
  }

  lemma OriginNotAfterCursor(s: State)
    requires Inv(s) && s.mem.Some?
    ensures s.life.origin.Some? && Index(s.chain, s.life.origin.value) <= Index(s.chain, s.mem.value)
    ensures s.disk.Some? ==> Index(s.chain, s.disk.value) <= Index(s.chain, s.mem.value)
  {
  }

  /** An id the log does not have. */
  function FreshId(log: seq<ChainEvent>): (id: EventId)
    ensures forall e <- log :: |e.id| < |id|
  {
    if log == [] then "x"
    else
      var id := FreshId(log[..|log| - 1]);
      if |log[|log| - 1].id| < |id| then id else seq(|log[|log| - 1].id| + 1, _ => 'x')
  }

  /** One more event arrives, in a ledger behind this one. */
  lemma OneMore(c: Chain, ledger: nat, m: Message) returns (c': Chain)
    requires WfChain(c)
    ensures Grows(c, c') && ledger < c'.tip && |c'.log| == |c.log| + 1 && c'.log[..|c.log|] == c.log
    ensures c'.log[|c.log|].message == m && ledger < c'.log[|c.log|].ledger
  {
    var tip := 1 + if c.tip < ledger then ledger else c.tip;
    var e := ChainEvent(FreshId(c.log), tip, None, "", m);
    c' := Chain(c.log + [e], tip);
  }

  lemma NewEventIsBehind(c: Chain, c': Chain, p: Position)
    requires Grows(c, c') && WfPosition(c, p) && |c'.log| == |c.log| + 1 && p.ledger < c'.log[|c.log|].ledger
    ensures Index(c', p) <= |c.log|
  {
    if p.eventId.Some? {
      IndexIsStable(c, c', p);
    } else {
      AfterLedgerSplits(c'.log, p.ledger);
    }
  }

  function StartOracle(c: Chain, save: Write): Oracle {
    Oracle(true, true, c, RpcError, save, [])
  }

  /** A process without cursor and checkpoint begins at the tip, and saves. */
  lemma BeginsAtTip(cfg: Config, x: Moment) returns (y: Moment)
    requires Good(x) && x.alive && x.state.mem.None? && x.state.disk.None? && cfg.watching && cfg.start.None?
    ensures Next(cfg, x, PollMove(StartOracle(x.state.chain, Done)), y) && y.alive
    ensures y.state.life.history == x.state.life.history && y.state.tables == x.state.tables
    ensures y.state.chain == x.state.chain && y.state.disk == y.state.mem == Some(At(x.state.chain.tip, None))
  {
    y := Moment(Poll(cfg, x.state, StartOracle(x.state.chain, Done)).0, true);
  }

  /** The new event is in no history: not in the old process's, and the new one's is empty. */
  lemma NewEventHasNoEntry(x: Moment, c: Chain, ys: seq<Moment>)
    requires Inv(x.state) && x.state.mem.Some? && Grows(x.state.chain, c) && |x.state.chain.log| < |c.log|
    requires |ys| == 4 && ys[0] == x && forall l :: 1 <= l <= 3 ==> ys[l].state.life.history == []
    ensures !HasEntry(ys, 3, c.log[|x.state.chain.log|])
  {
    if InHistory(x.state, c.log[|x.state.chain.log|]) {
      OnlyOwnSegment(x.state, c, |x.state.chain.log|);
    }
  }

  /** A crash now, one event, and the new process at the tip behind it. */
  lemma CrashLoses(cfg: Config, x: Moment, m: Message) returns (ys: seq<Moment>, gs: seq<Move>)
    requires Good(x) && cfg.watching && cfg.start.None? && x.state.mem.Some? && x.state.disk.None?
    ensures LosesBetween(cfg, ys, gs, |x.state.chain.log|) && ys[0] == x && |gs| == 3
    ensures forall l :: 1 <= l <= 3 ==> ys[l].state.life.history == [] && ys[l].state.tables == x.state.tables
    ensures var s := ys[3].state;
            && ys[3].alive && s.disk == s.mem && |s.chain.log| == |x.state.chain.log| + 1
            && s.chain.log[|x.state.chain.log|].message == m && Index(s.chain, s.mem.value) == |s.chain.log|
  {
    var s := x.state;
    var c' := OneMore(s.chain, s.mem.value.ledger, m);
    var x1 := Moment(Restarted(s), true);
    var x2 := Moment(x1.state.(chain := c'), true);
    NextKeepsGood(cfg, x, RestartMove, x1);
    NextKeepsGood(cfg, x1, Growth(c'), x2);
    var x3 := BeginsAtTip(cfg, x2);
    ys, gs := [x, x1, x2, x3], [RestartMove, Growth(c'), PollMove(StartOracle(c', Done))];
    ThreeMoves(cfg, x, RestartMove, x1, Growth(c'), x2, PollMove(StartOracle(c', Done)), x3);
    TipIsAtEnd(c');
    NewEventIsBehind(s.chain, c', s.mem.value);
    NewEventHasNoEntry(x, c', ys);
  }

  lemma ThreeMoves(cfg: Config, w: Moment, m: Move, x: Moment, n: Move, y: Moment, o: Move, z: Moment)
    requires Next(cfg, w, m, x) && Next(cfg, x, n, y) && Next(cfg, y, o, z)
    ensures IsRun(cfg, [w, x, y, z], [m, n, o])
    ensures !n.RestartMove? && !o.RestartMove? ==> NoRestart([m, n, o], 1, 3)
  {
  }

  /**
   At a moment with a cursor: a crash, and no other, can make an event between the old cursor and
   a new one go without an entry iff no checkpoint has been saved and no start ledger is configured.
   */
  lemma CrashLosesIffNeverSaved(cfg: Config, xs: seq<Moment>, ms: seq<Move>, k: nat)
    requires IsRun(cfg, xs, ms) && Initial(xs[0]) && k < |xs| && xs[k].state.mem.Some? && cfg.watching
    ensures CrashCanLose(cfg, xs[k]) <==> xs[k].state.disk.None? && cfg.start.None?
  {
    RunKeepsGood(cfg, xs, ms, k);
    RunBeganAtStart(cfg, xs, ms, k);
    if xs[k].state.disk.None? && cfg.start.None? {
      var ys, gs := CrashLoses(cfg, xs[k], ToNobody);
    } else if CrashCanLose(cfg, xs[k]) {
      var ys, gs, n :| LosesBetween(cfg, ys, gs, n) && ys[0] == xs[k];
      HandedOnIsNotLost(cfg, ys, gs, n);
    }
  }

  /**
   From a first start on any tables: the first save fails, the process restarts, and whatever
   event arrived meanwhile is behind cursor and checkpoint, in no history and not in the tables.
   */
  lemma FailedFirstSaveLosesEvent(cfg: Config, t: Tables, dead: DeadLetters.Table, m: Message)
    returns (xs: seq<Moment>, ms: seq<Move>)
    requires cfg.watching && cfg.start.None?
    ensures IsRun(cfg, xs, ms) && Initial(xs[0]) && |ms| == 4 && xs[1].state.mem.Some?
    ensures forall l :: 0 <= l <= 4 ==> xs[l].state.life.history == [] && xs[l].state.tables == t
    ensures var s := xs[4].state;
            && xs[4].alive && |s.chain.log| == 1 && s.chain.log[0].message == m
            && s.mem.Some? && s.disk == s.mem && Index(s.chain, s.mem.value) == 1
  {
    var c := Chain([], 0);
    var x := Moment(State(c, t, dead, None, None, Life(None, [], 0, false, t)), true);
    var o := StartOracle(c, Failed(false));
    var y := Moment(Poll(cfg, x.state, o).0, true);
    NextKeepsGood(cfg, x, PollMove(o), y);
    var ys, gs := CrashLoses(cfg, y, m);
    xs, ms := RunsJoin(cfg, [x, y], [PollMove(o)], ys, gs);
  }
}
