/** Runs in which a crash has everything committed a second time. */
module AppliedTwice {
  import opened Wrappers
  import opened Events
  import opened StreamTables
  import opened ChainLog
  import opened Redelivery
  import opened Worker
  import opened IndexerRuns
  import opened CrashDrift

  function Decodable(es: seq<ChainEvent>): seq<ChainEvent> {
    if es == [] then []
    else Decodable(es[..|es| - 1]) + if Undecodable(es[|es| - 1].message) then [] else [es[|es| - 1]]
  }

  lemma {:induction false} CommittedAreDecodable(h: seq<Entry>)
    requires forall entry <- h :: entry.committed <==> !Undecodable(entry.event.message)
    ensures CommittedEvents(h) == Decodable(EventsOf(h))
  {
    if h != [] {
      CommittedAreDecodable(h[..|h| - 1]);
      assert EventsOf(h)[..|h| - 1] == EventsOf(h[..|h| - 1]);
      assert h[|h| - 1] in h;
    }
  }

  /** A process that has committed its whole log since the start. */
  lemma WholeLogCommitted(s: State)
    requires Inv(s) && AllCommitted(s) && s.mem.Some? && Index(s.chain, s.mem.value) == |s.chain.log|
    requires s.life.origin.Some? && Index(s.chain, s.life.origin.value) == 0
    ensures CommittedEvents(s.life.history) == Decodable(s.chain.log)
  {
    CommittedAreDecodable(s.life.history);
    assert s.chain.log[0..|s.chain.log|] == s.chain.log;
  }

  lemma NothingSavedSinceStart(s: State)
    requires Inv(s) && AllCommitted(s) && s.mem.Some? && s.disk.Some?
    requires Index(s.chain, s.mem.value) == |s.chain.log| && Index(s.chain, s.disk.value) == 0
    ensures s.life.origin.Some? && Index(s.chain, s.life.origin.value) == 0
    ensures SavedPrefix(s) == 0 && Unsaved(s) == Decodable(s.chain.log)
  {
    SavedPrefixCounts(s);
    WholeLogCommitted(s);
    assert s.life.history[0..] == s.life.history;
  }

  function IdlePoll(s: State): Oracle { Oracle(true, false, s.chain, RpcError, Done, []) }

  /** The process restarts and reads the checkpoint, and gets no further. */
  lemma RestartsAndReads(cfg: Config, x: Moment) returns (y: Moment, z: Moment)
    requires Good(x) && x.state.disk.Some? && cfg.watching
    ensures y == Moment(Restarted(x.state), true) && Next(cfg, x, RestartMove, y)
    ensures Next(cfg, y, PollMove(IdlePoll(y.state)), z) && Good(z) && z.alive
    ensures z.state.mem == z.state.disk == x.state.disk && z.state.chain == x.state.chain
    ensures z.state.life.origin == z.state.disk && AllCommitted(z.state)
  {
    y := Moment(Restarted(x.state), true);
    z := Moment(Poll(cfg, y.state, IdlePoll(y.state)).0, true);
    NextKeepsGood(cfg, x, RestartMove, y);
    NextKeepsGood(cfg, y, PollMove(IdlePoll(y.state)), z);
  }

  /** What the first process makes of the tables when it commits the whole log. */
  lemma FirstTables(cfg: Config, xs: seq<Moment>, ms: seq<Move>)
    requires IsRun(cfg, xs, ms) && Initial(xs[0]) && NoRestart(ms, 0, |ms|)
    requires var s := xs[|ms|].state;
             && AllCommitted(s) && s.mem.Some? && s.disk.Some?
             && Index(s.chain, s.mem.value) == |s.chain.log| && Index(s.chain, s.disk.value) == 0
    ensures xs[|ms|].state.tables == EffectAll(xs[0].state.tables, Decodable(xs[|ms|].state.chain.log))
  {
    var s := xs[|ms|].state;
    RunKeepsGood(cfg, xs, ms, |ms|);
    ProcessTables(cfg, xs, ms, 0, |ms|);
    NothingSavedSinceStart(s);
    WholeLogCommitted(s);
    assert CommittedEvents(s.life.history) + [] == CommittedEvents(s.life.history);
  }

  /** The run up to the restart: every event handled and committed, none of it saved. */
  lemma HandledUnsaved(cfg: Config, t: Tables, dead: DeadLetters.Table, messages: seq<Message>)
    returns (xs: seq<Moment>, ms: seq<Move>)
    requires cfg.watching && (cfg.limit.Some? ==> 1 <= cfg.limit.value)
    ensures IsRun(cfg, xs, ms) && Initial(xs[0]) && xs[0].state.tables == t && Good(xs[|ms|])
    ensures var s := xs[|ms|].state;
            && AllCommitted(s) && s.mem.Some? && s.disk.Some? && Index(s.chain, s.disk.value) == 0
            && Index(s.chain, s.mem.value) == |s.chain.log| == |messages|
            && (forall i :: 0 <= i < |messages| ==> s.chain.log[i].message == messages[i])
            && s.tables == EffectAll(t, Decodable(s.chain.log))
  {
    var before, moves := StartBeforeEvents(cfg, t, dead, messages);
    xs, ms := FailedSavesFollow(cfg, before, moves, |messages|);
    assert NoRestart(ms, 0, |ms|);
    RunKeepsGood(cfg, xs, ms, |ms|);
    FirstTables(cfg, xs, ms);
  }

  /** And the run of the process after it, which handles every event again. */
  lemma HandledAgain(cfg: Config, xs: seq<Moment>, ms: seq<Move>) returns (zs: seq<Moment>, gs: seq<Move>)
    requires cfg.watching && (cfg.limit.Some? ==> 1 <= cfg.limit.value)
    requires IsRun(cfg, xs, ms) && Good(xs[|ms|]) && xs[|ms|].state.disk.Some?
    requires Index(xs[|ms|].state.chain, xs[|ms|].state.disk.value) == 0
    ensures IsRun(cfg, zs, gs) && |ms| < |gs| && gs[|ms|].RestartMove? && NoRestart(gs, |ms| + 1, |gs|)
    ensures zs[0] == xs[0] && zs[|ms|] == xs[|ms|]
    ensures var s := zs[|gs|].state;
            && AllCommitted(s) && s.mem.Some? && s.chain == xs[|ms|].state.chain && s.disk == xs[|ms|].state.disk
            && Index(s.chain, s.mem.value) == |s.chain.log|
  {
    var y, z := RestartsAndReads(cfg, xs[|ms|]);
    RunExtends(cfg, xs, ms, RestartMove, y);
    var xs1, ms1 := xs + [y], ms + [RestartMove];
    var m := PollMove(IdlePoll(y.state));
    RunExtends(cfg, xs1, ms1, m, z);
    var xs2, ms2 := xs1 + [z], ms1 + [m];
    zs, gs := FailedSavesFollow(cfg, xs2, ms2, |z.state.chain.log|);
    NoRestartAfter(ms, gs, m);
  }

  lemma NoRestartAfter(ms: seq<Move>, gs: seq<Move>, m: Move)
    requires ms + [RestartMove] + [m] <= gs && !m.RestartMove? && NoRestart(gs, |ms| + 2, |gs|)
    ensures gs[|ms|].RestartMove? && NoRestart(gs, |ms| + 1, |gs|)
  {
    assert gs[|ms|] == (ms + [RestartMove] + [m])[|ms|];
    assert gs[|ms| + 1] == (ms + [RestartMove] + [m])[|ms| + 1];
  }

  /** The process after the crash has committed the whole log again. */
  lemma CommitsWholeLogAgain(cfg: Config, xs: seq<Moment>, ms: seq<Move>, k: nat, j: nat)
    requires AfterCrash(cfg, xs, ms, k, j)
    requires var s := xs[k].state;
             && AllCommitted(s) && s.mem.Some? && s.disk.Some? && Index(s.chain, s.disk.value) == 0
             && Index(s.chain, s.mem.value) == |s.chain.log|
    requires var s' := xs[j].state;
             && AllCommitted(s') && s'.mem.Some? && s'.chain == xs[k].state.chain
             && Index(s'.chain, s'.mem.value) == |s'.chain.log|
    ensures CommitsAgain(xs[k].state, xs[j].state) && Unsaved(xs[k].state) == Decodable(xs[k].state.chain.log)
    ensures xs[j].state.tables == EffectAll(xs[k].state.tables, Decodable(xs[k].state.chain.log))
  {
    RunKeepsGood(cfg, xs, ms, k);
    RunKeepsGood(cfg, xs, ms, j);
    CrashHandsOutAgain(cfg, xs, ms, k, j);
    NothingSavedSinceStart(xs[k].state);
    WholeLogCommitted(xs[j].state);
    assert CommittedEvents(xs[j].state.life.history) + [] == CommittedEvents(xs[j].state.life.history);
  }

  /**
   From a first start on any tables, whatever events follow: every save fails, the process is
   restarted, and every decodable event is applied a second time.
   */
  lemma EveryEventAppliedTwice(cfg: Config, t: Tables, dead: DeadLetters.Table, messages: seq<Message>)
    returns (xs: seq<Moment>, ms: seq<Move>, k: nat)
    requires cfg.watching && (cfg.limit.Some? ==> 1 <= cfg.limit.value)
    ensures AfterCrash(cfg, xs, ms, k, |ms|) && CommitsAgain(xs[k].state, xs[|ms|].state)
    ensures var log := xs[k].state.chain.log;
            && |log| == |messages| && (forall i :: 0 <= i < |messages| ==> log[i].message == messages[i])
            && xs[|ms|].state.tables == EffectAll(EffectAll(t, Decodable(log)), Decodable(log))
  {
    var ys, fs := HandledUnsaved(cfg, t, dead, messages);
    k := |fs|;
    xs, ms := HandledAgain(cfg, ys, fs);
    CommitsWholeLogAgain(cfg, xs, ms, k, |ms|);
  }
}
