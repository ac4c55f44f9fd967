/** Registry events that are in the tables and were given up all the same. */
module CommittedFates {
  import opened Wrappers
  import opened Events
  import opened StreamTables
  import opened ChainLog
  import opened Worker
  import opened IndexerRuns

  /** A registry handler whose read of the NGO's id fails: the transaction before it has committed. */
  predicate FailsAfterCommit(t: Tables, m: Message, fault: Fault) {
    m.ToRegistry? && Audited(t, m) && fault.AfterCommit?
  }

  lemma ThrowingCommitsIff(t: Tables, m: Message, fault: Fault)
    requires Outcome(t, m, fault).Threw?
    ensures Commits(t, m, fault) <==> FailsAfterCommit(t, m, fault)
  {
  }

  lemma FinishedCatch(s: State, e: ChainEvent, a: Answer)
    requires Outcome(s.tables, e.message, a.fault).Threw? && HandleOne(s, e, a).1.Finished?
    ensures var error := Outcome(s.tables, e.message, a.fault).error;
            HandleOne(s, e, a)
            == Advanced(WithDeadLetter(AfterHandler(s, e, a), e, error, a.deadStamp), e, DeadLettered, a.save)
  {
  }

  lemma CatchEntry(s: State, e: ChainEvent, error: string, stamp: DeadLetters.Stamp, save: Write)
    ensures var s' := Advanced(WithDeadLetter(s, e, error, stamp), e, DeadLettered, save).0;
            && s'.life.history == s.life.history + [Entry(e, DeadLettered, s.life.pending)]
            && e.id in s'.dead
  {
  }

  /**
   A turn of the loop that finishes after its handler threw leaves a dead-lettered entry, and
   that entry is committed iff this handler failed after its commit or an earlier attempt had
   committed already. For a vault event it never is.
   */
  lemma ThrownAndCommittedIff(s: State, e: ChainEvent, a: Answer)
    requires AtEvent(s, e) && Outcome(s.tables, e.message, a.fault).Threw? && HandleOne(s, e, a).1.Finished?
    ensures var s' := HandleOne(s, e, a).0;
            && s'.life.history == s.life.history
                 + [Entry(e, DeadLettered, s.life.pending || FailsAfterCommit(s.tables, e.message, a.fault))]
            && e.id in s'.dead
    ensures e.message.ToVault? ==> !s.life.pending && !FailsAfterCommit(s.tables, e.message, a.fault)
  {
    ThrowingCommitsIff(s.tables, e.message, a.fault);
    FinishedCatch(s, e, a);
    CatchEntry(AfterHandler(s, e, a), e, Outcome(s.tables, e.message, a.fault).error, a.deadStamp, a.save);
  }

  /** A turn that ends in a retry leaves its event pending iff the same holds. */
  lemma RetriedAndCommittedIff(s: State, e: ChainEvent, a: Answer)
    requires Outcome(s.tables, e.message, a.fault).Threw?
    requires !Undecodable(e.message) && !a.permanent && a.death.Survives?
    ensures HandleOne(s, e, a).1.Rejected? && HandleOne(s, e, a).0.mem == s.mem
    ensures HandleOne(s, e, a).0.life.history == s.life.history
    ensures HandleOne(s, e, a).0.life.pending <==> s.life.pending || FailsAfterCommit(s.tables, e.message, a.fault)
  {
  }

  /** A skip-ahead gives up a committed event iff one was pending, and then the first it skips. */
  lemma SkippedAndCommittedIff(s: State, ledger: nat, i: nat)
    requires s.mem.Some? && i < |SkippedEntries(s, ledger)|
    ensures var h := SkippedTo(s, ledger).life.history;
            && |h| == |s.life.history| + |SkippedEntries(s, ledger)|
            && h[|s.life.history| + i].fate == SkippedAhead
            && (h[|s.life.history| + i].committed <==> i == 0 && s.life.pending)
  {
  }

  // ---------- both happen ----------

  function FailingAnswer(permanent: bool): Answer {
    Answer(AfterCommit("read failed"), DeadLetters.Stamp("", 0), Survives, permanent, Done,
      DeadLetters.Stamp("", 0), Done)
  }

  /** A poll that finds one event, whose handler fails after its commit. */
  function FailingPoll(s: State, permanent: bool): Oracle
    requires |s.chain.log| == 1
  {
    Oracle(true, true, s.chain, Page([s.chain.log[0]]), Done, [FailingAnswer(permanent)])
  }

  function SkippingPoll(s: State): Oracle {
    Oracle(true, true, s.chain, OutOfRange, Done, [])
  }

  /** One registration has arrived behind the cursor, and nothing has happened yet. */
  ghost predicate RegistrationWaits(s: State, owner: string, name: string) {
    && WfChain(s.chain) && s.mem.Some? && |s.chain.log| == 1 && Index(s.chain, s.mem.value) == 0
    && s.chain.log[0].message == ToRegistry(Register(owner, name))
    && s.life.history == []
  }

  predicate Registered(t: Tables, owner: string, name: string) { owner in t.ngos && t.ngos[owner].name == name }

  lemma FailingPollIs(cfg: Config, s: State, owner: string, name: string, permanent: bool)
    requires RegistrationWaits(s, owner, name) && cfg.watching && (cfg.limit.Some? ==> 1 <= cfg.limit.value)
    ensures ValidOracle(cfg, s, FailingPoll(s, permanent))
    ensures Poll(cfg, s, FailingPoll(s, permanent)) == HandleOne(s, s.chain.log[0], FailingAnswer(permanent))
  {
    assert [s.chain.log[0]] == s.chain.log[0..1];
    EventsLeftMeansBehind(s.chain, s.mem.value);
    assert s.(chain := s.chain) == s;
    PageOfOneEvent(s, s.chain.log[0], FailingAnswer(permanent));
  }

  lemma PageOfOneEvent(s: State, e: ChainEvent, a: Answer)
    ensures HandlePage(s, [e], [a]) == HandleOne(s, e, a)
  {
    var (s', exit) := HandleOne(s, e, a);
    assert [e][1..] == [] && [a][1..] == [];
  }

  /** The registration is committed, and given up or left pending. */
  lemma FailingTurn(s: State, e: ChainEvent, owner: string, name: string, permanent: bool)
    requires e.message == ToRegistry(Register(owner, name))
    ensures var (s', exit) := HandleOne(s, e, FailingAnswer(permanent));
            && Registered(s'.tables, owner, name) && s'.chain == s.chain && !exit.Dead?
            && (permanent ==> s'.life.history == s.life.history + [Entry(e, DeadLettered, true)] && e.id in s'.dead)
            && (!permanent ==> s'.life.history == s.life.history && s'.life.pending && s'.mem == s.mem)
  {
  }

  /** A poll out of the RPC's range, with that one event behind the cursor and pending. */
  lemma SkippingPollIs(cfg: Config, s: State, owner: string, name: string)
    requires RegistrationWaits(s, owner, name) && s.life.pending && cfg.watching
    ensures ValidOracle(cfg, s, SkippingPoll(s)) && !Poll(cfg, s, SkippingPoll(s)).1.Dead?
    ensures Poll(cfg, s, SkippingPoll(s)).0.life.history == [Entry(s.chain.log[0], SkippedAhead, true)]
    ensures Poll(cfg, s, SkippingPoll(s)).0.tables == s.tables
  {
    EventsLeftMeansBehind(s.chain, s.mem.value);
    TipIsAtEnd(s.chain);
    assert s.(chain := s.chain) == s;
  }

  /** One registration arrives behind a first start. */
  lemma RegistrationArrives(cfg: Config, t: Tables, dead: DeadLetters.Table, owner: string, name: string)
    returns (xs: seq<Moment>, ms: seq<Move>)
    requires cfg.watching
    ensures IsRun(cfg, xs, ms) && |ms| == 2 && Initial(xs[0]) && xs[0].state.tables == t
    ensures xs[2].alive && RegistrationWaits(xs[2].state, owner, name)
  {
    xs, ms := StartBeforeEvents(cfg, t, dead, [ToRegistry(Register(owner, name))]);
  }

  lemma FailingMove(cfg: Config, x: Moment, owner: string, name: string, permanent: bool) returns (m: Move, y: Moment)
    requires x.alive && RegistrationWaits(x.state, owner, name)
    requires cfg.watching && (cfg.limit.Some? ==> 1 <= cfg.limit.value)
    ensures Next(cfg, x, m, y) && y.alive && Registered(y.state.tables, owner, name)
    ensures var e := x.state.chain.log[0];
            && (permanent ==> y.state.life.history == [Entry(e, DeadLettered, true)] && e.id in y.state.dead)
            && (!permanent ==> RegistrationWaits(y.state, owner, name) && y.state.life.pending)
  {
    FailingPollIs(cfg, x.state, owner, name, permanent);
    FailingTurn(x.state, x.state.chain.log[0], owner, name, permanent);
    m := PollMove(FailingPoll(x.state, permanent));
    y := Moment(HandleOne(x.state, x.state.chain.log[0], FailingAnswer(permanent)).0, true);
  }

  /**
   From a first start on any tables: a registration commits, its handler fails afterwards, and
   the event is in the NGO table and in the dead-letter table.
   */
  lemma CommittedAndDeadLettered(cfg: Config, t: Tables, dead: DeadLetters.Table, owner: string, name: string)
    returns (xs: seq<Moment>, ms: seq<Move>)
    requires cfg.watching && (cfg.limit.Some? ==> 1 <= cfg.limit.value)
    ensures IsRun(cfg, xs, ms) && Initial(xs[0]) && xs[0].state.tables == t && |ms| == 3 && xs[3].alive
    ensures var s := xs[3].state;
            && |s.life.history| == 1 && s.life.history[0].fate == DeadLettered && s.life.history[0].committed
            && s.life.history[0].event.message == ToRegistry(Register(owner, name))
            && s.life.history[0].event.id in s.dead && Registered(s.tables, owner, name)
  {
    var before, moves := RegistrationArrives(cfg, t, dead, owner, name);
    var m, y := FailingMove(cfg, before[2], owner, name, true);
    RunExtends(cfg, before, moves, m, y);
    xs, ms := before + [y], moves + [m];
  }

  /**
   Or: the failure is retried, and before that happens the RPC no longer reaches back to the
   event, which is then in the NGO table and skipped.
   */
  lemma CommittedAndSkipped(cfg: Config, t: Tables, dead: DeadLetters.Table, owner: string, name: string)
    returns (xs: seq<Moment>, ms: seq<Move>)
    requires cfg.watching && (cfg.limit.Some? ==> 1 <= cfg.limit.value)
    ensures IsRun(cfg, xs, ms) && Initial(xs[0]) && xs[0].state.tables == t && |ms| == 4 && xs[4].alive
    ensures var s := xs[4].state;
            && |s.life.history| == 1 && s.life.history[0].fate == SkippedAhead && s.life.history[0].committed
            && s.life.history[0].event.message == ToRegistry(Register(owner, name))
            && Registered(s.tables, owner, name)
  {
    var before, moves := RegistrationArrives(cfg, t, dead, owner, name);
    var m, y := FailingMove(cfg, before[2], owner, name, false);
    SkippingPollIs(cfg, y.state, owner, name);
    var z := Moment(Poll(cfg, y.state, SkippingPoll(y.state)).0, true);
    xs, ms := RunExtendsTwice(cfg, before, moves, m, y, PollMove(SkippingPoll(y.state)), z);
  }
}
