/** What each answer of the outside world makes of one poll, over every run. */
module PollAnswers {
  import opened Wrappers
  import opened Events
  import opened StreamTables
  import opened ChainLog
  import opened Worker
  import opened IndexerRuns

  /** The poll has no cursor yet and asks the database for the checkpoint. */
  predicate AsksCheckpoint(cfg: Config, s: State) { cfg.watching && s.mem.None? }

  /** It asks for the latest ledger: always, but to begin at a configured ledger. */
  predicate AsksTip(cfg: Config, s: State, o: Oracle) {
    cfg.watching && (s.mem.Some? || (o.readOk && (s.disk.Some? || cfg.start.None?)))
  }

  /** It asks for events: it has a position, and the tip has passed it or it lies within a ledger. */
  predicate AsksEvents(cfg: Config, s: State, o: Oracle) {
    && AsksTip(cfg, s, o) && o.tipOk && FetchPosition(s).Some?
    && (FetchPosition(s).value.ledger < s.chain.tip || FetchPosition(s).value.eventId.Some?)
  }

  /** Something the poll asked for was refused, other than for its age. */
  predicate Refused(cfg: Config, s: State, o: Oracle) {
    || (AsksCheckpoint(cfg, s) && !o.readOk)
    || (AsksTip(cfg, s, o) && !o.tipOk)
    || (AsksEvents(cfg, s, o) && o.page.RpcError?)
  }

  /** Nothing but the chain is new, except that a cursor may have been read from the checkpoint. */
  ghost predicate NothingDone(s: State, s': State) {
    && s'.tables == s.tables && s'.dead == s.dead && s'.disk == s.disk
    && s'.life.history == s.life.history && s'.life.pending == s.life.pending && s'.life.unsaved == s.life.unsaved
    && (s.mem.Some? ==> s'.mem == s.mem)
    && (s.mem.None? ==> s'.mem == None || (s'.mem == s.disk && s'.life.origin == s.disk))
  }

  predicate NoneSkipped(entries: seq<Entry>) { forall entry <- entries :: !entry.fate.SkippedAhead? }

  lemma RefusedPoll(cfg: Config, s: State, o: Oracle)
    requires Inv(s) && ValidOracle(cfg, s, o) && Refused(cfg, s, o)
    ensures NothingDone(s, Poll(cfg, s, o).0) && Poll(cfg, s, o).1.Rejected?
  {
  }

  lemma MoveIsPoll(cfg: Config, xs: seq<Moment>, ms: seq<Move>, k: nat)
    requires IsRun(cfg, xs, ms) && Initial(xs[0]) && k < |ms| && ms[k].PollMove?
    ensures Inv(xs[k].state) && xs[k].alive && PendingIsRegistry(xs[k].state)
    ensures ValidOracle(cfg, xs[k].state, ms[k].oracle)
    ensures xs[k + 1].state == Poll(cfg, xs[k].state, ms[k].oracle).0
    ensures xs[k + 1].alive <==> !Poll(cfg, xs[k].state, ms[k].oracle).1.Dead?
  {
    RunKeepsGood(cfg, xs, ms, k);
    assert Next(cfg, xs[k], ms[k], xs[k + 1]);
  }

  /**
   A failed read, a failed tip or any RPC error but "out of range" leaves history, tables, dead
   letters and checkpoint as they were, and the cursor in place; the process goes on.
   */
  lemma RefusedPollChangesNothing(cfg: Config, xs: seq<Moment>, ms: seq<Move>, k: nat)
    requires IsRun(cfg, xs, ms) && Initial(xs[0]) && k < |ms| && ms[k].PollMove?
    requires Refused(cfg, xs[k].state, ms[k].oracle)
    ensures NothingDone(xs[k].state, xs[k + 1].state) && xs[k + 1].alive
  {
    MoveIsPoll(cfg, xs, ms, k);
    RefusedPoll(cfg, xs[k].state, ms[k].oracle);
  }

  // ---------- one event ----------

  /**
   The loop gets past an event whose handler returned, and past one that cannot be processed
   once that is on record; anything else stops the poll before it.
   */
  predicate GetsPast(s: State, e: ChainEvent, a: Answer) {
    && a.death.Survives?
    && (|| Outcome(s.tables, e.message, a.fault).Returned?
        || ((Undecodable(e.message) || a.permanent) && a.deadLetter.Done?))
  }

  /** The event has its entry and the cursor is behind it; the checkpoint follows if its save reaches the disk. */
  ghost predicate IsPast(s: State, e: ChainEvent, save: Write, s': State, exit: Exit) {
    && s'.mem == Some(At(e.ledger, Some(e.id)))
    && |s'.life.history| == |s.life.history| + 1 && s'.life.history[..|s.life.history|] == s.life.history
    && s'.life.history[|s.life.history|].event == e && !s'.life.history[|s.life.history|].fate.SkippedAhead?
    && s'.disk == (if Reached(save) then s'.mem else s.disk)
    && (exit.Finished? <==> save.Done?) && (exit.Dead? <==> save.Died?)
  }

  ghost predicate IsBefore(s: State, s': State, exit: Exit) {
    s'.mem == s.mem && s'.life.history == s.life.history && s'.disk == s.disk && !exit.Finished?
  }

  lemma AdvanceIsPast(s: State, s1: State, e: ChainEvent, fate: Fate, save: Write)
    requires s1.disk == s.disk && s1.life.history == s.life.history && !fate.SkippedAhead?
    ensures IsPast(s, e, save, Advanced(s1, e, fate, save).0, Advanced(s1, e, fate, save).1)
  {
  }

  lemma CatchStops(s: State, e: ChainEvent, a: Answer)
    requires a.death.Survives? && Outcome(s.tables, e.message, a.fault).Threw? && !GetsPast(s, e, a)
    ensures IsBefore(s, HandleOne(s, e, a).0, HandleOne(s, e, a).1)
  {
  }

  lemma CatchGoesOn(s: State, e: ChainEvent, a: Answer)
    requires Outcome(s.tables, e.message, a.fault).Threw? && GetsPast(s, e, a)
    ensures var error := Outcome(s.tables, e.message, a.fault).error;
            HandleOne(s, e, a)
            == Advanced(WithDeadLetter(AfterHandler(s, e, a), e, error, a.deadStamp), e, DeadLettered, a.save)
  {
  }

  /** One turn of the loop: which of the two it is, exactly. */
  lemma TurnGetsPastIff(s: State, e: ChainEvent, a: Answer)
    ensures var (s', exit) := HandleOne(s, e, a);
            && s'.chain == s.chain
            && (GetsPast(s, e, a) ==> IsPast(s, e, a.save, s', exit))
            && (!GetsPast(s, e, a) ==> IsBefore(s, s', exit))
  {
    if a.death.Survives? {
      if Outcome(s.tables, e.message, a.fault).Returned? {
        WayOutOfReturn(s, e, a);
        AdvanceIsPast(s, AfterHandler(s, e, a), e, FateOf(s.tables, e.message), a.save);
      } else if GetsPast(s, e, a) {
        CatchGoesOn(s, e, a);
        var error := Outcome(s.tables, e.message, a.fault).error;
        AdvanceIsPast(s, WithDeadLetter(AfterHandler(s, e, a), e, error, a.deadStamp), e, DeadLettered, a.save);
      } else {
        CatchStops(s, e, a);
      }
    }
  }

  // ---------- a page ----------

  /** Behind the last of these events, or where the cursor was. */
  function Behind(mem: Option<Position>, events: seq<ChainEvent>): Option<Position> {
    if events == [] then mem else Some(At(events[|events| - 1].ledger, Some(events[|events| - 1].id)))
  }

  /** The new entries of the history. */
  function New(s: State, s': State): seq<Entry>
    requires |s.life.history| <= |s'.life.history|
  {
    s'.life.history[|s.life.history|..]
  }

  /** The first `n` events of the page were handled in order, and no other; all of them if the poll finished. */
  ghost predicate Handled(s: State, events: seq<ChainEvent>, n: nat, s': State, exit: Exit) {
    && n <= |events| && s.life.history <= s'.life.history
    && EventsOf(New(s, s')) == events[..n] && NoneSkipped(New(s, s'))
    && s'.mem == Behind(s.mem, events[..n])
    && (exit.Finished? ==> n == |events|)
  }

  lemma OneIsHandled(s: State, e: ChainEvent, a: Answer)
    requires GetsPast(s, e, a)
    ensures var (s', exit) := HandleOne(s, e, a);
            && s.life.history <= s'.life.history && New(s, s') == [s'.life.history[|s.life.history|]]
            && EventsOf(New(s, s')) == [e] && NoneSkipped(New(s, s'))
  {
    TurnGetsPastIff(s, e, a);
  }

  lemma HandledJoin(s: State, e: ChainEvent, s1: State, rest: seq<ChainEvent>, n: nat, s2: State, exit: Exit)
    requires s.life.history <= s1.life.history && EventsOf(New(s, s1)) == [e] && NoneSkipped(New(s, s1))
    requires s1.mem == Some(At(e.ledger, Some(e.id))) && Handled(s1, rest, n, s2, exit)
    ensures Handled(s, [e] + rest, n + 1, s2, exit)
  {
    assert New(s, s2) == New(s, s1) + New(s1, s2);
    assert EventsOf(New(s, s2)) == EventsOf(New(s, s1)) + EventsOf(New(s1, s2));
    assert ([e] + rest)[..n + 1] == [e] + rest[..n];
  }

  lemma {:induction false} PageIsHandled(s: State, events: seq<ChainEvent>, answers: seq<Answer>) returns (n: nat)
    requires |events| <= |answers|
    ensures var (s', exit) := HandlePage(s, events, answers); Handled(s, events, n, s', exit) && s'.chain == s.chain
    decreases |events|
  {
    if events == [] {
      n := 0;
      assert New(s, s) == [];
    } else {
      var (s1, exit) := HandleOne(s, events[0], answers[0]);
      TurnGetsPastIff(s, events[0], answers[0]);
      assert events == [events[0]] + events[1..];
      if !GetsPast(s, events[0], answers[0]) {
        n := 0;
        assert New(s, s1) == [];
      } else {
        OneIsHandled(s, events[0], answers[0]);
        if exit.Finished? {
          var m := PageIsHandled(s1, events[1..], answers[1..]);
          var (s2, exit2) := HandlePage(s1, events[1..], answers[1..]);
          HandledJoin(s, events[0], s1, events[1..], m, s2, exit2);
          n := m + 1;
        } else {
          n := 1;
          assert events[..1] == [events[0]];
        }
      }
    }
  }

  // ---------- the poll ----------

  /** The state a poll works on once it has a position. */
  function WithCursor(s: State): State
    requires FetchPosition(s).Some?
  {
    if s.mem.Some? then s else StartedAt(s, s.disk.value)
  }

  lemma PollIsFrom(cfg: Config, s: State, o: Oracle)
    requires AsksEvents(cfg, s, o) && (o.page.Page? ==> |o.page.events| <= |o.answers|)
    ensures Poll(cfg, s, o) == PollFrom(WithCursor(s), o)
  {
  }

  /** The checkpoint and cursor after a jump to the end of this ledger. */
  ghost predicate JumpedSaved(s: State, ledger: nat, save: Write, s': State, exit: Exit) {
    && s'.mem == Some(At(ledger, None))
    && s'.disk == (if Reached(save) then s'.mem else s.disk)
    && s'.tables == s.tables && s'.dead == s.dead && exit == ExitOf(save)
  }

  /** Everything up to the tip is given up, and nothing else has happened. */
  ghost predicate GivenUp(s: State, c: Chain, s': State)
    requires FetchPosition(s).Some?
  {
    && s.life.history <= s'.life.history
    && var from, to := Index(c, FetchPosition(s).value), Index(c, At(s.chain.tip, None));
    && from <= to && EventsOf(New(s, s')) == c.log[from..to]
    && forall entry <- New(s, s') :: entry.fate.SkippedAhead?
  }

  lemma AgedOutPoll(cfg: Config, s: State, o: Oracle)
    requires Inv(s) && PendingIsRegistry(s) && ValidOracle(cfg, s, o)
    requires AsksEvents(cfg, s, o) && o.page.OutOfRange? && FetchPosition(s).Some?
    ensures var (s', exit) := Poll(cfg, s, o);
            JumpedSaved(s, s.chain.tip, o.jumpSave, s', exit) && GivenUp(s, o.scan, s')
  {
    var w := WithCursor(s);
    PollIsFrom(cfg, s, o);
    if s.mem.None? {
      StartKeepsInv(s, s.disk.value);
    }
    TipIsNotBefore(cfg, w, o);
    SkippedAreTheNext(w.(chain := o.scan), s.chain.tip);
    var s' := Poll(cfg, s, o).0;
    assert New(s, s') == SkippedEntries(w.(chain := o.scan), s.chain.tip);
  }

  lemma IdlePoll(cfg: Config, s: State, o: Oracle)
    requires Inv(s) && ValidOracle(cfg, s, o) && AsksEvents(cfg, s, o) && o.page == Page([])
    ensures var (s', exit) := Poll(cfg, s, o);
            JumpedSaved(s, s.chain.tip, o.jumpSave, s', exit) && s'.life.history == s.life.history
            && s'.life.pending == s.life.pending
  {
    PollIsFrom(cfg, s, o);
  }

  lemma PagePoll(cfg: Config, s: State, o: Oracle) returns (n: nat)
    requires Inv(s) && ValidOracle(cfg, s, o) && AsksEvents(cfg, s, o) && o.page.Page? && o.page.events != []
    ensures var (s', exit) := Poll(cfg, s, o);
            Handled(WithCursor(s), o.page.events, n, s', exit) && s'.chain == o.scan
  {
    PollIsFrom(cfg, s, o);
    var w := WithCursor(s);
    n := PageIsHandled(w.(chain := o.scan), o.page.events, o.answers);
  }

  /**
   An RPC that no longer reaches back makes the poll jump to the tip: everything in between is
   given up, in order, and nothing else. The checkpoint follows if its save reaches the disk.
   */
  lemma AgedOutGivesUp(cfg: Config, xs: seq<Moment>, ms: seq<Move>, k: nat)
    requires IsRun(cfg, xs, ms) && Initial(xs[0]) && k < |ms| && ms[k].PollMove?
    requires AsksEvents(cfg, xs[k].state, ms[k].oracle) && ms[k].oracle.page.OutOfRange?
    ensures JumpedSaved(xs[k].state, xs[k].state.chain.tip, ms[k].oracle.jumpSave, xs[k + 1].state,
                        ExitOf(ms[k].oracle.jumpSave))
    ensures GivenUp(xs[k].state, ms[k].oracle.scan, xs[k + 1].state)
    ensures xs[k + 1].alive <==> !ms[k].oracle.jumpSave.Died?
  {
    MoveIsPoll(cfg, xs, ms, k);
    AgedOutPoll(cfg, xs[k].state, ms[k].oracle);
  }

  /** An empty page makes it jump to the tip as well, but gives nothing up. */
  lemma IdleScanReachesTip(cfg: Config, xs: seq<Moment>, ms: seq<Move>, k: nat)
    requires IsRun(cfg, xs, ms) && Initial(xs[0]) && k < |ms| && ms[k].PollMove?
    requires AsksEvents(cfg, xs[k].state, ms[k].oracle) && ms[k].oracle.page == Page([])
    ensures JumpedSaved(xs[k].state, xs[k].state.chain.tip, ms[k].oracle.jumpSave, xs[k + 1].state,
                        ExitOf(ms[k].oracle.jumpSave))
    ensures xs[k + 1].state.life.history == xs[k].state.life.history
    ensures xs[k + 1].state.life.pending == xs[k].state.life.pending
    ensures xs[k + 1].alive <==> !ms[k].oracle.jumpSave.Died?
  {
    MoveIsPoll(cfg, xs, ms, k);
    IdlePoll(cfg, xs[k].state, ms[k].oracle);
  }

  /** A page is handled from its first event on, in order, as far as the poll gets; none of it is given up. */
  lemma PageIsHandledInOrder(cfg: Config, xs: seq<Moment>, ms: seq<Move>, k: nat) returns (n: nat)
    requires IsRun(cfg, xs, ms) && Initial(xs[0]) && k < |ms| && ms[k].PollMove?
    requires AsksEvents(cfg, xs[k].state, ms[k].oracle)
    requires ms[k].oracle.page.Page? && ms[k].oracle.page.events != []
    ensures FetchPosition(xs[k].state).Some?
    ensures Handled(WithCursor(xs[k].state), ms[k].oracle.page.events, n, xs[k + 1].state,
                    Poll(cfg, xs[k].state, ms[k].oracle).1)
  {
    MoveIsPoll(cfg, xs, ms, k);
    n := PagePoll(cfg, xs[k].state, ms[k].oracle);
  }

  /** A poll that has nothing to ask for changes nothing, or begins at the first position and saves it. */
  lemma QuietPoll(cfg: Config, s: State, o: Oracle)
    requires Inv(s) && ValidOracle(cfg, s, o) && !AsksEvents(cfg, s, o) && !Refused(cfg, s, o)
    ensures var (s', exit) := Poll(cfg, s, o);
            if AsksCheckpoint(cfg, s) && s.disk.None?
            then JumpedSaved(s, FirstPosition(cfg, s).ledger, o.jumpSave, s', exit) && s'.life.history == []
            else NothingDone(s, s') && exit.Finished?
  {
  }

  /** Whether a move adds an entry of an event that was given up. */
  ghost predicate GivesUp(s: State, s': State) {
    exists i :: |s.life.history| <= i < |s'.life.history| && s'.life.history[i].fate.SkippedAhead?
  }

  lemma HandledGivesNothingUp(s: State, w: State, events: seq<ChainEvent>, n: nat, s': State, exit: Exit)
    requires Handled(w, events, n, s', exit) && w.life.history == s.life.history
    ensures !GivesUp(s, s')
  {
    forall i | |s.life.history| <= i < |s'.life.history| ensures !s'.life.history[i].fate.SkippedAhead? {
      assert s'.life.history[i] == New(w, s')[i - |s.life.history|];
    }
  }

  lemma OtherPollsGiveNothingUp(cfg: Config, s: State, o: Oracle)
    requires Inv(s) && ValidOracle(cfg, s, o) && !(AsksEvents(cfg, s, o) && o.page.OutOfRange?)
    ensures !GivesUp(s, Poll(cfg, s, o).0)
  {
    if Refused(cfg, s, o) {
      RefusedPoll(cfg, s, o);
    } else if !AsksEvents(cfg, s, o) {
      QuietPoll(cfg, s, o);
    } else if o.page.events == [] {
      IdlePoll(cfg, s, o);
    } else {
      var n := PagePoll(cfg, s, o);
      HandledGivesNothingUp(s, WithCursor(s), o.page.events, n, Poll(cfg, s, o).0, Poll(cfg, s, o).1);
    }
  }

  /**
   Over every run an event is given up only in a poll that got the tip and asked for events,
   and was told that its position has aged out.
   */
  lemma OnlyAgedOutGivesUp(cfg: Config, xs: seq<Moment>, ms: seq<Move>, k: nat)
    requires IsRun(cfg, xs, ms) && Initial(xs[0]) && k < |ms| && GivesUp(xs[k].state, xs[k + 1].state)
    ensures ms[k].PollMove? && ms[k].oracle.tipOk && ms[k].oracle.page.OutOfRange?
    ensures AsksEvents(cfg, xs[k].state, ms[k].oracle)
  {
    assert Next(cfg, xs[k], ms[k], xs[k + 1]);
    if ms[k].PollMove? {
      MoveIsPoll(cfg, xs, ms, k);
      if !(AsksEvents(cfg, xs[k].state, ms[k].oracle) && ms[k].oracle.page.OutOfRange?) {
        OtherPollsGiveNothingUp(cfg, xs[k].state, ms[k].oracle);
      }
    }
  }

  /** And a poll that has nothing to ask for changes nothing but where a first process begins. */
  lemma QuietPollChangesNothing(cfg: Config, xs: seq<Moment>, ms: seq<Move>, k: nat)
    requires IsRun(cfg, xs, ms) && Initial(xs[0]) && k < |ms| && ms[k].PollMove?
    requires !AsksEvents(cfg, xs[k].state, ms[k].oracle) && !Refused(cfg, xs[k].state, ms[k].oracle)
    ensures var (s, s') := (xs[k].state, xs[k + 1].state);
            if AsksCheckpoint(cfg, s) && s.disk.None?
            then JumpedSaved(s, FirstPosition(cfg, s).ledger, ms[k].oracle.jumpSave, s', ExitOf(ms[k].oracle.jumpSave))
            else NothingDone(s, s') && xs[k + 1].alive
  {
    MoveIsPoll(cfg, xs, ms, k);
    QuietPoll(cfg, xs[k].state, ms[k].oracle);
  }

  // ---------- events that cannot be decoded ----------

  predicate BadPayload(m: Message) { m == ToVault(BadVaultPayload) || m == ToRegistry(BadRegistryPayload) }

  /** No such event counts as handled: it is on record as a failure, or was given up with the rest. */
  predicate BadOnesFailed(h: seq<Entry>) {
    forall entry <- h :: BadPayload(entry.event.message) ==> entry.fate.DeadLettered? || entry.fate.SkippedAhead?
  }

  lemma BadPayloadThrows(t: Tables, m: Message, fault: Fault)
    requires BadPayload(m)
    ensures Outcome(t, m, fault).Threw? && Undecodable(m) && !Commits(t, m, fault)
  {
  }

  lemma TurnFailsBadOnes(s: State, e: ChainEvent, a: Answer)
    requires BadOnesFailed(s.life.history)
    ensures BadOnesFailed(HandleOne(s, e, a).0.life.history)
  {
    if a.death.Survives? {
      if Outcome(s.tables, e.message, a.fault).Returned? {
        if BadPayload(e.message) {
          BadPayloadThrows(s.tables, e.message, a.fault);
        } else {
          WayOutOfReturn(s, e, a);
        }
      } else if GetsPast(s, e, a) {
        CatchGoesOn(s, e, a);
      } else {
        CatchStops(s, e, a);
      }
    }
  }

  lemma {:induction false} PageFailsBadOnes(s: State, events: seq<ChainEvent>, answers: seq<Answer>)
    requires |events| <= |answers| && BadOnesFailed(s.life.history)
    ensures BadOnesFailed(HandlePage(s, events, answers).0.life.history)
    decreases |events|
  {
    if events != [] {
      TurnFailsBadOnes(s, events[0], answers[0]);
      var (s', exit) := HandleOne(s, events[0], answers[0]);
      if exit.Finished? {
        PageFailsBadOnes(s', events[1..], answers[1..]);
      }
    }
  }

  lemma PollFailsBadOnes(cfg: Config, s: State, o: Oracle)
    requires Inv(s) && PendingIsRegistry(s) && ValidOracle(cfg, s, o) && BadOnesFailed(s.life.history)
    ensures BadOnesFailed(Poll(cfg, s, o).0.life.history)
  {
    if Refused(cfg, s, o) {
      RefusedPoll(cfg, s, o);
    } else if !AsksEvents(cfg, s, o) {
      QuietPoll(cfg, s, o);
    } else if o.page.OutOfRange? {
      AgedOutPoll(cfg, s, o);
      SkippedFailBadOnes(s, Poll(cfg, s, o).0);
    } else {
      PollIsFrom(cfg, s, o);
      PageFailsBadOnes(WithCursor(s).(chain := o.scan), o.page.events, o.answers);
    }
  }

  lemma SkippedFailBadOnes(s: State, s': State)
    requires BadOnesFailed(s.life.history) && s.life.history <= s'.life.history
    requires forall entry <- New(s, s') :: entry.fate.SkippedAhead?
    ensures BadOnesFailed(s'.life.history)
  {
    assert s'.life.history == s.life.history + New(s, s');
  }

  /**
   Over every run an event whose payload cannot be decoded is dead-lettered, with its row on
   record, or given up with the rest of an aged-out stretch.
   */
  lemma {:induction false} UndecodableIsDeadLettered(cfg: Config, xs: seq<Moment>, ms: seq<Move>, k: nat)
    requires IsRun(cfg, xs, ms) && Initial(xs[0]) && k < |xs|
    ensures BadOnesFailed(xs[k].state.life.history)
    ensures forall entry <- xs[k].state.life.history ::
      BadPayload(entry.event.message) && !entry.fate.SkippedAhead? ==> entry.event.id in xs[k].state.dead
  {
    if k > 0 {
      UndecodableIsDeadLettered(cfg, xs, ms, k - 1);
      MoveFailsBadOnes(cfg, xs, ms, k - 1);
    }
    DeadLettersAreKept(cfg, xs, ms, k);
  }

  lemma DeadLettersAreKept(cfg: Config, xs: seq<Moment>, ms: seq<Move>, k: nat)
    requires IsRun(cfg, xs, ms) && Initial(xs[0]) && k < |xs|
    ensures forall entry <- xs[k].state.life.history :: entry.fate.DeadLettered? ==> entry.event.id in xs[k].state.dead
  {
    RunKeepsGood(cfg, xs, ms, k);
  }

  lemma MoveFailsBadOnes(cfg: Config, xs: seq<Moment>, ms: seq<Move>, k: nat)
    requires IsRun(cfg, xs, ms) && Initial(xs[0]) && k < |ms| && BadOnesFailed(xs[k].state.life.history)
    ensures BadOnesFailed(xs[k + 1].state.life.history)
  {
    assert Next(cfg, xs[k], ms[k], xs[k + 1]);
    if ms[k].PollMove? {
      MoveIsPoll(cfg, xs, ms, k);
      PollFailsBadOnes(cfg, xs[k].state, ms[k].oracle);
    }
  }
}
