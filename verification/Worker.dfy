/**
 The indexer's polling loop in one process. `Poll` is what one `pollOnce` does for given
 answers of the outside world: the RPC, each handler, each database write, and the moment
 the process dies. The record `Life` is not part of the program: it keeps what happened
 since the process started, so that the invariant can speak about it.
 */
module Worker {
  import opened Wrappers
  import opened Events
  import opened DeadLetters
  import opened StreamTables
  import opened ChainLog
  import opened Redelivery

  /** What became of an event the cursor has passed. */
  datatype Fate = Applied | Ignored | DeadLettered | SkippedAhead

  datatype Entry = Entry(event: ChainEvent, fate: Fate, committed: bool)

  /**
   `origin`: where the process started. `unsaved`: checkpoint saves after an event that
   failed since the last one that reached the disk. `pending`: the next event's handler
   has committed, but the event is not accounted for yet.
   */
  datatype Life = Life(origin: Option<Position>, history: seq<Entry>, unsaved: nat, pending: bool, base: Tables)

  datatype State = State(
    chain: Chain,
    tables: Tables,
    dead: Table,
    disk: Option<Position>,
    mem: Option<Position>,
    life: Life)

  /** `watching`: some contract id is configured. */
  datatype Config = Config(watching: bool, start: Option<nat>, limit: Option<nat>)

  /** A write succeeds, or fails, or the process dies in it; the last two may still have written. */
  datatype Write = Done | Failed(failedButWritten: bool) | Died(diedButWritten: bool)

  datatype Death = Survives | BeforeHandling | AfterHandling

  /** `permanent`: how the error classifier judges an error other than a TypeError. */
  datatype Answer = Answer(
    fault: Fault,
    stamp: Stamp,
    death: Death,
    permanent: bool,
    deadLetter: Write,
    deadStamp: Stamp,
    save: Write)

  datatype PageAnswer = Page(events: seq<ChainEvent>) | OutOfRange | RpcError

  /** `scan`: the chain when the events are fetched, which is after the tip was read. */
  datatype Oracle = Oracle(
    readOk: bool,
    tipOk: bool,
    scan: Chain,
    page: PageAnswer,
    jumpSave: Write,
    answers: seq<Answer>)

  datatype Exit = Finished | Rejected | Dead

  predicate Reached(w: Write) { w.Done? || (w.Failed? && w.failedButWritten) || (w.Died? && w.diedButWritten) }

  function ExitOf(w: Write): Exit {
    match w case Done => Finished case Failed(_) => Rejected case Died(_) => Dead
  }

  // ---------- one poll ----------

  /** A save of the cached position. `counts`: it follows an event, not a jump. */
  function Saved(s: State, w: Write, counts: bool): State
    requires s.mem.Some?
  {
    if Reached(w) then s.(disk := s.mem, life := s.life.(unsaved := 0))
    else if counts then s.(life := s.life.(unsaved := s.life.unsaved + 1))
    else s
  }

  function FateOf(t: Tables, m: Message): Fate {
    if Audited(t, m) then Applied else if UnknownStream(t, m) then DeadLettered else Ignored
  }

  /** The handler's own writes. */
  function AfterHandler(s: State, e: ChainEvent, a: Answer): State {
    s.(tables := if Commits(s.tables, e.message, a.fault) then Effect(s.tables, e.message, e.txHash) else s.tables,
       dead := if RecordsItself(s.tables, e.message, a.fault)
               then Recorded(s.dead, e.id, e.ledger, e.contractId, UNKNOWN_STREAM, a.stamp) else s.dead,
       life := s.life.(pending := s.life.pending || Commits(s.tables, e.message, a.fault)))
  }

  /** Memory moves past the event before the save is attempted. */
  function Moved(s: State, e: ChainEvent, fate: Fate): State {
    s.(mem := Some(At(e.ledger, Some(e.id))),
       life := s.life.(history := s.life.history + [Entry(e, fate, s.life.pending)], pending := false))
  }

  function Advanced(s: State, e: ChainEvent, fate: Fate, save: Write): (State, Exit) {
    (Saved(Moved(s, e, fate), save, true), ExitOf(save))
  }

  function HandleOne(s: State, e: ChainEvent, a: Answer): (State, Exit) {
    if a.death.BeforeHandling? then (s, Dead)
    else
      var s1 := AfterHandler(s, e, a);
      if a.death.AfterHandling? then (s1, Dead)
      else
        match Outcome(s.tables, e.message, a.fault)
        case Returned => Advanced(s1, e, FateOf(s.tables, e.message), a.save)
        case Threw(error) =>
          if Undecodable(e.message) || a.permanent then
            var s2 := if Reached(a.deadLetter)
                      then s1.(dead := Recorded(s1.dead, e.id, e.ledger, e.contractId, error, a.deadStamp)) else s1;
            if a.deadLetter.Done? then Advanced(s2, e, DeadLettered, a.save) else (s2, ExitOf(a.deadLetter))
          else (s1, Rejected)
  }

  function HandlePage(s: State, events: seq<ChainEvent>, answers: seq<Answer>): (State, Exit)
    requires |events| <= |answers|
    decreases |events|
  {
    if events == [] then (s, Finished)
    else
      var (s', exit) := HandleOne(s, events[0], answers[0]);
      if exit.Finished? then HandlePage(s', events[1..], answers[1..]) else (s', exit)
  }

  function JumpedTo(s: State, ledger: nat): State {
    s.(mem := Some(At(ledger, None)))
  }

  /** The events a skip-ahead gives up, oldest first. */
  function SkippedEntries(s: State, ledger: nat): seq<Entry>
    requires s.mem.Some?
  {
    var from, to := Index(s.chain, s.mem.value), Index(s.chain, At(ledger, None));
    if from <= to
    then seq(to - from, i requires 0 <= i < to - from =>
      Entry(s.chain.log[from + i], SkippedAhead, i == 0 && s.life.pending))
    else []
  }

  function SkippedTo(s: State, ledger: nat): State
    requires s.mem.Some?
  {
    JumpedTo(s.(life := s.life.(history := s.life.history + SkippedEntries(s, ledger), pending := false)), ledger)
  }

  function PollFrom(s: State, o: Oracle): (State, Exit)
    requires s.mem.Some?
    requires o.page.Page? ==> |o.page.events| <= |o.answers|
  {
    if !o.tipOk then (s, Rejected)
    else
      var latest := s.chain.tip;
      if latest <= s.mem.value.ledger && s.mem.value.eventId.None? then (s, Finished)
      else
        var s1 := s.(chain := o.scan);
        match o.page
        case RpcError => (s1, Rejected)
        case OutOfRange => (Saved(SkippedTo(s1, latest), o.jumpSave, false), ExitOf(o.jumpSave))
        case Page(events) =>
          if events == [] then (Saved(JumpedTo(s1, latest), o.jumpSave, false), ExitOf(o.jumpSave))
          else HandlePage(s1, events, o.answers)
  }

  /** A process starting at a position has nothing to answer for before it. */
  function StartedAt(s: State, p: Position): State {
    s.(mem := Some(p), life := s.life.(origin := Some(p)))
  }

  function Poll(cfg: Config, s: State, o: Oracle): (State, Exit)
    requires o.page.Page? ==> |o.page.events| <= |o.answers|
  {
    if !cfg.watching then (s, Finished)
    else if s.mem.Some? then PollFrom(s, o)
    else if !o.readOk then (s, Rejected)
    else if s.disk.Some? then PollFrom(StartedAt(s, s.disk.value), o)
    else if cfg.start.None? && !o.tipOk then (s, Rejected)
    else
      var first := if cfg.start.Some? then cfg.start.value else s.chain.tip;
      (Saved(StartedAt(s, At(first, None)), o.jumpSave, false), ExitOf(o.jumpSave))
  }

  /** A new process knows nothing but what is in the database. */
  function Restarted(s: State): State {
    s.(mem := None, life := Life(None, [], 0, false, s.tables))
  }

  /** The page is the log's next events, cut anywhere; an empty page means none up to the tip read. */
  ghost predicate ValidPage(c: Chain, p: Position, latest: nat, limit: Option<nat>, events: seq<ChainEvent>) {
    var from := Index(c, p);
    && from + |events| <= |c.log|
    && events == c.log[from..from + |events|]
    && (limit.Some? ==> |events| <= limit.value)
    && (events == [] ==> forall i :: from <= i < |c.log| ==> latest < c.log[i].ledger)
  }

  /** Where the coming poll would fetch from. */
  function FetchPosition(s: State): Option<Position> {
    if s.mem.Some? then s.mem else s.disk
  }

  ghost predicate ValidOracle(cfg: Config, s: State, o: Oracle) {
    && Grows(s.chain, o.scan)
    && (o.page.Page? ==> |o.page.events| <= |o.answers|)
    && (o.page.Page? && FetchPosition(s).Some? ==>
        ValidPage(o.scan, FetchPosition(s).value, s.chain.tip, cfg.limit, o.page.events))
  }

  // ---------- the invariant ----------

  function EventsOf(h: seq<Entry>): (es: seq<ChainEvent>)
    ensures |es| == |h| && forall i :: 0 <= i < |h| ==> es[i] == h[i].event
  {
    seq(|h|, i requires 0 <= i < |h| => h[i].event)
  }

  /** How many of these events a handler was given. */
  function Handlings(h: seq<Entry>): nat {
    if h == [] then 0 else Handlings(h[..|h| - 1]) + if h[|h| - 1].fate.SkippedAhead? then 0 else 1
  }

  /** The tables after each committed event of the history, applied once, in order. */
  function ReplayHistory(t: Tables, h: seq<Entry>): Tables {
    if h == [] then t
    else
      var before, last := ReplayHistory(t, h[..|h| - 1]), h[|h| - 1];
      if last.committed then Effect(before, last.event.message, last.event.txHash) else before
  }

  /**
   An event's fate says whether its effect is in the tables. Only a registry event can have
   committed and still be dead-lettered or skipped: its handler fails after the commit.
   */
  ghost predicate FateFits(t: Tables, entry: Entry) {
    var m := entry.event.message;
    match entry.fate
    case Applied => entry.committed && Audited(t, m)
    case Ignored => !Audited(t, m) && !UnknownStream(t, m)
    case DeadLettered => !entry.committed || UnknownStream(t, m) || m.ToRegistry?
    case SkippedAhead => !entry.committed || m.ToRegistry?
  }

  ghost predicate FatesFit(t: Tables, h: seq<Entry>) {
    forall i :: 0 <= i < |h| ==> FateFits(ReplayHistory(t, h[..i]), h[i])
  }

  ghost predicate DeadLettersKept(dead: Table, h: seq<Entry>) {
    forall entry <- h :: entry.fate.DeadLettered? ==> entry.event.id in dead
  }

  /** Every event from the origin to the cursor has exactly one entry, in log order. */
  ghost predicate HistoryIsSegment(c: Chain, origin: Position, mem: Position, h: seq<Entry>) {
    Index(c, origin) <= Index(c, mem) && EventsOf(h) == c.log[Index(c, origin)..Index(c, mem)]
  }

  /** What a crash now would hand out again, counted exactly. */
  ghost predicate UnsavedCounted(c: Chain, origin: Position, mem: Position, disk: Option<Position>, life: Life) {
    match disk
    case None => Handlings(life.history) == life.unsaved
    case Some(d) =>
      && Index(c, origin) <= Index(c, d) <= Index(c, mem)
      && Index(c, d) - Index(c, origin) <= |life.history|
      && Handlings(life.history[Index(c, d) - Index(c, origin)..]) == life.unsaved
  }

  ghost predicate TablesMatch(c: Chain, mem: Position, tables: Tables, life: Life) {
    var t := ReplayHistory(life.base, life.history);
    if life.pending then
      && Index(c, mem) < |c.log|
      && tables == Effect(t, c.log[Index(c, mem)].message, c.log[Index(c, mem)].txHash)
    else tables == t
  }

  /** Only a configured start ledger can lie beyond the tip, and then nothing has happened yet. */
  ghost predicate AheadOnlyAtStart(c: Chain, origin: Position, mem: Position, disk: Option<Position>, life: Life) {
    && origin.ledger <= mem.ledger
    && (disk.Some? ==> disk.value.ledger <= mem.ledger)
    && (c.tip < mem.ledger ==> mem == origin && life.history == [] && (disk.Some? ==> disk.value == mem))
  }

  ghost predicate Live(s: State, origin: Position, mem: Position) {
    && WfPosition(s.chain, mem) && WfPosition(s.chain, origin)
    && AheadOnlyAtStart(s.chain, origin, mem, s.disk, s.life)
    && HistoryIsSegment(s.chain, origin, mem, s.life.history)
    && UnsavedCounted(s.chain, origin, mem, s.disk, s.life)
    && TablesMatch(s.chain, mem, s.tables, s.life)
    && FatesFit(s.life.base, s.life.history)
    && DeadLettersKept(s.dead, s.life.history)
  }

  ghost predicate Inv(s: State) {
    && WfChain(s.chain)
    && (s.disk.Some? ==> WfPosition(s.chain, s.disk.value))
    && (s.mem.None? ==> s.life == Life(None, [], 0, false, s.tables))
    && (s.mem.Some? ==> s.life.origin.Some? && Live(s, s.life.origin.value, s.mem.value))
  }

  /** Only a registry handler can have committed and then failed in a living process. */
  ghost predicate PendingIsRegistry(s: State) {
    s.life.pending ==>
      s.mem.Some? && Index(s.chain, s.mem.value) < |s.chain.log|
        && s.chain.log[Index(s.chain, s.mem.value)].message.ToRegistry?
  }

  // ---------- each step keeps it ----------

  lemma SamePlacesKeepCount(c: Chain, c': Chain, origin: Position, mem: Position, disk: Option<Position>, life: Life)
    requires UnsavedCounted(c, origin, mem, disk, life)
    requires Index(c', mem) == Index(c, mem) && Index(c', origin) == Index(c, origin)
    requires disk.Some? ==> Index(c', disk.value) == Index(c, disk.value)
    ensures UnsavedCounted(c', origin, mem, disk, life)
  {
  }

  lemma SamePlacesKeepTables(c: Chain, c': Chain, origin: Position, mem: Position, tables: Tables, life: Life)
    requires TablesMatch(c, mem, tables, life) && HistoryIsSegment(c, origin, mem, life.history) && c.log <= c'.log
    requires Index(c', mem) == Index(c, mem) && Index(c', origin) == Index(c, origin)
    ensures TablesMatch(c', mem, tables, life) && HistoryIsSegment(c', origin, mem, life.history)
  {
    assert c'.log[Index(c, origin)..Index(c, mem)] == c.log[Index(c, origin)..Index(c, mem)];
    assert Index(c, mem) < |c.log| ==> c'.log[Index(c, mem)] == c.log[Index(c, mem)];
  }

  /** A longer chain in which every position kept its place. */
  lemma SamePlacesKeepLive(s: State, c: Chain, origin: Position, mem: Position)
    requires Live(s, origin, mem) && Grows(s.chain, c) && mem.ledger <= s.chain.tip
    requires WfPosition(c, mem) && WfPosition(c, origin)
    requires Index(c, mem) == Index(s.chain, mem) && Index(c, origin) == Index(s.chain, origin)
    requires s.disk.Some? ==> Index(c, s.disk.value) == Index(s.chain, s.disk.value)
    ensures Live(s.(chain := c), origin, mem)
  {
    SamePlacesKeepCount(s.chain, c, origin, mem, s.disk, s.life);
    SamePlacesKeepTables(s.chain, c, origin, mem, s.tables, s.life);
  }

  /** Nothing has been handled, and nothing unsaved. */
  lemma EmptyLifeFits(c: Chain, p: Position, disk: Option<Position>, life: Life)
    requires life.history == [] && (disk.Some? ==> disk.value == p)
    ensures HistoryIsSegment(c, p, p, life.history)
    ensures UnsavedCounted(c, p, p, disk, life) <==> life.unsaved == 0
  {
    assert life.history[0..] == [];
    assert EventsOf(life.history) == c.log[Index(c, p)..Index(c, p)];
  }

  /** A start ledger beyond the tip: nothing has happened, and nothing has with the longer chain. */
  lemma AheadStaysLive(s: State, c: Chain, mem: Position)
    requires WfChain(s.chain) && Live(s, mem, mem) && Grows(s.chain, c) && s.chain.tip < mem.ledger
    requires s.life.history == [] && (s.disk.Some? ==> s.disk.value == mem)
    requires WfPosition(c, mem) && Index(s.chain, mem) == |s.chain.log|
    ensures Live(s.(chain := c), mem, mem)
  {
    EmptyLifeFits(s.chain, mem, s.disk, s.life);
    EmptyLifeFits(c, mem, s.disk, s.life);
    assert !s.life.pending;
  }

  /** No event lies beyond the tip. */
  lemma AheadIsAtEnd(c: Chain, p: Position)
    requires WfChain(c) && WfPosition(c, p) && c.tip < p.ledger
    ensures Index(c, p) == |c.log|
  {
    if p.eventId.Some? {
      PositionLedgerWithinTip(c, p);
    } else {
      AfterLedgerSplits(c.log, p.ledger);
    }
  }

  lemma GrowKeepsInv(s: State, c: Chain)
    requires Inv(s) && Grows(s.chain, c)
    ensures Inv(s.(chain := c))
    ensures PendingIsRegistry(s) ==> PendingIsRegistry(s.(chain := c))
  {
    if s.disk.Some? {
      IndexOnlyGrows(s.chain, c, s.disk.value);
    }
    if s.mem.Some? {
      var origin, mem := s.life.origin.value, s.mem.value;
      IndexOnlyGrows(s.chain, c, mem);
      if mem.ledger <= s.chain.tip {
        IndexIsStable(s.chain, c, mem);
        IndexIsStable(s.chain, c, origin);
        if s.disk.Some? {
          IndexIsStable(s.chain, c, s.disk.value);
        }
        SamePlacesKeepLive(s, c, origin, mem);
      } else {
        AheadIsAtEnd(s.chain, mem);
        AheadStaysLive(s, c, mem);
      }
    }
  }

  /** At the moment of a save the disk is at the cursor, with nothing after it. */
  lemma SavedCountsNothing(c: Chain, origin: Position, mem: Position, life: Life)
    requires HistoryIsSegment(c, origin, mem, life.history) && life.unsaved == 0
    ensures UnsavedCounted(c, origin, mem, Some(mem), life)
  {
    var h := life.history;
    assert h[|h|..] == [];
  }

  lemma SaveReaches(s: State, before: nat)
    requires s.mem.Some? && s.life.origin.Some?
    requires Live(s.(life := s.life.(unsaved := before)), s.life.origin.value, s.mem.value)
    ensures Live(s.(disk := s.mem, life := s.life.(unsaved := 0)), s.life.origin.value, s.mem.value)
  {
    SavedCountsNothing(s.chain, s.life.origin.value, s.mem.value, s.life.(unsaved := 0));
  }

  lemma LiveIsInv(s: State)
    requires WfChain(s.chain) && (s.disk.Some? ==> WfPosition(s.chain, s.disk.value))
    requires s.mem.Some? && s.life.origin.Some? && Live(s, s.life.origin.value, s.mem.value)
    ensures Inv(s)
  {
  }

  /** A save: it reaches the disk and settles the count, or leaves one more unsaved. */
  lemma SaveKeepsInv(s: State, w: Write, counts: bool, before: nat)
    requires s.mem.Some? && s.life.origin.Some?
    requires WfChain(s.chain) && (s.disk.Some? ==> WfPosition(s.chain, s.disk.value))
    requires before == if counts then s.life.unsaved + 1 else s.life.unsaved
    requires Live(s.(life := s.life.(unsaved := before)), s.life.origin.value, s.mem.value)
    ensures Inv(Saved(s, w, counts))
    ensures PendingIsRegistry(s) ==> PendingIsRegistry(Saved(s, w, counts))
  {
    SaveReaches(s, before);
    var kept := s.(life := s.life.(unsaved := before));
    assert s.life.(unsaved := s.life.unsaved) == s.life;
    assert Saved(s, w, counts) == if Reached(w) then s.(disk := s.mem, life := s.life.(unsaved := 0)) else kept;
    assert WfPosition(s.chain, s.mem.value);
    LiveIsInv(if Reached(w) then s.(disk := s.mem, life := s.life.(unsaved := 0)) else kept);
  }

  lemma {:induction false} HandlingsSnoc(h: seq<Entry>, k: nat, entry: Entry)
    requires k <= |h|
    ensures Handlings((h + [entry])[k..]) == Handlings(h[k..]) + if entry.fate.SkippedAhead? then 0 else 1
  {
    var tail := (h + [entry])[k..];
    assert tail[..|tail| - 1] == h[k..];
  }

  lemma ReplaySnoc(t: Tables, h: seq<Entry>, entry: Entry)
    ensures ReplayHistory(t, h + [entry]) ==
      if entry.committed then Effect(ReplayHistory(t, h), entry.event.message, entry.event.txHash)
        else ReplayHistory(t, h)
  {
    var all := h + [entry];
    assert all[..|all| - 1] == h;
  }

  lemma FatesFitSnoc(t: Tables, h: seq<Entry>, entry: Entry)
    requires FatesFit(t, h) && FateFits(ReplayHistory(t, h), entry)
    ensures FatesFit(t, h + [entry])
  {
    var all := h + [entry];
    forall i | 0 <= i < |all| ensures FateFits(ReplayHistory(t, all[..i]), all[i]) {
      if i < |h| {
        assert all[..i] == h[..i];
      } else {
        assert all[..i] == h;
      }
    }
  }

  lemma NextPosition(c: Chain, mem: Position, e: ChainEvent)
    requires WfChain(c) && WfPosition(c, mem) && Index(c, mem) < |c.log| && e == c.log[Index(c, mem)]
    ensures var next := At(e.ledger, Some(e.id));
            WfPosition(c, next) && Index(c, next) == Index(c, mem) + 1 && mem.ledger <= next.ledger <= c.tip
  {
    AfterEventFinds(c.log, Index(c, mem));
    CursorLedgerBeforeNext(c, mem, Index(c, mem));
  }

  lemma MoveExtendsSegment(c: Chain, origin: Position, mem: Position, next: Position, h: seq<Entry>, entry: Entry)
    requires HistoryIsSegment(c, origin, mem, h) && Index(c, next) == Index(c, mem) + 1
    requires entry.event == c.log[Index(c, mem)]
    ensures HistoryIsSegment(c, origin, next, h + [entry])
  {
    assert EventsOf(h + [entry]) == EventsOf(h) + [entry.event];
  }

  lemma MoveCountsEvent(c: Chain, origin: Position, mem: Position, next: Position, disk: Option<Position>, life: Life,
                        life': Life, entry: Entry)
    requires UnsavedCounted(c, origin, mem, disk, life) && Index(c, mem) <= Index(c, next)
    requires !entry.fate.SkippedAhead? && life'.history == life.history + [entry] && life'.unsaved == life.unsaved + 1
    ensures UnsavedCounted(c, origin, next, disk, life')
  {
    if disk.Some? {
      HandlingsSnoc(life.history, Index(c, disk.value) - Index(c, origin), entry);
    } else {
      assert (life.history + [entry])[0..] == life.history + [entry] && life.history[0..] == life.history;
      HandlingsSnoc(life.history, 0, entry);
    }
  }

  /** Passing the next event, whatever its fate, adds exactly one entry. */
  lemma MoveKeepsInv(s: State, e: ChainEvent, fate: Fate, save: Write)
    requires Inv(s) && s.mem.Some? && Index(s.chain, s.mem.value) < |s.chain.log|
    requires e == s.chain.log[Index(s.chain, s.mem.value)] && !fate.SkippedAhead?
    requires FateFits(ReplayHistory(s.life.base, s.life.history), Entry(e, fate, s.life.pending))
    requires fate.DeadLettered? ==> e.id in s.dead
    ensures Inv(Advanced(s, e, fate, save).0) && PendingIsRegistry(Advanced(s, e, fate, save).0)
  {
    var origin, mem, next := s.life.origin.value, s.mem.value, At(e.ledger, Some(e.id));
    var entry := Entry(e, fate, s.life.pending);
    var s1 := Moved(s, e, fate);
    var life' := s1.life.(unsaved := s1.life.unsaved + 1);
    NextPosition(s.chain, mem, e);
    MoveExtendsSegment(s.chain, origin, mem, next, s.life.history, entry);
    MoveCountsEvent(s.chain, origin, mem, next, s.disk, s.life, life', entry);
    ReplaySnoc(s.life.base, s.life.history, entry);
    FatesFitSnoc(s.life.base, s.life.history, entry);
    assert TablesMatch(s.chain, next, s.tables, life');
    SaveKeepsInv(s1, save, true, s1.life.unsaved + 1);
  }

  lemma CursorLedgerBeforeNext(c: Chain, p: Position, i: nat)
    requires WfChain(c) && WfPosition(c, p) && i == Index(c, p) < |c.log|
    ensures p.ledger <= c.log[i].ledger
  {
    if p.eventId.Some? {
      var j :| 0 <= j < |c.log| && c.log[j].id == p.eventId.value && c.log[j].ledger == p.ledger;
      AfterEventFinds(c.log, j);
    } else {
      AfterLedgerSplits(c.log, p.ledger);
    }
  }

  lemma CommitKeepsTables(c: Chain, mem: Position, tables: Tables, life: Life, e: ChainEvent)
    requires TablesMatch(c, mem, tables, life) && Index(c, mem) < |c.log| && e == c.log[Index(c, mem)]
    requires life.pending ==> e.message.ToRegistry?
    ensures TablesMatch(c, mem, Effect(tables, e.message, e.txHash), life.(pending := true))
  {
    if life.pending {
      RegistryEffectIsIdempotent(ReplayHistory(life.base, life.history), e);
    }
  }

  lemma WritesKeepLive(s: State, origin: Position, mem: Position, tables: Tables, dead: Table, pending: bool)
    requires Live(s, origin, mem) && s.dead.Keys <= dead.Keys
    requires TablesMatch(s.chain, mem, tables, s.life.(pending := pending))
    ensures Live(s.(tables := tables, dead := dead, life := s.life.(pending := pending)), origin, mem)
  {
  }

  lemma HandlerOnlyAddsDeadLetters(s: State, e: ChainEvent, a: Answer)
    ensures s.dead.Keys <= AfterHandler(s, e, a).dead.Keys
    ensures AfterHandler(s, e, a)
         == s.(tables := AfterHandler(s, e, a).tables, dead := AfterHandler(s, e, a).dead,
               life := s.life.(pending := s.life.pending || Commits(s.tables, e.message, a.fault)))
    ensures AfterHandler(s, e, a).tables
         == if Commits(s.tables, e.message, a.fault) then Effect(s.tables, e.message, e.txHash) else s.tables
  {
  }

  /** A handler's commit leaves the next event pending; a repeated registry commit changes nothing. */
  lemma HandlerKeepsInv(s: State, e: ChainEvent, a: Answer)
    requires Inv(s) && PendingIsRegistry(s) && s.mem.Some? && Index(s.chain, s.mem.value) < |s.chain.log|
    requires e == s.chain.log[Index(s.chain, s.mem.value)]
    ensures Inv(AfterHandler(s, e, a))
    ensures e.message.ToVault? ==> s.tables == ReplayHistory(s.life.base, s.life.history)
  {
    var s1 := AfterHandler(s, e, a);
    HandlerOnlyAddsDeadLetters(s, e, a);
    CommitKeepsTables(s.chain, s.mem.value, s.tables, s.life, e);
    WritesKeepLive(s, s.life.origin.value, s.mem.value, s1.tables, s1.dead, s1.life.pending);
  }

  /** At the next event, with nothing committed for it yet unless it is a registry event. */
  ghost predicate AtEvent(s: State, e: ChainEvent) {
    && Inv(s) && PendingIsRegistry(s)
    && s.mem.Some? && Index(s.chain, s.mem.value) < |s.chain.log|
    && e == s.chain.log[Index(s.chain, s.mem.value)]
  }

  lemma ReturnedFateFits(t: Tables, e: ChainEvent, a: Answer, pending: bool)
    requires Outcome(t, e.message, a.fault).Returned? && (e.message.ToVault? ==> !pending)
    ensures FateFits(t, Entry(e, FateOf(t, e.message), pending || Commits(t, e.message, a.fault)))
    ensures FateOf(t, e.message).DeadLettered? ==> RecordsItself(t, e.message, a.fault)
  {
  }

  lemma ThrownFateFits(t: Tables, e: ChainEvent, a: Answer, pending: bool)
    requires Outcome(t, e.message, a.fault).Threw? && (e.message.ToVault? ==> !pending)
    ensures FateFits(t, Entry(e, DeadLettered, pending || Commits(t, e.message, a.fault)))
    ensures e.message.ToVault? ==> !Commits(t, e.message, a.fault)
  {
  }

  lemma MoreDeadLettersKeepInv(s: State, dead: Table)
    requires Inv(s) && s.dead.Keys <= dead.Keys
    ensures Inv(s.(dead := dead))
  {
  }

  lemma ReturnKeepsInv(s: State, e: ChainEvent, a: Answer)
    requires AtEvent(s, e) && Outcome(s.tables, e.message, a.fault).Returned?
    ensures var s' := Advanced(AfterHandler(s, e, a), e, FateOf(s.tables, e.message), a.save).0;
            Inv(s') && PendingIsRegistry(s')
  {
    HandlerKeepsInv(s, e, a);
    var s1 := AfterHandler(s, e, a);
    var t := ReplayHistory(s.life.base, s.life.history);
    ReturnedFateFits(s.tables, e, a, s.life.pending);
    var fate := FateOf(s.tables, e.message);
    assert FateFits(t, Entry(e, fate, s1.life.pending));
    MoveKeepsInv(s1, e, fate, a.save);
  }

  lemma ThrowKeepsInv(s: State, e: ChainEvent, a: Answer, error: string)
    requires AtEvent(s, e) && Outcome(s.tables, e.message, a.fault).Threw?
    ensures var s1 := AfterHandler(s, e, a);
            var s2 := WithDeadLetter(s1, e, error, a.deadStamp);
            var s3 := Advanced(s2, e, DeadLettered, a.save).0;
            Inv(s1) && PendingIsRegistry(s1) && Inv(s2) && PendingIsRegistry(s2) && Inv(s3) && PendingIsRegistry(s3)
  {
    HandlerKeepsInv(s, e, a);
    ThrownFateFits(s.tables, e, a, s.life.pending);
    var s1 := AfterHandler(s, e, a);
    var s2 := WithDeadLetter(s1, e, error, a.deadStamp);
    MoreDeadLettersKeepInv(s1, s2.dead);
    assert FateFits(ReplayHistory(s.life.base, s.life.history), Entry(e, DeadLettered, s1.life.pending));
    MoveKeepsInv(s2, e, DeadLettered, a.save);
  }

  ghost predicate Kept(r: (State, Exit)) {
    Inv(r.0) && (!r.1.Dead? ==> PendingIsRegistry(r.0))
  }

  lemma HandleOneThatDies(s: State, e: ChainEvent, a: Answer)
    requires AtEvent(s, e) && !a.death.Survives?
    ensures Kept(HandleOne(s, e, a)) && HandleOne(s, e, a).1.Dead?
  {
    HandlerKeepsInv(s, e, a);
  }

  lemma HandleOneThatReturns(s: State, e: ChainEvent, a: Answer)
    requires AtEvent(s, e) && a.death.Survives? && Outcome(s.tables, e.message, a.fault).Returned?
    ensures Kept(HandleOne(s, e, a))
  {
    WayOutOfReturn(s, e, a);
    ReturnKeepsInv(s, e, a);
  }

  lemma WayOutOfReturn(s: State, e: ChainEvent, a: Answer)
    requires a.death.Survives? && Outcome(s.tables, e.message, a.fault).Returned?
    ensures HandleOne(s, e, a) == Advanced(AfterHandler(s, e, a), e, FateOf(s.tables, e.message), a.save)
  {
  }

  function WithDeadLetter(s: State, e: ChainEvent, error: string, stamp: Stamp): State {
    s.(dead := Recorded(s.dead, e.id, e.ledger, e.contractId, error, stamp))
  }

  /** The four ways out of the loop's catch block. */
  lemma WaysOutOfCatch(s: State, e: ChainEvent, a: Answer)
    requires a.death.Survives? && Outcome(s.tables, e.message, a.fault).Threw?
    ensures var s1 := AfterHandler(s, e, a);
            var s2 := WithDeadLetter(s1, e, Outcome(s.tables, e.message, a.fault).error, a.deadStamp);
            || HandleOne(s, e, a) == (s1, Rejected)
            || HandleOne(s, e, a) == (s1, ExitOf(a.deadLetter))
            || HandleOne(s, e, a) == (s2, ExitOf(a.deadLetter))
            || HandleOne(s, e, a) == Advanced(s2, e, DeadLettered, a.save)
  {
  }

  lemma HandleOneThatThrows(s: State, e: ChainEvent, a: Answer)
    requires AtEvent(s, e) && a.death.Survives? && Outcome(s.tables, e.message, a.fault).Threw?
    ensures Kept(HandleOne(s, e, a))
  {
    WaysOutOfCatch(s, e, a);
    ThrowKeepsInv(s, e, a, Outcome(s.tables, e.message, a.fault).error);
  }

  /** A finished turn leaves the cursor on the event. */
  lemma FinishedMovesCursor(s: State, e: ChainEvent, a: Answer)
    requires HandleOne(s, e, a).1.Finished?
    ensures HandleOne(s, e, a).0.mem == Some(At(e.ledger, Some(e.id))) && HandleOne(s, e, a).0.chain == s.chain
  {
  }

  lemma HandleOneKeepsInv(s: State, e: ChainEvent, a: Answer)
    requires AtEvent(s, e)
    ensures Kept(HandleOne(s, e, a))
  {
    if !a.death.Survives? {
      HandleOneThatDies(s, e, a);
    } else if Outcome(s.tables, e.message, a.fault).Returned? {
      HandleOneThatReturns(s, e, a);
    } else {
      HandleOneThatThrows(s, e, a);
    }
  }

  /** The events still to handle are the log's next ones. */
  ghost predicate NextInLog(c: Chain, mem: Option<Position>, events: seq<ChainEvent>) {
    && mem.Some?
    && Index(c, mem.value) + |events| <= |c.log|
    && events == c.log[Index(c, mem.value)..Index(c, mem.value) + |events|]
  }

  lemma RestIsNextInLog(c: Chain, mem: Option<Position>, events: seq<ChainEvent>)
    requires WfChain(c) && NextInLog(c, mem, events) && events != []
    ensures NextInLog(c, Some(At(events[0].ledger, Some(events[0].id))), events[1..])
    ensures events[0] == c.log[Index(c, mem.value)]
  {
    var i := Index(c, mem.value);
    AfterEventFinds(c.log, i);
    assert events[1..] == c.log[i + 1..i + 1 + |events[1..]|];
  }

  lemma {:induction false} HandlePageKeepsInv(s: State, events: seq<ChainEvent>, answers: seq<Answer>)
    requires Inv(s) && PendingIsRegistry(s) && |events| <= |answers| && NextInLog(s.chain, s.mem, events)
    ensures Kept(HandlePage(s, events, answers))
    decreases |events|
  {
    if events != [] {
      RestIsNextInLog(s.chain, s.mem, events);
      HandleOneKeepsInv(s, events[0], answers[0]);
      var (s', exit) := HandleOne(s, events[0], answers[0]);
      if exit.Finished? {
        FinishedMovesCursor(s, events[0], answers[0]);
        HandlePageKeepsInv(s', events[1..], answers[1..]);
      }
    }
  }

  /** The next position says the same of what has happened as the cursor does. */
  lemma SamePlaceKeepsLive(s: State, origin: Position, mem: Position, next: Position)
    requires Live(s, origin, mem) && next.eventId.None? && mem.ledger <= next.ledger <= s.chain.tip
    requires Index(s.chain, next) == Index(s.chain, mem)
    ensures Live(s, origin, next)
  {
  }

  /** An empty page lets the cursor jump to the tip read before it without passing any event. */
  lemma JumpKeepsInv(s: State, latest: nat, w: Write)
    requires Inv(s) && PendingIsRegistry(s) && s.mem.Some? && latest <= s.chain.tip
    requires s.mem.value.ledger <= latest
    requires forall i :: Index(s.chain, s.mem.value) <= i < |s.chain.log| ==> latest < s.chain.log[i].ledger
    ensures Inv(Saved(JumpedTo(s, latest), w, false)) && PendingIsRegistry(Saved(JumpedTo(s, latest), w, false))
    ensures Index(s.chain, At(latest, None)) == Index(s.chain, s.mem.value)
  {
    NothingUpTo(s.chain, s.mem.value, latest);
    SamePlaceKeepsLive(s, s.life.origin.value, s.mem.value, At(latest, None));
    SaveKeepsInv(JumpedTo(s, latest), w, false, s.life.unsaved);
  }

  lemma NothingUpTo(c: Chain, p: Position, latest: nat)
    requires WfChain(c) && WfPosition(c, p) && p.ledger <= latest
    requires forall i :: Index(c, p) <= i < |c.log| ==> latest < c.log[i].ledger
    ensures Index(c, At(latest, None)) == Index(c, p)
  {
    IndexWithinLedger(c, p, latest);
    AfterLedgerSplits(c.log, latest);
    var i := Index(c, p);
    assert i < |c.log| ==> latest < c.log[i].ledger;
  }

  lemma {:induction false} HandlingsOfSkipped(h: seq<Entry>, k: nat, skipped: seq<Entry>)
    requires k <= |h| && forall entry <- skipped :: entry.fate.SkippedAhead?
    ensures Handlings((h + skipped)[k..]) == Handlings(h[k..])
  {
    if skipped == [] {
      assert h + skipped == h;
    } else {
      var shorter := skipped[..|skipped| - 1];
      HandlingsOfSkipped(h, k, shorter);
      HandlingsSnoc(h + shorter, k, skipped[|skipped| - 1]);
      assert h + skipped == h + shorter + [skipped[|skipped| - 1]];
    }
  }

  /** Skipped entries apply only the pending first one, and fit their fates. */
  lemma {:induction false} SkippedReplays(base: Tables, h: seq<Entry>, skipped: seq<Entry>, pending: bool, n: nat)
    requires FatesFit(base, h) && n <= |skipped|
    requires forall i :: 0 <= i < |skipped| ==>
      skipped[i].fate.SkippedAhead? && (skipped[i].committed <==> i == 0 && pending)
    requires pending && |skipped| > 0 ==> skipped[0].event.message.ToRegistry?
    ensures FatesFit(base, h + skipped[..n])
    ensures ReplayHistory(base, h + skipped[..n]) ==
      if pending && n > 0 then Effect(ReplayHistory(base, h), skipped[0].event.message, skipped[0].event.txHash)
      else ReplayHistory(base, h)
  {
    if n > 0 {
      SkippedReplays(base, h, skipped, pending, n - 1);
      var shorter := h + skipped[..n - 1];
      assert h + skipped[..n] == shorter + [skipped[n - 1]];
      ReplaySnoc(base, shorter, skipped[n - 1]);
      FatesFitSnoc(base, shorter, skipped[n - 1]);
      if n == 1 {
        assert shorter == h;
      }
    } else {
      assert h + skipped[..0] == h;
    }
  }

  lemma SkipExtendsSegment(c: Chain, origin: Position, mem: Position, next: Position, h: seq<Entry>,
                           skipped: seq<Entry>)
    requires HistoryIsSegment(c, origin, mem, h) && Index(c, mem) <= Index(c, next)
    requires EventsOf(skipped) == c.log[Index(c, mem)..Index(c, next)]
    ensures HistoryIsSegment(c, origin, next, h + skipped)
  {
    assert EventsOf(h + skipped) == EventsOf(h) + EventsOf(skipped);
  }

  lemma SkipCountsNothing(c: Chain, origin: Position, mem: Position, next: Position, disk: Option<Position>,
                          life: Life, life': Life, skipped: seq<Entry>)
    requires UnsavedCounted(c, origin, mem, disk, life) && Index(c, mem) <= Index(c, next)
    requires forall entry <- skipped :: entry.fate.SkippedAhead?
    requires life'.history == life.history + skipped && life'.unsaved == life.unsaved
    ensures UnsavedCounted(c, origin, next, disk, life')
  {
    if disk.Some? {
      HandlingsOfSkipped(life.history, Index(c, disk.value) - Index(c, origin), skipped);
    } else {
      assert (life.history + skipped)[0..] == life.history + skipped && life.history[0..] == life.history;
      HandlingsOfSkipped(life.history, 0, skipped);
    }
  }

  lemma PendingEventIsSkipped(s: State, latest: nat)
    requires WfChain(s.chain) && s.mem.Some? && Index(s.chain, s.mem.value) < |s.chain.log|
    requires s.chain.log[Index(s.chain, s.mem.value)].ledger <= latest
    ensures Index(s.chain, s.mem.value) < Index(s.chain, At(latest, None))
  {
    AfterLedgerSplits(s.chain.log, latest);
  }

  /** The skipped entries complete the tables if a commit was pending, and else change nothing. */
  lemma SkippedComplete(base: Tables, h: seq<Entry>, skipped: seq<Entry>, pending: bool, tables: Tables)
    requires FatesFit(base, h)
    requires forall i :: 0 <= i < |skipped| ==>
      skipped[i].fate.SkippedAhead? && (skipped[i].committed <==> i == 0 && pending)
    requires !pending ==> tables == ReplayHistory(base, h)
    requires pending ==>
      && |skipped| > 0 && skipped[0].event.message.ToRegistry?
      && tables == Effect(ReplayHistory(base, h), skipped[0].event.message, skipped[0].event.txHash)
    ensures ReplayHistory(base, h + skipped) == tables && FatesFit(base, h + skipped)
  {
    SkippedReplays(base, h, skipped, pending, |skipped|);
    assert skipped[..|skipped|] == skipped;
  }

  lemma LiveTablesMatch(s: State)
    requires Inv(s) && s.mem.Some?
    ensures TablesMatch(s.chain, s.mem.value, s.tables, s.life) && FatesFit(s.life.base, s.life.history)
  {
  }

  lemma SkippedTablesMatch(s: State, latest: nat)
    requires Inv(s) && PendingIsRegistry(s) && s.mem.Some?
    requires s.life.pending ==> s.chain.log[Index(s.chain, s.mem.value)].ledger <= latest
    ensures var h := s.life.history + SkippedEntries(s, latest);
            ReplayHistory(s.life.base, h) == s.tables && FatesFit(s.life.base, h)
  {
    LiveTablesMatch(s);
    if s.life.pending {
      PendingEventIsSkipped(s, latest);
    }
    SkippedComplete(s.life.base, s.life.history, SkippedEntries(s, latest), s.life.pending, s.tables);
  }

  lemma SkippedAreTheNext(s: State, latest: nat)
    requires s.mem.Some? && Index(s.chain, s.mem.value) <= Index(s.chain, At(latest, None))
    ensures EventsOf(SkippedEntries(s, latest))
      == s.chain.log[Index(s.chain, s.mem.value)..Index(s.chain, At(latest, None))]
    ensures forall entry <- SkippedEntries(s, latest) :: entry.fate.SkippedAhead?
  {
  }

  lemma SkippingKeepsLive(s: State, origin: Position, mem: Position, next: Position, skipped: seq<Entry>)
    requires Live(s, origin, mem) && next.eventId.None? && mem.ledger <= next.ledger <= s.chain.tip
    requires Index(s.chain, mem) <= Index(s.chain, next)
    requires EventsOf(skipped) == s.chain.log[Index(s.chain, mem)..Index(s.chain, next)]
    requires forall entry <- skipped :: entry.fate.SkippedAhead?
    requires ReplayHistory(s.life.base, s.life.history + skipped) == s.tables
    requires FatesFit(s.life.base, s.life.history + skipped)
    ensures Live(s.(life := s.life.(history := s.life.history + skipped, pending := false)), origin, next)
  {
    var life' := s.life.(history := s.life.history + skipped, pending := false);
    SkipExtendsSegment(s.chain, origin, mem, next, s.life.history, skipped);
    SkipCountsNothing(s.chain, origin, mem, next, s.disk, s.life, life', skipped);
  }

  lemma SkippedIsLive(s: State, latest: nat)
    requires Inv(s) && PendingIsRegistry(s) && s.mem.Some? && s.mem.value.ledger <= latest <= s.chain.tip
    requires s.life.pending ==> s.chain.log[Index(s.chain, s.mem.value)].ledger <= latest
    ensures Live(SkippedTo(s, latest), s.life.origin.value, At(latest, None))
  {
    var origin, mem, next := s.life.origin.value, s.mem.value, At(latest, None);
    IndexWithinLedger(s.chain, mem, latest);
    SkippedAreTheNext(s, latest);
    SkippedTablesMatch(s, latest);
    SkippingKeepsLive(s, origin, mem, next, SkippedEntries(s, latest));
  }

  /** A skip-ahead names every event it gives up. */
  lemma SkipKeepsInv(s: State, latest: nat, w: Write)
    requires Inv(s) && PendingIsRegistry(s) && s.mem.Some? && s.mem.value.ledger <= latest <= s.chain.tip
    requires s.life.pending ==> s.chain.log[Index(s.chain, s.mem.value)].ledger <= latest
    ensures Inv(Saved(SkippedTo(s, latest), w, false)) && PendingIsRegistry(Saved(SkippedTo(s, latest), w, false))
  {
    SkippedIsLive(s, latest);
    SaveKeepsInv(SkippedTo(s, latest), w, false, s.life.unsaved);
  }

  lemma StartKeepsInv(s: State, p: Position)
    requires Inv(s) && s.mem.None? && WfPosition(s.chain, p)
    requires s.disk.Some? ==> s.disk.value == p
    ensures Inv(StartedAt(s, p)) && PendingIsRegistry(StartedAt(s, p))
  {
    var s1 := StartedAt(s, p);
    assert EventsOf([]) == s.chain.log[Index(s.chain, p)..Index(s.chain, p)];
  }

  /** The pending event was served by the RPC, so it is no later than the next tip read. */
  lemma ScanReachesPending(cfg: Config, s: State, o: Oracle)
    requires Inv(s) && PendingIsRegistry(s) && s.mem.Some? && ValidOracle(cfg, s, o)
    requires s.chain.tip > s.mem.value.ledger || s.mem.value.eventId.Some?
    ensures Inv(s.(chain := o.scan)) && PendingIsRegistry(s.(chain := o.scan))
    ensures s.mem.value.ledger <= s.chain.tip <= o.scan.tip
    ensures s.life.pending ==> o.scan.log[Index(o.scan, s.mem.value)].ledger <= s.chain.tip
  {
    var mem := s.mem.value;
    if mem.eventId.Some? {
      PositionLedgerWithinTip(s.chain, mem);
    }
    GrowKeepsInv(s, o.scan);
    IndexIsStable(s.chain, o.scan, mem);
    PendingWithinTip(s);
  }

  lemma PendingWithinTip(s: State)
    requires Inv(s) && PendingIsRegistry(s)
    ensures s.life.pending ==> s.mem.Some? && s.chain.log[Index(s.chain, s.mem.value)].ledger <= s.chain.tip
  {
  }

  /** The poll gets to fetch events, from a position the tip has passed. */
  ghost predicate Fetches(cfg: Config, s: State, o: Oracle) {
    && Inv(s) && PendingIsRegistry(s) && s.mem.Some? && ValidOracle(cfg, s, o)
    && (s.chain.tip > s.mem.value.ledger || s.mem.value.eventId.Some?)
  }

  lemma PageIsNextInLog(cfg: Config, s: State, o: Oracle)
    requires s.mem.Some? && ValidOracle(cfg, s, o) && o.page.Page?
    ensures NextInLog(o.scan, s.mem, o.page.events) && |o.page.events| <= |o.answers|
  {
  }

  lemma PageKeepsInv(cfg: Config, s: State, o: Oracle)
    requires Fetches(cfg, s, o) && o.page.Page? && o.page.events != []
    ensures Kept(HandlePage(s.(chain := o.scan), o.page.events, o.answers))
  {
    ScanReachesPending(cfg, s, o);
    PageIsNextInLog(cfg, s, o);
    HandlePageKeepsInv(s.(chain := o.scan), o.page.events, o.answers);
  }

  lemma EmptyPageKeepsInv(cfg: Config, s: State, o: Oracle)
    requires Fetches(cfg, s, o) && o.page.Page? && o.page.events == []
    ensures Kept((Saved(JumpedTo(s.(chain := o.scan), s.chain.tip), o.jumpSave, false), ExitOf(o.jumpSave)))
  {
    ScanReachesPending(cfg, s, o);
    JumpKeepsInv(s.(chain := o.scan), s.chain.tip, o.jumpSave);
  }

  lemma OutOfRangeKeepsInv(cfg: Config, s: State, o: Oracle)
    requires Fetches(cfg, s, o)
    ensures Kept((Saved(SkippedTo(s.(chain := o.scan), s.chain.tip), o.jumpSave, false), ExitOf(o.jumpSave)))
    ensures Kept((s.(chain := o.scan), Rejected))
  {
    ScanReachesPending(cfg, s, o);
    SkipKeepsInv(s.(chain := o.scan), s.chain.tip, o.jumpSave);
  }

  lemma PollFromKeepsInv(cfg: Config, s: State, o: Oracle)
    requires Inv(s) && PendingIsRegistry(s) && s.mem.Some? && ValidOracle(cfg, s, o)
    ensures Kept(PollFrom(s, o))
  {
    if o.tipOk && Fetches(cfg, s, o) {
      OutOfRangeKeepsInv(cfg, s, o);
      if o.page.Page? && o.page.events == [] {
        EmptyPageKeepsInv(cfg, s, o);
      } else if o.page.Page? {
        PageKeepsInv(cfg, s, o);
      }
    }
  }

  lemma PollKeepsInv(cfg: Config, s: State, o: Oracle)
    requires Inv(s) && PendingIsRegistry(s) && ValidOracle(cfg, s, o)
    ensures Kept(Poll(cfg, s, o))
  {
    if cfg.watching {
      if s.mem.Some? {
        PollFromKeepsInv(cfg, s, o);
      } else if o.readOk && s.disk.Some? {
        StartKeepsInv(s, s.disk.value);
        PollFromKeepsInv(cfg, StartedAt(s, s.disk.value), o);
      } else if o.readOk && !(cfg.start.None? && !o.tipOk) {
        var first := if cfg.start.Some? then cfg.start.value else s.chain.tip;
        StartKeepsInv(s, At(first, None));
        SaveKeepsInv(StartedAt(s, At(first, None)), o.jumpSave, false, 0);
      }
    }
  }

  lemma RestartKeepsInv(s: State)
    requires Inv(s)
    ensures Inv(Restarted(s)) && PendingIsRegistry(Restarted(s))
  {
  }
}
