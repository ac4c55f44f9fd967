/** `pollOnce` as the program runs it: cached fields, a loop over the page, and the database. */
module Indexer {
  import opened Wrappers
  import opened Events
  import opened DeadLetters
  import opened StreamTables
  import opened ChainLog
  import opened Worker

  class IndexerProcess {
    const db: StreamDb
    const dead: DeadLetterTable
    /** The single `indexer_checkpoints` row. */
    var checkpoint: Option<Position>
    var lastProcessedLedger: Option<nat>
    var lastProcessedEventId: Option<EventId>
    ghost var chain: Chain
    ghost var life: Life

    function Cached(): Option<Position>
      reads this
    {
      if lastProcessedLedger.Some? then Some(At(lastProcessedLedger.value, lastProcessedEventId)) else None
    }

    ghost function View(): State
      reads this, db, dead
    {
      State(chain, db.View(), dead.rows, checkpoint, Cached(), life)
    }

    /** A new process on an existing database. */
    constructor (db: StreamDb, dead: DeadLetterTable, checkpoint: Option<Position>, ghost chain: Chain)
      ensures this.db == db && this.dead == dead
      ensures View() == Restarted(State(chain, db.View(), dead.rows, checkpoint, None,
        Life(None, [], 0, false, db.View())))
    {
      this.db, this.dead, this.checkpoint, this.chain := db, dead, checkpoint, chain;
      lastProcessedLedger, lastProcessedEventId := None, None;
      life := Life(None, [], 0, false, db.View());
    }

    /** `saveCheckpoint`: overwrites the one row, or fails, having written or not. */
    method SaveCheckpoint(ledger: nat, eventId: Option<EventId>, w: Write, ghost counts: bool) returns (exit: Exit)
      requires Cached() == Some(At(ledger, eventId))
      modifies this`checkpoint, this`life
      ensures View() == Saved(old(View()), w, counts) && exit == ExitOf(w)
    {
      if Reached(w) {
        checkpoint := Some(At(ledger, eventId));
        life := life.(unsaved := 0);
      } else if counts {
        life := life.(unsaved := life.unsaved + 1);
      }
      exit := ExitOf(w);
    }

    method Advance(event: ChainEvent, ghost fate: Fate, save: Write) returns (exit: Exit)
      requires lastProcessedLedger.Some?
      modifies this`checkpoint, this`life, this`lastProcessedLedger, this`lastProcessedEventId
      ensures (View(), exit) == Advanced(old(View()), event, fate, save)
    {
      lastProcessedLedger := Some(event.ledger);
      lastProcessedEventId := Some(event.id);
      life := life.(history := life.history + [Entry(event, fate, life.pending)], pending := false);
      exit := SaveCheckpoint(event.ledger, Some(event.id), save, true);
    }

    /** One turn of the loop over the page. */
    method HandleEvent(event: ChainEvent, a: Answer) returns (exit: Exit)
      requires lastProcessedLedger.Some?
      modifies this`checkpoint, this`life, this`lastProcessedLedger, this`lastProcessedEventId, db, dead
      ensures (View(), exit) == HandleOne(old(View()), event, a)
      ensures lastProcessedLedger.Some?
    {
      if a.death.BeforeHandling? {
        return Dead;
      }
      ghost var before := db.View();
      var handled := db.Dispatch(event, a.fault, dead, a.stamp);
      life := life.(pending := life.pending || Commits(before, event.message, a.fault));
      if a.death.AfterHandling? {
        return Dead;
      }
      if handled.Returned? {
        exit := Advance(event, FateOf(before, event.message), a.save);
        return;
      }
      if !(Undecodable(event.message) || a.permanent) {
        return Rejected;
      }
      if Reached(a.deadLetter) {
        dead.Record(event.id, event.ledger, event.contractId, handled.error, a.deadStamp);
      }
      if !a.deadLetter.Done? {
        return ExitOf(a.deadLetter);
      }
      exit := Advance(event, DeadLettered, a.save);
    }

    /** The loop over a page, left at the first event that does not finish. */
    method HandleEvents(events: seq<ChainEvent>, answers: seq<Answer>) returns (exit: Exit)
      requires lastProcessedLedger.Some? && |events| <= |answers|
      modifies this`checkpoint, this`life, this`lastProcessedLedger, this`lastProcessedEventId, db, dead
      ensures (View(), exit) == HandlePage(old(View()), events, answers)
    {
      exit := Finished;
      var i := 0;
      assert events[0..] == events && answers[0..] == answers;
      while i < |events| && exit.Finished?
        invariant i <= |events| && lastProcessedLedger.Some?
        invariant exit.Finished? ==>
          HandlePage(old(View()), events, answers) == HandlePage(View(), events[i..], answers[i..])
        invariant !exit.Finished? ==> HandlePage(old(View()), events, answers) == (View(), exit)
        decreases |events| - i
      {
        assert events[i..][0] == events[i] && answers[i..][0] == answers[i];
        assert events[i..][1..] == events[i + 1..] && answers[i..][1..] == answers[i + 1..];
        exit := HandleEvent(events[i], answers[i]);
        i := i + 1;
      }
    }

    /** The RPC is asked for events after the cursor, or from the ledger after the last one. */
    method PollOnce(cfg: Config, o: Oracle, latest: nat) returns (exit: Exit)
      requires ValidOracle(cfg, View(), o) && latest == chain.tip
      modifies this`checkpoint, this`life, this`lastProcessedLedger, this`lastProcessedEventId, this`chain, db, dead
      ensures (View(), exit) == Poll(cfg, old(View()), o)
    {
      if !cfg.watching {
        return Finished;
      }
      if lastProcessedLedger.None? {
        if !o.readOk {
          return Rejected;
        }
        if checkpoint.Some? {
          lastProcessedLedger := Some(checkpoint.value.ledger);
          lastProcessedEventId := checkpoint.value.eventId;
          life := life.(origin := Cached());
        } else {
          if cfg.start.None? && !o.tipOk {
            return Rejected;
          }
          lastProcessedLedger := Some(if cfg.start.Some? then cfg.start.value else latest);
          lastProcessedEventId := None;
          life := life.(origin := Cached());
          exit := SaveCheckpoint(lastProcessedLedger.value, None, o.jumpSave, false);
          return;
        }
      }
      if !o.tipOk {
        return Rejected;
      }
      if latest <= lastProcessedLedger.value && lastProcessedEventId.None? {
        return Finished;
      }
      chain := o.scan;
      match o.page {
        case RpcError =>
          return Rejected;
        case OutOfRange =>
          life := life.(history := life.history + SkippedEntries(View(), latest), pending := false);
          lastProcessedLedger := Some(latest);
          lastProcessedEventId := None;
          exit := SaveCheckpoint(latest, None, o.jumpSave, false);
        case Page(events) =>
          if |events| == 0 {
            lastProcessedLedger := Some(latest);
            lastProcessedEventId := None;
            exit := SaveCheckpoint(latest, None, o.jumpSave, false);
            return;
          }
          exit := HandleEvents(events, o.answers);
      }
    }

    /** The process dies and a new one takes its place on the same database. */
    method Restart()
      modifies this`life, this`lastProcessedLedger, this`lastProcessedEventId
      ensures View() == Restarted(old(View()))
    {
      lastProcessedLedger, lastProcessedEventId := None, None;
      life := Life(None, [], 0, false, db.View());
    }
  }
}
