/**
 The chain as the RPC shows it: an append-only log with a tip, and the two kinds of
 position a checkpoint can hold: after a given event, or after a whole ledger.
 */
module ChainLog {
  import opened Wrappers
  import opened Events

  datatype Chain = Chain(log: seq<ChainEvent>, tip: nat)

  datatype Position = At(ledger: nat, eventId: Option<EventId>)

  ghost predicate WfChain(c: Chain) {
    && (forall i, j :: 0 <= i < j < |c.log| ==> c.log[i].id != c.log[j].id && c.log[i].ledger <= c.log[j].ledger)
    && (forall i :: 0 <= i < |c.log| ==> c.log[i].ledger <= c.tip)
  }

  /** A ledger closes with all its events at once, so new events lie beyond the old tip. */
  ghost predicate Grows(c: Chain, c': Chain) {
    && WfChain(c) && WfChain(c')
    && c.tip <= c'.tip
    && c.log <= c'.log
    && forall i :: |c.log| <= i < |c'.log| ==> c.tip < c'.log[i].ledger
  }

  /** How many events lie in ledgers up to `ledger`. */
  function AfterLedger(log: seq<ChainEvent>, ledger: nat): (n: nat)
    ensures n <= |log|
  {
    if log == [] then 0
    else if log[|log| - 1].ledger <= ledger then |log|
    else AfterLedger(log[..|log| - 1], ledger)
  }

  /** How many events lie up to and including the one with this id. */
  function AfterEvent(log: seq<ChainEvent>, id: EventId): (n: nat)
    ensures n <= |log|
  {
    if log == [] then 0
    else if log[|log| - 1].id == id then |log|
    else AfterEvent(log[..|log| - 1], id)
  }

  /** Where in the log the first undelivered event of a position lies. */
  function Index(c: Chain, p: Position): (n: nat)
    ensures n <= |c.log|
  {
    match p.eventId
    case Some(id) => AfterEvent(c.log, id)
    case None => AfterLedger(c.log, p.ledger)
  }

  /** A position after an event names an event of the log, with its ledger. */
  ghost predicate WfPosition(c: Chain, p: Position) {
    p.eventId.Some? ==> exists i :: 0 <= i < |c.log| && c.log[i].id == p.eventId.value && c.log[i].ledger == p.ledger
  }

  lemma {:induction false} AfterLedgerSplits(log: seq<ChainEvent>, ledger: nat)
    requires forall i, j :: 0 <= i < j < |log| ==> log[i].ledger <= log[j].ledger
    ensures forall i :: 0 <= i < AfterLedger(log, ledger) ==> log[i].ledger <= ledger
    ensures forall i :: AfterLedger(log, ledger) <= i < |log| ==> ledger < log[i].ledger
  {
    if log != [] && ledger < log[|log| - 1].ledger {
      AfterLedgerSplits(log[..|log| - 1], ledger);
    }
  }

  lemma {:induction false} AfterEventFinds(log: seq<ChainEvent>, i: nat)
    requires i < |log| && forall j, k :: 0 <= j < k < |log| ==> log[j].id != log[k].id
    ensures AfterEvent(log, log[i].id) == i + 1
  {
    if i < |log| - 1 {
      AfterEventFinds(log[..|log| - 1], i);
    }
  }

  lemma {:induction false} AfterLedgerGrows(log: seq<ChainEvent>, more: seq<ChainEvent>, ledger: nat)
    requires forall e <- more :: ledger < e.ledger
    ensures AfterLedger(log + more, ledger) == AfterLedger(log, ledger)
  {
    if more == [] {
      assert log + more == log;
    } else {
      var all := log + more;
      assert all[|all| - 1] == more[|more| - 1] && all[..|all| - 1] == log + more[..|more| - 1];
      AfterLedgerGrows(log, more[..|more| - 1], ledger);
    }
  }

  lemma {:induction false} AfterLedgerOnlyGrows(log: seq<ChainEvent>, more: seq<ChainEvent>, ledger: nat)
    ensures AfterLedger(log, ledger) <= AfterLedger(log + more, ledger)
  {
    if more == [] {
      assert log + more == log;
    } else {
      var all := log + more;
      assert all[|all| - 1] == more[|more| - 1] && all[..|all| - 1] == log + more[..|more| - 1];
      AfterLedgerOnlyGrows(log, more[..|more| - 1], ledger);
    }
  }

  /** A position the chain has passed keeps its place however the chain grows. */
  lemma IndexIsStable(c: Chain, c': Chain, p: Position)
    requires Grows(c, c') && WfPosition(c, p) && (p.eventId.Some? || p.ledger <= c.tip)
    ensures Index(c', p) == Index(c, p) && WfPosition(c', p)
  {
    if p.eventId.Some? {
      var i :| 0 <= i < |c.log| && c.log[i].id == p.eventId.value && c.log[i].ledger == p.ledger;
      assert c'.log[i] == c.log[i];
      AfterEventFinds(c.log, i);
      AfterEventFinds(c'.log, i);
    } else {
      var more := c'.log[|c.log|..];
      assert c'.log == c.log + more;
      AfterLedgerGrows(c.log, more, p.ledger);
    }
  }

  lemma IndexOnlyGrows(c: Chain, c': Chain, p: Position)
    requires Grows(c, c') && WfPosition(c, p)
    ensures Index(c, p) <= Index(c', p) && WfPosition(c', p)
  {
    if p.eventId.Some? {
      IndexIsStable(c, c', p);
    } else {
      assert c'.log == c.log + c'.log[|c.log|..];
      AfterLedgerOnlyGrows(c.log, c'.log[|c.log|..], p.ledger);
    }
  }

  lemma PositionLedgerWithinTip(c: Chain, p: Position)
    requires WfChain(c) && WfPosition(c, p) && p.eventId.Some?
    ensures p.ledger <= c.tip
  {
  }

  /** A position never lies beyond the end of any later ledger. */
  lemma IndexWithinLedger(c: Chain, p: Position, ledger: nat)
    requires WfChain(c) && WfPosition(c, p) && p.ledger <= ledger
    ensures Index(c, p) <= Index(c, At(ledger, None))
  {
    AfterLedgerSplits(c.log, ledger);
    AfterLedgerSplits(c.log, p.ledger);
    if p.eventId.Some? {
      var i :| 0 <= i < |c.log| && c.log[i].id == p.eventId.value && c.log[i].ledger == p.ledger;
      AfterEventFinds(c.log, i);
    } else {
      var k := AfterLedger(c.log, ledger);
      assert k < |c.log| ==> ledger < c.log[k].ledger;
    }
  }
}
