/**
 What the tables mean: each row read off the audit log alone, with no replaying of steps.
 A stream is its first `created` row, the sum of its `withdraw` rows and its `cancel` row;
 an NGO is the last name it registered and the last verdict given after it was known.
 */
module AuditReading {
  import opened Wrappers
  import opened Events
  import opened StreamTables

  type Log = seq<AuditRow>

  function Init(log: Log): Log requires log != [] { log[..|log| - 1] }
  function Last(log: Log): AuditRow requires log != [] { log[|log| - 1] }

  predicate Creates(row: AuditRow, id: int) {
    row.message.ToVault? && row.message.vault.Created? && row.message.vault.streamId == id
  }

  predicate Withdraws(row: AuditRow, id: int) {
    row.message.ToVault? && row.message.vault.Withdraw? && row.message.vault.streamId == id
  }

  predicate Cancels(row: AuditRow, id: int) {
    row.message.ToVault? && row.message.vault.Cancel? && row.message.vault.streamId == id
  }

  /** The first `created` row of a stream; a redelivered `created` adds rows but changes nothing. */
  function FirstCreated(log: Log, id: int): (r: Option<AuditRow>)
    ensures r.Some? ==> Creates(r.value, id) && r.value in log
    ensures r.None? ==> forall row <- log :: !Creates(row, id)
  {
    if log == [] then None
    else
      var earlier := FirstCreated(Init(log), id);
      if earlier.None? && Creates(Last(log), id) then Some(Last(log)) else earlier
  }

  /** The sum of the stream's recorded withdrawals. */
  function Accrued(log: Log, id: int): int {
    if log == [] then 0
    else Accrued(Init(log), id) + if Withdraws(Last(log), id) then Last(log).message.vault.accrued else 0
  }

  function Cancellations(log: Log, id: int): nat {
    if log == [] then 0 else Cancellations(Init(log), id) + if Cancels(Last(log), id) then 1 else 0
  }

  /** The stream's latest cancellation row, as its settled amount and its refund. */
  function Settlement(log: Log, id: int): (r: Option<(int, int)>) {
    if log == [] then None
    else if Cancels(Last(log), id) then Some((Last(log).message.vault.accrued, Last(log).message.vault.refund))
    else Settlement(Init(log), id)
  }

  /** The stream row the log calls for. */
  function StreamReading(log: Log, id: int): Option<StreamRow> {
    match FirstCreated(log, id)
    case None => None
    case Some(row) =>
      var c := row.message.vault;
      match Settlement(log, id)
      case None =>
        Some(StreamRow(c.donor, c.ngo, c.token, c.rate, None, Clamp(c.deposit - Accrued(log, id)), Accrued(log, id),
          Active, row.txHash))
      case Some((accrued, refund)) =>
        Some(StreamRow(c.donor, c.ngo, c.token, 0, Some(c.rate), 0, Accrued(log, id) + accrued, Cancelled, row.txHash))
  }

  predicate Names(row: AuditRow, owner: string) {
    row.message.ToRegistry? && row.message.registry.Register? && row.message.registry.owner == owner
  }

  predicate Judges(row: AuditRow, owner: string) {
    && row.message.ToRegistry?
    && (row.message.registry.Approved? || row.message.registry.Revoked?)
    && row.message.registry.owner == owner
  }

  predicate Mentions(row: AuditRow, owner: string) {
    || Names(row, owner)
    || (row.message.ToVault? && row.message.vault.Created? && row.message.vault.ngo == owner)
  }

  predicate Known(log: Log, owner: string) {
    exists i :: 0 <= i < |log| && Mentions(log[i], owner)
  }

  function LastName(log: Log, owner: string): string {
    if log == [] then ""
    else if Names(Last(log), owner) then Last(log).message.registry.name
    else LastName(Init(log), owner)
  }

  /** The last verdict counts only if the NGO was known when it was given. */
  predicate LastVerdict(log: Log, owner: string) {
    if log == [] then false
    else if Judges(Last(log), owner) then Last(log).message.registry.Approved? && Known(Init(log), owner)
    else LastVerdict(Init(log), owner)
  }

  function NgoReading(log: Log, owner: string): Option<NgoRow> {
    if Known(log, owner) then Some(NgoRow(LastName(log, owner), LastVerdict(log, owner))) else None
  }

  predicate DonorKnown(log: Log, donor: string) {
    exists i :: 0 <= i < |log| && log[i].message.ToVault? && log[i].message.vault.Created?
      && log[i].message.vault.donor == donor
  }

  function Lookup<K, V>(m: map<K, V>, k: K): Option<V> { if k in m then Some(m[k]) else None }

  /** The tables are exactly what the log says they are. */
  ghost predicate ReadsBack(log: Log, t: Tables) {
    && (forall id :: Lookup(t.streams, id) == StreamReading(log, id))
    && (forall owner :: Lookup(t.ngos, owner) == NgoReading(log, owner))
    && (forall donor :: donor in t.donors <==> DonorKnown(log, donor))
  }

  ghost predicate LogNonNegative(log: Log) {
    forall row <- log :: NonNegative(row.message)
  }

  /** A withdrawal or cancellation is only ever logged for a live stream. */
  ghost predicate Disciplined(log: Log) {
    forall i, id :: 0 <= i < |log| && (Withdraws(log[i], id) || Cancels(log[i], id)) ==>
      FirstCreated(log[..i], id).Some? && Settlement(log[..i], id).None?
  }

  // ---------- runs of deliveries ----------

  /** One delivery: a first one, a redelivery or a replay, with whichever fault it meets. */
  datatype Delivery = Delivery(event: ChainEvent, fault: Fault)

  datatype Db = Db(tables: Tables, log: Log)

  function Deliver(db: Db, d: Delivery): Db {
    if Commits(db.tables, d.event.message, d.fault) then
      Db(Effect(db.tables, d.event.message, d.event.txHash),
         db.log + if Audited(db.tables, d.event.message)
           then [AuditRow(d.event.message, d.event.ledger, d.event.txHash)] else [])
    else db
  }

  function DeliverAll(db: Db, ds: seq<Delivery>): Db {
    if ds == [] then db else Deliver(DeliverAll(db, ds[..|ds| - 1]), ds[|ds| - 1])
  }

  ghost predicate Reachable(db: Db) {
    exists ds: seq<Delivery> ::
      (forall d <- ds :: NonNegative(d.event.message)) && db == DeliverAll(Db(EMPTY_TABLES, []), ds)
  }

  ghost predicate Inv(db: Db) {
    ReadsBack(db.log, db.tables) && LogNonNegative(db.log) && Disciplined(db.log)
  }

  lemma KnownSnoc(log: Log, row: AuditRow, owner: string)
    ensures Known(log + [row], owner) <==> Known(log, owner) || Mentions(row, owner)
  {
    var all := log + [row];
    if Known(log, owner) {
      var i :| 0 <= i < |log| && Mentions(log[i], owner);
      assert Mentions(all[i], owner);
    }
    if Mentions(row, owner) {
      assert Mentions(all[|log|], owner);
    }
  }

  lemma DonorSnoc(log: Log, row: AuditRow, donor: string)
    ensures DonorKnown(log + [row], donor) <==>
      DonorKnown(log, donor) || (row.message.ToVault? && row.message.vault.Created? && row.message.vault.donor == donor)
  {
    var all := log + [row];
    if DonorKnown(log, donor) {
      var i :| 0 <= i < |log| && log[i].message.ToVault? && log[i].message.vault.Created?
        && log[i].message.vault.donor == donor;
      assert all[i] == log[i];
    }
    if row.message.ToVault? && row.message.vault.Created? && row.message.vault.donor == donor {
      assert all[|log|] == row;
    }
  }

  lemma {:induction false} AccruedNonNegative(log: Log, id: int)
    requires LogNonNegative(log)
    ensures 0 <= Accrued(log, id)
  {
    if log != [] {
      AccruedNonNegative(Init(log), id);
      assert Last(log) in log;
    }
  }

  /** The iterated clamp is one clamp of the total. */
  lemma ClampCollapses(deposit: int, soFar: int, more: int)
    requires 0 <= soFar && 0 <= more
    ensures Clamp(Clamp(deposit - soFar) - more) == Clamp(deposit - (soFar + more))
  {
  }

  lemma StreamPartsSnoc(log: Log, row: AuditRow, id: int)
    ensures FirstCreated(log + [row], id)
         == if FirstCreated(log, id).None? && Creates(row, id) then Some(row) else FirstCreated(log, id)
    ensures Accrued(log + [row], id) == Accrued(log, id) + if Withdraws(row, id) then row.message.vault.accrued else 0
    ensures Settlement(log + [row], id)
         == if Cancels(row, id) then Some((row.message.vault.accrued, row.message.vault.refund))
           else Settlement(log, id)
  {
    assert Init(log + [row]) == log && Last(log + [row]) == row;
  }

  /** A stream whose row reads back from the log, and what a log says of a stream it never created. */
  ghost predicate RowReads(t: Tables, log: Log, id: int) {
    && Lookup(t.streams, id) == StreamReading(log, id) && 0 <= Accrued(log, id)
    && (FirstCreated(log, id).None? ==> Accrued(log, id) == 0 && Settlement(log, id).None?)
  }

  lemma CreatedReads(t: Tables, log: Log, m: Message, txHash: string, row: AuditRow, id: int)
    requires RowReads(t, log, id) && NonNegative(m) && row.message == m && row.txHash == txHash && m.ToVault?
      && m.vault.Created?
    ensures Lookup(Effect(t, m, txHash).streams, id) == StreamReading(log + [row], id)
  {
    StreamPartsSnoc(log, row, id);
  }

  lemma WithdrawReads(t: Tables, log: Log, m: Message, txHash: string, row: AuditRow, id: int)
    requires RowReads(t, log, id) && Audited(t, m) && NonNegative(m) && row.message == m && m.ToVault?
      && m.vault.Withdraw?
    ensures Lookup(Effect(t, m, txHash).streams, id) == StreamReading(log + [row], id)
  {
    StreamPartsSnoc(log, row, id);
    if m.vault.streamId == id {
      ClampCollapses(FirstCreated(log, id).value.message.vault.deposit, Accrued(log, id), m.vault.accrued);
    }
  }

  lemma CancelReads(t: Tables, log: Log, m: Message, txHash: string, row: AuditRow, id: int)
    requires RowReads(t, log, id) && Audited(t, m) && row.message == m && m.ToVault? && m.vault.Cancel?
    ensures Lookup(Effect(t, m, txHash).streams, id) == StreamReading(log + [row], id)
  {
    StreamPartsSnoc(log, row, id);
  }

  lemma OtherReads(t: Tables, log: Log, m: Message, txHash: string, row: AuditRow, id: int)
    requires RowReads(t, log, id) && row.message == m
    requires !(m.ToVault? && (m.vault.Created? || m.vault.Withdraw? || m.vault.Cancel?))
    ensures Lookup(Effect(t, m, txHash).streams, id) == StreamReading(log + [row], id)
  {
    StreamPartsSnoc(log, row, id);
  }

  lemma StreamReadingSnoc(db: Db, e: ChainEvent, id: int)
    requires Inv(db) && NonNegative(e.message) && Audited(db.tables, e.message)
    ensures Lookup(Effect(db.tables, e.message, e.txHash).streams, id)
            == StreamReading(db.log + [AuditRow(e.message, e.ledger, e.txHash)], id)
  {
    AccruedNonNegative(db.log, id);
    if FirstCreated(db.log, id).None? {
      NothingBeforeCreation(db.log, id);
    }
    var t, m, row := db.tables, e.message, AuditRow(e.message, e.ledger, e.txHash);
    assert Lookup(t.streams, id) == StreamReading(db.log, id);
    if m.ToVault? && m.vault.Created? {
      CreatedReads(t, db.log, m, e.txHash, row, id);
    } else if m.ToVault? && m.vault.Withdraw? {
      WithdrawReads(t, db.log, m, e.txHash, row, id);
    } else if m.ToVault? && m.vault.Cancel? {
      CancelReads(t, db.log, m, e.txHash, row, id);
    } else {
      OtherReads(t, db.log, m, e.txHash, row, id);
    }
  }

  /** With no `created` row there is no withdrawal and no cancellation either. */
  lemma {:induction false} NothingBeforeCreation(log: Log, id: int)
    requires Disciplined(log) && FirstCreated(log, id).None?
    ensures Accrued(log, id) == 0 && Settlement(log, id).None?
  {
    if log != [] {
      DisciplinedPrefix(log);
      var i := |log| - 1;
      assert log[..i] == Init(log);
      assert !(Withdraws(log[i], id) || Cancels(log[i], id));
      NothingBeforeCreation(Init(log), id);
    }
  }

  lemma DisciplinedPrefix(log: Log)
    requires log != [] && Disciplined(log)
    ensures Disciplined(Init(log))
  {
    forall i, id | 0 <= i < |Init(log)| && (Withdraws(Init(log)[i], id) || Cancels(Init(log)[i], id))
      ensures FirstCreated(Init(log)[..i], id).Some? && Settlement(Init(log)[..i], id).None?
    {
      assert Init(log)[i] == log[i] && Init(log)[..i] == log[..i];
    }
  }

  lemma NgoReadingSnoc(db: Db, e: ChainEvent, owner: string)
    requires Inv(db) && Audited(db.tables, e.message)
    ensures Lookup(Effect(db.tables, e.message, e.txHash).ngos, owner)
            == NgoReading(db.log + [AuditRow(e.message, e.ledger, e.txHash)], owner)
  {
    var row := AuditRow(e.message, e.ledger, e.txHash);
    var log := db.log + [row];
    assert Init(log) == db.log && Last(log) == row;
    assert Lookup(db.tables.ngos, owner) == NgoReading(db.log, owner);
    KnownSnoc(db.log, row, owner);
    if !Known(db.log, owner) {
      UnknownReads(db.log, owner);
    }
  }

  lemma {:induction false} UnknownReads(log: Log, owner: string)
    requires !Known(log, owner)
    ensures LastName(log, owner) == "" && !LastVerdict(log, owner)
  {
    if log != [] {
      assert log == Init(log) + [Last(log)];
      KnownSnoc(Init(log), Last(log), owner);
      UnknownReads(Init(log), owner);
    }
  }

  lemma DisciplineSnoc(db: Db, e: ChainEvent)
    requires Inv(db) && Audited(db.tables, e.message)
    ensures Disciplined(db.log + [AuditRow(e.message, e.ledger, e.txHash)])
  {
    var row := AuditRow(e.message, e.ledger, e.txHash);
    var log := db.log + [row];
    forall i, id | 0 <= i < |log| && (Withdraws(log[i], id) || Cancels(log[i], id))
      ensures FirstCreated(log[..i], id).Some? && Settlement(log[..i], id).None?
    {
      if i < |db.log| {
        assert log[i] == db.log[i] && log[..i] == db.log[..i];
      } else {
        assert log[..i] == db.log;
        assert Lookup(db.tables.streams, id) == StreamReading(db.log, id);
      }
    }
  }

  lemma DeliverKeepsInv(db: Db, d: Delivery)
    requires Inv(db) && NonNegative(d.event.message)
    ensures Inv(Deliver(db, d))
  {
    var m, db' := d.event.message, Deliver(db, d);
    if Commits(db.tables, m, d.fault) && Audited(db.tables, m) {
      var row := AuditRow(m, d.event.ledger, d.event.txHash);
      assert db'.log == db.log + [row];
      forall id ensures Lookup(db'.tables.streams, id) == StreamReading(db'.log, id) {
        StreamReadingSnoc(db, d.event, id);
      }
      forall owner ensures Lookup(db'.tables.ngos, owner) == NgoReading(db'.log, owner) {
        NgoReadingSnoc(db, d.event, owner);
      }
      forall donor ensures donor in db'.tables.donors <==> DonorKnown(db'.log, donor) {
        DonorSnoc(db.log, row, donor);
      }
      DisciplineSnoc(db, d.event);
    } else if Commits(db.tables, m, d.fault) {
      assert db' == db;
    }
  }

  lemma {:induction false} DeliverAllKeepsInv(ds: seq<Delivery>)
    requires forall d <- ds :: NonNegative(d.event.message)
    ensures Inv(DeliverAll(Db(EMPTY_TABLES, []), ds))
  {
    if ds != [] {
      DeliverAllKeepsInv(ds[..|ds| - 1]);
      DeliverKeepsInv(DeliverAll(Db(EMPTY_TABLES, []), ds[..|ds| - 1]), ds[|ds| - 1]);
    }
  }

  /** In every reachable state, under any deliveries, the tables read back from the log. */
  lemma TablesReadBackFromLog(db: Db)
    requires Reachable(db)
    ensures ReadsBack(db.log, db.tables)
    ensures forall id :: Cancellations(db.log, id) <= 1
  {
    var ds: seq<Delivery> :| (forall d <- ds :: NonNegative(d.event.message))
      && db == DeliverAll(Db(EMPTY_TABLES, []), ds);
    DeliverAllKeepsInv(ds);
    forall id ensures Cancellations(db.log, id) <= 1 {
      AtMostOneCancellation(db.log, id);
    }
  }

  lemma {:induction false} AtMostOneCancellation(log: Log, id: int)
    requires Disciplined(log)
    ensures Cancellations(log, id) <= 1 && (Cancellations(log, id) == 1 <==> Settlement(log, id).Some?)
  {
    if log != [] {
      DisciplinedPrefix(log);
      AtMostOneCancellation(Init(log), id);
      assert log[..|log| - 1] == Init(log) && log[|log| - 1] == Last(log);
    }
  }

  // ---------- what a stream row says ----------

  /** Nothing revives or moves a cancelled stream, whatever is delivered. */
  lemma CancelledIsAbsorbing(db: Db, d: Delivery, id: int)
    requires id in db.tables.streams && db.tables.streams[id].status.Cancelled?
    ensures id in Deliver(db, d).tables.streams && Deliver(db, d).tables.streams[id] == db.tables.streams[id]
  {
  }

  lemma {:induction false} AccruedPrefix(log: Log, id: int, n: nat)
    requires LogNonNegative(log) && n <= |log|
    ensures 0 <= Accrued(log[..n], id) <= Accrued(log, id)
  {
    AccruedNonNegative(log[..n], id);
    if n < |log| {
      AccruedPrefix(Init(log), id, n);
      assert Init(log)[..n] == log[..n];
      assert Last(log) in log;
    } else {
      assert log[..n] == log;
    }
  }

  /**
   If what the chain paid out plus the refund is the deposit, the recorded totals agree with
   the chain, and at no earlier point of the log did a withdrawal exceed the balance.
   */
  lemma CancelledStreamConserves(db: Db, id: int)
    requires Reachable(db) && id in db.tables.streams && db.tables.streams[id].status.Cancelled?
    ensures FirstCreated(db.log, id).Some? && Settlement(db.log, id).Some?
    ensures var deposit := FirstCreated(db.log, id).value.message.vault.deposit;
            var (accrued, refund) := Settlement(db.log, id).value;
            Accrued(db.log, id) + accrued + refund == deposit ==>
              && db.tables.streams[id].withdrawn + refund == deposit
              && forall n :: 0 <= n <= |db.log| ==>
                   Clamp(deposit - Accrued(db.log[..n], id)) + Accrued(db.log[..n], id) == deposit
  {
    var ds: seq<Delivery> :| (forall d <- ds :: NonNegative(d.event.message))
      && db == DeliverAll(Db(EMPTY_TABLES, []), ds);
    DeliverAllKeepsInv(ds);
    assert Lookup(db.tables.streams, id) == StreamReading(db.log, id);
    SettlementNonNegative(db.log, id);
    forall n | 0 <= n <= |db.log|
      ensures 0 <= Accrued(db.log[..n], id) <= Accrued(db.log, id)
    {
      AccruedPrefix(db.log, id, n);
    }
  }

  lemma {:induction false} SettlementNonNegative(log: Log, id: int)
    requires LogNonNegative(log)
    ensures Settlement(log, id).Some? ==> 0 <= Settlement(log, id).value.0 && 0 <= Settlement(log, id).value.1
  {
    if log != [] {
      assert Last(log) in log;
      SettlementNonNegative(Init(log), id);
    }
  }

  /** The same for a live stream: nothing is lost to the clamp iff payouts stay within the deposit. */
  lemma LiveStreamConserves(db: Db, id: int)
    requires Reachable(db) && LiveStream(db.tables, id)
    ensures FirstCreated(db.log, id).Some?
    ensures var deposit := FirstCreated(db.log, id).value.message.vault.deposit;
            var row := db.tables.streams[id];
            && row.withdrawn == Accrued(db.log, id)
            && (row.balance + row.withdrawn == deposit <==> row.withdrawn <= deposit)
  {
    var ds: seq<Delivery> :| (forall d <- ds :: NonNegative(d.event.message))
      && db == DeliverAll(Db(EMPTY_TABLES, []), ds);
    DeliverAllKeepsInv(ds);
    assert Lookup(db.tables.streams, id) == StreamReading(db.log, id);
  }

  // ---------- how often an event is audited ----------

  /** The audit row of an event. It does not carry the event's id. */
  function RowOf(e: ChainEvent): AuditRow { AuditRow(e.message, e.ledger, e.txHash) }

  function Rows(log: Log, row: AuditRow): nat {
    if log == [] then 0 else Rows(Init(log), row) + if Last(log) == row then 1 else 0
  }

  predicate CommitsAudited(t: Tables, d: Delivery, row: AuditRow) {
    RowOf(d.event) == row && Commits(t, d.event.message, d.fault) && Audited(t, d.event.message)
  }

  /** How many of these deliveries commit with an audit row on the tables they meet. */
  function AuditedCommits(db: Db, ds: seq<Delivery>, row: AuditRow): nat {
    if ds == [] then 0
    else
      var before := ds[..|ds| - 1];
      AuditedCommits(db, before, row)
      + if CommitsAudited(DeliverAll(db, before).tables, ds[|ds| - 1], row) then 1 else 0
  }

  /** Handlers that append a row whenever they commit. */
  predicate AlwaysAudited(m: Message) {
    || (m.ToVault? && m.vault.Created?)
    || (m.ToRegistry? && (m.registry.Register? || m.registry.Approved? || m.registry.Revoked?))
  }

  /** How many deliveries of this row's event got as far as their commit. */
  function CommittedDeliveries(ds: seq<Delivery>, row: AuditRow): nat {
    if ds == [] then 0
    else
      CommittedDeliveries(ds[..|ds| - 1], row)
      + if RowOf(ds[|ds| - 1].event) == row && !ds[|ds| - 1].fault.BeforeCommit? then 1 else 0
  }

  lemma RowsSnoc(log: Log, last: AuditRow, row: AuditRow)
    ensures Rows(log + [last], row) == Rows(log, row) + if last == row then 1 else 0
  {
    assert Init(log + [last]) == log;
  }

  lemma DeliveryAddsRows(db: Db, d: Delivery, row: AuditRow)
    ensures Rows(Deliver(db, d).log, row)
         == Rows(db.log, row) + if CommitsAudited(db.tables, d, row) then 1 else 0
  {
    RowsSnoc(db.log, RowOf(d.event), row);
    assert db.log + [] == db.log;
  }

  /**
   Over any run an event is in the log as often as it was committed with an audit row. A
   creation or a registry event has one row for every delivery that got to its commit,
   redeliveries included.
   */
  lemma {:induction false} RowsCountCommits(db: Db, ds: seq<Delivery>, row: AuditRow)
    ensures Rows(DeliverAll(db, ds).log, row) == Rows(db.log, row) + AuditedCommits(db, ds, row)
    ensures AlwaysAudited(row.message) ==> AuditedCommits(db, ds, row) == CommittedDeliveries(ds, row)
  {
    if ds != [] {
      RowsCountCommits(db, ds[..|ds| - 1], row);
      DeliveryAddsRows(DeliverAll(db, ds[..|ds| - 1]), ds[|ds| - 1], row);
    }
  }

  /** A `created` delivered twice has two rows, and the tables of one. */
  lemma CreatedTwiceHasTwoRows(e: ChainEvent)
    requires e.message.ToVault? && e.message.vault.Created?
    ensures var d, empty := Delivery(e, Nothing), Db(EMPTY_TABLES, []);
            && DeliverAll(empty, [d, d]).log == [RowOf(e), RowOf(e)]
            && DeliverAll(empty, [d, d]).tables == DeliverAll(empty, [d]).tables
  {
    var d, empty := Delivery(e, Nothing), Db(EMPTY_TABLES, []);
    assert [d, d][..1] == [d] && [d][..0] == [];
    var once := Deliver(empty, d);
    assert DeliverAll(empty, [d]) == once && DeliverAll(empty, [d, d]) == Deliver(once, d);
    assert once.tables.donors + {e.message.vault.donor} == once.tables.donors;
  }
}
