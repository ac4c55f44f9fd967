/**
 The donor, NGO and stream tables and the handlers that write them. A transaction is
 atomic, so a handler that throws before its commit leaves every table as it was.
 Database row ids are random and one-to-one with the natural keys, so rows refer to
 donors and NGOs by address.
 */
module StreamTables {
  import opened Wrappers
  import opened Events
  import opened DeadLetters

  datatype Status = Active | Cancelled

  datatype StreamRow = StreamRow(
    donor: string,
    ngo: string,
    token: string,
    rate: int,
    lastRate: Option<int>,
    balance: int,
    withdrawn: int,
    status: Status,
    createdTx: string)

  datatype NgoRow = NgoRow(name: string, verified: bool)

  datatype Tables = Tables(donors: set<string>, ngos: map<string, NgoRow>, streams: map<int, StreamRow>)

  /** One `stream_events` row: its type and payload, and where on chain it came from. */
  datatype AuditRow = AuditRow(message: Message, ledger: nat, txHash: string)

  datatype Fault = Nothing | BeforeCommit(early: string) | AfterCommit(late: string)

  datatype Handled = Returned | Threw(error: string)

  const EMPTY_TABLES := Tables({}, map[], map[])

  function EnsureNgo(ngos: map<string, NgoRow>, owner: string): map<string, NgoRow> {
    if owner in ngos then ngos else ngos[owner := NgoRow("", false)]
  }

  function Clamp(x: int): int { if x < 0 then 0 else x }

  function Withdrawn(row: StreamRow, accrued: int): StreamRow {
    row.(balance := Clamp(row.balance - accrued), withdrawn := row.withdrawn + accrued)
  }

  function CancelledRow(row: StreamRow, accrued: int): StreamRow {
    row.(withdrawn := row.withdrawn + accrued, balance := 0, lastRate := Some(row.rate), rate := 0, status := Cancelled)
  }

  /** What a committed handler does to the three tables. */
  function Effect(t: Tables, m: Message, txHash: string): Tables {
    match m
    case ToVault(Created(id, donor, ngo, token, deposit, rate)) =>
      Tables(
        t.donors + {donor},
        EnsureNgo(t.ngos, ngo),
        if id in t.streams then t.streams
        else t.streams[id := StreamRow(donor, ngo, token, rate, None, deposit, 0, Active, txHash)])
    case ToVault(Withdraw(id, accrued)) =>
      if LiveStream(t, id) then t.(streams := t.streams[id := Withdrawn(t.streams[id], accrued)]) else t
    case ToVault(Cancel(id, accrued, _)) =>
      if LiveStream(t, id) then t.(streams := t.streams[id := CancelledRow(t.streams[id], accrued)]) else t
    case ToRegistry(Register(owner, name)) =>
      t.(ngos := t.ngos[owner := NgoRow(name, owner in t.ngos && t.ngos[owner].verified)])
    case ToRegistry(Approved(owner)) =>
      if owner in t.ngos then t.(ngos := t.ngos[owner := t.ngos[owner].(verified := true)]) else t
    case ToRegistry(Revoked(owner)) =>
      if owner in t.ngos then t.(ngos := t.ngos[owner := t.ngos[owner].(verified := false)]) else t
    case _ => t
  }

  predicate LiveStream(t: Tables, id: int) {
    id in t.streams && t.streams[id].status.Active?
  }

  /** A withdrawal or cancellation of a stream nobody has seen created. */
  predicate UnknownStream(t: Tables, m: Message) {
    || (m.ToVault? && m.vault.Withdraw? && m.vault.streamId !in t.streams)
    || (m.ToVault? && m.vault.Cancel? && m.vault.streamId !in t.streams)
  }

  /** Whether the handler appends an audit row. */
  predicate Audited(t: Tables, m: Message) {
    match m
    case ToVault(Created(_, _, _, _, _, _)) => true
    case ToVault(Withdraw(id, _)) => LiveStream(t, id)
    case ToVault(Cancel(id, _, _)) => LiveStream(t, id)
    case ToRegistry(Register(_, _)) => true
    case ToRegistry(Approved(_)) => true
    case ToRegistry(Revoked(_)) => true
    case _ => false
  }

  predicate TouchesDatabase(t: Tables, m: Message) {
    Audited(t, m) || UnknownStream(t, m) || (m.ToVault? && (m.vault.Withdraw? || m.vault.Cancel?))
  }

  /** Whether the handler's transaction commits, given which database call fails. */
  predicate Commits(t: Tables, m: Message, fault: Fault) {
    && !Undecodable(m)
    && !(fault.BeforeCommit? && TouchesDatabase(t, m))
    && !(fault.AfterCommit? && UnknownStream(t, m))
  }

  /** Whether the handler itself records a dead letter: before its commit, outside the transaction. */
  predicate RecordsItself(t: Tables, m: Message, fault: Fault) {
    UnknownStream(t, m) && !fault.BeforeCommit?
  }

  /** A vault handler makes no database call after its commit; a registry handler makes one. */
  function Outcome(t: Tables, m: Message, fault: Fault): Handled {
    if Undecodable(m) then Threw("TypeError")
    else match fault
      case Nothing => Returned
      case BeforeCommit(error) => if TouchesDatabase(t, m) then Threw(error) else Returned
      case AfterCommit(error) =>
        if UnknownStream(t, m) || (m.ToRegistry? && Audited(t, m)) then Threw(error) else Returned
  }

  const UNKNOWN_STREAM := "Error: unknown stream"

  class StreamDb {
    var donors: set<string>
    var ngos: map<string, NgoRow>
    var streams: map<int, StreamRow>
    var audit: seq<AuditRow>

    function View(): Tables reads this { Tables(donors, ngos, streams) }

    constructor ()
      ensures View() == EMPTY_TABLES && audit == []
    {
      donors, ngos, streams, audit := {}, map[], map[], [];
    }

    method EnsureDonorRow(address: string)
      modifies this`donors
      ensures donors == old(donors) + {address}
    {
      if address !in donors {
        donors := donors + {address};
      }
    }

    method EnsureNgoRow(owner: string)
      modifies this`ngos
      ensures ngos == EnsureNgo(old(ngos), owner)
    {
      if owner !in ngos {
        ngos := ngos[owner := NgoRow("", false)];
      }
    }

    method Append(event: ChainEvent)
      modifies this`audit
      ensures audit == old(audit) + [AuditRow(event.message, event.ledger, event.txHash)]
    {
      audit := audit + [AuditRow(event.message, event.ledger, event.txHash)];
    }

    method HandleStreamCreated(event: ChainEvent, fault: Fault) returns (r: Handled)
      requires event.message.ToVault? && event.message.vault.Created?
      modifies this
      ensures r == Outcome(old(View()), event.message, fault)
      ensures View() == if Commits(old(View()), event.message, fault)
        then Effect(old(View()), event.message, event.txHash) else old(View())
      ensures audit == old(audit) + if Commits(old(View()), event.message, fault)
        then [AuditRow(event.message, event.ledger, event.txHash)] else []
    {
      if fault.BeforeCommit? {
        return Threw(fault.early);
      }
      var m := event.message.vault;
      EnsureDonorRow(m.donor);
      EnsureNgoRow(m.ngo);
      if m.streamId !in streams {
        streams := streams[m.streamId :=
          StreamRow(m.donor, m.ngo, m.token, m.rate, None, m.deposit, 0, Active, event.txHash)];
      }
      Append(event);
      r := Returned;
    }

    method HandleWithdraw(event: ChainEvent, fault: Fault, dead: DeadLetterTable, stamp: Stamp) returns (r: Handled)
      requires event.message.ToVault? && event.message.vault.Withdraw?
      modifies this, dead
      ensures r == Outcome(old(View()), event.message, fault)
      ensures View() == if Commits(old(View()), event.message, fault)
        then Effect(old(View()), event.message, event.txHash) else old(View())
      ensures audit == old(audit) + if Commits(old(View()), event.message, fault)
        && Audited(old(View()), event.message) then [AuditRow(event.message, event.ledger, event.txHash)] else []
      ensures dead.rows == if RecordsItself(old(View()), event.message, fault)
        then Recorded(old(dead.rows), event.id, event.ledger, event.contractId, UNKNOWN_STREAM, stamp)
        else old(dead.rows)
    {
      if fault.BeforeCommit? {
        return Threw(fault.early);
      }
      var m := event.message.vault;
      if m.streamId !in streams {
        dead.Record(event.id, event.ledger, event.contractId, UNKNOWN_STREAM, stamp);
        return if fault.AfterCommit? then Threw(fault.late) else Returned;
      }
      var stream := streams[m.streamId];
      if stream.status.Cancelled? {
        return Returned;
      }
      var nextBalance := stream.balance - m.accrued;
      var balance := if nextBalance < 0 then 0 else nextBalance;
      streams := streams[m.streamId := stream.(balance := balance, withdrawn := stream.withdrawn + m.accrued)];
      Append(event);
      r := Returned;
    }

    method HandleCancel(event: ChainEvent, fault: Fault, dead: DeadLetterTable, stamp: Stamp) returns (r: Handled)
      requires event.message.ToVault? && event.message.vault.Cancel?
      modifies this, dead
      ensures r == Outcome(old(View()), event.message, fault)
      ensures View() == if Commits(old(View()), event.message, fault)
        then Effect(old(View()), event.message, event.txHash) else old(View())
      ensures audit == old(audit) + if Commits(old(View()), event.message, fault)
        && Audited(old(View()), event.message) then [AuditRow(event.message, event.ledger, event.txHash)] else []
      ensures dead.rows == if RecordsItself(old(View()), event.message, fault)
        then Recorded(old(dead.rows), event.id, event.ledger, event.contractId, UNKNOWN_STREAM, stamp)
        else old(dead.rows)
    {
      if fault.BeforeCommit? {
        return Threw(fault.early);
      }
      var m := event.message.vault;
      if m.streamId !in streams {
        dead.Record(event.id, event.ledger, event.contractId, UNKNOWN_STREAM, stamp);
        return if fault.AfterCommit? then Threw(fault.late) else Returned;
      }
      var stream := streams[m.streamId];
      if stream.status.Cancelled? {
        return Returned;
      }
      streams := streams[m.streamId := stream.(
        withdrawn := stream.withdrawn + m.accrued,
        balance := 0,
        lastRate := Some(stream.rate),
        rate := 0,
        status := Cancelled)];
      Append(event);
      r := Returned;
    }

    method HandleNgoRegistryEvent(event: ChainEvent, fault: Fault) returns (r: Handled)
      requires event.message.ToRegistry?
      modifies this
      ensures r == Outcome(old(View()), event.message, fault)
      ensures View() == if Commits(old(View()), event.message, fault)
        then Effect(old(View()), event.message, event.txHash) else old(View())
      ensures audit == old(audit) + if Commits(old(View()), event.message, fault)
        && Audited(old(View()), event.message) then [AuditRow(event.message, event.ledger, event.txHash)] else []
    {
      var m := event.message.registry;
      if m.BadRegistryPayload? {
        return Threw("TypeError");
      }
      if m.IgnoredRegistryTopic? {
        return Returned;
      }
      if fault.BeforeCommit? {
        return Threw(fault.early);
      }
      if m.Register? {
        if m.owner in ngos {
          ngos := ngos[m.owner := ngos[m.owner].(name := m.name)];
        } else {
          ngos := ngos[m.owner := NgoRow(m.name, false)];
        }
      } else if m.owner in ngos {
        ngos := ngos[m.owner := ngos[m.owner].(verified := m.Approved?)];
      }
      Append(event);
      // The read of the NGO's id for the notification runs after the commit.
      r := if fault.AfterCommit? then Threw(fault.late) else Returned;
    }

    /** `dispatchEvent` and the vault's topic switch. */
    method Dispatch(event: ChainEvent, fault: Fault, dead: DeadLetterTable, stamp: Stamp) returns (r: Handled)
      modifies this, dead
      ensures r == Outcome(old(View()), event.message, fault)
      ensures View() == if Commits(old(View()), event.message, fault)
        then Effect(old(View()), event.message, event.txHash) else old(View())
      ensures audit == old(audit) + if Commits(old(View()), event.message, fault)
        && Audited(old(View()), event.message) then [AuditRow(event.message, event.ledger, event.txHash)] else []
      ensures dead.rows == if RecordsItself(old(View()), event.message, fault)
        then Recorded(old(dead.rows), event.id, event.ledger, event.contractId, UNKNOWN_STREAM, stamp)
        else old(dead.rows)
    {
      match event.message {
        case ToRegistry(_) => r := HandleNgoRegistryEvent(event, fault);
        case ToVault(Created(_, _, _, _, _, _)) => r := HandleStreamCreated(event, fault);
        case ToVault(Withdraw(_, _)) => r := HandleWithdraw(event, fault, dead, stamp);
        case ToVault(Cancel(_, _, _)) => r := HandleCancel(event, fault, dead, stamp);
        case ToVault(BadVaultPayload) => r := Threw("TypeError");
        case ToVault(IgnoredVaultTopic) => r := Returned;
        case ToNobody => r := Returned;
      }
    }
  }
}
