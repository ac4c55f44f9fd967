/**
 What delivering events a second time does. One in-flight event changes the tables only
 if it is a withdrawal from a live stream; a longer redelivered segment drifts each live
 stream by the segment's withdrawals from it, and an NGO only if its last approval in the
 segment came before the NGO was known.
 */
module Redelivery {
  import opened Wrappers
  import opened Events
  import opened StreamTables
  import opened AuditReading

  predicate WithdrawsFrom(m: Message, id: int) {
    m.ToVault? && m.vault.Withdraw? && m.vault.streamId == id
  }

  ghost predicate BalancesOk(t: Tables) {
    forall id <- t.streams :: 0 <= t.streams[id].balance
  }

  predicate CancelsStream(m: Message, id: int) {
    m.ToVault? && m.vault.Cancel? && m.vault.streamId == id
  }

  /** A second delivery right after the first: exactly when, and by exactly how much, it drifts. */
  lemma RedeliveredEventDrifts(t: Tables, e: ChainEvent)
    ensures var once := Effect(t, e.message, e.txHash);
            var twice := Effect(once, e.message, e.txHash);
            && (twice != once <==>
                && e.message.ToVault? && e.message.vault.Withdraw?
                && LiveStream(once, e.message.vault.streamId) && e.message.vault.accrued != 0)
            && (e.message.ToVault? && e.message.vault.Withdraw? && LiveStream(once, e.message.vault.streamId) ==>
                var id := e.message.vault.streamId;
                && twice == once.(streams := once.streams[id := twice.streams[id]])
                && twice.streams[id].withdrawn == once.streams[id].withdrawn + e.message.vault.accrued)
  {
    var once := Effect(t, e.message, e.txHash);
    var twice := Effect(once, e.message, e.txHash);
    match e.message {
      case ToVault(Created(id, donor, ngo, _, _, _)) =>
        assert once.donors + {donor} == once.donors;
      case ToVault(Withdraw(id, accrued)) =>
        if LiveStream(once, id) {
          assert twice.streams[id].withdrawn == once.streams[id].withdrawn + accrued;
          if accrued == 0 {
            assert Clamp(Clamp(t.streams[id].balance - 0) - 0) == Clamp(t.streams[id].balance - 0);
            assert twice.streams == once.streams;
          }
        }
      case ToRegistry(Register(owner, name)) =>
        assert twice.ngos == once.ngos;
      case ToRegistry(Approved(owner)) =>
        if owner in t.ngos {
          assert twice.ngos == once.ngos;
        }
      case ToRegistry(Revoked(owner)) =>
        if owner in t.ngos {
          assert twice.ngos == once.ngos;
        }
      case _ =>
    }
  }

  /** When a second delivery that commits appends a second audit row. */
  lemma RedeliveredEventIsAuditedAgain(t: Tables, e: ChainEvent)
    ensures Audited(Effect(t, e.message, e.txHash), e.message) <==>
      || (e.message.ToVault? && e.message.vault.Created?)
      || (e.message.ToVault? && e.message.vault.Withdraw? && LiveStream(t, e.message.vault.streamId))
      || (e.message.ToRegistry? && Audited(t, e.message))
  {
  }

  /** Registry handlers may commit and then fail, and are then retried; that is harmless. */
  lemma RegistryEffectIsIdempotent(t: Tables, e: ChainEvent)
    requires e.message.ToRegistry?
    ensures Effect(Effect(t, e.message, e.txHash), e.message, e.txHash) == Effect(t, e.message, e.txHash)
  {
    RedeliveredEventDrifts(t, e);
  }

  function EffectAll(t: Tables, es: seq<ChainEvent>): Tables {
    if es == [] then t
    else Effect(EffectAll(t, es[..|es| - 1]), es[|es| - 1].message, es[|es| - 1].txHash)
  }

  /** The segment's withdrawals from one stream. */
  function Drift(es: seq<ChainEvent>, id: int): int {
    if es == [] then 0
    else Drift(es[..|es| - 1], id) + if WithdrawsFrom(es[|es| - 1].message, id)
      then es[|es| - 1].message.vault.accrued else 0
  }

  ghost predicate AllNonNegative(es: seq<ChainEvent>) {
    forall e <- es :: NonNegative(e.message)
  }

  /** On chain a stream is cancelled only after it was created. */
  ghost predicate CancelsOnlyKnown(t: Tables, es: seq<ChainEvent>, id: int) {
    forall i :: 0 <= i < |es| && CancelsStream(es[i].message, id) ==> id in EffectAll(t, es[..i]).streams
  }

  lemma EffectKeepsBalances(t: Tables, e: ChainEvent)
    requires BalancesOk(t) && NonNegative(e.message)
    ensures BalancesOk(Effect(t, e.message, e.txHash))
  {
  }

  lemma {:induction false} EffectsKeepBalances(t: Tables, es: seq<ChainEvent>)
    requires BalancesOk(t) && AllNonNegative(es)
    ensures BalancesOk(EffectAll(t, es))
  {
    if es != [] {
      assert es[|es| - 1] in es;
      EffectsKeepBalances(t, es[..|es| - 1]);
      EffectKeepsBalances(EffectAll(t, es[..|es| - 1]), es[|es| - 1]);
    }
  }

  lemma {:induction false} StreamsStayKnown(t: Tables, es: seq<ChainEvent>, id: int)
    requires id in t.streams
    ensures id in EffectAll(t, es).streams
  {
    if es != [] {
      StreamsStayKnown(t, es[..|es| - 1], id);
    }
  }

  lemma {:induction false} CancelledStaysPut(t: Tables, es: seq<ChainEvent>, id: int)
    requires id in t.streams && t.streams[id].status.Cancelled?
    ensures id in EffectAll(t, es).streams && EffectAll(t, es).streams[id] == t.streams[id]
  {
    if es != [] {
      CancelledStaysPut(t, es[..|es| - 1], id);
    }
  }

  lemma {:induction false} EffectAllSplits(t: Tables, a: seq<ChainEvent>, b: seq<ChainEvent>)
    ensures EffectAll(t, a + b) == EffectAll(EffectAll(t, a), b)
  {
    if b == [] {
      assert a + b == a;
    } else {
      var ab := a + b;
      assert ab[..|ab| - 1] == a + b[..|b| - 1];
      EffectAllSplits(t, a, b[..|b| - 1]);
    }
  }

  lemma CancelCancels(t: Tables, e: ChainEvent, id: int)
    requires CancelsStream(e.message, id) && id in t.streams
    ensures id in Effect(t, e.message, e.txHash).streams && Effect(t, e.message, e.txHash).streams[id].status.Cancelled?
  {
  }

  lemma CancelledFromThere(t: Tables, es: seq<ChainEvent>, id: int, i: nat)
    requires i < |es| && CancelsStream(es[i].message, id) && id in EffectAll(t, es[..i]).streams
    ensures id in EffectAll(t, es).streams && EffectAll(t, es).streams[id].status.Cancelled?
  {
    var upTo, rest := es[..i + 1], es[i + 1..];
    assert upTo[..i] == es[..i] && upTo + rest == es;
    CancelCancels(EffectAll(t, es[..i]), es[i], id);
    EffectAllSplits(t, upTo, rest);
    CancelledStaysPut(EffectAll(t, upTo), rest, id);
  }

  /** A stream still live after the segment saw no cancellation in it. */
  lemma LiveMeansNotCancelled(t: Tables, es: seq<ChainEvent>, id: int, i: nat)
    requires CancelsOnlyKnown(t, es, id) && LiveStream(EffectAll(t, es), id) && i < |es|
    ensures !CancelsStream(es[i].message, id)
  {
    if CancelsStream(es[i].message, id) {
      CancelledFromThere(t, es, id, i);
    }
  }

  lemma {:induction false} DriftNonNegative(es: seq<ChainEvent>, id: int)
    requires AllNonNegative(es)
    ensures 0 <= Drift(es, id)
  {
    if es != [] {
      assert es[|es| - 1] in es;
      DriftNonNegative(es[..|es| - 1], id);
    }
  }

  /** Without a cancellation, a live stream absorbs the segment's withdrawals in one clamp. */
  lemma {:induction false} LiveStreamAbsorbs(t: Tables, es: seq<ChainEvent>, id: int)
    requires LiveStream(t, id) && 0 <= t.streams[id].balance && AllNonNegative(es)
    requires forall i :: 0 <= i < |es| ==> !CancelsStream(es[i].message, id)
    ensures id in EffectAll(t, es).streams
    ensures EffectAll(t, es).streams[id] == Withdrawn(t.streams[id], Drift(es, id))
  {
    if es != [] {
      var shorter := es[..|es| - 1];
      LiveStreamAbsorbs(t, shorter, id);
      DriftNonNegative(shorter, id);
      var last := es[|es| - 1];
      assert last in es && !CancelsStream(last.message, id);
      if WithdrawsFrom(last.message, id) {
        ClampCollapses(t.streams[id].balance, Drift(shorter, id), last.message.vault.accrued);
      }
    }
  }

  /** A live stream absorbs the withdrawals before its first cancellation, and is then settled for good. */
  lemma LiveStreamSettles(t: Tables, es: seq<ChainEvent>, id: int, i: nat)
    requires LiveStream(t, id) && 0 <= t.streams[id].balance && AllNonNegative(es)
    requires i < |es| && CancelsStream(es[i].message, id)
    requires forall j :: 0 <= j < i ==> !CancelsStream(es[j].message, id)
    ensures id in EffectAll(t, es).streams
    ensures EffectAll(t, es).streams[id]
         == CancelledRow(Withdrawn(t.streams[id], Drift(es[..i], id)), es[i].message.vault.accrued)
  {
    var upTo, rest := es[..i + 1], es[i + 1..];
    assert upTo[..i] == es[..i] && upTo + rest == es;
    assert forall e <- es[..i] :: e in es;
    LiveStreamAbsorbs(t, es[..i], id);
    CancelSettles(EffectAll(t, es[..i]), es[i], id);
    EffectAllSplits(t, upTo, rest);
    CancelledStaysPut(EffectAll(t, upTo), rest, id);
  }

  lemma CancelSettles(t: Tables, e: ChainEvent, id: int)
    requires CancelsStream(e.message, id) && LiveStream(t, id)
    ensures id in Effect(t, e.message, e.txHash).streams
    ensures Effect(t, e.message, e.txHash).streams[id] == CancelledRow(t.streams[id], e.message.vault.accrued)
    ensures Effect(t, e.message, e.txHash).streams[id].status.Cancelled?
  {
  }

  /** Redelivering a whole segment drifts each live stream by the segment's withdrawals, no more. */
  lemma RedeliveredSegmentDriftsStreams(t: Tables, es: seq<ChainEvent>, id: int)
    requires AllNonNegative(es) && CancelsOnlyKnown(t, es, id)
    requires id in EffectAll(t, es).streams && 0 <= EffectAll(t, es).streams[id].balance
    ensures var once := EffectAll(t, es);
            var twice := EffectAll(once, es);
            && id in twice.streams
            && twice.streams[id] == if LiveStream(once, id) then Withdrawn(once.streams[id], Drift(es, id))
              else once.streams[id]
  {
    var once := EffectAll(t, es);
    if LiveStream(once, id) {
      forall i | 0 <= i < |es| ensures !CancelsStream(es[i].message, id) {
        LiveMeansNotCancelled(t, es, id, i);
      }
      LiveStreamAbsorbs(once, es, id);
    } else {
      CancelledStaysPut(once, es, id);
    }
  }

  // ---------- NGOs ----------

  predicate RegistersNgo(m: Message, owner: string) {
    m.ToRegistry? && m.registry.Register? && m.registry.owner == owner
  }

  predicate JudgesNgo(m: Message, owner: string) {
    m.ToRegistry? && (m.registry.Approved? || m.registry.Revoked?) && m.registry.owner == owner
  }

  function SegmentName(es: seq<ChainEvent>, owner: string): Option<string> {
    if es == [] then None
    else if RegistersNgo(es[|es| - 1].message, owner) then Some(es[|es| - 1].message.registry.name)
    else SegmentName(es[..|es| - 1], owner)
  }

  function SegmentVerdict(es: seq<ChainEvent>, owner: string): Option<bool> {
    if es == [] then None
    else if JudgesNgo(es[|es| - 1].message, owner) then Some(es[|es| - 1].message.registry.Approved?)
    else SegmentVerdict(es[..|es| - 1], owner)
  }

  /** A known NGO takes the segment's last name and last verdict. */
  lemma {:induction false} KnownNgoTakesLast(t: Tables, es: seq<ChainEvent>, owner: string)
    requires owner in t.ngos
    ensures owner in EffectAll(t, es).ngos
    ensures var row := EffectAll(t, es).ngos[owner];
            && row.name == (match SegmentName(es, owner) case Some(n) => n case None => t.ngos[owner].name)
            && row.verified == (match SegmentVerdict(es, owner) case Some(v) => v case None => t.ngos[owner].verified)
  {
    if es != [] {
      KnownNgoTakesLast(t, es[..|es| - 1], owner);
    }
  }

  /** The same for one that may be new: only a verdict given too early can be missing. */
  lemma {:induction false} AnyNgoTakesLastName(t: Tables, es: seq<ChainEvent>, owner: string)
    requires owner in EffectAll(t, es).ngos
    ensures var row := EffectAll(t, es).ngos[owner];
            && (SegmentName(es, owner).Some? ==> row.name == SegmentName(es, owner).value)
            && (SegmentVerdict(es, owner) == Some(false) ==> !row.verified)
  {
    if es != [] {
      var shorter := es[..|es| - 1];
      if owner in EffectAll(t, shorter).ngos {
        AnyNgoTakesLastName(t, shorter, owner);
      } else {
        UnknownNgoWasNotRegistered(t, shorter, owner);
      }
    }
  }

  lemma {:induction false} UnknownNgoWasNotRegistered(t: Tables, es: seq<ChainEvent>, owner: string)
    requires owner !in EffectAll(t, es).ngos
    ensures SegmentName(es, owner).None?
  {
    if es != [] {
      UnknownNgoWasNotRegistered(t, es[..|es| - 1], owner);
    }
  }

  /** An NGO row changes on redelivery iff its last verdict was an approval that did not take. */
  lemma RedeliveredSegmentDriftsNgo(t: Tables, es: seq<ChainEvent>, owner: string)
    requires owner in EffectAll(t, es).ngos
    ensures var once := EffectAll(t, es);
            var twice := EffectAll(once, es);
            && owner in twice.ngos
            && (twice.ngos[owner] != once.ngos[owner] <==>
                SegmentVerdict(es, owner) == Some(true) && !once.ngos[owner].verified)
  {
    KnownNgoTakesLast(EffectAll(t, es), es, owner);
    AnyNgoTakesLastName(t, es, owner);
  }
}
