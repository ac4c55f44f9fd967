/** Contract events as the indexer receives them, already decoded. */
module Events {
  import opened Wrappers

  type EventId = string

  /** Donation-vault topics. `IgnoredVaultTopic` stands for `topup`, `ratemod` and any unknown topic. */
  datatype VaultMessage =
    | Created(streamId: int, donor: string, ngo: string, token: string, deposit: int, rate: int)
    | Withdraw(streamId: int, accrued: int)
    | Cancel(streamId: int, accrued: int, refund: int)
    | IgnoredVaultTopic
    | BadVaultPayload

  datatype RegistryMessage =
    | Register(owner: string, name: string)
    | Approved(owner: string)
    | Revoked(owner: string)
    | IgnoredRegistryTopic
    | BadRegistryPayload

  /** Which handler the dispatcher picks from the event's contract id. */
  datatype Message =
    | ToVault(vault: VaultMessage)
    | ToRegistry(registry: RegistryMessage)
    | ToNobody

  datatype ChainEvent = ChainEvent(
    id: EventId,
    ledger: nat,
    contractId: Option<string>,
    txHash: string,
    message: Message)

  /** The handlers throw a TypeError on these before they touch the database. */
  predicate Undecodable(m: Message) {
    || (m.ToVault? && m.vault.BadVaultPayload?)
    || (m.ToRegistry? && m.registry.BadRegistryPayload?)
  }

  /** The contract only emits non-negative amounts. */
  predicate NonNegative(m: Message) {
    match m
    case ToVault(Created(_, _, _, _, deposit, _)) => 0 <= deposit
    case ToVault(Withdraw(_, accrued)) => 0 <= accrued
    case ToVault(Cancel(_, accrued, refund)) => 0 <= accrued && 0 <= refund
    case _ => true
  }
}
