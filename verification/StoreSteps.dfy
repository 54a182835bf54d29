/** The steps of the two state machines, taken on a store by the statements the connector
    uses: what a step says of the rows is what the statement leaves in the tables. */
module StoreSteps {
  import opened Prelude
  import opened Storage
  import opened Decisions
  import N = NegotiationWorld
  import T = TransferWorld

  /** The provider's tables hold this negotiation's row and its agreements. */
  ghost predicate ProviderHolds(store: Store, w: N.World)
    reads store
  {
    && store.agreements == w.providerAgreements
    && (w.provider.Some? ==> w.provider.value.providerPid in store.negotiations
                             && store.negotiations[w.provider.value.providerPid] == w.provider.value)
  }

  ghost predicate ConsumerHolds(store: Store, w: N.World)
    reads store
  {
    && store.agreements == w.consumerAgreements
    && w.consumer.consumerPid in store.consumerNegotiations
    && store.consumerNegotiations[w.consumer.consumerPid] == w.consumer
  }

  /** A claim's compare-and-swap succeeds in the store exactly if it does in the machine. */
  method TryClaim(store: Store, w: N.World, claim: N.Claim) returns (r: UpdateResult)
    requires if claim.role == N.Provider then ProviderHolds(store, w) && w.provider.Some? else ConsumerHolds(store, w)
    modifies store
    ensures r == Updated <==> N.Succeeds(w, claim)
    ensures if claim.role == N.Provider then ProviderHolds(store, N.Swap(w, claim))
      else ConsumerHolds(store, N.Swap(w, claim))
  {
    if claim.role == N.Provider {
      r := store.SetState(w.provider.value.providerPid, claim.from, claim.to);
    } else {
      r := store.SetConsumerState(w.consumer.consumerPid, claim.from, claim.to);
    }
  }

  /** A re-request's flag is set in the store exactly if the machine's handler answers 200. */
  method TryFlag(setup: N.Setup, store: Store, w: N.World, m: Message, claim: N.Claim) returns (r: UpdateResult)
    requires ProviderHolds(store, w) && w.provider.Some? && m.CounterRequest?
    modifies store
    ensures r == Updated <==> N.Flag(setup, w, m, claim).me.ok
    ensures ProviderHolds(store, N.Flag(setup, w, m, claim).world)
  {
    r := store.SetRerequested(w.provider.value.providerPid);
  }

  /** Dispatch's agreement transaction. */
  method TryRecord(store: Store, w: N.World) returns (recorded: bool, current: Option<NegotiationState>)
    requires ProviderHolds(store, w) && w.provider.Some?
    modifies store
    ensures current == Some(w.provider.value.state)
    ensures ProviderHolds(store, N.Record(w).world)
    ensures recorded <==> N.Record(w).world != w
  {
    var n := w.provider.value;
    recorded, current := store.CreateAgreementIfNegotiationAgreed(n.providerPid, [AGREED, VERIFIED, FINALIZED],
      N.NegotiatedAgreement(n));
  }

  /** The consumer's record of an agreement it has been sent. */
  method TryInsert(store: Store, w: N.World, m: Message, claim: N.Claim) returns (r: InsertResult)
    requires ConsumerHolds(store, w) && m.ContractAgreement?
    modifies store
    ensures r == Inserted <==> N.Insert(w, m, claim).me.Handling?
    ensures ConsumerHolds(store, N.Insert(w, m, claim).world)
  {
    r := store.CreateAgreement(Agreement(m.id, m.target, w.consumer.consumerPid, Origin.Agreed,
      w.consumer.counterparty));
  }

  /** The connector's transfer rows and agreements. */
  ghost predicate TransfersHold(store: Store, w: T.World)
    reads store
  {
    store.agreements == w.agreements && store.transfers == w.transfers && store.consumerTransfers == w.consumerTransfers
  }

  /** A transition is stored exactly if the machine's step commits it. */
  method TryTransition(store: Store, w: T.World, key: T.Key, from: TransferState, to: TransferState,
    driver: Option<nat>)
    returns (r: UpdateResult)
    requires TransfersHold(store, w) && T.StateOf(w, key).Some?
    modifies store
    ensures r == Updated <==> T.StateOf(w, key) == Some(from)
    ensures TransfersHold(store, if r == Updated then T.Commit(w, key, to, driver) else w)
  {
    if key.role == T.Provider {
      r := store.SetTransferState(key.pid, from, to);
      assert r != Updated ==> store.transfers == w.transfers;
    } else {
      r := store.SetConsumerTransferState(key.pid, from, to);
      assert r != Updated ==> store.consumerTransfers == w.consumerTransfers;
    }
  }

  method TryCreate(store: Store, w: T.World, row: TransferProcess) returns (r: InsertResult)
    requires TransfersHold(store, w)
    modifies store
    ensures r == Inserted <==> T.Create(w, row).started != []
    ensures TransfersHold(store, T.Create(w, row).world)
  {
    r := store.CreateTransfer(row);
  }
}
