/** The connector's persistent rows and the statements that change them. Every statement
    or transaction runs alone on the store's one connection, so each is one function on
    the whole database; the class runs it in place. Timestamps are not part of the model. */
module Storage {
  import opened Prelude

  // ----- rows -----

  datatype NegotiationState = REQUESTED | OFFERED | ACCEPTED | AGREED | VERIFIED | FINALIZED | TERMINATED

  datatype TransferState = Requested | Started | Suspended | Completed | Terminated

  datatype Origin = Negotiated | Imported | Agreed

  datatype Negotiation = Negotiation(
    providerPid: string, consumerPid: string, state: NegotiationState, dataset: string, offer: string,
    callback: string, rerequested: bool, counterparty: string)

  datatype ConsumerNegotiation = ConsumerNegotiation(
    consumerPid: string, providerPid: string, baseUrl: string, state: NegotiationState,
    dataset: string, offer: string, counterparty: string)

  datatype Agreement = Agreement(id: string, dataset: string, consumerPid: string, origin: Origin, counterparty: string)

  /** Whether the connector may serve data under an agreement: not under one it accepted as
      the consumer. */
  predicate ServableAsProvider(a: Agreement) {
    a.origin != Origin.Agreed
  }

  datatype TransferProcess = TransferProcess(
    providerPid: string, consumerPid: string, agreement: string, state: TransferState,
    callback: string, format: string, counterparty: string)

  /** Why a pull stopped, one constructor for each sentence the row can hold. */
  datatype Failure =
    | NoReasonRecorded | NoDataEndpoint | EndpointRefused | NoDownloadDirectory | RequestNotBuilt | RosterExpired
    | NoResponseInTime | ShutDown | NoBytesArrived | WrongRangeStart | DifferentLength | NotPastWhatIsHere
    | UnexpectedAnswer | PullRefused | FileNotOpened | NoProgress | NotWritten | OverTheLimit
    | NotSynced | NotClosed | LengthMismatch | NotPlaced

  /** completed is the completion time, absent for the zero time; failure is the reason,
      absent for the empty string. */
  datatype ConsumerTransfer = ConsumerTransfer(
    consumerPid: string, providerPid: string, baseUrl: string, agreement: string, format: string,
    state: TransferState, counterparty: string,
    expected: int, received: int, path: string, completed: Option<nat>, failure: Option<Failure>)

  datatype Database = Database(
    negotiations: map<string, Negotiation>,
    consumerNegotiations: map<string, ConsumerNegotiation>,
    agreements: map<string, Agreement>,
    transfers: map<string, TransferProcess>,
    consumerTransfers: map<string, ConsumerTransfer>)

  /** A conditional update either matched its row, or says why it did not. */
  datatype UpdateResult = Updated | NotFound | StateChanged

  /** A plain insert either adds the row or fails on a duplicate key. */
  datatype InsertResult = Inserted | Duplicate

  /** The store. Each method is one SQL statement, or one transaction. */
  class Store {
    var negotiations: map<string, Negotiation>
    var consumerNegotiations: map<string, ConsumerNegotiation>
    var agreements: map<string, Agreement>
    var transfers: map<string, TransferProcess>
    var consumerTransfers: map<string, ConsumerTransfer>

    constructor ()
      ensures Db() == Database(map[], map[], map[], map[], map[])
    {
      negotiations, consumerNegotiations, agreements, transfers, consumerTransfers := map[], map[], map[], map[], map[];
    }

    ghost function Db(): Database
      reads this
    {
      Database(negotiations, consumerNegotiations, agreements, transfers, consumerTransfers)
    }

    method SetState(pid: string, from: NegotiationState, to: NegotiationState) returns (r: UpdateResult)
      modifies this`negotiations
      ensures r == NotFound <==> pid !in old(negotiations)
      ensures r == Updated <==> pid in old(negotiations) && old(negotiations)[pid].state == from
      ensures negotiations == if r == Updated
        then old(negotiations)[pid := old(negotiations)[pid].(state := to)] else old(negotiations)
    {
      r := StateChanged;
      if pid in negotiations && negotiations[pid].state == from {
        negotiations := negotiations[pid := negotiations[pid].(state := to)];
        r := Updated;
      } else if pid !in negotiations {
        r := NotFound;
      }
    }

    /** Tests the flag and only the flag: the row's state is not looked at. */
    method SetRerequested(pid: string) returns (r: UpdateResult)
      modifies this`negotiations
      ensures r == NotFound <==> pid !in old(negotiations)
      ensures r == Updated <==> pid in old(negotiations) && !old(negotiations)[pid].rerequested
      ensures negotiations == if pid in old(negotiations)
        then old(negotiations)[pid := old(negotiations)[pid].(rerequested := true)] else old(negotiations)
    {
      r := StateChanged;
      if pid in negotiations && !negotiations[pid].rerequested {
        negotiations := negotiations[pid := negotiations[pid].(rerequested := true)];
        r := Updated;
      } else if pid !in negotiations {
        r := NotFound;
      }
    }

    method SetConsumerState(pid: string, from: NegotiationState, to: NegotiationState) returns (r: UpdateResult)
      modifies this`consumerNegotiations
      ensures r == NotFound <==> pid !in old(consumerNegotiations)
      ensures r == Updated <==> pid in old(consumerNegotiations) && old(consumerNegotiations)[pid].state == from
      ensures consumerNegotiations == if r == Updated
        then old(consumerNegotiations)[pid := old(consumerNegotiations)[pid].(state := to)]
        else old(consumerNegotiations)
    {
      r := StateChanged;
      if pid in consumerNegotiations && consumerNegotiations[pid].state == from {
        consumerNegotiations := consumerNegotiations[pid := consumerNegotiations[pid].(state := to)];
        r := Updated;
      } else if pid !in consumerNegotiations {
        r := NotFound;
      }
    }

    method SetTransferState(pid: string, from: TransferState, to: TransferState) returns (r: UpdateResult)
      modifies this`transfers
      ensures r == NotFound <==> pid !in old(transfers)
      ensures r == Updated <==> pid in old(transfers) && old(transfers)[pid].state == from
      ensures transfers == if r == Updated
        then old(transfers)[pid := old(transfers)[pid].(state := to)] else old(transfers)
    {
      r := StateChanged;
      if pid in transfers && transfers[pid].state == from {
        transfers := transfers[pid := transfers[pid].(state := to)];
        r := Updated;
      } else if pid !in transfers {
        r := NotFound;
      }
    }

    method SetConsumerTransferState(pid: string, from: TransferState, to: TransferState) returns (r: UpdateResult)
      modifies this`consumerTransfers
      ensures r == NotFound <==> pid !in old(consumerTransfers)
      ensures r == Updated <==> pid in old(consumerTransfers) && old(consumerTransfers)[pid].state == from
      ensures consumerTransfers == if r == Updated
        then old(consumerTransfers)[pid := old(consumerTransfers)[pid].(state := to)] else old(consumerTransfers)
    {
      r := StateChanged;
      if pid in consumerTransfers && consumerTransfers[pid].state == from {
        consumerTransfers := consumerTransfers[pid := consumerTransfers[pid].(state := to)];
        r := Updated;
      } else if pid !in consumerTransfers {
        r := NotFound;
      }
    }

    /** Fails on a duplicate id rather than overwriting. */
    method CreateAgreement(a: Agreement) returns (r: InsertResult)
      modifies this`agreements
      ensures r == if a.id in old(agreements) then Duplicate else Inserted
      ensures agreements == if a.id in old(agreements) then old(agreements) else old(agreements)[a.id := a]
    {
      if a.id in agreements {
        return Duplicate;
      }
      agreements := agreements[a.id := a];
      r := Inserted;
    }

    method CreateTransfer(t: TransferProcess) returns (r: InsertResult)
      modifies this`transfers
      ensures r == if t.providerPid in old(transfers) then Duplicate else Inserted
      ensures transfers == if t.providerPid in old(transfers) then old(transfers)
        else old(transfers)[t.providerPid := t]
    {
      if t.providerPid in transfers {
        return Duplicate;
      }
      transfers := transfers[t.providerPid := t];
      r := Inserted;
    }

    /** One transaction: re-check the negotiation's state and, only if it is an allowed
        one, insert the agreement. current is the state found, absent without a row. */
    method CreateAgreementIfNegotiationAgreed(pid: string, allowedStates: seq<NegotiationState>, a: Agreement)
      returns (recorded: bool, current: Option<NegotiationState>)
      modifies this`agreements
      ensures current == if pid in negotiations then Some(negotiations[pid].state) else None
      ensures recorded <==> current.Some? && current.value in allowedStates && a.id !in old(agreements)
      ensures agreements == if recorded then old(agreements)[a.id := a] else old(agreements)
    {
      recorded := false;
      if pid !in negotiations {
        return false, None;
      }
      current := Some(negotiations[pid].state);
      var allowed := false;
      for i := 0 to |allowedStates|
        invariant allowed <==> current.value in allowedStates[..i]
      {
        if allowedStates[i] == current.value {
          allowed := true;
        }
      }
      assert allowedStates[..|allowedStates|] == allowedStates;
      if allowed && a.id !in agreements {
        agreements := agreements[a.id := a];
        recorded := true;
      }
    }

    method SetConsumerTransferExpectedBytes(pid: string, expected: int)
      modifies this`consumerTransfers
      ensures consumerTransfers == if pid in old(consumerTransfers)
        then old(consumerTransfers)[pid := old(consumerTransfers)[pid].(expected := expected)]
          else old(consumerTransfers)
    {
      if pid in consumerTransfers {
        consumerTransfers := consumerTransfers[pid := consumerTransfers[pid].(expected := expected)];
      }
    }

    /** All four columns at once, so that a row never reads as both completed and failed. */
    method RecordConsumerTransferOutcome(pid: string, received: int, path: string, completed: Option<nat>,
      failure: Option<Failure>)
      modifies this`consumerTransfers
      ensures consumerTransfers == if pid in old(consumerTransfers)
        then old(consumerTransfers)[pid := old(consumerTransfers)[pid].(
          received := received, path := path, completed := completed, failure := failure)]
        else old(consumerTransfers)
    {
      if pid in consumerTransfers {
        consumerTransfers := consumerTransfers[pid := consumerTransfers[pid].(
          received := received, path := path, completed := completed, failure := failure)];
      }
    }
  }
}
