/** The parts of the connector's configuration the model reads. A policy field that was
    left out is None. */
module Configuration {
  import opened Prelude
  import opened Storage

  datatype OnOffer = Accept | Passive | RejectOffer | Counter
  datatype OnAgreement = Verify | RejectAgreement
  datatype OnIdle = Wait | Abandon

  /** validityUntil is a point on a logical clock; sourceFile is empty when there is none;
      interruptAfter is zero when no interruption is simulated. */
  datatype Dataset = Dataset(
    id: string, validityUntil: Option<int>, sourceFile: string, terminateOnVerify: bool,
    transferSequence: Option<seq<TransferState>>, interruptAfter: nat)

  datatype ConsumerPolicy = ConsumerPolicy(
    dataset: string, onOffer: Option<OnOffer>, onAgreement: Option<OnAgreement>, onIdle: Option<OnIdle>)

  datatype TransferPolicy = TransferPolicy(agreement: string, sequence: seq<TransferState>)

  datatype ConsumerTransferPolicy = ConsumerTransferPolicy(
    agreement: string, after: Option<TransferState>, sequence: seq<TransferState>)

  datatype Config = Config(
    authRequired: bool, datasets: seq<Dataset>, consumerPolicies: seq<ConsumerPolicy>,
    transferPolicies: seq<TransferPolicy>, consumerTransferPolicies: seq<ConsumerTransferPolicy>)

  /** The first configured dataset with this id. */
  function FindDataset(datasets: seq<Dataset>, id: string): (found: Option<Dataset>)
    ensures found.Some? ==> found.value in datasets && found.value.id == id
    ensures found.None? ==> forall d | d in datasets :: d.id != id
  {
    if datasets == [] then None
    else if datasets[0].id == id then Some(datasets[0])
    else FindDataset(datasets[1..], id)
  }

  /** The i-th configured dataset is the first with this id. */
  predicate FirstDataset(datasets: seq<Dataset>, id: string, i: nat) {
    i < |datasets| && datasets[i].id == id && forall j | 0 <= j < i :: datasets[j].id != id
  }

  lemma {:induction false} FindsTheFirst(datasets: seq<Dataset>, id: string, i: nat)
    requires FirstDataset(datasets, id, i)
    ensures FindDataset(datasets, id) == Some(datasets[i])
  {
    if i == 0 {
    } else {
      assert datasets[0].id != id;
      FindsTheFirst(datasets[1..], id, i - 1);
    }
  }

  lemma {:induction false} FoundIsTheFirst(datasets: seq<Dataset>, id: string)
    requires FindDataset(datasets, id).Some?
    ensures exists i: nat :: FirstDataset(datasets, id, i)
  {
    if datasets[0].id == id {
      assert FirstDataset(datasets, id, 0);
    } else {
      FoundIsTheFirst(datasets[1..], id);
      var i: nat :| FirstDataset(datasets[1..], id, i);
      assert FirstDataset(datasets, id, i + 1);
    }
  }

  predicate IsValid(d: Dataset, now: int) {
    d.validityUntil.None? || now < d.validityUntil.value
  }
}
