/** A negotiated agreement in use: who may transfer under it. */
module AgreementUse {
  import opened Configuration
  import N = NegotiationWorld
  import Parties = NegotiationParties
  import Rows = NegotiationRows
  import T = TransferWorld
  import TransferSafety

  /** A transfer request that cites an agreement with someone else creates nothing. */
  lemma OthersAreRefused(cfg: Config, w: T.World, r: T.Request, issuer: string, pid: string)
    requires cfg.authRequired && r.agreement in w.agreements
    requires w.agreements[r.agreement].counterparty != "" && issuer != w.agreements[r.agreement].counterparty
    ensures T.CheckRequest(cfg, w, r, issuer, pid) == T.Over
  {
  }

  /** With authentication on, whatever happened in the negotiation: under the agreement it
      recorded nobody but the participant who negotiated it is given a transfer. A request
      from any other issuer is refused, and in every run of the connector's transfers every
      row under it is with that participant. */
  lemma OnlyTheNegotiatorTransfers(setup: N.Setup, start: N.World, negotiated: seq<N.Action>,
      cfg: Config, actions: seq<T.Action>, r: T.Request, issuer: string, pid: string)
    requires Rows.Fresh(start) && setup.providerPid !in start.providerAgreements && setup.consumerId != ""
    requires cfg.authRequired && issuer != setup.consumerId && r.agreement == setup.providerPid
    requires var n, w := N.RunAll(setup, start, negotiated), T.RunAll(cfg, T.EMPTY, actions);
      && setup.providerPid in n.providerAgreements
      && setup.providerPid in w.agreements
      && w.agreements[setup.providerPid] == n.providerAgreements[setup.providerPid]
    ensures var w := T.RunAll(cfg, T.EMPTY, actions);
      && T.CheckRequest(cfg, w, r, issuer, pid) == T.Over
      && forall t | t in w.transfers && w.transfers[t].agreement == setup.providerPid ::
           w.transfers[t].counterparty == setup.consumerId
  {
    hide N.RunAll, T.RunAll;
    Parties.RecordedAgreementSays(setup, start, negotiated);
    TransferSafety.ReachableGood(cfg, actions);
    OthersAreRefused(cfg, T.RunAll(cfg, T.EMPTY, actions), r, issuer, pid);
  }
}
