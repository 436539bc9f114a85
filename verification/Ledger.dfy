/**
 * The governed ledger: what every store operation does to the stored state (ledger/store.py,
 * application/anti_replay.py, application/services.py), and the in-memory store that does it in place.
 */
module Ledger {
  import opened Common
  import opened Deals
  import opened Crypto
  import opened Authority
  import opened Policy
  import opened Chain
  import opened Plans

  // The eleven tables of the in-memory store as one value.
  datatype Ledger = Ledger(
    deals: map<Id, Deal>,
    createdAt: map<Id, Instant>,
    links: map<Id, Id>,
    chains: map<Id, seq<Event>>,
    records: map<Id, AuthorityRecord>,
    revocations: map<Id, Revocation>,
    approvals: map<Id, Approval>,
    nonceOwners: map<string, Id>,
    seenRequests: set<Id>,
    decisions: map<Id, (ProposalDigest, PolicyDecision)>,
    seenCommands: set<Id>)

  const EmptyLedger := Ledger(map[], map[], map[], map[], map[], map[], map[], map[], {}, map[], {})

  function ChainOf(chains: map<Id, seq<Event>>, dealId: Id): seq<Event> {
    if dealId in chains then chains[dealId] else []
  }

  datatype CommitOutcome =
    | Committed | AlreadyApplied | StaleState | DealNotFound | ApprovalNotFound | RecordNotFound
    | ValueErrorRaised | IntegrityErrorRaised

  datatype CommitResult = CommitResult(outcome: CommitOutcome, events: seq<Event>, newDeal: Option<Deal>)

  function Rejected(outcome: CommitOutcome, deal: Option<Deal>): CommitResult { CommitResult(outcome, [], deal) }

  /* ----- the effect of a plan ----- */

  // The events of a plan, numbered and linked onto the deal's chain.
  function SealedOn(chains: map<Id, seq<Event>>, dealId: Id, plan: Plan, signer: Signer): seq<Event> {
    var chain := ChainOf(chains, dealId);
    Seal(plan.header, |chain|, Head(chain), plan.entries, signer)
  }

  function Extended(chains: map<Id, seq<Event>>, dealId: Id, plan: Plan, signer: Signer): map<Id, seq<Event>> {
    chains[dealId := ChainOf(chains, dealId) + SealedOn(chains, dealId, plan, signer)]
  }

  function WithRow(approvals: map<Id, Approval>, row: Option<Approval>): map<Id, Approval> {
    if row.Some? then approvals[row.value.approvalId := row.value] else approvals
  }

  function Done(l: Ledger, dealId: Id, plan: Plan, signer: Signer): CommitResult {
    CommitResult(Committed, SealedOn(l.chains, dealId, plan, signer), Some(plan.newDeal))
  }

  /* ----- the four commits ----- */

  function CommitRequestOn(l: Ledger, req: CommitRequest, ids: Ids, signer: Signer): (CommitResult, Ledger) {
    if req.dealId !in l.deals then (Rejected(DealNotFound, None), l)
    else
      var deal := l.deals[req.dealId];
      match PlanTransition(deal, req.action, req.decision.outcome)
      case Stale => (Rejected(StaleState, None), l)
      case Proceed(event) =>
        var plan := PlanRequest(deal, req, event, ids);
        (Done(l, req.dealId, plan, signer),
         l.(chains := Extended(l.chains, req.dealId, plan, signer),
            deals := l.deals[req.dealId := plan.newDeal],
            approvals := WithRow(l.approvals, plan.approval),
            records := l.records[req.record.terms.recordId := req.record],
            nonceOwners := l.nonceOwners[req.record.terms.nonce := req.record.terms.recordId],
            seenRequests := l.seenRequests + {req.requestId},
            decisions := l.decisions[req.idempotencyKey := (req.proposalDigest, req.decision)]))
  }

  function CommitTransitionOn(l: Ledger, req: TransitionRequest, ids: Ids, signer: Signer): (CommitResult, Ledger) {
    if req.dealId !in l.deals then (Rejected(DealNotFound, None), l)
    else
      var deal := l.deals[req.dealId];
      if req.commandId in l.seenCommands then (Rejected(AlreadyApplied, Some(deal)), l)
      else
        var target := TransitionFor(deal.state, req.event);
        if target.None? then (Rejected(StaleState, None), l)
        else
          var plan := PlanBoundary(deal, req, target.value, ids);
          (Done(l, req.dealId, plan, signer),
           l.(chains := Extended(l.chains, req.dealId, plan, signer),
              deals := l.deals[req.dealId := plan.newDeal],
              seenCommands := l.seenCommands + {req.commandId}))
  }

  predicate RevokedAt(revocations: map<Id, Revocation>, recordId: Id, now: Instant) {
    exists id | id in revocations :: RevocationApplies(revocations[id], recordId, now)
  }

  // The stored parent record of an approval and whether a stored revocation applies to it.
  function GrantInputs(l: Ledger, approval: Approval, occurredAt: Instant): (Option<Mandate>, bool) {
    if approval.authorityRecordId !in l.records then (None, false)
    else
      var record := l.records[approval.authorityRecordId].terms;
      (Some(record), RevokedAt(l.revocations, record.recordId, occurredAt))
  }

  // Why a decision is turned away before anything is planned; in this order.
  function ApprovalAbort(l: Ledger, req: ApprovalRequest): (abort: Option<CommitResult>)
    ensures abort.Some? ==> !abort.value.outcome.Committed?
    ensures abort.None? ==>
      && req.dealId in l.deals && req.approvalId in l.approvals && l.approvals[req.approvalId].status.Pending?
      && req.commandId !in l.seenCommands && (req.operation.Grant? ==> req.action.Token? && req.approvalRecord.Some?)
  {
    if req.dealId !in l.deals then Some(Rejected(DealNotFound, None))
    else
      var deal := l.deals[req.dealId];
      if req.approvalId !in l.approvals then Some(Rejected(ApprovalNotFound, None))
      else if !l.approvals[req.approvalId].status.Pending? then Some(Rejected(AlreadyApplied, Some(deal)))
      else if req.commandId in l.seenCommands then Some(Rejected(AlreadyApplied, Some(deal)))
      else if req.operation.Grant? && req.action.Unrecognised? then Some(Rejected(StaleState, None))
      else if req.operation.Grant? && req.approvalRecord.None? then Some(Rejected(ValueErrorRaised, None))
      else None
  }

  function CommitApprovalOn(l: Ledger, req: ApprovalRequest, ids: Ids, signer: Signer): (CommitResult, Ledger) {
    var abort := ApprovalAbort(l, req);
    if abort.Some? then (abort.value, l)
    else
      var deal, approval := l.deals[req.dealId], l.approvals[req.approvalId];
      var (record, revoked) := GrantInputs(l, approval, req.occurredAt);
      var plan := PlanApproval(deal, approval, req, record, revoked, ids);
      (Done(l, req.dealId, plan, signer),
       l.(chains := Extended(l.chains, req.dealId, plan, signer),
          deals := l.deals[req.dealId := plan.newDeal],
          approvals := l.approvals[req.approvalId := plan.approval.value],
          seenCommands := l.seenCommands + {req.commandId}))
  }

  predicate HasRevocation(revocations: map<Id, Revocation>, recordId: Id) {
    exists id | id in revocations :: revocations[id].fact.recordId == recordId
  }

  function CommitRevocationOn(l: Ledger, req: RevocationRequest, ids: Ids, signer: Signer): (CommitResult, Ledger) {
    if req.dealId !in l.deals then (Rejected(DealNotFound, None), l)
    else
      var deal := l.deals[req.dealId];
      var recordId := req.revocation.fact.recordId;
      if req.commandId in l.seenCommands then (Rejected(AlreadyApplied, Some(deal)), l)
      else if recordId !in l.records then (Rejected(RecordNotFound, Some(deal)), l)
      else if HasRevocation(l.revocations, l.records[recordId].terms.recordId) then
        (Rejected(AlreadyApplied, Some(deal)), l)
      else
        var plan := PlanRevocation(deal, req, ids);
        (Done(l, req.dealId, plan, signer),
         l.(chains := Extended(l.chains, req.dealId, plan, signer),
            revocations := l.revocations[req.revocation.fact.revocationId := req.revocation],
            seenCommands := l.seenCommands + {req.commandId}))
  }

  /* ----- registration (transport/gateway.py register_deal) ----- */

  function RegisterDealOn(l: Ledger, dealId: Id, record: AuthorityRecord, createdAt: Instant): Ledger {
    if dealId in l.deals then l  // create_deal raises before anything is written
    else
      // a clashing link raises last, after the other writes
      var clash := dealId in l.links && l.links[dealId] != record.terms.recordId;
      l.(deals := l.deals[dealId := NewDeal(dealId)], createdAt := l.createdAt[dealId := createdAt],
         chains := l.chains[dealId := []], records := l.records[record.terms.recordId := record],
         links := if clash then l.links else l.links[dealId := record.terms.recordId])
  }

  /* ----- the anti-replay gate and the single writer path ----- */

  datatype GateVerdict =
    | Pass | IdempotentHit(decision: PolicyDecision) | Conflict | ReplayedRequest | ReplayedNonce

  function CheckAntiReplay(l: Ledger, pi: PolicyInput): GateVerdict {
    var record := pi.authority.record.terms;
    var key := pi.proposal.idempotencyKey;
    if key in l.decisions then
      if l.decisions[key].0 == DigestOf(pi.proposal) then IdempotentHit(l.decisions[key].1) else Conflict
    else if pi.requestId in l.seenRequests then ReplayedRequest
    else if record.nonce in l.nonceOwners && l.nonceOwners[record.nonce] != record.recordId then ReplayedNonce
    else Pass
  }

  function RequestOf(pi: PolicyInput, recordedAt: Instant): CommitRequest {
    CommitRequest(
      pi.deal.dealId, pi.requestId, Evaluate(pi), pi.actor.kind, pi.actor.id,
      pi.authority.record.terms.recordId, pi.proposal.action, pi.proposal.amountMinor, pi.now, recordedAt,
      pi.proposal.idempotencyKey, DigestOf(pi.proposal), pi.authority.record,
      if pi.content.Some? && pi.proposal.contentSha256.Some?
      then Some(Screened(pi.proposal.contentSha256.value, pi.content.value)) else None,
      pi.proposal.disclosureFields)
  }

  datatype ProcessResult = ProcessResult(
    verdict: GateVerdict, decision: Option<PolicyDecision>, commit: Option<CommitResult>)

  function AnsweredByGate(verdict: GateVerdict): ProcessResult {
    ProcessResult(verdict, if verdict.IdempotentHit? then Some(verdict.decision) else None, None)
  }

  function ProcessRequestOn(l: Ledger, pi: PolicyInput, recordedAt: Instant, ids: Ids, signer: Signer)
    : (ProcessResult, Ledger)
  {
    var verdict := CheckAntiReplay(l, pi);
    if !verdict.Pass? then (AnsweredByGate(verdict), l)
    else
      var (commit, l') := CommitRequestOn(l, RequestOf(pi, recordedAt), ids, signer);
      (ProcessResult(verdict, Some(Evaluate(pi)), Some(commit)), l')
  }

  /* ----- the store ----- */

  class InMemoryLedgerStore {
    var deals: map<Id, Deal>
    var createdAt: map<Id, Instant>
    var links: map<Id, Id>
    var chains: map<Id, seq<Event>>
    var records: map<Id, AuthorityRecord>
    var revocations: map<Id, Revocation>
    var approvals: map<Id, Approval>
    var nonceOwners: map<string, Id>
    var seenRequests: set<Id>
    var decisions: map<Id, (ProposalDigest, PolicyDecision)>
    var seenCommands: set<Id>

    ghost predicate Valid()
      reads this
    {
      deals.Keys == chains.Keys
    }

    function View(): Ledger
      reads this
    {
      Ledger(deals, createdAt, links, chains, records, revocations, approvals, nonceOwners, seenRequests,
             decisions, seenCommands)
    }

    constructor ()
      ensures Valid() && View() == EmptyLedger
    {
      deals, createdAt, links, chains := map[], map[], map[], map[];
      records, revocations, approvals, nonceOwners := map[], map[], map[], map[];
      seenRequests, decisions, seenCommands := {}, map[], {};
    }

    method RegisterDeal(dealId: Id, record: AuthorityRecord, now: Instant) returns (raised: bool)
      requires Valid()
      modifies this
      ensures Valid() && View() == RegisterDealOn(old(View()), dealId, record, now)
      ensures raised <==>
        dealId in old(deals) || (dealId in old(links) && old(links)[dealId] != record.terms.recordId)
    {
      if dealId in deals {
        return true;
      }
      deals := deals[dealId := NewDeal(dealId)];
      createdAt := createdAt[dealId := now];
      chains := chains[dealId := []];
      records := records[record.terms.recordId := record];
      if dealId in links && links[dealId] != record.terms.recordId {
        return true;
      }
      links := links[dealId := record.terms.recordId];
      raised := false;
    }

    // chain.extend, the deal row and the approval row of one plan.
    method Apply(dealId: Id, plan: CommitPlan, ghost p: Plan, ghost signer: Signer)
      requires Valid() && dealId in deals
      requires plan == Sealed(p, |chains[dealId]|, Head(chains[dealId]), signer)
      modifies `chains, `deals, `approvals
      ensures Valid() && chains == Extended(old(chains), dealId, p, signer)
      ensures deals == old(deals)[dealId := p.newDeal] && approvals == WithRow(old(approvals), p.approval)
      ensures plan.events == SealedOn(old(chains), dealId, p, signer)
    {
      chains := chains[dealId := chains[dealId] + plan.events];
      deals := deals[dealId := plan.newDeal];
      if plan.approval.Some? {
        approvals := approvals[plan.approval.value.approvalId := plan.approval.value];
      }
    }

    method Remember(req: CommitRequest)
      requires Valid()
      modifies `records, `nonceOwners, `seenRequests, `decisions
      ensures Valid() && records == old(records)[req.record.terms.recordId := req.record]
      ensures nonceOwners == old(nonceOwners)[req.record.terms.nonce := req.record.terms.recordId]
      ensures seenRequests == old(seenRequests) + {req.requestId}
      ensures decisions == old(decisions)[req.idempotencyKey := (req.proposalDigest, req.decision)]
    {
      records := records[req.record.terms.recordId := req.record];
      nonceOwners := nonceOwners[req.record.terms.nonce := req.record.terms.recordId];
      seenRequests := seenRequests + {req.requestId};
      decisions := decisions[req.idempotencyKey := (req.proposalDigest, req.decision)];
    }

    method CommitRequest(req: CommitRequest, ids: Ids, signer: Signer) returns (result: CommitResult)
      requires Valid()
      modifies this
      ensures Valid() && (result, View()) == CommitRequestOn(old(View()), req, ids, signer)
    {
      hide Seal;
      if req.dealId !in deals {
        return Rejected(DealNotFound, None);
      }
      var deal := deals[req.dealId];
      var planned := PlanTransition(deal, req.action, req.decision.outcome);
      if planned.Stale? {
        return Rejected(StaleState, None);
      }
      var chain := chains[req.dealId];
      var plan := PlanCommitRequest(deal, |chain|, Head(chain), req, planned.event, ids, signer);
      Apply(req.dealId, plan, PlanRequest(deal, req, planned.event, ids), signer);
      Remember(req);
      result := CommitResult(Committed, plan.events, Some(plan.newDeal));
    }

    method CommitTransition(req: TransitionRequest, ids: Ids, signer: Signer) returns (result: CommitResult)
      requires Valid()
      modifies this
      ensures Valid() && (result, View()) == CommitTransitionOn(old(View()), req, ids, signer)
    {
      hide Seal;
      if req.dealId !in deals {
        return Rejected(DealNotFound, None);
      }
      var deal := deals[req.dealId];
      if req.commandId in seenCommands {
        return Rejected(AlreadyApplied, Some(deal));
      }
      var target := TransitionFor(deal.state, req.event);
      if target.None? {
        return Rejected(StaleState, None);
      }
      var chain := chains[req.dealId];
      var plan := PlanCommitTransition(deal, |chain|, Head(chain), req, target.value, ids, signer);
      chains := chains[req.dealId := chain + plan.events];
      deals := deals[req.dealId := plan.newDeal];
      seenCommands := seenCommands + {req.commandId};
      result := CommitResult(Committed, plan.events, Some(plan.newDeal));
    }

    // The stored parent record and whether a stored revocation applies to it.
    method ReadGrantInputs(approval: Approval, occurredAt: Instant) returns (record: Option<Mandate>, revoked: bool)
      ensures (record, revoked) == GrantInputs(View(), approval, occurredAt)
    {
      if approval.authorityRecordId !in records {
        return None, false;
      }
      var stored := records[approval.authorityRecordId].terms;
      record, revoked := Some(stored), RevokedAt(revocations, stored.recordId, occurredAt);
    }

    method AppendDecision(req: ApprovalRequest, deal: Deal, approval: Approval, record: Option<Mandate>, revoked: bool,
                          ids: Ids, signer: Signer) returns (plan: CommitPlan)
      requires Valid() && req.dealId in deals
      requires req.operation.Grant? ==> req.approvalRecord.Some? && req.action.Token?
      modifies `chains, `deals, `approvals, `seenCommands
      ensures Valid() && seenCommands == old(seenCommands) + {req.commandId}
      ensures var p := PlanApproval(deal, approval, req, record, revoked, ids);
        && plan.newDeal == p.newDeal && plan.events == SealedOn(old(chains), req.dealId, p, signer)
        && chains == Extended(old(chains), req.dealId, p, signer)
        && deals == old(deals)[req.dealId := p.newDeal]
        && approvals == old(approvals)[req.approvalId := p.approval.value]
    {
      hide Seal, PlanApproval;
      var chain := chains[req.dealId];
      plan := PlanCommitApproval(deal, approval, |chain|, Head(chain), req, record, revoked, ids, signer);
      chains := chains[req.dealId := chain + plan.events];
      deals := deals[req.dealId := plan.newDeal];
      approvals := approvals[req.approvalId := plan.approval.value];
      seenCommands := seenCommands + {req.commandId};
    }

    method CommitApproval(req: ApprovalRequest, ids: Ids, signer: Signer) returns (result: CommitResult)
      requires Valid()
      modifies this
      ensures Valid() && (result, View()) == CommitApprovalOn(old(View()), req, ids, signer)
    {
      hide Seal, GrantInputs, PlanGrant, PlanDenial, GrantRecheck, OperatorReason, Extended;
      if req.dealId !in deals {
        return Rejected(DealNotFound, None);
      }
      var deal := deals[req.dealId];
      if req.approvalId !in approvals {
        return Rejected(ApprovalNotFound, None);
      }
      var approval := approvals[req.approvalId];
      if !approval.status.Pending? {
        return Rejected(AlreadyApplied, Some(deal));
      }
      if req.commandId in seenCommands {
        return Rejected(AlreadyApplied, Some(deal));
      }
      var record: Option<Mandate> := None;
      var revoked := false;
      if req.operation.Grant? {
        if req.action.Unrecognised? {
          return Rejected(StaleState, None);
        }
        record, revoked := ReadGrantInputs(approval, req.occurredAt);
        if req.approvalRecord.None? {
          return Rejected(ValueErrorRaised, None);
        }
      }
      var plan := AppendDecision(req, deal, approval, record, revoked, ids, signer);
      result := CommitResult(Committed, plan.events, Some(plan.newDeal));
    }

    method CommitRevocation(req: RevocationRequest, ids: Ids, signer: Signer) returns (result: CommitResult)
      requires Valid()
      modifies this
      ensures Valid() && (result, View()) == CommitRevocationOn(old(View()), req, ids, signer)
    {
      hide Seal;
      if req.dealId !in deals {
        return Rejected(DealNotFound, None);
      }
      var deal := deals[req.dealId];
      var recordId := req.revocation.fact.recordId;
      if req.commandId in seenCommands {
        return Rejected(AlreadyApplied, Some(deal));
      }
      if recordId !in records {
        return Rejected(RecordNotFound, Some(deal));
      }
      if HasRevocation(revocations, records[recordId].terms.recordId) {
        return Rejected(AlreadyApplied, Some(deal));
      }
      var chain := chains[req.dealId];
      var plan := PlanCommitRevocation(deal, |chain|, Head(chain), req, ids, signer);
      chains := chains[req.dealId := chain + plan.events];
      assert deals == deals[req.dealId := deal];
      revocations := revocations[req.revocation.fact.revocationId := req.revocation];
      seenCommands := seenCommands + {req.commandId};
      result := CommitResult(Committed, plan.events, Some(deal));
    }

    // application/services.py: gate, evaluate, commit, and re-gate if a rival won.
    method ProcessRequest(pi: PolicyInput, recordedAt: Instant, ids: Ids,
                          signer: Signer) returns (result: ProcessResult)
      requires Valid()
      modifies this
      ensures Valid() && (result, View()) == ProcessRequestOn(old(View()), pi, recordedAt, ids, signer)
    {
      var verdict := CheckAntiReplay(View(), pi);
      if !verdict.Pass? {
        return AnsweredByGate(verdict);
      }
      var decision := Evaluate(pi);
      var commit := CommitRequest(RequestOf(pi, recordedAt), ids, signer);
      if commit.outcome.AlreadyApplied? {
        return AnsweredByGate(CheckAntiReplay(View(), pi));
      }
      result := ProcessResult(verdict, Some(decision), Some(commit));
    }
  }
}
