/**
 * What is written down: the events and rows each operation leaves, from the very input it was given, and
 * when the gate in front of it (application/anti_replay.py, application/services.py) lets it through.
 */
module Logged {
  import opened Common
  import opened Deals
  import opened Crypto
  import opened Authority
  import opened Policy
  import opened Chain
  import opened Plans
  import opened Ledger
  import opened Outcomes
  import opened Effects

  /* ----- one event ----- */

  // The five kinds of event, by what their payload is about.
  function KindOf(p: Payload): EventType {
    match p
    case MessageOut(_, _, _, _, _) => MessageEvent
    case MessageIn(_, _, _, _) => MessageEvent
    case DecisionMade(_, _, _, _, _, _, _, _, _) => PolicyDecisionEvent
    case RequestTransition(_, _, _, _, _, _) => StateTransition
    case CommandTransition(_, _, _, _, _, _) => StateTransition
    case RequiredApproval(_, _, _, _, _, _, _) => ApprovalEvent
    case GrantedApproval(_, _, _, _, _, _) => ApprovalEvent
    case DeniedApproval(_, _, _, _, _, _) => ApprovalEvent
    case RevocationRecorded(_) => RevocationEvent
    case Unserialisable => ApprovalEvent
  }

  // The event says who acted, on which deal, under which record, when, and what.
  predicate Logs(e: Event, h: Header, id: Id, p: Payload) {
    && e.form.eventId == id && e.form.payload == p && e.form.eventType == KindOf(p)
    && e.form.dealId == h.dealId && e.form.actorKind == h.actorKind && e.form.actorId == h.actorId
    && e.form.authorityRecordId == h.authorityRecordId
    && e.form.occurredAt == h.occurredAt && e.form.recordedAt == h.recordedAt
  }

  predicate LogsAll(es: seq<Event>, h: Header, log: seq<(Id, Payload)>) {
    |es| == |log| && forall i | 0 <= i < |log| :: Logs(es[i], h, log[i].0, log[i].1)
  }

  lemma SealLogs(h: Header, sequence: int, previous: Hash, entries: seq<Entry>, signer: Signer, log: seq<(Id, Payload)>)
    requires |entries| == |log| && forall i | 0 <= i < |log| :: entries[i] == Entry(log[i].0, log[i].1)
    ensures LogsAll(Seal(h, sequence, previous, entries, signer), h, log)
  {
    hide Seal;
    forall i | 0 <= i < |log| ensures Logs(Seal(h, sequence, previous, entries, signer)[i], h, log[i].0, log[i].1) {
      SealedEventAt(h, sequence, previous, entries, signer, i);
    }
  }

  /* ----- a proposal ----- */

  // What the gate answers: a known key answers for itself, then a seen request, then a foreign nonce.
  lemma GateWrittenOut(l: Ledger, pi: PolicyInput)
    ensures var key, terms := pi.proposal.idempotencyKey, pi.authority.record.terms;
      CheckAntiReplay(l, pi) ==
        if key in l.decisions && l.decisions[key].0.proposal == pi.proposal then IdempotentHit(l.decisions[key].1)
        else if key in l.decisions then Conflict
        else if pi.requestId in l.seenRequests then ReplayedRequest
        else if terms.nonce in l.nonceOwners.Keys && terms.recordId != l.nonceOwners[terms.nonce] then ReplayedNonce
        else Pass
  {
  }

  // The events of a proposal judged on `deal`: the screened message if there is one, the decision, and
  // what the decision leads to.
  function ProposalLog(pi: PolicyInput, deal: Deal, ids: Ids): seq<(Id, Payload)> {
    var p, d := pi.proposal, Evaluate(pi);
    (if pi.content.None? || p.contentSha256.None? then []
     else [(ids.message, MessageOut(p.contentSha256.value, pi.content.value, pi.requestId, p.action,
       p.disclosureFields))])
    + [(ids.first, DecisionMade(pi.requestId, p.action, d.outcome, d.reasonCode, d.matchedRule, pi.now, p.amountMinor,
                                p.idempotencyKey, DigestOf(p)))]
    + match d.outcome
      case Deny => []
      case NeedsApproval =>
        [(ids.second, RequiredApproval(pi.requestId, p.action, p.amountMinor, ids.approvalId,
                                       pi.authority.record.terms.spendCap.currency,
                                         pi.authority.record.terms.recordId, d.reasonCode))]
      case Allow =>
        if p.action == Token(ResolveDispute) || p.action.Unrecognised? then []
        else [(ids.second, RequestTransition(pi.requestId, p.action, EventNamed(p.action.token), deal.state,
                                             Moved(p.action.token, p.amountMinor, deal).state, p.amountMinor))]
  }

  // A proposal let through and committed leaves exactly that log, under the actor and the mandate it came
  // with; a hold leaves its pending row; the decision is stored under the key; the rest stays as it was.
  lemma ProposalIsLogged(l: Ledger, pi: PolicyInput, recordedAt: Instant, ids: Ids, signer: Signer)
    requires l.deals.Keys == l.chains.Keys
    ensures var (result, l') := ProcessRequestOn(l, pi, recordedAt, ids, signer);
      var terms, p, dealId := pi.authority.record.terms, pi.proposal, pi.deal.dealId;
      && result.verdict == CheckAntiReplay(l, pi)
      && (result.commit.None? <==> !CheckAntiReplay(l, pi).Pass?)
      && (result.commit.None? ==>
            l' == l && result.decision == (if result.verdict.IdempotentHit? then Some(result.verdict.decision)
              else None))
      && (result.commit.Some? ==> result.decision == Some(Evaluate(pi)))
      && (result.commit.Some? && !result.commit.value.outcome.Committed? ==> l' == l)
      && (result.commit.Some? && result.commit.value.outcome.Committed? ==>
            && dealId in l.deals
            && LogsAll(result.commit.value.events,
                       Header(dealId, pi.actor.kind, pi.actor.id, Some(terms.recordId), pi.now, recordedAt),
                       ProposalLog(pi, l.deals[dealId], ids))
            && l'.chains == l.chains[dealId := l.chains[dealId] + result.commit.value.events]
            && l'.approvals == (
                 if Evaluate(pi).outcome.NeedsApproval? then
                   l.approvals[ids.approvalId := Approval(
                     ids.approvalId, dealId, pi.requestId, terms.recordId, p.action, p.amountMinor,
                       terms.spendCap.currency,
                     DigestOf(p), Evaluate(pi).reasonCode, Pending, None, None, None, recordedAt)]
                 else l.approvals)
            && l' == l.(deals := l'.deals, chains := l'.chains, approvals := l'.approvals,
                        records := l.records[terms.recordId := pi.authority.record],
                        nonceOwners := l.nonceOwners[terms.nonce := terms.recordId],
                        seenRequests := l.seenRequests + {pi.requestId},
                        decisions := l.decisions[p.idempotencyKey := (DigestOf(p), Evaluate(pi))]))
  {
    hide Evaluate, Seal, CheckAntiReplay, TransitionFor, ActionEvent, ApplyEvent, Moved, EventNamed;
    var req := RequestOf(pi, recordedAt);
    if CheckAntiReplay(l, pi).Pass? && req.dealId in l.deals {
      var deal := l.deals[req.dealId];
      PlannedActionMoves(deal, req.action, req.amountMinor);
      var planned := PlanTransition(deal, req.action, req.decision.outcome);
      if planned.Proceed? {
        var plan := PlanRequest(deal, req, planned.event, ids);
        DecidedAtNow(pi);
        RequestPlanLog(deal, pi, recordedAt, planned.event, ids);
        SealLogs(plan.header, |l.chains[req.dealId]|, Head(l.chains[req.dealId]), plan.entries, signer,
          ProposalLog(pi, deal, ids));
      }
    }
  }

  lemma DecidedAtNow(pi: PolicyInput)
    ensures Evaluate(pi).evaluatedAt == pi.now && Evaluate(pi).authorityRecordId == pi.authority.record.terms.recordId
  {
  }

  lemma RequestPlanLog(deal: Deal, pi: PolicyInput, recordedAt: Instant, event: Option<DealEvent>, ids: Ids)
    requires PlanTransition(deal, pi.proposal.action, Evaluate(pi).outcome) == Proceed(event)
    ensures var plan, log := PlanRequest(deal, RequestOf(pi, recordedAt), event, ids), ProposalLog(pi, deal, ids);
      var terms, d := pi.authority.record.terms, Evaluate(pi);
      && plan.header == Header(pi.deal.dealId, pi.actor.kind, pi.actor.id, Some(terms.recordId), pi.now, recordedAt)
      && |plan.entries| == |log| && (forall i | 0 <= i < |log| :: plan.entries[i] == Entry(log[i].0, log[i].1))
      && plan.approval == (
           if d.outcome.NeedsApproval? then
             Some(Approval(
               ids.approvalId, pi.deal.dealId, pi.requestId, terms.recordId, pi.proposal.action,
                 pi.proposal.amountMinor,
               terms.spendCap.currency, DigestOf(pi.proposal), d.reasonCode, Pending, None, None, None, recordedAt))
           else None)
  {
    DecidedAtNow(pi);
    PlannedActionMoves(deal, pi.proposal.action, pi.proposal.amountMinor);
    hide Evaluate, TransitionFor, ActionEvent, Moved, EventNamed, ValidStates;
  }

  /* ----- the other commits ----- */

  // A committed decision, boundary event or revocation appends its events to its deal's chain, stamped
  // with the actor, the record and the times of its request.
  lemma DecisionIsStamped(l: Ledger, req: ApprovalRequest, ids: Ids, signer: Signer)
    requires CommitApprovalOn(l, req, ids, signer).0.outcome.Committed?
    ensures var (result, l') := CommitApprovalOn(l, req, ids, signer);
      var h := Header(req.dealId, req.actorKind, req.actorId, Some(req.authorityRecordId), req.occurredAt,
        req.recordedAt);
      var es := result.events;
      && 1 <= |es| <= 2 && Logs(es[0], h, ids.first, es[0].form.payload)
      && (|es| == 2 ==> Logs(es[1], h, ids.second, es[1].form.payload))
      && l' == l.(deals := l'.deals, approvals := l'.approvals, seenCommands := l.seenCommands + {req.commandId},
                  chains := l.chains[req.dealId := ChainOf(l.chains, req.dealId) + es])
  {
    hide GrantInputs, GrantRecheck, Seal, TransitionFor, ApplyEvent;
    var approval := l.approvals[req.approvalId];
    var (record, revoked) := GrantInputs(l, approval, req.occurredAt);
    var plan := PlanApproval(l.deals[req.dealId], approval, req, record, revoked, ids);
    var log := seq(|plan.entries|, i requires 0 <= i < |plan.entries| => (plan.entries[i].eventId,
      plan.entries[i].payload));
    var chain := ChainOf(l.chains, req.dealId);
    SealLogs(plan.header, |chain|, Head(chain), plan.entries, signer, log);
  }

  lemma BoundaryIsStamped(l: Ledger, req: TransitionRequest, ids: Ids, signer: Signer)
    requires CommitTransitionOn(l, req, ids, signer).0.outcome.Committed?
    ensures var (result, l') := CommitTransitionOn(l, req, ids, signer);
      var h := Header(req.dealId, req.actorKind, req.actorId, req.authorityRecordId, req.occurredAt, req.recordedAt);
      var es := result.events;
      && es != [] && Logs(es[|es| - 1], h, ids.first, es[|es| - 1].form.payload)
      && (|es| == 2 ==> Logs(es[0], h, ids.message, es[0].form.payload))
      && l'.chains == l.chains[req.dealId := ChainOf(l.chains, req.dealId) + es]
  {
    hide Seal, TransitionFor, ApplyEvent;
    var deal := l.deals[req.dealId];
    var plan := PlanBoundary(deal, req, TransitionFor(deal.state, req.event).value, ids);
    var log := seq(|plan.entries|, i requires 0 <= i < |plan.entries| => (plan.entries[i].eventId,
      plan.entries[i].payload));
    var chain := ChainOf(l.chains, req.dealId);
    SealLogs(plan.header, |chain|, Head(chain), plan.entries, signer, log);
  }

  // A revocation commits exactly when its deal and its record are stored, its command is new and no stored
  // revocation names that record; it then stores itself under its id and logs itself, and nothing else.
  lemma RevocationIsLogged(l: Ledger, req: RevocationRequest, ids: Ids, signer: Signer)
    requires RecordsKeyed(l.records)
    ensures var (result, l') := CommitRevocationOn(l, req, ids, signer);
      var fact := req.revocation.fact;
      && result.outcome == (
           if req.dealId !in l.deals then DealNotFound
           else if req.commandId in l.seenCommands then AlreadyApplied
           else if fact.recordId !in l.records then RecordNotFound
           else if exists id | id in l.revocations :: l.revocations[id].fact.recordId == fact.recordId then
             AlreadyApplied
           else Committed)
      && (!result.outcome.Committed? ==> l' == l && result.events == [])
      && (result.outcome.Committed? ==>
            && LogsAll(result.events,
                       Header(req.dealId, req.actorKind, req.actorId, Some(fact.recordId), req.occurredAt,
                         req.recordedAt),
                       [(ids.first, RevocationRecorded(req.revocation))])
            && l' == l.(chains := l.chains[req.dealId := ChainOf(l.chains, req.dealId) + result.events],
                        revocations := l.revocations[fact.revocationId := req.revocation],
                        seenCommands := l.seenCommands + {req.commandId}))
  {
    hide Seal;
    if CommitRevocationOn(l, req, ids, signer).0.outcome.Committed? {
      var plan := PlanRevocation(l.deals[req.dealId], req, ids);
      var chain := ChainOf(l.chains, req.dealId);
      SealLogs(plan.header, |chain|, Head(chain), plan.entries, signer,
        [(ids.first, RevocationRecorded(req.revocation))]);
    }
  }

  /* ----- what the caller is told ----- */

  // The deal as it now stands with a commit; with an answer that found it settled, the deal as it is;
  // otherwise nothing. Only a commit has events.
  predicate Told(result: CommitResult, l: Ledger, l': Ledger, dealId: Id) {
    match result.outcome
    case Committed => result.events != [] && dealId in l'.deals && result.newDeal == Some(l'.deals[dealId])
    case AlreadyApplied => result.events == [] && dealId in l.deals && result.newDeal == Some(l.deals[dealId])
    case RecordNotFound => result.events == [] && dealId in l.deals && result.newDeal == Some(l.deals[dealId])
    case _ => result.events == [] && result.newDeal == None
  }

  lemma EveryAnswerIsTold(l: Ledger, request: CommitRequest, transition: TransitionRequest, approval: ApprovalRequest,
                          revocation: RevocationRequest, ids: Ids, signer: Signer)
    ensures var (result, l') := CommitRequestOn(l, request, ids, signer); Told(result, l, l', request.dealId)
    ensures var (result, l') := CommitTransitionOn(l, transition, ids, signer); Told(result, l, l', transition.dealId)
    ensures var (result, l') := CommitApprovalOn(l, approval, ids, signer); Told(result, l, l', approval.dealId)
    ensures var (result, l') := CommitRevocationOn(l, revocation, ids, signer); Told(result, l, l', revocation.dealId)
  {
    RequestIsTold(l, request, ids, signer);
    TransitionIsTold(l, transition, ids, signer);
    ApprovalIsTold(l, approval, ids, signer);
    RevocationIsTold(l, revocation, ids, signer);
    hide Told, CommitRequestOn, CommitTransitionOn, CommitApprovalOn, CommitRevocationOn;
  }

  lemma RequestIsTold(l: Ledger, req: CommitRequest, ids: Ids, signer: Signer)
    ensures var (result, l') := CommitRequestOn(l, req, ids, signer); Told(result, l, l', req.dealId)
  {
    hide TransitionFor, ActionEvent, ApplyEvent;
  }

  lemma TransitionIsTold(l: Ledger, req: TransitionRequest, ids: Ids, signer: Signer)
    ensures var (result, l') := CommitTransitionOn(l, req, ids, signer); Told(result, l, l', req.dealId)
  {
    hide TransitionFor, ApplyEvent;
  }

  lemma ApprovalIsTold(l: Ledger, req: ApprovalRequest, ids: Ids, signer: Signer)
    ensures var (result, l') := CommitApprovalOn(l, req, ids, signer); Told(result, l, l', req.dealId)
  {
    hide GrantInputs, GrantRecheck, TransitionFor, ApplyEvent;
  }

  lemma RevocationIsTold(l: Ledger, req: RevocationRequest, ids: Ids, signer: Signer)
    ensures var (result, l') := CommitRevocationOn(l, req, ids, signer); Told(result, l, l', req.dealId)
  {
    hide HasRevocation;
  }
}
