/** What a mandate means for a whole run: only permitted actions move a deal, gated ones only by a person. */
module Gates {
  import opened Common
  import opened Deals
  import opened Crypto
  import opened Authority
  import opened Policy
  import opened Chain
  import opened Plans
  import opened Ledger
  import opened History
  import opened Runs

  predicate Permits(m: Mandate, action: ActionName) {
    exists a | a in m.allowedActions :: action == Token(a) && a !in m.prohibitedActions
  }

  predicate IsGated(m: Mandate, action: ActionName) {
    exists a | a in m.requiresHumanApprovalFor :: action == Token(a)
  }

  // An agent transition at i keeps to the mandate its event names; a gated one directly follows a grant.
  predicate WithinMandate(chain: seq<Event>, i: nat, mandates: map<Id, Mandate>)
    requires i < |chain|
  {
    var e := chain[i].form;
    e.payload.RequestTransition? && e.authorityRecordId.Some? && e.authorityRecordId.value in mandates ==>
      var m := mandates[e.authorityRecordId.value];
      && Permits(m, e.payload.action)
      && (IsGated(m, e.payload.action) ==>
            && i > 0 && chain[i - 1].form.payload.GrantedApproval?
            && chain[i - 1].form.payload.requestId == e.payload.requestId)
  }

  predicate ChainWithin(chain: seq<Event>, mandates: map<Id, Mandate>) {
    forall i | 0 <= i < |chain| :: WithinMandate(chain, i, mandates)
  }

  predicate RowWithin(a: Approval, mandates: map<Id, Mandate>) {
    a.authorityRecordId in mandates ==> Permits(mandates[a.authorityRecordId], a.action)
  }

  predicate RowsWithin(approvals: map<Id, Approval>, mandates: map<Id, Mandate>) {
    forall id | id in approvals :: RowWithin(approvals[id], mandates)
  }

  predicate ChainsWithin(chains: map<Id, seq<Event>>, mandates: map<Id, Mandate>) {
    forall d | d in chains :: ChainWithin(chains[d], mandates)
  }

  // Signed records never change: a record id always names the same mandate.
  predicate UnderMandates(step: Step, mandates: map<Id, Mandate>) {
    step.Propose? ==>
      var m := step.pi.authority.record.terms;
      m.recordId in mandates && mandates[m.recordId] == m
  }

  predicate EntryWithin(plan: Plan, j: nat, m: Mandate)
    requires j < |plan.entries|
  {
    var p := plan.entries[j].payload;
    p.RequestTransition? ==>
      && Permits(m, p.action)
      && (IsGated(m, p.action) ==>
            && j > 0 && plan.entries[j - 1].payload.GrantedApproval?
            && plan.entries[j - 1].payload.requestId == p.requestId)
  }

  predicate PlanWithin(plan: Plan, mandates: map<Id, Mandate>) {
    plan.header.authorityRecordId.Some? && plan.header.authorityRecordId.value in mandates ==>
      forall j | 0 <= j < |plan.entries| :: EntryWithin(plan, j, mandates[plan.header.authorityRecordId.value])
  }

  lemma AppendWithin(chain: seq<Event>, plan: Plan, signer: Signer, mandates: map<Id, Mandate>)
    requires ChainWithin(chain, mandates) && PlanWithin(plan, mandates)
    ensures ChainWithin(chain + Seal(plan.header, |chain|, Head(chain), plan.entries, signer), mandates)
  {
    var longer := chain + Seal(plan.header, |chain|, Head(chain), plan.entries, signer);
    hide Seal;
    forall i | 0 <= i < |longer| ensures WithinMandate(longer, i, mandates) {
      if i < |chain| {
        assert WithinMandate(chain, i, mandates);
      } else if plan.header.authorityRecordId.Some? && plan.header.authorityRecordId.value in mandates {
        assert EntryWithin(plan, i - |chain|, mandates[plan.header.authorityRecordId.value]);
      }
    }
  }

  lemma ExtendedWithin(chains: map<Id, seq<Event>>, d: Id, plan: Plan, signer: Signer, mandates: map<Id, Mandate>)
    requires ChainsWithin(chains, mandates) && d in chains && PlanWithin(plan, mandates)
    ensures ChainsWithin(Extended(chains, d, plan, signer), mandates)
  {
    AppendWithin(chains[d], plan, signer, mandates);
  }

  // Whatever the engine allows or holds for a person is an action the mandate permits, and what it
  // allows outright is not gated.
  lemma EngineKeepsToMandate(pi: PolicyInput)
    requires !Evaluate(pi).outcome.Deny?
    ensures Permits(pi.authority.record.terms, pi.proposal.action)
    ensures Evaluate(pi).outcome.Allow? ==> !IsGated(pi.authority.record.terms, pi.proposal.action)
  {
    DecisionIsFirstFailure(pi);
    HoldsAndDenials(pi);
    assert Holds(Allowed, pi) && Holds(Prohibited, pi);
    if Evaluate(pi).outcome.Allow? { assert Holds(HumanApproval, pi); }
  }

  lemma RequestPlanWithin(pi: PolicyInput, deal: Deal, recordedAt: Instant, event: Option<DealEvent>, ids: Ids,
                          mandates: map<Id, Mandate>)
    requires UnderMandates(Propose(pi, recordedAt, ids), mandates)
    requires PlanTransition(deal, pi.proposal.action, Evaluate(pi).outcome) == Proceed(event)
    ensures var plan := PlanRequest(deal, RequestOf(pi, recordedAt), event, ids);
      PlanWithin(plan, mandates) && (plan.approval.Some? ==> RowWithin(plan.approval.value, mandates))
  {
    if !Evaluate(pi).outcome.Deny? { EngineKeepsToMandate(pi); }
  }

  lemma ApprovalPlanWithin(deal: Deal, a: Approval, req: ApprovalRequest, record: Option<Mandate>, revoked: bool,
                           ids: Ids,
                           mandates: map<Id, Mandate>)
    requires RowWithin(a, mandates) && Matches(req, a)
    requires req.operation.Grant? ==> req.approvalRecord.Some? && req.action.Token?
    ensures PlanWithin(PlanApproval(deal, a, req, record, revoked, ids), mandates)
  {
  }

  lemma ProposeWithin(l: Ledger, pi: PolicyInput, recordedAt: Instant, ids: Ids, signer: Signer,
                      mandates: map<Id, Mandate>)
    requires l.deals.Keys == l.chains.Keys && ChainsWithin(l.chains, mandates) && RowsWithin(l.approvals, mandates)
    requires UnderMandates(Propose(pi, recordedAt, ids), mandates)
    ensures var l' := ProcessRequestOn(l, pi, recordedAt, ids, signer).1;
      ChainsWithin(l'.chains, mandates) && RowsWithin(l'.approvals, mandates)
  {
    hide Seal;
    if CheckAntiReplay(l, pi).Pass? && pi.deal.dealId in l.deals {
      var deal := l.deals[pi.deal.dealId];
      var planned := PlanTransition(deal, pi.proposal.action, Evaluate(pi).outcome);
      if planned.Proceed? {
        var plan := PlanRequest(deal, RequestOf(pi, recordedAt), planned.event, ids);
        RequestPlanWithin(pi, deal, recordedAt, planned.event, ids, mandates);
        hide PlanRequest, Evaluate;
        ExtendedWithin(l.chains, pi.deal.dealId, plan, signer, mandates);
      }
    }
  }

  lemma DecisionWithin(chains: map<Id, seq<Event>>, approvals: map<Id, Approval>, deal: Deal, req: ApprovalRequest,
                       record: Option<Mandate>, revoked: bool, ids: Ids, signer: Signer, mandates: map<Id, Mandate>)
    requires ChainsWithin(chains, mandates) && RowsWithin(approvals, mandates) && req.dealId in chains
    requires req.approvalId in approvals && Matches(req, approvals[req.approvalId])
    requires req.operation.Grant? ==> req.approvalRecord.Some? && req.action.Token?
    ensures var plan := PlanApproval(deal, approvals[req.approvalId], req, record, revoked, ids);
      && ChainsWithin(Extended(chains, req.dealId, plan, signer), mandates)
      && RowsWithin(approvals[req.approvalId := plan.approval.value], mandates)
  {
    hide Seal, PlanApproval, PlanWithin, ChainsWithin;
    ApprovalPlanWithin(deal, approvals[req.approvalId], req, record, revoked, ids, mandates);
    ExtendedWithin(chains, req.dealId, PlanApproval(deal, approvals[req.approvalId], req, record, revoked, ids),
      signer, mandates);
  }

  lemma DecideWithin(l: Ledger, req: ApprovalRequest, ids: Ids, signer: Signer, mandates: map<Id, Mandate>)
    requires l.deals.Keys == l.chains.Keys && ChainsWithin(l.chains, mandates) && RowsWithin(l.approvals, mandates)
    requires Admissible(l, Decide(req, ids))
    ensures var l' := CommitApprovalOn(l, req, ids, signer).1;
      ChainsWithin(l'.chains, mandates) && RowsWithin(l'.approvals, mandates)
  {
    hide Seal, PlanApproval, ChainsWithin, RowsWithin, ApprovalAbort;
    if CommitApprovalOn(l, req, ids, signer).0.outcome.Committed? {
      var (record, revoked) := GrantInputs(l, l.approvals[req.approvalId], req.occurredAt);
      DecisionWithin(l.chains, l.approvals, l.deals[req.dealId], req, record, revoked, ids, signer, mandates);
    }
  }

  lemma BoundaryWithin(l: Ledger, req: TransitionRequest, ids: Ids, signer: Signer, mandates: map<Id, Mandate>)
    requires l.deals.Keys == l.chains.Keys && ChainsWithin(l.chains, mandates)
    ensures ChainsWithin(CommitTransitionOn(l, req, ids, signer).1.chains, mandates)
  {
    hide Seal;
    if CommitTransitionOn(l, req, ids, signer).0.outcome.Committed? {
      var deal := l.deals[req.dealId];
      ExtendedWithin(l.chains, req.dealId, PlanBoundary(deal, req, TransitionFor(deal.state, req.event).value, ids),
        signer, mandates);
    }
  }

  lemma RevokeWithin(l: Ledger, req: RevocationRequest, ids: Ids, signer: Signer, mandates: map<Id, Mandate>)
    requires l.deals.Keys == l.chains.Keys && ChainsWithin(l.chains, mandates)
    ensures ChainsWithin(CommitRevocationOn(l, req, ids, signer).1.chains, mandates)
  {
    hide Seal;
    if CommitRevocationOn(l, req, ids, signer).0.outcome.Committed? {
      ExtendedWithin(l.chains, req.dealId, PlanRevocation(l.deals[req.dealId], req, ids), signer, mandates);
    }
  }

  lemma StepWithin(l: Ledger, step: Step, signer: Signer, mandates: map<Id, Mandate>)
    requires l.deals.Keys == l.chains.Keys && ChainsWithin(l.chains, mandates) && RowsWithin(l.approvals, mandates)
    requires Admissible(l, step) && UnderMandates(step, mandates)
    ensures var l' := Next(l, step, signer); ChainsWithin(l'.chains, mandates) && RowsWithin(l'.approvals, mandates)
  {
    hide Seal, PlanRequest, PlanApproval;
    match step
    case Register(dealId, record, createdAt) =>
    case Propose(pi, recordedAt, ids) => ProposeWithin(l, pi, recordedAt, ids, signer, mandates);
    case Boundary(req, ids) => BoundaryWithin(l, req, ids, signer, mandates);
    case Decide(req, ids) => DecideWithin(l, req, ids, signer, mandates);
    case Revoke(req, ids) => RevokeWithin(l, req, ids, signer, mandates);
  }

  // In every state of every run, an agent's transition is of an action its mandate permits, and an
  // action the mandate gates moves a deal only directly after a person's grant of that request.
  lemma {:induction false} GatedActionsMoveOnlyByGrant(
      trace: seq<Ledger>, steps: seq<Step>, signer: Signer, mandates: map<Id, Mandate>, i: nat)
    requires Run(trace, steps, signer) && i < |trace|
    requires forall k | 0 <= k < |steps| :: UnderMandates(steps[k], mandates)
    ensures ChainsWithin(trace[i].chains, mandates) && RowsWithin(trace[i].approvals, mandates)
    decreases i
  {
    if i > 0 {
      GatedActionsMoveOnlyByGrant(trace, steps, signer, mandates, i - 1);
      EveryRunIsSound(trace, steps, signer, i - 1);
      assert StepAt(trace, steps, signer, i - 1);
      StepWithin(trace[i - 1], steps[i - 1], signer, mandates);
    }
  }
}
