/** No autonomous commitment: what stands behind every agent move, and the auditor that looks for it. */
module Trail {
  import opened Common
  import opened Deals
  import opened Crypto
  import opened Authority
  import opened Policy
  import opened Chain
  import opened Plans
  import opened Ledger
  import opened History
  import opened Runs

  predicate HeldFor(ps: seq<Payload>, k: nat, a: Approval) {
    HeldAt(ps, k, a.requestId, a.action, a.amountMinor) && ps[k + 1].approvalId == a.approvalId
  }

  // The row records a hold that its deal's chain shows.
  ghost predicate RowBacked(chains: map<Id, seq<Event>>, a: Approval) {
    a.dealId in chains && exists k: nat :: HeldFor(Payloads(chains[a.dealId]), k, a)
  }

  predicate AllTrails(chains: map<Id, seq<Event>>) {
    forall d | d in chains :: NoAutonomousMove(Payloads(chains[d]))
  }

  ghost predicate RowsBacked(chains: map<Id, seq<Event>>, approvals: map<Id, Approval>) {
    forall id | id in approvals :: approvals[id].approvalId == id && RowBacked(chains, approvals[id])
  }

  ghost predicate Backed(chains: map<Id, seq<Event>>, approvals: map<Id, Approval>) {
    AllTrails(chains) && RowsBacked(chains, approvals)
  }

  /* ----- extending a chain ----- */

  lemma HeldStaysHeld(ps: seq<Payload>, qs: seq<Payload>, k: nat, requestId: Id, action: ActionName,
                      amount: Option<int>)
    requires HeldAt(ps, k, requestId, action, amount)
    ensures HeldAt(ps + qs, k, requestId, action, amount)
  {
  }

  lemma ExtendTrail(ps: seq<Payload>, qs: seq<Payload>)
    requires NoAutonomousMove(ps)
    requires forall i | |ps| <= i < |ps + qs| :: LicensedAt(ps + qs, i) && GrantBackedAt(ps + qs, i)
    ensures NoAutonomousMove(ps + qs)
  {
    forall i | 0 <= i < |ps| ensures LicensedAt(ps + qs, i) && GrantBackedAt(ps + qs, i) {
      assert LicensedAt(ps, i) && GrantBackedAt(ps, i);
      if ps[i].GrantedApproval? {
        var k: nat :| k + 1 < i && HeldAt(ps, k, ps[i].requestId, ps[i].action, ps[i].amountMinor);
        HeldStaysHeld(ps, qs, k, ps[i].requestId, ps[i].action, ps[i].amountMinor);
      }
    }
  }

  lemma RowStaysBacked(chains: map<Id, seq<Event>>, d: Id, plan: Plan, signer: Signer, a: Approval)
    requires d in chains && RowBacked(chains, a)
    ensures RowBacked(Extended(chains, d, plan, signer), a)
  {
    var k: nat :| HeldFor(Payloads(chains[a.dealId]), k, a);
    var longer := Extended(chains, d, plan, signer);
    if a.dealId == d {
      PayloadsOfAppend(chains[d], plan, |chains[d]|, Head(chains[d]), signer);
      HeldStaysHeld(Payloads(chains[d]), EntryPayloads(plan), k, a.requestId, a.action, a.amountMinor);
    }
    assert HeldFor(Payloads(longer[a.dealId]), k, a);
  }

  lemma AppendKeepsTrails(chains: map<Id, seq<Event>>, approvals: map<Id, Approval>, d: Id, plan: Plan, signer: Signer)
    requires Backed(chains, approvals) && d in chains
    requires NoAutonomousMove(Payloads(chains[d]) + EntryPayloads(plan))
    ensures Backed(Extended(chains, d, plan, signer), approvals)
  {
    PayloadsOfAppend(chains[d], plan, |chains[d]|, Head(chains[d]), signer);
    forall id | id in approvals ensures RowBacked(Extended(chains, d, plan, signer), approvals[id]) {
      RowStaysBacked(chains, d, plan, signer, approvals[id]);
    }
  }

  lemma OneMoreRow(chains: map<Id, seq<Event>>, approvals: map<Id, Approval>, a: Approval)
    requires Backed(chains, approvals) && RowBacked(chains, a)
    ensures Backed(chains, approvals[a.approvalId := a])
  {
  }

  /* ----- the four plans ----- */

  lemma RequestExtendsTrail(ps: seq<Payload>, deal: Deal, req: CommitRequest, event: Option<DealEvent>, ids: Ids)
    requires NoAutonomousMove(ps)
    requires event.Some? ==> PlanTransition(deal, req.action, req.decision.outcome) == Proceed(event)
    ensures NoAutonomousMove(ps + EntryPayloads(PlanRequest(deal, req, event, ids)))
  {
    var qs := EntryPayloads(PlanRequest(deal, req, event, ids));
    var n := |MessageEntries(req, ids)|;
    assert qs[n] == DecisionEntry(req, ids).payload;
    forall i | |ps| <= i < |ps + qs| ensures LicensedAt(ps + qs, i) && GrantBackedAt(ps + qs, i) {
      assert (ps + qs)[i] == qs[i - |ps|];
    }
    ExtendTrail(ps, qs);
  }

  lemma RequestBacksItsRow(ps: seq<Payload>, deal: Deal, req: CommitRequest, event: Option<DealEvent>, ids: Ids)
    requires event.Some? ==> TransitionFor(deal.state, event.value).Some?
    requires PlanRequest(deal, req, event, ids).approval.Some?
    ensures var plan := PlanRequest(deal, req, event, ids);
      HeldFor(ps + EntryPayloads(plan), |ps| + |MessageEntries(req, ids)|, plan.approval.value)
  {
    var qs := EntryPayloads(PlanRequest(deal, req, event, ids));
    var n := |MessageEntries(req, ids)|;
    assert qs[n] == DecisionEntry(req, ids).payload;
    assert qs[n + 1] == FollowUp(deal, req, event, ids).0[0].payload;
  }

  lemma ApprovalExtendsTrail(ps: seq<Payload>, deal: Deal, a: Approval, req: ApprovalRequest,
                             record: Option<Mandate>, revoked: bool, ids: Ids, k: nat)
    requires NoAutonomousMove(ps) && HeldFor(ps, k, a) && Matches(req, a)
    requires req.operation.Grant? ==> req.approvalRecord.Some? && req.action.Token?
    ensures NoAutonomousMove(ps + EntryPayloads(PlanApproval(deal, a, req, record, revoked, ids)))
  {
    var qs := EntryPayloads(PlanApproval(deal, a, req, record, revoked, ids));
    HeldStaysHeld(ps, qs, k, a.requestId, a.action, a.amountMinor);
    forall i | |ps| <= i < |ps + qs| ensures LicensedAt(ps + qs, i) && GrantBackedAt(ps + qs, i) {
      assert (ps + qs)[i] == qs[i - |ps|];
    }
    ExtendTrail(ps, qs);
  }

  lemma QuietExtendsTrail(ps: seq<Payload>, qs: seq<Payload>)
    requires NoAutonomousMove(ps)
    requires forall p | p in qs :: !p.RequestTransition? && !p.GrantedApproval?
    ensures NoAutonomousMove(ps + qs)
  {
    forall i | |ps| <= i < |ps + qs| ensures LicensedAt(ps + qs, i) && GrantBackedAt(ps + qs, i) {
      assert (ps + qs)[i] in qs;
    }
    ExtendTrail(ps, qs);
  }

  /* ----- every step keeps it ----- */

  lemma ProposeKeepsBacked(chains: map<Id, seq<Event>>, approvals: map<Id, Approval>, deal: Deal, req: CommitRequest,
                           event: Option<DealEvent>, ids: Ids, signer: Signer)
    requires Backed(chains, approvals) && req.dealId in chains
    requires PlanTransition(deal, req.action, req.decision.outcome) == Proceed(event)
    ensures var plan := PlanRequest(deal, req, event, ids);
      var longer := Extended(chains, req.dealId, plan, signer);
      Backed(longer, approvals)
      && (plan.approval.Some? ==> Backed(longer, approvals[plan.approval.value.approvalId := plan.approval.value]))
  {
    var ps := Payloads(chains[req.dealId]);
    var plan := PlanRequest(deal, req, event, ids);
    var longer := Extended(chains, req.dealId, plan, signer);
    RequestExtendsTrail(ps, deal, req, event, ids);
    AppendKeepsTrails(chains, approvals, req.dealId, plan, signer);
    if plan.approval.Some? {
      RequestBacksItsRow(ps, deal, req, event, ids);
      PayloadsOfAppend(chains[req.dealId], plan, |chains[req.dealId]|, Head(chains[req.dealId]), signer);
      assert RowBacked(longer, plan.approval.value);
      OneMoreRow(longer, approvals, plan.approval.value);
    }
  }

  lemma DecideKeepsBacked(chains: map<Id, seq<Event>>, approvals: map<Id, Approval>, deal: Deal, req: ApprovalRequest,
                          record: Option<Mandate>, revoked: bool, ids: Ids, signer: Signer)
    requires Backed(chains, approvals) && req.approvalId in approvals && Matches(req, approvals[req.approvalId])
    requires req.operation.Grant? ==> req.approvalRecord.Some? && req.action.Token?
    ensures var plan := PlanApproval(deal, approvals[req.approvalId], req, record, revoked, ids);
      req.dealId in chains
      && Backed(Extended(chains, req.dealId, plan, signer), approvals[req.approvalId := plan.approval.value])
  {
    var a := approvals[req.approvalId];
    assert RowBacked(chains, a);
    var k: nat :| HeldFor(Payloads(chains[a.dealId]), k, a);
    var plan := PlanApproval(deal, a, req, record, revoked, ids);
    ApprovalExtendsTrail(Payloads(chains[req.dealId]), deal, a, req, record, revoked, ids, k);
    AppendKeepsTrails(chains, approvals, req.dealId, plan, signer);
    DecidedRowStaysBacked(Extended(chains, req.dealId, plan, signer), a, plan.approval.value);
    OneMoreRow(Extended(chains, req.dealId, plan, signer), approvals, plan.approval.value);
  }

  lemma DecidedRowStaysBacked(chains: map<Id, seq<Event>>, a: Approval, b: Approval)
    requires RowBacked(chains, a)
    requires b.approvalId == a.approvalId && b.dealId == a.dealId && b.requestId == a.requestId
    requires b.action == a.action && b.amountMinor == a.amountMinor
    ensures RowBacked(chains, b)
  {
    var k: nat :| HeldFor(Payloads(chains[a.dealId]), k, a);
    assert HeldFor(Payloads(chains[b.dealId]), k, b);
  }

  lemma QuietKeepsBacked(chains: map<Id, seq<Event>>, approvals: map<Id, Approval>, d: Id, plan: Plan, signer: Signer)
    requires Backed(chains, approvals) && d in chains
    requires forall e | e in plan.entries :: !e.payload.RequestTransition? && !e.payload.GrantedApproval?
    ensures Backed(Extended(chains, d, plan, signer), approvals)
  {
    QuietExtendsTrail(Payloads(chains[d]), EntryPayloads(plan));
    AppendKeepsTrails(chains, approvals, d, plan, signer);
  }

  lemma RegisterKeepsBacked(chains: map<Id, seq<Event>>, approvals: map<Id, Approval>, d: Id)
    requires Backed(chains, approvals) && d !in chains
    ensures Backed(chains[d := []], approvals)
  {
    forall id | id in approvals ensures RowBacked(chains[d := []], approvals[id]) {
      assert RowBacked(chains, approvals[id]);
      var k: nat :| HeldFor(Payloads(chains[approvals[id].dealId]), k, approvals[id]);
      assert HeldFor(Payloads(chains[d := []][approvals[id].dealId]), k, approvals[id]);
    }
  }

  lemma RequestStepKeepsBacked(l: Ledger, req: CommitRequest, ids: Ids, signer: Signer)
    requires l.deals.Keys == l.chains.Keys && Backed(l.chains, l.approvals)
    ensures var l' := CommitRequestOn(l, req, ids, signer).1; Backed(l'.chains, l'.approvals)
  {
    if req.dealId in l.deals {
      var deal := l.deals[req.dealId];
      var planned := PlanTransition(deal, req.action, req.decision.outcome);
      if planned.Proceed? {
        ProposeKeepsBacked(l.chains, l.approvals, deal, req, planned.event, ids, signer);
      }
    }
  }

  lemma ApprovalStepKeepsBacked(l: Ledger, req: ApprovalRequest, ids: Ids, signer: Signer)
    requires l.deals.Keys == l.chains.Keys && Backed(l.chains, l.approvals)
    requires req.approvalId in l.approvals ==> Matches(req, l.approvals[req.approvalId])
    ensures var l' := CommitApprovalOn(l, req, ids, signer).1; Backed(l'.chains, l'.approvals)
  {
    hide Seal, PlanApproval;
    if CommitApprovalOn(l, req, ids, signer).0.outcome.Committed? {
      var (record, revoked) := GrantInputs(l, l.approvals[req.approvalId], req.occurredAt);
      DecideKeepsBacked(l.chains, l.approvals, l.deals[req.dealId], req, record, revoked, ids, signer);
    }
  }

  lemma BoundaryStepKeepsBacked(l: Ledger, req: TransitionRequest, ids: Ids, signer: Signer)
    requires l.deals.Keys == l.chains.Keys && Backed(l.chains, l.approvals)
    ensures var l' := CommitTransitionOn(l, req, ids, signer).1; Backed(l'.chains, l'.approvals)
  {
    hide Seal;
    if CommitTransitionOn(l, req, ids, signer).0.outcome.Committed? {
      var deal := l.deals[req.dealId];
      QuietKeepsBacked(
        l.chains, l.approvals, req.dealId, PlanBoundary(deal, req, TransitionFor(deal.state, req.event).value, ids), signer);
    }
  }

  lemma RevokeStepKeepsBacked(l: Ledger, req: RevocationRequest, ids: Ids, signer: Signer)
    requires l.deals.Keys == l.chains.Keys && Backed(l.chains, l.approvals)
    ensures var l' := CommitRevocationOn(l, req, ids, signer).1; Backed(l'.chains, l'.approvals)
  {
    hide Seal;
    if CommitRevocationOn(l, req, ids, signer).0.outcome.Committed? {
      QuietKeepsBacked(l.chains, l.approvals, req.dealId, PlanRevocation(l.deals[req.dealId], req, ids), signer);
    }
  }

  lemma StepKeepsBacked(l: Ledger, step: Step, signer: Signer)
    requires l.deals.Keys == l.chains.Keys && Backed(l.chains, l.approvals) && Admissible(l, step)
    ensures var l' := Next(l, step, signer); Backed(l'.chains, l'.approvals)
  {
    match step
    case Register(dealId, record, createdAt) => if dealId !in l.deals { RegisterKeepsBacked(l.chains, l.approvals, dealId); }
    case Propose(pi, recordedAt, ids) => RequestStepKeepsBacked(l, RequestOf(pi, recordedAt), ids, signer);
    case Boundary(req, ids) => BoundaryStepKeepsBacked(l, req, ids, signer);
    case Decide(req, ids) => ApprovalStepKeepsBacked(l, req, ids, signer);
    case Revoke(req, ids) => RevokeStepKeepsBacked(l, req, ids, signer);
  }

  // In every state of every run, an agent's transition directly follows an allow or a grant of the
  // same request, action and amount, and a grant follows the hold that asked for it.
  lemma {:induction false} NoRunCommitsAutonomously(trace: seq<Ledger>, steps: seq<Step>, signer: Signer, i: nat)
    requires Run(trace, steps, signer) && i < |trace|
    ensures Backed(trace[i].chains, trace[i].approvals)
    decreases i
  {
    if i > 0 {
      NoRunCommitsAutonomously(trace, steps, signer, i - 1);
      EveryRunIsSound(trace, steps, signer, i - 1);
      assert StepAt(trace, steps, signer, i - 1);
      StepKeepsBacked(trace[i - 1], steps[i - 1], signer);
    }
  }
}
