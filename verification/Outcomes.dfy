/** What the run invariants come to: counters, lifecycle, spend and revocation over whole runs. */
module Outcomes {
  import opened Common
  import opened Deals
  import opened Crypto
  import opened Authority
  import opened Policy
  import opened Chain
  import opened Plans
  import opened Ledger
  import opened History
  import opened Runs
  import opened Trail
  import opened Once

  /* ----- the deal row is its chain ----- */

  // In every reachable state the stored counters are sums over the chain, and the open approvals
  // are the pending rows.
  lemma DealRowIsItsChain(trace: seq<Ledger>, steps: seq<Step>, signer: Signer, i: nat, d: Id)
    requires Run(trace, steps, signer) && i < |trace| && d in trace[i].deals
    ensures d in trace[i].chains
    ensures var deal := trace[i].deals[d];
      var ps := Payloads(trace[i].chains[d]);
      && deal.state == LastState(DealState.Draft, ps)
      && deal.negotiatedRounds == Tally(ps, CounterofferWeight)
      && deal.committedMinor == Tally(ps, SpendWeight)
      && deal.openApprovals == Tally(ps, RequiredWeight) - Tally(ps, DecidedWeight)
      && deal.openApprovals == |PendingOf(trace[i].approvals, d)|
  {
    EveryRunIsSound(trace, steps, signer, i);
    assert DealSound(trace[i].deals[d], trace[i].chains[d], d, signer.key);
    ReplayCounts(NewDeal(d), Payloads(trace[i].chains[d]));
  }

  // In every reachable state the transitions of a chain form a path through the table from DRAFT,
  // whatever mix of allows, grants and boundary events made them, and no dispute is open while a payment
  // can move.
  lemma PathOfEveryRun(trace: seq<Ledger>, steps: seq<Step>, signer: Signer, i: nat, d: Id)
    requires Run(trace, steps, signer) && i < |trace| && d in trace[i].deals
    ensures d in trace[i].chains
    ensures IsPath(Moves(Payloads(trace[i].chains[d]))) && DisputesSound(trace[i].deals[d])
  {
    EveryRunIsSound(trace, steps, signer, i);
    assert DealSound(trace[i].deals[d], trace[i].chains[d], d, signer.key);
    LinkedFromDraftIsPath(d, Payloads(trace[i].chains[d]));
  }

  // So along it there is one agreement at most, spend is frozen once work is completed, and nothing
  // follows a terminal state.
  lemma LifecycleOfEveryRun(trace: seq<Ledger>, steps: seq<Step>, signer: Signer, i: nat, d: Id, a: nat, b: nat)
    requires Run(trace, steps, signer) && i < |trace| && d in trace[i].deals && d in trace[i].chains
    requires var moves := Moves(Payloads(trace[i].chains[d])); a < b < |moves|
    ensures var moves := Moves(Payloads(trace[i].chains[d]));
      && !(moves[a].event.AgreementReached? && moves[b].event.AgreementReached?)
      && (moves[a].event.CompletionClaimed? ==> moves[b].event !in {AgreementReached, ChangeApproved})
      && !IsTerminal(moves[a].to)
  {
    var moves := Moves(Payloads(trace[i].chains[d]));
    PathOfEveryRun(trace, steps, signer, i, d);
    if moves[a].event.AgreementReached? && moves[b].event.AgreementReached? { AgreementHappensOnce(moves, a, b); }
    if moves[a].event.CompletionClaimed? { CommitmentFrozenAfterCompletion(moves, a, b); }
    if IsTerminal(moves[a].to) { TerminalIsLast(moves, a); }
  }

  /* ----- spend ----- */

  // The amounts a person granted: committing transitions that directly follow a grant.
  function GrantedSpend(ps: seq<Payload>): int {
    if |ps| < 2 then 0
    else
      var last := ps[|ps| - 1];
      GrantedSpend(ps[..|ps| - 1]) +
      (if last.RequestTransition? && last.event in {AgreementReached, ChangeApproved} && ps[|ps| - 2].GrantedApproval?
       then AmountOrZero(last.amountMinor) else 0)
  }

  lemma GrantedSpendStep(ps: seq<Payload>, p: Payload)
    ensures GrantedSpend(ps + [p]) == GrantedSpend(ps) +
      (if |ps| > 0 && p.RequestTransition? && p.event in {AgreementReached, ChangeApproved} && ps[|ps| - 1].GrantedApproval?
       then AmountOrZero(p.amountMinor) else 0)
  {
    assert (ps + [p])[..|ps|] == ps;
  }

  lemma {:induction false} GrantedSpendOfQuiet(ps: seq<Payload>, qs: seq<Payload>)
    requires forall q | q in qs :: !q.RequestTransition?
    ensures GrantedSpend(ps + qs) == GrantedSpend(ps)
    decreases |qs|
  {
    if qs == [] {
      assert ps + qs == ps;
    } else {
      var n := |qs| - 1;
      GrantedSpendOfQuiet(ps, qs[..n]);
      assert ps + qs == (ps + qs[..n]) + [qs[n]];
      GrantedSpendStep(ps + qs[..n], qs[n]);
    }
  }

  predicate WithinBudget(deal: Deal, ps: seq<Payload>, cap: int) {
    && GrantedSpend(ps) >= 0
    && deal.committedMinor <= cap + GrantedSpend(ps)
  }

  predicate AmountsSane(approvals: map<Id, Approval>) {
    forall id | id in approvals :: AmountOrZero(approvals[id].amountMinor) >= 0
  }

  // For deal d: proposals are judged on the stored deal under mandates capped at `cap`, and
  // boundary events carry no amount.
  predicate Budgeted(l: Ledger, step: Step, d: Id, cap: int) {
    match step
    case Propose(pi, _, _) =>
      pi.deal.dealId == d && d in l.deals ==>
        pi.deal == l.deals[d] && pi.authority.record.terms.spendCap.amountMinor <= cap
    case Boundary(req, _) => req.dealId == d ==> req.amountMinor.None?
    case _ => true
  }

  lemma RequestWithinBudget(ps: seq<Payload>, pi: PolicyInput, recordedAt: Instant, event: Option<DealEvent>,
                            ids: Ids, cap: int)
    requires WithinBudget(pi.deal, ps, cap) && pi.authority.record.terms.spendCap.amountMinor <= cap
    requires PlanTransition(pi.deal, pi.proposal.action, Evaluate(pi).outcome) == Proceed(event)
    ensures var plan := PlanRequest(pi.deal, RequestOf(pi, recordedAt), event, ids);
      WithinBudget(plan.newDeal, ps + EntryPayloads(plan), cap)
  {
    var req := RequestOf(pi, recordedAt);
    var plan := PlanRequest(pi.deal, req, event, ids);
    var qs := EntryPayloads(plan);
    if event.Some? {
      DecisionIsFirstFailure(pi);
      assert Holds(Spend, pi);
      var n := |qs| - 1;
      GrantedSpendOfQuiet(ps, qs[..n]);
      assert ps + qs == (ps + qs[..n]) + [qs[n]];
      assert qs[n - 1] == DecisionEntry(req, ids).payload;
      GrantedSpendStep(ps + qs[..n], qs[n]);
    } else {
      GrantedSpendOfQuiet(ps, qs);
    }
  }

  lemma ApprovalWithinBudget(ps: seq<Payload>, deal: Deal, a: Approval, req: ApprovalRequest,
                             record: Option<Mandate>, revoked: bool, ids: Ids, cap: int)
    requires WithinBudget(deal, ps, cap) && Matches(req, a) && AmountOrZero(a.amountMinor) >= 0
    requires req.operation.Grant? ==> req.approvalRecord.Some? && req.action.Token?
    ensures var plan := PlanApproval(deal, a, req, record, revoked, ids);
      WithinBudget(plan.newDeal, ps + EntryPayloads(plan), cap)
  {
    var qs := EntryPayloads(PlanApproval(deal, a, req, record, revoked, ids));
    if |qs| == 2 {
      GrantedSpendStep(ps, qs[0]);
      GrantedSpendStep(ps + [qs[0]], qs[1]);
      assert ps + qs == (ps + [qs[0]]) + [qs[1]];
    } else {
      GrantedSpendOfQuiet(ps, qs);
    }
  }

  predicate BudgetOn(deals: map<Id, Deal>, chains: map<Id, seq<Event>>, d: Id, cap: int) {
    d in deals && d in chains ==> WithinBudget(deals[d], Payloads(chains[d]), cap)
  }

  predicate BudgetKept(l: Ledger, d: Id, cap: int) {
    AmountsSane(l.approvals) && BudgetOn(l.deals, l.chains, d, cap)
  }

  lemma AppendKeepsBudget(l: Ledger, x: Id, plan: Plan, signer: Signer, d: Id, cap: int)
    requires BudgetKept(l, d, cap) && x in l.deals && x in l.chains
    requires x == d ==> WithinBudget(plan.newDeal, Payloads(l.chains[d]) + EntryPayloads(plan), cap)
    ensures BudgetOn(l.deals[x := plan.newDeal], Extended(l.chains, x, plan, signer), d, cap)
  {
    if x == d { PayloadsOfAppend(l.chains[d], plan, |l.chains[d]|, Head(l.chains[d]), signer); }
  }

  lemma RequestKeepsBudget(l: Ledger, pi: PolicyInput, recordedAt: Instant, event: Option<DealEvent>, ids: Ids,
                           signer: Signer, d: Id, cap: int)
    requires BudgetKept(l, d, cap) && Budgeted(l, Propose(pi, recordedAt, ids), d, cap)
    requires pi.deal.dealId in l.deals && pi.deal.dealId in l.chains
    requires PlanTransition(l.deals[pi.deal.dealId], pi.proposal.action, Evaluate(pi).outcome) == Proceed(event)
    ensures var plan := PlanRequest(l.deals[pi.deal.dealId], RequestOf(pi, recordedAt), event, ids);
      AmountsSane(WithRow(l.approvals, plan.approval))
      && BudgetOn(l.deals[pi.deal.dealId := plan.newDeal], Extended(l.chains, pi.deal.dealId, plan, signer), d, cap)
  {
    var plan := PlanRequest(l.deals[pi.deal.dealId], RequestOf(pi, recordedAt), event, ids);
    if pi.deal.dealId == d {
      RequestWithinBudget(Payloads(l.chains[d]), pi, recordedAt, event, ids, cap);
    }
    AppendKeepsBudget(l, pi.deal.dealId, plan, signer, d, cap);
  }

  lemma ProposeKeepsBudget(l: Ledger, pi: PolicyInput, recordedAt: Instant, ids: Ids, signer: Signer, d: Id, cap: int)
    requires l.deals.Keys == l.chains.Keys && BudgetKept(l, d, cap) && Budgeted(l, Propose(pi, recordedAt, ids), d, cap)
    ensures BudgetKept(ProcessRequestOn(l, pi, recordedAt, ids, signer).1, d, cap)
  {
    if CheckAntiReplay(l, pi).Pass? && pi.deal.dealId in l.deals {
      var planned := PlanTransition(l.deals[pi.deal.dealId], pi.proposal.action, Evaluate(pi).outcome);
      if planned.Proceed? { RequestKeepsBudget(l, pi, recordedAt, planned.event, ids, signer, d, cap); }
    }
  }

  lemma BoundaryWithinBudget(ps: seq<Payload>, deal: Deal, req: TransitionRequest, target: DealState, ids: Ids,
                             cap: int)
    requires WithinBudget(deal, ps, cap) && req.amountMinor.None?
    ensures var plan := PlanBoundary(deal, req, target, ids); WithinBudget(plan.newDeal, ps + EntryPayloads(plan), cap)
  {
    GrantedSpendOfQuiet(ps, EntryPayloads(PlanBoundary(deal, req, target, ids)));
  }

  lemma BoundaryKeepsBudget(l: Ledger, req: TransitionRequest, ids: Ids, signer: Signer, d: Id, cap: int)
    requires l.deals.Keys == l.chains.Keys && BudgetKept(l, d, cap) && Budgeted(l, Boundary(req, ids), d, cap)
    ensures BudgetKept(CommitTransitionOn(l, req, ids, signer).1, d, cap)
  {
    if CommitTransitionOn(l, req, ids, signer).0.outcome.Committed? {
      var target := TransitionFor(l.deals[req.dealId].state, req.event).value;
      if req.dealId == d { BoundaryWithinBudget(Payloads(l.chains[d]), l.deals[d], req, target, ids, cap); }
      AppendKeepsBudget(l, req.dealId, PlanBoundary(l.deals[req.dealId], req, target, ids), signer, d, cap);
    }
  }

  lemma DecisionKeepsBudget(l: Ledger, req: ApprovalRequest, record: Option<Mandate>, revoked: bool, ids: Ids,
                            signer: Signer, d: Id, cap: int)
    requires BudgetKept(l, d, cap) && req.dealId in l.deals && req.dealId in l.chains
    requires req.approvalId in l.approvals && Matches(req, l.approvals[req.approvalId])
    requires req.operation.Grant? ==> req.approvalRecord.Some? && req.action.Token?
    ensures var plan := PlanApproval(l.deals[req.dealId], l.approvals[req.approvalId], req, record, revoked, ids);
      AmountsSane(l.approvals[req.approvalId := plan.approval.value])
      && BudgetOn(l.deals[req.dealId := plan.newDeal], Extended(l.chains, req.dealId, plan, signer), d, cap)
  {
    var a := l.approvals[req.approvalId];
    var plan := PlanApproval(l.deals[req.dealId], a, req, record, revoked, ids);
    assert plan.approval.value.amountMinor == a.amountMinor;
    if req.dealId == d {
      ApprovalWithinBudget(Payloads(l.chains[d]), l.deals[d], a, req, record, revoked, ids, cap);
    }
    AppendKeepsBudget(l, req.dealId, plan, signer, d, cap);
  }

  lemma DecideKeepsBudget(l: Ledger, req: ApprovalRequest, ids: Ids, signer: Signer, d: Id, cap: int)
    requires l.deals.Keys == l.chains.Keys && BudgetKept(l, d, cap) && Admissible(l, Decide(req, ids))
    ensures BudgetKept(CommitApprovalOn(l, req, ids, signer).1, d, cap)
  {
    if CommitApprovalOn(l, req, ids, signer).0.outcome.Committed? {
      var (record, revoked) := GrantInputs(l, l.approvals[req.approvalId], req.occurredAt);
      DecisionKeepsBudget(l, req, record, revoked, ids, signer, d, cap);
    }
  }

  lemma RevokeKeepsBudget(l: Ledger, req: RevocationRequest, ids: Ids, signer: Signer, d: Id, cap: int)
    requires l.deals.Keys == l.chains.Keys && BudgetKept(l, d, cap)
    ensures BudgetKept(CommitRevocationOn(l, req, ids, signer).1, d, cap)
  {
    if CommitRevocationOn(l, req, ids, signer).0.outcome.Committed? {
      var plan := PlanRevocation(l.deals[req.dealId], req, ids);
      if req.dealId == d { GrantedSpendOfQuiet(Payloads(l.chains[d]), EntryPayloads(plan)); }
      AppendKeepsBudget(l, req.dealId, plan, signer, d, cap);
    }
  }

  lemma StepKeepsBudget(l: Ledger, step: Step, signer: Signer, d: Id, cap: int)
    requires l.deals.Keys == l.chains.Keys && BudgetKept(l, d, cap) && cap >= 0
    requires Admissible(l, step) && Budgeted(l, step, d, cap)
    ensures BudgetKept(Next(l, step, signer), d, cap)
  {
    hide ProcessRequestOn, CommitTransitionOn, CommitApprovalOn, CommitRevocationOn;
    match step
    case Register(dealId, record, createdAt) =>
    case Propose(pi, recordedAt, ids) => ProposeKeepsBudget(l, pi, recordedAt, ids, signer, d, cap);
    case Boundary(req, ids) => BoundaryKeepsBudget(l, req, ids, signer, d, cap);
    case Decide(req, ids) => DecideKeepsBudget(l, req, ids, signer, d, cap);
    case Revoke(req, ids) => RevokeKeepsBudget(l, req, ids, signer, d, cap);
  }

  lemma NothingSpent(d: Id, cap: int)
    ensures BudgetKept(EmptyLedger, d, cap)
  {
  }

  lemma {:induction false} BudgetLasts(trace: seq<Ledger>, steps: seq<Step>, signer: Signer, d: Id, cap: int, i: nat)
    requires Run(trace, steps, signer) && i < |trace| && cap >= 0
    requires forall k | 0 <= k < |steps| :: Budgeted(trace[k], steps[k], d, cap)
    ensures BudgetKept(trace[i], d, cap)
    decreases i
  {
    hide Next, Budgeted, Admissible, BudgetKept, DealsSound, ApprovalsSound;
    if i > 0 {
      BudgetLasts(trace, steps, signer, d, cap, i - 1);
      EveryRunIsSound(trace, steps, signer, i - 1);
      SoundTables(trace[i - 1], signer.key);
      assert StepAt(trace, steps, signer, i - 1);
      StepKeepsBudget(trace[i - 1], steps[i - 1], signer, d, cap);
    } else {
      NothingSpent(d, cap);
    }
  }

  lemma SoundTables(l: Ledger, key: Key)
    requires Sound(l, key)
    ensures l.deals.Keys == l.chains.Keys
  {
  }

  // Committed spend never exceeds the cap plus what people granted.
  lemma SpendNeverExceedsCapPlusGrants(trace: seq<Ledger>, steps: seq<Step>, signer: Signer, d: Id, cap: int, i: nat)
    requires Run(trace, steps, signer) && i < |trace| && cap >= 0
    requires forall k | 0 <= k < |steps| :: Budgeted(trace[k], steps[k], d, cap)
    ensures BudgetKept(trace[i], d, cap)
    ensures d in trace[i].deals ==> (
      d in trace[i].chains
      && trace[i].deals[d].committedMinor <= cap + GrantedSpend(Payloads(trace[i].chains[d])))
  {
    hide Next, Budgeted, Admissible, DealsSound, ApprovalsSound;
    BudgetLasts(trace, steps, signer, d, cap, i);
    EveryRunIsSound(trace, steps, signer, i);
    SoundTables(trace[i], signer.key);
  }

  /* ----- revocation is final ----- */

  predicate RecordsKeyed(records: map<Id, AuthorityRecord>) {
    forall id | id in records :: records[id].terms.recordId == id
  }

  // At `now` the boundary builds claims from the store, decides at the current time and mints
  // fresh revocation ids.
  predicate OnTime(l: Ledger, step: Step, signer: Signer, now: Instant) {
    match step
    case Propose(pi, _, _) =>
      pi.now == now && pi.authority == BuildClaim(l.revocations, signer, pi.authority.record, now)
    case Decide(req, _) => req.occurredAt == now
    case Revoke(req, _) => req.revocation.fact.revocationId !in l.revocations
    case _ => true
  }

  // The events added between l and l' hold no agent transition under the record.
  ghost predicate QuietUnder(l: Ledger, l': Ledger, recordId: Id) {
    forall d, i | At(l'.chains, d, i) && !At(l.chains, d, i) ::
      l'.chains[d][i].form.authorityRecordId == Some(recordId) ==> !PayloadAt(l'.chains, d, i).RequestTransition?
  }

  lemma RevokedProposalIsDenied(l: Ledger, pi: PolicyInput, signer: Signer, now: Instant)
    requires pi.now == now && pi.authority == BuildClaim(l.revocations, signer, pi.authority.record, now)
    requires RevokedFor(l.revocations, signer, pi.authority.record.terms.recordId, now)
    ensures Evaluate(pi).outcome.Deny?
    ensures Evaluate(pi).reasonCode.RecordRevoked? || Evaluate(pi).reasonCode.InvalidSignatureClaim?
      || Evaluate(pi).reasonCode.UnknownSchemaVersion?
  {
  }

  lemma PlanQuietUnder(l: Ledger, d: Id, plan: Plan, signer: Signer, l': Ledger, recordId: Id)
    requires d in l.chains && l'.chains == Extended(l.chains, d, plan, signer)
    requires plan.header.authorityRecordId == Some(recordId) ==> forall e | e in plan.entries :: !e.payload.RequestTransition?
    ensures QuietUnder(l, l', recordId)
  {
    forall x, i | At(l'.chains, x, i) && !At(l.chains, x, i) && l'.chains[x][i].form.authorityRecordId == Some(recordId)
      ensures !PayloadAt(l'.chains, x, i).RequestTransition?
    {
      PayloadAfter(l.chains, d, plan, signer, x, i);
      assert plan.entries[i - |l.chains[d]|] in plan.entries;
    }
  }

  // The decision is complete: a known deal, a pending approval, an unseen command, and for a grant a
  // known action and its approval record.
  predicate DecisionStands(l: Ledger, req: ApprovalRequest) {
    && req.dealId in l.deals
    && req.approvalId in l.approvals && l.approvals[req.approvalId].status.Pending?
    && req.commandId !in l.seenCommands
    && (req.operation.Grant? ==> req.action.Token? && req.approvalRecord.Some?)
  }

  // Every grant attempted under a revoked record commits whenever any decision would, and closes the
  // approval as a logged deny.
  lemma RevokedGrantIsLoggedDeny(l: Ledger, req: ApprovalRequest, ids: Ids, signer: Signer, recordId: Id)
    requires RecordsKeyed(l.records) && RevokedFor(l.revocations, signer, recordId, req.occurredAt)
    requires req.approvalId in l.approvals && Matches(req, l.approvals[req.approvalId])
    requires l.approvals[req.approvalId].authorityRecordId == recordId && req.operation.Grant?
    ensures var (result, l') := CommitApprovalOn(l, req, ids, signer);
      && (result.outcome.Committed? <==> DecisionStands(l, req))
      && (!result.outcome.Committed? ==> l' == l)
      && (result.outcome.Committed? ==>
            && l'.approvals[req.approvalId].status.Denied?
            && |result.events| == 1 && result.events[0].form.payload.DeniedApproval?
            && (result.events[0].form.payload.denyReason == Some(RecordMissing)
                || result.events[0].form.payload.denyReason == Some(RecordNotCurrent(Revoked)))
            && l'.deals[req.dealId] == l.deals[req.dealId].(openApprovals := l'.deals[req.dealId].openApprovals))
  {
    AbortsUnlessItStands(l, req);
    hide CommitApprovalOn, ApprovalAbort, RevokedAt, PlanApproval, GrantInputs, RevokedFor, RecordsKeyed;
    DecisionApplies(l, req, ids, signer);
    if DecisionStands(l, req) {
      var a := l.approvals[req.approvalId];
      RevokedRecordIsSeen(l, a, signer, req.occurredAt);
      var (record, revoked) := GrantInputs(l, a, req.occurredAt);
      RevokedGrantPlansDenial(l.deals[req.dealId], a, req, record, revoked, ids);
    }
  }

  // What a decision that is not turned away does, and one that is.
  lemma DecisionApplies(l: Ledger, req: ApprovalRequest, ids: Ids, signer: Signer)
    ensures var (result, l') := CommitApprovalOn(l, req, ids, signer);
      if ApprovalAbort(l, req).Some? then !result.outcome.Committed? && l' == l
      else
        var (record, revoked) := GrantInputs(l, l.approvals[req.approvalId], req.occurredAt);
        var plan := PlanApproval(l.deals[req.dealId], l.approvals[req.approvalId], req, record, revoked, ids);
        && result.outcome.Committed? && |result.events| == |plan.entries|
        && (forall i | 0 <= i < |plan.entries| :: result.events[i].form.payload == plan.entries[i].payload)
        && l'.deals == l.deals[req.dealId := plan.newDeal]
        && l'.approvals == l.approvals[req.approvalId := plan.approval.value]
  {
    hide GrantInputs, PlanApproval, Extended;
  }

  lemma RevokedGrantPlansDenial(deal: Deal, a: Approval, req: ApprovalRequest, record: Option<Mandate>, revoked: bool,
                                ids: Ids)
    requires req.operation.Grant? && req.approvalRecord.Some? && req.action.Token? && (record.Some? ==> revoked)
    ensures var plan := PlanApproval(deal, a, req, record, revoked, ids);
      && |plan.entries| == 1 && plan.entries[0].payload.DeniedApproval?
      && (plan.entries[0].payload.denyReason == Some(RecordMissing)
          || plan.entries[0].payload.denyReason == Some(RecordNotCurrent(Revoked)))
      && plan.newDeal == deal.(openApprovals := plan.newDeal.openApprovals) && plan.approval.value.status.Denied?
  {
  }

  lemma AbortsUnlessItStands(l: Ledger, req: ApprovalRequest)
    ensures ApprovalAbort(l, req).None? <==> DecisionStands(l, req)
  {
  }

  lemma RevokedRecordIsSeen(l: Ledger, a: Approval, signer: Signer, now: Instant)
    requires RecordsKeyed(l.records) && RevokedFor(l.revocations, signer, a.authorityRecordId, now)
    ensures var (record, revoked) := GrantInputs(l, a, now); record.Some? ==> revoked
  {
  }

  lemma ProposeQuietUnder(l: Ledger, pi: PolicyInput, recordedAt: Instant, ids: Ids, signer: Signer, recordId: Id,
                          now: Instant)
    requires l.deals.Keys == l.chains.Keys && RevokedFor(l.revocations, signer, recordId, now)
    requires OnTime(l, Propose(pi, recordedAt, ids), signer, now)
    ensures QuietUnder(l, ProcessRequestOn(l, pi, recordedAt, ids, signer).1, recordId)
  {
    var req := RequestOf(pi, recordedAt);
    var l' := ProcessRequestOn(l, pi, recordedAt, ids, signer).1;
    if CheckAntiReplay(l, pi).Pass? && req.dealId in l.deals {
      var planned := PlanTransition(l.deals[req.dealId], req.action, req.decision.outcome);
      if planned.Proceed? {
        if pi.authority.record.terms.recordId == recordId { RevokedProposalIsDenied(l, pi, signer, now); }
        PlanQuietUnder(l, req.dealId, PlanRequest(l.deals[req.dealId], req, planned.event, ids), signer, l', recordId);
      }
    }
  }

  lemma RevokedApprovalPlanIsQuiet(deal: Deal, a: Approval, req: ApprovalRequest, record: Option<Mandate>,
                                   revoked: bool, ids: Ids)
    requires req.operation.Grant? ==> req.approvalRecord.Some? && req.action.Token?
    requires record.Some? ==> revoked
    ensures forall e | e in PlanApproval(deal, a, req, record, revoked, ids).entries :: !e.payload.RequestTransition?
  {
  }

  lemma DecideQuietUnder(l: Ledger, req: ApprovalRequest, ids: Ids, signer: Signer, recordId: Id)
    requires l.deals.Keys == l.chains.Keys && RecordsKeyed(l.records)
    requires RevokedFor(l.revocations, signer, recordId, req.occurredAt) && Admissible(l, Decide(req, ids))
    ensures QuietUnder(l, CommitApprovalOn(l, req, ids, signer).1, recordId)
  {
    hide Seal;
    var (result, l') := CommitApprovalOn(l, req, ids, signer);
    if result.outcome.Committed? {
      var a := l.approvals[req.approvalId];
      var (record, revoked) := GrantInputs(l, a, req.occurredAt);
      if a.authorityRecordId == recordId {
        assert record.Some? ==> revoked;
        RevokedApprovalPlanIsQuiet(l.deals[req.dealId], a, req, record, revoked, ids);
      }
      ApprovalHeaderRecord(l.deals[req.dealId], a, req, record, revoked, ids);
      PlanQuietUnder(l, req.dealId, PlanApproval(l.deals[req.dealId], a, req, record, revoked, ids), signer, l',
        recordId);
    }
  }

  lemma ApprovalHeaderRecord(deal: Deal, a: Approval, req: ApprovalRequest, record: Option<Mandate>, revoked: bool,
                             ids: Ids)
    requires req.operation.Grant? ==> req.approvalRecord.Some? && req.action.Token?
    ensures PlanApproval(deal, a, req, record, revoked, ids).header.authorityRecordId == Some(req.authorityRecordId)
  {
  }

  lemma BoundaryQuietUnder(l: Ledger, req: TransitionRequest, ids: Ids, signer: Signer, recordId: Id)
    requires l.deals.Keys == l.chains.Keys
    ensures QuietUnder(l, CommitTransitionOn(l, req, ids, signer).1, recordId)
  {
    var (result, l') := CommitTransitionOn(l, req, ids, signer);
    if result.outcome.Committed? {
      var deal := l.deals[req.dealId];
      PlanQuietUnder(l, req.dealId, PlanBoundary(deal, req, TransitionFor(deal.state, req.event).value, ids), signer,
        l', recordId);
    }
  }

  lemma RevokeQuietUnder(l: Ledger, req: RevocationRequest, ids: Ids, signer: Signer, recordId: Id)
    requires l.deals.Keys == l.chains.Keys
    ensures QuietUnder(l, CommitRevocationOn(l, req, ids, signer).1, recordId)
  {
    var (result, l') := CommitRevocationOn(l, req, ids, signer);
    if result.outcome.Committed? {
      PlanQuietUnder(l, req.dealId, PlanRevocation(l.deals[req.dealId], req, ids), signer, l', recordId);
    }
  }

  lemma StepQuietUnder(l: Ledger, step: Step, signer: Signer, recordId: Id, now: Instant)
    requires l.deals.Keys == l.chains.Keys && RecordsKeyed(l.records)
    requires RevokedFor(l.revocations, signer, recordId, now)
    requires Admissible(l, step) && OnTime(l, step, signer, now)
    ensures QuietUnder(l, Next(l, step, signer), recordId)
  {
    hide ProcessRequestOn, CommitTransitionOn, CommitApprovalOn, CommitRevocationOn;
    match step
    case Register(dealId, record, createdAt) =>
    case Propose(pi, recordedAt, ids) => ProposeQuietUnder(l, pi, recordedAt, ids, signer, recordId, now);
    case Boundary(req, ids) => BoundaryQuietUnder(l, req, ids, signer, recordId);
    case Decide(req, ids) => DecideQuietUnder(l, req, ids, signer, recordId);
    case Revoke(req, ids) => RevokeQuietUnder(l, req, ids, signer, recordId);
  }

  lemma StepKeepsRevoked(l: Ledger, step: Step, signer: Signer, recordId: Id, now: Instant, later: Instant)
    requires RevokedFor(l.revocations, signer, recordId, now) && OnTime(l, step, signer, now) && now <= later
    ensures RevokedFor(Next(l, step, signer).revocations, signer, recordId, later)
  {
    hide Seal, GrantInputs;
    var id :| id in l.revocations
      && SignedAs(l.revocations[id].signature, signer, l.revocations[id].fact) && RevocationApplies(l.revocations[id], recordId, now);
    assert id in Next(l, step, signer).revocations && Next(l, step, signer).revocations[id] == l.revocations[id];
  }

  lemma ProposeKeepsRecordsKeyed(l: Ledger, pi: PolicyInput, recordedAt: Instant, ids: Ids, signer: Signer)
    requires RecordsKeyed(l.records)
    ensures RecordsKeyed(ProcessRequestOn(l, pi, recordedAt, ids, signer).1.records)
  {
    if CheckAntiReplay(l, pi).Pass? { RequestKeepsRecordsKeyed(l, RequestOf(pi, recordedAt), ids, signer); }
  }

  lemma RequestKeepsRecordsKeyed(l: Ledger, req: CommitRequest, ids: Ids, signer: Signer)
    requires RecordsKeyed(l.records)
    ensures RecordsKeyed(CommitRequestOn(l, req, ids, signer).1.records)
  {
    hide Seal;
  }

  lemma BoundaryKeepsRecords(l: Ledger, req: TransitionRequest, ids: Ids, signer: Signer)
    ensures CommitTransitionOn(l, req, ids, signer).1.records == l.records
  {
    hide Seal;
  }

  lemma DecideKeepsRecords(l: Ledger, req: ApprovalRequest, ids: Ids, signer: Signer)
    ensures CommitApprovalOn(l, req, ids, signer).1.records == l.records
  {
    hide Seal, ApprovalAbort, GrantInputs, PlanApproval;
  }

  lemma RevokeKeepsRecords(l: Ledger, req: RevocationRequest, ids: Ids, signer: Signer)
    ensures CommitRevocationOn(l, req, ids, signer).1.records == l.records
  {
    hide Seal;
  }

  lemma RegisterKeepsRecordsKeyed(l: Ledger, dealId: Id, record: AuthorityRecord, createdAt: Instant)
    requires RecordsKeyed(l.records)
    ensures RecordsKeyed(RegisterDealOn(l, dealId, record, createdAt).records)
  {
  }

  lemma StepKeepsRecordsKeyed(l: Ledger, step: Step, signer: Signer)
    requires RecordsKeyed(l.records)
    ensures RecordsKeyed(Next(l, step, signer).records)
  {
    hide RegisterDealOn, ProcessRequestOn, CommitTransitionOn, CommitApprovalOn, CommitRevocationOn;
    match step
    case Propose(pi, recordedAt, ids) => ProposeKeepsRecordsKeyed(l, pi, recordedAt, ids, signer);
    case Register(dealId, record, createdAt) => RegisterKeepsRecordsKeyed(l, dealId, record, createdAt);
    case Boundary(req, ids) => BoundaryKeepsRecords(l, req, ids, signer);
    case Decide(req, ids) => DecideKeepsRecords(l, req, ids, signer);
    case Revoke(req, ids) => RevokeKeepsRecords(l, req, ids, signer);
  }

  // A non-decreasing clock with every step taken on time.
  predicate Timed(trace: seq<Ledger>, steps: seq<Step>, signer: Signer, clock: seq<Instant>)
    requires |trace| == |steps| + 1
  {
    && |clock| == |steps|
    && (forall i, j | 0 <= i <= j < |clock| :: clock[i] <= clock[j])
    && (forall i | 0 <= i < |steps| :: OnTime(trace[i], steps[i], signer, clock[i]))
  }

  lemma {:induction false} RecordsKeyedInEveryRun(trace: seq<Ledger>, steps: seq<Step>, signer: Signer, i: nat)
    requires Run(trace, steps, signer) && i < |trace|
    ensures RecordsKeyed(trace[i].records)
    decreases i
  {
    if i > 0 {
      RecordsKeyedInEveryRun(trace, steps, signer, i - 1);
      assert StepAt(trace, steps, signer, i - 1);
      StepKeepsRecordsKeyed(trace[i - 1], steps[i - 1], signer);
    }
  }

  lemma {:induction false} RevocationLasts(trace: seq<Ledger>, steps: seq<Step>, signer: Signer, clock: seq<Instant>,
                                           recordId: Id, k: nat, j: nat)
    requires Run(trace, steps, signer) && Timed(trace, steps, signer, clock) && k <= j < |steps|
    requires RevokedFor(trace[k].revocations, signer, recordId, clock[k])
    ensures RevokedFor(trace[j].revocations, signer, recordId, clock[j])
    decreases j
  {
    if k < j {
      RevocationLasts(trace, steps, signer, clock, recordId, k, j - 1);
      assert StepAt(trace, steps, signer, j - 1);
      StepKeepsRevoked(trace[j - 1], steps[j - 1], signer, recordId, clock[j - 1], clock[j]);
    }
  }

  // Revocation is final: once a signed revocation is in effect, no later step of the run appends an
  // agent's transition under that record.
  lemma RevocationIsFinal(trace: seq<Ledger>, steps: seq<Step>, signer: Signer, clock: seq<Instant>,
                          recordId: Id, k: nat, j: nat)
    requires Run(trace, steps, signer) && Timed(trace, steps, signer, clock) && k <= j < |steps|
    requires RevokedFor(trace[k].revocations, signer, recordId, clock[k])
    ensures QuietUnder(trace[j], trace[j + 1], recordId)
  {
    RevocationLasts(trace, steps, signer, clock, recordId, k, j);
    RecordsKeyedInEveryRun(trace, steps, signer, j);
    EveryRunIsSound(trace, steps, signer, j);
    assert StepAt(trace, steps, signer, j);
    StepQuietUnder(trace[j], steps[j], signer, recordId, clock[j]);
  }

  // And every later grant attempted under it, if it commits at all, closes its approval as a logged deny.
  lemma RevokedGrantsAreDeniedForGood(trace: seq<Ledger>, steps: seq<Step>, signer: Signer, clock: seq<Instant>,
                                      recordId: Id, k: nat, j: nat)
    requires Run(trace, steps, signer) && Timed(trace, steps, signer, clock) && k <= j < |steps|
    requires RevokedFor(trace[k].revocations, signer, recordId, clock[k])
    requires steps[j].Decide? && steps[j].approval.operation.Grant?
    requires var req := steps[j].approval;
      req.approvalId in trace[j].approvals && trace[j].approvals[req.approvalId].authorityRecordId == recordId
    ensures var req := steps[j].approval;
      && (!DecisionStands(trace[j], req) ==> trace[j + 1] == trace[j])
      && (DecisionStands(trace[j], req) ==>
            && req.approvalId in trace[j + 1].approvals && trace[j + 1].approvals[req.approvalId].status.Denied?
            && req.dealId in trace[j + 1].chains && trace[j + 1].chains[req.dealId] != []
            && (var last := trace[j + 1].chains[req.dealId][|trace[j + 1].chains[req.dealId]| - 1].form.payload;
                last.DeniedApproval? && last.commandId == req.commandId))
  {
    RevocationLasts(trace, steps, signer, clock, recordId, k, j);
    RecordsKeyedInEveryRun(trace, steps, signer, j);
    assert StepAt(trace, steps, signer, j);
    var req := steps[j].approval;
    RevokedGrantIsLoggedDeny(trace[j], req, steps[j].ids, signer, recordId);
    hide Run, Timed, RevokedFor, RecordsKeyed, DecisionStands;
    if DecisionStands(trace[j], req) { DecisionIsLogged(trace[j], req, steps[j].ids, signer); }
  }

  // A committed decision's events end its deal's chain.
  lemma DecisionIsLogged(l: Ledger, req: ApprovalRequest, ids: Ids, signer: Signer)
    requires CommitApprovalOn(l, req, ids, signer).0.outcome.Committed?
    ensures var (result, l') := CommitApprovalOn(l, req, ids, signer);
      && req.dealId in l'.chains && l'.chains[req.dealId] == ChainOf(l.chains, req.dealId) + result.events
      && result.events != [] && req.approvalId in l'.approvals
      && (result.events[0].form.payload.DeniedApproval? ==> result.events[0].form.payload.commandId == req.commandId)
  {
    hide GrantInputs, ApprovalAbort;
    var (record, revoked) := GrantInputs(l, l.approvals[req.approvalId], req.occurredAt);
    ApprovalEntries(l.deals[req.dealId], l.approvals[req.approvalId], req, record, revoked, ids);
  }

  // What committing one more revocation does to the others: the new record is revoked, and another
  // record stays revoked exactly when a revocation other than one under the same id binds it. The
  // row is stored under its revocation id, so an id used twice would overwrite.
  lemma RevocationSurvivesUnlessIdReused(l: Ledger, req: RevocationRequest, ids: Ids, signer: Signer, other: Id,
                                         now: Instant)
    requires CommitRevocationOn(l, req, ids, signer).0.outcome.Committed?
    requires other != req.revocation.fact.recordId
    ensures var after := CommitRevocationOn(l, req, ids, signer).1.revocations;
      RevokedFor(after, signer, other, now) <==> RevokedFor(l.revocations - {req.revocation.fact.revocationId}, signer, other, now)
    ensures var after := CommitRevocationOn(l, req, ids, signer).1.revocations;
      SignedAs(req.revocation.signature, signer, req.revocation.fact) && req.revocation.fact.revokedAt <= now ==>
        RevokedFor(after, signer, req.revocation.fact.recordId, now)
  {
    var after := CommitRevocationOn(l, req, ids, signer).1.revocations;
    var id := req.revocation.fact.revocationId;
    assert after == l.revocations[id := req.revocation];
    var before := l.revocations - {id};
    assert id in after && after[id] == req.revocation;
    forall x | x in before ensures x in after && after[x] == before[x] { }
    forall x | x in after && x != id ensures x in before && after[x] == before[x] { }
  }
}
