/** Every run of the in-memory ledger: the deal is always the replay of its chain. */
module Runs {
  import opened Common
  import opened Deals
  import opened Crypto
  import opened Authority
  import opened Policy
  import opened Chain
  import opened Plans
  import opened Ledger
  import opened History

  /* ----- steps ----- */

  datatype Step =
    | Register(dealId: Id, record: AuthorityRecord, createdAt: Instant)
    | Propose(pi: PolicyInput, recordedAt: Instant, ids: Ids)
    | Boundary(transition: TransitionRequest, ids: Ids)
    | Decide(approval: ApprovalRequest, ids: Ids)
    | Revoke(revocation: RevocationRequest, ids: Ids)

  // The console decides an approval only for its own deal, action and amount.
  predicate Matches(req: ApprovalRequest, approval: Approval) {
    && req.dealId == approval.dealId && req.action == approval.action
    && req.amountMinor == approval.amountMinor && req.authorityRecordId == approval.authorityRecordId
  }

  // What callers owe: fresh random approval ids, and approval decisions that match their approval.
  predicate Admissible(l: Ledger, step: Step) {
    match step
    case Propose(_, _, ids) => ids.approvalId !in l.approvals
    case Decide(req, _) => req.approvalId in l.approvals ==> Matches(req, l.approvals[req.approvalId])
    case _ => true
  }

  function Next(l: Ledger, step: Step, signer: Signer): Ledger {
    match step
    case Register(dealId, record, createdAt) => RegisterDealOn(l, dealId, record, createdAt)
    case Propose(pi, recordedAt, ids) => ProcessRequestOn(l, pi, recordedAt, ids, signer).1
    case Boundary(req, ids) => CommitTransitionOn(l, req, ids, signer).1
    case Decide(req, ids) => CommitApprovalOn(l, req, ids, signer).1
    case Revoke(req, ids) => CommitRevocationOn(l, req, ids, signer).1
  }

  // A run from the empty store: trace[i + 1] is what step i makes of trace[i].
  predicate Run(trace: seq<Ledger>, steps: seq<Step>, signer: Signer) {
    && |trace| == |steps| + 1
    && trace[0] == EmptyLedger
    && forall i | 0 <= i < |steps| :: StepAt(trace, steps, signer, i)
  }

  predicate StepAt(trace: seq<Ledger>, steps: seq<Step>, signer: Signer, i: nat)
    requires |trace| == |steps| + 1 && i < |steps|
  {
    Admissible(trace[i], steps[i]) && trace[i + 1] == Next(trace[i], steps[i], signer)
  }

  /* ----- the core invariant ----- */

  predicate DealSound(deal: Deal, chain: seq<Event>, dealId: Id, key: Key) {
    && ChainValid(chain, key)
    && (forall e | e in chain :: e.form.dealId == dealId && e.form.eventType == EventTypeOf(e.form.payload))
    && Linked(NewDeal(dealId), Payloads(chain))
    && Replay(NewDeal(dealId), Payloads(chain)) == deal
    && DisputesSound(deal)
    && deal.dealId == dealId
  }

  function PendingOf(approvals: map<Id, Approval>, dealId: Id): set<Id> {
    set id | id in approvals && approvals[id].dealId == dealId && approvals[id].status.Pending?
  }

  predicate ApprovalsSound(approvals: map<Id, Approval>, deals: map<Id, Deal>) {
    && (forall id | id in approvals :: approvals[id].approvalId == id && approvals[id].dealId in deals)
    && (forall d | d in deals :: |PendingOf(approvals, d)| == deals[d].openApprovals)
  }

  predicate DealsSound(deals: map<Id, Deal>, chains: map<Id, seq<Event>>, key: Key) {
    && deals.Keys == chains.Keys
    && forall d | d in deals :: DealSound(deals[d], chains[d], d, key)
  }

  predicate Sound(l: Ledger, key: Key) {
    DealsSound(l.deals, l.chains, key) && ApprovalsSound(l.approvals, l.deals)
  }

  /* ----- plans keep it ----- */

  function EntryPayloads(plan: Plan): seq<Payload> {
    seq(|plan.entries|, i requires 0 <= i < |plan.entries| => plan.entries[i].payload)
  }

  predicate PlanSound(deal: Deal, plan: Plan) {
    && plan.header.dealId == deal.dealId
    && plan.newDeal.dealId == deal.dealId
    && (forall e | e in plan.entries :: !e.payload.Unserialisable?)
    && Linked(deal, EntryPayloads(plan))
    && Replay(deal, EntryPayloads(plan)) == plan.newDeal
    && DisputesSound(plan.newDeal)
  }

  lemma PayloadsOfAppend(chain: seq<Event>, plan: Plan, sequence: int, previous: Hash, signer: Signer)
    ensures Payloads(chain + Seal(plan.header, sequence, previous, plan.entries, signer)) == Payloads(chain) + EntryPayloads(plan)
  {
  }

  lemma AppendKeepsDealSound(deal: Deal, chain: seq<Event>, plan: Plan, signer: Signer)
    requires DealSound(deal, chain, deal.dealId, signer.key) && PlanSound(deal, plan)
    ensures DealSound(
      plan.newDeal, chain + Seal(plan.header, |chain|, Head(chain), plan.entries, signer), deal.dealId, signer.key)
  {
    SealedAppendIsValid(chain, plan.header, plan.entries, signer);
    PayloadsOfAppend(chain, plan, |chain|, Head(chain), signer);
    ReplayAppend(NewDeal(deal.dealId), Payloads(chain), EntryPayloads(plan));
  }

  lemma ReplayOfOne(d: Deal, a: Payload)
    ensures Replay(d, [a]) == ReplayStep(d, a)
    ensures !a.IsTransition() ==> Linked(d, [a])
    ensures a.IsTransition() && a.fromState == d.state && TransitionFor(d.state, a.event) == Some(a.toState) ==> Linked(d, [a])
  {
    assert [a][1..] == [];
  }

  lemma RequestPlanSound(deal: Deal, req: CommitRequest, event: Option<DealEvent>, ids: Ids)
    requires DisputesSound(deal) && req.dealId == deal.dealId
    requires event.Some? ==> TransitionFor(deal.state, event.value).Some?
    ensures PlanSound(deal, PlanRequest(deal, req, event, ids))
  {
    var plan := PlanRequest(deal, req, event, ids);
    var tail := FollowUp(deal, req, event, ids).0;
    var head := MessageEntries(req, ids) + [DecisionEntry(req, ids)];
    var hs := seq(|head|, i requires 0 <= i < |head| => head[i].payload);
    NeutralReplay(deal, hs);
    if tail == [] {
      assert EntryPayloads(plan) == hs;
    } else {
      assert EntryPayloads(plan) == hs + [tail[0].payload];
      ReplayAppend(deal, hs, [tail[0].payload]);
      ReplayOfOne(deal, tail[0].payload);
      if event.Some? {
        ApplyEventKeepsDisputesSound(deal, event.value, TransitionFor(deal.state, event.value).value, req.amountMinor);
      }
    }
  }

  // Messages, decisions and revocations leave the deal alone.
  predicate Neutral(p: Payload) { p.MessageOut? || p.MessageIn? || p.DecisionMade? || p.RevocationRecorded? }

  lemma {:induction false} NeutralReplay(d: Deal, ps: seq<Payload>)
    requires forall p | p in ps :: Neutral(p)
    ensures Replay(d, ps) == d && Linked(d, ps)
    decreases |ps|
  {
    if ps != [] {
      assert Neutral(ps[0]);
      NeutralReplay(d, ps[1..]);
    }
  }

  // Only the last of a commit's payloads can move the deal, when all before it are neutral.
  lemma LastMoves(d: Deal, ps: seq<Payload>)
    requires ps != [] && forall i | 0 <= i < |ps| - 1 :: Neutral(ps[i])
    ensures var last := ps[|ps| - 1];
      && Replay(d, ps) == ReplayStep(d, last)
      && (Linked(d, ps) <==>
            (last.IsTransition() ==> last.fromState == d.state && TransitionFor(d.state, last.event) == Some(last.toState)))
  {
    hide TransitionFor, ReplayStep;
    var n := |ps| - 1;
    assert ps == ps[..n] + [ps[n]] && [ps[n]][1..] == [];
    NeutralReplay(d, ps[..n]);
    ReplayAppend(d, ps[..n], [ps[n]]);
  }

  lemma BoundaryPlanSound(deal: Deal, req: TransitionRequest, target: DealState, ids: Ids)
    requires DisputesSound(deal) && req.dealId == deal.dealId && TransitionFor(deal.state, req.event) == Some(target)
    ensures PlanSound(deal, PlanBoundary(deal, req, target, ids))
  {
    hide TransitionFor;
    var plan := PlanBoundary(deal, req, target, ids);
    var ps := EntryPayloads(plan);
    LastMoves(deal, ps);
    ApplyEventKeepsDisputesSound(deal, req.event, target, req.amountMinor);
  }

  lemma ApprovalPlanSound(deal: Deal, approval: Approval, req: ApprovalRequest, record: Option<Mandate>,
                          revoked: bool, ids: Ids)
    requires DisputesSound(deal) && req.dealId == deal.dealId && deal.openApprovals >= 1
    requires req.operation.Grant? ==> req.approvalRecord.Some? && req.action.Token?
    ensures var plan := PlanApproval(deal, approval, req, record, revoked, ids);
      PlanSound(deal, plan) && plan.newDeal.openApprovals == deal.openApprovals - 1
  {
    var plan := PlanApproval(deal, approval, req, record, revoked, ids);
    var ps := EntryPayloads(plan);
    ReplayOfOne(deal, ps[0]);
    if |ps| == 2 {
      assert ps == [ps[0]] + [ps[1]];
      ReplayAppend(deal, [ps[0]], [ps[1]]);
      ReplayOfOne(ReplayStep(deal, ps[0]), ps[1]);
      ApplyEventKeepsDisputesSound(deal, ps[1].event, ps[1].toState, req.amountMinor);
    } else {
      assert ps == [ps[0]];
    }
  }

  lemma RevocationPlanSound(deal: Deal, req: RevocationRequest, ids: Ids)
    requires DisputesSound(deal) && req.dealId == deal.dealId
    ensures PlanSound(deal, PlanRevocation(deal, req, ids))
  {
    NeutralReplay(deal, EntryPayloads(PlanRevocation(deal, req, ids)));
  }

  /* ----- approval rows ----- */

  lemma PendingAfterOpening(approvals: map<Id, Approval>, a: Approval, d: Id)
    requires a.approvalId !in approvals && a.status.Pending?
    ensures |PendingOf(approvals[a.approvalId := a], d)| == |PendingOf(approvals, d)| + (if a.dealId == d then 1 else 0)
  {
    var more := PendingOf(approvals[a.approvalId := a], d);
    if a.dealId == d {
      assert more == PendingOf(approvals, d) + {a.approvalId};
    } else {
      assert more == PendingOf(approvals, d);
    }
  }

  lemma HoldKeepsApprovals(approvals: map<Id, Approval>, deals: map<Id, Deal>, a: Approval, newDeal: Deal)
    requires ApprovalsSound(approvals, deals)
    requires a.approvalId !in approvals && a.status.Pending? && a.dealId in deals
    requires newDeal.openApprovals == deals[a.dealId].openApprovals + 1
    ensures ApprovalsSound(approvals[a.approvalId := a], deals[a.dealId := newDeal])
  {
    forall d | d in deals ensures |PendingOf(approvals[a.approvalId := a], d)| == deals[a.dealId := newDeal][d].openApprovals {
      PendingAfterOpening(approvals, a, d);
    }
  }

  lemma SameCountKeepsApprovals(approvals: map<Id, Approval>, deals: map<Id, Deal>, d: Id, newDeal: Deal)
    requires ApprovalsSound(approvals, deals) && d in deals && newDeal.openApprovals == deals[d].openApprovals
    ensures ApprovalsSound(approvals, deals[d := newDeal])
  {
  }

  // Deciding a pending row closes exactly one; while it is pending the deal counts at least one.
  lemma DecideKeepsApprovals(approvals: map<Id, Approval>, deals: map<Id, Deal>, id: Id, a: Approval, newDeal: Deal)
    requires ApprovalsSound(approvals, deals)
    requires id in approvals && approvals[id].status.Pending? && approvals[id].dealId == a.dealId
    requires a.approvalId == id && !a.status.Pending?
    ensures deals[a.dealId].openApprovals >= 1
    ensures newDeal.openApprovals == deals[a.dealId].openApprovals - 1 ==>
              ApprovalsSound(approvals[id := a], deals[a.dealId := newDeal])
  {
    assert id in PendingOf(approvals, a.dealId);
    forall d | d in deals
      ensures |PendingOf(approvals[id := a], d)| == |PendingOf(approvals, d)| - (if a.dealId == d then 1 else 0)
    {
      assert PendingOf(approvals[id := a], d) == PendingOf(approvals, d) - (if a.dealId == d then {id} else {});
    }
  }

  lemma RegisterKeepsApprovals(approvals: map<Id, Approval>, deals: map<Id, Deal>, d: Id)
    requires ApprovalsSound(approvals, deals) && d !in deals
    ensures ApprovalsSound(approvals, deals[d := NewDeal(d)])
  {
    assert PendingOf(approvals, d) == {};
  }

  /* ----- every step keeps it ----- */

  lemma AppendKeepsDealsSound(l: Ledger, d: Id, plan: Plan, signer: Signer)
    requires DealsSound(l.deals, l.chains, signer.key) && d in l.deals && PlanSound(l.deals[d], plan)
    ensures DealsSound(l.deals[d := plan.newDeal], Extended(l.chains, d, plan, signer), signer.key)
  {
    hide Seal;
    AppendKeepsDealSound(l.deals[d], l.chains[d], plan, signer);
  }

  lemma RegisterKeepsSound(l: Ledger, dealId: Id, record: AuthorityRecord, createdAt: Instant, key: Key)
    requires Sound(l, key)
    ensures Sound(RegisterDealOn(l, dealId, record, createdAt), key)
  {
    if dealId !in l.deals {
      RegisterKeepsApprovals(l.approvals, l.deals, dealId);
      var deals, chains := l.deals[dealId := NewDeal(dealId)], l.chains[dealId := []];
      assert DealSound(NewDeal(dealId), [], dealId, key);
      assert DealsSound(deals, chains, key);
    }
  }

  lemma RequestKeepsSound(l: Ledger, req: CommitRequest, ids: Ids, signer: Signer)
    requires Sound(l, signer.key) && ids.approvalId !in l.approvals
    ensures Sound(CommitRequestOn(l, req, ids, signer).1, signer.key)
  {
    hide Seal, PlanRequest;
    if req.dealId in l.deals {
      var deal := l.deals[req.dealId];
      assert DealSound(deal, l.chains[req.dealId], req.dealId, signer.key);
      var planned := PlanTransition(deal, req.action, req.decision.outcome);
      if planned.Proceed? {
        RequestPlanSound(deal, req, planned.event, ids);
        RequestAppendKeepsSound(l, req, planned.event, ids, signer);
      }
    }
  }

  // A hold opens one pending row on its deal and counts it; any other plan leaves the count.
  lemma RequestOpensWhatItCounts(deal: Deal, req: CommitRequest, event: Option<DealEvent>, ids: Ids)
    requires event.Some? ==> TransitionFor(deal.state, event.value).Some?
    ensures var plan := PlanRequest(deal, req, event, ids);
      if plan.approval.None? then plan.newDeal.openApprovals == deal.openApprovals
      else
        && plan.approval.value.approvalId == ids.approvalId && plan.approval.value.status.Pending?
        && plan.approval.value.dealId == req.dealId && plan.newDeal.openApprovals == deal.openApprovals + 1
  {
  }

  lemma RequestAppendKeepsSound(l: Ledger, req: CommitRequest, event: Option<DealEvent>, ids: Ids, signer: Signer)
    requires Sound(l, signer.key) && ids.approvalId !in l.approvals && req.dealId in l.deals
    requires event.Some? ==> TransitionFor(l.deals[req.dealId].state, event.value).Some?
    requires PlanSound(l.deals[req.dealId], PlanRequest(l.deals[req.dealId], req, event, ids))
    ensures var plan := PlanRequest(l.deals[req.dealId], req, event, ids);
      var deals := l.deals[req.dealId := plan.newDeal];
      DealsSound(deals, Extended(l.chains, req.dealId, plan, signer), signer.key)
      && ApprovalsSound(WithRow(l.approvals, plan.approval), deals)
  {
    hide Seal, PlanRequest, PlanSound, DealsSound, ApprovalsSound;
    var plan := PlanRequest(l.deals[req.dealId], req, event, ids);
    AppendKeepsDealsSound(l, req.dealId, plan, signer);
    RequestOpensWhatItCounts(l.deals[req.dealId], req, event, ids);
    if plan.approval.Some? {
      HoldKeepsApprovals(l.approvals, l.deals, plan.approval.value, plan.newDeal);
    } else {
      SameCountKeepsApprovals(l.approvals, l.deals, req.dealId, plan.newDeal);
    }
  }

  lemma TransitionKeepsSound(l: Ledger, req: TransitionRequest, ids: Ids, signer: Signer)
    requires Sound(l, signer.key)
    ensures Sound(CommitTransitionOn(l, req, ids, signer).1, signer.key)
  {
    hide Seal, DealsSound, ApprovalsSound, PlanBoundary, TransitionFor;
    if req.dealId in l.deals && TransitionFor(l.deals[req.dealId].state, req.event).Some? {
      BoundaryAppendKeepsSound(l, req, TransitionFor(l.deals[req.dealId].state, req.event).value, ids, signer);
    }
  }

  lemma BoundaryAppendKeepsSound(l: Ledger, req: TransitionRequest, target: DealState, ids: Ids, signer: Signer)
    requires Sound(l, signer.key) && req.dealId in l.deals
    requires TransitionFor(l.deals[req.dealId].state, req.event) == Some(target)
    ensures var plan := PlanBoundary(l.deals[req.dealId], req, target, ids);
      var deals := l.deals[req.dealId := plan.newDeal];
      DealsSound(deals, Extended(l.chains, req.dealId, plan, signer), signer.key) && ApprovalsSound(l.approvals, deals)
  {
    hide Seal, PlanSound, ApprovalsSound, TransitionFor, ChainValid, Extended, Replay, Linked;
    var deal := l.deals[req.dealId];
    assert DealSound(deal, l.chains[req.dealId], req.dealId, signer.key);
    var plan := PlanBoundary(deal, req, target, ids);
    BoundaryPlanSound(deal, req, target, ids);
    AppendKeepsDealsSound(l, req.dealId, plan, signer);
    SameCountKeepsApprovals(l.approvals, l.deals, req.dealId, plan.newDeal);
  }

  lemma ApprovalKeepsSound(l: Ledger, req: ApprovalRequest, ids: Ids, signer: Signer)
    requires Sound(l, signer.key)
    requires req.approvalId in l.approvals ==> Matches(req, l.approvals[req.approvalId])
    ensures Sound(CommitApprovalOn(l, req, ids, signer).1, signer.key)
  {
    hide Seal, PlanApproval, ApprovalAbort;
    if CommitApprovalOn(l, req, ids, signer).0.outcome.Committed? {
      var approval := l.approvals[req.approvalId];
      var (record, revoked) := GrantInputs(l, approval, req.occurredAt);
      DecisionKeepsSound(l, req, record, revoked, ids, signer);
    }
  }

  lemma DecisionKeepsSound(l: Ledger, req: ApprovalRequest, record: Option<Mandate>, revoked: bool, ids: Ids,
                           signer: Signer)
    requires Sound(l, signer.key)
    requires req.approvalId in l.approvals && Matches(req, l.approvals[req.approvalId])
    requires l.approvals[req.approvalId].status.Pending? && req.dealId in l.deals
    requires req.operation.Grant? ==> req.approvalRecord.Some? && req.action.Token?
    ensures var plan := PlanApproval(l.deals[req.dealId], l.approvals[req.approvalId], req, record, revoked, ids);
      var deals := l.deals[req.dealId := plan.newDeal];
      DealsSound(deals, Extended(l.chains, req.dealId, plan, signer), signer.key)
      && ApprovalsSound(l.approvals[req.approvalId := plan.approval.value], deals)
  {
    hide Seal, PlanApproval;
    var deal := l.deals[req.dealId];
    var plan := PlanApproval(deal, l.approvals[req.approvalId], req, record, revoked, ids);
    assert DealSound(deal, l.chains[req.dealId], req.dealId, signer.key);
    DecideKeepsApprovals(l.approvals, l.deals, req.approvalId, plan.approval.value, plan.newDeal);
    ApprovalPlanSound(deal, l.approvals[req.approvalId], req, record, revoked, ids);
    AppendKeepsDealsSound(l, req.dealId, plan, signer);
  }

  lemma RevocationKeepsSound(l: Ledger, req: RevocationRequest, ids: Ids, signer: Signer)
    requires Sound(l, signer.key)
    ensures Sound(CommitRevocationOn(l, req, ids, signer).1, signer.key)
  {
    hide Seal, DealsSound, ApprovalsSound, HasRevocation, PlanRevocation;
    if req.dealId in l.deals {
      RevocationAppendKeepsSound(l, req, ids, signer);
    }
  }

  lemma RevocationAppendKeepsSound(l: Ledger, req: RevocationRequest, ids: Ids, signer: Signer)
    requires Sound(l, signer.key) && req.dealId in l.deals
    ensures DealsSound(l.deals, Extended(l.chains, req.dealId, PlanRevocation(l.deals[req.dealId], req, ids), signer), signer.key)
  {
    hide Seal;
    var plan := PlanRevocation(l.deals[req.dealId], req, ids);
    assert DealSound(l.deals[req.dealId], l.chains[req.dealId], req.dealId, signer.key);
    RevocationPlanSound(l.deals[req.dealId], req, ids);
    AppendKeepsDealsSound(l, req.dealId, plan, signer);
    assert l.deals[req.dealId := plan.newDeal] == l.deals;
  }

  lemma StepKeepsSound(l: Ledger, step: Step, signer: Signer)
    requires Sound(l, signer.key) && Admissible(l, step)
    ensures Sound(Next(l, step, signer), signer.key)
  {
    match step
    case Register(dealId, record, createdAt) => RegisterKeepsSound(l, dealId, record, createdAt, signer.key);
    case Propose(pi, recordedAt, ids) => RequestKeepsSound(l, RequestOf(pi, recordedAt), ids, signer);
    case Boundary(req, ids) => TransitionKeepsSound(l, req, ids, signer);
    case Decide(req, ids) => ApprovalKeepsSound(l, req, ids, signer);
    case Revoke(req, ids) => RevocationKeepsSound(l, req, ids, signer);
  }

  // In every state of every run each chain verifies, links from state to state along the table and
  // replays to the stored deal, and open approvals are the pending rows.
  lemma {:induction false} EveryRunIsSound(trace: seq<Ledger>, steps: seq<Step>, signer: Signer, i: nat)
    requires Run(trace, steps, signer) && i < |trace|
    ensures Sound(trace[i], signer.key)
    decreases i
  {
    if i > 0 {
      EveryRunIsSound(trace, steps, signer, i - 1);
      assert StepAt(trace, steps, signer, i - 1);
      StepKeepsSound(trace[i - 1], steps[i - 1], signer);
    }
  }
}
