/** Exactly once: one decision event per idempotency key and request, one event per command, answers that never change. */
module Once {
  import opened Common
  import opened Deals
  import opened Crypto
  import opened Authority
  import opened Policy
  import opened Chain
  import opened Plans
  import opened Ledger
  import opened History
  import opened Runs
  import opened Trail

  // The keys that must be used at most once.
  datatype Claim = IdempotencyKey(key: Id) | RequestKey(requestId: Id) | CommandKey(commandId: Id)

  function ClaimsOf(p: Payload): set<Claim> {
    match p
    case DecisionMade(requestId, _, _, _, _, _, _, key, _) => {IdempotencyKey(key), RequestKey(requestId)}
    case CommandTransition(commandId, _, _, _, _, _) => {CommandKey(commandId)}
    case GrantedApproval(_, _, _, commandId, _, _) => {CommandKey(commandId)}
    case DeniedApproval(_, _, _, commandId, _, _) => {CommandKey(commandId)}
    case _ => {}
  }

  type Decisions = map<Id, (ProposalDigest, PolicyDecision)>

  // The seen-stores as one predicate.
  predicate Taken(decisions: Decisions, requests: set<Id>, commands: set<Id>, c: Claim) {
    match c
    case IdempotencyKey(key) => key in decisions
    case RequestKey(id) => id in requests
    case CommandKey(id) => id in commands
  }

  predicate At(chains: map<Id, seq<Event>>, d: Id, i: int) { d in chains && 0 <= i < |chains[d]| }

  function PayloadAt(chains: map<Id, seq<Event>>, d: Id, i: int): Payload
    requires At(chains, d, i)
  {
    chains[d][i].form.payload
  }

  // The event shows the decision the store would answer with.
  predicate ShowsStored(e: Event, decisions: Decisions) {
    var p := e.form.payload;
    p.DecisionMade? ==>
      && p.idempotencyKey in decisions
      && decisions[p.idempotencyKey] ==
           (p.proposalDigest,
            PolicyDecision(p.outcome, p.reasonCode, p.matchedRule, decisions[p.idempotencyKey].1.authorityRecordId, p.evaluatedAt))
      && e.form.authorityRecordId == Some(decisions[p.idempotencyKey].1.authorityRecordId)
  }

  ghost predicate ClaimsTaken(chains: map<Id, seq<Event>>, decisions: Decisions, requests: set<Id>, commands: set<Id>) {
    forall d, i | At(chains, d, i) ::
      forall c | c in ClaimsOf(PayloadAt(chains, d, i)) :: Taken(decisions, requests, commands, c)
  }

  ghost predicate DecisionsShown(chains: map<Id, seq<Event>>, decisions: Decisions) {
    forall d, i | At(chains, d, i) :: ShowsStored(chains[d][i], decisions)
  }

  // No two events anywhere in the ledger carry the same claim.
  ghost predicate ClaimsUnique(chains: map<Id, seq<Event>>) {
    forall d, i, e, j | At(chains, d, i) && At(chains, e, j) && (d != e || i != j) ::
      ClaimsOf(PayloadAt(chains, d, i)) !! ClaimsOf(PayloadAt(chains, e, j))
  }

  // Every stored decision has its event.
  ghost predicate KeysBacked(chains: map<Id, seq<Event>>, decisions: Decisions) {
    forall key | key in decisions ::
      exists d, i :: At(chains, d, i) && IdempotencyKey(key) in ClaimsOf(PayloadAt(chains, d, i))
  }

  ghost predicate OnceOnly(l: Ledger) {
    && ClaimsTaken(l.chains, l.decisions, l.seenRequests, l.seenCommands)
    && DecisionsShown(l.chains, l.decisions)
    && ClaimsUnique(l.chains)
    && KeysBacked(l.chains, l.decisions)
  }

  /* ----- appending ----- */

  predicate FreshEntries(plan: Plan, decisions: Decisions, requests: set<Id>, commands: set<Id>) {
    && (forall e | e in plan.entries :: forall c | c in ClaimsOf(e.payload) :: !Taken(decisions, requests, commands, c))
    && (forall i, j | 0 <= i < j < |plan.entries| :: ClaimsOf(plan.entries[i].payload) !! ClaimsOf(plan.entries[j].payload))
  }

  lemma PayloadAfter(chains: map<Id, seq<Event>>, d: Id, plan: Plan, signer: Signer, x: Id, i: int)
    requires d in chains && At(Extended(chains, d, plan, signer), x, i)
    ensures At(chains, x, i) ==> Extended(chains, d, plan, signer)[x][i] == chains[x][i]
    ensures !At(chains, x, i) ==> (
      && x == d && 0 <= i - |chains[d]| < |plan.entries|
      && PayloadAt(Extended(chains, d, plan, signer), x, i) == plan.entries[i - |chains[d]|].payload
      && Extended(chains, d, plan, signer)[x][i].form.authorityRecordId == plan.header.authorityRecordId)
  {
  }

  lemma AppendKeepsUnique(chains: map<Id, seq<Event>>, decisions: Decisions, requests: set<Id>, commands: set<Id>,
                          d: Id, plan: Plan, signer: Signer)
    requires ClaimsTaken(chains, decisions, requests, commands) && ClaimsUnique(chains) && d in chains
    requires FreshEntries(plan, decisions, requests, commands)
    ensures ClaimsUnique(Extended(chains, d, plan, signer))
  {
    var longer := Extended(chains, d, plan, signer);
    forall x, i, y, j | At(longer, x, i) && At(longer, y, j) && (x != y || i != j)
      ensures ClaimsOf(PayloadAt(longer, x, i)) !! ClaimsOf(PayloadAt(longer, y, j))
    {
      PayloadAfter(chains, d, plan, signer, x, i);
      PayloadAfter(chains, d, plan, signer, y, j);
      if At(chains, x, i) && At(chains, y, j) {
        assert ClaimsOf(PayloadAt(chains, x, i)) !! ClaimsOf(PayloadAt(chains, y, j));
      } else if At(chains, x, i) {
        assert plan.entries[j - |chains[d]|] in plan.entries;
        assert forall c | c in ClaimsOf(PayloadAt(chains, x, i)) :: Taken(decisions, requests, commands, c);
      } else if At(chains, y, j) {
        assert plan.entries[i - |chains[d]|] in plan.entries;
        assert forall c | c in ClaimsOf(PayloadAt(chains, y, j)) :: Taken(decisions, requests, commands, c);
      } else if i < j {
        assert ClaimsOf(plan.entries[i - |chains[d]|].payload) !! ClaimsOf(plan.entries[j - |chains[d]|].payload);
      } else {
        assert ClaimsOf(plan.entries[j - |chains[d]|].payload) !! ClaimsOf(plan.entries[i - |chains[d]|].payload);
      }
    }
  }

  lemma AppendKeepsTaken(chains: map<Id, seq<Event>>, decisions: Decisions, requests: set<Id>, commands: set<Id>,
                         decisions': Decisions, requests': set<Id>, commands': set<Id>, d: Id, plan: Plan, signer: Signer)
    requires ClaimsTaken(chains, decisions, requests, commands) && d in chains
    requires decisions.Keys <= decisions'.Keys && requests <= requests' && commands <= commands'
    requires forall e | e in plan.entries :: forall c | c in ClaimsOf(e.payload) :: Taken(decisions', requests', commands', c)
    ensures ClaimsTaken(Extended(chains, d, plan, signer), decisions', requests', commands')
  {
    var longer := Extended(chains, d, plan, signer);
    forall x, i | At(longer, x, i)
      ensures forall c | c in ClaimsOf(PayloadAt(longer, x, i)) :: Taken(decisions', requests', commands', c)
    {
      PayloadAfter(chains, d, plan, signer, x, i);
      if At(chains, x, i) {
        forall c | c in ClaimsOf(PayloadAt(chains, x, i)) ensures Taken(decisions', requests', commands', c) {
          assert Taken(decisions, requests, commands, c);
        }
      } else {
        assert plan.entries[i - |chains[d]|] in plan.entries;
      }
    }
  }

  lemma AppendKeepsKeysBacked(chains: map<Id, seq<Event>>, decisions: Decisions, d: Id, plan: Plan, signer: Signer)
    requires KeysBacked(chains, decisions) && d in chains
    ensures KeysBacked(Extended(chains, d, plan, signer), decisions)
  {
    var longer := Extended(chains, d, plan, signer);
    forall key | key in decisions
      ensures exists x, i :: At(longer, x, i) && IdempotencyKey(key) in ClaimsOf(PayloadAt(longer, x, i))
    {
      var x, i :| At(chains, x, i) && IdempotencyKey(key) in ClaimsOf(PayloadAt(chains, x, i));
      assert At(longer, x, i);
      PayloadAfter(chains, d, plan, signer, x, i);
    }
  }

  // A commit without a policy decision: the decision store is as it was.
  lemma CommandKeepsOnce(l: Ledger, d: Id, plan: Plan, signer: Signer, commands: set<Id>)
    requires OnceOnly(l) && d in l.chains && l.seenCommands <= commands
    requires forall e | e in plan.entries :: !e.payload.DecisionMade?
    requires FreshEntries(plan, l.decisions, l.seenRequests, l.seenCommands)
    requires forall e | e in plan.entries :: forall c | c in ClaimsOf(e.payload) :: Taken(l.decisions, l.seenRequests, commands, c)
    ensures var longer := Extended(l.chains, d, plan, signer);
      ClaimsTaken(longer, l.decisions, l.seenRequests, commands) && DecisionsShown(longer, l.decisions)
      && ClaimsUnique(longer) && KeysBacked(longer, l.decisions)
  {
    AppendKeepsUnique(l.chains, l.decisions, l.seenRequests, l.seenCommands, d, plan, signer);
    AppendKeepsTaken(l.chains, l.decisions, l.seenRequests, l.seenCommands, l.decisions, l.seenRequests, commands, d,
      plan, signer);
    AppendKeepsKeysBacked(l.chains, l.decisions, d, plan, signer);
    var longer := Extended(l.chains, d, plan, signer);
    forall x, i | At(longer, x, i) ensures ShowsStored(longer[x][i], l.decisions) {
      PayloadAfter(l.chains, d, plan, signer, x, i);
      if !At(l.chains, x, i) { assert plan.entries[i - |l.chains[d]|] in plan.entries; }
    }
  }

  lemma RequestEntries(deal: Deal, req: CommitRequest, event: Option<DealEvent>, ids: Ids)
    requires event.Some? ==> TransitionFor(deal.state, event.value).Some?
    ensures var plan := PlanRequest(deal, req, event, ids);
      var n := |MessageEntries(req, ids)|;
      && n < |plan.entries| && plan.entries[n] == DecisionEntry(req, ids)
      && plan.header.authorityRecordId == Some(req.authorityRecordId)
      && forall i | 0 <= i < |plan.entries| && i != n :: ClaimsOf(plan.entries[i].payload) == {} && !plan.entries[i].payload.DecisionMade?
  {
  }

  lemma DecisionsShownAfterRequest(chains: map<Id, seq<Event>>, decisions: Decisions, deal: Deal, req: CommitRequest,
                                   event: Option<DealEvent>, ids: Ids, signer: Signer)
    requires DecisionsShown(chains, decisions) && req.dealId in chains
    requires event.Some? ==> TransitionFor(deal.state, event.value).Some?
    requires req.idempotencyKey !in decisions && req.decision.authorityRecordId == req.authorityRecordId
    ensures DecisionsShown(Extended(chains, req.dealId, PlanRequest(deal, req, event, ids), signer),
                           decisions[req.idempotencyKey := (req.proposalDigest, req.decision)])
  {
    var plan := PlanRequest(deal, req, event, ids);
    var longer := Extended(chains, req.dealId, plan, signer);
    var decisions' := decisions[req.idempotencyKey := (req.proposalDigest, req.decision)];
    RequestEntries(deal, req, event, ids);
    forall x, i | At(longer, x, i) ensures ShowsStored(longer[x][i], decisions') {
      PayloadAfter(chains, req.dealId, plan, signer, x, i);
      if At(chains, x, i) { assert ShowsStored(chains[x][i], decisions); }
    }
  }

  lemma RequestKeepsOnce(l: Ledger, deal: Deal, req: CommitRequest, event: Option<DealEvent>, ids: Ids, signer: Signer)
    requires OnceOnly(l) && req.dealId in l.chains
    requires event.Some? ==> TransitionFor(deal.state, event.value).Some?
    requires req.idempotencyKey !in l.decisions && req.requestId !in l.seenRequests
    requires req.decision.authorityRecordId == req.authorityRecordId
    ensures var longer := Extended(l.chains, req.dealId, PlanRequest(deal, req, event, ids), signer);
      var decisions' := l.decisions[req.idempotencyKey := (req.proposalDigest, req.decision)];
      ClaimsTaken(longer, decisions', l.seenRequests + {req.requestId}, l.seenCommands)
      && DecisionsShown(longer, decisions') && ClaimsUnique(longer) && KeysBacked(longer, decisions')
  {
    hide PlanRequest, Seal, ShowsStored, ClaimsUnique, DecisionsShown;
    var plan := PlanRequest(deal, req, event, ids);
    var d, n := req.dealId, |MessageEntries(req, ids)|;
    var decisions' := l.decisions[req.idempotencyKey := (req.proposalDigest, req.decision)];
    var longer := Extended(l.chains, d, plan, signer);
    RequestEntries(deal, req, event, ids);
    forall e | e in plan.entries && ClaimsOf(e.payload) != {} ensures e == DecisionEntry(req, ids) {
      var i :| 0 <= i < |plan.entries| && plan.entries[i] == e;
    }
    assert FreshEntries(plan, l.decisions, l.seenRequests, l.seenCommands);
    AppendKeepsUnique(l.chains, l.decisions, l.seenRequests, l.seenCommands, d, plan, signer);
    AppendKeepsTaken(l.chains, l.decisions, l.seenRequests, l.seenCommands,
                     decisions', l.seenRequests + {req.requestId}, l.seenCommands, d, plan, signer);
    DecisionsShownAfterRequest(l.chains, l.decisions, deal, req, event, ids, signer);
    AppendKeepsKeysBacked(l.chains, l.decisions, d, plan, signer);
    var at := |l.chains[d]| + n;
    assert At(longer, d, at);
    PayloadAfter(l.chains, d, plan, signer, d, at);
    assert IdempotencyKey(req.idempotencyKey) in ClaimsOf(PayloadAt(longer, d, at));
  }

  /* ----- every step keeps it ----- */

  lemma ProposeStepKeepsOnce(l: Ledger, pi: PolicyInput, recordedAt: Instant, ids: Ids, signer: Signer)
    requires l.deals.Keys == l.chains.Keys && OnceOnly(l)
    ensures OnceOnly(ProcessRequestOn(l, pi, recordedAt, ids, signer).1)
  {
    var req := RequestOf(pi, recordedAt);
    if CheckAntiReplay(l, pi).Pass? && req.dealId in l.deals {
      var deal := l.deals[req.dealId];
      var planned := PlanTransition(deal, req.action, req.decision.outcome);
      if planned.Proceed? { RequestKeepsOnce(l, deal, req, planned.event, ids, signer); }
    }
  }

  lemma BoundaryEntries(deal: Deal, req: TransitionRequest, target: DealState, ids: Ids)
    ensures var plan := PlanBoundary(deal, req, target, ids);
      && (forall e | e in plan.entries :: !e.payload.DecisionMade? && ClaimsOf(e.payload) <= {CommandKey(req.commandId)})
      && forall i, j | 0 <= i < j < |plan.entries| :: ClaimsOf(plan.entries[i].payload) !! ClaimsOf(plan.entries[j].payload)
  {
  }

  lemma BoundaryStepKeepsOnce(l: Ledger, req: TransitionRequest, ids: Ids, signer: Signer)
    requires l.deals.Keys == l.chains.Keys && OnceOnly(l)
    ensures OnceOnly(CommitTransitionOn(l, req, ids, signer).1)
  {
    hide Seal, PlanBoundary, ClaimsOf, ClaimsTaken, ClaimsUnique, DecisionsShown, KeysBacked;
    if CommitTransitionOn(l, req, ids, signer).0.outcome.Committed? {
      var deal := l.deals[req.dealId];
      var target := TransitionFor(deal.state, req.event).value;
      BoundaryEntries(deal, req, target, ids);
      CommandKeepsOnce(l, req.dealId, PlanBoundary(deal, req, target, ids), signer, l.seenCommands + {req.commandId});
    }
  }

  lemma ApprovalEntries(deal: Deal, a: Approval, req: ApprovalRequest, record: Option<Mandate>, revoked: bool, ids: Ids)
    requires req.operation.Grant? ==> req.approvalRecord.Some? && req.action.Token?
    ensures var plan := PlanApproval(deal, a, req, record, revoked, ids);
      && 1 <= |plan.entries| <= 2
      && (forall i | 0 <= i < |plan.entries| :: !plan.entries[i].payload.DecisionMade?)
      && ClaimsOf(plan.entries[0].payload) == {CommandKey(req.commandId)}
      && (|plan.entries| == 2 ==> ClaimsOf(plan.entries[1].payload) == {})
  {
  }

  lemma DecisionKeepsOnce(l: Ledger, deal: Deal, a: Approval, req: ApprovalRequest, record: Option<Mandate>,
                          revoked: bool, ids: Ids, signer: Signer)
    requires OnceOnly(l) && req.dealId in l.chains && req.commandId !in l.seenCommands
    requires req.operation.Grant? ==> req.approvalRecord.Some? && req.action.Token?
    ensures var longer := Extended(l.chains, req.dealId, PlanApproval(deal, a, req, record, revoked, ids), signer);
      var commands := l.seenCommands + {req.commandId};
      ClaimsTaken(longer, l.decisions, l.seenRequests, commands) && DecisionsShown(longer, l.decisions)
      && ClaimsUnique(longer) && KeysBacked(longer, l.decisions)
  {
    var plan := PlanApproval(deal, a, req, record, revoked, ids);
    ApprovalEntries(deal, a, req, record, revoked, ids);
    forall e | e in plan.entries ensures ClaimsOf(e.payload) <= {CommandKey(req.commandId)} && !e.payload.DecisionMade? {
      var i :| 0 <= i < |plan.entries| && plan.entries[i] == e;
    }
    CommandKeepsOnce(l, req.dealId, plan, signer, l.seenCommands + {req.commandId});
  }

  lemma ApprovalStepKeepsOnce(l: Ledger, req: ApprovalRequest, ids: Ids, signer: Signer)
    requires l.deals.Keys == l.chains.Keys && OnceOnly(l)
    ensures OnceOnly(CommitApprovalOn(l, req, ids, signer).1)
  {
    if CommitApprovalOn(l, req, ids, signer).0.outcome.Committed? {
      var a := l.approvals[req.approvalId];
      var (record, revoked) := GrantInputs(l, a, req.occurredAt);
      DecisionKeepsOnce(l, l.deals[req.dealId], a, req, record, revoked, ids, signer);
    }
  }

  lemma RevokeStepKeepsOnce(l: Ledger, req: RevocationRequest, ids: Ids, signer: Signer)
    requires l.deals.Keys == l.chains.Keys && OnceOnly(l)
    ensures OnceOnly(CommitRevocationOn(l, req, ids, signer).1)
  {
    if CommitRevocationOn(l, req, ids, signer).0.outcome.Committed? {
      CommandKeepsOnce(l, req.dealId, PlanRevocation(l.deals[req.dealId], req, ids), signer,
        l.seenCommands + {req.commandId});
    }
  }

  lemma EmptyChainKeepsOnce(chains: map<Id, seq<Event>>, decisions: Decisions, requests: set<Id>, commands: set<Id>,
                            d: Id)
    requires ClaimsTaken(chains, decisions, requests, commands) && DecisionsShown(chains, decisions) && ClaimsUnique(chains)
    requires d !in chains
    ensures var more := chains[d := []];
      ClaimsTaken(more, decisions, requests, commands) && DecisionsShown(more, decisions) && ClaimsUnique(more)
  {
    var more := chains[d := []];
    forall x, i | At(more, x, i) ensures At(chains, x, i) && more[x] == chains[x] { }
    forall x, i, y, j | At(more, x, i) && At(more, y, j) && (x != y || i != j)
      ensures ClaimsOf(PayloadAt(more, x, i)) !! ClaimsOf(PayloadAt(more, y, j))
    {
      assert ClaimsOf(PayloadAt(chains, x, i)) !! ClaimsOf(PayloadAt(chains, y, j));
    }
  }

  lemma EmptyChainKeepsKeysBacked(chains: map<Id, seq<Event>>, decisions: Decisions, d: Id)
    requires KeysBacked(chains, decisions) && d !in chains
    ensures KeysBacked(chains[d := []], decisions)
  {
    var more := chains[d := []];
    forall key | key in decisions
      ensures exists x, i :: At(more, x, i) && IdempotencyKey(key) in ClaimsOf(PayloadAt(more, x, i))
    {
      var x, i :| At(chains, x, i) && IdempotencyKey(key) in ClaimsOf(PayloadAt(chains, x, i));
      assert At(more, x, i) && PayloadAt(more, x, i) == PayloadAt(chains, x, i);
    }
  }

  lemma RegisterStepKeepsOnce(l: Ledger, dealId: Id, record: AuthorityRecord, createdAt: Instant)
    requires l.deals.Keys == l.chains.Keys && OnceOnly(l)
    ensures OnceOnly(RegisterDealOn(l, dealId, record, createdAt))
  {
    if dealId !in l.deals {
      EmptyChainKeepsOnce(l.chains, l.decisions, l.seenRequests, l.seenCommands, dealId);
      EmptyChainKeepsKeysBacked(l.chains, l.decisions, dealId);
    }
  }

  lemma StepKeepsOnce(l: Ledger, step: Step, signer: Signer)
    requires l.deals.Keys == l.chains.Keys && OnceOnly(l)
    ensures OnceOnly(Next(l, step, signer))
  {
    hide RegisterDealOn, ProcessRequestOn, CommitTransitionOn, CommitApprovalOn, CommitRevocationOn;
    match step
    case Register(dealId, record, createdAt) => RegisterStepKeepsOnce(l, dealId, record, createdAt);
    case Propose(pi, recordedAt, ids) => ProposeStepKeepsOnce(l, pi, recordedAt, ids, signer);
    case Boundary(req, ids) => BoundaryStepKeepsOnce(l, req, ids, signer);
    case Decide(req, ids) => ApprovalStepKeepsOnce(l, req, ids, signer);
    case Revoke(req, ids) => RevokeStepKeepsOnce(l, req, ids, signer);
  }

  // In every state of every run: one decision event per idempotency key and per request, one event
  // per command, and the event shows the decision the store answers with.
  lemma {:induction false} EveryRunDecidesOnce(trace: seq<Ledger>, steps: seq<Step>, signer: Signer, i: nat)
    requires Run(trace, steps, signer) && i < |trace|
    ensures OnceOnly(trace[i])
    decreases i
  {
    if i > 0 {
      EveryRunDecidesOnce(trace, steps, signer, i - 1);
      EveryRunIsSound(trace, steps, signer, i - 1);
      assert StepAt(trace, steps, signer, i - 1);
      StepKeepsOnce(trace[i - 1], steps[i - 1], signer);
    }
  }

  /* ----- answers never change ----- */

  predicate Keeps<K, V(==)>(later: map<K, V>, earlier: map<K, V>) {
    forall k | k in earlier :: k in later && later[k] == earlier[k]
  }

  predicate KeepsDecided(later: map<Id, Approval>, earlier: map<Id, Approval>) {
    forall id | id in earlier :: id in later && (!earlier[id].status.Pending? ==> later[id] == earlier[id])
  }

  predicate Remembers(later: Ledger, earlier: Ledger) {
    && Keeps(later.decisions, earlier.decisions)
    && Keeps(later.nonceOwners, earlier.nonceOwners)
    && earlier.seenRequests <= later.seenRequests
    && earlier.seenCommands <= later.seenCommands
    && KeepsDecided(later.approvals, earlier.approvals)
  }

  lemma ProposeRemembers(l: Ledger, pi: PolicyInput, recordedAt: Instant, ids: Ids, signer: Signer)
    requires ids.approvalId !in l.approvals
    ensures Remembers(ProcessRequestOn(l, pi, recordedAt, ids, signer).1, l)
  {
    hide CommitRequestOn, Evaluate;
    if CheckAntiReplay(l, pi).Pass? { RequestRemembers(l, RequestOf(pi, recordedAt), ids, signer); }
  }

  lemma RequestRemembers(l: Ledger, req: CommitRequest, ids: Ids, signer: Signer)
    requires ids.approvalId !in l.approvals && req.idempotencyKey !in l.decisions
    requires req.record.terms.nonce in l.nonceOwners ==> l.nonceOwners[req.record.terms.nonce] == req.record.terms.recordId
    ensures Remembers(CommitRequestOn(l, req, ids, signer).1, l)
  {
    hide Seal, PlanRequest, Extended;
    if req.dealId in l.deals {
      var deal := l.deals[req.dealId];
      var planned := PlanTransition(deal, req.action, req.decision.outcome);
      if planned.Proceed? { RequestOpensWhatItCounts(deal, req, planned.event, ids); }
    }
  }

  // A command touches none of the answers but the approval it decides.
  lemma CommandRemembers(l: Ledger, l': Ledger)
    requires l'.decisions == l.decisions && l'.nonceOwners == l.nonceOwners
    requires l.seenRequests <= l'.seenRequests && l.seenCommands <= l'.seenCommands
    requires KeepsDecided(l'.approvals, l.approvals)
    ensures Remembers(l', l)
  {
  }

  lemma DecidedRowKeepsDecided(approvals: map<Id, Approval>, id: Id, a: Approval)
    requires id in approvals && approvals[id].status.Pending?
    ensures KeepsDecided(approvals[id := a], approvals)
  {
  }

  lemma SameRowsKeepDecided(approvals: map<Id, Approval>)
    ensures KeepsDecided(approvals, approvals)
  {
  }

  lemma DecideRemembers(l: Ledger, req: ApprovalRequest, ids: Ids, signer: Signer)
    ensures Remembers(CommitApprovalOn(l, req, ids, signer).1, l)
  {
    hide Seal, Remembers, Keeps, KeepsDecided, GrantInputs, ApprovalAbort, PlanApproval;
    var l' := CommitApprovalOn(l, req, ids, signer).1;
    if ApprovalAbort(l, req).None? {
      DecidedRowKeepsDecided(l.approvals, req.approvalId, l'.approvals[req.approvalId]);
    } else {
      SameRowsKeepDecided(l.approvals);
    }
    CommandRemembers(l, l');
  }

  lemma BoundaryRemembers(l: Ledger, req: TransitionRequest, ids: Ids, signer: Signer)
    ensures Remembers(CommitTransitionOn(l, req, ids, signer).1, l)
  {
    hide Seal, Remembers, Keeps, KeepsDecided, TransitionFor, PlanBoundary;
    SameRowsKeepDecided(l.approvals);
    CommandRemembers(l, CommitTransitionOn(l, req, ids, signer).1);
  }

  lemma RevokeRemembers(l: Ledger, req: RevocationRequest, ids: Ids, signer: Signer)
    ensures Remembers(CommitRevocationOn(l, req, ids, signer).1, l)
  {
    hide Seal, Remembers, Keeps, KeepsDecided, HasRevocation, PlanRevocation;
    SameRowsKeepDecided(l.approvals);
    CommandRemembers(l, CommitRevocationOn(l, req, ids, signer).1);
  }

  lemma StepRemembers(l: Ledger, step: Step, signer: Signer)
    requires Admissible(l, step)
    ensures Remembers(Next(l, step, signer), l)
  {
    hide ProcessRequestOn, CommitTransitionOn, CommitApprovalOn, CommitRevocationOn;
    match step
    case Register(dealId, record, createdAt) =>
    case Propose(pi, recordedAt, ids) => ProposeRemembers(l, pi, recordedAt, ids, signer);
    case Boundary(req, ids) => BoundaryRemembers(l, req, ids, signer);
    case Decide(req, ids) => DecideRemembers(l, req, ids, signer);
    case Revoke(req, ids) => RevokeRemembers(l, req, ids, signer);
  }

  lemma RemembersIsTransitive(a: Ledger, b: Ledger, c: Ledger)
    requires Remembers(b, a) && Remembers(c, b)
    ensures Remembers(c, a)
  {
  }

  lemma RunStepRemembers(trace: seq<Ledger>, steps: seq<Step>, signer: Signer, k: nat)
    requires Run(trace, steps, signer) && k < |steps|
    ensures Remembers(trace[k + 1], trace[k])
  {
    assert StepAt(trace, steps, signer, k);
    StepRemembers(trace[k], steps[k], signer);
  }

  lemma RemembersItself(l: Ledger)
    ensures Remembers(l, l)
  {
  }

  // Over any run, a stored decision, the owner of a nonce and a decided approval never change.
  lemma {:induction false} AnswersNeverChange(trace: seq<Ledger>, steps: seq<Step>, signer: Signer, i: nat, j: nat)
    requires Run(trace, steps, signer) && i <= j < |trace|
    ensures Remembers(trace[j], trace[i])
    decreases j
  {
    if i == j {
      RemembersItself(trace[i]);
    } else {
      AnswersNeverChange(trace, steps, signer, i, j - 1);
      RunStepRemembers(trace, steps, signer, j - 1);
      RemembersIsTransitive(trace[i], trace[j - 1], trace[j]);
    }
  }

  // A retry of a proposal decided earlier in the run gets the original decision and changes nothing.
  lemma RetryGetsOriginalDecision(trace: seq<Ledger>, steps: seq<Step>, signer: Signer, i: nat, j: nat,
                                  pi: PolicyInput, recordedAt: Instant, ids: Ids)
    requires Run(trace, steps, signer) && i <= j < |trace|
    requires pi.proposal.idempotencyKey in trace[i].decisions
    requires trace[i].decisions[pi.proposal.idempotencyKey].0 == DigestOf(pi.proposal)
    ensures ProcessRequestOn(trace[j], pi, recordedAt, ids, signer) ==
      (ProcessResult(IdempotentHit(trace[i].decisions[pi.proposal.idempotencyKey].1),
                     Some(trace[i].decisions[pi.proposal.idempotencyKey].1), None), trace[j])
  {
    AnswersNeverChange(trace, steps, signer, i, j);
  }

  // A gate PASS on a known deal commits, unless the engine allowed on the boundary's copy of the
  // deal an action the stored state does not permit; with a current copy it always commits.
  lemma PassCommitsUnlessDealMoved(l: Ledger, pi: PolicyInput, recordedAt: Instant, ids: Ids, signer: Signer)
    requires CheckAntiReplay(l, pi).Pass? && pi.deal.dealId in l.deals
    ensures var outcome := ProcessRequestOn(l, pi, recordedAt, ids, signer).0.commit.value.outcome;
      var stored := l.deals[pi.deal.dealId];
      && (outcome.Committed? <==> !(Evaluate(pi).outcome.Allow? && !ActionValidFrom(pi.proposal.action.token, stored.state)
                                    && ActionEvent(pi.proposal.action.token).Some?))
      && (outcome.Committed? || outcome.StaleState?)
      && (pi.deal.state == stored.state ==> outcome.Committed?)
  {
    if Evaluate(pi).outcome.Allow? {
      DecisionIsFirstFailure(pi);
      assert Holds(Transition, pi);
      var token := pi.proposal.action.token;
      if ActionEvent(token).Some? {
        ActionTableAgrees(token, l.deals[pi.deal.dealId].state);
      }
    }
  }

  /* ----- the auditor ----- */

  function LastOutcome(ps: seq<Payload>, requestId: Id): Option<Outcome> {
    if ps == [] then None
    else
      var last := ps[|ps| - 1];
      if last.DecisionMade? && last.requestId == requestId then Some(last.outcome)
      else LastOutcome(ps[..|ps| - 1], requestId)
  }

  predicate Granted(ps: seq<Payload>, requestId: Id) {
    exists p | p in ps :: p.GrantedApproval? && p.requestId == requestId
  }

  predicate Flagged(ps: seq<Payload>, p: Payload) {
    p.RequestTransition? && LastOutcome(ps, p.requestId) == Some(NeedsApproval) && !Granted(ps, p.requestId)
  }

  // pilot/report.py find_autonomous_commit_violations, reporting the offending positions.
  method FindAutonomousCommitViolations(events: seq<Event>) returns (violations: seq<int>)
    ensures forall i :: i in violations <==> 0 <= i < |events| && Flagged(Payloads(events), Payloads(events)[i])
  {
    var ps := Payloads(events);
    var outcomes: map<Id, Outcome> := map[];
    var granted: set<Id> := {};
    var n := 0;
    while n < |ps|
      invariant 0 <= n <= |ps|
      invariant forall r :: (r in outcomes <==> LastOutcome(ps[..n], r).Some?)
      invariant forall r | r in outcomes :: LastOutcome(ps[..n], r) == Some(outcomes[r])
      invariant forall r :: r in granted <==> Granted(ps[..n], r)
    {
      var p := ps[n];
      assert ps[..n + 1][..n] == ps[..n] && ps[..n + 1] == ps[..n] + [p];
      if p.DecisionMade? {
        outcomes := outcomes[p.requestId := p.outcome];
      } else if p.GrantedApproval? {
        granted := granted + {p.requestId};
      }
      n := n + 1;
    }
    assert ps[..n] == ps;
    violations := [];
    var k := 0;
    while k < |ps|
      invariant 0 <= k <= |ps|
      invariant forall i :: i in violations <==> 0 <= i < k && Flagged(ps, ps[i])
    {
      var p := ps[k];
      if p.RequestTransition? && p.requestId in outcomes && outcomes[p.requestId].NeedsApproval? && p.requestId !in granted {
        violations := violations + [k];
      }
      k := k + 1;
    }
  }

  lemma {:induction false} OnlyDecisionIsLast(ps: seq<Payload>, j: nat)
    requires j < |ps| && ps[j].DecisionMade?
    requires forall k | 0 <= k < |ps| && k != j :: ps[k].DecisionMade? ==> ps[k].requestId != ps[j].requestId
    ensures LastOutcome(ps, ps[j].requestId) == Some(ps[j].outcome)
    decreases |ps|
  {
    if j < |ps| - 1 { OnlyDecisionIsLast(ps[..|ps| - 1], j); }
  }

  lemma NothingFlagged(chains: map<Id, seq<Event>>, d: Id)
    requires d in chains && NoAutonomousMove(Payloads(chains[d])) && ClaimsUnique(chains)
    ensures forall p | p in Payloads(chains[d]) :: !Flagged(Payloads(chains[d]), p)
  {
    var ps := Payloads(chains[d]);
    forall p | p in ps && p.RequestTransition? ensures !Flagged(ps, p) {
      var k :| 0 <= k < |ps| && ps[k] == p;
      assert LicensedAt(ps, k);
      var before := ps[k - 1];
      if before.GrantedApproval? {
        assert before in ps;
      } else {
        forall j | 0 <= j < |ps| && j != k - 1 && ps[j].DecisionMade? ensures ps[j].requestId != before.requestId {
          assert At(chains, d, j) && At(chains, d, k - 1);
          assert RequestKey(before.requestId) in ClaimsOf(PayloadAt(chains, d, k - 1));
          assert RequestKey(ps[j].requestId) in ClaimsOf(PayloadAt(chains, d, j));
        }
        OnlyDecisionIsLast(ps, k - 1);
      }
    }
  }

  // The auditor has nothing to report on any chain of any run.
  lemma AuditorFindsNothing(trace: seq<Ledger>, steps: seq<Step>, signer: Signer, i: nat, d: Id)
    requires Run(trace, steps, signer) && i < |trace| && d in trace[i].chains
    ensures var ps := Payloads(trace[i].chains[d]); forall p | p in ps :: !Flagged(ps, p)
  {
    NoRunCommitsAutonomously(trace, steps, signer, i);
    EveryRunDecidesOnce(trace, steps, signer, i);
    NothingFlagged(trace[i].chains, d);
  }
}
