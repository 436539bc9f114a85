/**
 * What the operations on a deal come to, written out on tokens, events, amounts and dates: the tables of
 * domain/state_machine.py as data, and the whole effect of each commit of ledger/store.py in their terms.
 */
module Effects {
  import opened Common
  import opened Deals
  import opened Crypto
  import opened Authority
  import opened Policy
  import opened Chain
  import opened Plans
  import opened Ledger
  import opened History
  import opened Runs
  import opened Once
  import opened Outcomes

  /* ----- the tables ----- */

  // TRANSITIONS, row by row.
  const TABLE: set<Move> := {
    Move(Draft, DealEvent.QuoteRequested, DealState.QuoteRequested),
    Move(DealState.QuoteRequested, DealEvent.QuoteReceived, DealState.QuoteReceived),
    Move(DealState.QuoteReceived, Counteroffered, Negotiating),
    Move(Negotiating, Counteroffered, Negotiating),
    Move(DealState.QuoteReceived, AgreementReached, Agreed),
    Move(Negotiating, AgreementReached, Agreed),
    Move(Agreed, WorkStarted, InProgress),
    Move(InProgress, DealEvent.ChangeRequested, DealState.ChangeRequested),
    Move(DealState.ChangeRequested, ChangeApproved, InProgress),
    Move(DealState.ChangeRequested, ChangeRejected, InProgress),
    Move(InProgress, CompletionClaimed, Completed),
    Move(Completed, AcceptanceWindowOpened, AcceptanceWindow),
    Move(AcceptanceWindow, DealEvent.Accepted, DealState.Accepted),
    Move(AcceptanceWindow, DisputeOpened, Disputed),
    Move(Disputed, DealEvent.Accepted, DealState.Accepted),
    Move(Disputed, DealEvent.Refunded, DealState.Refunded),
    Move(Disputed, DealEvent.PartiallyRefunded, DealState.PartiallyRefunded),
    Move(DealState.Accepted, PaymentInitiated, PaymentPending),
    Move(PaymentPending, PaymentConfirmed, Captured),
    Move(PaymentPending, PaymentFailed, Failed),
    Move(Failed, Resumed, PaymentPending),
    Move(Draft, DealEvent.Expired, DealState.Expired),
    Move(DealState.QuoteRequested, DealEvent.Expired, DealState.Expired),
    Move(DealState.QuoteReceived, DealEvent.Expired, DealState.Expired),
    Move(Negotiating, DealEvent.Expired, DealState.Expired),
    Move(Agreed, DealEvent.Expired, DealState.Expired),
    Move(Draft, DealEvent.Cancelled, DealState.Cancelled),
    Move(DealState.QuoteRequested, DealEvent.Cancelled, DealState.Cancelled),
    Move(DealState.QuoteReceived, DealEvent.Cancelled, DealState.Cancelled),
    Move(Negotiating, DealEvent.Cancelled, DealState.Cancelled),
    Move(Agreed, DealEvent.Cancelled, DealState.Cancelled),
    Move(InProgress, DealEvent.Cancelled, DealState.Cancelled),
    Move(DealState.ChangeRequested, DealEvent.Cancelled, DealState.Cancelled),
    Move(Completed, DealEvent.Cancelled, DealState.Cancelled),
    Move(AcceptanceWindow, DealEvent.Cancelled, DealState.Cancelled),
    Move(Disputed, DealEvent.Cancelled, DealState.Cancelled),
    Move(DealState.Accepted, DealEvent.Cancelled, DealState.Cancelled),
    Move(PaymentPending, DealEvent.Cancelled, DealState.Cancelled)
  }

  lemma TableIsTransitionFor(m: Move)
    ensures m in TABLE <==> TransitionFor(m.from, m.event) == Some(m.to)
  {
    match m.event
    case Cancelled =>
    case Expired =>
    case _ =>
  }

  // ACTION_VALID_STATES: from where the engine lets an action through.
  function ValidStates(token: ActionToken): set<DealState> {
    match token
    case RequestQuote => {Draft}
    case Counteroffer => {DealState.QuoteReceived, Negotiating}
    case AcceptAgreement => {DealState.QuoteReceived, Negotiating}
    case StartWork => {Agreed}
    case ProposeChange => {InProgress}
    case ApproveChangeOrder => {DealState.ChangeRequested}
    case ClaimCompletion => {InProgress}
    case AcceptCompletion => {AcceptanceWindow, Disputed}
    case OpenDispute => {AcceptanceWindow}
    case InitiatePayment => {DealState.Accepted}
    case CapturePayment => {PaymentPending}
    case CancelDeal =>
      {Draft, DealState.QuoteRequested, DealState.QuoteReceived, Negotiating, Agreed, InProgress,
        DealState.ChangeRequested,
       Completed, AcceptanceWindow, Disputed, DealState.Accepted, PaymentPending}
    case ResolveDispute => {Disputed}
  }

  lemma ValidStatesAreTheTable(token: ActionToken, state: DealState)
    ensures state in ValidStates(token) <==> ActionValidFrom(token, state)
  {
    match token
    case CancelDeal =>
    case _ =>
  }

  // ACTION_EVENTS: the event each action applies; resolve_dispute has none.
  function EventNamed(token: ActionToken): DealEvent
    requires token != ResolveDispute
  {
    match token
    case RequestQuote => DealEvent.QuoteRequested
    case Counteroffer => Counteroffered
    case AcceptAgreement => AgreementReached
    case StartWork => WorkStarted
    case ProposeChange => DealEvent.ChangeRequested
    case ApproveChangeOrder => ChangeApproved
    case ClaimCompletion => CompletionClaimed
    case AcceptCompletion => DealEvent.Accepted
    case OpenDispute => DisputeOpened
    case InitiatePayment => PaymentInitiated
    case CapturePayment => PaymentConfirmed
    case CancelDeal => DealEvent.Cancelled
  }

  /* ----- what an action does to a deal ----- */

  function Paid(amount: Option<int>): int {
    match amount
    case None => 0
    case Some(n) => n
  }

  // The deal after an applied action, for each of the thirteen tokens.
  function Moved(token: ActionToken, amount: Option<int>, deal: Deal): Deal {
    match token
    case RequestQuote => deal.(state := DealState.QuoteRequested)
    case Counteroffer => deal.(state := Negotiating, negotiatedRounds := deal.negotiatedRounds + 1)
    case AcceptAgreement => deal.(state := Agreed, committedMinor := deal.committedMinor + Paid(amount))
    case StartWork => deal.(state := InProgress)
    case ProposeChange => deal.(state := DealState.ChangeRequested)
    case ApproveChangeOrder => deal.(state := InProgress, committedMinor := deal.committedMinor + Paid(amount))
    case ClaimCompletion => deal.(state := Completed)
    case AcceptCompletion =>
      deal.(state := DealState.Accepted,
            openDisputes := if deal.state.Disputed? && deal.openDisputes > 0 then deal.openDisputes - 1
                            else if deal.state.Disputed? then 0 else deal.openDisputes)
    case OpenDispute => deal.(state := Disputed, openDisputes := deal.openDisputes + 1)
    case InitiatePayment => deal.(state := PaymentPending)
    case CapturePayment => deal.(state := Captured)
    case CancelDeal => deal.(state := DealState.Cancelled)
    case ResolveDispute => deal
  }

  // An action planned from a state in its row moves the deal just so; resolve_dispute never moves one.
  lemma PlannedActionMoves(deal: Deal, action: ActionName, amount: Option<int>)
    ensures var planned := PlanTransition(deal, action, Outcome.Allow);
      && (planned.Stale? <==>
            action.Unrecognised? || (!action.token.ResolveDispute? && deal.state !in ValidStates(action.token)))
      && (planned.Proceed? && planned.event.None? ==> action == Token(ResolveDispute))
      && (planned.Proceed? && planned.event.Some? ==>
            && action != Token(ResolveDispute) && planned.event.value == EventNamed(action.token)
            && TransitionFor(deal.state, planned.event.value).Some?
            && ApplyEvent(deal, planned.event.value, TransitionFor(deal.state, planned.event.value).value, amount)
               == Moved(action.token, amount, deal))
  {
    if action.Token? {
      ValidStatesAreTheTable(action.token, deal.state);
      if ActionEvent(action.token).Some? { ActionTableAgrees(action.token, deal.state); }
    }
  }

  function OneFewer(count: int): int { if count > 0 then count - 1 else 0 }

  // apply_action by itself: the move of the token, an error off its states; resolve_dispute closes a dispute.
  lemma ApplyActionWrittenOut(deal: Deal, token: ActionToken, amount: Option<int>)
    ensures ApplyAction(deal, token, amount) ==
      if token.ResolveDispute? then Some(deal.(openDisputes := OneFewer(deal.openDisputes)))
      else if deal.state in ValidStates(token) then Some(Moved(token, amount, deal))
      else None
  {
    PlannedActionMoves(deal, Token(token), amount);
    if !token.ResolveDispute? { assert ActionEvent(token) == Some(EventNamed(token)); }
    hide TransitionFor, ApplyEvent, Moved, ValidStates;
  }

  /* ----- commit_request ----- */

  lemma RequestPlanMoves(deal: Deal, req: CommitRequest, event: Option<DealEvent>, ids: Ids)
    requires PlanTransition(deal, req.action, req.decision.outcome) == Proceed(event)
    ensures event.Some? ==> TransitionFor(deal.state, event.value).Some?
    ensures PlanRequest(deal, req, event, ids).newDeal ==
      match req.decision.outcome
      case Allow => if req.action.Token? then Moved(req.action.token, req.amountMinor, deal) else deal
      case NeedsApproval => deal.(openApprovals := deal.openApprovals + 1)
      case Deny => deal
  {
    PlannedActionMoves(deal, req.action, req.amountMinor);
    if event.None? && req.decision.outcome.Allow? { assert Moved(ResolveDispute, req.amountMinor, deal) == deal; }
    hide TransitionFor, ActionEvent, ApplyEvent, ValidStates, EventNamed, Moved;
  }

  // When a request commits, and what becomes of the deal row: an allowed action moves it, a hold opens
  // an approval, a denial leaves it.
  lemma RequestMovesTheDeal(l: Ledger, req: CommitRequest, ids: Ids, signer: Signer)
    ensures var (result, l') := CommitRequestOn(l, req, ids, signer);
      && (result.outcome.Committed? <==>
            req.dealId in l.deals
            && (req.decision.outcome.Allow? ==>
                  req.action.Token?
                  && (req.action.token.ResolveDispute? || l.deals[req.dealId].state in ValidStates(req.action.token))))
      && (!result.outcome.Committed? ==>
            l' == l && result.outcome == (if req.dealId in l.deals then StaleState else DealNotFound))
      && (result.outcome.Committed? ==>
            var deal := l.deals[req.dealId];
            l'.deals == l.deals[req.dealId :=
              match req.decision.outcome
              case Allow => Moved(req.action.token, req.amountMinor, deal)
              case NeedsApproval => deal.(openApprovals := deal.openApprovals + 1)
              case Deny => deal])
  {
    if req.dealId in l.deals {
      var deal := l.deals[req.dealId];
      PlannedActionMoves(deal, req.action, req.amountMinor);
      var planned := PlanTransition(deal, req.action, req.decision.outcome);
      if planned.Proceed? { RequestPlanMoves(deal, req, planned.event, ids); }
      hide PlanTransition, TransitionFor, ActionEvent, ApplyEvent, ValidStates, EventNamed, Moved, Extended, SealedOn,
        PlanRequest;
    }
  }

  // No commit applies the counter rule of resolve_dispute: an allowed one is logged as decided and
  // leaves the deal as it was, with its dispute open.
  lemma ResolvedDisputeStaysOpen(l: Ledger, req: CommitRequest, ids: Ids, signer: Signer)
    requires req.dealId in l.deals && req.decision.outcome.Allow? && req.action == Token(ResolveDispute)
    ensures var (result, l') := CommitRequestOn(l, req, ids, signer);
      && result.outcome.Committed? && l'.deals == l.deals
      && (l.deals[req.dealId].openDisputes > 0 ==>
            l'.deals[req.dealId] != ApplyAction(l.deals[req.dealId], ResolveDispute, req.amountMinor).value)
  {
    RequestMovesTheDeal(l, req, ids, signer);
    hide CommitRequestOn;
    assert l.deals[req.dealId := l.deals[req.dealId]] == l.deals;
  }

  /* ----- commit_approval ----- */

  // The record an approval was asked under is stored, and at this time neither revoked by any stored
  // revocation of it, nor revoked itself, nor past its end.
  predicate StandsFor(l: Ledger, recordId: Id, now: Instant) {
    && recordId in l.records
    && var terms := l.records[recordId].terms;
      && !terms.status.Revoked? && now <= terms.expiresAt
      && forall id | id in l.revocations ::
           l.revocations[id].fact.recordId == terms.recordId ==> now < l.revocations[id].fact.revokedAt
  }

  // Why a complete grant is turned into a denial, first reason first.
  function WhyDenied(l: Ledger, recordId: Id, now: Instant): DenyReason {
    if recordId !in l.records then RecordMissing
    else
      var terms := l.records[recordId].terms;
      if terms.status.Revoked?
         || exists id | id in l.revocations ::
              l.revocations[id].fact.recordId == terms.recordId && l.revocations[id].fact.revokedAt <= now
      then RecordNotCurrent(RecordStatus.Revoked)
      else if now > terms.expiresAt then RecordNotCurrent(RecordStatus.Expired)
      else TransitionNoLongerValid
  }

  lemma RecheckWrittenOut(l: Ledger, approval: Approval, deal: Deal, token: ActionToken, now: Instant)
    ensures var (record, revoked) := GrantInputs(l, approval, now);
      var recheck := GrantRecheck(record, revoked, deal, token, now);
      if StandsFor(l, approval.authorityRecordId, now) && !token.ResolveDispute? && deal.state in ValidStates(token)
      then recheck == MayApply(EventNamed(token))
      else recheck == MustDeny(WhyDenied(l, approval.authorityRecordId, now))
  {
    ValidStatesAreTheTable(token, deal.state);
    if ActionEvent(token).Some? { ActionTableAgrees(token, deal.state); }
    hide TransitionFor, ActionValidFrom, ValidStates;
  }

  // The approval row after a decision.
  function Closed(approval: Approval, status: ApprovalStatus, req: ApprovalRequest): Approval {
    Approval(approval.approvalId, approval.dealId, approval.requestId, approval.authorityRecordId, approval.action,
             approval.amountMinor, approval.currency, approval.proposalDigest, approval.reasonCode, status,
             Some(req.decidedBy), Some(req.recordedAt), Some(req.commandId), approval.createdAt)
  }

  // A complete grant always commits. It is applied, as the grant and then its transition, if and only if
  // the record stands and the action can move the stored deal; otherwise the commit is one denial, with
  // the first reason that holds, and the deal loses nothing but an open approval.
  lemma GrantIsAppliedIff(l: Ledger, req: ApprovalRequest, ids: Ids, signer: Signer)
    requires DecisionStands(l, req) && req.operation.Grant?
    ensures var (result, l') := CommitApprovalOn(l, req, ids, signer);
      var approval, deal, token := l.approvals[req.approvalId], l.deals[req.dealId], req.action.token;
      var ps := seq(|result.events|, i requires 0 <= i < |result.events| => result.events[i].form.payload);
      && result.outcome.Committed?
      && if StandsFor(l, approval.authorityRecordId, req.occurredAt) && !token.ResolveDispute?
        && deal.state in ValidStates(token)
         then
           var moved := Moved(token, req.amountMinor, deal);
           && l'.deals == l.deals[req.dealId := moved.(openApprovals := OneFewer(deal.openApprovals))]
           && l'.approvals == l.approvals[req.approvalId := Closed(approval, Granted, req)]
           && |ps| == 2
           && ps[0] == GrantedApproval(approval.requestId, req.action, req.amountMinor, req.commandId, req.decidedBy,
                                       req.approvalRecord.value)
           && ps[1] == RequestTransition(approval.requestId, req.action, EventNamed(token), deal.state, moved.state,
             req.amountMinor)
         else
           && l'.deals == l.deals[req.dealId := deal.(openApprovals := OneFewer(deal.openApprovals))]
           && l'.approvals == l.approvals[req.approvalId := Closed(approval, Denied, req)]
           && ps == [DeniedApproval(approval.requestId, req.action, req.amountMinor, req.commandId, req.decidedBy,
                                    Some(WhyDenied(l, approval.authorityRecordId, req.occurredAt)))]
  {
    var approval, deal, token := l.approvals[req.approvalId], l.deals[req.dealId], req.action.token;
    AbortsUnlessItStands(l, req);
    DecisionApplies(l, req, ids, signer);
    RecheckWrittenOut(l, approval, deal, token, req.occurredAt);
    PlannedActionMoves(deal, req.action, req.amountMinor);
    hide CommitApprovalOn, GrantInputs, GrantRecheck, TransitionFor, ActionEvent, ApplyEvent, ValidStates, EventNamed,
      Moved, StandsFor,
      WhyDenied, ApprovalAbort;
  }

  // A complete refusal is one denial with the operator's words, whatever has become of the record.
  lemma RefusalIsADenial(l: Ledger, req: ApprovalRequest, ids: Ids, signer: Signer)
    requires DecisionStands(l, req) && req.operation.Refuse?
    ensures var (result, l') := CommitApprovalOn(l, req, ids, signer);
      var approval, deal := l.approvals[req.approvalId], l.deals[req.dealId];
      && result.outcome.Committed?
      && l'.deals == l.deals[req.dealId := deal.(openApprovals := OneFewer(deal.openApprovals))]
      && l'.approvals == l.approvals[req.approvalId := Closed(approval, Denied, req)]
      && |result.events| == 1
      && result.events[0].form.payload ==
           DeniedApproval(approval.requestId, req.action, req.amountMinor, req.commandId, req.decidedBy,
                          match req.denyReason case None => None case Some(text) => Some(ByOperator(text)))
  {
    AbortsUnlessItStands(l, req);
    DecisionApplies(l, req, ids, signer);
    hide CommitApprovalOn, GrantInputs, ApprovalAbort;
  }

  /* ----- commit_transition ----- */

  // The deal after a boundary event, for each of the twenty.
  function MovedOn(event: DealEvent, amount: Option<int>, deal: Deal): Deal {
    match event
    case QuoteRequested => deal.(state := DealState.QuoteRequested)
    case QuoteReceived => deal.(state := DealState.QuoteReceived)
    case Counteroffered => deal.(state := Negotiating, negotiatedRounds := deal.negotiatedRounds + 1)
    case AgreementReached => deal.(state := Agreed, committedMinor := deal.committedMinor + Paid(amount))
    case WorkStarted => deal.(state := InProgress)
    case ChangeRequested => deal.(state := DealState.ChangeRequested)
    case ChangeApproved => deal.(state := InProgress, committedMinor := deal.committedMinor + Paid(amount))
    case ChangeRejected => deal.(state := InProgress)
    case CompletionClaimed => deal.(state := Completed)
    case AcceptanceWindowOpened => deal.(state := AcceptanceWindow)
    case Accepted => Moved(AcceptCompletion, amount, deal)
    case DisputeOpened => deal.(state := Disputed, openDisputes := deal.openDisputes + 1)
    case PaymentInitiated => deal.(state := PaymentPending)
    case PaymentConfirmed => deal.(state := Captured)
    case PaymentFailed => deal.(state := Failed)
    case Refunded => deal.(state := DealState.Refunded, openDisputes := 0)
    case PartiallyRefunded => deal.(state := DealState.PartiallyRefunded, openDisputes := 0)
    case Cancelled => deal.(state := DealState.Cancelled)
    case Expired => deal.(state := DealState.Expired)
    case Resumed => deal.(state := PaymentPending)
  }

  // A boundary event commits exactly when the deal is known, the command new and the table has a row for
  // it, and then moves the deal along that row; it logs the counterparty's message first, if there is one.
  lemma BoundaryMovesTheDeal(l: Ledger, req: TransitionRequest, ids: Ids, signer: Signer)
    ensures var (result, l') := CommitTransitionOn(l, req, ids, signer);
      var known := req.dealId in l.deals;
      && (result.outcome.Committed? <==>
            known && req.commandId !in l.seenCommands
            && Move(l.deals[req.dealId].state, req.event,
              MovedOn(req.event, req.amountMinor, l.deals[req.dealId]).state) in TABLE)
      && (!result.outcome.Committed? ==>
            && l' == l
            && result.outcome == (
                 if !known then DealNotFound
                 else if req.commandId in l.seenCommands then AlreadyApplied
                 else StaleState))
      && (result.outcome.Committed? ==>
            var deal, moved := l.deals[req.dealId], MovedOn(req.event, req.amountMinor, l.deals[req.dealId]);
            && l' == l.(deals := l.deals[req.dealId := moved], chains := l'.chains,
                        seenCommands := l.seenCommands + {req.commandId})
            && result.events != []
            && result.events[|result.events| - 1].form.payload ==
                 CommandTransition(req.commandId, req.event, deal.state, moved.state, req.amountMinor,
                                   if req.note == "" then None else Some(NoteDigest(req.note)))
            && (match req.content
                case None => |result.events| == 1
                case Some(c) =>
                  (|result.events| == 2
                   && result.events[0].form.payload == MessageIn(c.sha256, c.claims, req.commandId, req.event))))
  {
    if req.dealId in l.deals {
      var deal := l.deals[req.dealId];
      EventMoves(deal, req.event, req.amountMinor);
      hide TransitionFor, ApplyEvent, MovedOn, Extended;
    }
  }

  lemma EventMoves(deal: Deal, event: DealEvent, amount: Option<int>)
    ensures var target := TransitionFor(deal.state, event);
      && (target.Some? <==> Move(deal.state, event, MovedOn(event, amount, deal).state) in TABLE)
      && (target.Some? ==> ApplyEvent(deal, event, target.value, amount) == MovedOn(event, amount, deal))
  {
    TableIsTransitionFor(Move(deal.state, event, MovedOn(event, amount, deal).state));
  }

  /* ----- spend ----- */

  // What a chain's agreements and approved changes come to.
  function CommittedSpend(ps: seq<Payload>): int {
    if ps == [] then 0
    else
      CommittedSpend(ps[1..]) +
      (match ps[0]
       case RequestTransition(_, _, AgreementReached, _, _, amount) => Paid(amount)
       case RequestTransition(_, _, ChangeApproved, _, _, amount) => Paid(amount)
       case CommandTransition(_, AgreementReached, _, _, amount, _) => Paid(amount)
       case CommandTransition(_, ChangeApproved, _, _, amount, _) => Paid(amount)
       case _ => 0)
  }

  lemma {:induction false} CommittedSpendIsTally(ps: seq<Payload>)
    ensures CommittedSpend(ps) == Tally(ps, SpendWeight)
    decreases |ps|
  {
    if ps != [] { CommittedSpendIsTally(ps[1..]); }
  }

  // In every reachable state the committed spend of a deal is the sum of the amounts on its chain's
  // agreements and approved changes, and of nothing else.
  lemma SpendIsAgreementsAndChanges(trace: seq<Ledger>, steps: seq<Step>, signer: Signer, i: nat, d: Id)
    requires Run(trace, steps, signer) && i < |trace| && d in trace[i].deals
    ensures d in trace[i].chains && trace[i].deals[d].committedMinor == CommittedSpend(Payloads(trace[i].chains[d]))
  {
    DealRowIsItsChain(trace, steps, signer, i, d);
    CommittedSpendIsTally(Payloads(trace[i].chains[d]));
  }

  /* ----- payments ----- */

  // The engine never lets a payment through while a dispute or an approval is open.
  lemma PaymentsAreBlocked(pi: PolicyInput)
    requires pi.proposal.action == Token(InitiatePayment) || pi.proposal.action == Token(CapturePayment)
    requires pi.deal.openDisputes > 0 || pi.deal.openApprovals > 0
    ensures Evaluate(pi).outcome.Deny?
  {
  }

  predicate MovesPayment(p: Payload) { p.RequestTransition?
    && (p.event.PaymentInitiated? || p.event.PaymentConfirmed?) }

  lemma ProposedPaymentIsClear(pi: PolicyInput, deal: Deal, recordedAt: Instant, event: Option<DealEvent>, ids: Ids,
                               j: nat)
    requires PlanTransition(deal, pi.proposal.action, Evaluate(pi).outcome) == Proceed(event) && pi.deal == deal
    requires var plan := PlanRequest(deal, RequestOf(pi, recordedAt), event, ids);
      j < |plan.entries| && MovesPayment(plan.entries[j].payload)
    ensures deal.openApprovals <= 0 && deal.openDisputes <= 0
  {
    hide TransitionFor, ApplyEvent;
    assert event.Some? && Evaluate(pi).outcome.Allow?;
    var token := pi.proposal.action.token;
    assert token.InitiatePayment? || token.CapturePayment?;
    if deal.openApprovals > 0 || deal.openDisputes > 0 { PaymentsAreBlocked(pi); }
  }

  // What a decided approval appends: a transition only right after its grant.
  lemma DecidedPaymentFollowsAGrant(deal: Deal, a: Approval, req: ApprovalRequest, record: Option<Mandate>,
                                    revoked: bool,
                                    ids: Ids)
    requires req.operation.Grant? ==> req.approvalRecord.Some? && req.action.Token?
    ensures var entries := PlanApproval(deal, a, req, record, revoked, ids).entries;
      && 1 <= |entries| <= 2 && !entries[0].payload.RequestTransition?
      && (|entries| == 2 ==> entries[0].payload.GrantedApproval?)
  {
  }

  lemma DecidedStepPays(l: Ledger, req: ApprovalRequest, ids: Ids, signer: Signer, d: Id, n: int)
    requires l.deals.Keys == l.chains.Keys
    requires var l' := CommitApprovalOn(l, req, ids, signer).1;
      At(l'.chains, d, n) && !At(l.chains, d, n) && MovesPayment(PayloadAt(l'.chains, d, n))
    ensures var l' := CommitApprovalOn(l, req, ids, signer).1;
      At(l'.chains, d, n - 1) && PayloadAt(l'.chains, d, n - 1).GrantedApproval?
  {
    hide GrantInputs, PlanApproval, ApprovalAbort, Seal;
    var a := l.approvals[req.approvalId];
    var (record, revoked) := GrantInputs(l, a, req.occurredAt);
    var plan := PlanApproval(l.deals[req.dealId], a, req, record, revoked, ids);
    DecidedPaymentFollowsAGrant(l.deals[req.dealId], a, req, record, revoked, ids);
    PayloadAfter(l.chains, req.dealId, plan, signer, d, n);
    PayloadAfter(l.chains, req.dealId, plan, signer, d, n - 1);
  }

  lemma RevokedStepPaysNothing(l: Ledger, req: RevocationRequest, ids: Ids, signer: Signer, d: Id, n: int)
    requires l.deals.Keys == l.chains.Keys
    requires var l' := CommitRevocationOn(l, req, ids, signer).1; At(l'.chains, d, n) && !At(l.chains, d, n)
    ensures !MovesPayment(PayloadAt(CommitRevocationOn(l, req, ids, signer).1.chains, d, n))
  {
    hide HasRevocation, Seal;
    PayloadAfter(l.chains, req.dealId, PlanRevocation(l.deals[req.dealId], req, ids), signer, d, n);
  }

  // Judged on the deal as stored.
  predicate Current(l: Ledger, step: Step) {
    step.Propose? && step.pi.deal.dealId in l.deals ==> step.pi.deal == l.deals[step.pi.deal.dealId]
  }

  lemma PaymentStepIsClear(l: Ledger, step: Step, signer: Signer, d: Id, n: int)
    requires l.deals.Keys == l.chains.Keys && Current(l, step)
    requires var l' := Next(l, step, signer);
      && At(l'.chains, d, n) && !At(l.chains, d, n) && MovesPayment(PayloadAt(l'.chains, d, n))
      && (n > 0 ==> !PayloadAt(l'.chains, d, n - 1).GrantedApproval?)
    ensures d in l.deals && l.deals[d].openApprovals <= 0 && l.deals[d].openDisputes <= 0
  {
    hide TransitionFor, ApplyEvent, Evaluate, PlanRequest, PlanBoundary, MovesPayment, Seal, Extended, CommitApprovalOn,
      CommitRevocationOn;
    match step
    case Register(_, _, _) =>
    case Propose(pi, recordedAt, ids) =>
      var req := RequestOf(pi, recordedAt);
      var event := PlanTransition(l.deals[req.dealId], req.action, req.decision.outcome).event;
      var plan := PlanRequest(l.deals[req.dealId], req, event, ids);
      PayloadAfter(l.chains, req.dealId, plan, signer, d, n);
      ProposedPaymentIsClear(pi, l.deals[d], recordedAt, event, ids, n - |l.chains[d]|);
    case Boundary(req, ids) =>
      var plan := PlanBoundary(l.deals[req.dealId], req, TransitionFor(l.deals[req.dealId].state, req.event).value,
        ids);
      PayloadAfter(l.chains, req.dealId, plan, signer, d, n);
      BoundaryMovesNoPayment(l.deals[req.dealId], req, TransitionFor(l.deals[req.dealId].state, req.event).value, ids);
    case Decide(req, ids) => DecidedStepPays(l, req, ids, signer, d, n);
    case Revoke(req, ids) => RevokedStepPaysNothing(l, req, ids, signer, d, n);
  }

  lemma BoundaryMovesNoPayment(deal: Deal, req: TransitionRequest, target: DealState, ids: Ids)
    ensures forall e | e in PlanBoundary(deal, req, target, ids).entries :: !MovesPayment(e.payload)
  {
  }

  // Whatever the run, as long as proposals are judged on the stored deal: a payment that no person has
  // granted is initiated or captured only on a deal with no approval and no dispute open.
  lemma PaymentsMoveOnlyWhenClear(trace: seq<Ledger>, steps: seq<Step>, signer: Signer, k: nat, d: Id, n: int)
    requires Run(trace, steps, signer) && k < |steps| && Current(trace[k], steps[k])
    requires At(trace[k + 1].chains, d, n) && !At(trace[k].chains, d, n)
    requires var p := PayloadAt(trace[k + 1].chains, d, n);
      p.RequestTransition? && (p.event.PaymentInitiated? || p.event.PaymentConfirmed?)
    requires n > 0 ==> !PayloadAt(trace[k + 1].chains, d, n - 1).GrantedApproval?
    ensures d in trace[k].deals && trace[k].deals[d].openApprovals == 0 && trace[k].deals[d].openDisputes == 0
  {
    hide Next, Current;
    EveryRunIsSound(trace, steps, signer, k);
    assert StepAt(trace, steps, signer, k);
    PaymentStepIsClear(trace[k], steps[k], signer, d, n);
    assert DealSound(trace[k].deals[d], trace[k].chains[d], d, signer.key);
  }
}
