/** What each of the four commits appends (ledger/commit_plans.py, ledger/chain.py plan_transition). */
module Plans {
  import opened Common
  import opened Deals
  import opened Crypto
  import opened Authority
  import opened Policy
  import opened Chain

  /* ----- requests and rows ----- */

  datatype ApprovalStatus = Pending | Granted | Denied
  datatype ApprovalDecision = Grant | Refuse

  datatype Approval = Approval(
    approvalId: Id, dealId: Id, requestId: Id, authorityRecordId: Id, action: ActionName,
    amountMinor: Option<int>, currency: string, proposalDigest: ProposalDigest, reasonCode: ReasonCode,
    status: ApprovalStatus, decidedBy: Option<Id>, decidedAt: Option<Instant>, commandId: Option<Id>,
    createdAt: Instant)

  // The digest of some content and what the screen said about it; the two always travel together.
  datatype Screened = Screened(sha256: string, claims: ContentClaims)

  datatype CommitRequest = CommitRequest(
    dealId: Id, requestId: Id, decision: PolicyDecision, actorKind: ActorKind, actorId: Id,
    authorityRecordId: Id, action: ActionName, amountMinor: Option<int>, occurredAt: Instant,
    recordedAt: Instant, idempotencyKey: Id, proposalDigest: ProposalDigest, record: AuthorityRecord,
    content: Option<Screened>, declaredFields: seq<string>)

  datatype TransitionRequest = TransitionRequest(
    dealId: Id, commandId: Id, event: DealEvent, actorKind: ActorKind, actorId: Id,
    authorityRecordId: Option<Id>, amountMinor: Option<int>, occurredAt: Instant, recordedAt: Instant,
    note: string, content: Option<Screened>)

  datatype ApprovalRequest = ApprovalRequest(
    dealId: Id, approvalId: Id, commandId: Id, operation: ApprovalDecision, actorKind: ActorKind,
    actorId: Id, authorityRecordId: Id, action: ActionName, amountMinor: Option<int>,
    occurredAt: Instant, recordedAt: Instant, decidedBy: Id,
    approvalRecord: Option<ApprovalRecord>, denyReason: Option<string>)

  datatype RevocationRequest = RevocationRequest(
    dealId: Id, revocation: Revocation, commandId: Id, actorKind: ActorKind, actorId: Id,
    occurredAt: Instant, recordedAt: Instant)

  // The random ids one commit draws.
  datatype Ids = Ids(message: Id, first: Id, second: Id, approvalId: Id)

  /* ----- rechecks ----- */

  // The event an allowed action applies; `stale` is the abort.
  datatype Planned = Proceed(event: Option<DealEvent>) | Stale

  function PlanTransition(deal: Deal, action: ActionName, outcome: Outcome): Planned {
    if !outcome.Allow? then Proceed(None)
    else if action.Unrecognised? then Stale
    else
      var event := ActionEvent(action.token);
      if event.None? then Proceed(None)
      else if TransitionFor(deal.state, event.value).None? then Stale
      else Proceed(event)
  }

  datatype Recheck = MustDeny(reason: DenyReason) | MayApply(event: DealEvent)

  function GrantRecheck(record: Option<Mandate>, revoked: bool, deal: Deal, token: ActionToken, occurredAt: Instant)
    : Recheck
  {
    if record.None? then MustDeny(RecordMissing)
    else
      var status := ResolveStatus(record.value, occurredAt, revoked);
      if !status.Active? then MustDeny(RecordNotCurrent(status))
      else
        var event := ActionEvent(token);
        if event.None? || TransitionFor(deal.state, event.value).None? then MustDeny(TransitionNoLongerValid)
        else MayApply(event.value)
  }

  // A grant applies its transition exactly when the record is present, unrevoked and unexpired and
  // the action is still valid from the stored state; resolve_dispute is never applied.
  lemma GrantAppliesIffCurrent(record: Option<Mandate>, revoked: bool, deal: Deal, token: ActionToken,
                               occurredAt: Instant)
    ensures GrantRecheck(record, revoked, deal, token, occurredAt).MayApply? <==>
      && record.Some? && !revoked && !record.value.status.Revoked? && occurredAt <= record.value.expiresAt
      && !token.ResolveDispute? && ActionValidFrom(token, deal.state)
  {
    if ActionEvent(token).Some? { ActionTableAgrees(token, deal.state); }
  }

  /* ----- plans ----- */

  // The events a commit appends, before numbering and linking, with the deal and the approval row
  // they imply.
  datatype Plan = Plan(header: Header, entries: seq<Entry>, newDeal: Deal, approval: Option<Approval>)

  function RequestHeader(req: CommitRequest): Header {
    Header(req.dealId, req.actorKind, req.actorId, Some(req.authorityRecordId), req.occurredAt, req.recordedAt)
  }

  function MessageEntries(req: CommitRequest, ids: Ids): seq<Entry> {
    if req.content.None? then []
    else [Entry(ids.message, MessageOut(
      req.content.value.sha256, req.content.value.claims, req.requestId, req.action, req.declaredFields))]
  }

  function DecisionEntry(req: CommitRequest, ids: Ids): Entry {
    Entry(ids.first, DecisionMade(
      req.requestId, req.action, req.decision.outcome, req.decision.reasonCode, req.decision.matchedRule,
      req.decision.evaluatedAt, req.amountMinor, req.idempotencyKey, req.proposalDigest))
  }

  function NewApproval(req: CommitRequest, ids: Ids): Approval {
    Approval(
      ids.approvalId, req.dealId, req.requestId, req.authorityRecordId, req.action, req.amountMinor,
      req.record.terms.spendCap.currency, req.proposalDigest, req.decision.reasonCode, Pending,
      None, None, None, req.recordedAt)
  }

  // What follows the decision event: the transition of an allow, the open approval of a hold.
  function FollowUp(deal: Deal, req: CommitRequest, event: Option<DealEvent>, ids: Ids): (seq<Entry>, Deal)
    requires event.Some? ==> TransitionFor(deal.state, event.value).Some?
  {
    if event.Some? then
      var to := TransitionFor(deal.state, event.value).value;
      ([Entry(ids.second, RequestTransition(req.requestId, req.action, event.value, deal.state, to, req.amountMinor))],
       ApplyEvent(deal, event.value, to, req.amountMinor))
    else if req.decision.outcome.NeedsApproval? then
      ([Entry(ids.second, RequiredApproval(
         req.requestId, req.action, req.amountMinor, ids.approvalId, req.record.terms.spendCap.currency,
         req.authorityRecordId, req.decision.reasonCode))],
       deal.(openApprovals := deal.openApprovals + 1))
    else ([], deal)
  }

  function PlanRequest(deal: Deal, req: CommitRequest, event: Option<DealEvent>, ids: Ids): (plan: Plan)
    requires event.Some? ==> TransitionFor(deal.state, event.value).Some?
    ensures plan.header.dealId == req.dealId
  {
    var (tail, newDeal) := FollowUp(deal, req, event, ids);
    Plan(
      RequestHeader(req), MessageEntries(req, ids) + [DecisionEntry(req, ids)] + tail, newDeal,
      if event.None? && req.decision.outcome.NeedsApproval? then Some(NewApproval(req, ids)) else None)
  }

  function PlanBoundary(deal: Deal, req: TransitionRequest, target: DealState, ids: Ids): (plan: Plan)
    ensures plan.approval.None? && plan.header.dealId == req.dealId
  {
    var note := if req.note == "" then None else Some(NoteDigest(req.note));
    var message :=
      if req.content.None? then []
      else [Entry(ids.message, MessageIn(req.content.value.sha256, req.content.value.claims, req.commandId, req.event))];
    Plan(
      Header(req.dealId, req.actorKind, req.actorId, req.authorityRecordId, req.occurredAt, req.recordedAt),
      message + [Entry(ids.first, CommandTransition(req.commandId, req.event, deal.state, target, req.amountMinor, note))],
      ApplyEvent(deal, req.event, target, req.amountMinor), None)
  }

  function Decided(approval: Approval, req: ApprovalRequest, status: ApprovalStatus): Approval {
    approval.(
      status := status, decidedBy := Some(req.decidedBy), decidedAt := Some(req.recordedAt),
      commandId := Some(req.commandId))
  }

  function ApprovalHeader(req: ApprovalRequest): Header {
    Header(req.dealId, req.actorKind, req.actorId, Some(req.authorityRecordId), req.occurredAt, req.recordedAt)
  }

  function PlanGrant(deal: Deal, approval: Approval, req: ApprovalRequest, event: DealEvent, ids: Ids): Plan
    requires req.approvalRecord.Some? && TransitionFor(deal.state, event).Some?
  {
    var to := TransitionFor(deal.state, event).value;
    var moved := ApplyEvent(deal, event, to, req.amountMinor);
    Plan(
      ApprovalHeader(req),
      [Entry(ids.first, GrantedApproval(
         approval.requestId, req.action, req.amountMinor, req.commandId, req.decidedBy, req.approvalRecord.value)),
       Entry(ids.second, RequestTransition(approval.requestId, req.action, event, deal.state, to, req.amountMinor))],
      moved.(openApprovals := Max(0, moved.openApprovals - 1)),
      Some(Decided(approval, req, Granted)))
  }

  function PlanDenial(deal: Deal, approval: Approval, req: ApprovalRequest, reason: Option<DenyReason>,
                      ids: Ids): Plan {
    Plan(
      ApprovalHeader(req),
      [Entry(ids.first, DeniedApproval(
         approval.requestId, req.action, req.amountMinor, req.commandId, req.decidedBy, reason))],
      deal.(openApprovals := Max(0, deal.openApprovals - 1)),
      Some(Decided(approval, req, Denied)))
  }

  function OperatorReason(req: ApprovalRequest): Option<DenyReason> {
    if req.denyReason.Some? then Some(ByOperator(req.denyReason.value)) else None
  }

  function PlanApproval(deal: Deal, approval: Approval, req: ApprovalRequest, record: Option<Mandate>,
                        revoked: bool, ids: Ids): (plan: Plan)
    requires req.operation.Grant? ==> req.approvalRecord.Some? && req.action.Token?
    ensures plan.approval.Some? && plan.approval.value == Decided(approval, req, plan.approval.value.status)
    ensures !plan.approval.value.status.Pending? && plan.header.dealId == req.dealId
  {
    if req.operation.Grant? then
      match GrantRecheck(record, revoked, deal, req.action.token, req.occurredAt)
      case MayApply(event) => PlanGrant(deal, approval, req, event, ids)
      case MustDeny(reason) => PlanDenial(deal, approval, req, Some(reason), ids)
    else PlanDenial(deal, approval, req, OperatorReason(req), ids)
  }

  function PlanRevocation(deal: Deal, req: RevocationRequest, ids: Ids): (plan: Plan)
    ensures plan.approval.None? && plan.newDeal == deal && plan.header.dealId == req.dealId
  {
    Plan(
      Header(req.dealId, req.actorKind, req.actorId, Some(req.revocation.fact.recordId), req.occurredAt, req.recordedAt),
      [Entry(ids.first, RevocationRecorded(req.revocation))], deal, None)
  }

  /* ----- the planners as written: events appended one by one ----- */

  datatype CommitPlan = CommitPlan(events: seq<Event>, newDeal: Deal, approval: Option<Approval>)

  // A plan numbered from `sequence` and linked onto `previous`.
  function Sealed(p: Plan, sequence: int, previous: Hash, signer: Signer): CommitPlan {
    CommitPlan(Seal(p.header, sequence, previous, p.entries, signer), p.newDeal, p.approval)
  }

  function LastHash(built: seq<Event>, previous: Hash): Hash {
    if built == [] then previous else built[|built| - 1].eventHash
  }

  lemma {:induction false} SealOneMore(h: Header, sequence: int, previous: Hash, entries: seq<Entry>, e: Entry,
                                       signer: Signer)
    ensures Seal(h, sequence, previous, entries + [e], signer) ==
      (var es := Seal(h, sequence, previous, entries, signer);
       es + [BuildEvent(h, sequence + |es|, LastHash(es, previous), e, signer)])
    decreases |entries|
  {
    if entries == [] {
      assert entries + [e] == [e];
    } else {
      var first := BuildEvent(h, sequence, previous, entries[0], signer);
      assert (entries + [e])[1..] == entries[1..] + [e];
      SealOneMore(h, sequence + 1, first.eventHash, entries[1..], e, signer);
    }
  }

  // built.append(build_event(...)): the next event must carry the next number and the last hash.
  method Append(built: seq<Event>, h: Header, seqNo: int, prevHash: Hash, e: Entry, signer: Signer,
                ghost sequence: int, ghost previous: Hash, ghost entries: seq<Entry>)
    returns (longer: seq<Event>)
    requires built == Seal(h, sequence, previous, entries, signer)
    requires seqNo == sequence + |built| && prevHash == LastHash(built, previous)
    ensures longer == Seal(h, sequence, previous, entries + [e], signer)
    ensures |longer| == |built| + 1
  {
    SealOneMore(h, sequence, previous, entries, e, signer);
    longer := built + [BuildEvent(h, seqNo, prevHash, e, signer)];
  }

  // Everything up to and including the decision event.
  method BuildThroughDecision(sequence: int, previous: Hash, req: CommitRequest, ids: Ids, signer: Signer)
    returns (built: seq<Event>)
    ensures built == Seal(RequestHeader(req), sequence, previous, MessageEntries(req, ids) + [DecisionEntry(req, ids)], signer)
  {
    var h := RequestHeader(req);
    built := [];
    var seqNo, prevHash := sequence, previous;
    if req.content.Some? {
      var message := Entry(ids.message, MessageOut(
        req.content.value.sha256, req.content.value.claims, req.requestId, req.action, req.declaredFields));
      built := Append(built, h, seqNo, prevHash, message, signer, sequence, previous, []);
      assert [] + [message] == MessageEntries(req, ids);
      seqNo := seqNo + 1;
      prevHash := built[|built| - 1].eventHash;
    }
    built := Append(built, h, seqNo, prevHash, DecisionEntry(req, ids), signer, sequence, previous,
      MessageEntries(req, ids));
  }

  method PlanCommitRequest(deal: Deal, sequence: int, previous: Hash, req: CommitRequest,
                           event: Option<DealEvent>, ids: Ids, signer: Signer) returns (plan: CommitPlan)
    requires event.Some? ==>
      && req.action.Token? && ActionEvent(req.action.token) == event
      && TransitionFor(deal.state, event.value).Some? && req.decision.outcome.Allow?
    ensures plan == Sealed(PlanRequest(deal, req, event, ids), sequence, previous, signer)
  {
    var h := RequestHeader(req);
    var built := BuildThroughDecision(sequence, previous, req, ids, signer);
    ghost var entries := MessageEntries(req, ids) + [DecisionEntry(req, ids)];
    var decisionHash := built[|built| - 1].eventHash;
    var newDeal := deal;
    var approval := None;
    if event.Some? {
      newDeal := ApplyAction(deal, req.action.token, req.amountMinor).value;
      var move := Entry(ids.second,
        RequestTransition(req.requestId, req.action, event.value, deal.state, newDeal.state, req.amountMinor));
      built := Append(built, h, sequence + |built|, decisionHash, move, signer, sequence, previous, entries);
    } else if req.decision.outcome.NeedsApproval? {
      approval := Some(NewApproval(req, ids));
      newDeal := deal.(openApprovals := deal.openApprovals + 1);
      var required := Entry(ids.second, RequiredApproval(
        req.requestId, req.action, req.amountMinor, ids.approvalId, req.record.terms.spendCap.currency,
        req.authorityRecordId, req.decision.reasonCode));
      built := Append(built, h, sequence + |built|, decisionHash, required, signer, sequence, previous, entries);
    } else {
      assert entries + [] == entries;
    }
    plan := CommitPlan(built, newDeal, approval);
  }

  method PlanCommitTransition(deal: Deal, sequence: int, previous: Hash, req: TransitionRequest,
                              target: DealState, ids: Ids, signer: Signer) returns (plan: CommitPlan)
    ensures plan == Sealed(PlanBoundary(deal, req, target, ids), sequence, previous, signer)
  {
    var newDeal := ApplyEvent(deal, req.event, target, req.amountMinor);
    var h := Header(req.dealId, req.actorKind, req.actorId, req.authorityRecordId, req.occurredAt, req.recordedAt);
    var built: seq<Event> := [];
    var seqNo, prevHash := sequence, previous;
    ghost var entries: seq<Entry> := [];
    if req.content.Some? {
      var message := Entry(ids.message,
        MessageIn(req.content.value.sha256, req.content.value.claims, req.commandId, req.event));
      built := Append(built, h, seqNo, prevHash, message, signer, sequence, previous, entries);
      entries := entries + [message];
      assert entries == [message];
      seqNo := seqNo + 1;
      prevHash := built[|built| - 1].eventHash;
    }
    var note := if req.note == "" then None else Some(NoteDigest(req.note));
    var move := Entry(ids.first,
      CommandTransition(req.commandId, req.event, deal.state, newDeal.state, req.amountMinor, note));
    built := Append(built, h, seqNo, prevHash, move, signer, sequence, previous, entries);
    plan := CommitPlan(built, newDeal, None);
  }

  method PlanCommitApproval(deal: Deal, approval: Approval, sequence: int, previous: Hash, req: ApprovalRequest,
                            record: Option<Mandate>, revoked: bool, ids: Ids, signer: Signer)
    returns (plan: CommitPlan)
    requires req.operation.Grant? ==> req.approvalRecord.Some? && req.action.Token?
    ensures plan == Sealed(PlanApproval(deal, approval, req, record, revoked, ids), sequence, previous, signer)
  {
    hide Seal;
    var operation := req.operation;
    var forcedDeny: Option<DenyReason> := None;
    var event: Option<DealEvent> := None;
    if operation.Grant? {
      match GrantRecheck(record, revoked, deal, req.action.token, req.occurredAt) {
        case MustDeny(reason) => forcedDeny := Some(reason);
        case MayApply(e) => event := Some(e);
      }
      if forcedDeny.Some? { operation := Refuse; }
    }
    var h := ApprovalHeader(req);
    var newDeal;
    var built: seq<Event> := [];
    if operation.Grant? {
      newDeal := ApplyAction(deal, req.action.token, req.amountMinor).value;
      newDeal := newDeal.(openApprovals := Max(0, newDeal.openApprovals - 1));
      var granted := Entry(ids.first, GrantedApproval(
        approval.requestId, req.action, req.amountMinor, req.commandId, req.decidedBy, req.approvalRecord.value));
      built := Append(built, h, sequence, previous, granted, signer, sequence, previous, []);
      assert [] + [granted] == [granted];
      var move := Entry(ids.second,
        RequestTransition(approval.requestId, req.action, event.value, deal.state, newDeal.state, req.amountMinor));
      built := Append(built, h, sequence + 1, built[0].eventHash, move, signer, sequence, previous, [granted]);
      assert [granted] + [move] == [granted, move];
    } else {
      newDeal := deal.(openApprovals := Max(0, deal.openApprovals - 1));
      var reason := if forcedDeny.Some? then forcedDeny else OperatorReason(req);
      var denied := Entry(ids.first, DeniedApproval(
        approval.requestId, req.action, req.amountMinor, req.commandId, req.decidedBy, reason));
      built := Append(built, h, sequence, previous, denied, signer, sequence, previous, []);
      assert [] + [denied] == [denied];
    }
    plan := CommitPlan(built, newDeal, Some(Decided(approval, req, if operation.Grant? then Granted else Denied)));
  }

  method PlanCommitRevocation(deal: Deal, sequence: int, previous: Hash, req: RevocationRequest, ids: Ids,
                              signer: Signer)
    returns (plan: CommitPlan)
    ensures plan == Sealed(PlanRevocation(deal, req, ids), sequence, previous, signer)
  {
    var h := Header(
      req.dealId, req.actorKind, req.actorId, Some(req.revocation.fact.recordId), req.occurredAt, req.recordedAt);
    var entry := Entry(ids.first, RevocationRecorded(req.revocation));
    var built := Append([], h, sequence, previous, entry, signer, sequence, previous, []);
    assert [] + [entry] == [entry];
    plan := CommitPlan(built, deal, None);
  }
}
