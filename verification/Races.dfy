/**
 * What two commits racing on one deal can leave behind (adapters/postgres/store.py): the deal row is
 * read in one statement and the chain head in another, and an early return keeps the claims it made.
 */
module Races {
  import opened Common
  import opened Deals
  import opened Crypto
  import opened Authority
  import opened Policy
  import opened Chain
  import opened Plans
  import opened Ledger
  import opened History
  import opened Runs
  import opened Once
  import opened Postgres
  import opened Sessions

  /* ----- what a commit was planned from ----- */

  // The deal a session has read, from the statement that reads it to the one that commits.
  function ReadOf(pc: Pc): Option<Deal> {
    match pc
    case ReadApproval(deal) => Some(deal)
    case ReadCommand(deal, _) => Some(deal)
    case ReadRecord(deal, _) => Some(deal)
    case ReadRevocations(deal, _, _) => Some(deal)
    case Claiming(deal, _, _) => Some(deal)
    case ReadHead(deal, _) => Some(deal)
    case Inserting(write) => Some(write.deal)
    case Returning(_, done) => if done.Some? then Some(done.value.deal) else None
    case _ => None
  }

  function PlanOf(pc: Pc): Option<Plan> {
    match pc
    case Claiming(_, plan, _) => plan
    case ReadHead(_, plan) => plan
    case Inserting(write) => Some(write.plan)
    case Returning(_, done) => if done.Some? then Some(done.value.plan) else None
    case _ => None
  }

  // The plan is what the job's planner makes of this deal.
  ghost predicate PlannedFrom(job: Job, deal: Deal, plan: Plan) {
    match job
    case RequestJob(req, ids) =>
      var planned := PlanTransition(deal, req.action, req.decision.outcome);
      planned.Proceed? && plan == PlanRequest(deal, req, planned.event, ids)
    case TransitionJob(req, ids) =>
      var target := TransitionFor(deal.state, req.event);
      target.Some? && plan == PlanBoundary(deal, req, target.value, ids)
    case ApprovalJob(req, ids) =>
      && (req.operation.Grant? ==> req.approvalRecord.Some? && req.action.Token?)
      && exists a, record, revoked :: plan == PlanApproval(deal, a, req, record, revoked, ids)
    case RevocationJob(req, ids) => plan == PlanRevocation(deal, req, ids)
  }

  // A deal row: stored under its own id, with counters no commit can have brought below zero.
  predicate Sane(deal: Deal, d: Id) { deal.dealId == d && DisputesSound(deal) && deal.openApprovals >= 0 }

  predicate RowsSane(deals: map<Id, Deal>) { forall d | d in deals :: Sane(deals[d], d) }

  ghost predicate ReadsFit(me: Session) {
    ReadOf(me.pc).Some? ==>
      && Sane(ReadOf(me.pc).value, DealOf(me.job))
      && (PlanOf(me.pc).Some? ==> PlannedFrom(me.job, ReadOf(me.pc).value, PlanOf(me.pc).value))
  }

  ghost predicate AllReadsFit(s: State) {
    RowsSane(s.db.deals) && forall i | i in s.sessions :: ReadsFit(s.sessions[i])
  }

  /* ----- the exact conditions ----- */

  predicate IsRefund(event: DealEvent) { event.Refunded? || event.PartiallyRefunded? }

  // The transition a plan appends, always its last event.
  function MoveOf(plan: Plan): Option<DealEvent> {
    if plan.entries != [] && plan.entries[|plan.entries| - 1].payload.IsTransition()
    then Some(plan.entries[|plan.entries| - 1].payload.event) else None
  }

  // Whatever the commit writes back from its copy of the deal is still what is stored: every counter
  // the move leaves standing, the state if there is no move, and the open approvals it counts up or down.
  predicate StillCurrent(job: Job, plan: Plan, read: Deal, current: Deal) {
    RewritesDeal(job, plan) ==>
      && (MoveOf(plan).None? ==> read.state == current.state)
      && read.negotiatedRounds == current.negotiatedRounds
      && read.committedMinor == current.committedMinor
      && ((MoveOf(plan).Some? && IsRefund(MoveOf(plan).value)) || read.openDisputes == current.openDisputes)
      && current.openApprovals == (if job.ApprovalJob? then Max(1, read.openApprovals) else read.openApprovals)
  }

  // The move starts from the state that is stored.
  predicate StateCurrent(plan: Plan, read: Deal, current: Deal) {
    MoveOf(plan).Some? ==> read.state == current.state
  }

  // What the stored deal becomes.
  function Rewritten(job: Job, plan: Plan, current: Deal): Deal {
    if RewritesDeal(job, plan) then plan.newDeal else current
  }

  lemma StaleRequestPlan(read: Deal, current: Deal, req: CommitRequest, ids: Ids)
    requires read.dealId == current.dealId && DisputesSound(read)
    requires PlanTransition(read, req.action, req.decision.outcome).Proceed?
    ensures var plan := PlanRequest(read, req, PlanTransition(read, req.action, req.decision.outcome).event, ids);
      var job := RequestJob(req, ids);
      && (Rewritten(job, plan, current) == Replay(current, EntryPayloads(plan)) <==> StillCurrent(job, plan, read, current))
      && (Linked(current, EntryPayloads(plan)) <==> StateCurrent(plan, read, current))
  {
    hide TransitionFor, DisputesSound;
    var event := PlanTransition(read, req.action, req.decision.outcome).event;
    var plan := PlanRequest(read, req, event, ids);
    var tail := FollowUp(read, req, event, ids).0;
    var head := MessageEntries(req, ids) + [DecisionEntry(req, ids)];
    var hs := seq(|head|, i requires 0 <= i < |head| => head[i].payload);
    NeutralReplay(current, hs);
    if tail == [] {
      assert EntryPayloads(plan) == hs;
      assert plan.entries == head;
    } else {
      assert plan.entries == head + [tail[0]];
      assert EntryPayloads(plan) == hs + [tail[0].payload];
      assert tail[0] in plan.entries;
      ReplayAppend(current, hs, [tail[0].payload]);
      ReplayOfOne(current, tail[0].payload);
      assert [tail[0].payload][1..] == [];
      if event.Some? { DisputeFloor(read, event.value); }
    }
  }

  // With the dispute counter sound, its floor never clamps.
  lemma DisputeFloor(read: Deal, event: DealEvent)
    requires DisputesSound(read)
    ensures event.Accepted? && read.state.Disputed? ==> Max(0, read.openDisputes - 1) == read.openDisputes - 1
  {
  }

  lemma StaleBoundaryPlan(read: Deal, current: Deal, req: TransitionRequest, target: DealState, ids: Ids)
    requires TransitionFor(read.state, req.event) == Some(target) && DisputesSound(read) && read.dealId == current.dealId
    ensures var plan := PlanBoundary(read, req, target, ids);
      var job := TransitionJob(req, ids);
      && (plan.newDeal == Replay(current, EntryPayloads(plan)) <==> StillCurrent(job, plan, read, current))
      && (Linked(current, EntryPayloads(plan)) <==> StateCurrent(plan, read, current))
  {
    hide TransitionFor, DisputesSound;
    DisputeFloor(read, req.event);
    var plan := PlanBoundary(read, req, target, ids);
    LastMoves(current, EntryPayloads(plan));
  }

  lemma StaleDenialPlan(read: Deal, current: Deal, a: Approval, req: ApprovalRequest, reason: Option<DenyReason>,
                        ids: Ids)
    requires read.dealId == current.dealId && read.openApprovals >= 0
    ensures var plan := PlanDenial(read, a, req, reason, ids);
      var job := ApprovalJob(req, ids);
      && (plan.newDeal == Replay(current, EntryPayloads(plan)) <==> StillCurrent(job, plan, read, current))
      && Linked(current, EntryPayloads(plan)) && MoveOf(plan).None?
  {
    var ps := EntryPayloads(PlanDenial(read, a, req, reason, ids));
    assert ps == [ps[0]];
    ReplayOfOne(current, ps[0]);
  }

  lemma StaleGrantPlan(read: Deal, current: Deal, a: Approval, req: ApprovalRequest, event: DealEvent, ids: Ids)
    requires read.dealId == current.dealId && read.openApprovals >= 0 && DisputesSound(read)
    requires req.approvalRecord.Some? && TransitionFor(read.state, event).Some?
    ensures var plan := PlanGrant(read, a, req, event, ids);
      var job := ApprovalJob(req, ids);
      && (plan.newDeal == Replay(current, EntryPayloads(plan)) <==> StillCurrent(job, plan, read, current))
      && (Linked(current, EntryPayloads(plan)) <==> StateCurrent(plan, read, current))
  {
    hide TransitionFor, DisputesSound;
    DisputeFloor(read, event);
    var ps := EntryPayloads(PlanGrant(read, a, req, event, ids));
    assert ps == [ps[0]] + [ps[1]];
    ReplayAppend(current, [ps[0]], [ps[1]]);
    ReplayOfOne(current, ps[0]);
    ReplayOfOne(ReplayStep(current, ps[0]), ps[1]);
    assert [ps[1]][1..] == [];
  }

  lemma StaleRevocationPlan(current: Deal, read: Deal, req: RevocationRequest, ids: Ids)
    ensures var plan := PlanRevocation(read, req, ids);
      Replay(current, EntryPayloads(plan)) == current && Linked(current, EntryPayloads(plan)) && MoveOf(plan).None?
  {
    NeutralReplay(current, EntryPayloads(PlanRevocation(read, req, ids)));
  }

  // A commit planned on one copy of the deal and appended after another, whichever of the four it is:
  // the stored row is the replay exactly when what it writes back was current, and its from-state
  // continues the chain exactly when the state was.
  lemma StalePlan(job: Job, read: Deal, plan: Plan, current: Deal)
    requires PlannedFrom(job, read, plan) && Sane(read, DealOf(job)) && current.dealId == read.dealId
    ensures Rewritten(job, plan, current) == Replay(current, EntryPayloads(plan)) <==> StillCurrent(job, plan, read, current)
    ensures Linked(current, EntryPayloads(plan)) <==> StateCurrent(plan, read, current)
  {
    hide Replay, Linked, PlanRequest, PlanBoundary, PlanGrant, PlanDenial, PlanRevocation, GrantRecheck, StillCurrent,
      StateCurrent, TransitionFor, DisputesSound, MoveOf;
    match job
    case RequestJob(req, ids) => StaleRequestPlan(read, current, req, ids);
    case TransitionJob(req, ids) => StaleBoundaryPlan(read, current, req, TransitionFor(read.state, req.event).value, ids);
    case RevocationJob(req, ids) =>
      StaleRevocationPlan(current, read, req, ids);
      RevocationNeverRewrites(job, plan, read, current);
    case ApprovalJob(req, ids) =>
      var a, record, revoked :| plan == PlanApproval(read, a, req, record, revoked, ids);
      StaleApprovalPlan(read, current, a, req, record, revoked, ids);
  }

  lemma RevocationNeverRewrites(job: Job, plan: Plan, read: Deal, current: Deal)
    requires job.RevocationJob?
    ensures Rewritten(job, plan, current) == current && StillCurrent(job, plan, read, current)
    ensures MoveOf(plan).None? ==> StateCurrent(plan, read, current)
  {
  }

  lemma StaleApprovalPlan(read: Deal, current: Deal, a: Approval, req: ApprovalRequest, record: Option<Mandate>,
                          revoked: bool, ids: Ids)
    requires read.dealId == current.dealId && read.openApprovals >= 0 && DisputesSound(read)
    requires req.operation.Grant? ==> req.approvalRecord.Some? && req.action.Token?
    ensures var plan := PlanApproval(read, a, req, record, revoked, ids);
      var job := ApprovalJob(req, ids);
      && (Rewritten(job, plan, current) == Replay(current, EntryPayloads(plan)) <==> StillCurrent(job, plan, read, current))
      && (Linked(current, EntryPayloads(plan)) <==> StateCurrent(plan, read, current))
  {
    hide Replay, Linked, PlanGrant, PlanDenial, StillCurrent, TransitionFor, DisputesSound, MoveOf;
    if req.operation.Grant? {
      match GrantRecheck(record, revoked, read, req.action.token, req.occurredAt) {
        case MayApply(event) => StaleGrantPlan(read, current, a, req, event, ids);
        case MustDeny(reason) => StaleDenialPlan(read, current, a, req, Some(reason), ids);
      }
    } else {
      StaleDenialPlan(read, current, a, req, OperatorReason(req), ids);
    }
  }

  /* ----- reads over an interleaving ----- */

  lemma RequestKeepsSane(read: Deal, req: CommitRequest, event: Option<DealEvent>, ids: Ids)
    requires Sane(read, req.dealId) && (event.Some? ==> TransitionFor(read.state, event.value).Some?)
    ensures Sane(PlanRequest(read, req, event, ids).newDeal, req.dealId)
  {
    hide TransitionFor, DisputesSound, Replay, Linked;
    RequestPlanSound(read, req, event, ids);
    RequestOpensWhatItCounts(read, req, event, ids);
  }

  lemma BoundaryKeepsSane(read: Deal, req: TransitionRequest, target: DealState, ids: Ids)
    requires Sane(read, req.dealId) && TransitionFor(read.state, req.event) == Some(target)
    ensures Sane(PlanBoundary(read, req, target, ids).newDeal, req.dealId)
  {
    hide TransitionFor, DisputesSound, Replay, Linked;
    BoundaryPlanSound(read, req, target, ids);
  }

  lemma ApprovalKeepsSane(read: Deal, a: Approval, req: ApprovalRequest, record: Option<Mandate>, revoked: bool,
                          ids: Ids)
    requires Sane(read, req.dealId) && (req.operation.Grant? ==> req.approvalRecord.Some? && req.action.Token?)
    ensures Sane(PlanApproval(read, a, req, record, revoked, ids).newDeal, req.dealId)
  {
    hide TransitionFor, ApplyEvent;
    if req.operation.Grant? {
      var recheck := GrantRecheck(record, revoked, read, req.action.token, req.occurredAt);
      if recheck.MayApply? { GrantKeepsSane(read, a, req, recheck.event, ids); }
    }
  }

  lemma GrantKeepsSane(read: Deal, a: Approval, req: ApprovalRequest, event: DealEvent, ids: Ids)
    requires Sane(read, req.dealId) && req.approvalRecord.Some? && TransitionFor(read.state, event).Some?
    ensures Sane(PlanGrant(read, a, req, event, ids).newDeal, req.dealId)
  {
    hide TransitionFor;
    var to := TransitionFor(read.state, event).value;
    ApplyEventKeepsDisputesSound(read, event, to, req.amountMinor);
  }

  // Whatever copy it was planned from, the row a commit writes back is sane.
  lemma PlanKeepsSane(job: Job, read: Deal, plan: Plan)
    requires PlannedFrom(job, read, plan) && Sane(read, DealOf(job))
    ensures Sane(plan.newDeal, DealOf(job))
  {
    hide PlanRequest, PlanBoundary, PlanGrant, PlanDenial, GrantRecheck, TransitionFor, Sane;
    match job
    case RequestJob(req, ids) =>
      RequestKeepsSane(read, req, PlanTransition(read, req.action, req.decision.outcome).event, ids);
    case TransitionJob(req, ids) => BoundaryKeepsSane(read, req, TransitionFor(read.state, req.event).value, ids);
    case RevocationJob(req, ids) =>
    case ApprovalJob(req, ids) =>
      var a, record, revoked :| plan == PlanApproval(read, a, req, record, revoked, ids);
      ApprovalKeepsSane(read, a, req, record, revoked, ids);
  }

  // A read leaves the deal it read, or keeps it, and plans from it.
  lemma ReadKeepsReads(db: Db, me: Session)
    requires RowsSane(db.deals) && ReadsFit(me) && Reading(me.pc)
    ensures ReadsFit(me.(pc := AfterRead(db, me.job, me.pc)))
    ensures var read := ReadOf(AfterRead(db, me.job, me.pc)); read.Some? ==>
      if me.pc.ReadDeal? then DealOf(me.job) in db.deals && read.value == db.deals[DealOf(me.job)] else read == ReadOf(me.pc)
  {
    hide Sane, PlanRequest, PlanBoundary, PlanApproval, PlanRevocation, TransitionFor;
    if me.pc.ReadDeal? && DealOf(me.job) in db.deals { assert Sane(db.deals[DealOf(me.job)], DealOf(me.job)); }
    var pc := AfterRead(db, me.job, me.pc);
    if pc.Claiming? && pc.plan.Some? && me.job.ApprovalJob? {
      var a := me.pc.approval.value;
      var record := if me.pc.ReadRevocations? then Some(me.pc.record) else None;
      var revoked := me.pc.ReadRevocations? && RevokedAt(db.revocations, me.pc.record.recordId, me.job.approval.occurredAt);
      assert pc.plan.value == PlanApproval(pc.deal, a, me.job.approval, record, revoked, me.job.ids);
    }
  }

  // A statement other than a read keeps the deal and the plan it has, or gives both up.
  lemma QuietKeepsReads(s: State, sid: nat, s': State, signer: Signer)
    requires sid in s.sessions && sid in s'.sessions && SessionStep(s, sid, s', signer)
    requires !Reading(s.sessions[sid].pc) && !s.sessions[sid].pc.Returning?
    ensures var me, me' := s.sessions[sid], s'.sessions[sid];
      && s'.db == s.db && me'.job == me.job
      && (ReadOf(me'.pc).None? || (ReadOf(me'.pc) == ReadOf(me.pc) && PlanOf(me'.pc) == PlanOf(me.pc)))
  {
    hide Seal, ClaimRows, HeldElsewhere, PendingElsewhere, OpenedElsewhere, IsHead;
  }

  lemma StatementKeepsReads(s: State, sid: nat, s': State, signer: Signer)
    requires AllReadsFit(s) && sid in s.sessions && sid in s'.sessions && SessionStep(s, sid, s', signer)
    ensures AllReadsFit(s')
  {
    hide SessionStep, ReadsFit, RowsSane;
    var me := s.sessions[sid];
    SessionsOfStep(s, sid, s', signer);
    if Reading(me.pc) {
      ReadStep(s, sid, s', signer);
      ReadKeepsReads(s.db, me);
    } else if me.pc.Returning? {
      CommitKeepsRowsSane(s, sid, s', signer);
    } else {
      QuietKeepsReads(s, sid, s', signer);
      SameReadsFit(me, s'.sessions[sid]);
    }
  }

  lemma SameReadsFit(me: Session, me': Session)
    requires ReadsFit(me) && me'.job == me.job
    requires ReadOf(me'.pc).None? || (ReadOf(me'.pc) == ReadOf(me.pc) && PlanOf(me'.pc) == PlanOf(me.pc))
    ensures ReadsFit(me')
  {
  }

  lemma ReadStep(s: State, sid: nat, s': State, signer: Signer)
    requires sid in s.sessions && sid in s'.sessions && SessionStep(s, sid, s', signer) && Reading(s.sessions[sid].pc)
    ensures s'.db == s.db
    ensures s'.sessions[sid] == s.sessions[sid].(pc := AfterRead(s.db, s.sessions[sid].job, s.sessions[sid].pc))
  {
    hide AfterRead;
  }

  // What a commit does to the deal rows.
  lemma CommitRewrites(s: State, sid: nat, s': State, signer: Signer)
    requires sid in s.sessions && sid in s'.sessions && SessionStep(s, sid, s', signer) && s.sessions[sid].pc.Returning?
    ensures var me := s.sessions[sid];
      && s'.sessions[sid] == Session(me.job, Ended(me.pc.outcome), map[], [])
      && s'.db.deals == (if me.pc.done.Some? && RewritesDeal(me.job, me.pc.done.value.plan)
                         then s.db.deals[DealOf(me.job) := me.pc.done.value.plan.newDeal] else s.db.deals)
  {
    hide RewritesDeal;
  }

  lemma CommitKeepsRowsSane(s: State, sid: nat, s': State, signer: Signer)
    requires AllReadsFit(s) && sid in s.sessions && sid in s'.sessions && SessionStep(s, sid, s', signer)
    requires s.sessions[sid].pc.Returning?
    ensures RowsSane(s'.db.deals) && ReadsFit(s'.sessions[sid])
  {
    hide SessionStep, RewritesDeal, Sane, PlannedFrom;
    var me := s.sessions[sid];
    CommitRewrites(s, sid, s', signer);
    assert ReadsFit(me);
    if me.pc.done.Some? { PlanKeepsSane(me.job, me.pc.done.value.deal, me.pc.done.value.plan); }
  }

  lemma TurnKeepsReads(s: State, m: Turn, s': State, signer: Signer)
    requires AllReadsFit(s) && Takes(s, m, s', signer)
    ensures AllReadsFit(s')
  {
    hide SessionStep, ReadsFit;
    match m
    case Statement(sid) => StatementKeepsReads(s, sid, s', signer);
    case Crash(sid) => NothingRead(GivenUp(s.sessions[sid]));
    case Registration(d, record) => assert Sane(NewDeal(d), d);
  }

  lemma NothingRead(me: Session)
    requires ReadOf(me.pc).None?
    ensures ReadsFit(me)
  {
  }

  lemma {:induction false} InterleavingKeepsReads(trace: seq<State>, turns: seq<Turn>, signer: Signer, k: nat)
    requires Interleaving(trace, turns, signer) && k < |trace|
    ensures AllReadsFit(trace[k])
    decreases k
  {
    hide Takes;
    if k > 0 {
      InterleavingKeepsReads(trace, turns, signer, k - 1);
      assert TurnAt(trace, turns, signer, k - 1);
      hide AllReadsFit;
      TurnKeepsReads(trace[k - 1], turns[k - 1], trace[k], signer);
    }
  }

  // At step j this session ran the statement that reads its deal, and this is the row it found.
  predicate ReadAt(trace: seq<State>, turns: seq<Turn>, sid: nat, j: nat, deal: Deal) {
    && j < |trace| && j < |turns| && turns[j] == Statement(sid) && sid in trace[j].sessions
    && trace[j].sessions[sid].pc.ReadDeal?
    && DealOf(trace[j].sessions[sid].job) in trace[j].db.deals
    && trace[j].db.deals[DealOf(trace[j].sessions[sid].job)] == deal
  }

  lemma OneTurnKeepsRead(s: State, m: Turn, s': State, sid: nat, signer: Signer)
    requires AllReadsFit(s) && Takes(s, m, s', signer) && sid in s'.sessions && ReadOf(s'.sessions[sid].pc).Some?
    ensures sid in s.sessions
    ensures ReadOf(s.sessions[sid].pc) == ReadOf(s'.sessions[sid].pc)
      || (m == Statement(sid) && s.sessions[sid].pc.ReadDeal? && DealOf(s.sessions[sid].job) in s.db.deals
          && s.db.deals[DealOf(s.sessions[sid].job)] == ReadOf(s'.sessions[sid].pc).value)
  {
    hide SessionStep, AfterRead;
    if m.Statement? {
      var me := s.sessions[m.sid];
      SessionsOfStep(s, m.sid, s', signer);
      if m.sid == sid {
        if Reading(me.pc) {
          ReadStep(s, sid, s', signer);
          assert ReadsFit(me);
          ReadKeepsReads(s.db, me);
        } else if me.pc.Returning? {
          CommitRewrites(s, sid, s', signer);
        } else {
          QuietKeepsReads(s, sid, s', signer);
        }
      }
    }
  }

  // The deal a session works from is the row its first statement found.
  lemma {:induction false} ReadWasStored(trace: seq<State>, turns: seq<Turn>, signer: Signer, k: nat, sid: nat)
    returns (j: nat)
    requires Interleaving(trace, turns, signer) && k < |trace| && sid in trace[k].sessions
    requires ReadOf(trace[k].sessions[sid].pc).Some?
    ensures j < k && ReadAt(trace, turns, sid, j, ReadOf(trace[k].sessions[sid].pc).value)
    decreases k
  {
    hide Takes;
    if k > 0 {
      assert TurnAt(trace, turns, signer, k - 1);
      InterleavingKeepsReads(trace, turns, signer, k - 1);
      OneTurnKeepsRead(trace[k - 1], turns[k - 1], trace[k], sid, signer);
      if ReadOf(trace[k - 1].sessions[sid].pc) == ReadOf(trace[k].sessions[sid].pc) {
        j := ReadWasStored(trace, turns, signer, k - 1, sid);
      } else {
        j := k - 1;
      }
    }
  }

  /* ----- the row and the chain ----- */

  predicate RowIsReplay(deal: Deal, chain: seq<Event>, d: Id) { deal == Replay(NewDeal(d), Payloads(chain)) }

  predicate Joined(chain: seq<Event>, d: Id) { Linked(NewDeal(d), Payloads(chain)) }

  lemma ReturningFits(s: State, sid: nat, chains: map<Id, seq<Event>>, signer: Signer)
    requires Inv(s, chains, signer) && sid in s.sessions
    requires s.sessions[sid].pc.Returning? && s.sessions[sid].pc.done.Some?
    ensures var me := s.sessions[sid];
      var w, d := me.pc.done.value, DealOf(me.job);
      && d in chains && d in s.db.deals && w.plan.header.dealId == d
      && me.rows == Seal(w.plan.header, |chains[d]|, Head(chains[d]), w.plan.entries, signer)
  {
    hide Seal, ClaimsOf, HoldsAll, ClaimsUnique, ClaimsStored, AllChainsValid, Apart;
    assert SessionFits(s.sessions[sid], s.db.claims, chains, signer);
  }

  lemma AppendedIff(job: Job, read: Deal, plan: Plan, current: Deal, chain: seq<Event>, signer: Signer)
    requires PlannedFrom(job, read, plan) && Sane(read, DealOf(job)) && current.dealId == DealOf(job)
    ensures var d := DealOf(job);
      var longer := chain + Seal(plan.header, |chain|, Head(chain), plan.entries, signer);
      && (RowIsReplay(current, chain, d) ==>
            (RowIsReplay(Rewritten(job, plan, current), longer, d) <==> StillCurrent(job, plan, read, current)))
      && (Joined(longer, d) <==>
            Joined(chain, d) && (MoveOf(plan).Some? ==> read.state == LastState(DealState.Draft, Payloads(chain))))
  {
    hide Seal, PlannedFrom, StillCurrent, Linked, MoveOf, RewritesDeal;
    var d := DealOf(job);
    var before := Replay(NewDeal(d), Payloads(chain));
    PayloadsOfAppend(chain, plan, |chain|, Head(chain), signer);
    ReplayAppend(NewDeal(d), Payloads(chain), EntryPayloads(plan));
    ReplayCounts(NewDeal(d), Payloads(chain));
    StalePlan(job, read, plan, current);
    StalePlan(job, read, plan, before);
  }

  // When any commit publishes, the stored deal goes on being the replay of its chain if and only if what
  // it writes back from its copy was still current; and its transition continues the chain if and only
  // if the state it read is the state the chain is in.
  lemma CommitFollowsChainIff(s: State, sid: nat, s': State, chains: map<Id, seq<Event>>, signer: Signer)
    requires Inv(s, chains, signer) && AllReadsFit(s)
    requires sid in s.sessions && sid in s'.sessions && SessionStep(s, sid, s', signer)
    requires s.sessions[sid].pc.Returning? && s.sessions[sid].pc.done.Some?
    ensures var me := s.sessions[sid];
      var w, d, after := me.pc.done.value, DealOf(me.job), Grown(chains, me);
      && d in s.db.deals && d in chains && d in s'.db.deals && d in after
      && (RowIsReplay(s.db.deals[d], chains[d], d) ==>
            (RowIsReplay(s'.db.deals[d], after[d], d) <==> StillCurrent(me.job, w.plan, w.deal, s.db.deals[d])))
      && (Joined(after[d], d) <==>
            Joined(chains[d], d)
            && (MoveOf(w.plan).Some? ==> w.deal.state == LastState(DealState.Draft, Payloads(chains[d]))))
  {
    hide Inv, SessionStep, PlannedFrom, Seal, StillCurrent, MoveOf, RowIsReplay, Joined, RewritesDeal, AllReadsFit,
      TablesFit, Sane;
    var me := s.sessions[sid];
    ReturningFits(s, sid, chains, signer);
    CommitRewrites(s, sid, s', signer);
    SaneRead(s, sid);
    AppendedIff(me.job, me.pc.done.value.deal, me.pc.done.value.plan, s.db.deals[DealOf(me.job)], chains[DealOf(me.job)],
      signer);
  }

  lemma SaneRead(s: State, sid: nat)
    requires AllReadsFit(s) && sid in s.sessions && s.sessions[sid].pc.Returning? && s.sessions[sid].pc.done.Some?
    ensures var me := s.sessions[sid];
      var w, d := me.pc.done.value, DealOf(me.job);
      && PlannedFrom(me.job, w.deal, w.plan) && Sane(w.deal, d)
      && (d in s.db.deals ==> s.db.deals[d].dealId == d)
  {
    hide PlannedFrom;
    assert ReadsFit(s.sessions[sid]);
  }

  lemma CommitLeavesOtherDeals(s: State, sid: nat, s': State, chains: map<Id, seq<Event>>, signer: Signer, x: Id)
    requires sid in s.sessions && sid in s'.sessions && SessionStep(s, sid, s', signer)
    requires s.sessions[sid].pc.Returning? && s.sessions[sid].pc.done.Some? && x != DealOf(s.sessions[sid].job)
    ensures x in s'.db.deals <==> x in s.db.deals
    ensures x in s.db.deals ==> s'.db.deals[x] == s.db.deals[x]
    ensures x in Grown(chains, s.sessions[sid]) <==> x in chains
    ensures x in chains ==> Grown(chains, s.sessions[sid])[x] == chains[x]
  {
    hide SessionStep, RewritesDeal;
    CommitRewrites(s, sid, s', signer);
  }

  // The same over a whole interleaving, with the copy named: it is the row the session's first statement
  // found, at step j of the same interleaving.
  lemma RowFollowsChainIffReadIsCurrent(trace: seq<State>, turns: seq<Turn>, signer: Signer, k: nat, sid: nat)
    returns (j: nat, chains: map<Id, seq<Event>>)
    requires Interleaving(trace, turns, signer) && k < |turns| && turns[k] == Statement(sid)
    requires sid in trace[k].sessions && trace[k].sessions[sid].pc.Returning? && trace[k].sessions[sid].pc.done.Some?
    ensures RowsAre(trace[k].db.events, chains) && chains.Keys == trace[k].db.deals.Keys
    ensures RowsAre(trace[k + 1].db.events, Grown(chains, trace[k].sessions[sid]))
    ensures var me := trace[k].sessions[sid];
      var plan, d, after := me.pc.done.value.plan, DealOf(me.job), Grown(chains, me);
      && j < k && d in trace[j].db.deals && ReadAt(trace, turns, sid, j, trace[j].db.deals[d])
      && d in trace[k].db.deals && d in chains && d in trace[k + 1].db.deals && d in after
      && PlannedFrom(me.job, trace[j].db.deals[d], plan)
      && (RowIsReplay(trace[k].db.deals[d], chains[d], d) ==>
            (RowIsReplay(trace[k + 1].db.deals[d], after[d], d) <==>
               StillCurrent(me.job, plan, trace[j].db.deals[d], trace[k].db.deals[d])))
      && (Joined(after[d], d) <==>
            Joined(chains[d], d)
            && (MoveOf(plan).Some? ==> trace[j].db.deals[d].state == LastState(DealState.Draft, Payloads(chains[d]))))
  {
    hide Interleaving, SessionStep, PlannedFrom, StillCurrent, MoveOf, RowIsReplay, Joined, Grown, RowsAre;
    TurnOf(trace, turns, signer, k);
    chains := InterleavingKeepsInv(trace, turns, signer, k);
    InterleavingKeepsReads(trace, turns, signer, k);
    j := ReadWasStored(trace, turns, signer, k, sid);
    CommitFollowsChainIff(trace[k], sid, trace[k + 1], chains, signer);
    TurnKeepsInv(trace[k], turns[k], trace[k + 1], chains, signer);
    assert ReadsFit(trace[k].sessions[sid]);
    JobStays(trace, turns, signer, j, k, sid);
  }

  lemma TurnOf(trace: seq<State>, turns: seq<Turn>, signer: Signer, k: nat)
    requires Interleaving(trace, turns, signer) && k < |turns|
    ensures |trace| == |turns| + 1 && Takes(trace[k], turns[k], trace[k + 1], signer)
  {
    hide Takes;
    assert TurnAt(trace, turns, signer, k);
  }

  lemma TurnKeepsJobs(s: State, m: Turn, s': State, signer: Signer, sid: nat)
    requires Takes(s, m, s', signer) && sid in s.sessions
    ensures sid in s'.sessions && s'.sessions[sid].job == s.sessions[sid].job
  {
    hide AfterRead, Published, Seal, ClaimRows, IsHead, HeldElsewhere, PendingElsewhere, OpenedElsewhere;
  }

  lemma {:induction false} JobStays(trace: seq<State>, turns: seq<Turn>, signer: Signer, j: nat, k: nat, sid: nat)
    requires Interleaving(trace, turns, signer) && j <= k < |trace| && sid in trace[j].sessions
    ensures sid in trace[k].sessions && trace[k].sessions[sid].job == trace[j].sessions[sid].job
    decreases k
  {
    hide Takes;
    if j < k {
      JobStays(trace, turns, signer, j, k - 1, sid);
      TurnOf(trace, turns, signer, k - 1);
      TurnKeepsJobs(trace[k - 1], turns[k - 1], trace[k], signer, sid);
    }
  }

  /* ----- the whole interleaving ----- */

  predicate DealsFollow(deals: map<Id, Deal>, chains: map<Id, seq<Event>>) {
    && chains.Keys == deals.Keys
    && forall d | d in deals :: RowIsReplay(deals[d], chains[d], d) && Joined(chains[d], d)
  }

  // Every deal row is the replay of its chain and every chain joins up from state to state.
  ghost predicate Faithful(s: State) {
    exists chains :: RowsAre(s.db.events, chains) && DealsFollow(s.db.deals, chains)
  }

  // If this turn commits a plan, the plan was made from the deal as it is stored now, as far as it counts.
  predicate TurnIsCurrent(s: State, m: Turn) {
    m.Statement? && m.sid in s.sessions && s.sessions[m.sid].pc.Returning? && s.sessions[m.sid].pc.done.Some? ==>
      var me := s.sessions[m.sid];
      var w, d := me.pc.done.value, DealOf(me.job);
      d in s.db.deals
      && StillCurrent(me.job, w.plan, w.deal, s.db.deals[d]) && StateCurrent(w.plan, w.deal, s.db.deals[d])
  }

  lemma CommitIsFaithfulIff(s: State, sid: nat, s': State, chains: map<Id, seq<Event>>, signer: Signer)
    requires Inv(s, chains, signer) && AllReadsFit(s) && DealsFollow(s.db.deals, chains)
    requires sid in s.sessions && sid in s'.sessions && SessionStep(s, sid, s', signer) && s.sessions[sid].pc.Returning?
    requires Inv(s', Grown(chains, s.sessions[sid]), signer)
    ensures DealsFollow(s'.db.deals, Grown(chains, s.sessions[sid])) <==> TurnIsCurrent(s, Statement(sid))
  {
    hide SessionStep, StillCurrent, RowIsReplay, Joined, MoveOf, SessionsFit, RowsAre, AllReadsFit;
    var me := s.sessions[sid];
    if me.pc.done.None? {
      CommitRewrites(s, sid, s', signer);
    } else {
      var d := DealOf(me.job);
      CommitFollowsChainIff(s, sid, s', chains, signer);
      StateIsLastState(s.db.deals[d], chains[d], d);
      hide Grown;
      forall x | x in s'.db.deals && x != d
        ensures x in s.db.deals && x in chains && s'.db.deals[x] == s.db.deals[x]
        ensures x in Grown(chains, me) && Grown(chains, me)[x] == chains[x]
      {
        CommitLeavesOtherDeals(s, sid, s', chains, signer, x);
      }
    }
  }

  lemma StateIsLastState(deal: Deal, chain: seq<Event>, d: Id)
    requires RowIsReplay(deal, chain, d)
    ensures deal.state == LastState(DealState.Draft, Payloads(chain))
  {
    ReplayCounts(NewDeal(d), Payloads(chain));
  }

  lemma TurnIsFaithfulIff(s: State, m: Turn, s': State, chains: map<Id, seq<Event>>, signer: Signer)
    requires Inv(s, chains, signer) && AllReadsFit(s) && DealsFollow(s.db.deals, chains) && Takes(s, m, s', signer)
    ensures DealsFollow(s'.db.deals, ChainsAfter(s, m, chains)) <==> TurnIsCurrent(s, m)
  {
    hide SessionStep, StillCurrent, RowIsReplay, Joined, Grown, Inv, AllReadsFit;
    TurnKeepsInv(s, m, s', chains, signer);
    match m
    case Statement(sid) =>
      if s.sessions[sid].pc.Returning? {
        CommitIsFaithfulIff(s, sid, s', chains, signer);
      } else if Reading(s.sessions[sid].pc) {
        ReadStep(s, sid, s', signer);
      } else {
        QuietKeepsReads(s, sid, s', signer);
      }
    case Crash(_) =>
    case Registration(d, _) => NewDealFollows(d);
  }

  lemma NewDealFollows(d: Id)
    ensures RowIsReplay(NewDeal(d), [], d) && Joined([], d)
  {
  }

  lemma FaithfulStep(trace: seq<State>, turns: seq<Turn>, signer: Signer, k: nat)
    requires Interleaving(trace, turns, signer) && k < |turns|
    requires Faithful(trace[k])
    ensures Faithful(trace[k + 1]) <==> TurnIsCurrent(trace[k], turns[k])
  {
    hide Interleaving, Takes, RowsAre, AllReadsFit, TurnIsCurrent, ChainsAfter, RowIsReplay, Joined, SessionsFit;
    TurnOf(trace, turns, signer, k);
    InterleavingKeepsReads(trace, turns, signer, k);
    var chains := InterleavingKeepsInv(trace, turns, signer, k);
    var s, s' := trace[k], trace[k + 1];
    var known :| RowsAre(s.db.events, known) && DealsFollow(s.db.deals, known);
    RowsDetermineChains(s.db.events, chains, known);
    var after := ChainsAfter(s, turns[k], chains);
    TurnKeepsInv(s, turns[k], s', chains, signer);
    TurnIsFaithfulIff(s, turns[k], s', chains, signer);
    if Faithful(s') {
      var other :| RowsAre(s'.db.events, other) && DealsFollow(s'.db.deals, other);
      RowsDetermineChains(s'.db.events, after, other);
    }
  }

  // Throughout an interleaving every deal row is the replay of a joined chain if and only if every
  // commit in it was planned on the deal as stored when it published, as far as the plan depends on it.
  lemma FaithfulIffCommitsAreCurrent(trace: seq<State>, turns: seq<Turn>, signer: Signer)
    requires Interleaving(trace, turns, signer)
    ensures (forall k | 0 <= k < |trace| :: Faithful(trace[k])) <==>
            (forall k | 0 <= k < |turns| :: TurnIsCurrent(trace[k], turns[k]))
  {
    hide Takes, Faithful, TurnIsCurrent;
    if forall k | 0 <= k < |trace| :: Faithful(trace[k]) {
      forall k | 0 <= k < |turns| ensures TurnIsCurrent(trace[k], turns[k]) {
        assert Faithful(trace[k]) && Faithful(trace[k + 1]);
        FaithfulStep(trace, turns, signer, k);
      }
    }
    if forall k | 0 <= k < |turns| :: TurnIsCurrent(trace[k], turns[k]) {
      forall k | 0 <= k < |trace| ensures Faithful(trace[k]) { CurrentSoFar(trace, turns, signer, k); }
    }
  }

  lemma {:induction false} CurrentSoFar(trace: seq<State>, turns: seq<Turn>, signer: Signer, k: nat)
    requires Interleaving(trace, turns, signer) && k < |trace|
    requires forall i | 0 <= i < |turns| :: TurnIsCurrent(trace[i], turns[i])
    ensures Faithful(trace[k])
    decreases k
  {
    hide Takes, TurnIsCurrent;
    if k == 0 {
      assert DealsFollow(map[], map[]) && RowsAre(map[], map[]);
    } else {
      hide Faithful;
      CurrentSoFar(trace, turns, signer, k - 1);
      assert TurnIsCurrent(trace[k - 1], turns[k - 1]);
      FaithfulStep(trace, turns, signer, k - 1);
    }
  }

  /* ----- claims ----- */

  // What an ALREADY_APPLIED request leaves: no event, but its own idempotency row when the key was free.
  lemma LostClaimKeepsTheFirstRow(l: Ledger, req: CommitRequest, ids: Ids, signer: Signer)
    requires PgCommitRequestOn(l, req, ids, signer).0.outcome.AlreadyApplied?
    ensures var l' := PgCommitRequestOn(l, req, ids, signer).1;
      && l'.chains == l.chains
      && l'.decisions == (if req.idempotencyKey in l.decisions then l.decisions
                          else l.decisions[req.idempotencyKey := (req.proposalDigest, req.decision)])
  {
    hide Seal, PlanRequest, WithRow, PlanTransition, Claimed, Extended;
    LostClaimKeepsDecision(l.decisions, l.seenRequests, l.nonceOwners, req);
  }

  lemma LostClaimKeepsDecision(decisions: Decisions, requests: set<Id>, nonces: map<string, Id>, req: CommitRequest)
    ensures Claimed(decisions, requests, nonces, req).decisions ==
      if req.idempotencyKey in decisions then decisions
      else decisions[req.idempotencyKey := (req.proposalDigest, req.decision)]
  {
  }

  // After ALREADY_APPLIED every stored decision still has its event if and only if the idempotency key
  // itself was taken. Otherwise the gate answers the caller with a decision no event records.
  lemma LostClaimAnswersWithoutAnEvent(l: Ledger, pi: PolicyInput, recordedAt: Instant, ids: Ids, signer: Signer)
    requires OnceOnly(l)
    requires PgCommitRequestOn(l, RequestOf(pi, recordedAt), ids, signer).0.outcome.AlreadyApplied?
    ensures var l' := PgCommitRequestOn(l, RequestOf(pi, recordedAt), ids, signer).1;
      var key := pi.proposal.idempotencyKey;
      && (KeysBacked(l'.chains, l'.decisions) <==> key in l.decisions)
      && (key !in l.decisions ==> CheckAntiReplay(l', pi) == IdempotentHit(Evaluate(pi)))
  {
    var l' := PgCommitRequestOn(l, RequestOf(pi, recordedAt), ids, signer).1;
    var key := pi.proposal.idempotencyKey;
    LostClaimKeepsTheFirstRow(l, RequestOf(pi, recordedAt), ids, signer);
    hide PgCommitRequestOn, Evaluate, ClaimsUnique, DecisionsShown;
    if key !in l.decisions {
      FreeKeyHasNoEvent(l, key);
      assert key in l'.decisions && l'.chains == l.chains;
      assert !KeysBacked(l'.chains, l'.decisions);
    }
  }

  lemma FreeKeyHasNoEvent(l: Ledger, key: Id)
    requires OnceOnly(l) && key !in l.decisions
    ensures forall d, i | At(l.chains, d, i) :: IdempotencyKey(key) !in ClaimsOf(PayloadAt(l.chains, d, i))
  {
    forall d, i | At(l.chains, d, i) ensures IdempotencyKey(key) !in ClaimsOf(PayloadAt(l.chains, d, i)) {
      assert !Taken(l.decisions, l.seenRequests, l.seenCommands, IdempotencyKey(key));
    }
  }

  // It takes a rival between the gate and the commit: on a state the gate has just passed, the commit
  // never reports ALREADY_APPLIED.
  lemma PassedGateNeverLosesAClaim(l: Ledger, pi: PolicyInput, recordedAt: Instant, ids: Ids, signer: Signer)
    requires CheckAntiReplay(l, pi).Pass?
    ensures !PgCommitRequestOn(l, RequestOf(pi, recordedAt), ids, signer).0.outcome.AlreadyApplied?
  {
    hide Evaluate, Seal, PlanRequest;
  }
}
