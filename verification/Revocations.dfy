/**
 * Revocations among interleaved commits (adapters/postgres/store.py commit_revocation, commit_approval):
 * a committed one is stored from then on, and no grant that looks for it afterwards moves the deal.
 */
module Revocations {
  import opened Common
  import opened Deals
  import opened Crypto
  import opened Authority
  import opened Chain
  import opened Plans
  import opened Ledger
  import opened Postgres
  import opened Sessions
  import opened Races
  import opened Decisions

  /* ----- the revocation rows ----- */

  // A statement stores the revocation of a job that publishes, unless its id is taken, and leaves every
  // other row.
  lemma StatementRevocations(s: State, sid: nat, s': State, signer: Signer)
    requires sid in s.sessions && sid in s'.sessions && SessionStep(s, sid, s', signer)
    ensures var me := s.sessions[sid];
      s'.db.revocations ==
        if me.pc.Returning? && me.pc.done.Some? && me.job.RevocationJob?
           && me.job.revocation.revocation.fact.revocationId !in s.db.revocations
        then s.db.revocations[me.job.revocation.revocation.fact.revocationId := me.job.revocation.revocation]
        else s.db.revocations
  {
    hide AfterRead, Seal, ClaimRows, IsHead, HeldElsewhere, PendingElsewhere, OpenedElsewhere, RewritesDeal, AddRows;
  }

  lemma TurnKeepsRows(s: State, m: Turn, s': State, signer: Signer)
    requires Takes(s, m, s', signer)
    ensures forall id | id in s.db.revocations ::
      id in s'.db.revocations && s'.db.revocations[id] == s.db.revocations[id]
  {
    hide SessionStep;
    if m.Statement? { StatementRevocations(s, m.sid, s', signer); }
  }

  lemma {:induction false} RowsStay(trace: seq<State>, turns: seq<Turn>, signer: Signer, j: nat, k: nat)
    requires Interleaving(trace, turns, signer) && j <= k < |trace|
    ensures forall id | id in trace[j].db.revocations ::
      id in trace[k].db.revocations && trace[k].db.revocations[id] == trace[j].db.revocations[id]
    decreases k
  {
    hide Takes;
    if j < k {
      RowsStay(trace, turns, signer, j, k - 1);
      TurnOf(trace, turns, signer, k - 1);
      TurnKeepsRows(trace[k - 1], turns[k - 1], trace[k], signer);
    }
  }

  // A revocation that has ended COMMITTED is stored under its id from the step that published it, in this
  // and every later state: its own row, unless that id was already taken, by a row that then stays.
  lemma CommittedRevocationStays(trace: seq<State>, turns: seq<Turn>, signer: Signer, k: nat, sid: nat) returns (c: nat)
    requires Interleaving(trace, turns, signer) && k < |trace| && sid in trace[k].sessions
    requires trace[k].sessions[sid].pc == Ended(Committed) && trace[k].sessions[sid].job.RevocationJob?
    ensures c < k && turns[c] == Statement(sid)
    ensures var revocation, before, now := trace[k].sessions[sid].job.revocation.revocation, trace[c].db.revocations,
      trace[k].db.revocations;
      var id := revocation.fact.revocationId;
      && id in now
      && now[id] == (if id in before then before[id] else revocation)
      && (id !in before || before[id].fact.recordId == revocation.fact.recordId ==>
            exists x | x in now :: now[x].fact.recordId == revocation.fact.recordId)
  {
    hide Takes, SessionStep;
    c := CommitStep(trace, turns, signer, k, sid);
    TurnOf(trace, turns, signer, c);
    assert Takes(trace[c], turns[c], trace[c + 1], signer);
    StatementOf(trace[c], sid, trace[c + 1], signer);
    StatementRevocations(trace[c], sid, trace[c + 1], signer);
    RowsStay(trace, turns, signer, c + 1, k);
    assert trace[k].sessions[sid].job.revocation.revocation.fact.revocationId in trace[k].db.revocations;
  }

  lemma StatementOf(s: State, sid: nat, s': State, signer: Signer)
    requires Takes(s, Statement(sid), s', signer)
    ensures sid in s.sessions && sid in s'.sessions && SessionStep(s, sid, s', signer)
  {
  }

  /* ----- grants that look afterwards ----- */

  // No transition among the events, and the approval closed as denied.
  predicate Denies(plan: Plan) {
    && (forall e | e in plan.entries :: !e.payload.RequestTransition? && !e.payload.GrantedApproval?)
    && plan.approval.Some? && plan.approval.value.status.Denied?
  }

  lemma RevokedPlanDenies(deal: Deal, a: Approval, req: ApprovalRequest, record: Mandate, ids: Ids)
    requires req.operation.Grant? ==> req.approvalRecord.Some? && req.action.Token?
    ensures Denies(PlanApproval(deal, a, req, Some(record), true, ids))
  {
  }

  // A grant that reads the revocations of its record when one is stored that has taken effect by then
  // plans a denial, or raises for want of its approval record.
  lemma RevokedReadDenies(s: State, g: nat, s': State, signer: Signer, id: Id)
    requires g in s.sessions && g in s'.sessions && SessionStep(s, g, s', signer)
    requires var me := s.sessions[g];
      && me.pc.ReadRevocations? && me.job.ApprovalJob? && me.pc.approval.Some?
      && id in s.db.revocations && s.db.revocations[id].fact.recordId == me.pc.record.recordId
      && s.db.revocations[id].fact.revokedAt <= me.job.approval.occurredAt
    ensures var me' := s'.sessions[g];
      me'.job == s.sessions[g].job && me'.pc.Claiming? && (me'.pc.plan.Some? ==> Denies(me'.pc.plan.value))
  {
    hide SessionStep, PlanApproval, Denies;
    var me := s.sessions[g];
    ReadStep(s, g, s', signer);
    assert RevokedAt(s.db.revocations, me.pc.record.recordId, me.job.approval.occurredAt);
    var req := me.job.approval;
    if !(req.operation.Grant? && (req.action.Unrecognised? || req.approvalRecord.None?)) {
      RevokedPlanDenies(me.pc.deal, me.pc.approval.value, req, me.pc.record, me.job.ids);
    }
  }

  // A plan once made is never exchanged for another.
  predicate Planned(me: Session, job: Job, plan: Option<Plan>) {
    me.job == job && !Reading(me.pc) && (PlanOf(me.pc).Some? ==> PlanOf(me.pc) == plan)
  }

  lemma TurnKeepsPlan(s: State, m: Turn, s': State, signer: Signer, g: nat, job: Job, plan: Option<Plan>)
    requires Takes(s, m, s', signer) && g in s.sessions && Planned(s.sessions[g], job, plan)
    ensures g in s'.sessions && Planned(s'.sessions[g], job, plan)
  {
    hide SessionStep;
    if m.Statement? {
      SessionsOfStep(s, m.sid, s', signer);
      if m.sid == g {
        if s.sessions[g].pc.Returning? { CommitRewrites(s, g, s', signer); } else { QuietKeepsPlan(s, g, s', signer); }
      }
    }
  }

  lemma QuietKeepsPlan(s: State, g: nat, s': State, signer: Signer)
    requires g in s.sessions && g in s'.sessions && SessionStep(s, g, s', signer)
    requires !Reading(s.sessions[g].pc) && !s.sessions[g].pc.Returning?
    ensures var me, me' := s.sessions[g], s'.sessions[g];
      me'.job == me.job && !Reading(me'.pc) && (PlanOf(me'.pc).Some? ==> PlanOf(me'.pc) == PlanOf(me.pc))
  {
    hide Seal, ClaimRows, HeldElsewhere, PendingElsewhere, OpenedElsewhere, IsHead;
  }

  lemma {:induction false} PlanStays(trace: seq<State>, turns: seq<Turn>, signer: Signer, j: nat, k: nat, g: nat,
                                     job: Job,
                                     plan: Option<Plan>)
    requires Interleaving(trace, turns, signer) && j <= k < |trace| && g in trace[j].sessions
    requires Planned(trace[j].sessions[g], job, plan)
    ensures g in trace[k].sessions && Planned(trace[k].sessions[g], job, plan)
    decreases k
  {
    hide Takes, Planned;
    if j < k {
      PlanStays(trace, turns, signer, j, k - 1, g, job, plan);
      TurnOf(trace, turns, signer, k - 1);
      TurnKeepsPlan(trace[k - 1], turns[k - 1], trace[k], signer, g, job, plan);
    }
  }

  // Once a revocation has ended COMMITTED and holds its id, a grant under that record that only then
  // reads the revocations, for a time the revocation covers, never moves the deal: whatever it goes on to
  // publish holds no transition and closes the approval as denied.
  lemma NoGrantMovesAfterRevocation(trace: seq<State>, turns: seq<Turn>, signer: Signer, m: nat, i: nat, g: nat, k: nat)
    requires Interleaving(trace, turns, signer) && m < k < |trace| && m < |turns| && turns[m] == Statement(g)
    requires i in trace[m].sessions && trace[m].sessions[i].pc == Ended(Committed)
      && trace[m].sessions[i].job.RevocationJob?
    requires var revocation := trace[m].sessions[i].job.revocation.revocation;
      var id := revocation.fact.revocationId;
      id in trace[m].db.revocations ==> trace[m].db.revocations[id] == revocation
    requires g in trace[m].sessions && trace[m].sessions[g].job.ApprovalJob? && trace[m].sessions[g].pc.ReadRevocations?
    requires trace[m].sessions[g].pc.approval.Some?
    requires var me, fact := trace[m].sessions[g], trace[m].sessions[i].job.revocation.revocation.fact;
      me.pc.approval.value.authorityRecordId == fact.recordId && fact.revokedAt <= me.job.approval.occurredAt
    ensures g in trace[k].sessions && trace[k].sessions[g].job == trace[m].sessions[g].job
    ensures Publishing(trace[k].sessions[g]) ==>
      var plan := trace[k].sessions[g].pc.done.value.plan;
      && (forall e | e in plan.entries :: !e.payload.RequestTransition?)
      && plan.approval.Some? && plan.approval.value.status.Denied?
  {
    hide Takes, SessionStep, RecordsFit;
    var c := CommittedRevocationStays(trace, turns, signer, m, i);
    InterleavingKeepsRecords(trace, turns, signer, m);
    RecordOfGrant(trace[m], g);
    TurnOf(trace, turns, signer, m);
    StatementOf(trace[m], g, trace[m + 1], signer);
    RevokedReadDenies(trace[m], g, trace[m + 1], signer,
      trace[m].sessions[i].job.revocation.revocation.fact.revocationId);
    PlanStays(trace, turns, signer, m + 1, k, g, trace[m].sessions[g].job, PlanOf(trace[m + 1].sessions[g].pc));
  }

  /* ----- the record a grant reads ----- */

  // Records are stored under their own ids, and a decision looks for revocations of the record its
  // approval was asked under.
  predicate RecordsFit(s: State) {
    && (forall id | id in s.db.records :: s.db.records[id].terms.recordId == id)
    && forall i | i in s.sessions :: RecordFits(s.sessions[i])
  }

  predicate RecordFits(me: Session) {
    me.pc.ReadRevocations? && me.job.ApprovalJob? && me.pc.approval.Some? ==>
      me.pc.record.recordId == me.pc.approval.value.authorityRecordId
  }

  lemma RecordOfGrant(s: State, g: nat)
    requires RecordsFit(s) && g in s.sessions
    ensures RecordFits(s.sessions[g])
  {
  }

  lemma StatementKeepsRecords(s: State, sid: nat, s': State, signer: Signer)
    requires RecordsFit(s) && sid in s.sessions && sid in s'.sessions && SessionStep(s, sid, s', signer)
    ensures RecordsFit(s')
  {
    hide Seal, ClaimRows, IsHead, HeldElsewhere, PendingElsewhere, OpenedElsewhere, RewritesDeal, AddRows, PlanRequest,
      PlanBoundary, PlanApproval, PlanRevocation, TransitionFor, RevokedAt, PlanTransition;
  }

  lemma TurnKeepsRecords(s: State, m: Turn, s': State, signer: Signer)
    requires RecordsFit(s) && Takes(s, m, s', signer)
    ensures RecordsFit(s')
  {
    hide SessionStep;
    if m.Statement? { StatementKeepsRecords(s, m.sid, s', signer); }
  }

  lemma {:induction false} InterleavingKeepsRecords(trace: seq<State>, turns: seq<Turn>, signer: Signer, k: nat)
    requires Interleaving(trace, turns, signer) && k < |trace|
    ensures RecordsFit(trace[k])
    decreases k
  {
    hide Takes;
    if k > 0 {
      hide RecordsFit;
      InterleavingKeepsRecords(trace, turns, signer, k - 1);
      TurnOf(trace, turns, signer, k - 1);
      TurnKeepsRecords(trace[k - 1], turns[k - 1], trace[k], signer);
    }
  }
}
