/**
 * One approval, many deciders (adapters/postgres/store.py commit_approval): when a decision finds the
 * approval still pending, and what it takes for two decisions of one approval to commit.
 */
module Decisions {
  import opened Common
  import opened Deals
  import opened Crypto
  import opened Authority
  import opened Chain
  import opened Plans
  import opened Ledger
  import opened Postgres
  import opened Sessions
  import opened Races

  predicate IsPending(approvals: map<Id, Approval>, id: Id) { id in approvals && approvals[id].status.Pending? }

  // A session about to publish a plan.
  predicate Publishing(me: Session) { me.pc.Returning? && me.pc.done.Some? }

  // The approval row a session about to publish opens.
  function Opening(me: Session): Option<Id> {
    if Publishing(me) then OpenedRow(me.job, me.pc.done.value.plan) else None
  }

  // A decision that has read its approval and gone on.
  predicate PastApproval(me: Session) { me.job.ApprovalJob? && ReadOf(me.pc).Some? && !me.pc.ReadApproval? }

  /* ----- the approval rows ----- */

  predicate OpensFresh(me: Session, approvals: map<Id, Approval>) {
    && (Opening(me).Some? ==> Opening(me).value !in approvals)
    && (PastApproval(me) ==> me.job.approval.approvalId in approvals)
  }

  ghost predicate ApprovalsFit(s: State) {
    && (forall i | i in s.sessions :: OpensFresh(s.sessions[i], s.db.approvals))
    && (forall i, j | i in s.sessions && j in s.sessions && i != j && Opening(s.sessions[i]).Some? ::
          Opening(s.sessions[i]) != Opening(s.sessions[j]))
  }

  // What publishing does to the approval rows.
  function WithPublished(approvals: map<Id, Approval>, me: Session): map<Id, Approval> {
    if !Publishing(me) || me.pc.done.value.plan.approval.None? then approvals
    else
      var row := me.pc.done.value.plan.approval.value;
      if me.job.ApprovalJob? then approvals[me.job.approval.approvalId := row] else approvals[row.approvalId := row]
  }

  lemma PublishedApprovals(db: Db, me: Session)
    requires me.pc.Returning?
    ensures Published(db, me).approvals == WithPublished(db.approvals, me)
  {
    hide RewritesDeal, AddRows;
  }

  // A statement: what it does to the approval rows and to the session's place among the deciders.
  lemma StatementApprovals(s: State, sid: nat, s': State, signer: Signer)
    requires sid in s.sessions && sid in s'.sessions && SessionStep(s, sid, s', signer)
    ensures var me, me' := s.sessions[sid], s'.sessions[sid];
      && me'.job == me.job && s'.sessions == s.sessions[sid := me']
      && s'.db.approvals == WithPublished(s.db.approvals, me)
      && (me.pc.Returning? ==> Opening(me').None? && !PastApproval(me'))
      && (PastApproval(me') ==> PastApproval(me) || (me.pc.ReadApproval? && IsPending(s.db.approvals, me.job.approval.approvalId)))
      && (Opening(me').Some? ==> Opening(me').value !in s.db.approvals && !OpenedElsewhere(s.sessions, sid, Opening(me').value))
  {
    hide Seal, ClaimRows, HeldElsewhere, PendingElsewhere, OpenedElsewhere, IsHead, Published, OpenedRow, PlanRequest,
      PlanBoundary, PlanApproval, PlanRevocation, TransitionFor, WithPublished;
    var me := s.sessions[sid];
    if me.pc.Returning? {
      PublishedApprovals(s.db, me);
    } else {
      NothingPublished(s.db.approvals, me);
    }
  }

  lemma NothingPublished(approvals: map<Id, Approval>, me: Session)
    requires !me.pc.Returning?
    ensures WithPublished(approvals, me) == approvals
  {
  }

  lemma PublishingKeepsFresh(approvals: map<Id, Approval>, me: Session, other: Session)
    requires OpensFresh(me, approvals) && OpensFresh(other, approvals) && PlanOpens(me)
    requires Opening(me).Some? ==> Opening(me) != Opening(other)
    ensures OpensFresh(other, WithPublished(approvals, me))
  {
  }

  // The row a request's plan carries is the one it opens; a decision overwrites a row it has read.
  predicate PlanOpens(me: Session) {
    Publishing(me) ==>
      && (me.job.ApprovalJob? ==> PastApproval(me))
      && (me.pc.done.value.plan.approval.Some? ==> me.job.ApprovalJob? || me.job.RequestJob?)
  }

  lemma FitPlanOpens(me: Session)
    requires ReadsFit(me)
    ensures PlanOpens(me)
  {
    hide PlanRequest, PlanApproval, Sane;
  }

  lemma StatementKeepsApprovals(s: State, sid: nat, s': State, signer: Signer)
    requires ApprovalsFit(s) && AllReadsFit(s)
    requires sid in s.sessions && sid in s'.sessions && SessionStep(s, sid, s', signer)
    ensures ApprovalsFit(s')
  {
    StatementApprovals(s, sid, s', signer);
    hide SessionStep, PlanOpens, WithPublished, PastApproval, Opening, IsPending;
    var me, me' := s.sessions[sid], s'.sessions[sid];
    assert ReadsFit(me) && OpensFresh(me, s.db.approvals);
    FitPlanOpens(me);
    hide AllReadsFit, ReadsFit;
    forall j | j in s'.sessions ensures OpensFresh(s'.sessions[j], s'.db.approvals) {
      if j != sid {
        assert OpensFresh(s.sessions[j], s.db.approvals);
        PublishingKeepsFresh(s.db.approvals, me, s.sessions[j]);
      } else if me.pc.Returning? {
        IdleOpensFresh(me', s'.db.approvals);
      } else {
        NothingPublished(s.db.approvals, me);
        GoesOnFresh(me, me', s.db.approvals);
      }
    }
    if !me.pc.Returning? && Opening(me').Some? {
      forall j | j in s.sessions && j != sid ensures Opening(s.sessions[j]) != Opening(me') {
        NotOpenedElsewhere(s.sessions, sid, j, Opening(me').value);
      }
    }
  }

  lemma IdleOpensFresh(me: Session, approvals: map<Id, Approval>)
    requires Opening(me).None? && !PastApproval(me)
    ensures OpensFresh(me, approvals)
  {
  }

  lemma GoesOnFresh(me: Session, me': Session, approvals: map<Id, Approval>)
    requires OpensFresh(me, approvals) && me'.job == me.job
    requires Opening(me').Some? ==> Opening(me').value !in approvals
    requires PastApproval(me') ==> PastApproval(me) || IsPending(approvals, me.job.approval.approvalId)
    ensures OpensFresh(me', approvals)
  {
  }

  lemma NotOpenedElsewhere(sessions: map<nat, Session>, sid: nat, j: nat, id: Id)
    requires !OpenedElsewhere(sessions, sid, id) && j in sessions && j != sid
    ensures Opening(sessions[j]) != Some(id)
  {
  }

  lemma TurnKeepsApprovals(s: State, m: Turn, s': State, signer: Signer)
    requires ApprovalsFit(s) && AllReadsFit(s) && Takes(s, m, s', signer)
    ensures ApprovalsFit(s')
  {
    hide SessionStep, OpensFresh, Opening, AllReadsFit;
    match m
    case Statement(sid) => StatementKeepsApprovals(s, sid, s', signer);
    case Crash(sid) =>
      GivenUpOpensNothing(s.sessions[sid], s.db.approvals);
    case Registration(_, _) =>
  }

  lemma GivenUpOpensNothing(me: Session, approvals: map<Id, Approval>)
    ensures Opening(GivenUp(me)).None? && OpensFresh(GivenUp(me), approvals)
  {
  }

  lemma {:induction false} InterleavingKeepsApprovals(trace: seq<State>, turns: seq<Turn>, signer: Signer, k: nat)
    requires Interleaving(trace, turns, signer) && k < |trace|
    ensures ApprovalsFit(trace[k])
    decreases k
  {
    hide Takes;
    if k == 0 {
      forall i | i in trace[0].sessions ensures OpensFresh(trace[0].sessions[i], map[]) && Opening(trace[0].sessions[i]).None? { }
    } else {
      hide ApprovalsFit;
      InterleavingKeepsApprovals(trace, turns, signer, k - 1);
      InterleavingKeepsReads(trace, turns, signer, k - 1);
      TurnOf(trace, turns, signer, k - 1);
      TurnKeepsApprovals(trace[k - 1], turns[k - 1], trace[k], signer);
    }
  }

  /* ----- decided or not ----- */

  // At step m a decision of this approval is published.
  predicate DecisionAt(trace: seq<State>, turns: seq<Turn>, m: nat, id: Id) {
    && m < |trace| && m < |turns| && turns[m].Statement? && turns[m].sid in trace[m].sessions
    && Publishing(trace[m].sessions[turns[m].sid])
    && trace[m].sessions[turns[m].sid].job.ApprovalJob?
    && trace[m].sessions[turns[m].sid].job.approval.approvalId == id
  }

  ghost predicate Decided(trace: seq<State>, turns: seq<Turn>, k: nat, id: Id) {
    exists m: nat :: m < k && DecisionAt(trace, turns, m, id)
  }

  predicate TurnDecides(s: State, m: Turn, id: Id) {
    && m.Statement? && m.sid in s.sessions && Publishing(s.sessions[m.sid])
    && s.sessions[m.sid].job.ApprovalJob? && s.sessions[m.sid].job.approval.approvalId == id
  }

  // One turn: a decision closes its row for good, an opened row is new and pending, nothing else changes one.
  lemma TurnOnRow(s: State, m: Turn, s': State, signer: Signer, id: Id)
    requires ApprovalsFit(s) && AllReadsFit(s) && Takes(s, m, s', signer)
    ensures TurnDecides(s, m, id) ==> id in s'.db.approvals && !IsPending(s'.db.approvals, id)
    ensures !TurnDecides(s, m, id) && id in s.db.approvals ==> id in s'.db.approvals && s'.db.approvals[id] == s.db.approvals[id]
    ensures !TurnDecides(s, m, id) && id !in s.db.approvals && id in s'.db.approvals ==> IsPending(s'.db.approvals, id)
  {
    hide SessionStep, ReadsFit, PastApproval;
    if m.Statement? {
      StatementApprovals(s, m.sid, s', signer);
      assert ReadsFit(s.sessions[m.sid]) && OpensFresh(s.sessions[m.sid], s.db.approvals);
      if Publishing(s.sessions[m.sid]) { PublishedRow(s.sessions[m.sid]); }
    }
  }

  lemma PublishedRow(me: Session)
    requires ReadsFit(me) && Publishing(me)
    ensures var row := me.pc.done.value.plan.approval;
      if me.job.ApprovalJob? then row.Some? && !row.value.status.Pending?
      else row.Some? ==> me.job.RequestJob? && row.value.status.Pending?
  {
    hide Sane, GrantRecheck, PlanApproval;
  }

  // In every interleaving an approval row is pending exactly as long as no decision of it has been published.
  lemma {:induction false} RowPendingIffUndecided(trace: seq<State>, turns: seq<Turn>, signer: Signer, k: nat, id: Id)
    requires Interleaving(trace, turns, signer) && k < |trace|
    ensures Decided(trace, turns, k, id) ==> id in trace[k].db.approvals
    ensures id in trace[k].db.approvals ==> (IsPending(trace[k].db.approvals, id) <==> !Decided(trace, turns, k, id))
    decreases k
  {
    hide Takes, IsPending, DecisionAt, ApprovalsFit, AllReadsFit;
    if k > 0 {
      RowPendingIffUndecided(trace, turns, signer, k - 1, id);
      InterleavingKeepsApprovals(trace, turns, signer, k - 1);
      InterleavingKeepsReads(trace, turns, signer, k - 1);
      TurnOf(trace, turns, signer, k - 1);
      TurnOnRow(trace[k - 1], turns[k - 1], trace[k], signer, id);
      DecidedSoFar(trace, turns, k - 1, id);
      SamePending(trace[k - 1].db.approvals, trace[k].db.approvals, id);
    }
  }

  lemma SamePending(before: map<Id, Approval>, after: map<Id, Approval>, id: Id)
    ensures id in before && id in after && before[id] == after[id] ==> (IsPending(before, id) <==> IsPending(after, id))
  {
  }

  lemma DecidedSoFar(trace: seq<State>, turns: seq<Turn>, k: nat, id: Id)
    requires k < |trace| && k < |turns|
    ensures Decided(trace, turns, k + 1, id) <==> Decided(trace, turns, k, id) || TurnDecides(trace[k], turns[k], id)
  {
    assert DecisionAt(trace, turns, k, id) <==> TurnDecides(trace[k], turns[k], id);
    if Decided(trace, turns, k + 1, id) {
      var m: nat :| m < k + 1 && DecisionAt(trace, turns, m, id);
    }
  }

  // So a decision gets past its approval exactly when none has been published yet.
  lemma ReadPassesIffUndecided(trace: seq<State>, turns: seq<Turn>, signer: Signer, k: nat, sid: nat)
    requires Interleaving(trace, turns, signer) && k < |turns| && k < |trace| && turns[k] == Statement(sid)
    requires sid in trace[k].sessions && trace[k].sessions[sid].pc.ReadApproval? && trace[k].sessions[sid].job.ApprovalJob?
    requires trace[k].sessions[sid].job.approval.approvalId in trace[k].db.approvals
    ensures k + 1 < |trace| && sid in trace[k + 1].sessions
    ensures trace[k + 1].sessions[sid].pc.ReadCommand? <==>
      !Decided(trace, turns, k, trace[k].sessions[sid].job.approval.approvalId)
  {
    hide Interleaving, Decided;
    TurnOf(trace, turns, signer, k);
    RowPendingIffUndecided(trace, turns, signer, k, trace[k].sessions[sid].job.approval.approvalId);
    hide SessionStep;
    ReadStep(trace[k], sid, trace[k + 1], signer);
  }

  /* ----- two decisions ----- */

  // At step r this decision read its approval and found it pending.
  predicate ReadPendingAt(trace: seq<State>, turns: seq<Turn>, sid: nat, r: nat) {
    && r < |trace| && r < |turns| && turns[r] == Statement(sid) && sid in trace[r].sessions
    && trace[r].sessions[sid].pc.ReadApproval? && trace[r].sessions[sid].job.ApprovalJob?
    && IsPending(trace[r].db.approvals, trace[r].sessions[sid].job.approval.approvalId)
  }

  lemma TurnPassesApproval(s: State, m: Turn, s': State, signer: Signer, sid: nat)
    requires Takes(s, m, s', signer) && sid in s'.sessions && PastApproval(s'.sessions[sid])
    ensures sid in s.sessions && s.sessions[sid].job == s'.sessions[sid].job
    ensures PastApproval(s.sessions[sid])
      || (m == Statement(sid) && s.sessions[sid].pc.ReadApproval? && s.sessions[sid].job.ApprovalJob?
          && IsPending(s.db.approvals, s.sessions[sid].job.approval.approvalId))
  {
    hide SessionStep, IsPending;
    if m.Statement? { StatementApprovals(s, m.sid, s', signer); }
  }

  lemma {:induction false} ReadWhilePending(trace: seq<State>, turns: seq<Turn>, signer: Signer, k: nat,
                                            sid: nat) returns (r: nat)
    requires Interleaving(trace, turns, signer) && k < |trace| && sid in trace[k].sessions && PastApproval(trace[k].sessions[sid])
    ensures r < k && ReadPendingAt(trace, turns, sid, r) && trace[r].sessions[sid].job == trace[k].sessions[sid].job
    decreases k
  {
    hide Takes, IsPending;
    if k > 0 {
      TurnOf(trace, turns, signer, k - 1);
      TurnPassesApproval(trace[k - 1], turns[k - 1], trace[k], signer, sid);
      if PastApproval(trace[k - 1].sessions[sid]) {
        r := ReadWhilePending(trace, turns, signer, k - 1, sid);
      } else {
        r := k - 1;
      }
    }
  }

  lemma TurnCommits(s: State, m: Turn, s': State, signer: Signer, sid: nat)
    requires Takes(s, m, s', signer) && sid in s'.sessions && s'.sessions[sid].pc == Ended(Committed)
    ensures sid in s.sessions && s.sessions[sid].job == s'.sessions[sid].job
    ensures s.sessions[sid].pc == Ended(Committed)
      || (m == Statement(sid) && s.sessions[sid].pc.Returning? && s.sessions[sid].pc.outcome.Committed?)
  {
    hide Published, AfterRead, Seal, ClaimRows, IsHead, HeldElsewhere, PendingElsewhere, OpenedElsewhere;
    if m.Statement? && m.sid == sid && Reading(s.sessions[sid].pc) { ReadNeverEnds(s.db, s.sessions[sid].job, s.sessions[sid].pc); }
  }

  lemma ReadNeverEnds(db: Db, job: Job, pc: Pc)
    requires Reading(pc)
    ensures !AfterRead(db, job, pc).Ended?
  {
  }

  // The step at which a session that ended COMMITTED published its plan.
  lemma {:induction false} CommitStep(trace: seq<State>, turns: seq<Turn>, signer: Signer, k: nat,
                                      sid: nat) returns (c: nat)
    requires Interleaving(trace, turns, signer) && k < |trace| && sid in trace[k].sessions
    requires trace[k].sessions[sid].pc == Ended(Committed)
    ensures c < k && c < |turns| && turns[c] == Statement(sid) && sid in trace[c].sessions
    ensures Publishing(trace[c].sessions[sid]) && trace[c].sessions[sid].job == trace[k].sessions[sid].job
    decreases k
  {
    hide Takes;
    if k > 0 {
      TurnOf(trace, turns, signer, k - 1);
      TurnCommits(trace[k - 1], turns[k - 1], trace[k], signer, sid);
      if trace[k - 1].sessions[sid].pc == Ended(Committed) {
        c := CommitStep(trace, turns, signer, k - 1, sid);
      } else {
        c := k - 1;
        var chains := InterleavingKeepsInv(trace, turns, signer, k - 1);
        CommittedMeansPlan(trace[k - 1], sid, chains, signer);
      }
    }
  }

  lemma TurnKeepsEnded(s: State, m: Turn, s': State, signer: Signer, sid: nat)
    requires Takes(s, m, s', signer) && sid in s.sessions && Over(s.sessions[sid])
    ensures sid in s'.sessions && s'.sessions[sid] == s.sessions[sid]
  {
    hide Published, AfterRead, Seal, ClaimRows, IsHead, HeldElsewhere, PendingElsewhere, OpenedElsewhere;
  }

  // A session that is over, committed or not, stays as it ended: an answer once given is never taken back.
  lemma {:induction false} EndedStays(trace: seq<State>, turns: seq<Turn>, signer: Signer, j: nat, k: nat, sid: nat)
    requires Interleaving(trace, turns, signer) && j <= k < |trace| && sid in trace[j].sessions && Over(trace[j].sessions[sid])
    ensures sid in trace[k].sessions && trace[k].sessions[sid] == trace[j].sessions[sid]
    decreases k
  {
    hide Takes;
    if j < k {
      EndedStays(trace, turns, signer, j, k - 1, sid);
      TurnOf(trace, turns, signer, k - 1);
      TurnKeepsEnded(trace[k - 1], turns[k - 1], trace[k], signer, sid);
    }
  }

  lemma CommittedMeansPlan(s: State, sid: nat, chains: map<Id, seq<Event>>, signer: Signer)
    requires Inv(s, chains, signer) && sid in s.sessions && s.sessions[sid].pc.Returning? && s.sessions[sid].pc.outcome.Committed?
    ensures Publishing(s.sessions[sid])
  {
    hide TablesFit, WriteFits, HoldsAll, Apart;
    assert SessionFits(s.sessions[sid], s.db.claims, chains, signer);
  }

  // Two decisions of one approval both end COMMITTED only if each had read it, still pending, before the
  // other published.
  lemma TwoDecisionsReadBeforeEither(trace: seq<State>, turns: seq<Turn>, signer: Signer, k: nat, i: nat, j: nat)
    returns (ri: nat, ci: nat, rj: nat, cj: nat)
    requires Interleaving(trace, turns, signer) && k < |trace| && i in trace[k].sessions && j in trace[k].sessions && i != j
    requires trace[k].sessions[i].pc == Ended(Committed) && trace[k].sessions[j].pc == Ended(Committed)
    requires trace[k].sessions[i].job.ApprovalJob? && trace[k].sessions[j].job.ApprovalJob?
    requires trace[k].sessions[i].job.approval.approvalId == trace[k].sessions[j].job.approval.approvalId
    ensures ri < ci < k && rj < cj < k && ri < cj && rj < ci
    ensures ReadPendingAt(trace, turns, i, ri) && ReadPendingAt(trace, turns, j, rj)
    ensures DecisionAt(trace, turns, ci, trace[k].sessions[i].job.approval.approvalId) && turns[ci] == Statement(i)
    ensures DecisionAt(trace, turns, cj, trace[k].sessions[i].job.approval.approvalId) && turns[cj] == Statement(j)
  {
    hide Interleaving, IsPending, Decided;
    var id := trace[k].sessions[i].job.approval.approvalId;
    ci := CommitStep(trace, turns, signer, k, i);
    cj := CommitStep(trace, turns, signer, k, j);
    ri := ReadWhilePending(trace, turns, signer, ci, i);
    rj := ReadWhilePending(trace, turns, signer, cj, j);
    RowPendingIffUndecided(trace, turns, signer, ri, id);
    RowPendingIffUndecided(trace, turns, signer, rj, id);
    PendingIsKnown(trace[ri].db.approvals, id);
    PendingIsKnown(trace[rj].db.approvals, id);
    UndecidedUntil(trace, turns, ri, cj, id);
    UndecidedUntil(trace, turns, rj, ci, id);
  }

  lemma UndecidedUntil(trace: seq<State>, turns: seq<Turn>, k: nat, m: nat, id: Id)
    requires !Decided(trace, turns, k, id) && DecisionAt(trace, turns, m, id)
    ensures k <= m
  {
  }

  lemma PendingIsKnown(approvals: map<Id, Approval>, id: Id)
    ensures IsPending(approvals, id) ==> id in approvals
  {
  }
}
