/**
 * The two readings of the Postgres store agree: a session that runs with nobody else holding anything, one
 * SQL statement after another, answers and leaves exactly what the whole commit does.
 */
module Serial {
  import opened Common
  import opened Deals
  import opened Crypto
  import opened Authority
  import opened Policy
  import opened Chain
  import opened Plans
  import opened Ledger
  import opened Once
  import opened Postgres
  import opened Sessions
  import opened Progress

  /* ----- tables and ledgers ----- */

  // Every claim row is a seen key, and every nonce row names its owner.
  ghost predicate ClaimsAgree(claims: map<Row, Id>, decisions: Decisions, requests: set<Id>, commands: set<Id>,
                              nonces: map<string, Id>)
  {
    && (forall k :: ClaimRow(IdempotencyKey(k)) in claims <==> k in decisions)
    && (forall r :: ClaimRow(RequestKey(r)) in claims <==> r in requests)
    && (forall c :: ClaimRow(CommandKey(c)) in claims <==> c in commands)
    && (forall n :: NonceRow(n) in claims <==> n in nonces)
    && (forall n | n in nonces :: claims[NonceRow(n)] == nonces[n])
  }

  // The committed tables hold what the ledger holds.
  ghost predicate Represents(db: Db, l: Ledger) {
    && db.deals == l.deals && db.records == l.records && db.revocations == l.revocations && db.approvals == l.approvals
    && l.chains.Keys == l.deals.Keys && RowsAre(db.events, l.chains)
    && ClaimsAgree(db.claims, l.decisions, l.seenRequests, l.seenCommands, l.nonceOwners)
  }

  // The whole commit of a job.
  function CommitOf(l: Ledger, job: Job, signer: Signer): (CommitResult, Ledger) {
    match job
    case RequestJob(req, ids) => PgCommitRequestOn(l, req, ids, signer)
    case TransitionJob(req, ids) => CommitTransitionOn(l, req, ids, signer)
    case ApprovalJob(req, ids) => CommitApprovalOn(l, req, ids, signer)
    case RevocationJob(req, ids) => PgCommitRevocationOn(l, req, ids, signer)
  }

  // Where the session ends for this answer: an error that was raised rolls it back.
  function EndOf(outcome: CommitOutcome): Pc {
    if outcome.ValueErrorRaised? || outcome.IntegrityErrorRaised? then RolledBack else Ended(outcome)
  }

  /* ----- the reads ----- */

  function Rank(pc: Pc): nat {
    match pc
    case ReadDeal => 5
    case ReadApproval(_) => 4
    case ReadCommand(_, _) => 3
    case ReadRecord(_, _) => 2
    case ReadRevocations(_, _, _) => 1
    case _ => 0
  }

  lemma RankFalls(db: Db, job: Job, pc: Pc)
    requires Reading(pc)
    ensures Rank(AfterRead(db, job, pc)) < Rank(pc)
  {
  }

  // All the reads on unchanging tables.
  function AllRead(db: Db, job: Job, pc: Pc): Pc
    decreases Rank(pc)
  {
    if !Reading(pc) then pc
    else
      RankFalls(db, job, pc);
      AllRead(db, job, AfterRead(db, job, pc))
  }

  lemma OneRead(db: Db, job: Job, pc: Pc)
    ensures AllRead(db, job, pc) == if Reading(pc) then AllRead(db, job, AfterRead(db, job, pc)) else pc
  {
  }

  lemma {:induction false} ReadsAlone(s: State, sid: nat, job: Job, pc: Pc, signer: Signer)
    requires sid in s.sessions && Reachable(With(s, sid, Session(job, pc, map[], [])), signer)
    ensures Reachable(With(s, sid, Session(job, AllRead(s.db, job, pc), map[], [])), signer)
    decreases Rank(pc)
  {
    hide Reachable, AfterRead;
    if Reading(pc) {
      RankFalls(s.db, job, pc);
      var me, me' := Session(job, pc, map[], []), Session(job, AfterRead(s.db, job, pc), map[], []);
      assert With(s, sid, me).sessions[sid := me'] == With(s, sid, me').sessions;
      StatementIsReachable(s, sid, me, me', signer);
      ReadsAlone(s, sid, job, AfterRead(s.db, job, pc), signer);
    }
  }

  // What the reads of each job come to, in the terms of the ledger.
  lemma RequestReads(db: Db, l: Ledger, req: CommitRequest, ids: Ids)
    requires Represents(db, l)
    ensures AllRead(db, RequestJob(req, ids), ReadDeal) ==
      if req.dealId !in l.deals then Stop(DealNotFound)
      else
        match PlanTransition(l.deals[req.dealId], req.action, req.decision.outcome)
        case Stale => Stop(StaleState)
        case Proceed(event) =>
          Claiming(l.deals[req.dealId], Some(PlanRequest(l.deals[req.dealId], req, event, ids)), 0)
  {
    hide PlanTransition, PlanRequest, RowsAre, ClaimsAgree;
  }

  lemma TransitionReads(db: Db, l: Ledger, req: TransitionRequest, ids: Ids)
    requires Represents(db, l)
    ensures AllRead(db, TransitionJob(req, ids), ReadDeal) ==
      if req.dealId !in l.deals then Stop(DealNotFound)
      else if req.commandId in l.seenCommands then Stop(AlreadyApplied)
      else
        var deal := l.deals[req.dealId];
        var target := TransitionFor(deal.state, req.event);
        if target.None? then Stop(StaleState) else Claiming(deal, Some(PlanBoundary(deal, req, target.value, ids)), 0)
  {
    hide TransitionFor, PlanBoundary, RowsAre;
  }

  lemma RevocationReads(db: Db, l: Ledger, req: RevocationRequest, ids: Ids)
    requires Represents(db, l)
    ensures AllRead(db, RevocationJob(req, ids), ReadDeal) ==
      if req.dealId !in l.deals then Stop(DealNotFound)
      else if req.commandId in l.seenCommands then Stop(AlreadyApplied)
      else if req.revocation.fact.recordId !in l.records then Stop(RecordNotFound)
      else if HasRevocation(l.revocations, req.revocation.fact.recordId) then Stop(AlreadyApplied)
      else Claiming(l.deals[req.dealId], Some(PlanRevocation(l.deals[req.dealId], req, ids)), 0)
  {
    hide HasRevocation, PlanRevocation, RowsAre, AllRead;
    var job := RevocationJob(req, ids);
    OneRead(db, job, ReadDeal);
    if req.dealId in l.deals {
      var deal := l.deals[req.dealId];
      OneRead(db, job, ReadCommand(deal, None));
      OneRead(db, job, ReadRecord(deal, None));
      if req.revocation.fact.recordId in l.records {
        OneRead(db, job, ReadRevocations(deal, None, l.records[req.revocation.fact.recordId].terms));
      }
    }
    EndOfReads(db, job);
  }

  lemma EndOfReads(db: Db, job: Job)
    ensures forall pc | !Reading(pc) :: AllRead(db, job, pc) == pc
  {
  }

  lemma ApprovalReads(db: Db, l: Ledger, req: ApprovalRequest, ids: Ids)
    requires Represents(db, l)
    ensures AllRead(db, ApprovalJob(req, ids), ReadDeal) ==
      if req.dealId !in l.deals then Stop(DealNotFound)
      else if req.approvalId !in l.approvals then Stop(ApprovalNotFound)
      else if !l.approvals[req.approvalId].status.Pending? then Stop(AlreadyApplied)
      else if req.commandId in l.seenCommands then Stop(AlreadyApplied)
      else if req.operation.Grant? && req.action.Unrecognised? then Stop(StaleState)
      else
        var deal, approval := l.deals[req.dealId], l.approvals[req.approvalId];
        var (record, revoked) := GrantInputs(l, approval, req.occurredAt);
        Claiming(deal, if req.operation.Grant? && req.approvalRecord.None? then None
                       else Some(PlanApproval(deal, approval, req, record, revoked, ids)), 0)
  {
    hide RevokedAt, RowsAre, PlanGrant, PlanDenial, GrantRecheck, OperatorReason, AllRead;
    var job := ApprovalJob(req, ids);
    OneRead(db, job, ReadDeal);
    EndOfReads(db, job);
    if req.dealId in l.deals {
      var deal := l.deals[req.dealId];
      OneRead(db, job, ReadApproval(deal));
      if req.approvalId in l.approvals {
        var approval := l.approvals[req.approvalId];
        OneRead(db, job, ReadCommand(deal, Some(approval)));
        OneRead(db, job, ReadRecord(deal, Some(approval)));
        if approval.authorityRecordId in l.records {
          OneRead(db, job, ReadRevocations(deal, Some(approval), l.records[approval.authorityRecordId].terms));
        }
      }
    }
  }

  /* ----- the claims ----- */

  // What a job that claims one command takes.
  lemma CommandClaims(db: Db, l: Ledger, job: Job, command: Id)
    requires Represents(db, l) && ClaimRows(job) == [(ClaimRow(CommandKey(command)), DealOf(job))]
      && command !in l.seenCommands
    ensures ClaimsFree(db.claims, job)
    ensures ClaimsAgree(db.claims + AllHeld(db.claims, job), l.decisions, l.seenRequests, l.seenCommands +
      {command}, l.nonceOwners)
  {
    hide ClaimRows, RowsAre, HeldAfter, ClaimsAgree;
    CommandAgrees(db.claims, l, command, DealOf(job));
    CommandHeld(db.claims, job);
    assert db.claims + map[ClaimRow(CommandKey(command)) := DealOf(job)] ==
      db.claims[ClaimRow(CommandKey(command)) := DealOf(job)];
  }

  lemma CommandAgrees(claims: map<Row, Id>, l: Ledger, command: Id, d: Id)
    requires ClaimsAgree(claims, l.decisions, l.seenRequests, l.seenCommands, l.nonceOwners)
    ensures ClaimRow(CommandKey(command)) in claims <==> command in l.seenCommands
    ensures ClaimsAgree(claims[ClaimRow(CommandKey(command)) := d], l.decisions, l.seenRequests, l.seenCommands +
      {command},
      l.nonceOwners)
  {
  }

  lemma CommandHeld(claims: map<Row, Id>, job: Job)
    requires |ClaimRows(job)| == 1 && ClaimRows(job)[0].0 !in claims
    ensures AllHeld(claims, job) == map[ClaimRows(job)[0].0 := ClaimRows(job)[0].1]
  {
    hide ClaimRows;
    assert HeldAfter(claims, job, 0) == map[];
  }

  // How many of a request's three claims succeed one after another.
  function Claimable(claims: map<Row, Id>, job: Job): nat
    requires job.RequestJob?
    ensures Claimable(claims, job) <= |ClaimRows(job)| == 3
  {
    var rows := ClaimRows(job);
    if rows[0].0 in claims then 0
    else if rows[1].0 in claims then 1
    else if rows[2].0 in claims && claims[rows[2].0] != rows[2].1 then 2
    else 3
  }

  // That many are exactly what the whole commit claims, and all three just when it goes on.
  lemma RequestClaims(db: Db, l: Ledger, req: CommitRequest, ids: Ids)
    requires Represents(db, l)
    ensures var job := RequestJob(req, ids);
      var n, claimed := Claimable(db.claims, job), Claimed(l.decisions, l.seenRequests, l.nonceOwners, req);
      && ClaimsFreeTo(db.claims, job, n) && (claimed.all <==> n == 3)
      && ClaimsAgree(db.claims + HeldAfter(db.claims, job, n), claimed.decisions, claimed.requests, l.seenCommands,
        claimed.nonces)
  {
    hide RowsAre, HeldAfter, ClaimsAgree;
    var job, claims := RequestJob(req, ids), db.claims;
    var rows := ClaimRows(job);
    RequestHeld(claims, job);
    AgreementAnswers(claims, l, req);
    if Claimable(claims, job) == 0 {
      assert claims + map[] == claims;
    } else {
      var first := map[rows[0].0 := rows[0].1];
      var decisions := l.decisions[req.idempotencyKey := (req.proposalDigest, req.decision)];
      KeyAgrees(claims, l, req, rows[0].1);
      if Claimable(claims, job) > 1 {
        var second := map[rows[0].0 := rows[0].1, rows[1].0 := rows[1].1];
        assert claims + second == (claims + first)[rows[1].0 := rows[1].1];
        RequestAgrees(claims + first, decisions, l, req, rows[1].1);
        if rows[2].0 !in claims {
          var third := map[rows[0].0 := rows[0].1, rows[1].0 := rows[1].1, rows[2].0 := rows[2].1];
          assert claims + third == (claims + second)[rows[2].0 := rows[2].1];
          NonceAgrees(claims + second, decisions, l, req);
        }
      }
    }
  }

  lemma AgreementAnswers(claims: map<Row, Id>, l: Ledger, req: CommitRequest)
    requires ClaimsAgree(claims, l.decisions, l.seenRequests, l.seenCommands, l.nonceOwners)
    ensures ClaimRow(IdempotencyKey(req.idempotencyKey)) in claims <==> req.idempotencyKey in l.decisions
    ensures ClaimRow(RequestKey(req.requestId)) in claims <==> req.requestId in l.seenRequests
    ensures var nonce := req.record.terms.nonce;
      (NonceRow(nonce) in claims <==> nonce in l.nonceOwners)
        && (nonce in l.nonceOwners ==> claims[NonceRow(nonce)] == l.nonceOwners[nonce])
  {
  }

  lemma KeyAgrees(claims: map<Row, Id>, l: Ledger, req: CommitRequest, v: Id)
    requires ClaimsAgree(claims, l.decisions, l.seenRequests, l.seenCommands, l.nonceOwners)
    ensures ClaimsAgree(claims + map[ClaimRow(IdempotencyKey(req.idempotencyKey)) := v],
      l.decisions[req.idempotencyKey := (req.proposalDigest, req.decision)], l.seenRequests, l.seenCommands,
        l.nonceOwners)
  {
  }

  lemma RequestAgrees(claims: map<Row, Id>, decisions: Decisions, l: Ledger, req: CommitRequest, v: Id)
    requires ClaimsAgree(claims, decisions, l.seenRequests, l.seenCommands, l.nonceOwners)
    ensures ClaimsAgree(claims[ClaimRow(RequestKey(req.requestId)) := v], decisions, l.seenRequests + {req.requestId},
      l.seenCommands, l.nonceOwners)
  {
  }

  lemma NonceAgrees(claims: map<Row, Id>, decisions: Decisions, l: Ledger, req: CommitRequest)
    requires ClaimsAgree(claims, decisions, l.seenRequests + {req.requestId}, l.seenCommands, l.nonceOwners)
    ensures var nonce, recordId := req.record.terms.nonce, req.record.terms.recordId;
      ClaimsAgree(claims[NonceRow(nonce) := recordId], decisions, l.seenRequests + {req.requestId}, l.seenCommands,
        l.nonceOwners[nonce := recordId])
  {
  }

  lemma RequestHeld(claims: map<Row, Id>, job: Job)
    requires job.RequestJob?
    ensures var rows := ClaimRows(job);
      && HeldAfter(claims, job, 0) == map[]
      && (rows[0].0 !in claims ==> HeldAfter(claims, job, 1) == map[rows[0].0 := rows[0].1])
      && (rows[0].0 !in claims && rows[1].0 !in claims ==>
            HeldAfter(claims, job, 2) == map[rows[0].0 := rows[0].1, rows[1].0 := rows[1].1])
      && (rows[0].0 !in claims && rows[1].0 !in claims ==>
            HeldAfter(claims, job, 3) ==
              if rows[2].0 in claims then map[rows[0].0 := rows[0].1, rows[1].0 := rows[1].1]
              else map[rows[0].0 := rows[0].1, rows[1].0 := rows[1].1, rows[2].0 := rows[2].1])
  {
    assert HeldAfter(claims, job, 0) == map[];
    assert HeldAfter(claims, job, 1) == HeldAfter(claims, job, 0) +
      (if ClaimRows(job)[0].0 in claims then map[] else map[ClaimRows(job)[0].0 := ClaimRows(job)[0].1]);
    assert HeldAfter(claims, job, 2) == HeldAfter(claims, job, 1) +
      (if ClaimRows(job)[1].0 in claims then map[] else map[ClaimRows(job)[1].0 := ClaimRows(job)[1].1]);
    assert HeldAfter(claims, job, 3) == HeldAfter(claims, job, 2) +
      (if ClaimRows(job)[2].0 in claims then map[] else map[ClaimRows(job)[2].0 := ClaimRows(job)[2].1]);
  }

  /* ----- the commits ----- */

  predicate IsFresh(me: Session) { me.pc.ReadDeal? && me.held == map[] && me.rows == [] }

  ghost predicate CanStart(s: State, sid: nat, l: Ledger, signer: Signer) {
    Reachable(s, signer) && sid in s.sessions && IsFresh(s.sessions[sid]) && NobodyElseHolds(s, sid)
      && Represents(s.db, l)
  }

  // The session has ended as the answer says and the tables hold what the commit leaves.
  ghost predicate EndsAs(s: State, sid: nat, l: Ledger, s': State, signer: Signer)
    requires sid in s.sessions
  {
    var (result, l') := CommitOf(l, s.sessions[sid].job, signer);
    && Reachable(s', signer) && Represents(s'.db, l')
    && s'.sessions == s.sessions[sid := Session(s.sessions[sid].job, EndOf(result.outcome), map[], [])]
  }

  // After the reads, with an answer already.
  lemma StopsAlone(s: State, sid: nat, l: Ledger, outcome: CommitOutcome, signer: Signer) returns (s': State)
    requires CanStart(s, sid, l, signer) && AllRead(s.db, s.sessions[sid].job, ReadDeal) == Stop(outcome)
    requires CommitOf(l, s.sessions[sid].job, signer).0.outcome == outcome
      && CommitOf(l, s.sessions[sid].job, signer).1 == l
    requires EndOf(outcome) == Ended(outcome)
    ensures EndsAs(s, sid, l, s', signer)
  {
    hide Reachable, CommitOf, AllRead, RowsAre, ClaimsAgree;
    var me := s.sessions[sid];
    assert With(s, sid, Session(me.job, ReadDeal, map[], [])) == s;
    ReadsAlone(s, sid, me.job, ReadDeal, signer);
    s' := AnswersAlone(s, sid, Session(me.job, Stop(outcome), map[], []), signer);
    assert s.db.claims + map[] == s.db.claims;
    assert s'.db == s.db;
  }

  // After the reads, with a plan.
  lemma PlansAlone(s: State, sid: nat, l: Ledger, signer: Signer) returns (planned: State)
    requires CanStart(s, sid, l, signer) && AllRead(s.db, s.sessions[sid].job, ReadDeal).Claiming?
    ensures var me := Session(s.sessions[sid].job, AllRead(s.db, s.sessions[sid].job, ReadDeal), map[], []);
      planned == With(s, sid, me)
    ensures Reachable(planned, signer) && NobodyElseHolds(planned, sid) && planned.db == s.db
  {
    hide Reachable, AllRead, RowsAre, ClaimsAgree;
    var me := s.sessions[sid];
    assert With(s, sid, Session(me.job, ReadDeal, map[], [])) == s;
    ReadsAlone(s, sid, me.job, ReadDeal, signer);
    planned := With(s, sid, Session(me.job, AllRead(s.db, me.job, ReadDeal), map[], []));
  }

  // Committing publishes the chain as the whole commit extends it.
  lemma GrownIsExtended(chains: map<Id, seq<Event>>, claims: map<Row, Id>, job: Job, deal: Deal, plan: Plan,
                        signer: Signer)
    requires DealOf(job) in chains
    ensures var ready := ReadyToCommit(job, deal, plan, claims, chains[DealOf(job)], signer);
      Grown(chains, ready) == Extended(chains, DealOf(job), plan, signer)
  {
  }

  lemma CommandPublished(db: Db, l: Ledger, ready: Session, plan: Plan, command: Id, signer: Signer)
    requires Represents(db, l) && ready.pc.Returning? && ready.pc.done.Some? && ready.pc.done.value.plan == plan
    requires ready.job.TransitionJob? || ready.job.ApprovalJob? || ready.job.RevocationJob?
    requires DealOf(ready.job) in l.chains
    requires ClaimsAgree(db.claims + ready.held, l.decisions, l.seenRequests, l.seenCommands + {command}, l.nonceOwners)
    requires RowsAre(Published(db, ready).events, Extended(l.chains, DealOf(ready.job), plan, signer))
    ensures var job := ready.job;
      var revocation := if job.RevocationJob? then Some(job.revocation.revocation) else None;
      Represents(Published(db, ready),
        l.(chains := Extended(l.chains, DealOf(job), plan, signer),
           deals := if job.RevocationJob? then l.deals else l.deals[DealOf(job) := plan.newDeal],
           approvals := if plan.approval.None? then l.approvals
                        else if job.ApprovalJob? then l.approvals[job.approval.approvalId := plan.approval.value]
                        else WithRow(l.approvals, plan.approval),
           revocations := if revocation.Some? && revocation.value.fact.revocationId !in l.revocations
                          then l.revocations[revocation.value.fact.revocationId := revocation.value] else l.revocations,
           seenCommands := l.seenCommands + {command}))
  {
    hide RowsAre, ClaimsAgree, AddRows, SealedOn;
  }

  // A planned command runs to COMMITTED.
  lemma CommandCommits(s: State, sid: nat, l: Ledger, deal: Deal, plan: Plan, command: Id,
                       signer: Signer) returns (s': State)
    requires CanStart(s, sid, l, signer)
    requires var job := s.sessions[sid].job;
      && (job.TransitionJob? || job.ApprovalJob? || job.RevocationJob?) && DealOf(job) in l.chains
      && AllRead(s.db, job, ReadDeal) == Claiming(deal, Some(plan), 0) && plan.header.dealId == DealOf(job)
      && ClaimRows(job) == [(ClaimRow(CommandKey(command)), DealOf(job))] && command !in l.seenCommands
    ensures var job := s.sessions[sid].job;
      var revocation := if job.RevocationJob? then Some(job.revocation.revocation) else None;
      && Reachable(s', signer)
      && s'.sessions == s.sessions[sid := Session(job, Ended(Committed), map[], [])]
      && Represents(s'.db,
        l.(chains := Extended(l.chains, DealOf(job), plan, signer),
           deals := if job.RevocationJob? then l.deals else l.deals[DealOf(job) := plan.newDeal],
           approvals := if plan.approval.None? then l.approvals
                        else if job.ApprovalJob? then l.approvals[job.approval.approvalId := plan.approval.value]
                        else WithRow(l.approvals, plan.approval),
           revocations := if revocation.Some? && revocation.value.fact.revocationId !in l.revocations
                          then l.revocations[revocation.value.fact.revocationId := revocation.value] else l.revocations,
           seenCommands := l.seenCommands + {command}))
  {
    hide Reachable, AllRead, RowsAre, ClaimsAgree, ClaimRows, HeldAfter, Published, EventsOf, ClaimsFree, Grown;
    var job := s.sessions[sid].job;
    var planned := PlansAlone(s, sid, l, signer);
    CommandClaims(s.db, l, job, command);
    s' := RunsAlone(planned, sid, l.chains, signer);
    var ready := Ready(planned, sid, l.chains, signer);
    GrownIsExtended(l.chains, s.db.claims, job, deal, plan, signer);
    CommandPublished(s.db, l, ready, plan, command, signer);
    assert planned.sessions[sid := Session(job, Ended(Committed), map[], [])] ==
      s.sessions[sid := Session(job, Ended(Committed), map[], [])];
  }

  lemma SerialTransition(s: State, sid: nat, l: Ledger, signer: Signer) returns (s': State)
    requires CanStart(s, sid, l, signer) && s.sessions[sid].job.TransitionJob?
    ensures EndsAs(s, sid, l, s', signer)
  {
    hide Reachable, AllRead, RowsAre, ClaimsAgree, Extended, SealedOn, TransitionFor, PlanBoundary, NobodyElseHolds;
    var job := s.sessions[sid].job;
    var req := job.transition;
    TransitionReads(s.db, l, req, job.ids);
    var target := if req.dealId in l.deals then TransitionFor(l.deals[req.dealId].state, req.event) else None;
    if req.dealId !in l.deals || req.commandId in l.seenCommands || target.None? {
      s' := StopsAlone(s, sid, l, CommitOf(l, job, signer).0.outcome, signer);
    } else {
      s' := CommandCommits(s, sid, l, l.deals[req.dealId],
        PlanBoundary(l.deals[req.dealId], req, target.value, job.ids),
        req.commandId, signer);
    }
  }

  lemma SerialRevocation(s: State, sid: nat, l: Ledger, signer: Signer) returns (s': State)
    requires CanStart(s, sid, l, signer) && s.sessions[sid].job.RevocationJob?
    ensures EndsAs(s, sid, l, s', signer)
  {
    hide Reachable, AllRead, RowsAre, ClaimsAgree, Extended, SealedOn, HasRevocation, NobodyElseHolds;
    var job := s.sessions[sid].job;
    var req := job.revocation;
    RevocationReads(s.db, l, req, job.ids);
    if req.dealId !in l.deals || req.commandId in l.seenCommands || req.revocation.fact.recordId !in l.records
       || HasRevocation(l.revocations, req.revocation.fact.recordId)
    {
      s' := StopsAlone(s, sid, l, CommitOf(l, job, signer).0.outcome, signer);
    } else {
      s' := CommandCommits(s, sid, l, l.deals[req.dealId], PlanRevocation(l.deals[req.dealId], req, job.ids),
        req.commandId,
        signer);
    }
  }

  // A session that cannot plan claims its command, reads the head, raises, and rolls back.
  lemma RaisesAlone(s: State, sid: nat, l: Ledger, deal: Deal, command: Id, signer: Signer) returns (s': State)
    requires CanStart(s, sid, l, signer) && s.sessions[sid].job.ApprovalJob?
    requires s.sessions[sid].job.approval.commandId == command && command !in l.seenCommands
    requires AllRead(s.db, s.sessions[sid].job, ReadDeal) == Claiming(deal, None, 0)
    ensures Reachable(s', signer) && s'.db == s.db
    ensures s'.sessions == s.sessions[sid := GivenUp(s.sessions[sid])]
  {
    hide Reachable, AllRead, RowsAre, ClaimsAgree, HeldAfter;
    var job := s.sessions[sid].job;
    var planned := PlansAlone(s, sid, l, signer);
    CommandClaims(s.db, l, job, command);
    assert |ClaimRows(job)| == 1;
    ClaimsAlone(s, sid, job, deal, None, 1, signer);
    var claimed := Session(job, Claiming(deal, None, 1), HeldAfter(s.db.claims, job, 1), []);
    var atHead := claimed.(pc := ReadHead(deal, None));
    assert With(s, sid, claimed).sessions[sid := atHead] == With(s, sid, atHead).sessions;
    StatementIsReachable(s, sid, claimed, atHead, signer);
    assert With(s, sid, atHead).sessions[sid := GivenUp(atHead)] == With(s, sid, GivenUp(atHead)).sessions;
    StatementIsReachable(s, sid, atHead, GivenUp(atHead), signer);
    s' := With(s, sid, GivenUp(atHead));
  }

  lemma SerialApproval(s: State, sid: nat, l: Ledger, signer: Signer) returns (s': State)
    requires CanStart(s, sid, l, signer) && s.sessions[sid].job.ApprovalJob?
    ensures EndsAs(s, sid, l, s', signer)
  {
    hide Reachable, AllRead, RowsAre, ClaimsAgree, Extended, SealedOn, GrantInputs, PlanApproval, NobodyElseHolds;
    var job := s.sessions[sid].job;
    var req := job.approval;
    ApprovalReads(s.db, l, req, job.ids);
    if ApprovalAbort(l, req).Some? && !ApprovalAbort(l, req).value.outcome.ValueErrorRaised? {
      s' := StopsAlone(s, sid, l, CommitOf(l, job, signer).0.outcome, signer);
    } else if ApprovalAbort(l, req).Some? {
      s' := RaisesAlone(s, sid, l, l.deals[req.dealId], req.commandId, signer);
    } else {
      var approval := l.approvals[req.approvalId];
      var (record, revoked) := GrantInputs(l, approval, req.occurredAt);
      s' := CommandCommits(s, sid, l, l.deals[req.dealId],
        PlanApproval(l.deals[req.dealId], approval, req, record, revoked, job.ids), req.commandId, signer);
    }
  }

  // A request that loses one of its claims publishes those before it and no more.
  lemma RequestLoses(s: State, sid: nat, l: Ledger, deal: Deal, plan: Plan, signer: Signer) returns (s': State)
    requires CanStart(s, sid, l, signer) && s.sessions[sid].job.RequestJob?
    requires AllRead(s.db, s.sessions[sid].job, ReadDeal) == Claiming(deal, Some(plan), 0)
    requires Claimable(s.db.claims, s.sessions[sid].job) < 3
    ensures var n := Claimable(s.db.claims, s.sessions[sid].job);
      s'.db == s.db.(claims := s.db.claims + HeldAfter(s.db.claims, s.sessions[sid].job, n))
    ensures Reachable(s', signer)
    ensures s'.sessions == s.sessions[sid := Session(s.sessions[sid].job, Ended(AlreadyApplied), map[], [])]
  {
    hide Reachable, AllRead, RowsAre, ClaimsAgree, HeldAfter;
    var job := s.sessions[sid].job;
    var n := Claimable(s.db.claims, job);
    var planned := PlansAlone(s, sid, l, signer);
    RequestClaims(s.db, l, job.request, job.ids);
    ClaimsAlone(s, sid, job, deal, Some(plan), n, signer);
    var claiming := Session(job, Claiming(deal, Some(plan), n), HeldAfter(s.db.claims, job, n), []);
    var lost := claiming.(pc := Stop(AlreadyApplied));
    assert With(s, sid, claiming).sessions[sid := lost] == With(s, sid, lost).sessions;
    StatementIsReachable(s, sid, claiming, lost, signer);
    s' := AnswersAlone(s, sid, lost, signer);
  }

  // One that gets all three goes on to its events.
  lemma RequestCanInsert(s: State, sid: nat, l: Ledger, deal: Deal, plan: Plan, signer: Signer) returns (planned: State)
    requires CanStart(s, sid, l, signer) && s.sessions[sid].job.RequestJob?
      && s.sessions[sid].job.request.dealId in l.deals
    requires AllRead(s.db, s.sessions[sid].job, ReadDeal) == Claiming(deal, Some(plan), 0)
    requires plan.header.dealId == s.sessions[sid].job.request.dealId && Claimable(s.db.claims, s.sessions[sid].job) ==
      3
    ensures planned == With(s, sid, Session(s.sessions[sid].job, Claiming(deal, Some(plan), 0), map[], []))
    ensures Reachable(planned, signer) && CanInsertAlone(planned, sid, l.chains)
  {
    hide Reachable, AllRead, RowsAre, ClaimsAgree, HeldAfter;
    planned := PlansAlone(s, sid, l, signer);
    RequestClaims(s.db, l, s.sessions[sid].job.request, s.sessions[sid].job.ids);
  }

  // One whose approval id is taken inserts its events, violates the primary key, and rolls back.
  lemma RequestClashes(s: State, sid: nat, l: Ledger, deal: Deal, plan: Plan, signer: Signer) returns (s': State)
    requires CanStart(s, sid, l, signer) && s.sessions[sid].job.RequestJob?
      && s.sessions[sid].job.request.dealId in l.deals
    requires AllRead(s.db, s.sessions[sid].job, ReadDeal) == Claiming(deal, Some(plan), 0)
    requires plan.header.dealId == s.sessions[sid].job.request.dealId && Claimable(s.db.claims, s.sessions[sid].job) ==
      3
    requires plan.approval.Some? && plan.approval.value.approvalId in l.approvals
    ensures Reachable(s', signer) && s'.db == s.db
    ensures s'.sessions == s.sessions[sid := GivenUp(s.sessions[sid])]
  {
    hide Reachable, AllRead, RowsAre, ClaimsAgree, ClaimRows, HeldAfter, EventsOf, CanInsertAlone, Claimable;
    var planned := RequestCanInsert(s, sid, l, deal, plan, signer);
    var inserted := InsertedAlone(planned, sid, l.chains, signer);
    assert With(planned, sid, inserted).sessions == With(s, sid, inserted).sessions;
    assert With(s, sid, inserted).sessions[sid := GivenUp(inserted)] == With(s, sid, GivenUp(inserted)).sessions;
    EventsAllIn(inserted, signer);
    assert WriteStep(With(s, sid, inserted), sid, inserted, GivenUp(inserted));
    StatementIsReachable(s, sid, inserted, GivenUp(inserted), signer);
    s' := With(s, sid, GivenUp(inserted));
  }

  lemma EventsAllIn(inserted: Session, signer: Signer)
    requires inserted.pc.Inserting? && inserted.rows == EventsOf(inserted.pc.write, signer)
    ensures |inserted.rows| == |inserted.pc.write.plan.entries|
  {
  }

  lemma RequestRewrites(deal: Deal, req: CommitRequest, event: Option<DealEvent>, ids: Ids)
    requires event.Some? ==> TransitionFor(deal.state, event.value).Some?
    ensures var plan := PlanRequest(deal, req, event, ids);
      RewritesDeal(RequestJob(req, ids), plan) <==> event.Some? || plan.approval.Some?
  {
    var plan := PlanRequest(deal, req, event, ids);
    if event.Some? { assert plan.entries[|plan.entries| - 1].payload.RequestTransition?; }
  }

  // Otherwise it commits.
  lemma RequestCommits(s: State, sid: nat, l: Ledger, deal: Deal, plan: Plan, signer: Signer) returns (s': State)
    requires CanStart(s, sid, l, signer) && s.sessions[sid].job.RequestJob?
      && s.sessions[sid].job.request.dealId in l.deals
    requires AllRead(s.db, s.sessions[sid].job, ReadDeal) == Claiming(deal, Some(plan), 0)
    requires plan.header.dealId == s.sessions[sid].job.request.dealId && Claimable(s.db.claims, s.sessions[sid].job) ==
      3
    requires plan.approval.Some? ==> plan.approval.value.approvalId !in l.approvals
    ensures var job := s.sessions[sid].job;
      var claimed, record := Claimed(l.decisions, l.seenRequests, l.nonceOwners, job.request), job.request.record;
      && Reachable(s', signer)
      && s'.sessions == s.sessions[sid := Session(job, Ended(Committed), map[], [])]
      && Represents(s'.db,
        l.(chains := Extended(l.chains, DealOf(job), plan, signer),
           deals := if RewritesDeal(job, plan) then l.deals[DealOf(job) := plan.newDeal] else l.deals,
           approvals := WithRow(l.approvals, plan.approval),
           records := if record.terms.recordId in l.records then l.records
             else l.records[record.terms.recordId := record],
           nonceOwners := claimed.nonces, seenRequests := claimed.requests, decisions := claimed.decisions))
  {
    hide Reachable, AllRead, RowsAre, ClaimsAgree, ClaimRows, HeldAfter, Published, EventsOf, Grown, RewritesDeal,
      Claimed,
      CanInsertAlone, Claimable;
    var job := s.sessions[sid].job;
    var planned := RequestCanInsert(s, sid, l, deal, plan, signer);
    RequestClaims(s.db, l, job.request, job.ids);
    s' := RunsAlone(planned, sid, l.chains, signer);
    var ready := Ready(planned, sid, l.chains, signer);
    GrownIsExtended(l.chains, s.db.claims, job, deal, plan, signer);
    RequestPublished(s.db, l, ready, plan, signer);
    assert planned.sessions[sid := Session(job, Ended(Committed), map[], [])] ==
      s.sessions[sid := Session(job, Ended(Committed), map[], [])];
  }

  lemma RequestPublished(db: Db, l: Ledger, ready: Session, plan: Plan, signer: Signer)
    requires Represents(db, l) && ready.pc.Returning? && ready.pc.done.Some? && ready.pc.done.value.plan == plan
    requires ready.job.RequestJob? && DealOf(ready.job) in l.chains
    requires var claimed := Claimed(l.decisions, l.seenRequests, l.nonceOwners, ready.job.request);
      ClaimsAgree(db.claims + ready.held, claimed.decisions, claimed.requests, l.seenCommands, claimed.nonces)
    requires RowsAre(Published(db, ready).events, Extended(l.chains, DealOf(ready.job), plan, signer))
    ensures var job := ready.job;
      var claimed, record := Claimed(l.decisions, l.seenRequests, l.nonceOwners, job.request), job.request.record;
      Represents(Published(db, ready),
        l.(chains := Extended(l.chains, DealOf(job), plan, signer),
           deals := if RewritesDeal(job, plan) then l.deals[DealOf(job) := plan.newDeal] else l.deals,
           approvals := WithRow(l.approvals, plan.approval),
           records := if record.terms.recordId in l.records then l.records
             else l.records[record.terms.recordId := record],
           nonceOwners := claimed.nonces, seenRequests := claimed.requests, decisions := claimed.decisions))
  {
    hide RowsAre, ClaimsAgree, AddRows, SealedOn, Claimed, RewritesDeal;
  }

  lemma SerialRequest(s: State, sid: nat, l: Ledger, signer: Signer) returns (s': State)
    requires CanStart(s, sid, l, signer) && s.sessions[sid].job.RequestJob?
    ensures EndsAs(s, sid, l, s', signer)
  {
    hide Reachable, AllRead, RowsAre, ClaimsAgree, Extended, SealedOn, PlanRequest, NobodyElseHolds, Claimed, HeldAfter,
      RewritesDeal, Claimable, PlanTransition;
    var job := s.sessions[sid].job;
    var req := job.request;
    RequestReads(s.db, l, req, job.ids);
    RequestClaims(s.db, l, req, job.ids);
    if req.dealId !in l.deals || PlanTransition(l.deals[req.dealId], req.action, req.decision.outcome).Stale? {
      s' := StopsAlone(s, sid, l, CommitOf(l, job, signer).0.outcome, signer);
    } else {
      var deal := l.deals[req.dealId];
      var event := PlanTransition(deal, req.action, req.decision.outcome).event;
      PlannedIsPossible(deal, req);
      var plan := PlanRequest(deal, req, event, job.ids);
      RequestRewrites(deal, req, event, job.ids);
      if Claimable(s.db.claims, job) < 3 {
        s' := RequestLoses(s, sid, l, deal, plan, signer);
      } else if plan.approval.Some? && plan.approval.value.approvalId in l.approvals {
        s' := RequestClashes(s, sid, l, deal, plan, signer);
      } else {
        s' := RequestCommits(s, sid, l, deal, plan, signer);
      }
    }
  }

  lemma PlannedIsPossible(deal: Deal, req: CommitRequest)
    ensures var planned := PlanTransition(deal, req.action, req.decision.outcome);
      planned.Proceed? && planned.event.Some? ==> TransitionFor(deal.state, planned.event.value).Some?
  {
  }

  // Whatever the job, a session that finds nobody else holding anything can run to its end, and there its
  // answer, an error included, and all it leaves in the tables are those of the whole commit.
  lemma SerialSessionIsTheCommit(s: State, sid: nat, l: Ledger, signer: Signer) returns (s': State)
    requires Reachable(s, signer) && sid in s.sessions && IsFresh(s.sessions[sid]) && NobodyElseHolds(s, sid)
    requires Represents(s.db, l)
    ensures EndsAs(s, sid, l, s', signer)
  {
    hide Reachable, Represents, NobodyElseHolds, EndsAs, IsFresh;
    match s.sessions[sid].job
    case RequestJob(_, _) => s' := SerialRequest(s, sid, l, signer);
    case TransitionJob(_, _) => s' := SerialTransition(s, sid, l, signer);
    case ApprovalJob(_, _) => s' := SerialApproval(s, sid, l, signer);
    case RevocationJob(_, _) => s' := SerialRevocation(s, sid, l, signer);
  }

  // Registration agrees too, and nothing is held before the first commit.
  lemma RegistrationIsTheStores(s: State, d: Id, record: AuthorityRecord, s': State, l: Ledger, createdAt: Instant)
    requires Represents(s.db, l) && RegisterStep(s, d, record, s')
    ensures Represents(s'.db, PgRegisterDealOn(l, d, record, createdAt))
  {
    hide ClaimsAgree;
    NoRowsYet(s.db.events, l.chains, d);
  }

  lemma NothingIsNothing()
    ensures Represents(Db(map[], map[], map[], map[], map[], map[]), EmptyLedger)
  {
  }
}
