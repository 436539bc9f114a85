/** Interleavings that end where a single transaction never would: the failing sides of Races and Decisions. */
module RaceWitnesses {
  import opened Common
  import opened Deals
  import opened Crypto
  import opened Authority
  import opened Policy
  import opened Chain
  import opened Plans
  import opened Ledger
  import opened History
  import opened Runs
  import opened Once
  import opened Postgres
  import opened Sessions
  import opened Progress
  import opened Races
  import opened Serial

  /* ----- building interleavings ----- */

  function Fresh(job: Job): Session { Session(job, ReadDeal, map[], []) }

  // One registered deal and these sessions about to begin.
  function Registered(jobs: map<nat, Job>, d: Id, record: AuthorityRecord): State {
    State(Db(map[d := NewDeal(d)], map[], map[], map[record.terms.recordId := record], map[], map[]),
          map i | i in jobs :: Fresh(jobs[i]))
  }

  lemma RegisteredIsReachable(jobs: map<nat, Job>, d: Id, record: AuthorityRecord, signer: Signer)
    ensures Reachable(Registered(jobs, d, record), signer)
    ensures RowsAre(Registered(jobs, d, record).db.events, map[d := []])
  {
    hide Reachable;
    var start := State(Db(map[], map[], map[], map[], map[], map[]), map i | i in jobs :: Fresh(jobs[i]));
    InitialIsReachable(start, signer);
    assert Takes(start, Turn.Registration(d, record), Registered(jobs, d, record), signer);
    TurnIsReachable(start, Turn.Registration(d, record), Registered(jobs, d, record), signer);
  }

  function Read(s: State, sid: nat): State
    requires sid in s.sessions
  {
    var me := s.sessions[sid];
    State(s.db, s.sessions[sid := me.(pc := AfterRead(s.db, me.job, me.pc))])
  }

  lemma ReadIsReachable(s: State, sid: nat, signer: Signer)
    requires Reachable(s, signer) && sid in s.sessions && Reading(s.sessions[sid].pc)
    ensures Reachable(Read(s, sid), signer)
  {
    hide Reachable, AfterRead;
    assert Takes(s, Statement(sid), Read(s, sid), signer);
    TurnIsReachable(s, Statement(sid), Read(s, sid), signer);
  }

  lemma ReachableReadsFit(s: State, signer: Signer)
    requires Reachable(s, signer)
    ensures AllReadsFit(s)
  {
    hide Interleaving, AllReadsFit;
    var trace, turns :| ReachedBy(s, trace, turns, signer);
    InterleavingLength(trace, turns, signer);
    InterleavingKeepsReads(trace, turns, signer, |turns|);
  }

  // A session run alone to its commit, with what that does to the row and the chain.
  lemma RunsAndFollows(s: State, sid: nat, chains: map<Id, seq<Event>>, signer: Signer)
    returns (s': State, after: map<Id, seq<Event>>)
    requires Reachable(s, signer) && CanRunAlone(s, sid, chains)
    ensures var ready := Ready(s, sid, chains, signer);
      && s' == State(Published(s.db, ready), s.sessions[sid := Session(ready.job, Ended(Committed), map[], [])])
      && after == Grown(chains, ready)
    ensures Reachable(s', signer) && RowsAre(s'.db.events, after) && after.Keys == s'.db.deals.Keys == s.db.deals.Keys
    ensures var me := s.sessions[sid];
      var d, plan := DealOf(me.job), me.pc.plan.value;
      && (RowIsReplay(s.db.deals[d], chains[d], d) ==>
            (RowIsReplay(s'.db.deals[d], after[d], d) <==> StillCurrent(me.job, plan, me.pc.deal, s.db.deals[d])))
      && (Joined(after[d], d) <==>
            Joined(chains[d], d)
            && (MoveOf(plan).Some? ==> me.pc.deal.state == LastState(DealState.Draft, Payloads(chains[d]))))
  {
    hide Reachable, Inv, SessionStep, AllReadsFit, RowIsReplay, StillCurrent, Joined, MoveOf, RowsAre, Published;
    var ready := Ready(s, sid, chains, signer);
    s' := RunsAlone(s, sid, chains, signer);
    after := Grown(chains, ready);
    var before := With(s, sid, ready);
    ReachableReadsFit(before, signer);
    ReachableFits(before, chains, signer);
    CommitFollowsChainIff(before, sid, s', chains, signer);
  }

  /* ----- one commit after another ----- */

  lemma {:induction false} HeldRowsAreOwn(claims: map<Row, Id>, job: Job, n: nat)
    requires n <= |ClaimRows(job)|
    ensures forall row | row in HeldAfter(claims, job, n) ::
      exists k | 0 <= k < n :: ClaimRows(job)[k] == (row, HeldAfter(claims, job, n)[row])
    decreases n
  {
    hide ClaimRows;
    if n > 0 {
      HeldRowsAreOwn(claims, job, n - 1);
      var rest := HeldAfter(claims, job, n - 1);
      forall row | row in HeldAfter(claims, job, n)
        ensures exists k | 0 <= k < n :: ClaimRows(job)[k] == (row, HeldAfter(claims, job, n)[row])
      {
        if row in rest && HeldAfter(claims, job, n)[row] == rest[row] {
          var k :| 0 <= k < n - 1 && ClaimRows(job)[k] == (row, rest[row]);
        } else {
          assert ClaimRows(job)[n - 1] == (row, HeldAfter(claims, job, n)[row]);
        }
      }
    }
  }

  // Whatever both jobs claim is a nonce, for one and the same record.
  predicate KeysApart(a: Job, b: Job) {
    forall i, j | 0 <= i < |ClaimRows(a)| && 0 <= j < |ClaimRows(b)| && ClaimRows(a)[i].0 == ClaimRows(b)[j].0 ::
      ClaimRows(a)[i].0.NonceRow? && ClaimRows(a)[i].1 == ClaimRows(b)[j].1
  }

  lemma StillFree(claims: map<Row, Id>, a: Job, b: Job)
    requires ClaimsFree(claims, b) && KeysApart(a, b)
    ensures ClaimsFree(claims + AllHeld(claims, a), b)
  {
    hide ClaimRows;
    var held := AllHeld(claims, a);
    HeldRowsAreOwn(claims, a, |ClaimRows(a)|);
    forall j | 0 <= j < |ClaimRows(b)| && ClaimRows(b)[j].0 in held
      ensures ClaimRows(b)[j].0.NonceRow? && held[ClaimRows(b)[j].0] == ClaimRows(b)[j].1
    {
      var row := ClaimRows(b)[j].0;
      var i :| 0 <= i < |ClaimRows(a)| && ClaimRows(a)[i] == (row, held[row]);
    }
  }

  // Once one session has committed alone, another that had planned before can do so too.
  lemma NextCanRun(s: State, a: nat, b: nat, chains: map<Id, seq<Event>>, signer: Signer, s': State,
                   after: map<Id, seq<Event>>)
    requires CanRunAlone(s, a, chains) && CanRunAlone(s, b, chains) && a != b
    requires KeysApart(s.sessions[a].job, s.sessions[b].job)
    requires var ready := Ready(s, a, chains, signer);
      && s' == State(Published(s.db, ready), s.sessions[a := Session(ready.job, Ended(Committed), map[], [])])
      && RowsAre(s'.db.events, after) && after.Keys == s'.db.deals.Keys == s.db.deals.Keys
    requires var row := OpenedRow(s.sessions[b].job, s.sessions[b].pc.plan.value);
      row.Some? ==> row.value !in s'.db.approvals
    ensures CanRunAlone(s', b, after)
  {
    hide RowsAre, Published, KeysApart, ClaimRows, ClaimsFree;
    StillFree(s.db.claims, s.sessions[a].job, s.sessions[b].job);
    PublishedClaims(s.db, Ready(s, a, chains, signer));
  }

  /* ----- two commits planned on one copy ----- */

  function PlannedOn(job: Job,
                     plan: Plan): Session { Session(job, Claiming(NewDeal("deal"), Some(plan), 0), map[], []) }

  // Two sessions that have both read the deal as registered and planned.
  function TwoPlanned(job0: Job, plan0: Plan, job1: Job, plan1: Plan, record: AuthorityRecord): State {
    State(Db(map["deal" := NewDeal("deal")], map[], map[], map[record.terms.recordId := record], map[], map[]),
          map[0 := PlannedOn(job0, plan0), 1 := PlannedOn(job1, plan1)])
  }

  // A job on the deal whose plan rewrites the row and decides no approval.
  predicate Rewriter(job: Job, plan: Plan) {
    DealOf(job) == "deal" && plan.header.dealId == "deal" && RewritesDeal(job, plan) && !job.ApprovalJob?
  }

  lemma PlannedCanRun(job0: Job, plan0: Plan, job1: Job, plan1: Plan, record: AuthorityRecord, sid: nat)
    requires Rewriter(job0, plan0) && Rewriter(job1, plan1) && sid < 2
    ensures CanRunAlone(TwoPlanned(job0, plan0, job1, plan1, record), sid, map["deal" := []])
  {
    hide RewritesDeal, ClaimRows;
  }

  lemma PublishedRow(db: Db, me: Session)
    requires me.pc.Returning? && me.pc.done.Some? && Rewriter(me.job, me.pc.done.value.plan)
    ensures var plan := me.pc.done.value.plan;
      Published(db, me).deals == db.deals["deal" := plan.newDeal]
      && Published(db, me).approvals == WithRow(db.approvals, plan.approval)
  {
    hide RewritesDeal, AddRows;
  }

  // Both commit. The second writes its own copy over the first's row: that row is the replay of the
  // chain, and the chain joins up, only as far as the copy was still current.
  lemma TwoStaleCommits(job0: Job, plan0: Plan, job1: Job, plan1: Plan, record: AuthorityRecord, signer: Signer)
    returns (s: State, chains: map<Id, seq<Event>>)
    requires Reachable(TwoPlanned(job0, plan0, job1, plan1, record), signer)
    requires Rewriter(job0, plan0) && Rewriter(job1, plan1) && KeysApart(job0, job1)
    requires OpenedRow(job1, plan1).Some? ==>
      plan0.approval.None? || plan0.approval.value.approvalId != OpenedRow(job1, plan1).value
    requires StillCurrent(job0, plan0, NewDeal("deal"), NewDeal("deal"))
    ensures Reachable(s, signer) && RowsAre(s.db.events, chains) && chains.Keys == s.db.deals.Keys == {"deal"}
    ensures s.sessions == map[0 := Session(job0, Ended(Committed), map[], []),
      1 := Session(job1, Ended(Committed), map[], [])]
    ensures s.db.deals["deal"] == plan1.newDeal
    ensures s.db.approvals == WithRow(WithRow(map[], plan0.approval), plan1.approval)
    ensures RowIsReplay(plan1.newDeal, chains["deal"], "deal") <==> StillCurrent(job1, plan1, NewDeal("deal"),
      plan0.newDeal)
    ensures Joined(chains["deal"], "deal") <==> (MoveOf(plan1).Some? ==> plan0.newDeal.state == DealState.Draft)
  {
    hide Reachable, RowsAre, CanRunAlone, Published, Grown, RowIsReplay, Joined, StillCurrent, MoveOf, RewritesDeal,
      KeysApart, ClaimRows, HeldAfter, EventsOf;
    var s2 := TwoPlanned(job0, plan0, job1, plan1, record);
    var empty := map["deal" := []];
    PlannedCanRun(job0, plan0, job1, plan1, record, 0);
    PlannedCanRun(job0, plan0, job1, plan1, record, 1);
    NewDealFollows("deal");
    var s3, c3 := RunsAndFollows(s2, 0, empty, signer);
    PublishedRow(s2.db, Ready(s2, 0, empty, signer));
    StateIsLastState(plan0.newDeal, c3["deal"], "deal");
    NextCanRun(s2, 0, 1, empty, signer, s3, c3);
    s, chains := RunsAndFollows(s3, 1, c3, signer);
    PublishedRow(s3.db, Ready(s3, 1, c3, signer));
  }

  /* ----- the inputs ----- */

  // A mandate under which asking for a quote needs a person.
  function GatedRecord(signer: Signer): AuthorityRecord {
    var terms := Mandate("record", "agent", None, [RequestQuote], [], SpendCap("EUR", 100), 1, [], [RequestQuote], 0,
      10,
                         None, RecordStatus.Active, "nonce");
    AuthorityRecord(terms, Sign(signer, terms))
  }

  // The engine's request for a quote on the deal as registered, under this request id and key.
  function QuoteInput(signer: Signer, requestId: Id, key: Id): PolicyInput {
    PolicyInput(
      "0.1", requestId, 5, Actor(Agent, "agent"), BuildClaim(map[], signer, GatedRecord(signer), 5), None,
        NewDeal("deal"),
      Proposal(Token(RequestQuote), "deal", None, "EUR", [], key, None), None)
  }

  function QuoteJob(signer: Signer, requestId: Id, key: Id, approvalId: Id): Job {
    RequestJob(RequestOf(QuoteInput(signer, requestId, key), 5), Ids("m", "e1", "e2", approvalId))
  }

  lemma QuoteIsHeld(signer: Signer, requestId: Id, key: Id)
    ensures Evaluate(QuoteInput(signer, requestId, key)).outcome.NeedsApproval?
  {
    assert GatedRecord(signer).terms.allowedActions[0] == RequestQuote;
    assert GatedRecord(signer).terms.requiresHumanApprovalFor[0] == RequestQuote;
  }

  function QuotePlan(signer: Signer, requestId: Id, key: Id, approvalId: Id): Plan {
    PlanRequest(NewDeal("deal"), QuoteJob(signer, requestId, key, approvalId).request, None,
      Ids("m", "e1", "e2", approvalId))
  }

  // A quote session that has read the deal in DRAFT.
  lemma QuoteReads(s: State, signer: Signer, requestId: Id, key: Id, approvalId: Id)
    requires "deal" in s.db.deals && s.db.deals["deal"] == NewDeal("deal")
    ensures AfterRead(s.db, QuoteJob(signer, requestId, key, approvalId), ReadDeal) ==
      Claiming(NewDeal("deal"), Some(QuotePlan(signer, requestId, key, approvalId)), 0)
  {
    hide Evaluate, PlanRequest;
    QuoteIsHeld(signer, requestId, key);
  }

  lemma QuotePlanShape(signer: Signer, requestId: Id, key: Id, approvalId: Id)
    ensures var plan := QuotePlan(signer, requestId, key, approvalId);
      && plan.header.dealId == "deal" && MoveOf(plan).None? && |plan.entries| == 2
      && plan.approval.Some? && plan.approval.value.approvalId == approvalId && plan.approval.value.status.Pending?
      && plan.newDeal == NewDeal("deal").(openApprovals := 1)
  {
    hide Evaluate;
    QuoteIsHeld(signer, requestId, key);
  }

  /* ----- a lost counter and a repeated move ----- */

  // Two requests held for a person, both planned while no approval was open: both commit, two approvals
  // are pending, and the deal counts one. Its row is no longer the replay of its chain.
  lemma TwoHoldsCountOnce(signer: Signer) returns (s: State, chains: map<Id, seq<Event>>)
    ensures Reachable(s, signer) && RowsAre(s.db.events, chains) && chains.Keys == s.db.deals.Keys == {"deal"}
    ensures 0 in s.sessions && s.sessions[0].pc == Ended(Committed)
    ensures 1 in s.sessions && s.sessions[1].pc == Ended(Committed)
    ensures s.db.deals["deal"].openApprovals == 1
    ensures forall id | id in {"approval-0", "approval-1"} :: id in s.db.approvals && s.db.approvals[id].status.Pending?
    ensures !RowIsReplay(s.db.deals["deal"], chains["deal"], "deal")
  {
    hide Reachable, RowsAre, RowIsReplay, Joined, QuotePlan, Evaluate;
    var job0, job1 := QuoteJob(signer, "request-0", "key-0", "approval-0"),
      QuoteJob(signer, "request-1", "key-1", "approval-1");
    var plan0, plan1 := QuotePlan(signer, "request-0", "key-0", "approval-0"),
      QuotePlan(signer, "request-1", "key-1", "approval-1");
    TwoQuotesReachable(signer, "request-0", "key-0", "approval-0", "request-1", "key-1", "approval-1");
    QuotePlanShape(signer, "request-0", "key-0", "approval-0");
    QuotePlanShape(signer, "request-1", "key-1", "approval-1");
    s, chains := TwoStaleCommits(job0, plan0, job1, plan1, GatedRecord(signer), signer);
  }

  lemma TwoQuotesReachable(signer: Signer, r0: Id, k0: Id, a0: Id, r1: Id, k1: Id, a1: Id)
    ensures Reachable(TwoPlanned(QuoteJob(signer, r0, k0, a0), QuotePlan(signer, r0, k0, a0),
                                 QuoteJob(signer, r1, k1, a1), QuotePlan(signer, r1, k1, a1), GatedRecord(signer)),
                                   signer)
  {
    hide Reachable, AfterRead, QuotePlan, QuoteJob;
    var jobs: map<nat, Job> := map[0 := QuoteJob(signer, r0, k0, a0), 1 := QuoteJob(signer, r1, k1, a1)];
    var s0 := Registered(jobs, "deal", GatedRecord(signer));
    RegisteredIsReachable(jobs, "deal", GatedRecord(signer), signer);
    ReadIsReachable(s0, 0, signer);
    ReadIsReachable(Read(s0, 0), 1, signer);
    QuoteReads(s0, signer, r0, k0, a0);
    QuoteReads(s0, signer, r1, k1, a1);
    assert Read(Read(s0, 0), 1) ==
      TwoPlanned(jobs[0], QuotePlan(signer, r0, k0, a0), jobs[1], QuotePlan(signer, r1, k1, a1), GatedRecord(signer));
  }

  function QuoteRequestedBy(commandId: Id): Job {
    TransitionJob(TransitionRequest("deal", commandId, DealEvent.QuoteRequested, Counterparty, "peer", None, None, 5,
      5, "", None),
                  Ids("m", "e1", "e2", "approval"))
  }

  function MovePlan(commandId: Id): Plan {
    PlanBoundary(NewDeal("deal"), QuoteRequestedBy(commandId).transition, DealState.QuoteRequested,
      Ids("m", "e1", "e2", "approval"))
  }

  lemma MoveReads(db: Db, commandId: Id)
    requires "deal" in db.deals && db.deals["deal"] == NewDeal("deal") && db.claims == map[]
    ensures AfterRead(db, QuoteRequestedBy(commandId), ReadDeal) == ReadCommand(NewDeal("deal"), None)
    ensures AfterRead(db, QuoteRequestedBy(commandId), ReadCommand(NewDeal("deal"), None)) ==
      Claiming(NewDeal("deal"), Some(MovePlan(commandId)), 0)
  {
  }

  lemma TwoMovesReachable(signer: Signer, c0: Id, c1: Id)
    ensures Reachable(TwoPlanned(QuoteRequestedBy(c0), MovePlan(c0), QuoteRequestedBy(c1), MovePlan(c1),
      GatedRecord(signer)), signer)
  {
    hide Reachable, AfterRead, MovePlan, QuoteRequestedBy;
    var jobs: map<nat, Job> := map[0 := QuoteRequestedBy(c0), 1 := QuoteRequestedBy(c1)];
    var s0 := Registered(jobs, "deal", GatedRecord(signer));
    RegisteredIsReachable(jobs, "deal", GatedRecord(signer), signer);
    MoveReads(s0.db, c0);
    MoveReads(s0.db, c1);
    ReadIsReachable(s0, 0, signer);
    var s1 := Read(s0, 0);
    ReadIsReachable(s1, 0, signer);
    var s2 := Read(s1, 0);
    ReadIsReachable(s2, 1, signer);
    var s3 := Read(s2, 1);
    ReadIsReachable(s3, 1, signer);
    assert Read(s3, 1) == TwoPlanned(jobs[0], MovePlan(c0), jobs[1], MovePlan(c1), GatedRecord(signer));
  }

  lemma MovePlanShape(commandId: Id)
    ensures var plan := MovePlan(commandId);
      && plan.header.dealId == "deal" && MoveOf(plan) == Some(DealEvent.QuoteRequested) && plan.approval.None?
      && plan.newDeal == NewDeal("deal").(state := DealState.QuoteRequested)
  {
  }

  // The same move made twice from DRAFT: both commit, and the chain holds two transitions out of DRAFT.
  lemma OneMoveTwice(signer: Signer) returns (s: State, chains: map<Id, seq<Event>>)
    ensures Reachable(s, signer) && RowsAre(s.db.events, chains) && chains.Keys == s.db.deals.Keys == {"deal"}
    ensures 0 in s.sessions && s.sessions[0].pc == Ended(Committed)
    ensures 1 in s.sessions && s.sessions[1].pc == Ended(Committed)
    ensures RowIsReplay(s.db.deals["deal"], chains["deal"], "deal") && !Joined(chains["deal"], "deal")
  {
    hide Reachable, RowsAre, RowIsReplay, Joined, MovePlan, MoveOf;
    TwoMovesReachable(signer, "command-0", "command-1");
    MovePlanShape("command-0");
    MovePlanShape("command-1");
    s, chains := TwoStaleCommits(QuoteRequestedBy("command-0"), MovePlan("command-0"), QuoteRequestedBy("command-1"),
      MovePlan("command-1"), GatedRecord(signer), signer);
  }

  /* ----- an answer without an event ----- */

  // The claims a request takes from an empty table.
  lemma RequestRows(job: Job)
    requires job.RequestJob?
    ensures forall c :: ClaimRow(c) in AllHeld(map[], job) <==> c in JobClaims(job)
  {
    var rows := ClaimRows(job);
    assert HeldAfter(map[], job, 1) == map[rows[0].0 := rows[0].1];
    assert HeldAfter(map[], job, 2) == HeldAfter(map[], job, 1)[rows[1].0 := rows[1].1];
    assert HeldAfter(map[], job, 3) == HeldAfter(map[], job, 2)[rows[2].0 := rows[2].1];
  }

  // A request whose own key is free and whose request id is taken keeps its first claim and stops.
  lemma LosesItsClaim(s: State, chains: map<Id, seq<Event>>, signer: Signer) returns (s': State)
    requires Reachable(s, signer) && RowsAre(s.db.events, chains) && chains.Keys == s.db.deals.Keys
    requires 1 in s.sessions && NobodyElseHolds(s, 1)
    requires var me := s.sessions[1];
      && me.job.RequestJob? && me.pc.Claiming? && me.pc.next == 0 && me.held == map[] && me.rows == []
      && ClaimRow(IdempotencyKey(me.job.request.idempotencyKey)) !in s.db.claims
      && ClaimRow(RequestKey(me.job.request.requestId)) in s.db.claims
    ensures Reachable(s', signer) && s'.db.events == s.db.events && s'.db.deals == s.db.deals
    ensures 1 in s'.sessions && s'.sessions[1] == Session(s.sessions[1].job, Ended(AlreadyApplied), map[], [])
    ensures var key := s.sessions[1].job.request.idempotencyKey;
      && ClaimRow(IdempotencyKey(key)) in s'.db.claims
      && forall d, i | At(chains, d, i) :: IdempotencyKey(key) !in ClaimsOf(PayloadAt(chains, d, i))
  {
    hide Reachable, RowsAre, Inv;
    var me := s.sessions[1];
    var (row, value) := ClaimRows(me.job)[0];
    assert With(s, 1, me) == s;
    var one := me.(held := map[row := value], pc := Claiming(me.pc.deal, me.pc.plan, 1));
    assert me.held[row := value] == map[row := value];
    assert !HeldElsewhere(s.sessions, 1, row);
    assert With(s, 1, me).sessions[1 := one] == With(s, 1, one).sessions;
    StatementIsReachable(s, 1, me, one, signer);
    var lost := one.(pc := Stop(AlreadyApplied));
    assert With(s, 1, one).sessions[1 := lost] == With(s, 1, lost).sessions;
    StatementIsReachable(s, 1, one, lost, signer);
    s' := AnswersAlone(s, 1, lost, signer);
    ReachableFits(s, chains, signer);
    UnclaimedHasNoEvent(s, chains, signer, IdempotencyKey(me.job.request.idempotencyKey));
  }

  lemma UnclaimedHasNoEvent(s: State, chains: map<Id, seq<Event>>, signer: Signer, c: Claim)
    requires Inv(s, chains, signer) && ClaimRow(c) !in s.db.claims
    ensures forall d, i | At(chains, d, i) :: c !in ClaimsOf(PayloadAt(chains, d, i))
  {
    hide RowsAre, AllChainsValid, ClaimsUnique, SessionsFit;
    forall d, i | At(chains, d, i) ensures c !in ClaimsOf(PayloadAt(chains, d, i)) {
      assert forall x | x in ClaimsOf(PayloadAt(chains, d, i)) :: ClaimRow(x) in s.db.claims;
    }
  }

  // One request sent twice under two idempotency keys, both past the gate: the second ends
  // ALREADY_APPLIED, and the row of its key stays without an event.
  lemma KeyWithoutAnEvent(signer: Signer) returns (s: State, chains: map<Id, seq<Event>>, key: Id)
    ensures Reachable(s, signer) && RowsAre(s.db.events, chains) && chains.Keys == s.db.deals.Keys
    ensures 1 in s.sessions && s.sessions[1].pc == Ended(AlreadyApplied)
    ensures s.sessions[1].job.RequestJob? && s.sessions[1].job.request.idempotencyKey == key
    ensures ClaimRow(IdempotencyKey(key)) in s.db.claims
    ensures forall d, i | At(chains, d, i) :: IdempotencyKey(key) !in ClaimsOf(PayloadAt(chains, d, i))
  {
    hide Reachable, RowsAre, QuotePlan, QuoteJob;
    var s3, c3 := OneQuoteCommits(signer);
    QuoteJobShape(signer, "request", "key-1", "approval-1");
    s := LosesItsClaim(s3, c3, signer);
    key, chains := "key-1", c3;
  }

  // Of the two, the first alone.
  lemma OneQuoteCommits(signer: Signer) returns (s: State, chains: map<Id, seq<Event>>)
    ensures Reachable(s, signer) && RowsAre(s.db.events, chains) && chains.Keys == s.db.deals.Keys
    ensures s.sessions == map[
      0 := Session(QuoteJob(signer, "request", "key-0", "approval-0"), Ended(Committed), map[], []),
      1 := PlannedOn(QuoteJob(signer, "request", "key-1", "approval-1"),
        QuotePlan(signer, "request", "key-1", "approval-1"))]
    ensures forall c :: ClaimRow(c) in s.db.claims <==> c in {IdempotencyKey("key-0"), RequestKey("request")}
  {
    hide Reachable, RowsAre, CanRunAlone, Published, Grown, QuotePlan, QuoteJob, Rewriter, RowIsReplay, Joined,
      StillCurrent,
      MoveOf, HeldAfter;
    var job0, job1 := QuoteJob(signer, "request", "key-0", "approval-0"),
      QuoteJob(signer, "request", "key-1", "approval-1");
    var plan0, plan1 := QuotePlan(signer, "request", "key-0", "approval-0"),
      QuotePlan(signer, "request", "key-1", "approval-1");
    var s2 := TwoPlanned(job0, plan0, job1, plan1, GatedRecord(signer));
    TwoQuotesReachable(signer, "request", "key-0", "approval-0", "request", "key-1", "approval-1");
    QuoteRewrites(signer, "request", "key-0", "approval-0");
    QuoteRewrites(signer, "request", "key-1", "approval-1");
    PlannedCanRun(job0, plan0, job1, plan1, GatedRecord(signer), 0);
    s, chains := RunsAndFollows(s2, 0, map["deal" := []], signer);
    PublishedClaims(s2.db, Ready(s2, 0, map["deal" := []], signer));
    QuoteJobShape(signer, "request", "key-0", "approval-0");
    RequestRows(job0);
    assert s.db.claims == map[] + AllHeld(map[], job0);
  }

  lemma QuoteJobShape(signer: Signer, requestId: Id, key: Id, approvalId: Id)
    ensures var job := QuoteJob(signer, requestId, key, approvalId);
      && job.RequestJob? && job.request.requestId == requestId && job.request.idempotencyKey == key
      && JobClaims(job) == {IdempotencyKey(key), RequestKey(requestId)}
  {
    hide Evaluate;
  }

  lemma QuoteRewrites(signer: Signer, requestId: Id, key: Id, approvalId: Id)
    ensures Rewriter(QuoteJob(signer, requestId, key, approvalId), QuotePlan(signer, requestId, key, approvalId))
  {
    hide Evaluate;
    QuoteIsHeld(signer, requestId, key);
  }

  /* ----- one approval decided twice ----- */

  // The console's grant or refusal of the held quote.
  function DecisionJob(signer: Signer, operation: ApprovalDecision, commandId: Id): Job {
    var terms := ApprovalTerms("override", "deal", "request", "record", Token(RequestQuote), None, "EUR",
                               DigestOf(QuoteInput(signer, "request", "key").proposal), 6);
    ApprovalJob(ApprovalRequest(
      "deal", "approval", commandId, operation, Principal, "owner", "record", Token(RequestQuote), None, 6, 6, "owner",
      if operation.Grant? then Some(ApprovalRecord(terms, Sign(signer, terms))) else None, None),
        Ids("m", "e1", "e2", "unused"))
  }

  function HeldDeal(): Deal { NewDeal("deal").(openApprovals := 1) }

  function HeldRow(signer: Signer): Approval {
    NewApproval(QuoteJob(signer, "request", "key", "approval").request, Ids("m", "e1", "e2", "approval"))
  }

  function DecisionPlan(signer: Signer, operation: ApprovalDecision, commandId: Id): Plan {
    PlanApproval(HeldDeal(), HeldRow(signer), DecisionJob(signer, operation, commandId).approval,
      if operation.Grant? then Some(GatedRecord(signer).terms) else None, false, Ids("m", "e1", "e2", "unused"))
  }

  // The committed tables once the quote has been held.
  ghost predicate QuoteHeld(db: Db, signer: Signer) {
    && db.deals == map["deal" := HeldDeal()] && db.approvals == map["approval" := HeldRow(signer)]
    && db.records == map["record" := GatedRecord(signer)] && db.revocations == map[]
    && forall c: Claim | c.CommandKey? :: ClaimRow(c) !in db.claims
  }

  function DecisionSession(signer: Signer, operation: ApprovalDecision, commandId: Id, pc: Pc): Session {
    Session(DecisionJob(signer, operation, commandId), pc, map[], [])
  }

  lemma RefusalReads(db: Db, signer: Signer, commandId: Id)
    requires QuoteHeld(db, signer)
    ensures var job := DecisionJob(signer, Refuse, commandId);
      && AfterRead(db, job, ReadDeal) == ReadApproval(HeldDeal())
      && AfterRead(db, job, ReadApproval(HeldDeal())) == ReadCommand(HeldDeal(), Some(HeldRow(signer)))
      && AfterRead(db, job, ReadCommand(HeldDeal(), Some(HeldRow(signer)))) ==
           Claiming(HeldDeal(), Some(DecisionPlan(signer, Refuse, commandId)), 0)
  {
    hide PlanApproval, Evaluate;
  }

  lemma GrantReads(db: Db, signer: Signer, commandId: Id)
    requires QuoteHeld(db, signer)
    ensures var job, row := DecisionJob(signer, Grant, commandId), Some(HeldRow(signer));
      && AfterRead(db, job, ReadDeal) == ReadApproval(HeldDeal())
      && AfterRead(db, job, ReadApproval(HeldDeal())) == ReadCommand(HeldDeal(), row)
      && AfterRead(db, job, ReadCommand(HeldDeal(), row)) == ReadRecord(HeldDeal(), row)
      && AfterRead(db, job, ReadRecord(HeldDeal(), row)) == ReadRevocations(HeldDeal(), row, GatedRecord(signer).terms)
      && AfterRead(db, job, ReadRevocations(HeldDeal(), row, GatedRecord(signer).terms)) ==
           Claiming(HeldDeal(), Some(DecisionPlan(signer, Grant, commandId)), 0)
  {
    hide PlanApproval, Evaluate;
  }

  // Both decisions, by two people under two commands, of one held quote.
  function Deciders(signer: Signer, quote: Pc, grant: Pc, refusal: Pc): map<nat, Session> {
    map[0 := Session(QuoteJob(signer, "request", "key", "approval"), quote, map[], []),
        1 := DecisionSession(signer, Grant, "command-1", grant),
        2 := DecisionSession(signer, Refuse, "command-2", refusal)]
  }

  lemma HeldForBoth(signer: Signer) returns (s: State, chains: map<Id, seq<Event>>)
    ensures Reachable(s, signer) && RowsAre(s.db.events, chains) && chains.Keys == s.db.deals.Keys
    ensures QuoteHeld(s.db, signer) && s.sessions == Deciders(signer, Ended(Committed), ReadDeal, ReadDeal)
  {
    hide Reachable, RowsAre, CanRunAlone, Published, Grown, QuotePlan, QuoteJob, DecisionJob, Rewriter, RowIsReplay,
      Joined,
      StillCurrent, MoveOf, HeldAfter, HeldRow, QuoteHeld;
    var plan := QuotePlan(signer, "request", "key", "approval");
    var s1 := QuoteRead(signer, plan);
    QuoteReadFirst(signer);
    QuoteRewrites(signer, "request", "key", "approval");
    QuoteCanRun(s1, signer, plan);
    s, chains := RunsAndFollows(s1, 0, map["deal" := []], signer);
    QuoteIsHeldAfter(s1.db, Ready(s1, 0, map["deal" := []], signer), signer);
  }

  function QuoteRead(signer: Signer, plan: Plan): State {
    State(Registered(map[], "deal", GatedRecord(signer)).db,
      Deciders(signer, Claiming(NewDeal("deal"), Some(plan), 0), ReadDeal, ReadDeal))
  }

  lemma QuoteReadFirst(signer: Signer)
    ensures Reachable(QuoteRead(signer, QuotePlan(signer, "request", "key", "approval")), signer)
    ensures RowsAre(map[], map["deal" := []])
  {
    hide Reachable, RowsAre, QuotePlan, QuoteJob, DecisionJob, AfterRead;
    var jobs: map<nat, Job> := map[
      0 := QuoteJob(signer, "request", "key", "approval"),
      1 := DecisionJob(signer, Grant, "command-1"), 2 := DecisionJob(signer, Refuse, "command-2")];
    RegisteredIsReachable(jobs, "deal", GatedRecord(signer), signer);
    var s0 := Registered(jobs, "deal", GatedRecord(signer));
    ReadIsReachable(s0, 0, signer);
    QuoteReads(s0, signer, "request", "key", "approval");
    assert Read(s0, 0).sessions == QuoteRead(signer, QuotePlan(signer, "request", "key", "approval")).sessions;
  }

  lemma QuoteCanRun(s: State, signer: Signer, plan: Plan)
    requires s == QuoteRead(signer, plan) && RowsAre(map[], map["deal" := []])
    requires Rewriter(QuoteJob(signer, "request", "key", "approval"), plan)
    ensures CanRunAlone(s, 0, map["deal" := []])
  {
    hide QuoteJob, DecisionJob, ClaimRows, RewritesDeal, RowsAre;
  }

  lemma QuoteIsHeldAfter(db: Db, ready: Session, signer: Signer)
    requires db == Registered(map[], "deal", GatedRecord(signer)).db
    requires ready.job == QuoteJob(signer, "request", "key", "approval") && ready.held == AllHeld(map[], ready.job)
    requires ready.pc.Returning? && ready.pc.done.Some? && ready.pc.done.value.plan ==
      QuotePlan(signer, "request", "key", "approval")
    ensures QuoteHeld(Published(db, ready), signer)
  {
    hide Published, QuotePlan, HeldAfter, JobClaims;
    QuoteRewrites(signer, "request", "key", "approval");
    PublishedRow(db, ready);
    PublishedClaims(db, ready);
    PublishedRecords(db, ready);
    QuotePlanShape(signer, "request", "key", "approval");
    QuoteJobShape(signer, "request", "key", "approval");
    RequestRows(ready.job);
    QuotePlanRow(signer);
  }

  lemma QuotePlanRow(signer: Signer)
    ensures QuotePlan(signer, "request", "key", "approval").approval == Some(HeldRow(signer))
  {
    hide Evaluate;
    QuoteIsHeld(signer, "request", "key");
  }

  lemma PublishedRecords(db: Db, me: Session)
    requires me.pc.Returning? && me.job.RequestJob? && me.job.request.record.terms.recordId in db.records
    ensures Published(db, me).records == db.records && Published(db, me).revocations == db.revocations
  {
    hide RewritesDeal, AddRows;
  }

  // One more read of the granting session, and of the refusing one.
  lemma GrantReadsOn(db: Db, signer: Signer, quote: Pc, grant: Pc, refusal: Pc)
    requires Reachable(State(db, Deciders(signer, quote, grant, refusal)), signer) && Reading(grant)
    ensures Reachable(State(db, Deciders(signer, quote,
      AfterRead(db, DecisionJob(signer, Grant, "command-1"), grant), refusal)), signer)
  {
    hide Reachable, QuoteJob, DecisionJob, AfterRead;
    var s := State(db, Deciders(signer, quote, grant, refusal));
    ReadIsReachable(s, 1, signer);
    assert Read(s, 1).sessions == Deciders(signer, quote,
      AfterRead(db, DecisionJob(signer, Grant, "command-1"), grant), refusal);
  }

  lemma RefusalReadsOn(db: Db, signer: Signer, quote: Pc, grant: Pc, refusal: Pc)
    requires Reachable(State(db, Deciders(signer, quote, grant, refusal)), signer) && Reading(refusal)
    ensures Reachable(State(db, Deciders(signer, quote, grant,
      AfterRead(db, DecisionJob(signer, Refuse, "command-2"), refusal))), signer)
  {
    hide Reachable, QuoteJob, DecisionJob, AfterRead;
    var s := State(db, Deciders(signer, quote, grant, refusal));
    ReadIsReachable(s, 2, signer);
    assert Read(s, 2).sessions == Deciders(signer, quote, grant,
      AfterRead(db, DecisionJob(signer, Refuse, "command-2"), refusal));
  }

  function Planned(signer: Signer, operation: ApprovalDecision, commandId: Id): Pc {
    Claiming(HeldDeal(), Some(DecisionPlan(signer, operation, commandId)), 0)
  }

  function BothPlanned(db: Db, signer: Signer): State {
    State(db, Deciders(signer, Ended(Committed), Planned(signer, Grant, "command-1"),
      Planned(signer, Refuse, "command-2")))
  }

  lemma BothPlan(s: State, signer: Signer)
    requires Reachable(s, signer) && QuoteHeld(s.db, signer)
    requires s.sessions == Deciders(signer, Ended(Committed), ReadDeal, ReadDeal)
    ensures Reachable(BothPlanned(s.db, signer), signer)
  {
    hide Reachable, QuoteJob, DecisionJob, AfterRead, HeldRow, HeldDeal, DecisionPlan, GatedRecord, QuoteHeld, Deciders;
    GrantReads(s.db, signer, "command-1");
    RefusalReads(s.db, signer, "command-2");
    var deal, row, terms := HeldDeal(), Some(HeldRow(signer)), GatedRecord(signer).terms;
    var over, start := Ended(Committed), ReadDeal;
    GrantReadsOn(s.db, signer, over, start, start);
    GrantReadsOn(s.db, signer, over, ReadApproval(deal), start);
    GrantReadsOn(s.db, signer, over, ReadCommand(deal, row), start);
    GrantReadsOn(s.db, signer, over, ReadRecord(deal, row), start);
    GrantReadsOn(s.db, signer, over, ReadRevocations(deal, row, terms), start);
    var planned := Planned(signer, Grant, "command-1");
    RefusalReadsOn(s.db, signer, over, planned, start);
    RefusalReadsOn(s.db, signer, over, planned, ReadApproval(deal));
    RefusalReadsOn(s.db, signer, over, planned, ReadCommand(deal, row));
  }

  lemma DecisionCanRun(s: State, chains: map<Id, seq<Event>>, signer: Signer, sid: nat)
    requires QuoteHeld(s.db, signer) && RowsAre(s.db.events, chains) && chains.Keys == s.db.deals.Keys && sid in {1, 2}
    requires s == BothPlanned(s.db, signer)
    ensures CanRunAlone(s, sid, chains)
  {
    hide RowsAre, QuoteJob, PlanApproval;
  }

  lemma DecisionPlanShape(signer: Signer)
    ensures var plan := DecisionPlan(signer, Grant, "command-1");
      |plan.entries| == 2 && plan.entries[0].payload.GrantedApproval? && plan.entries[1].payload.RequestTransition?
    ensures var plan := DecisionPlan(signer, Refuse, "command-2");
      |plan.entries| == 1 && plan.entries[0].payload.DeniedApproval?
  {
    hide QuoteJob;
  }

  lemma RowsOfDeal(rows: EventRows, chains: map<Id, seq<Event>>, d: Id)
    requires RowsAre(rows, chains) && d in chains
    ensures ReadsAs(rows, d, chains[d])
  {
  }

  // A decision about to publish its plan.
  predicate Decides(me: Session, signer: Signer, operation: ApprovalDecision, commandId: Id) {
    && me.job == DecisionJob(signer, operation, commandId) && me.pc.Returning? && me.pc.done.Some?
    && me.pc.done.value.plan == DecisionPlan(signer, operation, commandId) && me.rows ==
      EventsOf(me.pc.done.value, signer)
  }

  // Publishing the one after the other logs both.
  lemma BothAreLogged(chains: map<Id, seq<Event>>, grant: Session, refusal: Session, signer: Signer)
    requires "deal" in chains && Decides(grant, signer, Grant, "command-1")
      && Decides(refusal, signer, Refuse, "command-2")
    ensures var n, longest := |chains["deal"]|, Grown(Grown(chains, grant), refusal);
      && "deal" in longest && |longest["deal"]| == n + 3
      && longest["deal"][n].form.payload.GrantedApproval? && longest["deal"][n + 1].form.payload.RequestTransition?
      && longest["deal"][n + 2].form.payload.DeniedApproval?
  {
    hide Seal, DecisionPlan;
    DecisionPlanShape(signer);
  }

  // One approval, found pending by a grant and by a refusal before either was published: both commit,
  // and the chain ends with the grant, its transition, and the refusal.
  lemma GrantedAndRefused(signer: Signer) returns (s: State, chain: seq<Event>)
    ensures Reachable(s, signer) && ReadsAs(s.db.events, "deal", chain) && |chain| >= 3
    ensures var n := |chain|;
      && chain[n - 3].form.payload.GrantedApproval? && chain[n - 2].form.payload.RequestTransition?
      && chain[n - 1].form.payload.DeniedApproval?
    ensures 1 in s.sessions && s.sessions[1].pc == Ended(Committed) && s.sessions[1].job.ApprovalJob?
    ensures 2 in s.sessions && s.sessions[2].pc == Ended(Committed) && s.sessions[2].job.ApprovalJob?
    ensures s.sessions[1].job.approval.approvalId == s.sessions[2].job.approval.approvalId == "approval"
    ensures s.sessions[1].job.approval.operation.Grant? && s.sessions[2].job.approval.operation.Refuse?
  {
    hide Reachable, RowsAre, QuoteHeld, ReadsAs, QuoteJob, EventsOf;
    var held, chains := HeldForBoth(signer);
    BothPlan(held, signer);
    assert "deal" in chains by { HeldDealIsKnown(held.db, signer); }
    var grant, refusal;
    s, grant, refusal := BothRun(held.db, chains, signer);
    BothAreLogged(chains, grant, refusal, signer);
    RowsOfDeal(s.db.events, Grown(Grown(chains, grant), refusal), "deal");
    chain := Grown(Grown(chains, grant), refusal)["deal"];
  }

  lemma HeldDealIsKnown(db: Db, signer: Signer)
    requires QuoteHeld(db, signer)
    ensures "deal" in db.deals
  {
  }

  // Both planned decisions run alone, one after the other.
  lemma BothRun(db: Db, chains: map<Id, seq<Event>>, signer: Signer) returns (s: State, grant: Session,
                refusal: Session)
    requires QuoteHeld(db, signer) && RowsAre(db.events, chains) && chains.Keys == db.deals.Keys
    requires Reachable(BothPlanned(db, signer), signer)
    ensures Reachable(s, signer)
    ensures s.sessions == Deciders(signer, Ended(Committed), Ended(Committed), Ended(Committed))
    ensures Decides(grant, signer, Grant, "command-1") && Decides(refusal, signer, Refuse, "command-2")
    ensures RowsAre(s.db.events, Grown(Grown(chains, grant), refusal))
  {
    hide Reachable, RowsAre, CanRunAlone, Published, Grown, RowIsReplay, Joined, StillCurrent, MoveOf, QuoteHeld,
      QuoteJob,
      DecisionPlan, ClaimsFree, ReadsAs, EventsOf;
    var s0 := BothPlanned(db, signer);
    DecisionCanRun(s0, chains, signer, 1);
    DecisionCanRun(s0, chains, signer, 2);
    grant := Ready(s0, 1, chains, signer);
    var s1, after := RunsAndFollows(s0, 1, chains, signer);
    NextCanRun(s0, 1, 2, chains, signer, s1, after);
    refusal := Ready(s1, 2, after, signer);
    var longest;
    s, longest := RunsAndFollows(s1, 2, after, signer);
  }

  /* ----- one revocation id for two records ----- */

  function RecordNamed(signer: Signer, id: Id): AuthorityRecord {
    var terms := GatedRecord(signer).terms.(recordId := id, nonce := id);
    AuthorityRecord(terms, Sign(signer, terms))
  }

  function RevocationNamed(signer: Signer, recordId: Id): Revocation {
    var fact := RevocationFact("revocation", recordId, 5);
    Revocation(fact, Sign(signer, fact))
  }

  function RevokerOf(signer: Signer, dealId: Id, recordId: Id, commandId: Id): Job {
    RevocationJob(RevocationRequest(dealId, RevocationNamed(signer, recordId), commandId, Principal, "owner", 5, 5),
                  Ids("m", "e1", "e2", "unused"))
  }

  // Two mandates registered, each with a deal, and a revocation of each about to begin.
  lemma TwoRevokers(signer: Signer) returns (s: State, l: Ledger)
    ensures Reachable(s, signer) && Represents(s.db, l)
    ensures s.sessions == map[0 := Fresh(RevokerOf(signer, "deal-1", "first", "command-1")),
                              1 := Fresh(RevokerOf(signer, "deal-2", "second", "command-2"))]
    ensures l.deals.Keys == {"deal-1", "deal-2"} && l.records.Keys == {"first", "second"}
    ensures l.revocations == map[] && l.seenCommands == {}
  {
    hide Reachable, Represents;
    var a, b := RecordNamed(signer, "first"), RecordNamed(signer, "second");
    var start := State(Db(map[], map[], map[], map[], map[], map[]),
      map[0 := Fresh(RevokerOf(signer, "deal-1", "first", "command-1")),
        1 := Fresh(RevokerOf(signer, "deal-2", "second", "command-2"))]);
    InitialIsReachable(start, signer);
    NothingIsNothing();
    var one := State(Db(map["deal-1" := NewDeal("deal-1")], map[], map[], map["first" := a], map[], map[]),
      start.sessions);
    assert Takes(start, Turn.Registration("deal-1", a), one, signer);
    TurnIsReachable(start, Turn.Registration("deal-1", a), one, signer);
    RegistrationIsTheStores(start, "deal-1", a, one, EmptyLedger, 1);
    var l1 := PgRegisterDealOn(EmptyLedger, "deal-1", a, 1);
    s := State(Db(one.db.deals["deal-2" := NewDeal("deal-2")], map[], map[], one.db.records["second" := b], map[],
      map[]), start.sessions);
    assert Takes(one, Turn.Registration("deal-2", b), s, signer);
    TurnIsReachable(one, Turn.Registration("deal-2", b), s, signer);
    RegistrationIsTheStores(one, "deal-2", b, s, l1, 1);
    l := PgRegisterDealOn(l1, "deal-2", b, 1);
  }

  // Two revocations of two records under one id, one after the other: both commit, and the second record
  // has no revocation row.
  lemma ReusedIdStoresNothing(signer: Signer) returns (s: State)
    ensures Reachable(s, signer)
    ensures 1 in s.sessions && s.sessions[1].pc == Ended(Committed) && s.sessions[1].job.RevocationJob?
    ensures var fact := s.sessions[1].job.revocation.revocation.fact;
      fact.revocationId in s.db.revocations
        && forall id | id in s.db.revocations :: s.db.revocations[id].fact.recordId != fact.recordId
  {
    hide Reachable, Represents, EndsAs, Extended, SealedOn;
    var s0, l0 := TwoRevokers(signer);
    var s1 := SerialSessionIsTheCommit(s0, 0, l0, signer);
    var l1 := RevokerCommits(s0, 0, l0, s1, signer);
    var s2 := SerialSessionIsTheCommit(s1, 1, l1, signer);
    var l2 := RevokerCommits(s1, 1, l1, s2, signer);
    RowsAreTheLedgers(s2.db, l2);
    s := s2;
  }

  lemma RowsAreTheLedgers(db: Db, l: Ledger)
    requires Represents(db, l)
    ensures db.revocations == l.revocations
  {
  }

  // A revoker that can commit: its deal and its record are there, its command is new, its record unrevoked.
  lemma RevokerCommits(s: State, sid: nat, l: Ledger, s': State, signer: Signer) returns (l': Ledger)
    requires sid in s.sessions && EndsAs(s, sid, l, s', signer) && s.sessions[sid].job.RevocationJob?
    requires var req := s.sessions[sid].job.revocation;
      && req.dealId in l.deals && req.commandId !in l.seenCommands && req.revocation.fact.recordId in l.records
      && !HasRevocation(l.revocations, req.revocation.fact.recordId)
    ensures var req := s.sessions[sid].job.revocation;
      && Reachable(s', signer) && Represents(s'.db, l')
      && s'.sessions == s.sessions[sid := Session(s.sessions[sid].job, Ended(Committed), map[], [])]
      && l'.deals == l.deals && l'.records == l.records && l'.seenCommands == l.seenCommands + {req.commandId}
      && l'.revocations == (if req.revocation.fact.revocationId in l.revocations then l.revocations
                            else l.revocations[req.revocation.fact.revocationId := req.revocation])
  {
    hide Reachable, Represents, Extended, SealedOn;
    l' := CommitOf(l, s.sessions[sid].job, signer).1;
  }
}
