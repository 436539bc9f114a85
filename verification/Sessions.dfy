/**
 * The Postgres commits interleaved (adapters/postgres/store.py): any number of sessions, each one
 * transaction, each step one SQL statement seeing what is committed at that moment.
 */
module Sessions {
  import opened Common
  import opened Deals
  import opened Crypto
  import opened Authority
  import opened Policy
  import opened Chain
  import opened Plans
  import opened Ledger
  import opened Runs
  import opened Once
  import opened Postgres

  /* ----- the shared tables ----- */

  // The rows a commit claims with `on conflict do nothing`: three seen-tables keyed like the claims
  // of the chain, and the nonce table.
  datatype Row = ClaimRow(claim: Claim) | NonceRow(nonce: string)

  // Committed content. A claim row stores the record that made it (for a command, its deal).
  datatype Db = Db(
    deals: map<Id, Deal>, events: EventRows, claims: map<Row, Id>, records: map<Id, AuthorityRecord>,
    revocations: map<Id, Revocation>, approvals: map<Id, Approval>)

  /* ----- sessions ----- */

  datatype Job =
    | RequestJob(request: CommitRequest, ids: Ids)
    | TransitionJob(transition: TransitionRequest, ids: Ids)
    | ApprovalJob(approval: ApprovalRequest, ids: Ids)
    | RevocationJob(revocation: RevocationRequest, ids: Ids)

  function DealOf(job: Job): Id {
    match job
    case RequestJob(req, _) => req.dealId
    case TransitionJob(req, _) => req.dealId
    case ApprovalJob(req, _) => req.dealId
    case RevocationJob(req, _) => req.dealId
  }

  // The claim inserts of a job in order, each with what its row stores.
  function ClaimRows(job: Job): seq<(Row, Id)> {
    match job
    case RequestJob(req, _) =>
      var recordId := req.record.terms.recordId;
      [(ClaimRow(IdempotencyKey(req.idempotencyKey)), recordId), (ClaimRow(RequestKey(req.requestId)), recordId),
       (NonceRow(req.record.terms.nonce), recordId)]
    case TransitionJob(req, _) => [(ClaimRow(CommandKey(req.commandId)), req.dealId)]
    case ApprovalJob(req, _) => [(ClaimRow(CommandKey(req.commandId)), req.dealId)]
    case RevocationJob(req, _) => [(ClaimRow(CommandKey(req.commandId)), req.dealId)]
  }

  // A plan with the deal it was made from and the head it will be numbered and linked from.
  datatype Write = Write(deal: Deal, plan: Plan, start: int, previous: Hash)

  function EventsOf(w: Write, signer: Signer): (es: seq<Event>)
    ensures |es| == |w.plan.entries|
  {
    Seal(w.plan.header, w.start, w.previous, w.plan.entries, signer)
  }

  // Where a session stands, with the local variables still live there. A plan of None is one whose
  // construction raises.
  datatype Pc =
    | ReadDeal
    | ReadApproval(deal: Deal)
    | ReadCommand(deal: Deal, approval: Option<Approval>)
    | ReadRecord(deal: Deal, approval: Option<Approval>)
    | ReadRevocations(deal: Deal, approval: Option<Approval>, record: Mandate)
    | Claiming(deal: Deal, plan: Option<Plan>, next: nat)
    | ReadHead(deal: Deal, plan: Option<Plan>)
    | Inserting(write: Write)
    | Returning(outcome: CommitOutcome, done: Option<Write>)
    | Ended(outcome: CommitOutcome)
    | RolledBack

  // held: claim rows inserted but not committed; rows: event rows inserted but not committed.
  datatype Session = Session(job: Job, pc: Pc, held: map<Row, Id>, rows: seq<Event>)

  datatype State = State(db: Db, sessions: map<nat, Session>)

  predicate Over(s: Session) { s.pc.Ended? || s.pc.RolledBack? }

  function Stop(outcome: CommitOutcome): Pc { Returning(outcome, None) }

  /* ----- the reads ----- */

  function AfterApprovalReads(req: ApprovalRequest, ids: Ids, deal: Deal, approval: Approval,
                              record: Option<Mandate>, revoked: bool): Pc
  {
    Claiming(
      deal, if req.operation.Grant? && (req.action.Unrecognised? || req.approvalRecord.None?) then None
      else Some(PlanApproval(deal, approval, req, record, revoked, ids)), 0)
  }

  // One select and the code up to the next statement.
  function AfterRead(db: Db, job: Job, pc: Pc): Pc {
    match pc
    case ReadDeal =>
      if DealOf(job) !in db.deals then Stop(DealNotFound)
      else
        var deal := db.deals[DealOf(job)];
        (match job
         case RequestJob(req, ids) =>
           (match PlanTransition(deal, req.action, req.decision.outcome)
            case Stale => Stop(StaleState)
            case Proceed(event) => Claiming(deal, Some(PlanRequest(deal, req, event, ids)), 0))
         case ApprovalJob(_, _) => ReadApproval(deal)
         case _ => ReadCommand(deal, None))
    case ReadApproval(deal) =>
      if !job.ApprovalJob? || job.approval.approvalId !in db.approvals then Stop(ApprovalNotFound)
      else
        var approval := db.approvals[job.approval.approvalId];
        if !approval.status.Pending? then Stop(AlreadyApplied) else ReadCommand(deal, Some(approval))
    case ReadCommand(deal, approval) =>
      if ClaimRows(job)[0].0 in db.claims then Stop(AlreadyApplied)
      else
        (match job
         case TransitionJob(req, ids) =>
           var target := TransitionFor(deal.state, req.event);
           if target.None? then Stop(StaleState) else Claiming(deal, Some(PlanBoundary(deal, req, target.value, ids)), 0)
         case ApprovalJob(req, ids) =>
           if approval.None? then Stop(ApprovalNotFound)
           else if req.operation.Refuse? then AfterApprovalReads(req, ids, deal, approval.value, None, false)
           else if req.action.Unrecognised? then Stop(StaleState)
           else ReadRecord(deal, approval)
         case _ => ReadRecord(deal, None))
    case ReadRecord(deal, approval) =>
      (match job
       case ApprovalJob(req, ids) =>
         if approval.None? then Stop(ApprovalNotFound)
         else if approval.value.authorityRecordId !in db.records then
           AfterApprovalReads(req, ids, deal, approval.value, None, false)
         else ReadRevocations(deal, approval, db.records[approval.value.authorityRecordId].terms)
       case RevocationJob(req, ids) =>
         if req.revocation.fact.recordId !in db.records then Stop(RecordNotFound)
         else ReadRevocations(deal, None, db.records[req.revocation.fact.recordId].terms)
       case _ => Stop(RecordNotFound))
    case ReadRevocations(deal, approval, record) =>
      (match job
       case ApprovalJob(req, ids) =>
         if approval.None? then Stop(ApprovalNotFound)
         else AfterApprovalReads(
           req, ids, deal, approval.value, Some(record), RevokedAt(db.revocations, record.recordId, req.occurredAt))
       case RevocationJob(req, ids) =>
         if HasRevocation(db.revocations, req.revocation.fact.recordId) then Stop(AlreadyApplied)
         else Claiming(deal, Some(PlanRevocation(deal, req, ids)), 0)
       case _ => Stop(RecordNotFound))
    case _ => pc
  }

  /* ----- the steps ----- */

  predicate HeldElsewhere(sessions: map<nat, Session>, sid: nat, row: Row) {
    exists j | j in sessions :: j != sid && row in sessions[j].held
  }

  predicate PendingElsewhere(sessions: map<nat, Session>, sid: nat, key: EventKey) {
    exists j | j in sessions :: j != sid && exists e | e in sessions[j].rows :: KeyOf(e) == key
  }

  function AddRows(events: EventRows, rows: seq<Event>): EventRows
    decreases |rows|
  {
    if rows == [] then events else AddRows(events[KeyOf(rows[0]) := rows[0]], rows[1..])
  }

  predicate RewritesDeal(job: Job, plan: Plan) {
    match job
    case RequestJob(_, _) => plan.approval.Some? || exists e | e in plan.entries :: e.payload.RequestTransition?
    case RevocationJob(_, _) => false
    case _ => true
  }

  // Committing publishes every pending row at once.
  function Published(db: Db, me: Session): Db
    requires me.pc.Returning?
  {
    var claims := db.claims + me.held;
    if me.pc.done.None? then db.(claims := claims)
    else
      var plan := me.pc.done.value.plan;
      var d := DealOf(me.job);
      Db(
        if RewritesDeal(me.job, plan) then db.deals[d := plan.newDeal] else db.deals,
        AddRows(db.events, me.rows), claims,
        if me.job.RequestJob? && me.job.request.record.terms.recordId !in db.records
        then db.records[me.job.request.record.terms.recordId := me.job.request.record] else db.records,
        if me.job.RevocationJob? && me.job.revocation.revocation.fact.revocationId !in db.revocations
        then db.revocations[me.job.revocation.revocation.fact.revocationId := me.job.revocation.revocation] else db.revocations,
        if plan.approval.None? then db.approvals
        else if me.job.ApprovalJob? then db.approvals[me.job.approval.approvalId := plan.approval.value]
        else WithRow(db.approvals, plan.approval))
  }

  function GivenUp(me: Session): Session { Session(me.job, RolledBack, map[], []) }

  // The session's next claim insert: a committed rival row answers it, a pending one blocks it.
  predicate ClaimStep(s: State, sid: nat, me: Session, me': Session)
    requires me.pc.Claiming? && me.pc.next < |ClaimRows(me.job)|
  {
    var (row, value) := ClaimRows(me.job)[me.pc.next];
    if row in s.db.claims then
      me' == me.(pc := if row.NonceRow? && s.db.claims[row] == value then Claiming(me.pc.deal, me.pc.plan, me.pc.next + 1)
                       else Stop(AlreadyApplied))
    else
      !HeldElsewhere(s.sessions, sid, row)
      && me' == me.(held := me.held[row := value], pc := Claiming(me.pc.deal, me.pc.plan, me.pc.next + 1))
  }

  // Read the chain head and plan; planning a grant without its approval record raises.
  ghost predicate HeadStep(s: State, me: Session, me': Session)
    requires me.pc.ReadHead?
  {
    if me.pc.plan.None? then me' == GivenUp(me)
    else
      && me'.pc.Inserting? && me'.pc.write.deal == me.pc.deal && me'.pc.write.plan == me.pc.plan.value && me' == me.(pc := me'.pc)
      && IsHead(s.db.events, DealOf(me.job), me'.pc.write.start, me'.pc.write.previous)
  }

  // One event row: a committed row under its key is a unique violation, a pending one blocks.
  predicate InsertStep(s: State, sid: nat, me: Session, me': Session, signer: Signer)
    requires me.pc.Inserting? && |me.rows| < |me.pc.write.plan.entries|
  {
    var e := EventsOf(me.pc.write, signer)[|me.rows|];
    if KeyOf(e) in s.db.events then me' == GivenUp(me)
    else !PendingElsewhere(s.sessions, sid, KeyOf(e)) && me' == me.(rows := me.rows + [e])
  }

  // The approval row a request opens, under its own primary key.
  function OpenedRow(job: Job, plan: Plan): Option<Id> {
    if job.RequestJob? && plan.approval.Some? then Some(plan.approval.value.approvalId) else None
  }

  predicate OpenedElsewhere(sessions: map<nat, Session>, sid: nat, id: Id) {
    exists j | j in sessions :: j != sid && sessions[j].pc.Returning? && sessions[j].pc.done.Some?
      && OpenedRow(sessions[j].job, sessions[j].pc.done.value.plan) == Some(id)
  }

  // The remaining writes. A clash of approval ids is a unique violation like any other.
  predicate WriteStep(s: State, sid: nat, me: Session, me': Session)
    requires me.pc.Inserting?
  {
    var row := OpenedRow(me.job, me.pc.write.plan);
    if row.Some? && row.value in s.db.approvals then me' == GivenUp(me)
    else
      (row.Some? ==> !OpenedElsewhere(s.sessions, sid, row.value))
      && me' == me.(pc := Returning(Committed, Some(me.pc.write)))
  }

  // One statement of one session.
  ghost predicate SessionStep(s: State, sid: nat, s': State, signer: Signer)
    requires sid in s.sessions && sid in s'.sessions
  {
    var me, me' := s.sessions[sid], s'.sessions[sid];
    && s'.sessions == s.sessions[sid := me']
    && match me.pc
       case Returning(outcome, _) => s'.db == Published(s.db, me) && me' == Session(me.job, Ended(outcome), map[], [])
       case Ended(_) => false
       case RolledBack => false
       case Claiming(deal, plan, next) =>
         s'.db == s.db
         && if next < |ClaimRows(me.job)| then ClaimStep(s, sid, me, me') else me' == me.(pc := ReadHead(deal, plan))
       case ReadHead(_, _) => s'.db == s.db && HeadStep(s, me, me')
       case Inserting(write) =>
         s'.db == s.db
         && if |me.rows| < |write.plan.entries| then InsertStep(s, sid, me, me', signer)
            else WriteStep(s, sid, me, me')
       case _ => s'.db == s.db && me' == me.(pc := AfterRead(s.db, me.job, me.pc))
  }

  // A session dies, for whatever reason, before it has committed.
  predicate CrashStep(s: State, sid: nat, s': State)
    requires sid in s.sessions
  {
    !Over(s.sessions[sid]) && s' == s.(sessions := s.sessions[sid := GivenUp(s.sessions[sid])])
  }

  predicate RegisterStep(s: State, d: Id, record: AuthorityRecord, s': State) {
    && d !in s.db.deals
    && s' == s.(db := s.db.(
         deals := s.db.deals[d := NewDeal(d)],
         records := if record.terms.recordId in s.db.records then s.db.records
                    else s.db.records[record.terms.recordId := record]))
  }

  datatype Turn = Statement(sid: nat) | Crash(sid: nat) | Registration(dealId: Id, record: AuthorityRecord)

  ghost predicate Takes(s: State, m: Turn, s': State, signer: Signer) {
    match m
    case Statement(sid) => sid in s.sessions && sid in s'.sessions && SessionStep(s, sid, s', signer)
    case Crash(sid) => sid in s.sessions && CrashStep(s, sid, s')
    case Registration(d, record) => RegisterStep(s, d, record, s')
  }

  // Nothing committed yet and every session about to begin; there may be any number of them.
  predicate Initial(s: State) {
    && s.db == Db(map[], map[], map[], map[], map[], map[])
    && forall i | i in s.sessions :: s.sessions[i] == Session(s.sessions[i].job, ReadDeal, map[], [])
  }

  ghost predicate Interleaving(trace: seq<State>, turns: seq<Turn>, signer: Signer) {
    && |trace| == |turns| + 1
    && Initial(trace[0])
    && forall k | 0 <= k < |turns| :: TurnAt(trace, turns, signer, k)
  }

  ghost predicate TurnAt(trace: seq<State>, turns: seq<Turn>, signer: Signer, k: nat)
    requires |trace| == |turns| + 1 && k < |turns|
  {
    Takes(trace[k], turns[k], trace[k + 1], signer)
  }

  /* ----- what every interleaving keeps ----- */

  function JobClaims(job: Job): set<Claim> {
    match job
    case RequestJob(req, _) => {IdempotencyKey(req.idempotencyKey), RequestKey(req.requestId)}
    case TransitionJob(req, _) => {CommandKey(req.commandId)}
    case ApprovalJob(req, _) => {CommandKey(req.commandId)}
    case RevocationJob(req, _) => {CommandKey(req.commandId)}
  }

  // The first n claim inserts have been made by this session, nonces apart.
  predicate HoldsFirst(job: Job, held: map<Row, Id>, n: nat)
    requires n <= |ClaimRows(job)|
  {
    forall k | 0 <= k < n :: ClaimRows(job)[k].0.ClaimRow? ==> ClaimRows(job)[k].0 in held
  }

  // And nothing else has.
  predicate HoldsOnly(job: Job, held: map<Row, Id>, n: nat)
    requires n <= |ClaimRows(job)|
  {
    forall row | row in held :: exists k | 0 <= k < n :: ClaimRows(job)[k].0 == row
  }

  predicate HoldsAll(job: Job, held: map<Row, Id>) { forall c | c in JobClaims(job) :: ClaimRow(c) in held }

  // The plan appends to the job's deal and its events carry only the job's own claims, once each.
  predicate PlanFits(plan: Plan, job: Job) {
    && plan.header.dealId == DealOf(job) && plan.entries != []
    && (forall e | e in plan.entries :: !e.payload.Unserialisable? && ClaimsOf(e.payload) <= JobClaims(job))
    && (forall i, j | 0 <= i < j < |plan.entries| :: ClaimsOf(plan.entries[i].payload) !! ClaimsOf(plan.entries[j].payload))
  }

  // The head the session read is still a point of the committed chain, and once it has inserted a
  // row nobody has moved that head.
  predicate WriteFits(w: Write, rows: seq<Event>, job: Job, chains: map<Id, seq<Event>>, signer: Signer) {
    var d := DealOf(job);
    && PlanFits(w.plan, job) && d in chains
    && 0 <= w.start <= |chains[d]| && w.previous == Before(chains[d], w.start)
    && rows <= EventsOf(w, signer)
    && (rows != [] ==> w.start == |chains[d]|)
  }

  predicate StageFits(me: Session, claims: map<Row, Id>, chains: map<Id, seq<Event>>, signer: Signer) {
    match me.pc
    case Claiming(_, plan, next) =>
      && me.rows == [] && DealOf(me.job) in chains && (plan.Some? ==> PlanFits(plan.value, me.job))
      && next <= |ClaimRows(me.job)| && HoldsFirst(me.job, me.held, next) && HoldsOnly(me.job, me.held, next)
    case ReadHead(_, plan) =>
      me.rows == [] && DealOf(me.job) in chains && (plan.Some? ==> PlanFits(plan.value, me.job)) && HoldsAll(me.job, me.held)
    case Inserting(write) => WriteFits(write, me.rows, me.job, chains, signer) && HoldsAll(me.job, me.held)
    case Returning(outcome, done) =>
      && (outcome.Committed? <==> done.Some?)
      && (if done.None? then me.rows == []
          else WriteFits(done.value, me.rows, me.job, chains, signer) && me.rows == EventsOf(done.value, signer) && HoldsAll(me.job, me.held))
    case Ended(outcome) =>
      me.rows == [] && me.held == map[]
      && (outcome.Committed? ==> forall c | c in JobClaims(me.job) :: ClaimRow(c) in claims)
    case _ =>
      me.rows == [] && me.held == map[]
      && (!me.pc.ReadDeal? && !me.pc.RolledBack? ==> DealOf(me.job) in chains)
  }

  predicate SessionFits(me: Session, claims: map<Row, Id>, chains: map<Id, seq<Event>>, signer: Signer) {
    (forall row | row in me.held :: row !in claims) && StageFits(me, claims, chains, signer)
  }

  predicate Apart(a: Session, b: Session) {
    && a.held.Keys !! b.held.Keys
    && (forall e, f | e in a.rows && f in b.rows :: KeyOf(e) != KeyOf(f))
    && (a.pc == Ended(Committed) && b.pc == Ended(Committed) ==> JobClaims(a.job) !! JobClaims(b.job))
  }

  ghost predicate ClaimsStored(chains: map<Id, seq<Event>>, claims: map<Row, Id>) {
    forall d, i | At(chains, d, i) :: forall c | c in ClaimsOf(PayloadAt(chains, d, i)) :: ClaimRow(c) in claims
  }

  predicate AllChainsValid(chains: map<Id, seq<Event>>, key: Key) {
    forall d | d in chains :: ChainValid(chains[d], key)
  }

  ghost predicate TablesFit(db: Db, chains: map<Id, seq<Event>>, key: Key) {
    && chains.Keys == db.deals.Keys && RowsAre(db.events, chains) && AllChainsValid(chains, key)
    && ClaimsUnique(chains) && ClaimsStored(chains, db.claims)
  }

  ghost predicate SessionsFit(sessions: map<nat, Session>, claims: map<Row, Id>, chains: map<Id, seq<Event>>,
                              signer: Signer) {
    && (forall i | i in sessions :: SessionFits(sessions[i], claims, chains, signer))
    && (forall i, j | i in sessions && j in sessions && i != j :: Apart(sessions[i], sessions[j]))
  }

  // `chains` is what the event rows read as.
  ghost predicate Inv(s: State, chains: map<Id, seq<Event>>, signer: Signer) {
    TablesFit(s.db, chains, signer.key) && SessionsFit(s.sessions, s.db.claims, chains, signer)
  }

  /* ----- plans ----- */

  lemma RequestPlanFits(deal: Deal, req: CommitRequest, event: Option<DealEvent>, ids: Ids)
    requires event.Some? ==> TransitionFor(deal.state, event.value).Some?
    ensures PlanFits(PlanRequest(deal, req, event, ids), RequestJob(req, ids))
  {
    var plan := PlanRequest(deal, req, event, ids);
    var n := |MessageEntries(req, ids)|;
    RequestEntries(deal, req, event, ids);
    forall e | e in plan.entries ensures !e.payload.Unserialisable? && ClaimsOf(e.payload) <= JobClaims(RequestJob(req, ids)) {
      var i :| 0 <= i < |plan.entries| && plan.entries[i] == e;
    }
  }

  lemma ApprovalPlanFits(deal: Deal, a: Approval, req: ApprovalRequest, record: Option<Mandate>, revoked: bool,
                         ids: Ids)
    requires req.operation.Grant? ==> req.approvalRecord.Some? && req.action.Token?
    ensures PlanFits(PlanApproval(deal, a, req, record, revoked, ids), ApprovalJob(req, ids))
  {
    var plan := PlanApproval(deal, a, req, record, revoked, ids);
    ApprovalEntries(deal, a, req, record, revoked, ids);
    forall e | e in plan.entries ensures !e.payload.Unserialisable? && ClaimsOf(e.payload) <= JobClaims(ApprovalJob(req, ids)) {
      var i :| 0 <= i < |plan.entries| && plan.entries[i] == e;
    }
  }

  lemma BoundaryPlanFits(deal: Deal, req: TransitionRequest, target: DealState, ids: Ids)
    ensures PlanFits(PlanBoundary(deal, req, target, ids), TransitionJob(req, ids))
  {
  }

  lemma RevocationPlanFits(deal: Deal, req: RevocationRequest, ids: Ids)
    ensures PlanFits(PlanRevocation(deal, req, ids), RevocationJob(req, ids))
  {
  }

  /* ----- one session's step ----- */

  predicate Reading(pc: Pc) { pc.ReadDeal? || pc.ReadApproval? || pc.ReadCommand? || pc.ReadRecord? || pc.ReadRevocations? }

  // After a read the session is still reading, or stops without a write, or holds a plan that fits its job.
  lemma ReadFits(db: Db, job: Job, pc: Pc)
    requires Reading(pc)
    ensures var after := AfterRead(db, job, pc);
      || (Reading(after) && !after.ReadDeal? && (pc.ReadDeal? ==> DealOf(job) in db.deals))
      || (after.Returning? && after.done.None? && !after.outcome.Committed?)
      || (after.Claiming? && after.next == 0 && (pc.ReadDeal? ==> DealOf(job) in db.deals)
          && (after.plan.Some? ==> PlanFits(after.plan.value, job)))
  {
    hide PlanFits, PlanRequest, PlanApproval, PlanBoundary, PlanRevocation;
    var after := AfterRead(db, job, pc);
    if after.Claiming? && after.plan.Some? {
      match job
      case RequestJob(req, ids) =>
        var deal := db.deals[req.dealId];
        RequestPlanFits(deal, req, PlanTransition(deal, req.action, req.decision.outcome).event, ids);
      case TransitionJob(req, ids) => BoundaryPlanFits(pc.deal, req, TransitionFor(pc.deal.state, req.event).value, ids);
      case RevocationJob(req, ids) => RevocationPlanFits(pc.deal, req, ids);
      case ApprovalJob(req, ids) =>
        var a := pc.approval.value;
        var record := if pc.ReadRevocations? then Some(pc.record) else None;
        var revoked := pc.ReadRevocations? && RevokedAt(db.revocations, pc.record.recordId, req.occurredAt);
        ApprovalPlanFits(pc.deal, a, req, record, revoked, ids);
    }
  }

  // Replacing one session by one that fits and stands apart from the rest.
  lemma ReplaceSession(s: State, sid: nat, me': Session, chains: map<Id, seq<Event>>, signer: Signer)
    requires Inv(s, chains, signer) && sid in s.sessions
    requires SessionFits(me', s.db.claims, chains, signer)
    requires forall j | j in s.sessions && j != sid :: Apart(me', s.sessions[j])
    ensures SessionsFit(s.sessions[sid := me'], s.db.claims, chains, signer)
  {
    hide SessionFits, TablesFit;
    forall j | j in s.sessions && j != sid ensures Apart(s.sessions[j], me') { assert Apart(me', s.sessions[j]); }
  }

  lemma EmptyHandedIsApart(a: Session, b: Session)
    requires a.held == map[] && a.rows == [] && a.pc != Ended(Committed)
    ensures Apart(a, b)
  {
  }

  lemma NoMoreThanBeforeIsApart(a: Session, a': Session, b: Session)
    requires Apart(a, b) && a'.held == a.held && a'.rows == a.rows && a'.pc != Ended(Committed)
    ensures Apart(a', b)
  {
  }

  lemma HoldsFirstAll(job: Job, held: map<Row, Id>)
    requires HoldsFirst(job, held, |ClaimRows(job)|)
    ensures HoldsAll(job, held)
  {
    var rows := ClaimRows(job);
    assert rows[0].0 in held;
    if job.RequestJob? { assert rows[1].0 in held; }
  }

  lemma ClaimStepFits(s: State, sid: nat, me: Session, me': Session, chains: map<Id, seq<Event>>, signer: Signer)
    requires SessionFits(me, s.db.claims, chains, signer) && me.pc.Claiming?
    requires me.pc.next < |ClaimRows(me.job)| && ClaimStep(s, sid, me, me')
    ensures SessionFits(me', s.db.claims, chains, signer)
  {
    hide PlanFits, WriteFits;
  }

  lemma ClaimStepApart(s: State, sid: nat, me: Session, me': Session, other: Session)
    requires Apart(me, other) && me.pc.Claiming? && me.pc.next < |ClaimRows(me.job)| && ClaimStep(s, sid, me, me')
    requires !HeldElsewhere(s.sessions, sid, ClaimRows(me.job)[me.pc.next].0) ==> ClaimRows(me.job)[me.pc.next].0 !in other.held
    ensures Apart(me', other)
  {
    hide HeldElsewhere;
  }

  lemma SessionsApart(s: State, chains: map<Id, seq<Event>>, signer: Signer, i: nat, j: nat)
    requires Inv(s, chains, signer) && i in s.sessions && j in s.sessions && i != j
    ensures Apart(s.sessions[i], s.sessions[j])
  {
  }

  lemma HeadStepFits(db: Db, me: Session, me': Session, s: State, chains: map<Id, seq<Event>>, signer: Signer)
    requires s.db == db && TablesFit(db, chains, signer.key) && SessionFits(me, db.claims, chains, signer)
    requires me.pc.ReadHead? && HeadStep(s, me, me')
    ensures SessionFits(me', db.claims, chains, signer)
  {
    hide PlanFits, HoldsAll, ClaimsUnique, ClaimsStored, AllChainsValid, Seal;
    if me.pc.plan.Some? {
      var d := DealOf(me.job);
      var w := me'.pc.write;
      assert ReadsAs(db.events, d, chains[d]);
      HeadOfRows(db.events, d, chains[d], w.start, w.previous);
      assert [] <= EventsOf(w, signer);
    }
  }

  // A row whose key is free extends a chain nobody has moved since the head was read.
  lemma FreeKeyMeansSameHead(db: Db, me: Session, chains: map<Id, seq<Event>>, signer: Signer)
    requires RowsAre(db.events, chains) && me.pc.Inserting? && WriteFits(me.pc.write, me.rows, me.job, chains, signer)
    requires |me.rows| < |me.pc.write.plan.entries|
    requires KeyOf(EventsOf(me.pc.write, signer)[|me.rows|]) !in db.events
    ensures me.pc.write.start == |chains[DealOf(me.job)]|
  {
    var w, d := me.pc.write, DealOf(me.job);
    if me.rows == [] {
      SealNumbers(w.plan.header, w.start, w.previous, w.plan.entries, signer, 0);
      assert ReadsAs(db.events, d, chains[d]);
      assert EventKey(d, w.start) !in db.events;
    }
  }

  lemma InsertStepFits(s: State, sid: nat, me': Session, chains: map<Id, seq<Event>>, signer: Signer)
    requires Inv(s, chains, signer) && sid in s.sessions && s.sessions[sid].pc.Inserting?
    requires |s.sessions[sid].rows| < |s.sessions[sid].pc.write.plan.entries|
    requires InsertStep(s, sid, s.sessions[sid], me', signer)
    ensures SessionFits(me', s.db.claims, chains, signer)
    ensures forall j | j in s.sessions && j != sid :: Apart(me', s.sessions[j])
  {
    hide Seal, PlanFits, HoldsAll, ClaimsUnique, ClaimsStored, AllChainsValid, RowsAre;
    var me := s.sessions[sid];
    assert SessionFits(me, s.db.claims, chains, signer);
    if KeyOf(EventsOf(me.pc.write, signer)[|me.rows|]) !in s.db.events {
      FreeKeyMeansSameHead(s.db, me, chains, signer);
      hide SessionsFit, Inv;
      assert me'.rows <= EventsOf(me.pc.write, signer);
      forall j | j in s.sessions && j != sid ensures Apart(me', s.sessions[j]) {
        SessionsApart(s, chains, signer, sid, j);
      }
    }
  }

  /* ----- committing ----- */

  lemma {:induction false} AddRowsReads(events: EventRows, chains: map<Id, seq<Event>>, d: Id, rows: seq<Event>)
    requires RowsAre(events, chains) && d in chains
    requires forall i | 0 <= i < |rows| :: KeyOf(rows[i]) == EventKey(d, |chains[d]| + i)
    ensures RowsAre(AddRows(events, rows), chains[d := chains[d] + rows])
    decreases |rows|
  {
    hide RowsAre;
    if rows == [] {
      assert chains[d] + rows == chains[d] && chains[d := chains[d]] == chains;
    } else {
      OneMoreEventRow(events, chains, d, rows[0]);
      var longer := chains[d := chains[d] + [rows[0]]];
      AddRowsReads(events[KeyOf(rows[0]) := rows[0]], longer, d, rows[1..]);
      assert (chains[d] + [rows[0]]) + rows[1..] == chains[d] + rows;
      assert longer[d := longer[d] + rows[1..]] == chains[d := chains[d] + rows];
    }
  }

  // The chains once a session's pending rows are committed.
  function Grown(chains: map<Id, seq<Event>>, me: Session): map<Id, seq<Event>>
    requires me.pc.Returning?
  {
    if me.pc.done.None? then chains else chains[DealOf(me.job) := ChainOf(chains, DealOf(me.job)) + me.rows]
  }

  lemma WriteNumbersRows(w: Write, job: Job, chains: map<Id, seq<Event>>, signer: Signer, i: nat)
    requires WriteFits(w, EventsOf(w, signer), job, chains, signer) && i < |w.plan.entries|
    ensures EventsOf(w, signer) != [] && w.start == |chains[DealOf(job)]|
    ensures KeyOf(EventsOf(w, signer)[i]) == EventKey(DealOf(job), |chains[DealOf(job)]| + i)
  {
    SealNumbers(w.plan.header, w.start, w.previous, w.plan.entries, signer, i);
  }

  lemma NewClaimsStayUnique(chains: map<Id, seq<Event>>, claims: map<Row, Id>, job: Job, held: map<Row, Id>,
                            w: Write, signer: Signer)
    requires ClaimsUnique(chains) && ClaimsStored(chains, claims) && DealOf(job) in chains
    requires PlanFits(w.plan, job) && HoldsAll(job, held) && forall row | row in held :: row !in claims
    ensures var longer := chains[DealOf(job) := chains[DealOf(job)] + EventsOf(w, signer)];
      ClaimsUnique(longer) && ClaimsStored(longer, claims + held)
  {
    hide Seal, ClaimsOf, JobClaims;
    var d := DealOf(job);
    var n := |chains[d]|;
    var longer := chains[d := chains[d] + EventsOf(w, signer)];
    forall x, i | At(longer, x, i)
      ensures At(chains, x, i) ==> PayloadAt(longer, x, i) == PayloadAt(chains, x, i)
      ensures !At(chains, x, i) ==> (
        && x == d && 0 <= i - n < |w.plan.entries| && PayloadAt(longer, x, i) == w.plan.entries[i - n].payload
        && ClaimsOf(PayloadAt(longer, x, i)) <= JobClaims(job))
    {
      if !At(chains, x, i) { assert w.plan.entries[i - n] in w.plan.entries; }
    }
    forall x, i | At(longer, x, i)
      ensures forall c | c in ClaimsOf(PayloadAt(longer, x, i)) :: ClaimRow(c) in claims + held
    {
      if At(chains, x, i) {
        forall c | c in ClaimsOf(PayloadAt(chains, x, i)) ensures ClaimRow(c) in claims { }
      }
    }
    forall x, i, y, j | At(longer, x, i) && At(longer, y, j) && (x != y || i != j)
      ensures ClaimsOf(PayloadAt(longer, x, i)) !! ClaimsOf(PayloadAt(longer, y, j))
    {
      if At(chains, x, i) && At(chains, y, j) {
        assert ClaimsOf(PayloadAt(chains, x, i)) !! ClaimsOf(PayloadAt(chains, y, j));
      } else if At(chains, x, i) {
        assert forall c | c in ClaimsOf(PayloadAt(chains, x, i)) :: ClaimRow(c) in claims;
      } else if At(chains, y, j) {
        assert forall c | c in ClaimsOf(PayloadAt(chains, y, j)) :: ClaimRow(c) in claims;
      } else if i < j {
        assert ClaimsOf(w.plan.entries[i - n].payload) !! ClaimsOf(w.plan.entries[j - n].payload);
      } else {
        assert ClaimsOf(w.plan.entries[j - n].payload) !! ClaimsOf(w.plan.entries[i - n].payload);
      }
    }
  }

  lemma ChainStaysValid(chains: map<Id, seq<Event>>, w: Write, job: Job, signer: Signer)
    requires AllChainsValid(chains, signer.key) && WriteFits(w, EventsOf(w, signer), job, chains, signer)
    ensures AllChainsValid(chains[DealOf(job) := chains[DealOf(job)] + EventsOf(w, signer)], signer.key)
  {
    hide Seal, ChainValid;
    WriteNumbersRows(w, job, chains, signer, 0);
    SealedAppendIsValid(chains[DealOf(job)], w.plan.header, w.plan.entries, signer);
  }

  // Publishing keeps every chain gapless, linked and verified, and every claim on one event only.
  lemma CommitKeepsTables(db: Db, me: Session, chains: map<Id, seq<Event>>, signer: Signer)
    requires TablesFit(db, chains, signer.key) && SessionFits(me, db.claims, chains, signer) && me.pc.Returning?
    ensures me.pc.done.Some? ==> DealOf(me.job) in chains
    ensures TablesFit(Published(db, me), Grown(chains, me), signer.key)
  {
    hide Seal, PlanFits, HoldsAll, RowsAre, ClaimsUnique, AllChainsValid;
    if me.pc.done.Some? {
      var w := me.pc.done.value;
      NewClaimsStayUnique(chains, db.claims, me.job, me.held, w, signer);
      ChainStaysValid(chains, w, me.job, signer);
      forall i | 0 <= i < |me.rows| ensures KeyOf(me.rows[i]) == EventKey(DealOf(me.job), |chains[DealOf(me.job)]| + i) {
        WriteNumbersRows(w, me.job, chains, signer, i);
      }
      AddRowsReads(db.events, chains, DealOf(me.job), me.rows);
    } else {
      forall x, i | At(chains, x, i)
        ensures forall c | c in ClaimsOf(PayloadAt(chains, x, i)) :: ClaimRow(c) in db.claims + me.held
      {
        forall c | c in ClaimsOf(PayloadAt(chains, x, i)) ensures ClaimRow(c) in db.claims { }
      }
    }
  }

  lemma BeforeOfLonger(chain: seq<Event>, more: seq<Event>, i: nat)
    requires i <= |chain|
    ensures Before(chain + more, i) == Before(chain, i)
  {
  }

  // A rival that has inserted a row holds the next key, so this commit cannot be moving its head.
  lemma RivalsCannotShareAHead(me: Session, other: Session, claims: map<Row, Id>, chains: map<Id, seq<Event>>,
                               signer: Signer)
    requires SessionFits(me, claims, chains, signer) && SessionFits(other, claims, chains, signer)
    requires me.pc.Returning? && me.pc.done.Some? && DealOf(other.job) == DealOf(me.job) && other.rows != []
    requires other.pc.Inserting? || (other.pc.Returning? && other.pc.done.Some?)
    ensures !Apart(me, other)
  {
    var w, v := me.pc.done.value, if other.pc.Inserting? then other.pc.write else other.pc.done.value;
    SealNumbers(w.plan.header, w.start, w.previous, w.plan.entries, signer, 0);
    SealNumbers(v.plan.header, v.start, v.previous, v.plan.entries, signer, 0);
    assert me.rows[0] in me.rows && other.rows[0] in other.rows;
  }

  lemma OthersSurviveCommit(me: Session, other: Session, claims: map<Row, Id>, chains: map<Id, seq<Event>>,
                            signer: Signer)
    requires SessionFits(me, claims, chains, signer) && SessionFits(other, claims, chains, signer) && Apart(me, other)
    requires me.pc.Returning?
    ensures me.pc.done.Some? ==> DealOf(me.job) in chains
    ensures SessionFits(other, claims + me.held, Grown(chains, me), signer)
  {
    hide Seal, PlanFits, HoldsAll;
    if me.pc.done.Some? && (other.pc.Inserting? || (other.pc.Returning? && other.pc.done.Some?)) && DealOf(other.job) == DealOf(me.job) {
      var v := if other.pc.Inserting? then other.pc.write else other.pc.done.value;
      BeforeOfLonger(chains[DealOf(me.job)], me.rows, v.start);
      if other.rows != [] { RivalsCannotShareAHead(me, other, claims, chains, signer); }
    }
  }

  lemma EndedIsApart(me: Session, other: Session, claims: map<Row, Id>, chains: map<Id, seq<Event>>, signer: Signer)
    requires SessionFits(me, claims, chains, signer) && SessionFits(other, claims, chains, signer) && me.pc.Returning?
    ensures Apart(Session(me.job, Ended(me.pc.outcome), map[], []), other)
  {
    hide WriteFits, PlanFits;
    if me.pc.outcome.Committed? && other.pc == Ended(Committed) {
      forall c | c in JobClaims(me.job) ensures c !in JobClaims(other.job) {
        assert ClaimRow(c) in me.held;
      }
    }
  }

  /* ----- every step ----- */

  lemma WriteStepFits(s: State, sid: nat, me: Session, me': Session, chains: map<Id, seq<Event>>, signer: Signer)
    requires SessionFits(me, s.db.claims, chains, signer) && me.pc.Inserting? && WriteStep(s, sid, me, me')
    requires |me.rows| >= |me.pc.write.plan.entries|
    ensures SessionFits(me', s.db.claims, chains, signer) && me'.pc != Ended(Committed)
    ensures (me'.held == map[] && me'.rows == []) || (me'.held == me.held && me'.rows == me.rows)
  {
    hide OpenedElsewhere, Seal, PlanFits, HoldsAll;
    AllRowsInserted(me, chains, signer);
  }

  lemma QuietStepFits(s: State, sid: nat, s': State, chains: map<Id, seq<Event>>, signer: Signer)
    requires Inv(s, chains, signer) && sid in s.sessions && sid in s'.sessions && SessionStep(s, sid, s', signer)
    requires !s.sessions[sid].pc.Returning?
    ensures s'.db == s.db
    ensures SessionFits(s'.sessions[sid], s.db.claims, chains, signer)
    ensures forall j | j in s.sessions && j != sid :: Apart(s'.sessions[sid], s.sessions[j])
  {
    hide Seal, AfterRead, WriteStep, PlanFits, WriteFits, HoldsAll, HoldsFirst, RowsAre, ClaimsUnique, ClaimsStored,
      AllChainsValid, ClaimRows;
    var me, me' := s.sessions[sid], s'.sessions[sid];
    assert SessionFits(me, s.db.claims, chains, signer);
    if me.pc.Claiming? && me.pc.next < |ClaimRows(me.job)| {
      ClaimStepFits(s, sid, me, me', chains, signer);
      forall j | j in s.sessions && j != sid ensures Apart(me', s.sessions[j]) {
        SessionsApart(s, chains, signer, sid, j);
        ClaimStepApart(s, sid, me, me', s.sessions[j]);
      }
    } else if me.pc.Inserting? && |me.rows| < |me.pc.write.plan.entries| {
      InsertStepFits(s, sid, me', chains, signer);
    } else {
      if me.pc.Claiming? {
        HoldsFirstAll(me.job, me.held);
      } else if me.pc.ReadHead? {
        HeadStepFits(s.db, me, me', s, chains, signer);
      } else if me.pc.Inserting? {
        WriteStepFits(s, sid, me, me', chains, signer);
      } else {
        ReadFits(s.db, me.job, me.pc);
        NothingHeldYet(me.job, me.held);
      }
      hide SessionFits, StageFits;
      forall j | j in s.sessions && j != sid ensures Apart(me', s.sessions[j]) {
        SessionsApart(s, chains, signer, sid, j);
        if me'.held == map[] && me'.rows == [] { EmptyHandedIsApart(me', s.sessions[j]); }
        else { NoMoreThanBeforeIsApart(me, me', s.sessions[j]); }
      }
    }
  }

  lemma NothingHeldYet(job: Job, held: map<Row, Id>)
    ensures HoldsFirst(job, held, 0) && (held == map[] ==> HoldsOnly(job, held, 0))
  {
  }

  lemma AllRowsInserted(me: Session, chains: map<Id, seq<Event>>, signer: Signer)
    requires me.pc.Inserting? && WriteFits(me.pc.write, me.rows, me.job, chains, signer)
    requires |me.rows| >= |me.pc.write.plan.entries|
    ensures me.rows == EventsOf(me.pc.write, signer)
  {
  }

  lemma CommitKeepsInv(s: State, sid: nat, s': State, chains: map<Id, seq<Event>>, signer: Signer)
    requires Inv(s, chains, signer) && sid in s.sessions && sid in s'.sessions && SessionStep(s, sid, s', signer)
    requires s.sessions[sid].pc.Returning?
    ensures s.sessions[sid].pc.done.Some? ==> DealOf(s.sessions[sid].job) in chains
    ensures Inv(s', Grown(chains, s.sessions[sid]), signer)
  {
    hide TablesFit, Published, SessionFits, Grown;
    var me, me' := s.sessions[sid], s'.sessions[sid];
    CommitKeepsTables(s.db, me, chains, signer);
    PublishedClaims(s.db, me);
    forall j | j in s'.sessions ensures SessionFits(s'.sessions[j], s'.db.claims, Grown(chains, me), signer) {
      if j != sid {
        SessionsApart(s, chains, signer, sid, j);
        OthersSurviveCommit(me, s.sessions[j], s.db.claims, chains, signer);
      } else {
        EndedFits(me, s.db.claims, chains, signer);
      }
    }
    forall j | j in s.sessions && j != sid ensures Apart(me', s.sessions[j]) && Apart(s.sessions[j], me') {
      EndedIsApart(me, s.sessions[j], s.db.claims, chains, signer);
    }
  }

  lemma PublishedClaims(db: Db, me: Session)
    requires me.pc.Returning?
    ensures Published(db, me).claims == db.claims + me.held
  {
  }

  lemma EndedFits(me: Session, claims: map<Row, Id>, chains: map<Id, seq<Event>>, signer: Signer)
    requires SessionFits(me, claims, chains, signer) && me.pc.Returning? && (me.pc.done.Some? ==> DealOf(me.job) in chains)
    ensures SessionFits(Session(me.job, Ended(me.pc.outcome), map[], []), claims + me.held, Grown(chains, me), signer)
  {
    hide PlanFits, WriteFits;
  }

  lemma CrashKeepsInv(s: State, sid: nat, s': State, chains: map<Id, seq<Event>>, signer: Signer)
    requires Inv(s, chains, signer) && sid in s.sessions && CrashStep(s, sid, s')
    ensures Inv(s', chains, signer)
  {
    hide TablesFit;
    var me' := GivenUp(s.sessions[sid]);
    forall j | j in s.sessions && j != sid ensures Apart(me', s.sessions[j]) { EmptyHandedIsApart(me', s.sessions[j]); }
    ReplaceSession(s, sid, me', chains, signer);
  }

  lemma RegistrationKeepsInv(s: State, d: Id, record: AuthorityRecord, s': State, chains: map<Id, seq<Event>>,
                             signer: Signer)
    requires Inv(s, chains, signer) && RegisterStep(s, d, record, s')
    ensures Inv(s', chains[d := []], signer)
  {
    hide PlanFits, HoldsAll, HoldsFirst, Apart, EventsOf, RowsAre;
    NoRowsYet(s.db.events, chains, d);
    var more := chains[d := []];
    forall x, i | At(more, x, i) ensures At(chains, x, i) && PayloadAt(more, x, i) == PayloadAt(chains, x, i) { }
    assert ClaimsUnique(more) by {
      forall x, i, y, j | At(more, x, i) && At(more, y, j) && (x != y || i != j)
        ensures ClaimsOf(PayloadAt(more, x, i)) !! ClaimsOf(PayloadAt(more, y, j))
      {
        assert ClaimsOf(PayloadAt(chains, x, i)) !! ClaimsOf(PayloadAt(chains, y, j));
      }
    }
    assert ClaimsStored(more, s.db.claims) by {
      forall x, i | At(more, x, i) ensures forall c | c in ClaimsOf(PayloadAt(more, x, i)) :: ClaimRow(c) in s.db.claims {
        assert forall c | c in ClaimsOf(PayloadAt(chains, x, i)) :: ClaimRow(c) in s.db.claims;
      }
    }
    forall j | j in s.sessions ensures SessionFits(s.sessions[j], s.db.claims, more, signer) {
      assert SessionFits(s.sessions[j], s.db.claims, chains, signer);
    }
  }

  // What the event rows read as after one turn.
  function ChainsAfter(s: State, m: Turn, chains: map<Id, seq<Event>>): map<Id, seq<Event>> {
    match m
    case Statement(sid) =>
      if sid in s.sessions && s.sessions[sid].pc.Returning? then Grown(chains, s.sessions[sid]) else chains
    case Crash(_) => chains
    case Registration(d, _) => chains[d := []]
  }

  lemma TurnKeepsInv(s: State, m: Turn, s': State, chains: map<Id, seq<Event>>, signer: Signer)
    requires Inv(s, chains, signer) && Takes(s, m, s', signer)
    ensures Inv(s', ChainsAfter(s, m, chains), signer)
  {
    hide TablesFit, SessionFits, Apart, SessionStep, RegisterStep, CrashStep, Grown;
    match m
    case Statement(sid) =>
      if s.sessions[sid].pc.Returning? {
        CommitKeepsInv(s, sid, s', chains, signer);
      } else {
        QuietStepFits(s, sid, s', chains, signer);
        ReplaceSession(s, sid, s'.sessions[sid], chains, signer);
        SessionsOfStep(s, sid, s', signer);
      }
    case Crash(sid) => CrashKeepsInv(s, sid, s', chains, signer);
    case Registration(d, record) => RegistrationKeepsInv(s, d, record, s', chains, signer);
  }

  lemma SessionsOfStep(s: State, sid: nat, s': State, signer: Signer)
    requires sid in s.sessions && sid in s'.sessions && SessionStep(s, sid, s', signer)
    ensures s'.sessions == s.sessions[sid := s'.sessions[sid]]
  {
  }

  lemma {:induction false} InterleavingKeepsInv(trace: seq<State>, turns: seq<Turn>, signer: Signer, k: nat)
    returns (chains: map<Id, seq<Event>>)
    requires Interleaving(trace, turns, signer) && k < |trace|
    ensures Inv(trace[k], chains, signer)
    decreases k
  {
    if k == 0 {
      chains := map[];
      forall i | i in trace[0].sessions ensures SessionFits(trace[0].sessions[i], map[], chains, signer) { }
    } else {
      var before := InterleavingKeepsInv(trace, turns, signer, k - 1);
      assert TurnAt(trace, turns, signer, k - 1);
      TurnKeepsInv(trace[k - 1], turns[k - 1], trace[k], before, signer);
      chains := ChainsAfter(trace[k - 1], turns[k - 1], before);
    }
  }

  // However any number of commits interleave, die or roll back: each idempotency key, request id and
  // command id yields at most one COMMITTED result.
  lemma AtMostOneCommitPerKey(trace: seq<State>, turns: seq<Turn>, signer: Signer, k: nat, i: nat, j: nat)
    requires Interleaving(trace, turns, signer) && k < |trace|
    requires i in trace[k].sessions && j in trace[k].sessions && i != j
    requires trace[k].sessions[i].pc == Ended(Committed) && trace[k].sessions[j].pc == Ended(Committed)
    ensures JobClaims(trace[k].sessions[i].job) !! JobClaims(trace[k].sessions[j].job)
  {
    var chains := InterleavingKeepsInv(trace, turns, signer, k);
    SessionsApart(trace[k], chains, signer, i, j);
  }

  // The committed event rows of every deal read as one chain, gapless from 0, linked and signed, that
  // the chain verifier accepts, and no two events anywhere carry the same key.
  lemma CommittedChainsVerify(trace: seq<State>, turns: seq<Turn>, signer: Signer, k: nat)
    returns (chains: map<Id, seq<Event>>)
    requires Interleaving(trace, turns, signer) && k < |trace|
    ensures chains.Keys == trace[k].db.deals.Keys && RowsAre(trace[k].db.events, chains)
    ensures forall d | d in chains :: ChainValid(chains[d], signer.key)
    ensures ClaimsUnique(chains)
  {
    chains := InterleavingKeepsInv(trace, turns, signer, k);
  }
}
