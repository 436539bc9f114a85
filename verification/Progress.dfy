/** What a session waits for, why somebody can always move, and what a session alone achieves. */
module Progress {
  import opened Common
  import opened Deals
  import opened Crypto
  import opened Authority
  import opened Policy
  import opened Chain
  import opened Plans
  import opened Ledger
  import opened Once
  import opened Postgres
  import opened Sessions

  /* ----- waiting ----- */

  // The session's next statement waits for another transaction to end.
  predicate Blocked(s: State, sid: nat, signer: Signer)
    requires sid in s.sessions
  {
    var me := s.sessions[sid];
    match me.pc
    case Claiming(_, _, next) =>
      && next < |ClaimRows(me.job)|
      && ClaimRows(me.job)[next].0 !in s.db.claims
      && HeldElsewhere(s.sessions, sid, ClaimRows(me.job)[next].0)
    case Inserting(write) =>
      if |me.rows| < |write.plan.entries| then
        && KeyOf(EventsOf(write, signer)[|me.rows|]) !in s.db.events
        && PendingElsewhere(s.sessions, sid, KeyOf(EventsOf(write, signer)[|me.rows|]))
      else
        var row := OpenedRow(me.job, write.plan);
        row.Some? && row.value !in s.db.approvals && OpenedElsewhere(s.sessions, sid, row.value)
    case _ => false
  }

  // What the session becomes when its next statement runs.
  ghost function AfterStatement(s: State, sid: nat, chains: map<Id, seq<Event>>, signer: Signer): Session
    requires sid in s.sessions && !Over(s.sessions[sid])
  {
    var me := s.sessions[sid];
    match me.pc
    case Returning(outcome, _) => Session(me.job, Ended(outcome), map[], [])
    case Claiming(deal, plan, next) =>
      if next >= |ClaimRows(me.job)| then me.(pc := ReadHead(deal, plan))
      else
        var (row, value) := ClaimRows(me.job)[next];
        if row in s.db.claims then
          me.(pc := if row.NonceRow? && s.db.claims[row] == value then Claiming(deal, plan, next + 1)
                    else Stop(AlreadyApplied))
        else me.(held := me.held[row := value], pc := Claiming(deal, plan, next + 1))
    case ReadHead(deal, plan) =>
      if plan.None? then GivenUp(me)
      else
        var chain := ChainOf(chains, DealOf(me.job));
        me.(pc := Inserting(Write(deal, plan.value, |chain|, Head(chain))))
    case Inserting(write) =>
      if |me.rows| >= |write.plan.entries| then
        var row := OpenedRow(me.job, write.plan);
        if row.Some? && row.value in s.db.approvals then GivenUp(me)
        else me.(pc := Returning(Committed, Some(write)))
      else
        var e := EventsOf(write, signer)[|me.rows|];
        if KeyOf(e) in s.db.events then GivenUp(me) else me.(rows := me.rows + [e])
    case _ => me.(pc := AfterRead(s.db, me.job, me.pc))
  }

  ghost function AfterMove(s: State, sid: nat, chains: map<Id, seq<Event>>, signer: Signer): State
    requires sid in s.sessions && !Over(s.sessions[sid])
  {
    var me := s.sessions[sid];
    State(if me.pc.Returning? then Published(s.db, me) else s.db, s.sessions[sid := AfterStatement(s, sid, chains, signer)])
  }

  lemma HeadCanBeRead(db: Db, d: Id, chains: map<Id, seq<Event>>, key: Key)
    requires TablesFit(db, chains, key) && d in chains
    ensures IsHead(db.events, d, |chains[d]|, Head(chains[d]))
  {
    HeadOfRows(db.events, d, chains[d], |chains[d]|, Head(chains[d]));
  }

  // A session that is not over and not blocked can run its next statement, and this is what comes of it.
  lemma UnblockedSessionMoves(s: State, sid: nat, chains: map<Id, seq<Event>>, signer: Signer)
    requires Inv(s, chains, signer) && sid in s.sessions && !Over(s.sessions[sid]) && !Blocked(s, sid, signer)
    ensures SessionStep(s, sid, AfterMove(s, sid, chains, signer), signer)
  {
    hide Seal, AfterRead, PlanFits, HoldsAll, HoldsFirst, HoldsOnly, RowsAre, ClaimsUnique, ClaimsStored,
      AllChainsValid, ClaimRows, Published, Apart, OpenedElsewhere, HeldElsewhere, PendingElsewhere;
    var me := s.sessions[sid];
    assert SessionFits(me, s.db.claims, chains, signer);
    if me.pc.ReadHead? && me.pc.plan.Some? { HeadCanBeRead(s.db, DealOf(me.job), chains, signer.key); }
    var s' := AfterMove(s, sid, chains, signer);
    assert s'.sessions[sid] == AfterStatement(s, sid, chains, signer);
  }

  /* ----- no deadlock ----- */

  // The order in which commits take their rows: idempotency, request, nonce or command, then event
  // rows, then the approval row.
  function RowLevel(row: Row): nat {
    match row
    case ClaimRow(IdempotencyKey(_)) => 0
    case ClaimRow(RequestKey(_)) => 1
    case ClaimRow(CommandKey(_)) => 2
    case NonceRow(_) => 2
  }

  function WaitLevel(me: Session): nat {
    if me.pc.Claiming? && me.pc.next < |ClaimRows(me.job)| then RowLevel(ClaimRows(me.job)[me.pc.next].0) else 3
  }

  lemma ClaimsClimb(job: Job, i: nat, j: nat)
    requires i < j < |ClaimRows(job)|
    ensures RowLevel(ClaimRows(job)[i].0) < RowLevel(ClaimRows(job)[j].0)
  {
  }

  // Whoever holds a claim row waits only for something later in the order.
  lemma HolderIsFurtherOn(me: Session, claims: map<Row, Id>, chains: map<Id, seq<Event>>, signer: Signer, row: Row)
    requires SessionFits(me, claims, chains, signer) && row in me.held
    ensures !Over(me) && RowLevel(row) < WaitLevel(me)
  {
    hide WriteFits, PlanFits, HoldsAll, HoldsFirst;
    if me.pc.Claiming? && me.pc.next < |ClaimRows(me.job)| {
      var k :| 0 <= k < me.pc.next && ClaimRows(me.job)[k].0 == row;
      ClaimsClimb(me.job, k, me.pc.next);
    }
  }

  // Pending event rows carry the numbers right after the committed chain.
  lemma PendingNumbers(me: Session, claims: map<Row, Id>, chains: map<Id, seq<Event>>, signer: Signer, k: nat)
    requires SessionFits(me, claims, chains, signer) && k < |me.rows|
    ensures DealOf(me.job) in chains
    ensures KeyOf(me.rows[k]) == EventKey(DealOf(me.job), |chains[DealOf(me.job)]| + k)
  {
    hide Seal, ClaimsOf, HoldsAll, HoldsFirst, HoldsOnly;
    var w := if me.pc.Inserting? then me.pc.write else me.pc.done.value;
    SealNumbers(w.plan.header, w.start, w.previous, w.plan.entries, signer, k);
  }

  lemma NextNumber(me: Session, claims: map<Row, Id>, chains: map<Id, seq<Event>>, signer: Signer)
    requires SessionFits(me, claims, chains, signer) && me.pc.Inserting? && |me.rows| < |me.pc.write.plan.entries|
    ensures KeyOf(EventsOf(me.pc.write, signer)[|me.rows|]).dealId == DealOf(me.job)
  {
    hide Seal, ClaimsOf, HoldsAll;
    var w := me.pc.write;
    SealNumbers(w.plan.header, w.start, w.previous, w.plan.entries, signer, |me.rows|);
  }

  // Two sessions that have both inserted event rows work on different deals.
  lemma InsertersWorkOnDifferentDeals(me: Session, other: Session, claims: map<Row, Id>, chains: map<Id, seq<Event>>,
                                      signer: Signer)
    requires SessionFits(me, claims, chains, signer) && SessionFits(other, claims, chains, signer) && Apart(me, other)
    requires me.rows != [] && other.rows != []
    ensures DealOf(me.job) != DealOf(other.job)
  {
    hide SessionFits;
    PendingNumbers(me, claims, chains, signer, 0);
    PendingNumbers(other, claims, chains, signer, 0);
    assert me.rows[0] in me.rows && other.rows[0] in other.rows;
  }

  // So a session that has inserted an event row waits for no other.
  lemma InserterOwnsTheNextNumbers(s: State, i: nat, j: nat, chains: map<Id, seq<Event>>, signer: Signer, e: Event)
    requires Inv(s, chains, signer) && i in s.sessions && j in s.sessions && i != j
    requires s.sessions[i].pc.Inserting? && s.sessions[i].rows != []
    requires |s.sessions[i].rows| < |s.sessions[i].pc.write.plan.entries|
    requires e in s.sessions[j].rows
    ensures KeyOf(e) != KeyOf(EventsOf(s.sessions[i].pc.write, signer)[|s.sessions[i].rows|])
  {
    hide Inv, SessionFits, Seal, Apart;
    var me, other := s.sessions[i], s.sessions[j];
    SessionIsFit(s, i, chains, signer);
    SessionIsFit(s, j, chains, signer);
    SessionsApart(s, chains, signer, i, j);
    InsertersWorkOnDifferentDeals(me, other, s.db.claims, chains, signer);
    NextNumber(me, s.db.claims, chains, signer);
    var k :| 0 <= k < |other.rows| && other.rows[k] == e;
    PendingNumbers(other, s.db.claims, chains, signer, k);
  }

  // As long as some session is not over, some session that is not over waits for nobody.
  lemma {:induction false} SomebodyCanMove(s: State, sid: nat, chains: map<Id, seq<Event>>,
                                           signer: Signer) returns (j: nat)
    requires Inv(s, chains, signer) && sid in s.sessions && !Over(s.sessions[sid])
    ensures j in s.sessions && !Over(s.sessions[j]) && !Blocked(s, j, signer)
    decreases 4 - WaitLevel(s.sessions[sid])
  {
    hide Inv, StageFits, Seal, ClaimRows;
    var me := s.sessions[sid];
    if !Blocked(s, sid, signer) {
      j := sid;
    } else if me.pc.Claiming? {
      var row := ClaimRows(me.job)[me.pc.next].0;
      var r :| r in s.sessions && r != sid && row in s.sessions[r].held;
      SessionIsFit(s, r, chains, signer);
      HolderIsFurtherOn(s.sessions[r], s.db.claims, chains, signer, row);
      j := SomebodyCanMove(s, r, chains, signer);
    } else {
      j := InserterCanMove(s, sid, chains, signer);
    }
  }

  lemma SessionIsFit(s: State, sid: nat, chains: map<Id, seq<Event>>, signer: Signer)
    requires Inv(s, chains, signer) && sid in s.sessions
    ensures SessionFits(s.sessions[sid], s.db.claims, chains, signer)
  {
  }

  lemma RowsMeanWriting(me: Session, claims: map<Row, Id>, chains: map<Id, seq<Event>>, signer: Signer)
    requires SessionFits(me, claims, chains, signer) && me.rows != []
    ensures me.pc.Inserting? || (me.pc.Returning? && me.pc.done.Some?)
  {
  }

  // Waiting for an event row or an approval row means waiting for a session that waits for neither.
  lemma InserterCanMove(s: State, sid: nat, chains: map<Id, seq<Event>>, signer: Signer) returns (j: nat)
    requires Inv(s, chains, signer) && sid in s.sessions && s.sessions[sid].pc.Inserting? && Blocked(s, sid, signer)
    ensures j in s.sessions && !Over(s.sessions[j]) && !Blocked(s, j, signer)
  {
    hide Inv, StageFits, Seal, ClaimRows;
    var me := s.sessions[sid];
    if |me.rows| < |me.pc.write.plan.entries| {
      var key := KeyOf(EventsOf(me.pc.write, signer)[|me.rows|]);
      var r :| r in s.sessions && r != sid && exists e | e in s.sessions[r].rows :: KeyOf(e) == key;
      SessionIsFit(s, r, chains, signer);
      RowsMeanWriting(s.sessions[r], s.db.claims, chains, signer);
      if !Blocked(s, r, signer) {
        j := r;
      } else {
        if |s.sessions[r].rows| < |s.sessions[r].pc.write.plan.entries| {
          var rkey := KeyOf(EventsOf(s.sessions[r].pc.write, signer)[|s.sessions[r].rows|]);
          var q :| q in s.sessions && q != r && exists e | e in s.sessions[q].rows :: KeyOf(e) == rkey;
          var e :| e in s.sessions[q].rows && KeyOf(e) == rkey;
          InserterOwnsTheNextNumbers(s, r, q, chains, signer, e);
        }
        j := OpenerCanMove(s, r, signer);
      }
    } else {
      j := OpenerCanMove(s, sid, signer);
    }
  }

  lemma OpenerCanMove(s: State, sid: nat, signer: Signer) returns (j: nat)
    requires sid in s.sessions && s.sessions[sid].pc.Inserting? && Blocked(s, sid, signer)
    requires |s.sessions[sid].rows| >= |s.sessions[sid].pc.write.plan.entries|
    ensures j in s.sessions && !Over(s.sessions[j]) && !Blocked(s, j, signer)
  {
    var id := OpenedRow(s.sessions[sid].job, s.sessions[sid].pc.write.plan).value;
    j :| j in s.sessions && j != sid && s.sessions[j].pc.Returning? && s.sessions[j].pc.done.Some?
      && OpenedRow(s.sessions[j].job, s.sessions[j].pc.done.value.plan) == Some(id);
  }

  /* ----- reachable states ----- */

  ghost predicate ReachedBy(s: State, trace: seq<State>, turns: seq<Turn>, signer: Signer) {
    Interleaving(trace, turns, signer) && trace[|turns|] == s
  }

  // Some interleaving leads here.
  ghost predicate Reachable(s: State, signer: Signer) {
    exists trace, turns :: ReachedBy(s, trace, turns, signer)
  }

  lemma InitialIsReachable(s: State, signer: Signer)
    requires Initial(s)
    ensures Reachable(s, signer)
  {
    assert ReachedBy(s, [s], [], signer);
  }

  lemma TurnIsReachable(s: State, m: Turn, s': State, signer: Signer)
    requires Reachable(s, signer) && Takes(s, m, s', signer)
    ensures Reachable(s', signer)
  {
    hide Takes, Initial;
    var trace, turns :| ReachedBy(s, trace, turns, signer);
    var longer, more := trace + [s'], turns + [m];
    forall k | 0 <= k < |more| ensures TurnAt(longer, more, signer, k) {
      if k < |turns| { assert TurnAt(trace, turns, signer, k); }
    }
    assert ReachedBy(s', longer, more, signer);
  }

  lemma ReachableFits(s: State, chains: map<Id, seq<Event>>, signer: Signer)
    requires Reachable(s, signer) && RowsAre(s.db.events, chains) && chains.Keys == s.db.deals.Keys
    ensures Inv(s, chains, signer)
  {
    hide Interleaving, RowsAre, SessionsFit;
    var trace, turns :| ReachedBy(s, trace, turns, signer);
    assert |trace| == |turns| + 1 by { InterleavingLength(trace, turns, signer); }
    var found := InterleavingKeepsInv(trace, turns, signer, |turns|);
    RowsDetermineChains(s.db.events, chains, found);
  }

  lemma InterleavingLength(trace: seq<State>, turns: seq<Turn>, signer: Signer)
    requires Interleaving(trace, turns, signer)
    ensures |trace| == |turns| + 1
  {
  }

  // The commits cannot deadlock: in every reachable state with a session not over, some session that is
  // not over runs its next statement.
  lemma NeverDeadlocked(s: State, sid: nat, signer: Signer) returns (j: nat, s': State)
    requires Reachable(s, signer) && sid in s.sessions && !Over(s.sessions[sid])
    ensures j in s.sessions && !Over(s.sessions[j]) && j in s'.sessions && SessionStep(s, j, s', signer)
    ensures Reachable(s', signer)
  {
    hide Reachable, Inv, SessionStep, Blocked, AfterStatement, Over, Published;
    var chains := ReachableInv(s, signer);
    j := SomebodyCanMove(s, sid, chains, signer);
    UnblockedSessionMoves(s, j, chains, signer);
    s' := AfterMove(s, j, chains, signer);
    TurnIsReachable(s, Statement(j), s', signer);
  }

  lemma ReachableInv(s: State, signer: Signer) returns (chains: map<Id, seq<Event>>)
    requires Reachable(s, signer)
    ensures Inv(s, chains, signer)
  {
    hide Interleaving, Inv;
    var trace, turns :| ReachedBy(s, trace, turns, signer);
    InterleavingLength(trace, turns, signer);
    chains := InterleavingKeepsInv(trace, turns, signer, |turns|);
  }

  /* ----- a session alone ----- */

  // The state with one session put in another place.
  function With(s: State, sid: nat, me: Session): State { State(s.db, s.sessions[sid := me]) }

  predicate NobodyElseHolds(s: State, sid: nat) {
    forall j | j in s.sessions && j != sid ::
      s.sessions[j].held == map[] && s.sessions[j].rows == [] && !s.sessions[j].pc.Returning?
  }

  // Every claim of the job is free, or a nonce its own record has.
  predicate ClaimsFree(claims: map<Row, Id>, job: Job) {
    forall k | 0 <= k < |ClaimRows(job)| ::
      var (row, value) := ClaimRows(job)[k];
      row in claims ==> row.NonceRow? && claims[row] == value
  }

  // What the first n claim inserts take.
  function HeldAfter(claims: map<Row, Id>, job: Job, n: nat): map<Row, Id>
    requires n <= |ClaimRows(job)|
  {
    if n == 0 then map[]
    else
      var (row, value) := ClaimRows(job)[n - 1];
      if row in claims then HeldAfter(claims, job, n - 1) else HeldAfter(claims, job, n - 1)[row := value]
  }

  function AllHeld(claims: map<Row, Id>, job: Job): map<Row, Id> { HeldAfter(claims, job, |ClaimRows(job)|) }

  lemma StatementIsReachable(s: State, sid: nat, me: Session, me': Session, signer: Signer)
    requires Reachable(With(s, sid, me), signer) && !me.pc.Returning?
    requires SessionStep(With(s, sid, me), sid, With(s, sid, me'), signer)
    ensures Reachable(With(s, sid, me'), signer)
  {
    hide SessionStep;
    assert Takes(With(s, sid, me), Statement(sid), With(s, sid, me'), signer);
    TurnIsReachable(With(s, sid, me), Statement(sid), With(s, sid, me'), signer);
  }

  // The first n claims of the job are free, or a nonce its own record has.
  predicate ClaimsFreeTo(claims: map<Row, Id>, job: Job, n: nat)
    requires n <= |ClaimRows(job)|
  {
    forall k | 0 <= k < n ::
      var (row, value) := ClaimRows(job)[k];
      row in claims ==> row.NonceRow? && claims[row] == value
  }

  lemma {:induction false} ClaimsAlone(s: State, sid: nat, job: Job, deal: Deal, plan: Option<Plan>, n: nat,
                                       signer: Signer)
    requires sid in s.sessions && NobodyElseHolds(s, sid) && n <= |ClaimRows(job)| && ClaimsFreeTo(s.db.claims, job, n)
    requires Reachable(With(s, sid, Session(job, Claiming(deal, plan, 0), map[], [])), signer)
    ensures Reachable(With(s, sid, Session(job, Claiming(deal, plan, n), HeldAfter(s.db.claims, job, n), [])), signer)
    decreases n
  {
    hide Reachable, ClaimRows;
    if n > 0 {
      ClaimsAlone(s, sid, job, deal, plan, n - 1, signer);
      var me := Session(job, Claiming(deal, plan, n - 1), HeldAfter(s.db.claims, job, n - 1), []);
      var me' := Session(job, Claiming(deal, plan, n), HeldAfter(s.db.claims, job, n), []);
      assert With(s, sid, me).sessions[sid := me'] == With(s, sid, me').sessions;
      assert !HeldElsewhere(With(s, sid, me).sessions, sid, ClaimRows(job)[n - 1].0);
      assert ClaimStep(With(s, sid, me), sid, me, me');
      StatementIsReachable(s, sid, me, me', signer);
    }
  }

  lemma {:induction false} InsertsAlone(s: State, sid: nat, me: Session, n: nat, chains: map<Id, seq<Event>>,
                                        signer: Signer)
    requires sid in s.sessions && NobodyElseHolds(s, sid) && RowsAre(s.db.events, chains) && DealOf(me.job) in chains
    requires me.pc.Inserting? && me.rows == [] && n <= |me.pc.write.plan.entries|
    requires me.pc.write.start == |chains[DealOf(me.job)]| && me.pc.write.plan.header.dealId == DealOf(me.job)
    requires Reachable(With(s, sid, me), signer)
    ensures Reachable(With(s, sid, me.(rows := EventsOf(me.pc.write, signer)[..n])), signer)
    decreases n
  {
    hide Reachable, Seal;
    var es := EventsOf(me.pc.write, signer);
    if n == 0 {
      assert me.(rows := es[..0]) == me;
    } else {
      InsertsAlone(s, sid, me, n - 1, chains, signer);
      var now, then' := me.(rows := es[..n - 1]), me.(rows := es[..n]);
      var w := me.pc.write;
      SealNumbers(w.plan.header, w.start, w.previous, w.plan.entries, signer, n - 1);
      assert ReadsAs(s.db.events, DealOf(me.job), chains[DealOf(me.job)]);
      assert KeyOf(es[n - 1]) !in s.db.events;
      assert es[..n] == es[..n - 1] + [es[n - 1]];
      assert With(s, sid, now).sessions[sid := then'] == With(s, sid, then').sessions;
      assert InsertStep(With(s, sid, now), sid, now, then', signer);
      StatementIsReachable(s, sid, now, then', signer);
    }
  }

  // The write a session makes of its plan when the head is the committed one.
  function WriteOn(deal: Deal, plan: Plan, chain: seq<Event>): Write { Write(deal, plan, |chain|, Head(chain)) }

  // A session just before it returns COMMITTED.
  function ReadyToCommit(job: Job, deal: Deal, plan: Plan, claims: map<Row, Id>, chain: seq<Event>,
                         signer: Signer): Session {
    var w := WriteOn(deal, plan, chain);
    Session(job, Returning(Committed, Some(w)), AllHeld(claims, job), EventsOf(w, signer))
  }

  // At the start of its claims with a plan, its keys free and nobody else holding anything.
  ghost predicate CanInsertAlone(s: State, sid: nat, chains: map<Id, seq<Event>>) {
    && RowsAre(s.db.events, chains) && chains.Keys == s.db.deals.Keys
    && sid in s.sessions && NobodyElseHolds(s, sid)
    && var me := s.sessions[sid];
      && me.pc.Claiming? && me.pc.next == 0 && me.pc.plan.Some? && me.held == map[] && me.rows == []
      && ClaimsFree(s.db.claims, me.job)
      && DealOf(me.job) in chains && me.pc.plan.value.header.dealId == DealOf(me.job)
  }

  ghost predicate CanRunAlone(s: State, sid: nat, chains: map<Id, seq<Event>>) {
    && CanInsertAlone(s, sid, chains)
    && var row := OpenedRow(s.sessions[sid].job, s.sessions[sid].pc.plan.value); row.Some? ==> row.value !in s.db.approvals
  }

  ghost function Ready(s: State, sid: nat, chains: map<Id, seq<Event>>, signer: Signer): Session
    requires CanRunAlone(s, sid, chains)
  {
    var me := s.sessions[sid];
    ReadyToCommit(me.job, me.pc.deal, me.pc.plan.value, s.db.claims, chains[DealOf(me.job)], signer)
  }

  // Such a session runs to COMMITTED, and this is the state it leaves.
  lemma RunsAlone(s: State, sid: nat, chains: map<Id, seq<Event>>, signer: Signer) returns (s': State)
    requires Reachable(s, signer) && CanRunAlone(s, sid, chains)
    ensures var ready := Ready(s, sid, chains, signer);
      && s' == State(Published(s.db, ready), s.sessions[sid := Session(ready.job, Ended(Committed), map[], [])])
      && Reachable(With(s, sid, ready), signer) && SessionStep(With(s, sid, ready), sid, s', signer)
      && Reachable(s', signer)
      && RowsAre(s'.db.events, Grown(chains, ready)) && s'.db.deals.Keys == s.db.deals.Keys
  {
    hide Reachable, Seal, ClaimRows, RowsAre, Published, Inv, HeldAfter;
    var inserted := InsertedAlone(s, sid, chains, signer);
    var ready := Ready(s, sid, chains, signer);
    ReturnsAlone(s, sid, inserted, ready, signer);
    s' := CommitsAlone(s, sid, ready, chains, signer);
  }

  // It gets all its event rows in.
  lemma InsertedAlone(s: State, sid: nat, chains: map<Id, seq<Event>>, signer: Signer) returns (inserted: Session)
    requires Reachable(s, signer) && CanInsertAlone(s, sid, chains)
    ensures var me := s.sessions[sid];
      var w := WriteOn(me.pc.deal, me.pc.plan.value, chains[DealOf(me.job)]);
      inserted == Session(me.job, Inserting(w), AllHeld(s.db.claims, me.job), EventsOf(w, signer))
    ensures Reachable(With(s, sid, inserted), signer)
  {
    hide Reachable, Seal, ClaimRows, RowsAre, HeldAfter;
    var me := s.sessions[sid];
    var plan, deal, chain := me.pc.plan.value, me.pc.deal, chains[DealOf(me.job)];
    var w := WriteOn(deal, plan, chain);
    assert With(s, sid, me) == s;
    ClaimsAlone(s, sid, me.job, deal, Some(plan), |ClaimRows(me.job)|, signer);
    var claimed := Session(me.job, Claiming(deal, Some(plan), |ClaimRows(me.job)|), AllHeld(s.db.claims, me.job), []);
    HeadAlone(s, sid, claimed, chains, signer);
    var inserting := Session(me.job, Inserting(w), AllHeld(s.db.claims, me.job), []);
    InsertsAlone(s, sid, inserting, |plan.entries|, chains, signer);
    assert EventsOf(w, signer)[..|plan.entries|] == EventsOf(w, signer);
    inserted := inserting.(rows := EventsOf(w, signer));
  }

  // Claims made: on to the head, and from there to the first insert.
  lemma HeadAlone(s: State, sid: nat, claimed: Session, chains: map<Id, seq<Event>>, signer: Signer)
    requires Reachable(With(s, sid, claimed), signer) && sid in s.sessions
    requires RowsAre(s.db.events, chains) && DealOf(claimed.job) in chains
    requires claimed.pc.Claiming? && claimed.pc.plan.Some? && claimed.pc.next == |ClaimRows(claimed.job)|
    ensures Reachable(With(s, sid, claimed.(
      pc := Inserting(WriteOn(claimed.pc.deal, claimed.pc.plan.value, chains[DealOf(claimed.job)])))), signer)
  {
    hide Reachable, ClaimRows;
    var d := DealOf(claimed.job);
    var atHead := claimed.(pc := ReadHead(claimed.pc.deal, claimed.pc.plan));
    var inserting := claimed.(pc := Inserting(WriteOn(claimed.pc.deal, claimed.pc.plan.value, chains[d])));
    assert With(s, sid, claimed).sessions[sid := atHead] == With(s, sid, atHead).sessions;
    StatementIsReachable(s, sid, claimed, atHead, signer);
    assert ReadsAs(s.db.events, d, chains[d]);
    HeadOfRows(s.db.events, d, chains[d], |chains[d]|, Head(chains[d]));
    assert With(s, sid, atHead).sessions[sid := inserting] == With(s, sid, inserting).sessions;
    StatementIsReachable(s, sid, atHead, inserting, signer);
  }

  lemma ReturnsAlone(s: State, sid: nat, me: Session, ready: Session, signer: Signer)
    requires Reachable(With(s, sid, me), signer) && sid in s.sessions && NobodyElseHolds(s, sid)
    requires me.pc.Inserting? && |me.rows| == |me.pc.write.plan.entries|
    requires var row := OpenedRow(me.job, me.pc.write.plan); row.Some? ==> row.value !in s.db.approvals
    requires ready == me.(pc := Returning(Committed, Some(me.pc.write)))
    ensures Reachable(With(s, sid, ready), signer)
  {
    hide Reachable, Seal;
    assert With(s, sid, me).sessions[sid := ready] == With(s, sid, ready).sessions;
    assert WriteStep(With(s, sid, me), sid, me, ready);
    StatementIsReachable(s, sid, me, ready, signer);
  }

  lemma CommitsAlone(s: State, sid: nat, ready: Session, chains: map<Id, seq<Event>>,
                     signer: Signer) returns (s': State)
    requires Reachable(With(s, sid, ready), signer) && sid in s.sessions
    requires RowsAre(s.db.events, chains) && chains.Keys == s.db.deals.Keys
    requires ready.pc.Returning? && ready.pc.done.Some? && DealOf(ready.job) in chains
    ensures s' == State(Published(s.db, ready), s.sessions[sid := Session(ready.job, Ended(ready.pc.outcome), map[], [])])
    ensures Reachable(s', signer) && SessionStep(With(s, sid, ready), sid, s', signer)
    ensures RowsAre(s'.db.events, Grown(chains, ready)) && s'.db.deals.Keys == s.db.deals.Keys
  {
    hide Reachable, Seal, RowsAre, SessionsFit;
    var before := With(s, sid, ready);
    var after := Session(ready.job, Ended(ready.pc.outcome), map[], []);
    s' := State(Published(s.db, ready), s.sessions[sid := after]);
    assert before.sessions[sid := after] == s'.sessions;
    assert Takes(before, Statement(sid), s', signer);
    TurnIsReachable(before, Statement(sid), s', signer);
    ReachableFits(before, chains, signer);
    CommitKeepsInv(before, sid, s', chains, signer);
    PublishedDeals(s.db, ready);
  }

  lemma PublishedDeals(db: Db, ready: Session)
    requires ready.pc.Returning? && DealOf(ready.job) in db.deals
    ensures Published(db, ready).deals.Keys == db.deals.Keys
  {
  }

  // An answer without a plan: what has been claimed is published, and nothing else.
  lemma AnswersAlone(s: State, sid: nat, me: Session, signer: Signer) returns (s': State)
    requires Reachable(With(s, sid, me), signer) && sid in s.sessions && me.pc.Returning? && me.pc.done.None?
    ensures s' == State(s.db.(claims := s.db.claims + me.held), s.sessions[sid := Session(me.job, Ended(me.pc.outcome), map[], [])])
    ensures Reachable(s', signer)
  {
    hide Reachable;
    s' := State(s.db.(claims := s.db.claims + me.held), s.sessions[sid := Session(me.job, Ended(me.pc.outcome), map[], [])]);
    assert With(s, sid, me).sessions[sid := s'.sessions[sid]] == s'.sessions;
    assert Takes(With(s, sid, me), Statement(sid), s', signer);
    TurnIsReachable(With(s, sid, me), Statement(sid), s', signer);
  }
}
