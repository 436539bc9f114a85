/**
 * The Postgres store run one transaction at a time (adapters/postgres/store.py): rows under unique
 * keys, claim inserts, the chain head read off the largest sequence number.
 */
module Postgres {
  import opened Common
  import opened Deals
  import opened Crypto
  import opened Authority
  import opened Policy
  import opened Chain
  import opened Plans
  import opened Ledger
  import opened Runs
  import opened Outcomes

  /* ----- event rows ----- */

  // The unique key of an event row (uq_events_deal_sequence).
  datatype EventKey = EventKey(dealId: Id, sequence: int)
  type EventRows = map<EventKey, Event>

  function KeyOf(e: Event): EventKey { EventKey(e.form.dealId, e.form.sequenceNumber) }

  // The rows of deal d are exactly this chain, numbered from 0 without a gap.
  ghost predicate ReadsAs(rows: EventRows, d: Id, chain: seq<Event>) {
    && (forall s: int :: EventKey(d, s) in rows <==> 0 <= s < |chain|)
    && (forall s | 0 <= s < |chain| :: rows[EventKey(d, s)] == chain[s])
  }

  // Every event row belongs to a known deal, and each deal's rows read as its chain.
  ghost predicate RowsAre(rows: EventRows, chains: map<Id, seq<Event>>) {
    && (forall k | k in rows :: k.dealId in chains)
    && (forall d | d in chains :: ReadsAs(rows, d, chains[d]))
  }

  // The next row never collides, and extends its chain by one.
  lemma OneMoreEventRow(rows: EventRows, chains: map<Id, seq<Event>>, d: Id, e: Event)
    requires RowsAre(rows, chains) && d in chains && KeyOf(e) == EventKey(d, |chains[d]|)
    ensures KeyOf(e) !in rows
    ensures RowsAre(rows[KeyOf(e) := e], chains[d := chains[d] + [e]])
  {
    var more := rows[KeyOf(e) := e];
    assert ReadsAs(rows, d, chains[d]);
    forall x | x in chains ensures ReadsAs(more, x, chains[d := chains[d] + [e]][x]) {
      assert ReadsAs(rows, x, chains[x]);
    }
  }

  lemma NoRowsYet(rows: EventRows, chains: map<Id, seq<Event>>, d: Id)
    requires RowsAre(rows, chains) && d !in chains
    ensures RowsAre(rows, chains[d := []])
  {
    forall x | x in chains ensures ReadsAs(rows, x, chains[d := []][x]) { assert ReadsAs(rows, x, chains[x]); }
  }

  // The rows determine the chains they read as.
  lemma RowsDetermineChains(rows: EventRows, a: map<Id, seq<Event>>, b: map<Id, seq<Event>>)
    requires RowsAre(rows, a) && RowsAre(rows, b) && a.Keys == b.Keys
    ensures a == b
  {
    forall d | d in a ensures a[d] == b[d] {
      assert d in b && ReadsAs(rows, d, a[d]) && ReadsAs(rows, d, b[d]);
      assert EventKey(d, |a[d]|) !in rows && EventKey(d, |b[d]|) !in rows;
      forall i | 0 <= i < |a[d]| ensures a[d][i] == b[d][i] { assert EventKey(d, i) in rows; }
    }
  }

  // What `order by sequence_number desc limit 1` answers, as next number and previous hash.
  ghost predicate IsHead(rows: EventRows, d: Id, next: int, previous: Hash) {
    if forall k | k in rows :: k.dealId != d then next == 0 && previous == Genesis
    else
      && EventKey(d, next - 1) in rows && previous == rows[EventKey(d, next - 1)].eventHash
      && forall k | k in rows && k.dealId == d :: k.sequence < next
  }

  // The largest stored number is the length of the chain and its hash the chain's head.
  lemma HeadOfRows(rows: EventRows, d: Id, chain: seq<Event>, next: int, previous: Hash)
    requires ReadsAs(rows, d, chain)
    ensures IsHead(rows, d, next, previous) <==> next == |chain| && previous == Head(chain)
  {
    if |chain| > 0 {
      assert EventKey(d, |chain| - 1) in rows;
      if IsHead(rows, d, next, previous) { assert EventKey(d, |chain| - 1).sequence < next; }
      forall k | k in rows && k.dealId == d ensures k.sequence < |chain| { assert EventKey(d, k.sequence) == k; }
    } else {
      forall k | k in rows ensures k.dealId != d { assert k.dealId == d ==> EventKey(d, k.sequence) in rows; }
    }
  }

  lemma SealNumbers(h: Header, sequence: int, previous: Hash, entries: seq<Entry>, signer: Signer, i: nat)
    requires i < |entries|
    ensures KeyOf(Seal(h, sequence, previous, entries, signer)[i]) == EventKey(h.dealId, sequence + i)
  {
    hide Seal;
    SealedEventAt(h, sequence, previous, entries, signer, i);
  }

  /* ----- where the statements differ from the in-memory store ----- */

  // The three seen-tables after the claim inserts of a request, and whether all of them succeeded.
  datatype Claims = Claims(
    all: bool, decisions: map<Id, (ProposalDigest, PolicyDecision)>, requests: set<Id>, nonces: map<string, Id>)

  // Claim inserts are the gate: each is `on conflict do nothing`, and an early return still commits
  // the claims made before it.
  function Claimed(decisions: map<Id, (ProposalDigest, PolicyDecision)>, requests: set<Id>, nonces: map<string, Id>,
                   req: CommitRequest): Claims
  {
    var nonce, recordId := req.record.terms.nonce, req.record.terms.recordId;
    if req.idempotencyKey in decisions then Claims(false, decisions, requests, nonces)
    else
      var first := decisions[req.idempotencyKey := (req.proposalDigest, req.decision)];
      if req.requestId in requests then Claims(false, first, requests, nonces)
      else if nonce !in nonces then Claims(true, first, requests + {req.requestId}, nonces[nonce := recordId])
      else Claims(nonces[nonce] == recordId, first, requests + {req.requestId}, nonces)
  }

  // The writes of a request. Records keep their first row; the deal row is rewritten only when the plan
  // changes it. A clash of approval ids is a primary key violation: the transaction rolls back whole.
  function PgRequestOn(l: Ledger, req: CommitRequest, deal: Deal, event: Option<DealEvent>, ids: Ids, signer: Signer)
    : (CommitResult, Ledger)
    requires event.Some? ==> TransitionFor(deal.state, event.value).Some?
  {
    var claims := Claimed(l.decisions, l.seenRequests, l.nonceOwners, req);
    var plan := PlanRequest(deal, req, event, ids);
    var recordId := req.record.terms.recordId;
    if !claims.all then
      (Rejected(AlreadyApplied, None),
       l.(decisions := claims.decisions, seenRequests := claims.requests, nonceOwners := claims.nonces))
    else if plan.approval.Some? && plan.approval.value.approvalId in l.approvals then
      (Rejected(IntegrityErrorRaised, None), l)
    else
      (Done(l, req.dealId, plan, signer),
       l.(chains := Extended(l.chains, req.dealId, plan, signer),
          deals := if event.Some? || plan.approval.Some? then l.deals[req.dealId := plan.newDeal] else l.deals,
          approvals := WithRow(l.approvals, plan.approval),
          records := if recordId in l.records then l.records else l.records[recordId := req.record],
          nonceOwners := claims.nonces, seenRequests := claims.requests, decisions := claims.decisions))
  }

  function PgCommitRequestOn(l: Ledger, req: CommitRequest, ids: Ids, signer: Signer): (CommitResult, Ledger) {
    if req.dealId !in l.deals then (Rejected(DealNotFound, None), l)
    else
      var deal := l.deals[req.dealId];
      match PlanTransition(deal, req.action, req.decision.outcome)
      case Stale => (Rejected(StaleState, None), l)
      case Proceed(event) => PgRequestOn(l, req, deal, event, ids, signer)
  }

  function PgCommitRevocationOn(l: Ledger, req: RevocationRequest, ids: Ids, signer: Signer): (CommitResult, Ledger) {
    if req.dealId !in l.deals then (Rejected(DealNotFound, None), l)
    else
      var deal := l.deals[req.dealId];
      var recordId, revocationId := req.revocation.fact.recordId, req.revocation.fact.revocationId;
      if req.commandId in l.seenCommands then (Rejected(AlreadyApplied, Some(deal)), l)
      else if recordId !in l.records then (Rejected(RecordNotFound, Some(deal)), l)
      else if HasRevocation(l.revocations, recordId) then (Rejected(AlreadyApplied, Some(deal)), l)
      else
        var plan := PlanRevocation(deal, req, ids);
        (Done(l, req.dealId, plan, signer),
         l.(chains := Extended(l.chains, req.dealId, plan, signer),
            revocations := if revocationId in l.revocations then l.revocations
                           else l.revocations[revocationId := req.revocation],
            seenCommands := l.seenCommands + {req.commandId}))
  }

  function PgRegisterDealOn(l: Ledger, dealId: Id, record: AuthorityRecord, createdAt: Instant): Ledger {
    if dealId in l.deals then l
    else
      var recordId := record.terms.recordId;
      l.(deals := l.deals[dealId := NewDeal(dealId)], createdAt := l.createdAt[dealId := createdAt],
         chains := l.chains[dealId := []],
         records := if recordId in l.records then l.records else l.records[recordId := record],
         links := if dealId in l.links then l.links else l.links[dealId := recordId])
  }

  // process_request over this store; after ALREADY_APPLIED the gate is asked again.
  function PgProcessRequestOn(l: Ledger, pi: PolicyInput, recordedAt: Instant, ids: Ids, signer: Signer)
    : (ProcessResult, Ledger)
  {
    var verdict := CheckAntiReplay(l, pi);
    if !verdict.Pass? then (AnsweredByGate(verdict), l)
    else
      var (commit, l') := PgCommitRequestOn(l, RequestOf(pi, recordedAt), ids, signer);
      if commit.outcome.AlreadyApplied? then (AnsweredByGate(CheckAntiReplay(l', pi)), l')
      else (ProcessResult(verdict, Some(Evaluate(pi)), Some(commit)), l')
  }

  /* ----- the store ----- */

  class PostgresLedgerStore {
    var deals: map<Id, Deal>
    var createdAt: map<Id, Instant>
    var links: map<Id, Id>
    var events: EventRows
    var records: map<Id, AuthorityRecord>
    var revocations: map<Id, Revocation>
    var approvals: map<Id, Approval>
    var seenNonces: map<string, Id>
    var seenRequests: set<Id>
    var idempotency: map<Id, (ProposalDigest, PolicyDecision)>
    var seenCommands: set<Id>
    ghost var chains: map<Id, seq<Event>>

    ghost predicate Valid()
      reads this
    {
      chains.Keys == deals.Keys && RowsAre(events, chains)
    }

    ghost function View(): Ledger
      reads this
    {
      Ledger(deals, createdAt, links, chains, records, revocations, approvals, seenNonces, seenRequests,
             idempotency, seenCommands)
    }

    constructor ()
      ensures Valid() && View() == EmptyLedger
    {
      deals, createdAt, links, events := map[], map[], map[], map[];
      records, revocations, approvals, seenNonces := map[], map[], map[], map[];
      seenRequests, idempotency, seenCommands, chains := {}, map[], {}, map[];
    }

    // The next sequence number always equals the length of the chain, the previous hash its head.
    method ChainHead(dealId: Id) returns (next: int, previous: Hash)
      requires Valid() && dealId in deals
      ensures IsHead(events, dealId, next, previous)
      ensures next == |chains[dealId]| && previous == Head(chains[dealId])
    {
      HeadOfRows(events, dealId, chains[dealId], |chains[dealId]|, Head(chains[dealId]));
      if forall k | k in events :: k.dealId != dealId {
        next, previous := 0, Genesis;
      } else {
        var last :| last in events && last.dealId == dealId && forall k | k in events && k.dealId == dealId :: k.sequence <= last.sequence;
        next, previous := last.sequence + 1, events[last].eventHash;
        HeadOfRows(events, dealId, chains[dealId], next, previous);
      }
    }

    // insert(events): one row after another, each under its unique key.
    method InsertEvents(dealId: Id, built: seq<Event>, ghost plan: Plan, ghost signer: Signer)
      requires Valid() && dealId in deals && plan.header.dealId == dealId
      requires built == SealedOn(chains, dealId, plan, signer)
      modifies `events, `chains
      ensures Valid() && chains == Extended(old(chains), dealId, plan, signer)
    {
      hide RowsAre, Seal;
      ghost var chain := chains[dealId];
      assert chain + built[..0] == chain;
      var i := 0;
      while i < |built|
        invariant 0 <= i <= |built|
        invariant chains == old(chains)[dealId := chain + built[..i]]
        invariant RowsAre(events, chains)
      {
        SealNumbers(plan.header, |chain|, Head(chain), plan.entries, signer, i);
        OneMoreEventRow(events, chains, dealId, built[i]);
        assert chain + built[..i + 1] == (chain + built[..i]) + [built[i]];
        events := events[KeyOf(built[i]) := built[i]];
        chains := chains[dealId := chain + built[..i + 1]];
        i := i + 1;
      }
      assert built[..i] == built;
    }

    method CreateDeal(deal: Deal, now: Instant) returns (raised: bool)
      requires Valid()
      modifies `deals, `createdAt, `chains
      ensures Valid() && raised == (deal.dealId in old(deals))
      ensures raised ==> unchanged(this)
      ensures !raised ==>
        && deals == old(deals)[deal.dealId := deal] && createdAt == old(createdAt)[deal.dealId := now]
        && chains == old(chains)[deal.dealId := []]
    {
      if deal.dealId in deals {
        return true;
      }
      NoRowsYet(events, chains, deal.dealId);
      hide RowsAre;
      deals, createdAt := deals[deal.dealId := deal], createdAt[deal.dealId := now];
      chains := chains[deal.dealId := []];
      raised := false;
    }

    method LinkDealRecord(dealId: Id, recordId: Id) returns (raised: bool)
      modifies `links
      ensures raised == (dealId in old(links) && old(links)[dealId] != recordId)
      ensures links == if dealId in old(links) then old(links) else old(links)[dealId := recordId]
    {
      if dealId in links {
        return links[dealId] != recordId;
      }
      links := links[dealId := recordId];
      raised := false;
    }

    method RegisterDeal(dealId: Id, record: AuthorityRecord, now: Instant) returns (raised: bool)
      requires Valid()
      modifies this
      ensures Valid() && View() == PgRegisterDealOn(old(View()), dealId, record, now)
      ensures raised <==>
        dealId in old(deals) || (dealId in old(links) && old(links)[dealId] != record.terms.recordId)
    {
      hide RowsAre;
      raised := CreateDeal(NewDeal(dealId), now);
      if raised {
        return;
      }
      if record.terms.recordId !in records {
        records := records[record.terms.recordId := record];
      }
      raised := LinkDealRecord(dealId, record.terms.recordId);
    }

    // The claim inserts of commit_request in their global order; an early stop keeps the rows claimed so far.
    method Claim(req: CommitRequest) returns (claimed: bool)
      modifies `idempotency, `seenRequests, `seenNonces
      ensures Claims(claimed, idempotency, seenRequests, seenNonces)
        == Claimed(old(idempotency), old(seenRequests), old(seenNonces), req)
    {
      if req.idempotencyKey in idempotency {
        return false;
      }
      idempotency := idempotency[req.idempotencyKey := (req.proposalDigest, req.decision)];
      if req.requestId in seenRequests {
        return false;
      }
      seenRequests := seenRequests + {req.requestId};
      var nonce, recordId := req.record.terms.nonce, req.record.terms.recordId;
      if nonce in seenNonces {
        return seenNonces[nonce] == recordId;
      }
      seenNonces := seenNonces[nonce := recordId];
      claimed := true;
    }

    // The event rows of one plan and, when it changes, the deal row.
    method Write(dealId: Id, plan: CommitPlan, rewriteDeal: bool, ghost p: Plan, ghost signer: Signer)
      requires Valid() && dealId in deals && p.header.dealId == dealId
      requires plan == Sealed(p, |chains[dealId]|, Head(chains[dealId]), signer)
      modifies `events, `chains, `deals
      ensures Valid() && chains == Extended(old(chains), dealId, p, signer)
      ensures deals == if rewriteDeal then old(deals)[dealId := p.newDeal] else old(deals)
    {
      hide Seal, RowsAre;
      InsertEvents(dealId, plan.events, p, signer);
      if rewriteDeal {
        deals := deals[dealId := plan.newDeal];
      }
    }

    // What follows the claims: head, plan, event rows, deal row, approval row, record row.
    method AppendRequest(req: CommitRequest, deal: Deal, event: Option<DealEvent>, ids: Ids,
                         signer: Signer) returns (clash: bool, plan: CommitPlan)
      requires Valid() && req.dealId in deals
      requires event.Some? ==>
        && req.action.Token? && ActionEvent(req.action.token) == event
        && TransitionFor(deal.state, event.value).Some? && req.decision.outcome.Allow?
      modifies `events, `chains, `deals, `approvals, `records
      ensures Valid()
      ensures var p := PlanRequest(deal, req, event, ids);
        var recordId := req.record.terms.recordId;
        && clash == (p.approval.Some? && p.approval.value.approvalId in old(approvals))
        && (clash ==> unchanged(this))
        && (!clash ==>
              && plan.newDeal == p.newDeal && plan.events == SealedOn(old(chains), req.dealId, p, signer)
              && chains == Extended(old(chains), req.dealId, p, signer)
              && deals == (if event.Some? || p.approval.Some? then old(deals)[req.dealId := p.newDeal] else old(deals))
              && approvals == WithRow(old(approvals), p.approval)
              && records == (if recordId in old(records) then old(records) else old(records)[recordId := req.record]))
    {
      hide Seal, RowsAre, PlanRequest;
      var next, previous := ChainHead(req.dealId);
      plan := PlanCommitRequest(deal, next, previous, req, event, ids, signer);
      clash := plan.approval.Some? && plan.approval.value.approvalId in approvals;
      if clash {
        return;
      }
      Write(req.dealId, plan, event.Some? || plan.approval.Some?, PlanRequest(deal, req, event, ids), signer);
      if plan.approval.Some? {
        approvals := approvals[plan.approval.value.approvalId := plan.approval.value];
      }
      if req.record.terms.recordId !in records {
        records := records[req.record.terms.recordId := req.record];
      }
    }

    method ClaimAndAppend(req: CommitRequest, deal: Deal, event: Option<DealEvent>, ids: Ids,
                          signer: Signer) returns (result: CommitResult)
      requires Valid() && req.dealId in deals
      requires event.Some? ==>
        && req.action.Token? && ActionEvent(req.action.token) == event
        && TransitionFor(deal.state, event.value).Some? && req.decision.outcome.Allow?
      modifies this
      ensures Valid() && (result, View()) == PgRequestOn(old(View()), req, deal, event, ids, signer)
    {
      hide Seal, RowsAre, PlanRequest, Claimed, Extended, WithRow, SealedOn, PlanTransition, TransitionFor;
      var savedKeys, savedRequests, savedNonces := idempotency, seenRequests, seenNonces;
      var claimed := Claim(req);
      if !claimed {
        return Rejected(AlreadyApplied, None);
      }
      var clash, plan := AppendRequest(req, deal, event, ids, signer);
      if clash {
        idempotency, seenRequests, seenNonces := savedKeys, savedRequests, savedNonces;
        return Rejected(IntegrityErrorRaised, None);
      }
      result := CommitResult(Committed, plan.events, Some(plan.newDeal));
    }

    method CommitRequest(req: CommitRequest, ids: Ids, signer: Signer) returns (result: CommitResult)
      requires Valid()
      modifies this
      ensures Valid() && (result, View()) == PgCommitRequestOn(old(View()), req, ids, signer)
    {
      hide Seal, RowsAre, PgRequestOn;
      if req.dealId !in deals {
        return Rejected(DealNotFound, None);
      }
      var deal := deals[req.dealId];
      var planned := PlanTransition(deal, req.action, req.decision.outcome);
      if planned.Stale? {
        return Rejected(StaleState, None);
      }
      result := ClaimAndAppend(req, deal, planned.event, ids, signer);
    }

    method CommitTransition(req: TransitionRequest, ids: Ids, signer: Signer) returns (result: CommitResult)
      requires Valid()
      modifies this
      ensures Valid() && (result, View()) == CommitTransitionOn(old(View()), req, ids, signer)
    {
      hide Seal, RowsAre, PlanBoundary;
      if req.dealId !in deals {
        return Rejected(DealNotFound, None);
      }
      var deal := deals[req.dealId];
      if req.commandId in seenCommands {
        return Rejected(AlreadyApplied, Some(deal));
      }
      var target := TransitionFor(deal.state, req.event);
      if target.None? {
        return Rejected(StaleState, None);
      }
      seenCommands := seenCommands + {req.commandId};
      var next, previous := ChainHead(req.dealId);
      var plan := PlanCommitTransition(deal, next, previous, req, target.value, ids, signer);
      Write(req.dealId, plan, true, PlanBoundary(deal, req, target.value, ids), signer);
      result := CommitResult(Committed, plan.events, Some(plan.newDeal));
    }

    method GrantRecheckInputs(approval: Approval, occurredAt: Instant) returns (record: Option<Mandate>, revoked: bool)
      ensures (record, revoked) == GrantInputs(View(), approval, occurredAt)
    {
      if approval.authorityRecordId !in records {
        return None, false;
      }
      var stored := records[approval.authorityRecordId].terms;
      record, revoked := Some(stored), RevokedAt(revocations, stored.recordId, occurredAt);
    }

    method AppendDecision(req: ApprovalRequest, deal: Deal, approval: Approval, record: Option<Mandate>, revoked: bool,
                          ids: Ids, signer: Signer) returns (plan: CommitPlan)
      requires Valid() && req.dealId in deals
      requires req.operation.Grant? ==> req.approvalRecord.Some? && req.action.Token?
      modifies `events, `chains, `deals, `approvals
      ensures Valid()
      ensures var p := PlanApproval(deal, approval, req, record, revoked, ids);
        && plan.newDeal == p.newDeal && plan.events == SealedOn(old(chains), req.dealId, p, signer)
        && chains == Extended(old(chains), req.dealId, p, signer)
        && deals == old(deals)[req.dealId := p.newDeal]
        && approvals == old(approvals)[req.approvalId := p.approval.value]
    {
      hide Seal, RowsAre, PlanApproval;
      var next, previous := ChainHead(req.dealId);
      plan := PlanCommitApproval(deal, approval, next, previous, req, record, revoked, ids, signer);
      Write(req.dealId, plan, true, PlanApproval(deal, approval, req, record, revoked, ids), signer);
      approvals := approvals[req.approvalId := plan.approval.value];
    }

    method CommitApproval(req: ApprovalRequest, ids: Ids, signer: Signer) returns (result: CommitResult)
      requires Valid()
      modifies this
      ensures Valid() && (result, View()) == CommitApprovalOn(old(View()), req, ids, signer)
    {
      hide Seal, RowsAre, GrantInputs, PlanGrant, PlanDenial, GrantRecheck, OperatorReason, Extended;
      if req.dealId !in deals {
        return Rejected(DealNotFound, None);
      }
      var deal := deals[req.dealId];
      if req.approvalId !in approvals {
        return Rejected(ApprovalNotFound, None);
      }
      var approval := approvals[req.approvalId];
      if !approval.status.Pending? {
        return Rejected(AlreadyApplied, Some(deal));
      }
      if req.commandId in seenCommands {
        return Rejected(AlreadyApplied, Some(deal));
      }
      var record: Option<Mandate> := None;
      var revoked := false;
      if req.operation.Grant? {
        if req.action.Unrecognised? {
          return Rejected(StaleState, None);
        }
        record, revoked := GrantRecheckInputs(approval, req.occurredAt);
        if req.approvalRecord.None? {
          return Rejected(ValueErrorRaised, None);  // raised while planning: the transaction rolls back
        }
      }
      seenCommands := seenCommands + {req.commandId};
      var plan := AppendDecision(req, deal, approval, record, revoked, ids, signer);
      result := CommitResult(Committed, plan.events, Some(plan.newDeal));
    }

    method AppendRevocation(req: RevocationRequest, deal: Deal, ids: Ids, signer: Signer) returns (plan: CommitPlan)
      requires Valid() && req.dealId in deals
      modifies `events, `chains, `deals, `revocations
      ensures Valid() && deals == old(deals)
      ensures var revocationId := req.revocation.fact.revocationId;
        && plan.events == SealedOn(old(chains), req.dealId, PlanRevocation(deal, req, ids), signer)
        && chains == Extended(old(chains), req.dealId, PlanRevocation(deal, req, ids), signer)
        && revocations == (if revocationId in old(revocations) then old(revocations)
                           else old(revocations)[revocationId := req.revocation])
    {
      hide Seal, RowsAre;
      var next, previous := ChainHead(req.dealId);
      plan := PlanCommitRevocation(deal, next, previous, req, ids, signer);
      Write(req.dealId, plan, false, PlanRevocation(deal, req, ids), signer);
      if req.revocation.fact.revocationId !in revocations {
        revocations := revocations[req.revocation.fact.revocationId := req.revocation];
      }
    }

    method CommitRevocation(req: RevocationRequest, ids: Ids, signer: Signer) returns (result: CommitResult)
      requires Valid()
      modifies this
      ensures Valid() && (result, View()) == PgCommitRevocationOn(old(View()), req, ids, signer)
    {
      hide Seal, RowsAre, Extended;
      if req.dealId !in deals {
        return Rejected(DealNotFound, None);
      }
      var deal := deals[req.dealId];
      if req.commandId in seenCommands {
        return Rejected(AlreadyApplied, Some(deal));
      }
      if req.revocation.fact.recordId !in records {
        return Rejected(RecordNotFound, Some(deal));
      }
      if HasRevocation(revocations, req.revocation.fact.recordId) {
        return Rejected(AlreadyApplied, Some(deal));
      }
      seenCommands := seenCommands + {req.commandId};
      var plan := AppendRevocation(req, deal, ids, signer);
      result := CommitResult(Committed, plan.events, Some(deal));
    }

    // application/anti_replay.py over the three seen-tables.
    method Gate(pi: PolicyInput) returns (verdict: GateVerdict)
      ensures verdict == CheckAntiReplay(View(), pi)
    {
      var record := pi.authority.record.terms;
      var key := pi.proposal.idempotencyKey;
      if key in idempotency {
        var (digest, decision) := idempotency[key];
        return if digest == DigestOf(pi.proposal) then IdempotentHit(decision) else Conflict;
      }
      if pi.requestId in seenRequests {
        return ReplayedRequest;
      }
      if record.nonce in seenNonces && seenNonces[record.nonce] != record.recordId {
        return ReplayedNonce;
      }
      verdict := Pass;
    }

    method ProcessRequest(pi: PolicyInput, recordedAt: Instant, ids: Ids,
                          signer: Signer) returns (result: ProcessResult)
      requires Valid()
      modifies this
      ensures Valid() && (result, View()) == PgProcessRequestOn(old(View()), pi, recordedAt, ids, signer)
    {
      var verdict := Gate(pi);
      if !verdict.Pass? {
        return AnsweredByGate(verdict);
      }
      var commit := CommitRequest(RequestOf(pi, recordedAt), ids, signer);
      if commit.outcome.AlreadyApplied? {
        var again := Gate(pi);
        return AnsweredByGate(again);
      }
      result := ProcessResult(verdict, Some(Evaluate(pi)), Some(commit));
    }
  }

  /* ----- the simulation ----- */

  // Signed records never change: a record id always names the same record.
  predicate Registered(step: Step, registry: map<Id, AuthorityRecord>) {
    match step
    case Register(_, record, _) => record.terms.recordId in registry && registry[record.terms.recordId] == record
    case Propose(pi, _, _) =>
      var record := pi.authority.record;
      record.terms.recordId in registry && registry[record.terms.recordId] == record
    case _ => true
  }

  predicate FromRegistry(records: map<Id, AuthorityRecord>, registry: map<Id, AuthorityRecord>) {
    forall id | id in records :: id in registry && records[id] == registry[id] && records[id].terms.recordId == id
  }

  // Revocation ids are random.
  predicate FreshRevocation(l: Ledger, step: Step) {
    step.Revoke? ==> step.revocation.revocation.fact.revocationId !in l.revocations
  }

  function PgNext(l: Ledger, step: Step, signer: Signer): Ledger {
    match step
    case Register(dealId, record, createdAt) => PgRegisterDealOn(l, dealId, record, createdAt)
    case Propose(pi, recordedAt, ids) => PgProcessRequestOn(l, pi, recordedAt, ids, signer).1
    case Boundary(req, ids) => CommitTransitionOn(l, req, ids, signer).1
    case Decide(req, ids) => CommitApprovalOn(l, req, ids, signer).1
    case Revoke(req, ids) => PgCommitRevocationOn(l, req, ids, signer).1
  }

  // What a step answers its caller.
  datatype StepResult = Registration(raised: bool) | Processed(answer: ProcessResult) | Answered(result: CommitResult)

  predicate RegistrationRaises(l: Ledger, dealId: Id, record: AuthorityRecord) {
    dealId in l.deals || (dealId in l.links && l.links[dealId] != record.terms.recordId)
  }

  function ResultOf(l: Ledger, step: Step, signer: Signer): StepResult {
    match step
    case Register(dealId, record, _) => Registration(RegistrationRaises(l, dealId, record))
    case Propose(pi, recordedAt, ids) => Processed(ProcessRequestOn(l, pi, recordedAt, ids, signer).0)
    case Boundary(req, ids) => Answered(CommitTransitionOn(l, req, ids, signer).0)
    case Decide(req, ids) => Answered(CommitApprovalOn(l, req, ids, signer).0)
    case Revoke(req, ids) => Answered(CommitRevocationOn(l, req, ids, signer).0)
  }

  function PgResultOf(l: Ledger, step: Step, signer: Signer): StepResult {
    match step
    case Register(dealId, record, _) => Registration(RegistrationRaises(l, dealId, record))
    case Propose(pi, recordedAt, ids) => Processed(PgProcessRequestOn(l, pi, recordedAt, ids, signer).0)
    case Boundary(req, ids) => Answered(CommitTransitionOn(l, req, ids, signer).0)
    case Decide(req, ids) => Answered(CommitApprovalOn(l, req, ids, signer).0)
    case Revoke(req, ids) => Answered(PgCommitRevocationOn(l, req, ids, signer).0)
  }

  lemma KeepFirstIsOverwrite<K, V>(m: map<K, V>, k: K, v: V)
    requires k in m ==> m[k] == v
    ensures (if k in m then m else m[k := v]) == m[k := v]
  {
  }

  lemma UnchangedRow(deal: Deal, req: CommitRequest, event: Option<DealEvent>, ids: Ids)
    requires event.Some? ==> TransitionFor(deal.state, event.value).Some?
    ensures var plan := PlanRequest(deal, req, event, ids);
      event.None? && plan.approval.None? ==> plan.newDeal == deal
  {
  }

  // A request the gate passes commits the same here as in memory; the claims all succeed.
  lemma RequestSimulates(l: Ledger, pi: PolicyInput, recordedAt: Instant, ids: Ids, signer: Signer,
                         registry: map<Id, AuthorityRecord>)
    requires FromRegistry(l.records, registry) && Registered(Propose(pi, recordedAt, ids), registry)
    requires ids.approvalId !in l.approvals
    ensures PgProcessRequestOn(l, pi, recordedAt, ids, signer) == ProcessRequestOn(l, pi, recordedAt, ids, signer)
  {
    hide Seal, Evaluate, PlanRequest;
    var req := RequestOf(pi, recordedAt);
    if CheckAntiReplay(l, pi).Pass? && req.dealId in l.deals {
      var deal := l.deals[req.dealId];
      var planned := PlanTransition(deal, req.action, req.decision.outcome);
      if planned.Proceed? {
        KeepFirstIsOverwrite(l.records, req.record.terms.recordId, req.record);
        KeepFirstIsOverwrite(l.nonceOwners, req.record.terms.nonce, req.record.terms.recordId);
        UnchangedRow(deal, req, planned.event, ids);
        RequestOpensWhatItCounts(deal, req, planned.event, ids);
        assert l.deals == l.deals[req.dealId := deal];
      }
    }
  }

  lemma RevocationSimulates(l: Ledger, req: RevocationRequest, ids: Ids, signer: Signer,
                            registry: map<Id, AuthorityRecord>)
    requires FromRegistry(l.records, registry) && req.revocation.fact.revocationId !in l.revocations
    ensures PgCommitRevocationOn(l, req, ids, signer) == CommitRevocationOn(l, req, ids, signer)
  {
    hide Seal, PlanRevocation;
  }

  lemma RegistrationSimulates(l: Ledger, dealId: Id, record: AuthorityRecord, createdAt: Instant,
                              registry: map<Id, AuthorityRecord>)
    requires FromRegistry(l.records, registry) && Registered(Register(dealId, record, createdAt), registry)
    ensures PgRegisterDealOn(l, dealId, record, createdAt) == RegisterDealOn(l, dealId, record, createdAt)
  {
    if dealId !in l.deals {
      KeepFirstIsOverwrite(l.records, record.terms.recordId, record);
      if dealId in l.links && l.links[dealId] == record.terms.recordId {
        assert l.links == l.links[dealId := record.terms.recordId];
      }
    }
  }

  lemma StepSimulates(l: Ledger, step: Step, signer: Signer, registry: map<Id, AuthorityRecord>)
    requires FromRegistry(l.records, registry) && Registered(step, registry) && FreshRevocation(l, step)
    requires Admissible(l, step)
    ensures PgNext(l, step, signer) == Next(l, step, signer) && PgResultOf(l, step, signer) == ResultOf(l, step, signer)
  {
    hide RegisterDealOn, PgRegisterDealOn, ProcessRequestOn, PgProcessRequestOn, CommitRevocationOn,
      PgCommitRevocationOn,
      CommitTransitionOn, CommitApprovalOn, FromRegistry, RegistrationRaises;
    match step
    case Register(dealId, record, createdAt) => RegistrationSimulates(l, dealId, record, createdAt, registry);
    case Propose(pi, recordedAt, ids) => RequestSimulates(l, pi, recordedAt, ids, signer, registry);
    case Revoke(req, ids) => RevocationSimulates(l, req, ids, signer, registry);
    case Boundary(_, _) =>
    case Decide(_, _) =>
  }

  lemma StepKeepsRegistry(l: Ledger, step: Step, signer: Signer, registry: map<Id, AuthorityRecord>)
    requires FromRegistry(l.records, registry) && Registered(step, registry)
    ensures FromRegistry(Next(l, step, signer).records, registry)
  {
    hide Seal, CommitTransitionOn, CommitApprovalOn, CommitRevocationOn;
    match step
    case Register(_, _, _) =>
    case Propose(_, _, _) =>
    case Boundary(req, ids) => BoundaryKeepsRecords(l, req, ids, signer);
    case Decide(req, ids) => DecideKeepsRecords(l, req, ids, signer);
    case Revoke(req, ids) => RevokeKeepsRecords(l, req, ids, signer);
  }

  // Run one transaction at a time, the Postgres store goes through exactly the states of the in-memory
  // store and gives exactly its answers: same chains, deals, approvals, decisions, claims and results.
  lemma {:induction false} SequentialPostgresIsInMemory(
      trace: seq<Ledger>, pgTrace: seq<Ledger>, steps: seq<Step>, signer: Signer, registry: map<Id, AuthorityRecord>,
      i: nat)
    requires Run(trace, steps, signer) && i < |trace|
    requires |pgTrace| == |trace| && pgTrace[0] == EmptyLedger
    requires forall k | 0 <= k < |steps| :: pgTrace[k + 1] == PgNext(pgTrace[k], steps[k], signer)
    requires forall k | 0 <= k < |steps| :: Registered(steps[k], registry) && FreshRevocation(trace[k], steps[k])
    ensures pgTrace[i] == trace[i] && FromRegistry(trace[i].records, registry)
    ensures i < |steps| ==> PgResultOf(pgTrace[i], steps[i], signer) == ResultOf(trace[i], steps[i], signer)
    decreases i
  {
    hide PgNext, Next, PgResultOf, ResultOf, Registered, FreshRevocation, Admissible, FromRegistry;
    if i > 0 {
      SequentialPostgresIsInMemory(trace, pgTrace, steps, signer, registry, i - 1);
      assert StepAt(trace, steps, signer, i - 1);
      StepSimulates(trace[i - 1], steps[i - 1], signer, registry);
      StepKeepsRegistry(trace[i - 1], steps[i - 1], signer, registry);
    } else {
      NothingRegistered(registry);
    }
    if i < |steps| {
      assert StepAt(trace, steps, signer, i);
      StepSimulates(trace[i], steps[i], signer, registry);
    }
  }

  lemma NothingRegistered(registry: map<Id, AuthorityRecord>)
    ensures FromRegistry(map[], registry)
  {
  }
}
