/**
 * What a message on the wire is worth, written out on its own fields (transport/gateway.py,
 * transport/envelope.py): nothing without the sender's signature, and what it asks for with it.
 */
module Wire {
  import opened Common
  import opened Deals
  import opened Crypto
  import opened Authority
  import opened Policy
  import opened Chain
  import opened Plans
  import opened Ledger
  import opened Runs
  import opened Gateway
  import opened Effects
  import opened Logged

  /* ----- who is heard ----- */

  // Addressed to us, and signed over the whole form by the registered peer it names.
  predicate Authentic(cfg: Config, env: WireEnvelope) {
    && env.form.recipientId == cfg.identityId
    && env.form.schemaVersion == "0.1"
    && env.form.senderId in cfg.peers
    && var peer := cfg.peers[env.form.senderId];
      && peer.identityId == env.form.senderId
      && env.signature.algorithm == "Ed25519" && env.signature.keyId == peer.identityId
      && env.signature.value == By(peer.key, env.form)
  }

  predicate Fresh(cfg: Config, env: WireEnvelope, received: Instant) {
    match cfg.maxAge
    case None => true
    case Some(age) => env.form.issuedAt - age <= received <= env.form.issuedAt + age
  }

  // A message that is not authentic, whatever is wrong with it, changes nothing and gets a 400: so what
  // changes the ledger or the dedup table, or is answered with anything else, is authentic.
  lemma OnlySignedMessagesCount(g: Gateway, cfg: Config, env: WireEnvelope, t: Tick)
    ensures var (answer, g') := Deliver(g, cfg, env, t);
      answer.status != 400 || g'.ledger != g.ledger || g'.dedup != g.dedup || g' != g ==>
        Authentic(cfg, env) && !env.form.payload.Invalid?
  {
    hide Handle;
  }

  predicate ToBeHandled(g: Gateway, cfg: Config, env: WireEnvelope, t: Tick) {
    && Authentic(cfg, env) && Fresh(cfg, env, t.received)
    && (env.form.payload.ProposalMessage? || env.form.payload.EventMessage?)
    && WireKey(env.form.senderId, env.form.idempotencyKey) !in g.dedup
  }

  // And an authentic, fresh proposal or event under a new key is handled, its answer remembered under
  // (sender, key); an authentic message under a known key gets what is stored, or a 400 if it differs.
  lemma SignedMessagesAreHandled(g: Gateway, cfg: Config, env: WireEnvelope, t: Tick)
    ensures var (answer, g') := Deliver(g, cfg, env, t);
      var key := WireKey(env.form.senderId, env.form.idempotencyKey);
      && (ToBeHandled(g, cfg, env, t) ==>
            && (answer, g'.ledger) ==
                 (if env.form.payload.ProposalMessage? then HandleProposal(g, cfg, env, t)
                   else HandleEvent(g, cfg, env, t))
            && g'.dedup == g.dedup[key := (env, answer)] && g'.dealRecords == g.dealRecords)
      && (!ToBeHandled(g, cfg, env, t) ==> g' == g)
      && (Authentic(cfg, env) && !env.form.payload.Invalid? && key in g.dedup ==>
            answer == (if g.dedup[key].0 == env then g.dedup[key].1 else Answer(400, ErrorBody(HostileReuse))))
      && (Authentic(cfg, env) && env.form.payload.ReceiptMessage? && key !in g.dedup && Fresh(cfg, env, t.received) ==>
            answer == Answer(202, AcknowledgedBody(env.form.payload.respondsTo)))
  {
    hide HandleProposal, HandleEvent;
  }

  /* ----- what a proposal asks for ----- */

  // The mandate linked to a deal, if both are stored.
  predicate LinkedTo(g: Gateway, dealId: Id, record: AuthorityRecord) {
    dealId in g.dealRecords && g.dealRecords[dealId] in g.ledger.records && g.ledger.records[g.dealRecords[dealId]] ==
      record
  }

  predicate Linked(g: Gateway, dealId: Id) { dealId in g.dealRecords && g.dealRecords[dealId] in g.ledger.records }

  // The input the engine sees: of the message, only what is proposed; the rest is our own.
  function AsInput(g: Gateway, cfg: Config, record: AuthorityRecord, env: WireEnvelope, t: Tick): PolicyInput
    requires env.form.payload.ProposalMessage? && env.form.payload.dealId in g.ledger.deals
  {
    var p, terms := env.form.payload, record.terms;
    var digest := if p.content == "" then None else Some("sha256:" + p.content);
    PolicyInput(
      "0.1", t.requestId, t.now, Actor(Agent, terms.agentId),
        BuildClaim(g.ledger.revocations, cfg.signer, record, t.now),
      terms.counterpartyId, g.ledger.deals[p.dealId],
      Proposal(p.action, p.dealId, p.amountMinor, terms.spendCap.currency, p.disclosureFields,
        env.form.idempotencyKey, digest),
      if p.content == "" then None else Some(t.claims))
  }

  function Thanks(env: WireEnvelope, t: Tick, events: seq<Id>, decision: Option<PolicyDecision>): Answer {
    Answer(200, AcceptedBody(
      Receipt(env.form.messageId, env.form.senderId, t.receiptId, t.receiptKey, t.answered, events, decision)))
  }

  // A proposal for an unknown deal, or one without a mandate, is a 404; under a mandate made out to
  // somebody else a 403. Otherwise it goes through the gate as our own input, and is answered with the
  // decision, or with the verdict that stopped it.
  lemma ProposalIsAnswered(g: Gateway, cfg: Config, env: WireEnvelope, t: Tick)
    requires env.form.payload.ProposalMessage?
    ensures var (answer, l') := HandleProposal(g, cfg, env, t);
      var dealId := env.form.payload.dealId;
      if dealId !in g.ledger.deals || !Linked(g, dealId) then answer == Answer(404, ErrorBody(UnknownDeal)) && l' ==
        g.ledger
      else
        var record := g.ledger.records[g.dealRecords[dealId]];
        var named := record.terms.counterpartyId;
        if named != None && named != Some(env.form.senderId) then
          answer == Answer(403, ErrorBody(NotTheCounterparty)) && l' == g.ledger
        else
          var (result, after) := ProcessRequestOn(g.ledger, AsInput(g, cfg, record, env, t), t.now, t.ids, cfg.signer);
          && l' == after
          && answer == match result.verdict
             case Pass => Thanks(env, t, [], result.decision)
             case IdempotentHit(_) => Thanks(env, t, [], result.decision)
             case Conflict => Answer(400, ErrorBody(BlockedByGate(Conflict)))
             case ReplayedRequest => Answer(400, ErrorBody(BlockedByGate(ReplayedRequest)))
             case ReplayedNonce => Answer(400, ErrorBody(BlockedByGate(ReplayedNonce)))
  {
    hide ProcessRequestOn, BuildClaim;
  }

  // The header's deal has grown by exactly this log, and no other deal has changed.
  ghost predicate Appends(before: map<Id, seq<Event>>, after: map<Id, seq<Event>>, h: Header, log: seq<(Id, Payload)>)
    requires h.dealId in before
  {
    exists es :: LogsAll(es, h, log) && after == before[h.dealId := before[h.dealId] + es]
  }

  // So an authentic proposal that commits leaves, under the linked mandate and its agent, exactly the log
  // of what was proposed, and the decision under the envelope's key.
  lemma WireProposalIsLogged(g: Gateway, cfg: Config, env: WireEnvelope, t: Tick)
    requires g.ledger.deals.Keys == g.ledger.chains.Keys && env.form.payload.ProposalMessage?
    requires forall d | d in g.ledger.deals :: g.ledger.deals[d].dealId == d
    requires Deliver(g, cfg, env, t).1.ledger != g.ledger
    ensures Authentic(cfg, env)
    ensures var l, l', p, dealId := g.ledger, Deliver(g, cfg, env, t).1.ledger, env.form.payload,
      env.form.payload.dealId;
      && dealId in l.deals && Linked(g, dealId)
      && var record := l.records[g.dealRecords[dealId]];
        var pi := AsInput(g, cfg, record, env, t);
        && env.form.idempotencyKey !in l.decisions
        && l'.decisions == l.decisions[env.form.idempotencyKey := (DigestOf(pi.proposal), Evaluate(pi))]
        && Appends(l.chains, l'.chains, Header(dealId, Agent, record.terms.agentId, Some(record.terms.recordId),
          t.now, t.now),
                   ProposalLog(pi, l.deals[dealId], t.ids))
  {
    OnlySignedMessagesCount(g, cfg, env, t);
    SignedMessagesAreHandled(g, cfg, env, t);
    ProposalIsAnswered(g, cfg, env, t);
    var dealId := env.form.payload.dealId;
    var record := g.ledger.records[g.dealRecords[dealId]];
    ClaimWrittenOut(g.ledger.revocations, cfg.signer, record, t.now);
    var pi := AsInput(g, cfg, record, env, t);
    hide HandleProposal, HandleEvent, Deliver, BuildClaim, ProcessRequestOn, ProposalLog, Evaluate, Authentic,
      ToBeHandled,
      LogsAll, CheckAntiReplay;
    InputIsLogged(g.ledger, pi, t.now, t.ids, cfg.signer);
  }

  lemma InputIsLogged(l: Ledger, pi: PolicyInput, now: Instant, ids: Ids, signer: Signer)
    requires l.deals.Keys == l.chains.Keys && ProcessRequestOn(l, pi, now, ids, signer).1 != l
    ensures var l' := ProcessRequestOn(l, pi, now, ids, signer).1;
      && pi.deal.dealId in l.deals && pi.proposal.idempotencyKey !in l.decisions
      && l'.decisions == l.decisions[pi.proposal.idempotencyKey := (DigestOf(pi.proposal), Evaluate(pi))]
      && Appends(l.chains, l'.chains,
                 Header(pi.deal.dealId, pi.actor.kind, pi.actor.id, Some(pi.authority.record.terms.recordId), pi.now,
                   now),
                 ProposalLog(pi, l.deals[pi.deal.dealId], ids))
  {
    hide ProcessRequestOn, ProposalLog, Evaluate, LogsAll, CheckAntiReplay;
    ProposalIsLogged(l, pi, now, ids, signer);
    GateWrittenOut(l, pi);
    var (result, l') := ProcessRequestOn(l, pi, now, ids, signer);
    var es := result.commit.value.events;
    assert l'.chains == l.chains[pi.deal.dealId := l.chains[pi.deal.dealId] + es];
  }

  lemma EveryProposalIsLogged(trace: seq<Gateway>, steps: seq<WireStep>, cfg: Config, i: nat, env: WireEnvelope,
                              t: Tick)
    requires WireRun(trace, steps, cfg) && i < |steps| && steps[i] == Delivery(env, t)
    requires env.form.payload.ProposalMessage? && trace[i + 1].ledger != trace[i].ledger
    ensures Authentic(cfg, env)
    ensures var g, l, l', dealId := trace[i], trace[i].ledger, trace[i + 1].ledger, env.form.payload.dealId;
      && dealId in l.deals && dealId in l.chains && Linked(g, dealId)
      && var record := l.records[g.dealRecords[dealId]];
        var pi := AsInput(g, cfg, record, env, t);
        && l'.decisions == l.decisions[env.form.idempotencyKey := (DigestOf(pi.proposal), Evaluate(pi))]
        && Appends(l.chains, l'.chains, Header(dealId, Agent, record.terms.agentId, Some(record.terms.recordId),
          t.now, t.now),
                   ProposalLog(pi, l.deals[dealId], t.ids))
  {
    hide Deliver, WireAdmissible, Evaluate, ProposalLog, Appends, AsInput, Authentic;
    EveryWireRunIsSound(trace, steps, cfg, i);
    assert WireStepAt(trace, steps, cfg, i);
    forall d | d in trace[i].ledger.deals ensures trace[i].ledger.deals[d].dealId == d {
      assert DealSound(trace[i].ledger.deals[d], trace[i].ledger.chains[d], d, cfg.signer.key);
    }
    WireProposalIsLogged(trace[i], cfg, env, t);
  }

  /* ----- what an event asks for ----- */

  // The transition asked for, under the message id as its command.
  function AsTransition(env: WireEnvelope, event: DealEvent, t: Tick): TransitionRequest
    requires env.form.payload.EventMessage?
  {
    var p := env.form.payload;
    TransitionRequest(
      p.dealId, env.form.messageId, event, Counterparty, env.form.senderId, None, None, env.form.issuedAt, t.now,
        p.note,
      if p.note == "" then None else Some(Screened("sha256:" + p.note, t.claims)))
  }

  lemma EventIsAnswered(g: Gateway, cfg: Config, env: WireEnvelope, t: Tick)
    requires env.form.payload.EventMessage?
    ensures var (answer, l') := HandleEvent(g, cfg, env, t);
      var p := env.form.payload;
      if p.dealId !in g.ledger.deals then answer == Answer(404, ErrorBody(UnknownDeal)) && l' == g.ledger
      else if Linked(g, p.dealId) && g.ledger.records[g.dealRecords[p.dealId]].terms.counterpartyId !in {None,
        Some(env.form.senderId)} then
        answer == Answer(403, ErrorBody(NotTheCounterparty)) && l' == g.ledger
      else if p.event.None? then answer == Answer(400, ErrorBody(UnknownEventName)) && l' == g.ledger
      else
        var (result, after) := CommitTransitionOn(g.ledger, AsTransition(env, p.event.value, t), t.ids, cfg.signer);
        && l' == after
        && answer ==
             if result.outcome == Committed then Thanks(env, t, EventIds(result.events), None)
             else if result.outcome == AlreadyApplied then Thanks(env, t, [], None)
             else Answer(409, ErrorBody(EventNotApplied(result.outcome)))
  {
    hide CommitTransitionOn, EventIds;
    if env.form.payload.event.Some? { assert TransitionOf(env, t) ==
      AsTransition(env, env.form.payload.event.value, t); }
  }
}
