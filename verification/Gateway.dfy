/**
 * The wire boundary: verify first, answer redeliveries from the dedup table, run each message's
 * handler once (transport/gateway.py, transport/dedup.py, transport/envelope.py).
 */
module Gateway {
  import opened Common
  import opened Deals
  import opened Crypto
  import opened Authority
  import opened Policy
  import opened Chain
  import opened Plans
  import opened Ledger
  import opened Runs
  import opened Trail
  import opened Once

  /* ----- messages ----- */

  // The payload as its kind's model reads it; Invalid is one the model rejects, an event of None a
  // name outside the vocabulary.
  datatype WirePayload =
    | ProposalMessage(dealId: Id, action: ActionName, amountMinor: Option<nat>, disclosureFields: seq<string>, content: string)
    | EventMessage(dealId: Id, event: Option<DealEvent>, note: string)
    | ReceiptMessage(respondsTo: Id)
    | Invalid

  datatype WireForm = WireForm(
    schemaVersion: string, messageId: Id, idempotencyKey: Id, senderId: Id, recipientId: Id,
    payload: WirePayload, issuedAt: Instant)

  // The fingerprint hashes the full envelope, signature included, so the envelope itself stands for it.
  datatype WireEnvelope = WireEnvelope(form: WireForm, signature: Signature<WireForm>)

  datatype Peer = Peer(identityId: Id, key: Key)

  datatype Refusal =
    | WrongRecipient | UnknownPeer | BadEnvelope | HostileReuse | StaleEnvelope | UnknownDeal
    | NotTheCounterparty | UnknownEventName | EventNotApplied(outcome: CommitOutcome) | BlockedByGate(verdict: GateVerdict)

  datatype Receipt = Receipt(
    respondsTo: Id, recipientId: Id, messageId: Id, idempotencyKey: Id, issuedAt: Instant,
    events: seq<Id>, decision: Option<PolicyDecision>)

  datatype Body = ErrorBody(refusal: Refusal) | AcceptedBody(receipt: Receipt) | AcknowledgedBody(respondsTo: Id)
  datatype Answer = Answer(status: int, body: Body)

  /* ----- the dedup table ----- */

  datatype WireKey = WireKey(senderId: Id, idempotencyKey: Id)
  type Dedup = map<WireKey, (WireEnvelope, Answer)>

  datatype DedupVerdict = New | Redelivery(answer: Answer) | Hostile

  function Lookup(dedup: Dedup, key: WireKey, fingerprint: WireEnvelope): DedupVerdict {
    if key !in dedup then New
    else if dedup[key].0 == fingerprint then Redelivery(dedup[key].1)
    else Hostile
  }

  class InMemoryWireDedup {
    var entries: Dedup

    constructor ()
      ensures entries == map[]
    {
      entries := map[];
    }

    method Lookup(key: WireKey, fingerprint: WireEnvelope) returns (verdict: DedupVerdict)
      ensures verdict.New? <==> key !in entries
      ensures verdict.Redelivery? <==> key in entries && entries[key].0 == fingerprint
      ensures verdict.Redelivery? ==> entries[key].1 == verdict.answer
    {
      if key !in entries {
        return New;
      }
      var (stored, answer) := entries[key];
      verdict := if stored == fingerprint then Redelivery(answer) else Hostile;
    }

    method Store(key: WireKey, fingerprint: WireEnvelope, answer: Answer)
      modifies this
      ensures entries == old(entries)[key := (fingerprint, answer)]
    {
      entries := entries[key := (fingerprint, answer)];
    }
  }

  /* ----- one delivery ----- */

  // What the gateway is configured with.
  datatype Config = Config(identityId: Id, signer: Signer, peers: map<Id, Peer>, maxAge: Option<int>)

  // What the boundary supplies at one delivery: clock readings, fresh ids and the screen's claims
  // about the message's text.
  datatype Tick = Tick(
    received: Instant, now: Instant, answered: Instant, requestId: Id, ids: Ids, claims: ContentClaims,
    receiptId: Id, receiptKey: Id)

  datatype Gateway = Gateway(ledger: Ledger, dedup: Dedup, dealRecords: map<Id, Id>)

  const WIRE_SCHEMA := "0.1"

  function KeyOf(env: WireEnvelope): WireKey { WireKey(env.form.senderId, env.form.idempotencyKey) }

  predicate EnvelopeVerifies(env: WireEnvelope, peer: Peer) {
    && env.form.schemaVersion == WIRE_SCHEMA
    && env.form.senderId == peer.identityId
    && env.signature.algorithm == ALGORITHM
    && env.signature.keyId == peer.identityId
    && env.signature.value == By(peer.key, env.form)
    && !env.form.payload.Invalid?
  }

  // Why the verify-first stage refuses an envelope, if it does.
  function Refused(cfg: Config, env: WireEnvelope): Option<Refusal> {
    if env.form.recipientId != cfg.identityId then Some(WrongRecipient)
    else if env.form.senderId !in cfg.peers then Some(UnknownPeer)
    else if !EnvelopeVerifies(env, cfg.peers[env.form.senderId]) then Some(BadEnvelope)
    else None
  }

  predicate IsStale(cfg: Config, env: WireEnvelope, received: Instant) {
    cfg.maxAge.Some? && (received - env.form.issuedAt > cfg.maxAge.value || env.form.issuedAt - received > cfg.maxAge.value)
  }

  function Failure(status: int, refusal: Refusal): Answer { Answer(status, ErrorBody(refusal)) }

  function Accept(env: WireEnvelope, t: Tick, events: seq<Id>, decision: Option<PolicyDecision>): Answer {
    Answer(200, AcceptedBody(
      Receipt(env.form.messageId, env.form.senderId, t.receiptId, t.receiptKey, t.answered, events, decision)))
  }

  // SHA-256 of a text, as a symbol.
  function ContentDigest(text: string): string { "sha256:" + text }

  function Screen(text: string, claims: ContentClaims): Option<Screened> {
    if text == "" then None else Some(Screened(ContentDigest(text), claims))
  }

  function RecordOf(records: map<Id, AuthorityRecord>, dealRecords: map<Id, Id>, dealId: Id): Option<AuthorityRecord> {
    if dealId in dealRecords && dealRecords[dealId] in records then Some(records[dealRecords[dealId]]) else None
  }

  predicate WrongAudience(record: AuthorityRecord, senderId: Id) {
    record.terms.counterpartyId.Some? && record.terms.counterpartyId.value != senderId
  }

  // The proposal off the wire, priced in the mandate's currency under the envelope's own key.
  function ProposalOf(record: AuthorityRecord, env: WireEnvelope): Proposal
    requires env.form.payload.ProposalMessage?
  {
    var p := env.form.payload;
    Proposal(p.action, p.dealId, p.amountMinor, record.terms.spendCap.currency, p.disclosureFields, env.form.idempotencyKey,
             if p.content == "" then None else Some(ContentDigest(p.content)))
  }

  // The input the gateway builds from its own record and deal; only the proposal comes off the wire.
  function InputOf(l: Ledger, cfg: Config, record: AuthorityRecord, deal: Deal, env: WireEnvelope, t: Tick): PolicyInput
    requires env.form.payload.ProposalMessage?
  {
    var p := env.form.payload;
    var screened := Screen(p.content, t.claims);
    PolicyInput(
      "0.1", t.requestId, t.now, Actor(Agent, record.terms.agentId), BuildClaim(l.revocations, cfg.signer, record, t.now),
      record.terms.counterpartyId, deal, ProposalOf(record, env),
      if screened.Some? then Some(screened.value.claims) else None)
  }

  function AnswerOf(env: WireEnvelope, t: Tick, result: ProcessResult): Answer {
    match result.verdict
    case IdempotentHit(_) => Accept(env, t, [], result.decision)
    case Pass => Accept(env, t, [], result.decision)
    case _ => Failure(400, BlockedByGate(result.verdict))
  }

  function HandleProposal(g: Gateway, cfg: Config, env: WireEnvelope, t: Tick): (Answer, Ledger)
    requires env.form.payload.ProposalMessage?
  {
    var dealId := env.form.payload.dealId;
    var record := RecordOf(g.ledger.records, g.dealRecords, dealId);
    if record.None? || dealId !in g.ledger.deals then (Failure(404, UnknownDeal), g.ledger)
    else if WrongAudience(record.value, env.form.senderId) then (Failure(403, NotTheCounterparty), g.ledger)
    else
      var pi := InputOf(g.ledger, cfg, record.value, g.ledger.deals[dealId], env, t);
      var (result, l') := ProcessRequestOn(g.ledger, pi, t.now, t.ids, cfg.signer);
      (AnswerOf(env, t, result), l')
  }

  // The transition's command id is the message id, so the ledger deduplicates below the wire as well.
  function TransitionOf(env: WireEnvelope, t: Tick): TransitionRequest
    requires env.form.payload.EventMessage? && env.form.payload.event.Some?
  {
    var p := env.form.payload;
    TransitionRequest(
      p.dealId, env.form.messageId, p.event.value, Counterparty, env.form.senderId, None, None,
      env.form.issuedAt, t.now, p.note, Screen(p.note, t.claims))
  }

  function EventIds(events: seq<Event>): (ids: seq<Id>)
    ensures |ids| == |events| && forall i | 0 <= i < |ids| :: ids[i] == events[i].form.eventId
  {
    seq(|events|, i requires 0 <= i < |events| => events[i].form.eventId)
  }

  function HandleEvent(g: Gateway, cfg: Config, env: WireEnvelope, t: Tick): (Answer, Ledger)
    requires env.form.payload.EventMessage?
  {
    var p := env.form.payload;
    var record := RecordOf(g.ledger.records, g.dealRecords, p.dealId);
    if p.dealId !in g.ledger.deals then (Failure(404, UnknownDeal), g.ledger)
    else if record.Some? && WrongAudience(record.value, env.form.senderId) then (Failure(403, NotTheCounterparty), g.ledger)
    else if p.event.None? then (Failure(400, UnknownEventName), g.ledger)
    else
      var (result, l') := CommitTransitionOn(g.ledger, TransitionOf(env, t), t.ids, cfg.signer);
      (if result.outcome.AlreadyApplied? then Accept(env, t, [], None)
       else if !result.outcome.Committed? then Failure(409, EventNotApplied(result.outcome))
       else Accept(env, t, EventIds(result.events), None), l')
  }

  // The handler runs: verified, never seen, fresh, and not a receipt.
  predicate Handled(g: Gateway, cfg: Config, env: WireEnvelope, t: Tick) {
    && Refused(cfg, env).None? && Lookup(g.dedup, KeyOf(env), env).New? && !IsStale(cfg, env, t.received)
    && !env.form.payload.ReceiptMessage?
  }

  function Handle(g: Gateway, cfg: Config, env: WireEnvelope, t: Tick): (Answer, Ledger)
    requires env.form.payload.ProposalMessage? || env.form.payload.EventMessage?
  {
    if env.form.payload.ProposalMessage? then HandleProposal(g, cfg, env, t) else HandleEvent(g, cfg, env, t)
  }

  function Deliver(g: Gateway, cfg: Config, env: WireEnvelope, t: Tick): (Answer, Gateway) {
    var refused := Refused(cfg, env);
    if refused.Some? then (Failure(400, refused.value), g)
    else
      match Lookup(g.dedup, KeyOf(env), env)
      case Redelivery(stored) => (stored, g)
      case Hostile => (Failure(400, HostileReuse), g)
      case New =>
        if IsStale(cfg, env, t.received) then (Failure(400, StaleEnvelope), g)
        else if env.form.payload.ReceiptMessage? then (Answer(202, AcknowledgedBody(env.form.payload.respondsTo)), g)
        else
          var (answer, ledger) := Handle(g, cfg, env, t);
          (answer, Gateway(ledger, g.dedup[KeyOf(env) := (env, answer)], g.dealRecords))
  }

  /* ----- the gateway as it runs ----- */

  class GatewayState {
    const cfg: Config
    const store: InMemoryLedgerStore
    const dedup: InMemoryWireDedup
    var dealIds: set<Id>
    var dealRecords: map<Id, Id>

    ghost predicate Valid()
      reads this, store, dedup
    {
      store.Valid()
    }

    ghost function View(): Gateway
      reads this, store, dedup
    {
      Gateway(store.View(), dedup.entries, dealRecords)
    }

    // A restarted process rebuilds its registry from the stored links.
    constructor (cfg: Config, store: InMemoryLedgerStore, dedup: InMemoryWireDedup)
      requires store.Valid()
      ensures Valid() && this.cfg == cfg && this.store == store && this.dedup == dedup
      ensures dealRecords == store.links && dealIds == store.links.Keys
    {
      this.cfg, this.store, this.dedup := cfg, store, dedup;
      dealIds := store.links.Keys;
      dealRecords := store.links;
    }

    method RegisterDeal(dealId: Id, record: AuthorityRecord, now: Instant) returns (raised: bool)
      requires Valid()
      modifies this, store
      ensures Valid() && store.View() == RegisterDealOn(old(store.View()), dealId, record, now)
      ensures dealRecords == Registered(old(dealRecords), old(store.View()), Register(dealId, record, now))
    {
      raised := store.RegisterDeal(dealId, record, now);
      if !raised {
        dealIds := dealIds + {dealId};
        dealRecords := dealRecords[dealId := record.terms.recordId];
      }
    }

    method HandleProposalMessage(env: WireEnvelope, t: Tick) returns (answer: Answer)
      requires Valid() && env.form.payload.ProposalMessage?
      modifies store
      ensures Valid() && (answer, store.View()) == HandleProposal(old(View()), cfg, env, t)
    {
      var dealId := env.form.payload.dealId;
      var record := RecordOf(store.records, dealRecords, dealId);
      if record.None? || dealId !in store.deals {
        return Failure(404, UnknownDeal);
      }
      if WrongAudience(record.value, env.form.senderId) {
        return Failure(403, NotTheCounterparty);
      }
      var pi := InputOf(store.View(), cfg, record.value, store.deals[dealId], env, t);
      var result := store.ProcessRequest(pi, t.now, t.ids, cfg.signer);
      answer := AnswerOf(env, t, result);
    }

    method HandleCounterpartyEvent(env: WireEnvelope, t: Tick) returns (answer: Answer)
      requires Valid() && env.form.payload.EventMessage?
      modifies store
      ensures Valid() && (answer, store.View()) == HandleEvent(old(View()), cfg, env, t)
    {
      hide CommitTransitionOn;
      var p := env.form.payload;
      if p.dealId !in store.deals {
        return Failure(404, UnknownDeal);
      }
      var record := RecordOf(store.records, dealRecords, p.dealId);
      if record.Some? && WrongAudience(record.value, env.form.senderId) {
        return Failure(403, NotTheCounterparty);
      }
      if p.event.None? {
        return Failure(400, UnknownEventName);
      }
      var result := store.CommitTransition(TransitionOf(env, t), t.ids, cfg.signer);
      if result.outcome.AlreadyApplied? {
        return Accept(env, t, [], None);
      }
      if !result.outcome.Committed? {
        return Failure(409, EventNotApplied(result.outcome));
      }
      answer := Accept(env, t, EventIds(result.events), None);
    }

    method ProcessMessage(env: WireEnvelope, t: Tick) returns (answer: Answer)
      requires Valid()
      modifies store, dedup
      ensures Valid() && (answer, View()) == Deliver(old(View()), cfg, env, t)
    {
      hide HandleProposal, HandleEvent;
      if env.form.recipientId != cfg.identityId {
        return Failure(400, WrongRecipient);
      }
      if env.form.senderId !in cfg.peers {
        return Failure(400, UnknownPeer);
      }
      if !EnvelopeVerifies(env, cfg.peers[env.form.senderId]) {
        return Failure(400, BadEnvelope);
      }
      var verdict := dedup.Lookup(KeyOf(env), env);
      match verdict {
        case Redelivery(stored) => return stored;
        case Hostile => return Failure(400, HostileReuse);
        case New =>
      }
      if IsStale(cfg, env, t.received) {
        return Failure(400, StaleEnvelope);
      }
      if env.form.payload.ReceiptMessage? {
        return Answer(202, AcknowledgedBody(env.form.payload.respondsTo));
      }
      if env.form.payload.ProposalMessage? {
        answer := HandleProposalMessage(env, t);
      } else {
        answer := HandleCounterpartyEvent(env, t);
      }
      dedup.Store(KeyOf(env), env, answer);
    }
  }

  /* ----- sequences of deliveries ----- */

  // A message off the wire, or anything else the process does to its ledger in between.
  datatype WireStep = Delivery(env: WireEnvelope, tick: Tick) | Local(step: Step)

  function Registered(dealRecords: map<Id, Id>, l: Ledger, step: Step): map<Id, Id> {
    if step.Register? && step.dealId !in l.deals
       && !(step.dealId in l.links && l.links[step.dealId] != step.record.terms.recordId)
    then dealRecords[step.dealId := step.record.terms.recordId]
    else dealRecords
  }

  function After(g: Gateway, cfg: Config, w: WireStep): Gateway {
    match w
    case Delivery(env, t) => Deliver(g, cfg, env, t).1
    case Local(step) => Gateway(Next(g.ledger, step, cfg.signer), g.dedup, Registered(g.dealRecords, g.ledger, step))
  }

  predicate WireAdmissible(g: Gateway, w: WireStep) {
    match w
    case Delivery(_, t) => t.ids.approvalId !in g.ledger.approvals
    case Local(step) => Admissible(g.ledger, step)
  }

  predicate WireRun(trace: seq<Gateway>, steps: seq<WireStep>, cfg: Config) {
    && |trace| == |steps| + 1
    && trace[0] == Gateway(EmptyLedger, map[], map[])
    && forall k | 0 <= k < |steps| :: WireStepAt(trace, steps, cfg, k)
  }

  predicate WireStepAt(trace: seq<Gateway>, steps: seq<WireStep>, cfg: Config, k: nat)
    requires |trace| == |steps| + 1 && k < |steps|
  {
    WireAdmissible(trace[k], steps[k]) && trace[k + 1] == After(trace[k], cfg, steps[k])
  }

  // Everything refused, redelivered, hostile, stale or merely acknowledged writes nothing at all.
  lemma OnlyHandledMessagesWrite(g: Gateway, cfg: Config, env: WireEnvelope, t: Tick)
    ensures !Handled(g, cfg, env, t) ==> Deliver(g, cfg, env, t).1 == g
    ensures Handled(g, cfg, env, t) ==>
      && KeyOf(env) !in g.dedup
      && Deliver(g, cfg, env, t).1.dedup == g.dedup[KeyOf(env) := (env, Deliver(g, cfg, env, t).0)]
      && Deliver(g, cfg, env, t).1.dealRecords == g.dealRecords
  {
    hide HandleProposal, HandleEvent;
  }

  lemma DedupOnlyGrows(g: Gateway, cfg: Config, w: WireStep)
    ensures Keeps(After(g, cfg, w).dedup, g.dedup)
  {
    hide Deliver, Next, Handled;
    if w.Delivery? { OnlyHandledMessagesWrite(g, cfg, w.env, w.tick); }
  }

  // The answer stored for a key never changes.
  lemma {:induction false} StoredAnswersNeverChange(trace: seq<Gateway>, steps: seq<WireStep>, cfg: Config, i: nat,
                                                    j: nat)
    requires WireRun(trace, steps, cfg) && i <= j < |trace|
    ensures Keeps(trace[j].dedup, trace[i].dedup)
    decreases j
  {
    hide After, WireAdmissible;
    if i < j {
      StoredAnswersNeverChange(trace, steps, cfg, i, j - 1);
      assert WireStepAt(trace, steps, cfg, j - 1);
      DedupOnlyGrows(trace[j - 1], cfg, steps[j - 1]);
    }
  }

  // Each (sender, key) runs a handler at most once.
  lemma HandlerRunsAtMostOnce(trace: seq<Gateway>, steps: seq<WireStep>, cfg: Config, i: nat, j: nat)
    requires WireRun(trace, steps, cfg) && i < j < |steps| && steps[i].Delivery? && steps[j].Delivery?
    requires KeyOf(steps[i].env) == KeyOf(steps[j].env)
    ensures !(Handled(trace[i], cfg, steps[i].env, steps[i].tick) && Handled(trace[j], cfg, steps[j].env, steps[j].tick))
  {
    hide Deliver, WireAdmissible, Refused, IsStale;
    if Handled(trace[i], cfg, steps[i].env, steps[i].tick) {
      assert WireStepAt(trace, steps, cfg, i);
      OnlyHandledMessagesWrite(trace[i], cfg, steps[i].env, steps[i].tick);
      StoredAnswersNeverChange(trace, steps, cfg, i + 1, j);
    }
  }

  // A redelivery of a handled message gets the very answer of the first delivery, however late it
  // arrives, and changes nothing; a different message under the key is refused and changes nothing.
  lemma RedeliveryGetsTheFirstAnswer(trace: seq<Gateway>, steps: seq<WireStep>, cfg: Config, i: nat, j: nat,
                                     env: WireEnvelope, t: Tick)
    requires WireRun(trace, steps, cfg) && i < j < |trace| && steps[i].Delivery?
    requires Handled(trace[i], cfg, steps[i].env, steps[i].tick)
    requires Refused(cfg, env).None? && KeyOf(env) == KeyOf(steps[i].env)
    ensures Deliver(trace[j], cfg, env, t).1 == trace[j]
    ensures Deliver(trace[j], cfg, env, t).0 ==
      if env == steps[i].env then Deliver(trace[i], cfg, steps[i].env, steps[i].tick).0 else Failure(400, HostileReuse)
  {
    hide WireAdmissible, Handle, IsStale;
    assert WireStepAt(trace, steps, cfg, i);
    OnlyHandledMessagesWrite(trace[i], cfg, steps[i].env, steps[i].tick);
    hide Handled;
    StoredAnswersNeverChange(trace, steps, cfg, i + 1, j);
  }

  /* ----- down to the ledger ----- */

  // The one ledger step a wire step makes, if it makes any.
  function LedgerStep(g: Gateway, cfg: Config, w: WireStep): Option<Step> {
    match w
    case Local(step) => Some(step)
    case Delivery(env, t) =>
      if !Handled(g, cfg, env, t) then None
      else
        var record := RecordOf(g.ledger.records, g.dealRecords, env.form.payload.dealId);
        if env.form.payload.dealId !in g.ledger.deals || (record.Some? && WrongAudience(record.value, env.form.senderId)) then None
        else if env.form.payload.ProposalMessage? then
          if record.None? then None
          else Some(Propose(InputOf(g.ledger, cfg, record.value, g.ledger.deals[env.form.payload.dealId], env, t), t.now, t.ids))
        else if env.form.payload.event.None? then None
        else Some(Boundary(TransitionOf(env, t), t.ids))
  }

  lemma DeliveryIsLedgerStep(g: Gateway, cfg: Config, env: WireEnvelope, t: Tick)
    ensures var step := LedgerStep(g, cfg, Delivery(env, t));
      Deliver(g, cfg, env, t).1.ledger == (if step.Some? then Next(g.ledger, step.value, cfg.signer) else g.ledger)
  {
    hide ProcessRequestOn, CommitTransitionOn, InputOf, TransitionOf;
  }

  lemma WireStepIsLedgerStep(g: Gateway, cfg: Config, w: WireStep)
    requires WireAdmissible(g, w)
    ensures var step := LedgerStep(g, cfg, w);
      && (step.Some? ==> Admissible(g.ledger, step.value))
      && After(g, cfg, w).ledger == (if step.Some? then Next(g.ledger, step.value, cfg.signer) else g.ledger)
  {
    hide Deliver, Next, InputOf, TransitionOf;
    if w.Delivery? { DeliveryIsLedgerStep(g, cfg, w.env, w.tick); }
  }

  // Whatever arrives, in whatever order and however often, the ledger behind the wire keeps every
  // invariant of its own runs.
  lemma {:induction false} EveryWireRunIsSound(trace: seq<Gateway>, steps: seq<WireStep>, cfg: Config, i: nat)
    requires WireRun(trace, steps, cfg) && i < |trace|
    ensures Sound(trace[i].ledger, cfg.signer.key)
    ensures OnceOnly(trace[i].ledger)
    ensures Backed(trace[i].ledger.chains, trace[i].ledger.approvals)
    decreases i
  {
    hide After, Next, LedgerStep, WireAdmissible;
    if i > 0 {
      EveryWireRunIsSound(trace, steps, cfg, i - 1);
      assert WireStepAt(trace, steps, cfg, i - 1);
      var l := trace[i - 1].ledger;
      var step := LedgerStep(trace[i - 1], cfg, steps[i - 1]);
      WireStepIsLedgerStep(trace[i - 1], cfg, steps[i - 1]);
      if step.Some? {
        assert l.deals.Keys == l.chains.Keys;
        hide Sound, OnceOnly, Backed;
        StepKeepsSound(l, step.value, cfg.signer);
        StepKeepsOnce(l, step.value, cfg.signer);
        StepKeepsBacked(l, step.value, cfg.signer);
      }
    }
  }

  // One message id never causes two transitions, on any deals.
  lemma MessageMovesAtMostOnce(trace: seq<Gateway>, steps: seq<WireStep>, cfg: Config, i: nat, d: Id, a: int, e: Id,
                               b: int)
    requires WireRun(trace, steps, cfg) && i < |trace|
    requires At(trace[i].ledger.chains, d, a) && PayloadAt(trace[i].ledger.chains, d, a).CommandTransition?
    requires At(trace[i].ledger.chains, e, b) && PayloadAt(trace[i].ledger.chains, e, b).CommandTransition?
    requires PayloadAt(trace[i].ledger.chains, d, a).commandId == PayloadAt(trace[i].ledger.chains, e, b).commandId
    ensures d == e && a == b
  {
    hide Sound, Backed, WireRun;
    EveryWireRunIsSound(trace, steps, cfg, i);
    var chains := trace[i].ledger.chains;
    var claim := CommandKey(PayloadAt(chains, d, a).commandId);
    assert claim in ClaimsOf(PayloadAt(chains, d, a)) && claim in ClaimsOf(PayloadAt(chains, e, b));
  }

  // The decision in an accepted answer to a proposal is the one the ledger holds under its key: the
  // gateway never answers with a decision it did not commit.
  lemma AcceptedDecisionIsCommitted(g: Gateway, cfg: Config, env: WireEnvelope, t: Tick, record: AuthorityRecord)
    requires Sound(g.ledger, cfg.signer.key) && env.form.payload.ProposalMessage?
    requires RecordOf(g.ledger.records, g.dealRecords, env.form.payload.dealId) == Some(record)
    requires HandleProposal(g, cfg, env, t).0.status == 200
    ensures var (answer, l') := HandleProposal(g, cfg, env, t);
      && env.form.idempotencyKey in l'.decisions
      && l'.decisions[env.form.idempotencyKey].0 == DigestOf(ProposalOf(record, env))
      && answer == Accept(env, t, [], Some(l'.decisions[env.form.idempotencyKey].1))
      && !WrongAudience(record, env.form.senderId)
  {
    hide Evaluate, ChainValid, Seal, PlanRequest;
    var d := env.form.payload.dealId;
    var pi := InputOf(g.ledger, cfg, record, g.ledger.deals[d], env, t);
    assert DealSound(g.ledger.deals[d], g.ledger.chains[d], d, cfg.signer.key);
    if CheckAntiReplay(g.ledger, pi).Pass? {
      PassCommitsUnlessDealMoved(g.ledger, pi, t.now, t.ids, cfg.signer);
    }
  }

  // Losing the dedup table is harmless: a proposal accepted before, delivered again to a gateway that
  // has forgotten it, gets the decision first committed and leaves the ledger alone.
  lemma LedgerAnswersWhatTheWireForgot(g: Gateway, later: Gateway, cfg: Config, env: WireEnvelope, t: Tick, u: Tick,
                                       record: AuthorityRecord, decision: PolicyDecision)
    requires Sound(g.ledger, cfg.signer.key) && env.form.payload.ProposalMessage?
    requires RecordOf(g.ledger.records, g.dealRecords, env.form.payload.dealId) == Some(record)
    requires RecordOf(later.ledger.records, later.dealRecords, env.form.payload.dealId) == Some(record)
    requires env.form.payload.dealId in later.ledger.deals
    requires HandleProposal(g, cfg, env, t).0 == Accept(env, t, [], Some(decision))
    requires Keeps(later.ledger.decisions, HandleProposal(g, cfg, env, t).1.decisions)
    ensures HandleProposal(later, cfg, env, u) == (Accept(env, u, [], Some(decision)), later.ledger)
  {
    AcceptedDecisionIsCommitted(g, cfg, env, t, record);
    var stored := HandleProposal(g, cfg, env, t).1.decisions;
    assert env.form.idempotencyKey in stored;
    StoredDecisionAnswers(later, cfg, env, u, record, decision);
  }

  lemma StoredDecisionAnswers(g: Gateway, cfg: Config, env: WireEnvelope, t: Tick, record: AuthorityRecord,
                              decision: PolicyDecision)
    requires env.form.payload.ProposalMessage? && env.form.payload.dealId in g.ledger.deals
    requires RecordOf(g.ledger.records, g.dealRecords, env.form.payload.dealId) == Some(record)
    requires !WrongAudience(record, env.form.senderId) && env.form.idempotencyKey in g.ledger.decisions
    requires g.ledger.decisions[env.form.idempotencyKey] == (DigestOf(ProposalOf(record, env)), decision)
    ensures HandleProposal(g, cfg, env, t) == (Accept(env, t, [], Some(decision)), g.ledger)
  {
    hide Evaluate, CommitRequestOn, BuildClaim;
  }
}
