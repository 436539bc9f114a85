/** The pure authority decision (policy/engine.py, domain/input.py, domain/decisions.py, domain/content.py). */
module Policy {
  import opened Common
  import opened Deals
  import opened Crypto
  import opened Authority

  /* ----- input and output ----- */

  datatype DetectedField = DetectedField(field: string, confidenceBp: int)

  // The boundary's frozen summary of one content screen.
  datatype ContentClaims = ContentClaims(
    screener: string, available: bool, detected: seq<DetectedField>,
    hostilityBp: int, persuasionBp: int, urgencyLevel: int)

  // A detected field outside the allow-list that the screen is at least `bp` sure about.
  predicate Leaks(claims: ContentClaims, allowed: seq<string>, bp: int) {
    exists d | d in claims.detected :: d.field !in allowed && d.confidenceBp >= bp
  }

  datatype ActorKind = Principal | Agent | System | Counterparty
  datatype Actor = Actor(kind: ActorKind, id: Id)

  datatype Proposal = Proposal(
    action: ActionName, dealId: Id, amountMinor: Option<nat>, currency: string,
    disclosureFields: seq<string>, idempotencyKey: Id, contentSha256: Option<string>)

  // The SHA-256 of a proposal's canonical bytes, as a symbol: equal just when the proposals are.
  datatype ProposalDigest = DigestOf(proposal: Proposal)

  datatype PolicyInput = PolicyInput(
    schemaVersion: string, requestId: Id, now: Instant, actor: Actor, authority: AuthorityClaim,
    counterpartyId: Option<Id>, deal: Deal, proposal: Proposal, content: Option<ContentClaims>)

  datatype Outcome = Allow | NeedsApproval | Deny

  datatype ReasonCode =
    | Ok | UnknownSchemaVersion | InvalidSignatureClaim | RecordRevoked | RecordExpired | NotYetValid
    | DelegationChainBroken | AudienceMismatch | ActionProhibited | UnknownAction | ActionNotAllowed
    | InvalidTransition | PaymentBlockedByDispute | PaymentBlockedByOpenApproval | DisclosureNotAllowed
    | DisclosureDetected | CurrencyMismatch | SpendCapExceeded | NegotiationLimitReached
    | ApprovalRequired | ContentScreenUnavailable | ContentReviewRequired | HostileContentSuspected

  // The matched_rule of a decision: the fifteen stages in evaluation order.
  datatype Rule =
    | SchemaVersion | SignatureClaim | Validity | Delegation | Audience | Prohibited | Allowed | Transition
    | Disclosure | ContentDisclosure | Spend | Limits | HumanApproval | ContentHold | AllChecksPassed

  datatype PolicyDecision = PolicyDecision(
    outcome: Outcome, reasonCode: ReasonCode, matchedRule: Rule, authorityRecordId: Id, evaluatedAt: Instant)

  const SUPPORTED_SCHEMA_VERSION := "0.1"
  const CONTENT_DENY_BP := 9000
  const CONTENT_HOLD_BP := 7000

  /* ----- the evaluator ----- */

  function Evaluate(pi: PolicyInput): PolicyDecision {
    var (outcome, reason, rule) := Verdict(pi);
    PolicyDecision(outcome, reason, rule, pi.authority.record.terms.recordId, pi.now)
  }

  function Verdict(pi: PolicyInput): (Outcome, ReasonCode, Rule) {
    var record := pi.authority.record.terms;
    var deal := pi.deal;
    if pi.schemaVersion != SUPPORTED_SCHEMA_VERSION then (Deny, UnknownSchemaVersion, SchemaVersion)
    else if !pi.authority.signatureValid then (Deny, InvalidSignatureClaim, SignatureClaim)
    else if pi.authority.status.Revoked? then (Deny, RecordRevoked, Validity)
    else if pi.authority.status.Expired? then (Deny, RecordExpired, Validity)
    else if pi.now < record.notBefore then (Deny, NotYetValid, Validity)
    else if pi.now > record.expiresAt then (Deny, RecordExpired, Validity)
    else if exists link | link in pi.authority.delegationChain :: !link.scopeNarrowingValid then
      (Deny, DelegationChainBroken, Delegation)
    else if record.counterpartyId.Some? && pi.counterpartyId.Some? && pi.counterpartyId != record.counterpartyId then
      (Deny, AudienceMismatch, Audience)
    else if pi.proposal.action.Token? && pi.proposal.action.token in record.prohibitedActions then
      (Deny, ActionProhibited, Prohibited)
    else if pi.proposal.action.Unrecognised? then (Deny, UnknownAction, Allowed)
    else
      var action := pi.proposal.action.token;
      if action !in record.allowedActions then (Deny, ActionNotAllowed, Allowed)
      else if !ActionValidFrom(action, deal.state) then (Deny, InvalidTransition, Transition)
      else if IsPaymentAction(action) && deal.openDisputes > 0 then (Deny, PaymentBlockedByDispute, Transition)
      else if IsPaymentAction(action) && deal.openApprovals > 0 then (Deny, PaymentBlockedByOpenApproval, Transition)
      else if exists f | f in pi.proposal.disclosureFields :: f !in record.disclosureFields then
        (Deny, DisclosureNotAllowed, Disclosure)
      else if pi.content.Some? && Leaks(pi.content.value, record.disclosureFields, CONTENT_DENY_BP) then
        (Deny, DisclosureDetected, ContentDisclosure)
      else if pi.proposal.amountMinor.Some? && pi.proposal.currency != record.spendCap.currency then
        (Deny, CurrencyMismatch, Spend)
      else if pi.proposal.amountMinor.Some?
           && deal.committedMinor + pi.proposal.amountMinor.value > record.spendCap.amountMinor then
        (NeedsApproval, SpendCapExceeded, Spend)
      else if action.Counteroffer? && deal.negotiatedRounds >= record.maxNegotiationRounds then
        (Deny, NegotiationLimitReached, Limits)
      else if action in record.requiresHumanApprovalFor then (NeedsApproval, ApprovalRequired, HumanApproval)
      else if pi.content.Some? && !pi.content.value.available then
        (NeedsApproval, ContentScreenUnavailable, ContentHold)
      else if pi.content.Some? && Leaks(pi.content.value, record.disclosureFields, CONTENT_HOLD_BP) then
        (NeedsApproval, ContentReviewRequired, ContentHold)
      else if pi.content.Some? && pi.content.value.hostilityBp >= CONTENT_HOLD_BP then
        (NeedsApproval, HostileContentSuspected, ContentHold)
      else (Allow, Ok, AllChecksPassed)
  }

  /* ----- what the decision means ----- */

  // Each stage as a condition of its own, independent of the order of evaluation.
  predicate Holds(rule: Rule, pi: PolicyInput) {
    var record := pi.authority.record.terms;
    match rule
    case SchemaVersion => pi.schemaVersion == "0.1"
    case SignatureClaim => pi.authority.signatureValid
    case Validity => pi.authority.status.Active? && record.notBefore <= pi.now <= record.expiresAt
    case Delegation => forall link | link in pi.authority.delegationChain :: link.scopeNarrowingValid
    case Audience => record.counterpartyId.None? || pi.counterpartyId.None? || pi.counterpartyId == record.counterpartyId
    case Prohibited => forall a | a in record.prohibitedActions :: pi.proposal.action != Token(a)
    case Allowed => exists a | a in record.allowedActions :: pi.proposal.action == Token(a)
    case Transition =>
      && pi.proposal.action.Token?
      && ActionValidFrom(pi.proposal.action.token, pi.deal.state)
      && (pi.proposal.action.token in {InitiatePayment, CapturePayment} ==>
            pi.deal.openDisputes <= 0 && pi.deal.openApprovals <= 0)
    case Disclosure => Subset(pi.proposal.disclosureFields, record.disclosureFields)
    case ContentDisclosure =>
      pi.content.Some? ==> forall d | d in pi.content.value.detected :: d.field in record.disclosureFields || d.confidenceBp < 9000
    case Spend =>
      pi.proposal.amountMinor.Some? ==>
        && pi.proposal.currency == record.spendCap.currency
        && pi.deal.committedMinor + pi.proposal.amountMinor.value <= record.spendCap.amountMinor
    case Limits => pi.proposal.action == Token(Counteroffer) ==> pi.deal.negotiatedRounds < record.maxNegotiationRounds
    case HumanApproval => forall a | a in record.requiresHumanApprovalFor :: pi.proposal.action != Token(a)
    case ContentHold =>
      pi.content.Some? ==>
        && pi.content.value.available
        && (forall d | d in pi.content.value.detected :: d.field in record.disclosureFields || d.confidenceBp < 7000)
        && pi.content.value.hostilityBp < 7000
    case AllChecksPassed => true
  }

  function Order(rule: Rule): nat {
    match rule
    case SchemaVersion => 1 case SignatureClaim => 2 case Validity => 3 case Delegation => 4
    case Audience => 5 case Prohibited => 6 case Allowed => 7 case Transition => 8
    case Disclosure => 9 case ContentDisclosure => 10 case Spend => 11 case Limits => 12
    case HumanApproval => 13 case ContentHold => 14 case AllChecksPassed => 15
  }

  // The matched rule is the first stage that does not hold, and an ALLOW means every stage holds.
  lemma DecisionIsFirstFailure(pi: PolicyInput)
    ensures var d := Evaluate(pi);
      && (forall r | Order(r) < Order(d.matchedRule) :: Holds(r, pi))
      && (!d.matchedRule.AllChecksPassed? ==> !Holds(d.matchedRule, pi))
      && (d.outcome.Allow? <==> d.matchedRule.AllChecksPassed?)
      && (d.outcome.Allow? <==> forall r :: Holds(r, pi))
      && d.authorityRecordId == pi.authority.record.terms.recordId && d.evaluatedAt == pi.now
  {
    var d := Evaluate(pi);
    forall r | Order(r) < Order(d.matchedRule) ensures Holds(r, pi) {
      match r
      case Delegation =>
      case _ =>
    }
    assert !d.matchedRule.AllChecksPassed? ==> !Holds(d.matchedRule, pi) by {
      match d.matchedRule
      case ContentHold =>
      case _ =>
    }
    if d.matchedRule.AllChecksPassed? {
      forall r ensures Holds(r, pi) { if r.AllChecksPassed? { } else { assert Order(r) < 15; } }
    }
  }

  // Which holds and which denies each failing stage can produce: a person is asked only about
  // money over the cap, a gated action, or content the screen cannot vouch for.
  lemma HoldsAndDenials(pi: PolicyInput)
    ensures var d := Evaluate(pi);
      d.outcome.NeedsApproval? <==>
        || (d.matchedRule.Spend? && pi.proposal.currency == pi.authority.record.terms.spendCap.currency)
        || d.matchedRule.HumanApproval?
        || d.matchedRule.ContentHold?
  {
  }

  // The reason names what failed: one per stage, and within a stage the first that applies.
  lemma ReasonNamesTheFailure(pi: PolicyInput)
    ensures var d, terms := Evaluate(pi), pi.authority.record.terms;
      d.reasonCode ==
        match d.matchedRule
        case SchemaVersion => UnknownSchemaVersion
        case SignatureClaim => InvalidSignatureClaim
        case Validity =>
          if pi.authority.status == RecordStatus.Revoked then RecordRevoked
          else if pi.authority.status == Active && pi.now < terms.notBefore then NotYetValid
          else RecordExpired
        case Delegation => DelegationChainBroken
        case Audience => AudienceMismatch
        case Prohibited => ActionProhibited
        case Allowed => if pi.proposal.action.Token? then ActionNotAllowed else UnknownAction
        case Transition =>
          if !ActionValidFrom(pi.proposal.action.token, pi.deal.state) then InvalidTransition
          else if pi.deal.openDisputes > 0 then PaymentBlockedByDispute
          else PaymentBlockedByOpenApproval
        case Disclosure => DisclosureNotAllowed
        case ContentDisclosure => DisclosureDetected
        case Spend => if pi.proposal.currency == terms.spendCap.currency then SpendCapExceeded else CurrencyMismatch
        case Limits => NegotiationLimitReached
        case HumanApproval => ApprovalRequired
        case ContentHold =>
          if !pi.content.value.available then ContentScreenUnavailable
          else if exists f | f in pi.content.value.detected :: f.field !in terms.disclosureFields && f.confidenceBp >= 7000
          then ContentReviewRequired
          else HostileContentSuspected
        case AllChecksPassed => Ok
  {
    DecisionIsFirstFailure(pi);
  }

  /* ----- the screen only narrows ----- */

  function Severity(o: Outcome): nat {
    match o
    case Allow => 0
    case NeedsApproval => 1
    case Deny => 2
  }

  // `worse` says at least as much against the content as `better`: everything detected is
  // detected at least as surely, hostility is no lower, availability is not regained.
  predicate NoBetter(worse: Option<ContentClaims>, better: Option<ContentClaims>) {
    better.Some? ==>
      && worse.Some?
      && (worse.value.available ==> better.value.available)
      && better.value.hostilityBp <= worse.value.hostilityBp
      && forall d | d in better.value.detected ::
           exists e | e in worse.value.detected :: e.field == d.field && e.confidenceBp >= d.confidenceBp
  }

  lemma LeaksCarryOver(worse: ContentClaims, better: ContentClaims, allowed: seq<string>, bp: int)
    requires NoBetter(Some(worse), Some(better)) && Leaks(better, allowed, bp)
    ensures Leaks(worse, allowed, bp)
  {
    var d :| d in better.detected && d.field !in allowed && d.confidenceBp >= bp;
    var e :| e in worse.detected && e.field == d.field && e.confidenceBp >= d.confidenceBp;
  }

  lemma WorseContentNeverHelps(pi: PolicyInput, worse: Option<ContentClaims>)
    requires NoBetter(worse, pi.content)
    ensures Severity(Evaluate(pi.(content := worse)).outcome) >= Severity(Evaluate(pi).outcome)
  {
    if pi.content.Some? {
      var fields := pi.authority.record.terms.disclosureFields;
      if Leaks(pi.content.value, fields, CONTENT_DENY_BP) {
        LeaksCarryOver(worse.value, pi.content.value, fields, CONTENT_DENY_BP);
      }
      if Leaks(pi.content.value, fields, CONTENT_HOLD_BP) {
        LeaksCarryOver(worse.value, pi.content.value, fields, CONTENT_HOLD_BP);
      }
    }
  }

  /* ----- the amount ----- */

  // Asking for less, or for nothing, never turns an ALLOW into something else.
  lemma AllowIsDownwardClosedInAmount(pi: PolicyInput, less: Option<nat>)
    requires Evaluate(pi).outcome.Allow?
    requires less.Some? ==> pi.proposal.amountMinor.Some? && less.value <= pi.proposal.amountMinor.value
    ensures Evaluate(pi.(proposal := pi.proposal.(amountMinor := less))).outcome.Allow?
  {
    var q := pi.(proposal := pi.proposal.(amountMinor := less));
    DecisionIsFirstFailure(pi);
    forall r ensures Holds(r, q) {
      assert Holds(r, pi);
      match r
      case Spend =>
      case _ =>
    }
    DecisionIsFirstFailure(q);
  }

  // The full order is not monotone in the amount: at the round limit, bringing an over-cap
  // counteroffer back under the cap turns a hold into a denial, and only there.
  lemma LoweringAnAmountCanDeny(pi: PolicyInput, less: nat)
    requires pi.proposal.amountMinor.Some? && less <= pi.proposal.amountMinor.value
    ensures var q := pi.(proposal := pi.proposal.(amountMinor := Some(less)));
      var record := pi.authority.record.terms;
      Severity(Evaluate(q).outcome) > Severity(Evaluate(pi).outcome) <==>
        && Evaluate(pi).reasonCode.SpendCapExceeded?
        && pi.deal.committedMinor + less <= record.spendCap.amountMinor
        && pi.proposal.action == Token(Counteroffer)
        && pi.deal.negotiatedRounds >= record.maxNegotiationRounds
  {
  }

  /* ----- delegation ----- */

  // Delegation never widens authority. If the parent walk reports nothing at pi.now, whatever the
  // engine allows under the record it also allows under every validly signed ancestor, however far up,
  // on the claim the boundary builds from the stored revocations, if and only if none of those binds
  // that ancestor: the walk reads recorded status only.
  lemma DelegationNeverWidens(pi: PolicyInput, path: seq<Mandate>, records: map<Id, Mandate>, ancestor: AuthorityRecord,
                              revocations: map<Id, Revocation>, signer: Signer)
    requires ParentPath(path, records) && |path| > 1
    requires path[0] == pi.authority.record.terms
    requires SoundChain(path[0], records, Some(pi.now), {path[0].recordId})
    requires Evaluate(pi).outcome.Allow?
    requires ancestor.terms == path[|path| - 1] && SignedAs(ancestor.signature, signer, ancestor.terms)
    ensures
      var above := pi.(authority := BuildClaim(revocations, signer, ancestor, pi.now));
      Evaluate(above).outcome.Allow? <==> !RevokedFor(revocations, signer, ancestor.terms.recordId, pi.now)
  {
    var above := pi.(authority := BuildClaim(revocations, signer, ancestor, pi.now));
    SoundChainNarrowsEveryAncestor(path, records, Some(pi.now), {path[0].recordId});
    DecisionIsFirstFailure(pi);
    DecisionIsFirstFailure(above);
    hide RevokedFor;
    if RevokedFor(revocations, signer, ancestor.terms.recordId, pi.now) {
      assert !Holds(Validity, above);
    } else {
      forall r ensures Holds(r, above) { NarrowerHoldsAbove(r, pi, above); }
    }
  }

  lemma NarrowerHoldsAbove(r: Rule, pi: PolicyInput, above: PolicyInput)
    requires above == pi.(authority := above.authority)
    requires Narrows(pi.authority.record.terms, above.authority.record.terms)
    requires above.authority.signatureValid && above.authority.status.Active? && above.authority.delegationChain == []
    requires forall s :: Holds(s, pi)
    ensures Holds(r, above)
  {
    assert Holds(r, pi);
    match r
    case Validity =>
    case Audience =>
    case Allowed => assert Holds(Allowed, pi);
    case _ =>
  }
}
