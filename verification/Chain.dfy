/** The hash-linked event chain and its verifier (ledger/chain.py, ledger/payloads.py, domain/events.py). */
module Chain {
  import opened Common
  import opened Deals
  import opened Crypto
  import opened Authority
  import opened Policy

  /* ----- payloads ----- */

  // The signed one-time override a grant carries.
  datatype ApprovalTerms = ApprovalTerms(
    approvalRecordId: Id, dealId: Id, requestId: Id, parentRecordId: Id, action: ActionName,
    amountMinor: Option<int>, currency: string, proposalDigest: ProposalDigest, issuedAt: Instant)
  datatype ApprovalRecord = ApprovalRecord(terms: ApprovalTerms, signature: Signature<ApprovalTerms>)

  datatype DenyReason =
    | RecordMissing | RecordNotCurrent(status: RecordStatus) | TransitionNoLongerValid | ByOperator(text: string)

  // SHA-256 of a counterparty note; the text itself never enters a payload.
  datatype NoteDigest = NoteDigest(text: string)

  datatype Payload =
    | MessageOut(contentSha256: string, screen: ContentClaims, requestId: Id, action: ActionName,
                 declaredFields: seq<string>)
    | MessageIn(contentSha256: string, screen: ContentClaims, commandId: Id, event: DealEvent)
    | DecisionMade(requestId: Id, action: ActionName, outcome: Outcome, reasonCode: ReasonCode,
                   matchedRule: Rule, evaluatedAt: Instant, amountMinor: Option<int>,
                   idempotencyKey: Id, proposalDigest: ProposalDigest)
    | RequestTransition(requestId: Id, action: ActionName, event: DealEvent,
                        fromState: DealState, toState: DealState, amountMinor: Option<int>)
    | CommandTransition(commandId: Id, event: DealEvent, fromState: DealState, toState: DealState,
                        amountMinor: Option<int>, noteSha256: Option<NoteDigest>)
    | RequiredApproval(requestId: Id, action: ActionName, amountMinor: Option<int>, approvalId: Id,
                       currency: string, authorityRecordId: Id, reasonCode: ReasonCode)
    | GrantedApproval(requestId: Id, action: ActionName, amountMinor: Option<int>, commandId: Id,
                      decidedBy: Id, approvalRecord: ApprovalRecord)
    | DeniedApproval(requestId: Id, action: ActionName, amountMinor: Option<int>, commandId: Id,
                     decidedBy: Id, denyReason: Option<DenyReason>)
    | RevocationRecorded(revocation: Revocation)
    | Unserialisable  // a stored payload canonical_bytes refuses, for instance one holding a float
  {
    predicate IsTransition() { RequestTransition? || CommandTransition? }
  }

  datatype EventType = PolicyDecisionEvent | StateTransition | ApprovalEvent | MessageEvent | RevocationEvent

  function EventTypeOf(p: Payload): EventType {
    if p.MessageOut? || p.MessageIn? then MessageEvent
    else if p.DecisionMade? then PolicyDecisionEvent
    else if p.IsTransition() then StateTransition
    else if p.RevocationRecorded? then RevocationEvent
    else ApprovalEvent
  }

  /* ----- events ----- */

  // SHA-256 as a symbol over what was hashed, so equal digests mean equal inputs; that the
  // canonical bytes underneath lose nothing is what module Canonical proves.
  datatype Hash = Genesis | OfPayload(payload: Payload) | OfForm(form: Form)

  // Every field of an event except event_hash and signature: the bytes that are hashed and signed.
  datatype Form = Form(
    eventId: Id, dealId: Id, sequenceNumber: int, eventType: EventType, actorKind: ActorKind,
    actorId: Id, authorityRecordId: Option<Id>, previousEventHash: Hash, payloadHash: Hash,
    payload: Payload, occurredAt: Instant, recordedAt: Instant)

  datatype Event = Event(form: Form, eventHash: Hash, signature: Signature<Form>)

  // The hash the event at position i must link to.
  function Before(chain: seq<Event>, i: nat): Hash
    requires i <= |chain|
  {
    if i == 0 then Genesis else chain[i - 1].eventHash
  }

  function Head(chain: seq<Event>): Hash { Before(chain, |chain|) }

  predicate EventSound(e: Event, index: int, previous: Hash, key: Key) {
    && !e.form.payload.Unserialisable?
    && e.form.payloadHash == OfPayload(e.form.payload)
    && e.eventHash == OfForm(e.form)
    && SignedBy(e.signature, key, e.form)
    && e.form.sequenceNumber == index
    && e.form.previousEventHash == previous
  }

  predicate SoundAt(chain: seq<Event>, i: nat, key: Key)
    requires i < |chain|
  {
    EventSound(chain[i], i, Before(chain, i), key)
  }

  // Every event is intact, signed, numbered by its position and linked to the one before.
  predicate ChainValid(chain: seq<Event>, key: Key) {
    forall i | 0 <= i < |chain| :: SoundAt(chain, i, key)
  }

  function Payloads(chain: seq<Event>): (ps: seq<Payload>)
    ensures |ps| == |chain| && forall i | 0 <= i < |ps| :: ps[i] == chain[i].form.payload
  {
    seq(|chain|, i requires 0 <= i < |chain| => chain[i].form.payload)
  }

  /* ----- building ----- */

  // What the events of one commit share.
  datatype Header = Header(
    dealId: Id, actorKind: ActorKind, actorId: Id, authorityRecordId: Option<Id>,
    occurredAt: Instant, recordedAt: Instant)

  datatype Entry = Entry(eventId: Id, payload: Payload)

  function BuildEvent(h: Header, sequence: int, previous: Hash, entry: Entry, signer: Signer): Event {
    var form := Form(
      entry.eventId, h.dealId, sequence, EventTypeOf(entry.payload), h.actorKind, h.actorId,
      h.authorityRecordId, previous, OfPayload(entry.payload), entry.payload, h.occurredAt, h.recordedAt);
    Event(form, OfForm(form), Sign(signer, form))
  }

  // Entries numbered from `sequence` and linked one to the next.
  function Seal(h: Header, sequence: int, previous: Hash, entries: seq<Entry>, signer: Signer): (es: seq<Event>)
    ensures |es| == |entries|
    ensures forall i | 0 <= i < |es| :: es[i].form.payload == entries[i].payload && es[i].form.dealId == h.dealId
    ensures forall i | 0 <= i < |es| ::
      es[i].form.authorityRecordId == h.authorityRecordId && es[i].form.eventType == EventTypeOf(entries[i].payload)
    decreases |entries|
  {
    if entries == [] then []
    else
      var first := BuildEvent(h, sequence, previous, entries[0], signer);
      [first] + Seal(h, sequence + 1, first.eventHash, entries[1..], signer)
  }

  // Each sealed event takes its id and payload from its entry, everything shared from the header, its
  // number from its place and its link from the event before.
  lemma {:induction false} SealedEventAt(h: Header, sequence: int, previous: Hash, entries: seq<Entry>, signer: Signer,
                                         i: nat)
    requires i < |entries|
    ensures var es := Seal(h, sequence, previous, entries, signer);
      && es[i].form.eventId == entries[i].eventId && es[i].form.payload == entries[i].payload
      && Header(es[i].form.dealId, es[i].form.actorKind, es[i].form.actorId, es[i].form.authorityRecordId,
                es[i].form.occurredAt, es[i].form.recordedAt) == h
      && es[i].form.sequenceNumber == sequence + i
      && es[i].form.previousEventHash == (if i == 0 then previous else es[i - 1].eventHash)
      && es[i].signature.keyId == signer.keyId && SignedBy(es[i].signature, signer.key, es[i].form)
    decreases i
  {
    if i > 0 {
      SealedEventAt(h, sequence + 1, BuildEvent(h, sequence, previous, entries[0], signer).eventHash, entries[1..],
        signer, i - 1);
    }
  }

  lemma ValidAppendOne(chain: seq<Event>, e: Event, key: Key)
    requires ChainValid(chain, key) && EventSound(e, |chain|, Head(chain), key)
    ensures ChainValid(chain + [e], key)
  {
    var longer := chain + [e];
    forall i | 0 <= i < |longer| ensures SoundAt(longer, i, key) {
      if i < |chain| { assert SoundAt(chain, i, key); }
    }
  }

  lemma PrefixOfValidIsValid(chain: seq<Event>, n: nat, key: Key)
    requires ChainValid(chain, key) && n <= |chain|
    ensures ChainValid(chain[..n], key)
  {
    forall i | 0 <= i < n ensures SoundAt(chain[..n], i, key) {
      assert SoundAt(chain, i, key);
    }
  }

  // Sealing entries onto the head of a valid chain gives a valid chain.
  lemma {:induction false} SealedAppendIsValid(chain: seq<Event>, h: Header, entries: seq<Entry>, signer: Signer)
    requires ChainValid(chain, signer.key)
    requires forall e | e in entries :: !e.payload.Unserialisable?
    ensures ChainValid(chain + Seal(h, |chain|, Head(chain), entries, signer), signer.key)
    decreases |entries|
  {
    if entries == [] {
      assert chain + Seal(h, |chain|, Head(chain), entries, signer) == chain;
    } else {
      var first := BuildEvent(h, |chain|, Head(chain), entries[0], signer);
      assert entries[0] in entries && EventSound(first, |chain|, Head(chain), signer.key);
      ValidAppendOne(chain, first, signer.key);
      SealedAppendIsValid(chain + [first], h, entries[1..], signer);
      var rest := Seal(h, |chain| + 1, first.eventHash, entries[1..], signer);
      assert chain + ([first] + rest) == (chain + [first]) + rest;
    }
  }

  /* ----- verifying ----- */

  datatype CheckName =
    | PayloadHashCheck(index: int) | EventHashCheck(index: int) | SignatureCheck(index: int)
    | SequenceCheck(index: int) | ChainLinkCheck(index: int)
    | BundleSchema | BundleExpectedKey | BundleKey | BundleEventCount | BundleChain | BundleRecords | BundleRevocations
    | BundleHead | BundleSummarySignature | BundleDealState

  datatype Check = Check(name: CheckName, ok: bool)

  // Raised stands for the ValueError that leaves the verifier when a payload has no canonical bytes.
  datatype ChainReport = Raised | ChainReport(dealId: Id, ok: bool, checks: seq<Check>)

  predicate AllOk(checks: seq<Check>) { forall c | c in checks :: c.ok }

  predicate Serialisable(events: seq<Event>) { forall e | e in events :: !e.form.payload.Unserialisable? }

  function EventChecks(index: int, e: Event, previous: Hash, key: Key): (cs: seq<Check>)
    ensures !e.form.payload.Unserialisable? ==> (AllOk(cs) <==> EventSound(e, index, previous, key))
  {
    var cs := [
      Check(PayloadHashCheck(index), e.form.payloadHash == OfPayload(e.form.payload)),
      Check(EventHashCheck(index), e.eventHash == OfForm(e.form)),
      Check(SignatureCheck(index), SignedBy(e.signature, key, e.form)),
      Check(SequenceCheck(index), e.form.sequenceNumber == index),
      Check(ChainLinkCheck(index), e.form.previousEventHash == previous)];
    assert cs[0] in cs && cs[1] in cs && cs[2] in cs && cs[3] in cs && cs[4] in cs;
    cs
  }

  // The last event hash that passed every check, which is what the next link is compared with.
  function LastGood(events: seq<Event>, key: Key): Hash {
    if events == [] then Genesis
    else
      var n := |events| - 1;
      if EventSound(events[n], n, LastGood(events[..n], key), key) then events[n].eventHash
      else LastGood(events[..n], key)
  }

  function ReportedChecks(events: seq<Event>, key: Key): seq<Check> {
    if events == [] then []
    else
      var n := |events| - 1;
      ReportedChecks(events[..n], key) + EventChecks(n, events[n], LastGood(events[..n], key), key)
  }

  lemma {:induction false} ReportOkIffChainValid(events: seq<Event>, key: Key)
    requires Serialisable(events)
    ensures AllOk(ReportedChecks(events, key)) <==> ChainValid(events, key)
    ensures ChainValid(events, key) ==> LastGood(events, key) == Head(events)
    decreases |events|
  {
    if events != [] {
      var n := |events| - 1;
      var prefix := events[..n];
      ReportOkIffChainValid(prefix, key);
      var last := EventChecks(n, events[n], LastGood(prefix, key), key);
      assert AllOk(ReportedChecks(events, key)) <==> AllOk(ReportedChecks(prefix, key)) && AllOk(last);
      if AllOk(ReportedChecks(events, key)) {
        ValidAppendOne(prefix, events[n], key);
        assert events == prefix + [events[n]];
      }
      if ChainValid(events, key) {
        PrefixOfValidIsValid(events, n, key);
        assert SoundAt(events, n, key);
      }
    }
  }

  lemma ReportedStep(events: seq<Event>, i: nat, key: Key)
    requires i < |events|
    ensures var previous := LastGood(events[..i], key);
      && ReportedChecks(events[..i + 1], key) == ReportedChecks(events[..i], key) + EventChecks(i, events[i], previous, key)
      && LastGood(events[..i + 1], key) == (if EventSound(events[i], i, previous, key) then events[i].eventHash else previous)
      && (Serialisable(events[..i + 1]) <==> Serialisable(events[..i]) && !events[i].form.payload.Unserialisable?)
  {
    var longer := events[..i + 1];
    assert longer[..i] == events[..i] && longer == events[..i] + [events[i]];
  }

  // The five checks of one event, added one by one.
  lemma FiveMore(before: seq<Check>, index: int, e: Event, previous: Hash, key: Key)
    ensures before + [Check(PayloadHashCheck(index), e.form.payloadHash == OfPayload(e.form.payload))]
                   + [Check(EventHashCheck(index), e.eventHash == OfForm(e.form))]
                   + [Check(SignatureCheck(index), SignedBy(e.signature, key, e.form))]
                   + [Check(SequenceCheck(index), e.form.sequenceNumber == index)]
                   + [Check(ChainLinkCheck(index), e.form.previousEventHash == previous)]
      == before + EventChecks(index, e, previous, key)
  {
  }

  // The in-ledger verifier. It accepts exactly the valid chains, names every check it made, and
  // raises exactly when some payload has no canonical bytes.
  method VerifyChain(events: seq<Event>, key: Key) returns (report: ChainReport)
    ensures report.Raised? <==> !Serialisable(events)
    ensures report.ChainReport? ==>
      && report.checks == ReportedChecks(events, key)
      && (report.ok <==> ChainValid(events, key))
      && report.dealId == (if events == [] then "" else events[0].form.dealId)
  {
    var checks: seq<Check> := [];
    var previous := Genesis;
    var index := 0;
    assert ReportedChecks(events[..0], key) == [] && LastGood(events[..0], key) == Genesis;
    hide ReportedChecks, LastGood, EventChecks, ChainValid;
    while index < |events|
      invariant 0 <= index <= |events|
      invariant Serialisable(events[..index])
      invariant checks == ReportedChecks(events[..index], key)
      invariant previous == LastGood(events[..index], key)
    {
      ghost var before := checks;
      var e := events[index];
      var payloadOk := !e.form.payload.Unserialisable? && e.form.payloadHash == OfPayload(e.form.payload);
      checks := checks + [Check(PayloadHashCheck(index), payloadOk)];
      if e.form.payload.Unserialisable? {
        return Raised;
      }
      var hashOk := e.eventHash == OfForm(e.form);
      checks := checks + [Check(EventHashCheck(index), hashOk)];
      var sigOk := SignedBy(e.signature, key, e.form);
      checks := checks + [Check(SignatureCheck(index), sigOk)];
      var seqOk := e.form.sequenceNumber == index;
      checks := checks + [Check(SequenceCheck(index), seqOk)];
      var linkOk := e.form.previousEventHash == previous;
      checks := checks + [Check(ChainLinkCheck(index), linkOk)];
      ReportedStep(events, index, key);
      FiveMore(before, index, e, previous, key);
      if payloadOk && hashOk && sigOk && seqOk && linkOk {
        previous := e.eventHash;
      }
      index := index + 1;
    }
    assert events[..|events|] == events;
    ReportOkIffChainValid(events, key);
    var ok := forall c | c in checks :: c.ok;
    report := ChainReport(if events == [] then "" else events[0].form.dealId, ok, checks);
  }

  // What an accepted chain shows, event by event, on hashes, signature, number and link.
  lemma ValidWrittenOut(chain: seq<Event>, key: Key)
    ensures ChainValid(chain, key) <==> forall i | 0 <= i < |chain| ::
      var e := chain[i];
      && !e.form.payload.Unserialisable?
      && e.form.payloadHash == OfPayload(e.form.payload) && e.eventHash == OfForm(e.form)
      && e.signature.algorithm == "Ed25519" && e.signature.value == By(key, e.form)
      && e.form.sequenceNumber == i && e.form.previousEventHash == (if i > 0 then chain[i - 1].eventHash else Genesis)
  {
    if ChainValid(chain, key) {
      forall i | 0 <= i < |chain| ensures EventSound(chain[i], i, Before(chain, i), key) { assert SoundAt(chain, i, key); }
    }
  }

  /* ----- what the Event constructor lets through ----- */

  // domain/events.py: the validators of an Event, which a row read back from a table passes as well.
  predicate Constructs(e: Event) {
    && e.form.sequenceNumber >= 0
    && !e.form.payload.Unserialisable?
    && e.form.payloadHash == OfPayload(e.form.payload)
    && e.eventHash == OfForm(e.form)
  }

  predicate PlacedAt(chain: seq<Event>, i: nat, key: Key)
    requires i < |chain|
  {
    && SignedBy(chain[i].signature, key, chain[i].form)
    && chain[i].form.sequenceNumber == i && chain[i].form.previousEventHash == Before(chain, i)
  }

  // So on events as constructed the verifiers never raise and only signature, number and link are left
  // to fail; and every event of a valid chain can be constructed.
  lemma ConstructedNeverRaises(events: seq<Event>, key: Key)
    ensures (forall e | e in events :: Constructs(e)) ==> Serialisable(events)
    ensures ChainValid(events, key) <==>
      (forall e | e in events :: Constructs(e)) && (forall i | 0 <= i < |events| :: PlacedAt(events, i, key))
  {
    forall i | 0 <= i < |events| ensures SoundAt(events, i, key) <==> Constructs(events[i]) && PlacedAt(events, i, key) { }
    if ChainValid(events, key) {
      forall i | 0 <= i < |events| ensures Constructs(events[i]) && PlacedAt(events, i, key) { assert SoundAt(events, i, key); }
    }
  }

  /* ----- what a valid chain pins down ----- */

  lemma EmptyIffGenesis(chain: seq<Event>, key: Key)
    requires ChainValid(chain, key)
    ensures chain == [] <==> Head(chain).Genesis?
  {
    if |chain| > 0 {
      var n := |chain| - 1;
      assert SoundAt(chain, n, key);
    }
  }

  // The head determines the history: chains with one head have the same length and the same
  // signed form at every index, whichever keys they were checked with.
  lemma {:induction false} HeadDeterminesHistory(a: seq<Event>, b: seq<Event>, keyA: Key, keyB: Key)
    requires ChainValid(a, keyA) && ChainValid(b, keyB) && Head(a) == Head(b)
    ensures |a| == |b| && forall i | 0 <= i < |a| :: a[i].form == b[i].form
    decreases |a|
  {
    EmptyIffGenesis(a, keyA);
    EmptyIffGenesis(b, keyB);
    if |a| > 0 && |b| > 0 {
      var m, n := |a| - 1, |b| - 1;
      assert SoundAt(a, m, keyA) && SoundAt(b, n, keyB);
      assert a[m].form == b[n].form;
      PrefixOfValidIsValid(a, m, keyA);
      PrefixOfValidIsValid(b, n, keyB);
      HeadDeterminesHistory(a[..m], b[..n], keyA, keyB);
      forall i | 0 <= i < m ensures a[i].form == b[i].form { assert a[..m][i].form == b[..n][i].form; }
    }
  }
}
