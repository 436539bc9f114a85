/** The portable evidence bundle: built from a stored deal, signed, verified elsewhere (ledger/evidence.py). */
module Evidence {
  import opened Common
  import opened Deals
  import opened Crypto
  import opened Authority
  import opened Chain
  import opened Ledger
  import opened History
  import opened Runs

  /* ----- the bundle ----- */

  // SHA-256 of the canonical bytes of each section, as symbols over the section.
  datatype EventsDigest = OfEvents(events: seq<Event>)
  datatype RecordsDigest = OfRecords(records: seq<AuthorityRecord>)
  datatype RevocationsDigest = OfRevocations(revocations: seq<Revocation>)

  datatype BundleSummary = BundleSummary(
    headHash: Hash, eventCount: int, chainDigest: EventsDigest, recordsDigest: RecordsDigest,
    revocationsDigest: RevocationsDigest)

  // What the gateway signs to anchor a summary.
  datatype SummaryMessage = SummaryMessage(schemaVersion: string, dealId: Id, keyId: Id, summary: BundleSummary)

  datatype KeyRef = KeyRef(algorithm: string, keyId: Id, key: Key)

  datatype EvidenceBundle = EvidenceBundle(
    schemaVersion: string, exportedAt: Instant, deal: Deal, createdAt: Instant, events: seq<Event>,
    records: seq<AuthorityRecord>, revocations: seq<Revocation>, publicKey: KeyRef,
    summary: BundleSummary, signature: Signature<SummaryMessage>)

  const BUNDLE_SCHEMA := "0.2"

  function Summarise(events: seq<Event>, records: seq<AuthorityRecord>, revocations: seq<Revocation>): BundleSummary {
    BundleSummary(Head(events), |events|, OfEvents(events), OfRecords(records), OfRevocations(revocations))
  }

  function MessageOf(dealId: Id, keyId: Id, summary: BundleSummary): SummaryMessage {
    SummaryMessage(BUNDLE_SCHEMA, dealId, keyId, summary)
  }

  // None is the ValueError of a payload without canonical bytes.
  function BuildBundle(exportedAt: Instant, deal: Deal, createdAt: Instant, events: seq<Event>,
                       records: seq<AuthorityRecord>, revocations: seq<Revocation>, signer: Signer): Option<EvidenceBundle>
  {
    if !Serialisable(events) then None
    else
      var summary := Summarise(events, records, revocations);
      Some(EvidenceBundle(
        BUNDLE_SCHEMA, exportedAt, deal, createdAt, events, records, revocations,
        KeyRef(ALGORITHM, signer.keyId, signer.key), summary,
        Sign(signer, MessageOf(deal.dealId, signer.keyId, summary))))
  }

  // A built bundle holds what it was given, whole and in order, under the signer's name, and its summary
  // counts and hashes those very sections.
  lemma BuiltBundleHolds(exportedAt: Instant, deal: Deal, createdAt: Instant, events: seq<Event>,
                         records: seq<AuthorityRecord>, revocations: seq<Revocation>, signer: Signer)
    ensures var built := BuildBundle(exportedAt, deal, createdAt, events, records, revocations, signer);
      && (built.None? <==> exists e | e in events :: e.form.payload.Unserialisable?)
      && (built.Some? ==>
            var b := built.value;
            && b.schemaVersion == "0.2" && b.exportedAt == exportedAt && b.deal == deal && b.createdAt == createdAt
            && b.events == events && b.records == records && b.revocations == revocations
            && b.publicKey == KeyRef("Ed25519", signer.keyId, signer.key)
            && b.summary == BundleSummary(
                 if events == [] then Genesis else events[|events| - 1].eventHash, |events|, OfEvents(events),
                 OfRecords(records), OfRevocations(revocations))
            && b.signature == Signature("Ed25519", signer.keyId,
                 By(signer.key, SummaryMessage("0.2", deal.dealId, signer.keyId, b.summary))))
  {
  }

  // So the export of a stored deal shows its row, its chain, and every record and revocation it was given.
  lemma ExportHolds(h: EvidenceBundle, l: Ledger, d: Id, signer: Signer)
    requires ExportedAt(h, l, d, signer)
    ensures h.deal == l.deals[d] && h.events == l.chains[d]
    ensures forall e | e in h.events :: !e.form.payload.Unserialisable?
    ensures h.signature.value ==
      By(signer.key, SummaryMessage("0.2", l.deals[d].dealId, signer.keyId,
        BundleSummary(Head(l.chains[d]), |l.chains[d]|, OfEvents(l.chains[d]), OfRecords(h.records), OfRevocations(h.revocations))))
  {
    BuiltBundleHolds(h.exportedAt, l.deals[d], h.createdAt, l.chains[d], h.records, h.revocations, signer);
  }

  /* ----- what a sound bundle is ----- */

  predicate SummarySigned(b: EvidenceBundle, key: Key) {
    && b.signature.algorithm == ALGORITHM
    && b.signature.keyId == b.publicKey.keyId
    && b.signature.value == By(key, MessageOf(b.deal.dealId, b.publicKey.keyId, b.summary))
  }

  // The last event filed as a state transition.
  function LastTransition(events: seq<Event>): Option<Event> {
    if events == [] then None
    else if events[|events| - 1].form.eventType.StateTransition? then Some(events[|events| - 1])
    else LastTransition(events[..|events| - 1])
  }

  predicate StateAgrees(deal: Deal, events: seq<Event>) {
    var last := LastTransition(events);
    last.Some? ==> last.value.form.payload.IsTransition() && last.value.form.payload.toState == deal.state
  }

  predicate BundleValid(b: EvidenceBundle, key: Key) {
    && b.schemaVersion == "0.2"
    && b.publicKey.key == key
    && ChainValid(b.events, key)
    && b.summary == Summarise(b.events, b.records, b.revocations)
    && SummarySigned(b, key)
    && StateAgrees(b.deal, b.events)
  }

  /* ----- verifying ----- */

  function SectionChecks(b: EvidenceBundle): seq<Check> {
    [Check(BundleEventCount, b.summary.eventCount == |b.events|),
     Check(BundleChain, b.summary.chainDigest == OfEvents(b.events)),
     Check(BundleRecords, b.summary.recordsDigest == OfRecords(b.records)),
     Check(BundleRevocations, b.summary.revocationsDigest == OfRevocations(b.revocations)),
     Check(BundleHead, b.summary.headHash == Head(b.events))]
  }

  // Every check, in order; None is an expected key that cannot be decoded.
  function BundleChecks(b: EvidenceBundle, expectedKey: Option<Key>): seq<Check> {
    var schema := [Check(BundleSchema, b.schemaVersion == BUNDLE_SCHEMA)];
    var state := [Check(BundleDealState, StateAgrees(b.deal, b.events))];
    match expectedKey
    case None => schema + [Check(BundleExpectedKey, false)] + SectionChecks(b) + state
    case Some(key) =>
      schema + [Check(BundleKey, b.publicKey.key == key)] + ReportedChecks(b.events, key) + SectionChecks(b)
      + [Check(BundleSummarySignature, SummarySigned(b, key))] + state
  }

  lemma AllOkOfAppend(a: seq<Check>, b: seq<Check>)
    ensures AllOk(a + b) <==> AllOk(a) && AllOk(b)
  {
    if AllOk(a + b) {
      forall c | c in a ensures c.ok { assert c in a + b; }
      forall c | c in b ensures c.ok { assert c in a + b; }
    }
  }

  lemma AllOkOfOne(c: Check)
    ensures AllOk([c]) <==> c.ok
  {
    assert c in [c];
  }

  lemma SectionsOkIffBound(b: EvidenceBundle)
    ensures AllOk(SectionChecks(b)) <==> b.summary == Summarise(b.events, b.records, b.revocations)
  {
    var cs := SectionChecks(b);
    assert cs[0] in cs && cs[1] in cs && cs[2] in cs && cs[3] in cs && cs[4] in cs;
  }

  // The checks come out clean exactly for sound bundles checked against a usable key.
  lemma BundleOkIffValid(b: EvidenceBundle, expectedKey: Option<Key>)
    requires Serialisable(b.events)
    ensures AllOk(BundleChecks(b, expectedKey)) <==> expectedKey.Some? && BundleValid(b, expectedKey.value)
  {
    var schema := Check(BundleSchema, b.schemaVersion == BUNDLE_SCHEMA);
    var state := Check(BundleDealState, StateAgrees(b.deal, b.events));
    AllOkOfOne(schema);
    AllOkOfOne(state);
    SectionsOkIffBound(b);
    if expectedKey.None? {
      var second := Check(BundleExpectedKey, false);
      assert BundleChecks(b, expectedKey)[1] == second;
      assert second in BundleChecks(b, expectedKey);
    } else {
      var key := expectedKey.value;
      var named := Check(BundleKey, b.publicKey.key == key);
      var signed := Check(BundleSummarySignature, SummarySigned(b, key));
      var events := ReportedChecks(b.events, key);
      AllOkOfOne(named);
      AllOkOfOne(signed);
      ReportOkIffChainValid(b.events, key);
      AllOkOfAppend([schema], [named]);
      AllOkOfAppend([schema] + [named], events);
      AllOkOfAppend([schema] + [named] + events, SectionChecks(b));
      AllOkOfAppend([schema] + [named] + events + SectionChecks(b), [signed]);
      AllOkOfAppend([schema] + [named] + events + SectionChecks(b) + [signed], [state]);
    }
  }

  // One event of the bundle; `raised` is the ValueError that canonicalising the form lets through.
  method VerifyEvent(index: int, e: Event, previous: Hash, key: Key) returns (raised: bool, checks: seq<Check>,
                     allOk: bool)
    ensures raised <==> e.form.payload.Unserialisable?
    ensures !raised ==> checks == EventChecks(index, e, previous, key) && (allOk <==> EventSound(e, index, previous, key))
  {
    checks := [];
    if e.form.payload.Unserialisable? {
      checks := checks + [Check(PayloadHashCheck(index), false)];
      return true, checks, false;
    }
    checks := checks + [Check(PayloadHashCheck(index), e.form.payloadHash == OfPayload(e.form.payload))];
    checks := checks + [Check(EventHashCheck(index), e.eventHash == OfForm(e.form))];
    if e.signature.algorithm != ALGORITHM {
      checks := checks + [Check(SignatureCheck(index), false)];
    } else {
      checks := checks + [Check(SignatureCheck(index), e.signature.value == By(key, e.form))];
    }
    checks := checks + [Check(SequenceCheck(index), e.form.sequenceNumber == index)];
    checks := checks + [Check(ChainLinkCheck(index), e.form.previousEventHash == previous)];
    assert checks == EventChecks(index, e, previous, key);
    raised, allOk := false, forall c | c in checks :: c.ok;
  }

  // The event loop of the bundle verifier makes the very checks of the in-ledger verifier.
  method VerifyEvents(events: seq<Event>, key: Key) returns (raised: bool, checks: seq<Check>)
    ensures raised <==> !Serialisable(events)
    ensures !raised ==> checks == ReportedChecks(events, key)
  {
    checks := [];
    var previous := Genesis;
    var index := 0;
    while index < |events|
      invariant 0 <= index <= |events|
      invariant Serialisable(events[..index])
      invariant checks == ReportedChecks(events[..index], key)
      invariant previous == LastGood(events[..index], key)
    {
      var failed, eventChecks, allOk := VerifyEvent(index, events[index], previous, key);
      ReportedStep(events, index, key);
      if failed {
        return true, checks;
      }
      checks := checks + eventChecks;
      if allOk {
        previous := events[index].eventHash;
      }
      index := index + 1;
    }
    assert events[..|events|] == events;
    raised := false;
  }

  method VerifySummarySignature(b: EvidenceBundle, key: Key) returns (check: Check)
    ensures check == Check(BundleSummarySignature, SummarySigned(b, key))
  {
    if b.signature.algorithm != ALGORITHM {
      return Check(BundleSummarySignature, false);
    }
    if b.signature.keyId != b.publicKey.keyId {
      return Check(BundleSummarySignature, false);
    }
    var expected := MessageOf(b.deal.dealId, b.publicKey.keyId, b.summary);
    check := Check(BundleSummarySignature, b.signature.value == By(key, expected));
  }

  method FinalStateAgrees(deal: Deal, events: seq<Event>) returns (ok: bool)
    ensures ok <==> StateAgrees(deal, events)
  {
    var n := |events|;
    assert events[..n] == events;
    while n > 0
      invariant 0 <= n <= |events|
      invariant LastTransition(events[..n]) == LastTransition(events)
    {
      var e := events[n - 1];
      assert events[..n][..n - 1] == events[..n - 1];
      if e.form.eventType.StateTransition? {
        return e.form.payload.IsTransition() && e.form.payload.toState == deal.state;
      }
      n := n - 1;
    }
    ok := true;
  }

  datatype BundleReport = ReportRaised | BundleReport(ok: bool, checks: seq<Check>)

  // Clean exactly for a sound bundle checked against a usable key known beforehand.
  method VerifyBundle(b: EvidenceBundle, expectedKey: Option<Key>) returns (report: BundleReport)
    ensures report.ReportRaised? <==> !Serialisable(b.events)
    ensures report.BundleReport? ==>
      && report.checks == BundleChecks(b, expectedKey)
      && (report.ok <==> expectedKey.Some? && BundleValid(b, expectedKey.value))
  {
    var checks := [Check(BundleSchema, b.schemaVersion == BUNDLE_SCHEMA)];
    if expectedKey.None? {
      checks := checks + [Check(BundleExpectedKey, false)];
    } else {
      checks := checks + [Check(BundleKey, b.publicKey.key == expectedKey.value)];
      var raised, eventChecks := VerifyEvents(b.events, expectedKey.value);
      if raised {
        return ReportRaised;
      }
      checks := checks + eventChecks;
    }
    if !Serialisable(b.events) {
      return ReportRaised;
    }
    checks := checks + SectionChecks(b);
    if expectedKey.Some? {
      var signed := VerifySummarySignature(b, expectedKey.value);
      checks := checks + [signed];
    }
    var agrees := FinalStateAgrees(b.deal, b.events);
    checks := checks + [Check(BundleDealState, agrees)];
    BundleOkIffValid(b, expectedKey);
    report := BundleReport(forall c | c in checks :: c.ok, checks);
  }

  /* ----- complete: what a ledger exports verifies ----- */

  lemma {:induction false} LastTransitionIsLastState(start: DealState, events: seq<Event>)
    requires forall e | e in events :: e.form.eventType == EventTypeOf(e.form.payload)
    ensures LastTransition(events).None? ==> LastState(start, Payloads(events)) == start
    ensures LastTransition(events).Some? ==>
      LastTransition(events).value.form.payload.IsTransition()
      && LastTransition(events).value.form.payload.toState == LastState(start, Payloads(events))
    decreases |events|
  {
    if events != [] {
      var n := |events| - 1;
      assert events[n] in events;
      LastTransitionIsLastState(start, events[..n]);
      assert Payloads(events)[..n] == Payloads(events[..n]);
    }
  }

  lemma SoundDealBundleVerifies(deal: Deal, chain: seq<Event>, d: Id, signer: Signer, exportedAt: Instant,
                                createdAt: Instant,
                                records: seq<AuthorityRecord>, revocations: seq<Revocation>)
    requires DealSound(deal, chain, d, signer.key)
    ensures var b := BuildBundle(exportedAt, deal, createdAt, chain, records, revocations, signer);
      b.Some? && BundleValid(b.value, signer.key)
  {
    forall e | e in chain ensures !e.form.payload.Unserialisable? {
      var i :| 0 <= i < |chain| && chain[i] == e;
      assert SoundAt(chain, i, signer.key);
    }
    ReplayCounts(NewDeal(d), Payloads(chain));
    LastTransitionIsLastState(DealState.Draft, chain);
  }

  // In every state of every run, the bundle of any stored deal builds and verifies.
  lemma EveryExportVerifies(trace: seq<Ledger>, steps: seq<Step>, signer: Signer, i: nat, d: Id,
                            exportedAt: Instant, createdAt: Instant, records: seq<AuthorityRecord>,
                            revocations: seq<Revocation>)
    requires Run(trace, steps, signer) && i < |trace| && d in trace[i].deals
    ensures d in trace[i].chains
    ensures var b := BuildBundle(
        exportedAt, trace[i].deals[d], createdAt, trace[i].chains[d], records, revocations, signer);
      b.Some? && BundleValid(b.value, signer.key)
  {
    EveryRunIsSound(trace, steps, signer, i);
    assert DealSound(trace[i].deals[d], trace[i].chains[d], d, signer.key);
    SoundDealBundleVerifies(trace[i].deals[d], trace[i].chains[d], d, signer, exportedAt, createdAt, records,
      revocations);
  }

  /* ----- sound: what verifies is what was exported ----- */

  predicate MadeBy(b: EvidenceBundle, signer: Signer) {
    BuildBundle(b.exportedAt, b.deal, b.createdAt, b.events, b.records, b.revocations, signer) == Some(b)
  }

  // The chain key signs summaries only inside BuildBundle: a summary signature by that key is one
  // of those made for the bundles in `made`.
  predicate SignedOnlyWithin(sig: Signature<SummaryMessage>, signer: Signer, made: set<EvidenceBundle>) {
    sig.value.By? && sig.value.key == signer.key ==> exists h | h in made :: h.signature.value == sig.value
  }

  // Nothing but an honest export passes: same deal, events, records and revocations, in the same
  // order, so no truncated, reordered, edited or spliced re-export verifies.
  lemma PassingBundleIsAnExport(b: EvidenceBundle, signer: Signer, made: set<EvidenceBundle>)
    requires BundleValid(b, signer.key) && SignedOnlyWithin(b.signature, signer, made)
    requires forall h | h in made :: MadeBy(h, signer)
    ensures exists h | h in made ::
      && h.deal.dealId == b.deal.dealId && h.events == b.events
      && h.records == b.records && h.revocations == b.revocations && h.publicKey.keyId == b.publicKey.keyId
  {
    var h :| h in made && h.signature.value == b.signature.value;
    assert h.summary == Summarise(h.events, h.records, h.revocations);
  }

  // The bundle is an export of deal d as the ledger holds it.
  predicate ExportedAt(h: EvidenceBundle, l: Ledger, d: Id, signer: Signer) {
    && d in l.deals && d in l.chains
    && BuildBundle(h.exportedAt, l.deals[d], h.createdAt, l.chains[d], h.records, h.revocations, signer) == Some(h)
  }

  ghost predicate ExportedFrom(h: EvidenceBundle, trace: seq<Ledger>, signer: Signer) {
    exists i: nat, d :: i < |trace| && ExportedAt(h, trace[i], d, signer)
  }

  // b shows the chain l holds, under its id, with the stored state once there is a transition.
  predicate Shows(b: EvidenceBundle, l: Ledger) {
    var d := b.deal.dealId;
    && d in l.deals && d in l.chains
    && b.events == l.chains[d]
    && (LastTransition(b.events).Some? ==> b.deal.state == l.deals[d].state)
  }

  lemma ValidBundleHasTheDealState(b: EvidenceBundle, deal: Deal, d: Id, key: Key)
    requires BundleValid(b, key) && DealSound(deal, b.events, d, key)
    ensures LastTransition(b.events).Some? ==> b.deal.state == deal.state
  {
    ReplayCounts(NewDeal(d), Payloads(b.events));
    LastTransitionIsLastState(DealState.Draft, b.events);
  }

  lemma ExportShows(b: EvidenceBundle, h: EvidenceBundle, l: Ledger, d: Id, signer: Signer)
    requires Sound(l, signer.key) && BundleValid(b, signer.key) && ExportedAt(h, l, d, signer)
    requires h.deal.dealId == b.deal.dealId && h.events == b.events
    ensures Shows(b, l)
  {
    hide BundleValid;
    assert DealSound(l.deals[d], l.chains[d], d, signer.key);
    ValidBundleHasTheDealState(b, l.deals[d], d, signer.key);
  }

  // A passing bundle shows a chain the ledger really held, under the id and in the state it then had.
  lemma PassingBundleShowsTheLedger(b: EvidenceBundle, trace: seq<Ledger>, steps: seq<Step>, signer: Signer,
                                    made: set<EvidenceBundle>)
    requires Run(trace, steps, signer) && BundleValid(b, signer.key) && SignedOnlyWithin(b.signature, signer, made)
    requires forall h | h in made :: ExportedFrom(h, trace, signer)
    ensures exists i: nat | i < |trace| :: Shows(b, trace[i])
  {
    forall h | h in made ensures MadeBy(h, signer) { assert ExportedFrom(h, trace, signer); }
    PassingBundleIsAnExport(b, signer, made);
    hide BundleValid, Sound;
    var h :| h in made && h.deal.dealId == b.deal.dealId && h.events == b.events;
    assert ExportedFrom(h, trace, signer);
    var i: nat, d :| i < |trace| && ExportedAt(h, trace[i], d, signer);
    hide ExportedAt, Shows;
    EveryRunIsSound(trace, steps, signer, i);
    ExportShows(b, h, trace[i], d, signer);
  }

  // The re-exported truncation: drop the tail, recompute the summary, restate the deal's state, keep the signature.
  function Truncated(b: EvidenceBundle, n: nat, deal: Deal): EvidenceBundle
    requires n <= |b.events|
  {
    var events := b.events[..n];
    b.(deal := deal, events := events, summary := Summarise(events, b.records, b.revocations))
  }

  // It fails on the summary signature and on nothing else.
  lemma TruncationFailsOnlyOnTheSignature(b: EvidenceBundle, n: nat, deal: Deal, signer: Signer)
    requires MadeBy(b, signer) && BundleValid(b, signer.key) && n < |b.events|
    requires StateAgrees(deal, b.events[..n])
    ensures var forged := Truncated(b, n, deal);
      && Serialisable(forged.events)
      && !AllOk(BundleChecks(forged, Some(signer.key)))
      && forall c | c in BundleChecks(forged, Some(signer.key)) :: !c.ok <==> c.name.BundleSummarySignature?
  {
    hide ReportedChecks, ChainValid, StateAgrees, LastGood, EventChecks;
    var forged := Truncated(b, n, deal);
    var key := signer.key;
    PrefixOfValidIsValid(b.events, n, key);
    assert Serialisable(forged.events) by {
      forall e | e in forged.events ensures !e.form.payload.Unserialisable? { assert e in b.events; }
    }
    ReportOkIffChainValid(forged.events, key);
    SectionsOkIffBound(forged);
    NoSignatureNameAmongEvents(forged.events, key);
    assert !SummarySigned(forged, key);
    hide SummarySigned, Summarise;
    BundleOkIffValid(forged, Some(key));
  }

  lemma {:induction false} NoSignatureNameAmongEvents(events: seq<Event>, key: Key)
    ensures forall c | c in ReportedChecks(events, key) :: !c.name.BundleSummarySignature?
    decreases |events|
  {
    if events != [] { NoSignatureNameAmongEvents(events[..|events| - 1], key); }
  }

  // What a passing bundle says about the deal row: its id, and its state once there is a transition.
  // The counters and the creation time may be anything.
  lemma VerificationBindsIdAndState(b: EvidenceBundle, key: Key, other: Deal, createdAt: Instant)
    requires BundleValid(b, key)
    ensures BundleValid(b.(deal := other, createdAt := createdAt), key) <==>
      other.dealId == b.deal.dealId && (LastTransition(b.events).Some? ==> other.state == b.deal.state)
  {
  }
}
