/** Symbolic signatures: a value is either unusable text or "this key over this message". */
module Crypto {
  import opened Common

  // A key pair is identified by a number; holding the number as a signer is holding the private half.
  type Key = nat
  datatype Signer = Signer(keyId: Id, key: Key)

  datatype SigValue<M> = Malformed | By(key: Key, message: M)
  datatype Signature<M> = Signature(algorithm: string, keyId: Id, value: SigValue<M>)

  const ALGORITHM := "Ed25519"

  function Sign<M>(signer: Signer, message: M): Signature<M> {
    Signature(ALGORITHM, signer.keyId, By(signer.key, message))
  }

  // The event and summary check: algorithm, then the key over the exact message.
  predicate SignedBy<M(==)>(sig: Signature<M>, key: Key, message: M) {
    sig.algorithm == ALGORITHM && sig.value == By(key, message)
  }

  // crypto/verification.py _check: the key id must match as well.
  predicate SignedAs<M(==)>(sig: Signature<M>, signer: Signer, message: M) {
    sig.keyId == signer.keyId && SignedBy(sig, signer.key, message)
  }
}

/** The signed mandate, its lifecycle and its delegation chain (domain/authority.py, domain/lifecycle.py). */
module Authority {
  import opened Common
  import opened Deals
  import opened Crypto

  datatype RecordStatus = Active | Revoked | Expired

  datatype SpendCap = SpendCap(currency: string, amountMinor: nat)

  // An authority record without its signature.
  datatype Mandate = Mandate(
    recordId: Id, agentId: Id, counterpartyId: Option<Id>,
    allowedActions: seq<ActionToken>, prohibitedActions: seq<ActionToken>,
    spendCap: SpendCap, maxNegotiationRounds: int, disclosureFields: seq<string>,
    requiresHumanApprovalFor: seq<ActionToken>,
    notBefore: Instant, expiresAt: Instant, parentRecordId: Option<Id>,
    status: RecordStatus, nonce: string)

  datatype AuthorityRecord = AuthorityRecord(terms: Mandate, signature: Signature<Mandate>)

  datatype RevocationFact = RevocationFact(revocationId: Id, recordId: Id, revokedAt: Instant)
  datatype Revocation = Revocation(fact: RevocationFact, signature: Signature<RevocationFact>)

  datatype DelegationLink = DelegationLink(parentRecordId: Id, scopeNarrowingValid: bool)
  datatype AuthorityClaim = AuthorityClaim(
    record: AuthorityRecord, signatureValid: bool, delegationChain: seq<DelegationLink>, status: RecordStatus)

  function ResolveStatus(record: Mandate, now: Instant, revoked: bool): RecordStatus {
    if revoked || record.status.Revoked? then Revoked
    else if now > record.expiresAt then RecordStatus.Expired
    else Active
  }

  predicate RevocationApplies(revocation: Revocation, recordId: Id, now: Instant) {
    revocation.fact.recordId == recordId && revocation.fact.revokedAt <= now
  }

  // A validly signed revocation of the record has arrived by `now`.
  predicate RevokedFor(revocations: map<Id, Revocation>, signer: Signer, recordId: Id, now: Instant) {
    exists id | id in revocations ::
      var r := revocations[id];
      SignedAs(r.signature, signer, r.fact) && RevocationApplies(r, recordId, now)
  }

  // application/claims.py: only a validly signed revocation counts at the boundary.
  function BuildClaim(revocations: map<Id, Revocation>, signer: Signer, record: AuthorityRecord, now: Instant)
    : AuthorityClaim
  {
    var revoked := RevokedFor(revocations, signer, record.terms.recordId, now);
    AuthorityClaim(
      record, SignedAs(record.signature, signer, record.terms), [],
      ResolveStatus(record.terms, now, revoked))
  }

  // The claim says of the record what its signature, its dates and the stored revocations say: it is
  // revoked if and only if it is itself, or by a revocation of it that this signer made and that has come
  // into effect.
  lemma ClaimWrittenOut(revocations: map<Id, Revocation>, signer: Signer, record: AuthorityRecord, now: Instant)
    ensures var claim := BuildClaim(revocations, signer, record, now);
      && claim.record == record && claim.delegationChain == []
      && (claim.signatureValid <==> record.signature == Signature("Ed25519", signer.keyId, By(signer.key, record.terms)))
      && (claim.status.Revoked? <==>
            record.terms.status.Revoked?
            || exists id | id in revocations ::
                 && revocations[id].fact.recordId == record.terms.recordId && revocations[id].fact.revokedAt <= now
                 && revocations[id].signature == Signature("Ed25519", signer.keyId, By(signer.key, revocations[id].fact)))
      && (claim.status.Expired? <==> !claim.status.Revoked? && record.terms.expiresAt < now)
  {
    var claim := BuildClaim(revocations, signer, record, now);
    if RevokedFor(revocations, signer, record.terms.recordId, now) {
      var id :| id in revocations && SignedAs(revocations[id].signature, signer, revocations[id].fact)
        && RevocationApplies(revocations[id], record.terms.recordId, now);
      assert revocations[id].fact.recordId == record.terms.recordId;
    }
  }

  /* ----- narrowing ----- */

  datatype ScopeViolation =
    | AllowedActionsNotSubset | ProhibitedActionsNotSuperset | SpendCapCurrencyMismatch
    | SpendCapExceedsParent | MaxRoundsExceedParent | DisclosureFieldsNotSubset
    | ApprovalGatesNotSuperset | NotBeforeEarlierThanParent | ExpiresAfterParent
    | CounterpartyMismatchWithParent

  predicate Subset<T(==)>(a: seq<T>, b: seq<T>) { forall x | x in a :: x in b }

  predicate Violates(child: Mandate, parent: Mandate, v: ScopeViolation) {
    match v
    case AllowedActionsNotSubset => !Subset(child.allowedActions, parent.allowedActions)
    case ProhibitedActionsNotSuperset => !Subset(parent.prohibitedActions, child.prohibitedActions)
    case SpendCapCurrencyMismatch => child.spendCap.currency != parent.spendCap.currency
    case SpendCapExceedsParent =>
      child.spendCap.currency == parent.spendCap.currency && child.spendCap.amountMinor > parent.spendCap.amountMinor
    case MaxRoundsExceedParent => child.maxNegotiationRounds > parent.maxNegotiationRounds
    case DisclosureFieldsNotSubset => !Subset(child.disclosureFields, parent.disclosureFields)
    case ApprovalGatesNotSuperset => !Subset(parent.requiresHumanApprovalFor, child.requiresHumanApprovalFor)
    case NotBeforeEarlierThanParent => child.notBefore < parent.notBefore
    case ExpiresAfterParent => child.expiresAt > parent.expiresAt
    case CounterpartyMismatchWithParent =>
      parent.counterpartyId.Some? && child.counterpartyId != parent.counterpartyId
  }

  // The table of ADR-0006 read as one condition: the child asks for no more than the parent has.
  predicate Narrows(child: Mandate, parent: Mandate) {
    && Subset(child.allowedActions, parent.allowedActions)
    && Subset(parent.prohibitedActions, child.prohibitedActions)
    && child.spendCap.currency == parent.spendCap.currency
    && child.spendCap.amountMinor <= parent.spendCap.amountMinor
    && child.maxNegotiationRounds <= parent.maxNegotiationRounds
    && Subset(child.disclosureFields, parent.disclosureFields)
    && Subset(parent.requiresHumanApprovalFor, child.requiresHumanApprovalFor)
    && parent.notBefore <= child.notBefore
    && child.expiresAt <= parent.expiresAt
    && (parent.counterpartyId.Some? ==> child.counterpartyId == parent.counterpartyId)
  }

  lemma NarrowsIsTransitive(a: Mandate, b: Mandate, c: Mandate)
    requires Narrows(a, b) && Narrows(b, c)
    ensures Narrows(a, c)
  {
  }

  // The order in which the report lists the rows.
  function Row(v: ScopeViolation): nat {
    match v
    case AllowedActionsNotSubset => 0
    case ProhibitedActionsNotSuperset => 1
    case SpendCapCurrencyMismatch => 2
    case SpendCapExceedsParent => 3
    case MaxRoundsExceedParent => 4
    case DisclosureFieldsNotSubset => 5
    case ApprovalGatesNotSuperset => 6
    case NotBeforeEarlierThanParent => 7
    case ExpiresAfterParent => 8
    case CounterpartyMismatchWithParent => 9
  }

  // `vs` lists the violated rows numbered below k, in order.
  ghost predicate ListsRowsBelow(vs: seq<ScopeViolation>, child: Mandate, parent: Mandate, k: nat) {
    && (forall v {:trigger v in vs} :: v in vs <==> Violates(child, parent, v) && Row(v) < k)
    && (forall i, j | 0 <= i < j < |vs| :: Row(vs[i]) < Row(vs[j]))
  }

  lemma ListNextRow(vs: seq<ScopeViolation>, child: Mandate, parent: Mandate, v: ScopeViolation)
    requires ListsRowsBelow(vs, child, parent, Row(v))
    ensures ListsRowsBelow(if Violates(child, parent, v) then vs + [v] else vs, child, parent, Row(v) + 1)
  {
    forall u | Row(u) == Row(v) ensures u == v { }
    var next := if Violates(child, parent, v) then vs + [v] else vs;
    assert forall u :: u in next <==> u in vs || (u == v && Violates(child, parent, v));
    forall i | 0 <= i < |vs| ensures Row(vs[i]) < Row(v) { assert vs[i] in vs; }
  }

  method Check(vs: seq<ScopeViolation>, broken: bool, v: ScopeViolation, ghost child: Mandate, ghost parent: Mandate)
    returns (next: seq<ScopeViolation>)
    requires ListsRowsBelow(vs, child, parent, Row(v)) && (broken <==> Violates(child, parent, v))
    ensures ListsRowsBelow(next, child, parent, Row(v) + 1)
  {
    ListNextRow(vs, child, parent, v);
    next := if broken then vs + [v] else vs;
  }

  // The report lists exactly the violated rows, in order; it is empty just when the child narrows the parent.
  method ScopeViolations(child: Mandate, parent: Mandate) returns (violations: seq<ScopeViolation>)
    ensures ListsRowsBelow(violations, child, parent, 10)
    ensures violations == [] <==> Narrows(child, parent)
  {
    hide ListsRowsBelow, Narrows;
    NothingListed(child, parent);
    violations := [];
    var mismatch := child.spendCap.currency != parent.spendCap.currency;
    violations := Check(violations, !Subset(child.allowedActions, parent.allowedActions), AllowedActionsNotSubset,
      child, parent);
    violations := Check(violations, !Subset(parent.prohibitedActions, child.prohibitedActions),
      ProhibitedActionsNotSuperset, child, parent);
    violations := Check(violations, mismatch, SpendCapCurrencyMismatch, child, parent);
    violations := Check(violations, !mismatch && child.spendCap.amountMinor > parent.spendCap.amountMinor,
      SpendCapExceedsParent, child, parent);
    violations := Check(violations, child.maxNegotiationRounds > parent.maxNegotiationRounds, MaxRoundsExceedParent,
      child, parent);
    violations := Check(violations, !Subset(child.disclosureFields, parent.disclosureFields),
      DisclosureFieldsNotSubset, child, parent);
    violations := Check(violations, !Subset(parent.requiresHumanApprovalFor, child.requiresHumanApprovalFor),
      ApprovalGatesNotSuperset, child, parent);
    violations := Check(violations, child.notBefore < parent.notBefore, NotBeforeEarlierThanParent, child, parent);
    violations := Check(violations, child.expiresAt > parent.expiresAt, ExpiresAfterParent, child, parent);
    violations := Check(violations, parent.counterpartyId.Some? && child.counterpartyId != parent.counterpartyId,
      CounterpartyMismatchWithParent, child, parent);
    ReportEmptyIffNarrows(violations, child, parent);
  }

  lemma NothingListed(child: Mandate, parent: Mandate)
    ensures ListsRowsBelow([], child, parent, 0)
  {
  }

  lemma ReportEmptyIffNarrows(vs: seq<ScopeViolation>, child: Mandate, parent: Mandate)
    requires ListsRowsBelow(vs, child, parent, 10)
    ensures vs == [] <==> Narrows(child, parent)
  {
    if vs == [] {
      forall v ensures !Violates(child, parent, v) { assert v !in vs; }
      NoViolationNarrows(child, parent);
    } else {
      assert vs[0] in vs;
    }
  }

  lemma NoViolationNarrows(child: Mandate, parent: Mandate)
    requires forall v :: !Violates(child, parent, v)
    ensures Narrows(child, parent)
  {
    assert !Violates(child, parent, AllowedActionsNotSubset);
    assert !Violates(child, parent, ProhibitedActionsNotSuperset);
    assert !Violates(child, parent, SpendCapCurrencyMismatch);
    assert !Violates(child, parent, SpendCapExceedsParent);
    assert !Violates(child, parent, MaxRoundsExceedParent);
    assert !Violates(child, parent, DisclosureFieldsNotSubset);
    assert !Violates(child, parent, ApprovalGatesNotSuperset);
    assert !Violates(child, parent, NotBeforeEarlierThanParent);
    assert !Violates(child, parent, ExpiresAfterParent);
    assert !Violates(child, parent, CounterpartyMismatchWithParent);
  }

  /* ----- the walk ----- */

  datatype WalkViolation =
    | CycleAt(parentId: Id)
    | UnresolvableParent(parentId: Id)
    | Scope(parentId: Id, violation: ScopeViolation)
    | Ancestor(parentId: Id, status: RecordStatus)

  predicate IsParentOf(parent: Mandate, child: Mandate, records: map<Id, Mandate>) {
    && child.parentRecordId.Some?
    && child.parentRecordId.value in records
    && parent == records[child.parentRecordId.value]
  }

  // path[0] is the record and each next element is what the map holds for the parent id of the one before.
  predicate ParentPath(path: seq<Mandate>, records: map<Id, Mandate>) {
    && |path| > 0
    && (|path| > 1 ==> IsParentOf(path[1], path[0], records) && ParentPath(path[1..], records))
  }

  // One sound hop from child to parent at an optional instant.
  predicate SoundHop(child: Mandate, parent: Mandate, now: Option<Instant>) {
    && Narrows(child, parent)
    && (now.Some? ==> ResolveStatus(parent, now.value, false).Active?)
  }

  // The chain above `cursor` ends at a root, repeats no id of `seen`, and every hop is sound.
  predicate SoundChain(cursor: Mandate, records: map<Id, Mandate>, now: Option<Instant>, seen: set<Id>)
    decreases records.Keys - seen
  {
    cursor.parentRecordId.Some? ==>
      var id := cursor.parentRecordId.value;
      id !in seen && id in records && SoundHop(cursor, records[id], now)
      && SoundChain(records[id], records, now, seen + {id})
  }

  // What the walk has to report from `cursor` upward: every broken rule and every inactive ancestor of
  // every hop, up to a root, or to the first parent that is missing or already passed.
  predicate Reported(v: WalkViolation, cursor: Mandate, records: map<Id, Mandate>, now: Option<Instant>, seen: set<Id>)
    decreases records.Keys - seen
  {
    cursor.parentRecordId.Some? &&
    var id := cursor.parentRecordId.value;
    if id in seen then v == CycleAt(id)
    else if id !in records then v == UnresolvableParent(id)
    else
      || (v.Scope? && v.parentId == id && Violates(cursor, records[id], v.violation))
      || (now.Some? && !ResolveStatus(records[id], now.value, false).Active?
          && v == Ancestor(id, ResolveStatus(records[id], now.value, false)))
      || Reported(v, records[id], records, now, seen + {id})
  }

  // One hop's scope report, filed under the parent.
  function Filed(parentId: Id, found: seq<ScopeViolation>): (vs: seq<WalkViolation>)
    ensures |vs| == |found| && forall v :: v in vs <==> v.Scope? && v.parentId == parentId && v.violation in found
  {
    var vs := seq(|found|, i requires 0 <= i < |found| => Scope(parentId, found[i]));
    assert forall i | 0 <= i < |found| :: vs[i] == Scope(parentId, found[i]);
    vs
  }

  // domain/lifecycle.py delegation_violations: terminates on every record map, reports exactly what
  // is wrong, and so reports nothing exactly when the whole chain is sound.
  method DelegationViolations(record: Mandate, records: map<Id, Mandate>, now: Option<Instant>)
    returns (violations: seq<WalkViolation>)
    ensures violations == [] <==> SoundChain(record, records, now, {record.recordId})
    ensures forall v :: v in violations <==> Reported(v, record, records, now, {record.recordId})
  {
    violations := [];
    var seen: set<Id> := {record.recordId};
    var cursor := record;
    while cursor.parentRecordId.Some?
      invariant violations == [] ==>
        (SoundChain(cursor, records, now, seen) <==> SoundChain(record, records, now, {record.recordId}))
      invariant violations != [] ==> !SoundChain(record, records, now, {record.recordId})
      invariant forall v :: Reported(v, record, records, now, {record.recordId}) <==>
        v in violations || Reported(v, cursor, records, now, seen)
      decreases records.Keys - seen
    {
      var parentId := cursor.parentRecordId.value;
      if parentId in seen {
        violations := violations + [CycleAt(parentId)];
        break;
      }
      if parentId !in records {
        violations := violations + [UnresolvableParent(parentId)];
        break;
      }
      var parent := records[parentId];
      var found := ScopeViolations(cursor, parent);
      violations := violations + Filed(parentId, found);
      if now.Some? && !ResolveStatus(parent, now.value, false).Active? {
        violations := violations + [Ancestor(parentId, ResolveStatus(parent, now.value, false))];
      }
      seen := seen + {parentId};
      cursor := parent;
    }
  }

  // Along a sound chain the record narrows every ancestor, however far up, and each is still active.
  lemma {:induction false} SoundChainNarrowsEveryAncestor(
      path: seq<Mandate>, records: map<Id, Mandate>, now: Option<Instant>, seen: set<Id>)
    requires ParentPath(path, records) && |path| > 1
    requires SoundChain(path[0], records, now, seen)
    ensures SoundHop(path[0], path[|path| - 1], now)
    decreases |path|
  {
    if |path| > 2 {
      var rest := path[1..];
      SoundChainNarrowsEveryAncestor(rest, records, now, seen + {path[0].parentRecordId.value});
      NarrowsIsTransitive(path[0], path[1], rest[|rest| - 1]);
    }
  }

  // A chain that returns to an id it already passed is never reported sound.
  lemma {:induction false} CycleIsNeverSound(
      path: seq<Mandate>, records: map<Id, Mandate>, now: Option<Instant>, seen: set<Id>)
    requires ParentPath(path, records)
    requires path[|path| - 1].parentRecordId.Some?
    requires
      || path[|path| - 1].parentRecordId.value in seen
      || exists i :: 0 <= i < |path| - 1 && path[i].parentRecordId == path[|path| - 1].parentRecordId
    ensures !SoundChain(path[0], records, now, seen)
    decreases |path|
  {
    if |path| > 1 && SoundChain(path[0], records, now, seen) {
      CycleIsNeverSound(path[1..], records, now, seen + {path[0].parentRecordId.value});
    }
  }
}
