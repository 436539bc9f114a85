/**
 * Inputs on which the code does not do what a reader of its documentation would expect. Each is the
 * failing side of an exact condition proved elsewhere.
 */
module Witnesses {
  import opened Common
  import opened Deals
  import opened Crypto
  import opened Authority
  import opened Policy
  import opened Plans
  import opened Ledger
  import opened Runs

  /* ----- mandates and revocations ----- */

  function MandateOf(id: Id, parent: Option<Id>): Mandate {
    Mandate(id, "agent", None, [RequestQuote, Counteroffer], [], SpendCap("EUR", 100), 1, [], [], 0, 10, parent,
      Active, "nonce-" + id)
  }

  function Signed(signer: Signer, terms: Mandate): AuthorityRecord { AuthorityRecord(terms, Sign(signer, terms)) }

  function RevocationOf(signer: Signer, revocationId: Id, recordId: Id): Revocation {
    var fact := RevocationFact(revocationId, recordId, 3);
    Revocation(fact, Sign(signer, fact))
  }

  function RevokeStep(signer: Signer, dealId: Id, revocationId: Id, recordId: Id, commandId: Id): Step {
    Revoke(RevocationRequest(dealId, RevocationOf(signer, revocationId, recordId), commandId, Principal, "owner", 4, 4),
           Ids("m", "e1", "e2", "a"))
  }

  // The mandates of the stored records.
  function Terms(records: map<Id, AuthorityRecord>): map<Id, Mandate> { map id | id in records :: records[id].terms }

  // Two mandates registered, each with a deal of its own.
  function TwoRegistered(a: AuthorityRecord, b: AuthorityRecord): (ls: seq<Ledger>)
    ensures |ls| == 3 && ls[0] == EmptyLedger
  {
    var first := RegisterDealOn(EmptyLedger, "deal-1", a, 1);
    [EmptyLedger, first, RegisterDealOn(first, "deal-2", b, 1)]
  }

  lemma TwoRegisteredLedger(a: AuthorityRecord, b: AuthorityRecord)
    requires a.terms.recordId != b.terms.recordId
    ensures var l := TwoRegistered(a, b)[2];
      && l.records == map[a.terms.recordId := a, b.terms.recordId := b] && l.revocations == map[] && l.seenCommands ==
        {}
      && l.deals == map["deal-1" := NewDeal("deal-1"), "deal-2" := NewDeal("deal-2")]
  {
  }

  // A revocation commits when its deal and record are stored, its command is new and the record has none.
  lemma RevocationCommits(l: Ledger, req: RevocationRequest, ids: Ids, signer: Signer)
    requires req.dealId in l.deals && req.commandId !in l.seenCommands && req.revocation.fact.recordId in l.records
    requires l.records[req.revocation.fact.recordId].terms.recordId == req.revocation.fact.recordId
    requires !HasRevocation(l.revocations, req.revocation.fact.recordId)
    ensures var l' := Next(l, Revoke(req, ids), signer);
      && l'.revocations == l.revocations[req.revocation.fact.revocationId := req.revocation]
      && l'.records == l.records && l'.deals == l.deals && l'.seenCommands == l.seenCommands + {req.commandId}
  {
    hide Extended;
  }

  // Two registrations and any revocations after them make a run.
  lemma RunOf(a: AuthorityRecord, b: AuthorityRecord, revokes: seq<Step>, more: seq<Ledger>, signer: Signer)
    requires |more| == |revokes| && (forall i | 0 <= i < |revokes| :: revokes[i].Revoke?)
    requires var trace := TwoRegistered(a, b) + more;
      forall i | 0 <= i < |revokes| :: trace[i + 3] == Next(trace[i + 2], revokes[i], signer)
    ensures Run(TwoRegistered(a, b) + more, [Register("deal-1", a, 1), Register("deal-2", b, 1)] + revokes, signer)
  {
    hide RegisterDealOn, CommitRevocationOn;
    var trace := TwoRegistered(a, b) + more;
    var steps := [Register("deal-1", a, 1), Register("deal-2", b, 1)] + revokes;
    forall i | 0 <= i < |steps| ensures StepAt(trace, steps, signer, i) {
      if i >= 2 {
        assert steps[i] == revokes[i - 2] && steps[i].Revoke?;
      } else {
        assert trace[i] == TwoRegistered(a, b)[i] && trace[i + 1] == TwoRegistered(a, b)[i + 1];
      }
    }
  }

  /* ----- a revoked parent ----- */

  // A quote request under the child, judged on the claim the boundary builds at time 5.
  function ChildProposal(l: Ledger, signer: Signer): PolicyInput {
    PolicyInput(
      "0.1", "request", 5, Actor(Agent, "agent"),
        BuildClaim(l.revocations, signer, Signed(signer, MandateOf("child", Some("parent"))), 5),
      None, NewDeal("deal-2"), Proposal(Token(RequestQuote), "deal-2", None, "EUR", [], "key", None), None)
  }

  // A parent revoked by a signed, stored revocation: the walk above its child still reports nothing, the
  // engine still allows the child, and it denies the very same proposal under the parent.
  lemma RevokedParentStillPasses(signer: Signer) returns (trace: seq<Ledger>, steps: seq<Step>, pi: PolicyInput)
    ensures Run(trace, steps, signer)
    ensures var l := trace[|steps|];
      var child, parent := MandateOf("child", Some("parent")), MandateOf("parent", None);
      && l.records == map["parent" := Signed(signer, parent), "child" := Signed(signer, child)]
      && pi.deal.dealId in l.deals && pi.deal == l.deals[pi.deal.dealId]
      && pi.authority == BuildClaim(l.revocations, signer, Signed(signer, child), pi.now)
      && RevokedFor(l.revocations, signer, "parent", pi.now)
      && SoundChain(child, Terms(l.records), Some(pi.now), {"child"})
      && Evaluate(pi).outcome.Allow?
      && Evaluate(pi.(authority := BuildClaim(l.revocations, signer, Signed(signer, parent),
        pi.now))).reasonCode.RecordRevoked?
  {
    hide Next, TwoRegistered, Run, Evaluate, SoundChain, RevokedFor, Terms;
    var child, parent := MandateOf("child", Some("parent")), MandateOf("parent", None);
    var a, b := Signed(signer, parent), Signed(signer, child);
    var step := RevokeStep(signer, "deal-1", "revocation", "parent", "command");
    TwoRegisteredLedger(a, b);
    var l := Next(TwoRegistered(a, b)[2], step, signer);
    RevocationCommits(TwoRegistered(a, b)[2], step.revocation, step.ids, signer);
    RunOf(a, b, [step], [l], signer);
    trace, steps := TwoRegistered(a, b) + [l], [Register("deal-1", a, 1), Register("deal-2", b, 1), step];
    assert [Register("deal-1", a, 1), Register("deal-2", b, 1)] + [step] == steps;
    pi := ChildProposal(l, signer);
    ParentIsRevokedAlone(l.revocations, signer);
    ChildChainIsSound(l.records, a, b, child, parent);
    ChildIsAllowed(l, signer);
  }

  lemma ParentIsRevokedAlone(revocations: map<Id, Revocation>, signer: Signer)
    requires revocations == map["revocation" := RevocationOf(signer, "revocation", "parent")]
    ensures RevokedFor(revocations, signer, "parent", 5) && !RevokedFor(revocations, signer, "child", 5)
  {
    assert "revocation" in revocations;
  }

  lemma ChildChainIsSound(records: map<Id, AuthorityRecord>, a: AuthorityRecord, b: AuthorityRecord, child: Mandate,
                          parent: Mandate)
    requires child == MandateOf("child", Some("parent")) && parent == MandateOf("parent", None)
    requires a.terms == parent && b.terms == child && records == map["parent" := a, "child" := b]
    ensures SoundChain(child, Terms(records), Some(5), {"child"})
  {
    assert Terms(records)["parent"] == parent;
    assert Narrows(child, parent);
  }

  lemma ChildIsAllowed(l: Ledger, signer: Signer)
    requires RevokedFor(l.revocations, signer, "parent", 5) && !RevokedFor(l.revocations, signer, "child", 5)
    ensures var pi := ChildProposal(l, signer);
      && Evaluate(pi).outcome.Allow?
      && Evaluate(pi.(authority := BuildClaim(l.revocations, signer, Signed(signer, MandateOf("parent", None)),
        5))).reasonCode.RecordRevoked?
  {
    hide RevokedFor;
    assert MandateOf("child", Some("parent")).allowedActions[0] == RequestQuote;
  }

  /* ----- a revocation id used twice ----- */

  // Two revocations under one id, of two records: after the second the first record is no longer revoked.
  lemma ReusedIdUnrevokes(signer: Signer) returns (trace: seq<Ledger>, steps: seq<Step>)
    ensures Run(trace, steps, signer) && |steps| == 4
    ensures steps[2].Revoke? && steps[2].revocation.revocation.fact.recordId == "first"
    ensures steps[3].Revoke? && steps[3].revocation.revocation.fact.recordId == "second"
    ensures RevokedFor(trace[3].revocations, signer, "first", 5)
    ensures forall now :: !RevokedFor(trace[4].revocations, signer, "first", now)
  {
    hide Next, TwoRegistered;
    var a, b := Signed(signer, MandateOf("first", None)), Signed(signer, MandateOf("second", None));
    var one := RevokeStep(signer, "deal-1", "revocation", "first", "command-1");
    var two := RevokeStep(signer, "deal-2", "revocation", "second", "command-2");
    TwoRegisteredLedger(a, b);
    var l := TwoRegistered(a, b)[2];
    var l1 := Next(l, one, signer);
    RevocationCommits(l, one.revocation, one.ids, signer);
    FirstIsRevoked(l1.revocations, signer);
    var l2 := Next(l1, two, signer);
    RevocationCommits(l1, two.revocation, two.ids, signer);
    SecondOverwrites(l2.revocations, signer);
    RunOf(a, b, [one, two], [l1, l2], signer);
    trace, steps := TwoRegistered(a, b) + [l1, l2], [Register("deal-1", a, 1), Register("deal-2", b, 1)] + [one, two];
  }

  lemma FirstIsRevoked(revocations: map<Id, Revocation>, signer: Signer)
    requires revocations == map["revocation" := RevocationOf(signer, "revocation", "first")]
    ensures RevokedFor(revocations, signer, "first", 5) && !HasRevocation(revocations, "second")
  {
    assert "revocation" in revocations;
  }

  lemma SecondOverwrites(revocations: map<Id, Revocation>, signer: Signer)
    requires revocations == map["revocation" := RevocationOf(signer, "revocation",
      "first")]["revocation" := RevocationOf(signer, "revocation", "second")]
    ensures forall now :: !RevokedFor(revocations, signer, "first", now)
  {
    assert revocations == map["revocation" := RevocationOf(signer, "revocation", "second")];
  }

  /* ----- asking for less ----- */

  // At the round limit a counteroffer over the cap is held for a person; brought back under it, denied.
  lemma LessIsDenied(signer: Signer) returns (pi: PolicyInput, less: nat)
    ensures pi.proposal.amountMinor.Some? && less < pi.proposal.amountMinor.value
    ensures Evaluate(pi).outcome.NeedsApproval? && Evaluate(pi).reasonCode.SpendCapExceeded?
    ensures var lower := Evaluate(pi.(proposal := pi.proposal.(amountMinor := Some(less))));
      lower.outcome.Deny? && lower.reasonCode.NegotiationLimitReached?
  {
    var terms := MandateOf("record", None);
    var deal := Deal("deal", Negotiating, 1, 0, 0, 0);
    pi := PolicyInput(
      "0.1", "request", 5, Actor(Agent, "agent"), BuildClaim(map[], signer, Signed(signer, terms), 5), None, deal,
      Proposal(Token(Counteroffer), "deal", Some(101), "EUR", [], "key", None), None);
    less := 100;
    assert terms.allowedActions[1] == Counteroffer;
  }
}
