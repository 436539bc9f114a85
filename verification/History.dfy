/** What a chain of payloads alone says about its deal. */
module History {
  import opened Common
  import opened Deals
  import opened Policy
  import opened Chain

  /* ----- replay ----- */

  // One transition read off its payload: no stored counter, no floor.
  function ReplayMove(d: Deal, event: DealEvent, from: DealState, to: DealState, amount: Option<int>): Deal {
    d.(state := to,
       negotiatedRounds := d.negotiatedRounds + (if event.Counteroffered? then 1 else 0),
       committedMinor := d.committedMinor + (if event.AgreementReached? || event.ChangeApproved? then AmountOrZero(amount) else 0),
       openDisputes :=
         if event.Refunded? || event.PartiallyRefunded? then 0
         else d.openDisputes + (if event.DisputeOpened? then 1 else if event.Accepted? && from.Disputed? then -1 else 0))
  }

  function ReplayStep(d: Deal, p: Payload): Deal {
    match p
    case RequestTransition(_, _, event, from, to, amount) => ReplayMove(d, event, from, to, amount)
    case CommandTransition(_, event, from, to, amount, _) => ReplayMove(d, event, from, to, amount)
    case RequiredApproval(_, _, _, _, _, _, _) => d.(openApprovals := d.openApprovals + 1)
    case GrantedApproval(_, _, _, _, _, _) => d.(openApprovals := d.openApprovals - 1)
    case DeniedApproval(_, _, _, _, _, _) => d.(openApprovals := d.openApprovals - 1)
    case _ => d
  }

  function Replay(d: Deal, ps: seq<Payload>): Deal
    decreases |ps|
  {
    if ps == [] then d else Replay(ReplayStep(d, ps[0]), ps[1..])
  }

  // Each transition leaves the state the one before reached, along a row of the table.
  predicate Linked(d: Deal, ps: seq<Payload>)
    decreases |ps|
  {
    ps != [] ==>
      && (ps[0].IsTransition() ==>
            ps[0].fromState == d.state && TransitionFor(ps[0].fromState, ps[0].event) == Some(ps[0].toState))
      && Linked(ReplayStep(d, ps[0]), ps[1..])
  }

  lemma {:induction false} ReplayAppend(d: Deal, ps: seq<Payload>, qs: seq<Payload>)
    ensures Replay(d, ps + qs) == Replay(Replay(d, ps), qs)
    ensures Linked(d, ps + qs) <==> Linked(d, ps) && Linked(Replay(d, ps), qs)
    decreases |ps|
  {
    if ps == [] {
      assert ps + qs == qs;
    } else {
      assert (ps + qs)[1..] == ps[1..] + qs;
      ReplayAppend(ReplayStep(d, ps[0]), ps[1..], qs);
    }
  }

  /* ----- what the replayed counters mean ----- */

  function Tally(ps: seq<Payload>, weight: Payload -> int): int {
    if ps == [] then 0 else weight(ps[0]) + Tally(ps[1..], weight)
  }

  function CounterofferWeight(p: Payload): int { if p.IsTransition() && p.event.Counteroffered? then 1 else 0 }
  function SpendWeight(p: Payload): int {
    if p.IsTransition() && (p.event.AgreementReached? || p.event.ChangeApproved?) && p.amountMinor.Some?
    then p.amountMinor.value else 0
  }
  function RequiredWeight(p: Payload): int { if p.RequiredApproval? then 1 else 0 }
  function DecidedWeight(p: Payload): int { if p.GrantedApproval? || p.DeniedApproval? then 1 else 0 }

  // The state reached is the target of the last transition.
  function LastState(start: DealState, ps: seq<Payload>): DealState {
    if ps == [] then start
    else if ps[|ps| - 1].IsTransition() then ps[|ps| - 1].toState
    else LastState(start, ps[..|ps| - 1])
  }

  lemma {:induction false} LastStateOfTail(start: DealState, ps: seq<Payload>)
    requires ps != []
    ensures LastState(start, ps) == LastState(if ps[0].IsTransition() then ps[0].toState else start, ps[1..])
    decreases |ps|
  {
    var n := |ps| - 1;
    if n > 0 && !ps[n].IsTransition() {
      LastStateOfTail(start, ps[..n]);
      assert ps[..n][1..] == ps[1..][..n - 1];
      assert ps[1..][n - 1] == ps[n];
    }
  }

  // Replaying is counting: rounds are the counteroffers, committed spend is the sum of the amounts
  // on agreements and approved changes, open approvals are those required less those decided.
  lemma {:induction false} ReplayCounts(d: Deal, ps: seq<Payload>)
    ensures var r := Replay(d, ps);
      && r.dealId == d.dealId
      && r.state == LastState(d.state, ps)
      && r.negotiatedRounds == d.negotiatedRounds + Tally(ps, CounterofferWeight)
      && r.committedMinor == d.committedMinor + Tally(ps, SpendWeight)
      && r.openApprovals == d.openApprovals + Tally(ps, RequiredWeight) - Tally(ps, DecidedWeight)
    decreases |ps|
  {
    if ps != [] {
      ReplayCounts(ReplayStep(d, ps[0]), ps[1..]);
      LastStateOfTail(d.state, ps);
    }
  }

  /* ----- the path through the table ----- */

  function Moves(ps: seq<Payload>): seq<Move> {
    if ps == [] then []
    else (if ps[0].IsTransition() then [Move(ps[0].fromState, ps[0].event, ps[0].toState)] else []) + Moves(ps[1..])
  }

  predicate IsPathFrom(start: DealState, moves: seq<Move>)
    decreases |moves|
  {
    moves != [] ==> moves[0].from == start && IsRow(moves[0]) && IsPathFrom(moves[0].to, moves[1..])
  }

  lemma {:induction false} LinkedMovesArePath(d: Deal, ps: seq<Payload>)
    requires Linked(d, ps)
    ensures IsPathFrom(d.state, Moves(ps))
    decreases |ps|
  {
    if ps != [] {
      LinkedMovesArePath(ReplayStep(d, ps[0]), ps[1..]);
      if ps[0].IsTransition() {
        assert Moves(ps)[1..] == Moves(ps[1..]);
      } else {
        assert Moves(ps) == Moves(ps[1..]);
      }
    }
  }

  lemma {:induction false} PathFromAt(start: DealState, moves: seq<Move>, i: nat)
    requires IsPathFrom(start, moves) && i < |moves|
    ensures IsRow(moves[i]) && moves[i].from == (if i == 0 then start else moves[i - 1].to)
    decreases i
  {
    if i > 0 { PathFromAt(moves[0].to, moves[1..], i - 1); }
  }

  lemma LinkedFromDraftIsPath(dealId: Id, ps: seq<Payload>)
    requires Linked(NewDeal(dealId), ps)
    ensures IsPath(Moves(ps))
  {
    LinkedMovesArePath(NewDeal(dealId), ps);
    forall i | 0 <= i < |Moves(ps)|
      ensures IsRow(Moves(ps)[i]) && Moves(ps)[i].from == (if i == 0 then DealState.Draft else Moves(ps)[i - 1].to)
    {
      PathFromAt(DealState.Draft, Moves(ps), i);
    }
  }

  /* ----- licence: what stands behind a transition ----- */

  // The event directly before an agent's transition: an allow of this very request, or a person's grant of it.
  predicate Licenses(before: Payload, move: Payload)
    requires move.RequestTransition?
  {
    || (before.DecisionMade? && before.outcome.Allow? && before.requestId == move.requestId
        && before.action == move.action && before.amountMinor == move.amountMinor)
    || (before.GrantedApproval? && before.requestId == move.requestId
        && before.action == move.action && before.amountMinor == move.amountMinor)
  }

  predicate LicensedAt(ps: seq<Payload>, i: nat)
    requires i < |ps|
  {
    ps[i].RequestTransition? ==>
      && i > 0 && Licenses(ps[i - 1], ps[i])
      && ps[i].action.Token? && ActionEvent(ps[i].action.token) == Some(ps[i].event)
  }

  // At k the engine held this request for a person, and the approval was opened right after.
  predicate HeldAt(ps: seq<Payload>, k: nat, requestId: Id, action: ActionName, amount: Option<int>) {
    && k + 1 < |ps|
    && ps[k].DecisionMade? && ps[k].outcome.NeedsApproval? && ps[k].requestId == requestId
    && ps[k + 1].RequiredApproval? && ps[k + 1].requestId == requestId
    && ps[k + 1].action == action && ps[k + 1].amountMinor == amount
  }

  predicate GrantBackedAt(ps: seq<Payload>, j: nat)
    requires j < |ps|
  {
    ps[j].GrantedApproval? ==> exists k: nat :: k + 1 < j && HeldAt(ps, k, ps[j].requestId, ps[j].action, ps[j].amountMinor)
  }

  // No agent moves the deal on its own word.
  predicate NoAutonomousMove(ps: seq<Payload>) {
    forall i | 0 <= i < |ps| :: LicensedAt(ps, i) && GrantBackedAt(ps, i)
  }
}
