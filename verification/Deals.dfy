/** Small shared types. */
module Common {

  datatype Option<+T> = None | Some(value: T)

  // Every identifier of the system (deal, record, request, command, approval) is a ULID string.
  type Id = string

  // Instants, compared but never read from a clock.
  type Instant = int

  function Max(a: int, b: int): int { if a > b then a else b }
}

/** The deal snapshot and the explicit transition table (domain/deals.py, domain/state_machine.py). */
module Deals {
  import opened Common

  datatype DealState =
    | Draft | QuoteRequested | QuoteReceived | Negotiating | Agreed | InProgress | ChangeRequested
    | Completed | AcceptanceWindow | Disputed | Accepted | PaymentPending | Captured
    | PartiallyRefunded | Refunded | Cancelled | Expired | Failed

  datatype DealEvent =
    | QuoteRequested | QuoteReceived | Counteroffered | AgreementReached | WorkStarted
    | ChangeRequested | ChangeApproved | ChangeRejected | CompletionClaimed
    | AcceptanceWindowOpened | Accepted | DisputeOpened | PaymentInitiated | PaymentConfirmed
    | PaymentFailed | Refunded | PartiallyRefunded | Cancelled | Expired | Resumed

  datatype ActionToken =
    | RequestQuote | Counteroffer | AcceptAgreement | StartWork | ProposeChange | ApproveChangeOrder
    | ClaimCompletion | AcceptCompletion | OpenDispute | InitiatePayment | CapturePayment
    | CancelDeal | ResolveDispute

  // The untrusted action text of a proposal: either one of the thirteen tokens or anything else.
  datatype ActionName = Token(token: ActionToken) | Unrecognised(text: string)

  datatype Deal = Deal(
    dealId: Id, state: DealState, negotiatedRounds: int, committedMinor: int,
    openDisputes: int, openApprovals: int)

  // What register_deal creates.
  function NewDeal(dealId: Id): Deal {
    Deal(dealId, DealState.Draft, 0, 0, 0, 0)
  }

  /* ----- the table ----- */

  function TransitionFor(state: DealState, event: DealEvent): Option<DealState> {
    match event
    case QuoteRequested => if state.Draft? then Some(DealState.QuoteRequested) else None
    case QuoteReceived => if state.QuoteRequested? then Some(DealState.QuoteReceived) else None
    case Counteroffered =>
      if state.QuoteReceived? || state.Negotiating? then Some(Negotiating) else None
    case AgreementReached =>
      if state.QuoteReceived? || state.Negotiating? then Some(Agreed) else None
    case WorkStarted => if state.Agreed? then Some(InProgress) else None
    case ChangeRequested => if state.InProgress? then Some(DealState.ChangeRequested) else None
    case ChangeApproved => if state.ChangeRequested? then Some(InProgress) else None
    case ChangeRejected => if state.ChangeRequested? then Some(InProgress) else None
    case CompletionClaimed => if state.InProgress? then Some(Completed) else None
    case AcceptanceWindowOpened => if state.Completed? then Some(AcceptanceWindow) else None
    case Accepted =>
      if state.AcceptanceWindow? || state.Disputed? then Some(DealState.Accepted) else None
    case DisputeOpened => if state.AcceptanceWindow? then Some(Disputed) else None
    case Refunded => if state.Disputed? then Some(DealState.Refunded) else None
    case PartiallyRefunded => if state.Disputed? then Some(DealState.PartiallyRefunded) else None
    case PaymentInitiated => if state.Accepted? then Some(PaymentPending) else None
    case PaymentConfirmed => if state.PaymentPending? then Some(Captured) else None
    case PaymentFailed => if state.PaymentPending? then Some(Failed) else None
    case Resumed => if state.Failed? then Some(PaymentPending) else None
    case Expired =>
      if state.Draft? || state.QuoteRequested? || state.QuoteReceived? || state.Negotiating? || state.Agreed?
      then Some(DealState.Expired) else None
    case Cancelled =>
      if IsTerminal(state) || state.Failed? then None else Some(DealState.Cancelled)
  }

  predicate IsTerminal(state: DealState) {
    state.Captured? || state.PartiallyRefunded? || state.Refunded? || state.Cancelled? || state.Expired?
  }

  predicate ActionValidFrom(action: ActionToken, state: DealState) {
    match action
    case RequestQuote => state.Draft?
    case Counteroffer => state.QuoteReceived? || state.Negotiating?
    case AcceptAgreement => state.QuoteReceived? || state.Negotiating?
    case StartWork => state.Agreed?
    case ProposeChange => state.InProgress?
    case ApproveChangeOrder => state.ChangeRequested?
    case ClaimCompletion => state.InProgress?
    case AcceptCompletion => state.AcceptanceWindow? || state.Disputed?
    case OpenDispute => state.AcceptanceWindow?
    case InitiatePayment => state.Accepted?
    case CapturePayment => state.PaymentPending?
    case CancelDeal => !(IsTerminal(state) || state.Failed?)
    case ResolveDispute => state.Disputed?
  }

  function ActionEvent(action: ActionToken): Option<DealEvent> {
    match action
    case RequestQuote => Some(DealEvent.QuoteRequested)
    case Counteroffer => Some(Counteroffered)
    case AcceptAgreement => Some(AgreementReached)
    case StartWork => Some(WorkStarted)
    case ProposeChange => Some(DealEvent.ChangeRequested)
    case ApproveChangeOrder => Some(ChangeApproved)
    case ClaimCompletion => Some(CompletionClaimed)
    case AcceptCompletion => Some(DealEvent.Accepted)
    case OpenDispute => Some(DisputeOpened)
    case InitiatePayment => Some(PaymentInitiated)
    case CapturePayment => Some(PaymentConfirmed)
    case CancelDeal => Some(DealEvent.Cancelled)
    case ResolveDispute => None
  }

  predicate IsPaymentAction(action: ActionToken) { action.InitiatePayment? || action.CapturePayment? }

  // The events that move committed spend.
  predicate IsCommitting(event: DealEvent) { event.AgreementReached? || event.ChangeApproved? }

  predicate IsPaymentEvent(event: DealEvent) {
    event.PaymentInitiated? || event.PaymentConfirmed? || event.PaymentFailed? || event.Resumed?
  }

  function AmountOrZero(amount: Option<int>): int { if amount.Some? then amount.value else 0 }

  /* ----- applying ----- */

  function ApplyEvent(deal: Deal, event: DealEvent, target: DealState, amount: Option<int>): Deal {
    var rounds := if event.Counteroffered? then deal.negotiatedRounds + 1 else deal.negotiatedRounds;
    var committed :=
      if IsCommitting(event) then deal.committedMinor + AmountOrZero(amount) else deal.committedMinor;
    var disputes :=
      if event.DisputeOpened? then deal.openDisputes + 1
      else if event.Accepted? && deal.state.Disputed? then Max(0, deal.openDisputes - 1)
      else if event.Refunded? || event.PartiallyRefunded? then 0
      else deal.openDisputes;
    deal.(state := target, negotiatedRounds := rounds, committedMinor := committed, openDisputes := disputes)
  }

  // None is the ValueError of a pair outside the table.
  function ApplyAction(deal: Deal, action: ActionToken, amount: Option<int>): Option<Deal> {
    var event := ActionEvent(action);
    if event.None? then
      Some(if action.ResolveDispute? then deal.(openDisputes := Max(0, deal.openDisputes - 1)) else deal)
    else
      var target := TransitionFor(deal.state, event.value);
      if target.None? then None
      else
        var moved := ApplyEvent(deal, event.value, target.value, amount);
        Some(if action.ResolveDispute? then moved.(openDisputes := Max(0, moved.openDisputes - 1)) else moved)
  }

  // The action table and the transition table say the same thing: the engine's
  // notion of a valid action never outruns what the ledger can apply.
  lemma ActionTableAgrees(action: ActionToken, state: DealState)
    requires ActionEvent(action).Some?
    ensures ActionValidFrom(action, state) <==> TransitionFor(state, ActionEvent(action).value).Some?
  {
    match action
    case AcceptCompletion =>
    case _ =>
  }

  /* ----- lifecycle over whole paths ----- */

  datatype Move = Move(from: DealState, event: DealEvent, to: DealState)

  predicate IsRow(m: Move) { TransitionFor(m.from, m.event) == Some(m.to) }

  // A path through the table from DRAFT, each move leaving the state the one before reached.
  predicate IsPath(moves: seq<Move>) {
    && (forall i | 0 <= i < |moves| :: IsRow(moves[i]))
    && (forall i | 0 <= i < |moves| :: moves[i].from == (if i == 0 then DealState.Draft else moves[i - 1].to))
  }

  // Distance along the lifecycle with the three loops collapsed.
  function Rank(state: DealState): nat {
    match state
    case Draft => 0
    case QuoteRequested => 1
    case QuoteReceived => 2
    case Negotiating => 3
    case Agreed => 4
    case InProgress => 5
    case ChangeRequested => 5
    case Completed => 6
    case AcceptanceWindow => 7
    case Disputed => 8
    case Accepted => 9
    case PaymentPending => 10
    case Failed => 10
    case _ => 11
  }

  // A row never goes down the lifecycle, and stays level only inside one of the
  // loops negotiating, change order and payment retry.
  lemma RowClimbs(m: Move)
    requires IsRow(m)
    ensures Rank(m.from) <= Rank(m.to)
    ensures Rank(m.from) == Rank(m.to) <==>
            || (m.from == m.to == Negotiating)
            || (m.from == InProgress && m.to == DealState.ChangeRequested)
            || (m.from == DealState.ChangeRequested && m.to == InProgress)
            || (m.from == PaymentPending && m.to == Failed)
            || (m.from == Failed && m.to == PaymentPending)
  {
    match m.event
    case Cancelled =>
    case _ =>
  }

  lemma {:induction false} PathClimbs(moves: seq<Move>, i: nat, j: nat)
    requires IsPath(moves) && i < j < |moves|
    ensures Rank(moves[i].to) <= Rank(moves[j].from)
    decreases j
  {
    hide IsRow, Rank;
    if i + 1 < j {
      PathClimbs(moves, i, j - 1);
      RowClimbs(moves[j - 1]);
    }
  }

  lemma AgreementHappensOnce(moves: seq<Move>, i: nat, j: nat)
    requires IsPath(moves) && i < |moves| && j < |moves|
    requires moves[i].event.AgreementReached? && moves[j].event.AgreementReached?
    ensures i == j
  {
    if i < j { PathClimbs(moves, i, j); }
    if j < i { PathClimbs(moves, j, i); }
  }

  lemma CommitmentFrozenAfterCompletion(moves: seq<Move>, i: nat, j: nat)
    requires IsPath(moves) && i < j < |moves|
    requires moves[i].event.CompletionClaimed?
    ensures moves[j].event !in {AgreementReached, ChangeApproved}
  {
    PathClimbs(moves, i, j);
  }

  // Terminal states are exactly the states no event leaves.
  lemma TerminalIffNoWayOut(state: DealState)
    ensures IsTerminal(state) <==> forall e: DealEvent :: TransitionFor(state, e).None?
  {
    if !IsTerminal(state) {
      assert TransitionFor(state, if state.Failed? then Resumed else DealEvent.Cancelled).Some?;
    }
  }

  lemma TerminalIsLast(moves: seq<Move>, i: nat)
    requires IsPath(moves) && i < |moves| && IsTerminal(moves[i].to)
    ensures i == |moves| - 1
  {
    if i + 1 < |moves| {
      assert IsRow(moves[i + 1]);
      TerminalIffNoWayOut(moves[i].to);
    }
  }

  // At most one dispute is ever open, and only while disputed or after cancelling a disputed deal.
  predicate DisputesSound(deal: Deal) {
    if deal.state.Disputed? then deal.openDisputes == 1
    else if deal.state.Cancelled? then 0 <= deal.openDisputes <= 1
    else deal.openDisputes == 0
  }

  lemma ApplyEventKeepsDisputesSound(deal: Deal, event: DealEvent, target: DealState, amount: Option<int>)
    requires DisputesSound(deal) && TransitionFor(deal.state, event) == Some(target)
    ensures DisputesSound(ApplyEvent(deal, event, target, amount))
    ensures IsPaymentEvent(event) ==> deal.openDisputes == 0
  {
    match event
    case Cancelled =>
    case _ =>
  }
}
