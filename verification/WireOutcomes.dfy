/** Spend and revocation at the wire: the inputs the gateway builds meet what those theorems ask for. */
module WireOutcomes {
  import opened Common
  import opened Deals
  import opened Crypto
  import opened Authority
  import opened Policy
  import opened Chain
  import opened Plans
  import opened Ledger
  import opened Runs
  import opened Once
  import opened Outcomes
  import opened Gateway

  /* ----- spend ----- */

  // The mandate linked to deal d is capped at `cap`, and local steps keep to the budget's terms.
  predicate WireBudgeted(g: Gateway, w: WireStep, d: Id, cap: int) {
    match w
    case Local(step) => Budgeted(g.ledger, step, d, cap)
    case Delivery(_, _) =>
      var record := RecordOf(g.ledger.records, g.dealRecords, d);
      record.Some? ==> record.value.terms.spendCap.amountMinor <= cap
  }

  lemma ClaimIsAboutItsRecord(revocations: map<Id, Revocation>, signer: Signer, record: AuthorityRecord, now: Instant)
    ensures BuildClaim(revocations, signer, record, now).record == record
  {
  }

  // A proposal off the wire is judged on the stored deal under the linked mandate, and a counterparty
  // event carries no amount.
  lemma DeliveryIsBudgeted(g: Gateway, cfg: Config, env: WireEnvelope, t: Tick, d: Id, cap: int)
    requires Sound(g.ledger, cfg.signer.key) && WireBudgeted(g, Delivery(env, t), d, cap)
    ensures var step := LedgerStep(g, cfg, Delivery(env, t)); step.Some? ==> Budgeted(g.ledger, step.value, d, cap)
  {
    hide ChainValid, BuildClaim, Screen, ApprovalsSound, Handled;
    if LedgerStep(g, cfg, Delivery(env, t)).Some? && env.form.payload.ProposalMessage? {
      var x := env.form.payload.dealId;
      assert DealSound(g.ledger.deals[x], g.ledger.chains[x], x, cfg.signer.key);
      var record := RecordOf(g.ledger.records, g.dealRecords, x).value;
      ClaimIsAboutItsRecord(g.ledger.revocations, cfg.signer, record, t.now);
    }
  }

  // Whatever messages arrive, committed spend never exceeds the cap of the linked mandate plus what
  // people granted.
  lemma {:induction false} WireSpendNeverExceedsCapPlusGrants(trace: seq<Gateway>, steps: seq<WireStep>, cfg: Config,
                                                              d: Id,
                                                              cap: int, i: nat)
    requires WireRun(trace, steps, cfg) && i < |trace| && cap >= 0
    requires forall k | 0 <= k < |steps| :: WireBudgeted(trace[k], steps[k], d, cap)
    ensures BudgetKept(trace[i].ledger, d, cap)
    decreases i
  {
    hide After, Next, LedgerStep, WireAdmissible, WireBudgeted, Budgeted, Sound, OnceOnly;
    if i > 0 {
      var g, w := trace[i - 1], steps[i - 1];
      WireSpendNeverExceedsCapPlusGrants(trace, steps, cfg, d, cap, i - 1);
      EveryWireRunIsSound(trace, steps, cfg, i - 1);
      assert WireStepAt(trace, steps, cfg, i - 1);
      WireStepIsLedgerStep(g, cfg, w);
      var step := LedgerStep(g, cfg, w);
      if step.Some? {
        StepIsBudgeted(g, cfg, w, d, cap);
        SoundTables(g.ledger, cfg.signer.key);
        StepKeepsBudget(g.ledger, step.value, cfg.signer, d, cap);
      }
    }
  }

  lemma StepIsBudgeted(g: Gateway, cfg: Config, w: WireStep, d: Id, cap: int)
    requires Sound(g.ledger, cfg.signer.key) && WireBudgeted(g, w, d, cap)
    ensures var step := LedgerStep(g, cfg, w); step.Some? ==> Budgeted(g.ledger, step.value, d, cap)
  {
    hide Sound, Budgeted;
    if w.Delivery? { DeliveryIsBudgeted(g, cfg, w.env, w.tick, d, cap); }
  }

  /* ----- revocation ----- */

  // A non-decreasing clock: a delivery is handled at its own time, a local step on time.
  predicate WireTimed(trace: seq<Gateway>, steps: seq<WireStep>, cfg: Config, clock: seq<Instant>)
    requires |trace| == |steps| + 1
  {
    && |clock| == |steps|
    && (forall i, j | 0 <= i <= j < |clock| :: clock[i] <= clock[j])
    && (forall i | 0 <= i < |steps| :: StepOnTime(trace[i], steps[i], cfg, clock[i]))
  }

  predicate StepOnTime(g: Gateway, w: WireStep, cfg: Config, now: Instant) {
    match w
    case Delivery(_, t) => t.now == now
    case Local(step) => OnTime(g.ledger, step, cfg.signer, now)
  }

  // The claim a handler builds is the one of its own moment.
  lemma HandledOnTime(g: Gateway, cfg: Config, w: WireStep, now: Instant)
    requires StepOnTime(g, w, cfg, now)
    ensures var step := LedgerStep(g, cfg, w); step.Some? ==> OnTime(g.ledger, step.value, cfg.signer, now)
  {
    hide BuildClaim, Handled, Screen;
    if w.Delivery? && w.env.form.payload.ProposalMessage? {
      var record := RecordOf(g.ledger.records, g.dealRecords, w.env.form.payload.dealId);
      if record.Some? { ClaimIsAboutItsRecord(g.ledger.revocations, cfg.signer, record.value, w.tick.now); }
    }
  }

  lemma LaterStillRevoked(revocations: map<Id, Revocation>, signer: Signer, recordId: Id, now: Instant, later: Instant)
    requires RevokedFor(revocations, signer, recordId, now) && now <= later
    ensures RevokedFor(revocations, signer, recordId, later)
  {
  }

  lemma {:induction false} WireRecordsKeyed(trace: seq<Gateway>, steps: seq<WireStep>, cfg: Config, i: nat)
    requires WireRun(trace, steps, cfg) && i < |trace|
    ensures RecordsKeyed(trace[i].ledger.records)
    decreases i
  {
    hide After, Next, LedgerStep, WireAdmissible, RecordsKeyed;
    if i > 0 {
      WireRecordsKeyed(trace, steps, cfg, i - 1);
      assert WireStepAt(trace, steps, cfg, i - 1);
      WireStepIsLedgerStep(trace[i - 1], cfg, steps[i - 1]);
      var step := LedgerStep(trace[i - 1], cfg, steps[i - 1]);
      if step.Some? { StepKeepsRecordsKeyed(trace[i - 1].ledger, step.value, cfg.signer); }
    } else {
      NoRecordsKeyed();
    }
  }

  lemma NoRecordsKeyed()
    ensures RecordsKeyed(map[])
  {
  }

  lemma {:induction false} WireRevocationLasts(trace: seq<Gateway>, steps: seq<WireStep>, cfg: Config,
                                               clock: seq<Instant>,
                                               recordId: Id, k: nat, j: nat)
    requires WireRun(trace, steps, cfg) && WireTimed(trace, steps, cfg, clock) && k <= j < |steps|
    requires RevokedFor(trace[k].ledger.revocations, cfg.signer, recordId, clock[k])
    ensures RevokedFor(trace[j].ledger.revocations, cfg.signer, recordId, clock[j])
    decreases j
  {
    hide After, Next, LedgerStep, WireAdmissible, OnTime, RevokedFor, StepOnTime;
    if k < j {
      WireRevocationLasts(trace, steps, cfg, clock, recordId, k, j - 1);
      assert WireStepAt(trace, steps, cfg, j - 1) && StepOnTime(trace[j - 1], steps[j - 1], cfg, clock[j - 1]);
      WireStepIsLedgerStep(trace[j - 1], cfg, steps[j - 1]);
      HandledOnTime(trace[j - 1], cfg, steps[j - 1], clock[j - 1]);
      var step := LedgerStep(trace[j - 1], cfg, steps[j - 1]);
      if step.Some? {
        StepKeepsRevoked(trace[j - 1].ledger, step.value, cfg.signer, recordId, clock[j - 1], clock[j]);
      } else {
        LaterStillRevoked(trace[j - 1].ledger.revocations, cfg.signer, recordId, clock[j - 1], clock[j]);
      }
    }
  }

  // Whatever messages arrive after a signed revocation is in effect, none of them appends an agent's
  // transition under that record.
  lemma WireRevocationIsFinal(trace: seq<Gateway>, steps: seq<WireStep>, cfg: Config, clock: seq<Instant>, recordId: Id,
                              k: nat, j: nat)
    requires WireRun(trace, steps, cfg) && WireTimed(trace, steps, cfg, clock) && k <= j < |steps|
    requires RevokedFor(trace[k].ledger.revocations, cfg.signer, recordId, clock[k])
    ensures QuietUnder(trace[j].ledger, trace[j + 1].ledger, recordId)
  {
    hide After, Next, LedgerStep, WireAdmissible, OnTime, RevokedFor, StepOnTime, Sound, OnceOnly, RecordsKeyed;
    WireRevocationLasts(trace, steps, cfg, clock, recordId, k, j);
    WireRecordsKeyed(trace, steps, cfg, j);
    EveryWireRunIsSound(trace, steps, cfg, j);
    SoundTables(trace[j].ledger, cfg.signer.key);
    assert WireStepAt(trace, steps, cfg, j) && StepOnTime(trace[j], steps[j], cfg, clock[j]);
    WireStepIsLedgerStep(trace[j], cfg, steps[j]);
    HandledOnTime(trace[j], cfg, steps[j], clock[j]);
    var step := LedgerStep(trace[j], cfg, steps[j]);
    if step.Some? { StepQuietUnder(trace[j].ledger, step.value, cfg.signer, recordId, clock[j]); }
  }
}
