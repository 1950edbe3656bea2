/** The money that the lines of the log file record as paid, read back from the file. */
module PaidAmounts {
  import opened Wrappers
  import opened Sequences
  import opened Digits
  import opened Json
  import opened HashChain
  import opened HashChainFiles
  import opened HashChainRuns
  import opened HashChainEntries
  import opened Harness
  import opened Handle402
  import opened GovernanceRuns
  import opened AuditedRuns
  import Approvals
  import Graph

  // ---- Reading an amount ----

  /** The cents that one or two decimal places stand for. */
  function FractionCents(t: string): int {
    if !AllDigits(t) then 0
    else if |t| == 1 then 10 * NatValue(t)
    else if |t| == 2 then NatValue(t)
    else 0
  }

  /** The cents that a decimal number without sign stands for. */
  function UnsignedCents(t: string): int {
    var n := DigitRun(t);
    if n == |t| then 100 * NatValue(t[..n]) else 100 * NatValue(t[..n]) + FractionCents(t[n + 1..])
  }

  function CentsOf(t: string): int {
    if t != "" && t[0] == '-' then -UnsignedCents(t[1..]) else UnsignedCents(t)
  }

  lemma OneDigit(c: char)
    requires IsDigit(c)
    ensures NatValue([c]) == c as int - '0' as int
  {
    assert [c][..0] == "";
  }

  lemma TwoDigits(c: char, d: char)
    requires IsDigit(c) && IsDigit(d)
    ensures NatValue([c, d]) == 10 * (c as int - '0' as int) + (d as int - '0' as int)
  {
    OneDigit(c);
    assert [c, d][..1] == [c];
  }

  lemma FractionReadsBack(c: nat)
    requires c < 100
    ensures FractionCents(CentsText(c)) == c
  {
    var r := CentsText(c);
    CentsDigits(c);
    if |r| == 1 {
      assert r == [r[0]];
      OneDigit(r[0]);
    } else {
      assert r == [r[0], r[1]];
      TwoDigits(r[0], r[1]);
    }
  }

  lemma UnsignedReadsBack(c: nat)
    ensures UnsignedCents(UnsignedAmountText(c)) == c
  {
    var h, l := NatText(c / 100), CentsText(c % 100);
    var t := h + ['.'] + l;
    RunBeforePoint(h, l);
    assert t[..|h|] == h && t[|h| + 1..] == l;
    NatValueOfText(c / 100);
    FractionReadsBack(c % 100);
  }

  /** The text of an amount reads back as the amount. */
  lemma AmountReadsBack(c: int)
    ensures CentsOf(AmountText(c)) == c
  {
    AmountSign(c);
    UnsignedReadsBack(if c < 0 then -c else c);
  }

  // ---- What a line records as paid ----

  /** The amount on a line whose action is an executed payment. */
  function LineCents(e: Members): int {
    if Has(e, "action", JString("payment")) && Has(e, "decision", JString("executed")) then
      match Get(e, "amount")
      case Some(JFloat(t)) => CentsOf(t)
      case _ => 0
    else 0
  }

  function PaidOn(es: seq<Members>): int {
    if es == [] then 0 else PaidOn(es[..|es| - 1]) + LineCents(es[|es| - 1])
  }

  /** The same for what another writer hands over. */
  function DraftCents(d: Draft): int {
    if d.Action? && d.action == "payment" && d.decision == "executed" && d.amount.JFloat? then CentsOf(d.amount.repr) else 0
  }

  lemma NoActionName(d: Draft, k: string)
    requires !d.Action? && k == "action"
    ensures k !in EARN_NAMES && k !in INTERACTION_NAMES && k != "ts" && k != "seq" && k != "prev_hash" && k != "entry_hash"
  {
    assert k[0] == 'a' && |k| == 6;
    assert forall i :: 0 <= i < |EARN_NAMES| ==> EARN_NAMES[i] != k;
    assert forall i :: 0 <= i < |INTERACTION_NAMES| ==> INTERACTION_NAMES[i] != k;
  }

  lemma SealedCents(p: Platform, d: Draft, n: nat, prev: string)
    ensures LineCents(Seal(p, d, n, prev)) == DraftCents(d)
  {
    match d
    case Action(_, _, _, _, _, _, _) => ActionStored(p, d, n, prev);
    case Earn(_, _, _, _) =>
      EarnNames(p, d, n, prev);
      NoActionName(d, "action");
    case Interaction(_, _, _, _, _, _, _, _, _) =>
      InteractionNames(p, d, n, prev);
      NoActionName(d, "action");
  }

  // ---- Over a log ----

  /** The float of this amount prints as its digits; so it is below 10^13 dollars. */
  predicate Prints(p: Platform, amount: int) {
    p.repr(AmountText(amount)) == AmountText(amount)
  }

  predicate IsPaid(e: AuditEntry) {
    e.AuditEntry? && e.action == "payment" && e.decision == "executed"
  }

  predicate PrintsPaid(p: Platform, e: AuditEntry) {
    IsPaid(e) ==> Prints(p, e.amount)
  }

  predicate AllPrint(p: Platform, log: seq<AuditEntry>) {
    forall i :: 0 <= i < |log| ==> PrintsPaid(p, log[i])
  }

  /** What other writers of the log record as paid. */
  function ForeignCents(e: AuditEntry): int {
    if e.Foreign? then DraftCents(e.draft) else 0
  }

  function ForeignTotal(log: seq<AuditEntry>): int {
    if log == [] then 0 else ForeignTotal(log[..|log| - 1]) + ForeignCents(log[|log| - 1])
  }

  lemma EntryCents(p: Platform, e: AuditEntry)
    requires PrintsPaid(p, e)
    ensures DraftCents(ToDraft(p, e)) == ExecutedAmount(e) + ForeignCents(e)
  {
    if IsPaid(e) { AmountReadsBack(e.amount); }
  }

  lemma {:induction false} LogPaid(p: Platform, log: seq<AuditEntry>)
    requires AllPrint(p, log)
    ensures PaidOn(SealAll(p, log)) == ExecutedTotal(log) + ForeignTotal(log)
  {
    if log != [] {
      var before, e := log[..|log| - 1], log[|log| - 1];
      LogPaid(p, before);
      var es := SealAll(p, before);
      var x := Seal(p, ToDraft(p, e), |es|, PrevHash(es, |es|));
      SealedCents(p, ToDraft(p, e), |es|, PrevHash(es, |es|));
      EntryCents(p, e);
      Parts(es, [x]);
    }
  }

  // ---- Over every run ----

  predicate PrintsStep(p: Platform, s: Step) {
    s.Invoice? ==> Prints(p, s.r.event.amount)
  }

  predicate PrintsSteps(p: Platform, steps: seq<Step>) {
    forall i :: 0 <= i < |steps| ==> PrintsStep(p, steps[i])
  }

  lemma AddedOthers(p: Platform, a: seq<AuditEntry>, b: seq<AuditEntry>, n: nat)
    requires AddsOthers(a, b, n) && AllPrint(p, a)
    ensures AllPrint(p, b)
  {
    forall i | 0 <= i < |b| ensures PrintsPaid(p, b[i]) {
      if i < |a| { assert b[i] == a[i]; } else { assert IsOther(b[i]); }
    }
  }

  lemma StepPrints(p: Platform, env: Env, w: World, s: Step)
    requires PrintsStep(p, s) && AllPrint(p, w.log)
    ensures AllPrint(p, Do(env, w, s).log)
  {
    if s.Invoice? {
      CallStep(env, w, s.r);
      if !Settles(env, w, s.r) { AddedOthers(p, w.log, Do(env, w, s).log, 2); }
    }
  }

  lemma {:induction false} RunPrints(p: Platform, env: Env, steps: seq<Step>)
    requires PrintsSteps(p, steps)
    ensures AllPrint(p, RunAll(env, steps).log)
  {
    if steps != [] {
      RunPrints(p, env, steps[..|steps| - 1]);
      StepPrints(p, env, RunAll(env, steps[..|steps| - 1]), steps[|steps| - 1]);
    }
  }

  /** Conservation on the bytes: after every run the amounts on the executed lines of the
      log file, read back, sum to the ledger, and to the graph, plus what other writers of
      the file recorded as paid. */
  lemma FilePaysLedger(p: Platform, ids: Approvals.IdHash, norm: Graph.Norm, skills: set<string>, steps: seq<Step>)
    requires StableRepr(p.repr) && Graph.Idempotent(norm) && GoodSteps(p, steps) && PrintsSteps(p, steps)
    ensures var w := RunAll(RealEnv(p, ids, norm, skills), steps);
            && PaidOn(ReadFile(p, FileOf(SealAll(p, w.log)))) == LedgerTotal(w.ledger) + ForeignTotal(w.log)
            && LedgerTotal(w.ledger) == GraphTotal(w.graph)
  {
    var env := RealEnv(p, ids, norm, skills);
    var w := RunAll(env, steps);
    RunGood(p, env, steps);
    SealedChain(p, w.log);
    ReadBack(p, SealAll(p, w.log));
    RunPrints(p, env, steps);
    LogPaid(p, w.log);
    MoneyIsConserved(env, steps);
  }
}
