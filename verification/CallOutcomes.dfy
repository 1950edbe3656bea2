/** What one call of `handle_402` does, case by case, with the policy, the anomaly test, the
    gate and the entries written out. */
module CallOutcomes {
  import opened Wrappers
  import opened Sequences
  import opened Json
  import opened Harness
  import opened Handle402
  import opened Outliers
  import Approvals
  import Digits
  import HashChain
  import Graph
  import PyText

  // ---- The decision ----

  /** The policy forbids the invoice: a blocked vendor, more than the vendor's own limit,
      or, for a vendor without one, more than the default limit. */
  predicate Forbidden(r: Request) {
    || r.event.vendor in r.policy.blocked
    || (r.event.vendor in r.policy.limits && r.event.amount > r.policy.limits[r.event.vendor])
    || (r.event.vendor !in r.policy.limits && r.event.amount > r.policy.defaultLimit)
  }

  /** The amounts recorded for the vendor, in order of date. */
  function HistoryFor(env: Env, w: World, r: Request): seq<int> {
    Graph.VendorHistory(env.norm, w.graph, r.event.vendor)
  }

  lemma CleanExactly(env: Env, w: World, r: Request)
    ensures Clean(env, w, r) <==> !Forbidden(r) && !IsOutlier(HistoryFor(env, w, r), r.event.amount)
  {
    AnomalousExactly(env, w, r.event);
  }

  /** The id of the request for an invoice that is escalated. */
  function PurchaseId(env: Env, vendor: string, amount: int, m: Approvals.Moment): string {
    Approvals.RequestId(env.ids, Approvals.Spend("purchase", vendor, amount), m.day)
  }

  /** The entry of an escalation. */
  function EscalationLine(r: Request, id: string, outlier: bool): AuditEntry {
    AuditEntry(r.clock.ts2, "approval_request", r.event.vendor, r.event.amount, "escalated", "agent",
               [("invoice_id", JString(r.event.invoiceId)), ("request_id", JString(id)), ("anomaly_flagged", JBool(outlier))])
  }

  /** An invoice that the policy forbids or that is an outlier is never paid, whatever its
      amount and whatever has been approved. It is escalated, with a pending request and an
      entry, if the amount is not negative and the log can be extended; else the call raises. */
  lemma EscalatedOutcome(env: Env, w: World, r: Request)
    requires Forbidden(r) || IsOutlier(HistoryFor(env, w, r), r.event.amount)
    ensures var (o, w') := Handle(env, w, r);
            var id := PurchaseId(env, r.event.vendor, r.event.amount, r.clock.m2);
            var line := EscalationLine(r, id, IsOutlier(HistoryFor(env, w, r), r.event.amount));
            && w'.payments == w.payments && w'.ledger == w.ledger && w'.graph == w.graph
            && (if r.event.amount >= 0 && env.readable(w.log)
                then o == EscalatedTo(id, env.digest(w.log + [line])) && w'.log == w.log + [line]
                else o == Failed && w'.log == w.log)
            && (if r.event.amount >= 0 then Approvals.IsPending(w'.approvals, id) else w'.approvals == w.approvals)
  {
    CleanExactly(env, w, r);
    AnomalousExactly(env, w, r.event);
    assert "purchase" in Approvals.VALID_ACTIONS;
  }

  // ---- The guardrail ----

  predicate Mentions(e: Event, pattern: string) {
    PyText.Contains(e.vendor, pattern) || PyText.Contains(e.invoiceId, pattern)
  }

  lemma UnsafeExactly(s: string)
    ensures IsUnsafe(s) <==>
            || PyText.Contains(s, "rm -rf") || PyText.Contains(s, "DROP TABLE") || PyText.Contains(s, "<script")
            || PyText.Contains(s, "ignore previous instructions")
  {
    assert UNSAFE_PATTERNS[0] == "rm -rf" && UNSAFE_PATTERNS[1] == "DROP TABLE" && UNSAFE_PATTERNS[2] == "<script";
    assert UNSAFE_PATTERNS[3] == "ignore previous instructions";
  }

  /** The payment passes the built-in guardrail exactly if the skill is registered and
      neither the vendor nor the invoice id mentions one of four patterns. */
  lemma GuardrailExactly(skills: set<string>, e: Event)
    ensures BuiltinGuardrail(skills)("pay_invoice_skill", PayArgs(e)) <==>
            && "pay_invoice_skill" in skills
            && !Mentions(e, "rm -rf") && !Mentions(e, "DROP TABLE") && !Mentions(e, "<script")
            && !Mentions(e, "ignore previous instructions")
  {
    UnsafeExactly(e.vendor);
    UnsafeExactly(e.invoiceId);
    PayArgsScanned(e);
  }

  lemma {:induction false} PairsScanned(pairs: seq<(string, Json)>)
    ensures ScanUnsafeMembers(HashChain.Dict(pairs)) <==> exists i :: 0 <= i < |pairs| && ScanUnsafe(pairs[i].1)
  {
    if pairs != [] {
      PairsScanned(pairs[1..]);
      if ScanUnsafeMembers(HashChain.Dict(pairs[1..])) {
        var i :| 0 <= i < |pairs[1..]| && ScanUnsafe(pairs[1..][i].1);
        var next := i + 1;
        assert pairs[next] == pairs[1..][i];
      }
      if i: int :| 0 < i < |pairs| && ScanUnsafe(pairs[i].1) {
        var before := i - 1;
        assert pairs[1..][before] == pairs[i];
      }
    }
  }

  lemma PayArgsScanned(e: Event)
    ensures ScanUnsafeMembers(PayArgs(e)) <==> IsUnsafe(e.vendor) || IsUnsafe(e.invoiceId)
  {
    var pairs := [("vendor", JString(e.vendor)), ("amount", JFloat(Digits.AmountText(e.amount))),
                  ("invoice_id", JString(e.invoiceId))];
    PairsScanned(pairs);
    assert ScanUnsafe(pairs[0].1) == IsUnsafe(e.vendor) && !ScanUnsafe(pairs[1].1);
    assert ScanUnsafe(pairs[2].1) == IsUnsafe(e.invoiceId);
  }

  // ---- The gate ----

  /** The vendor as the harness names it. */
  function VendorName(r: Request): string {
    if r.event.vendor == "" then "unknown" else r.event.vendor
  }

  /** The gate lets the spend pass: it is within the threshold, or there is an approved
      request for it today. */
  predicate Passes(env: Env, w: World, r: Request) {
    var id := PurchaseId(env, VendorName(r), r.event.amount, r.clock.m1);
    && r.event.amount >= 0
    && (r.event.amount <= r.threshold || (id in w.approvals && w.approvals[id].status.Approved?))
  }

  lemma GateExactly(env: Env, w: World, r: Request)
    ensures var (g, w1) := Gate(env, w, PayCall(r), r.clock);
            && ((g.AutoApproved? || g.Released?) <==> Passes(env, w, r))
            && (g.ValueError? <==> r.event.amount < 0)
            && (g.ApprovalRequired? ==> g.id == PurchaseId(env, VendorName(r), r.event.amount, r.clock.m2)
                                        && Approvals.IsPending(w1.approvals, g.id))
            && w1.log == w.log && w1.payments == w.payments && w1.ledger == w.ledger && w1.graph == w.graph
  {
    assert "purchase" in Approvals.VALID_ACTIONS;
  }

  lemma RunsExactly(env: Env, w: World, r: Request)
    ensures Runs(env, w, PayCall(r), r.clock) <==>
            env.guardrail("pay_invoice_skill", PayArgs(r.event)) && Passes(env, w, r)
  {
    GateExactly(env, w, r);
  }

  /** A payment goes out exactly if the policy does not forbid it, it is no outlier, the
      guardrail lets it pass, and so does the gate. */
  predicate Pays(env: Env, w: World, r: Request) {
    && !Forbidden(r) && !IsOutlier(HistoryFor(env, w, r), r.event.amount)
    && env.guardrail("pay_invoice_skill", PayArgs(r.event)) && Passes(env, w, r)
  }

  lemma OpensExactly(env: Env, w: World, r: Request)
    ensures Opens(env, w, r) <==> Pays(env, w, r)
  {
    CleanExactly(env, w, r);
    RunsExactly(env, w, r);
  }

  // ---- A payment ----

  function PaymentLine(r: Request): AuditEntry {
    AuditEntry(r.clock.ts1, "payment", VendorName(r), r.event.amount, "executed", "agent",
               [("skill", JString("pay_invoice_skill")), ("sandbox", JString("in-process"))])
  }

  /** The money goes out; and if the log can be extended, with it the entry, the ledger
      line, posted on the invoice's date or else today, and the edge of the graph. */
  lemma PaidOutcome(env: Env, w: World, r: Request)
    requires Pays(env, w, r)
    ensures var (o, w') := Handle(env, w, r);
            var e, posted := r.event, if r.event.date == "" then r.clock.today else r.event.date;
            && w'.payments == w.payments + [Payment(e.vendor, e.amount, e.invoiceId)]
            && (if env.readable(w.log) then
                  && o == Paid(env.digest(w.log + [PaymentLine(r)])) && w'.log == w.log + [PaymentLine(r)]
                  && w'.ledger == w.ledger + [LedgerEntry(e.vendor, e.amount, posted, e.invoiceId)]
                  && w'.graph == Graph.RecordPayment(env.norm, w.graph, e.vendor, e.amount, e.date, None, Some(false))
                else o == Failed && w'.log == w.log && w'.ledger == w.ledger && w'.graph == w.graph)
  {
    OpensExactly(env, w, r);
    CallStep(env, w, r);
    PaidHash(env, w, r);
  }

  lemma PaidHash(env: Env, w: World, r: Request)
    requires Opens(env, w, r)
    ensures !env.readable(w.log) ==> Handle(env, w, r).0 == Failed && Handle(env, w, r).1.log == w.log
  {
  }

  /** Whatever is not such a payment leaves payments, ledger and graph as they are. */
  lemma UnpaidOutcome(env: Env, w: World, r: Request)
    requires !Pays(env, w, r)
    ensures var (o, w') := Handle(env, w, r);
            !o.Paid? && w'.payments == w.payments && w'.ledger == w.ledger && w'.graph == w.graph
  {
    OpensExactly(env, w, r);
    CallStep(env, w, r);
  }

  // ---- A clean invoice that is not paid ----

  function BlockedLine(r: Request): AuditEntry {
    AuditEntry(r.clock.ts1, "access_change", VendorName(r), r.event.amount, "blocked", "agent",
               [("skill", JString("pay_invoice_skill")), ("reason", JString("guardrail"))])
  }

  function HeldLine(r: Request, id: string): AuditEntry {
    AuditEntry(r.clock.ts1, "approval_request", VendorName(r), r.event.amount, "escalated", "agent",
               [("skill", JString("pay_invoice_skill")), ("request_id", JString(id))])
  }

  /** Stopped by the guardrail: one entry, and the call raises. */
  lemma BlockedOutcome(env: Env, w: World, r: Request)
    requires !Forbidden(r) && !IsOutlier(HistoryFor(env, w, r), r.event.amount)
    requires !env.guardrail("pay_invoice_skill", PayArgs(r.event))
    ensures Handle(env, w, r) == (Failed, if env.readable(w.log) then w.(log := w.log + [BlockedLine(r)]) else w)
  {
    CleanExactly(env, w, r);
    BlockedCallRaises(env, w, r);
  }

  /** Held by the gate: a pending request and two entries, the second only if the first
      leaves the log readable. */
  lemma HeldOutcome(env: Env, w: World, r: Request)
    requires !Forbidden(r) && !IsOutlier(HistoryFor(env, w, r), r.event.amount)
    requires env.guardrail("pay_invoice_skill", PayArgs(r.event)) && !Passes(env, w, r) && r.event.amount >= 0
    requires env.readable(w.log)
    ensures var (o, w') := Handle(env, w, r);
            var id := PurchaseId(env, VendorName(r), r.event.amount, r.clock.m2);
            var first, second := HeldLine(r, id), EscalationLine(r, id, false);
            && Approvals.IsPending(w'.approvals, id)
            && if env.readable(w.log + [first])
               then o == EscalatedTo(id, env.digest(w.log + [first] + [second])) && w'.log == w.log + [first] + [second]
               else o == Failed && w'.log == w.log + [first]
  {
    CleanExactly(env, w, r);
    GateExactly(env, w, r);
    HeldWritesTwice(env, w, r, Gate(env, w, PayCall(r), r.clock).0.id);
    HeldApprovals(env, w, r);
  }

  lemma HeldApprovals(env: Env, w: World, r: Request)
    requires Clean(env, w, r) && env.guardrail(PAY_SKILL, PayArgs(r.event))
    requires Gate(env, w, PayCall(r), r.clock).0.ApprovalRequired?
    ensures Handle(env, w, r).1.approvals == Gate(env, w, PayCall(r), r.clock).1.approvals
  {
    var (g, w1) := Gate(env, w, PayCall(r), r.clock);
    EscalationKeepsApprovals(env, Audit(env, w1, EscalatedEntry(PayCall(r), g.id, r.clock.ts1)).1, r, g.id);
  }

  // ---- The bundled policy ----

  /** The limits, in cents. */
  const BUNDLED := Policy(
    {},
    map["Adobe" := 40_000, "AWS" := 150_000, "Figma" := 20_000, "Gusto" := 500_000, "Slack" := 30_000,
        "Google Workspace" := 40_000],
    100_000)

  lemma AdobeLimit()
    ensures "Adobe" in BUNDLED.limits && BUNDLED.limits["Adobe"] == 40_000
  {
    assert |"Adobe"| == 5;
    assert |"AWS"| == 3 && "Figma"[0] == 'F' && "Gusto"[0] == 'G' && "Slack"[0] == 'S' && |"Google Workspace"| == 16;
  }

  /** An invoice of Adobe for 450 is escalated and not paid, although it is within the
      default limit and the threshold. */
  lemma AdobeIsEscalated(env: Env, w: World, r: Request)
    requires r.event.vendor == "Adobe" && r.event.amount == 45_000 && r.policy == BUNDLED && r.threshold == 50_000
    requires env.readable(w.log)
    ensures var (o, w') := Handle(env, w, r); o.EscalatedTo? && w'.payments == w.payments
  {
    AdobeLimit();
    EscalatedOutcome(env, w, r);
  }
}
