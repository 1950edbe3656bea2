/** The resolution of one HTTP-402 vendor invoice: policy, anomaly, payment through
    the harness or escalation. */
module Handle402 {
  import opened Wrappers
  import opened Digits
  import opened Json
  import opened HashChain
  import opened Harness
  import Anomaly
  import Approvals
  import Graph
  import PyText
  import Stats

  /** The local spending policy; limits are in cents. */
  datatype Policy = Policy(blocked: set<string>, limits: map<string, int>, defaultLimit: int)

  /** `_mock_check`. */
  predicate Allowed(policy: Policy, vendor: string, amount: int) {
    && vendor !in policy.blocked
    && amount <= if vendor in policy.limits then policy.limits[vendor] else policy.defaultLimit
  }

  datatype Event = Event(vendor: string, amount: int, date: string, invoiceId: string)

  /** One call: the event, the effective threshold, and the readings of the clock. */
  datatype Request = Request(event: Event, policy: Policy, threshold: int, clock: Clock)

  datatype Outcome402 = Paid(hash: string) | EscalatedTo(id: string, hash: string) | Failed

  function Reals(s: seq<int>): (r: seq<real>)
    ensures |r| == |s| && forall i :: 0 <= i < |s| ==> r[i] == s[i] as real
  {
    seq(|s|, i requires 0 <= i < |s| => s[i] as real)
  }

  const Z_THRESHOLD: real := 2.0

  /** The invoice is an anomaly against the vendor's history in the graph. */
  predicate IsAnomalous(env: Env, w: World, e: Event) {
    Anomaly.Flagged(e.amount as real, Reals(Graph.VendorHistory(env.norm, w.graph, e.vendor)), Z_THRESHOLD)
  }

  /** This is the verdict of `score_invoice` with its square root, in any unit of
      money: cents here, dollars in the program. */
  lemma AnomalyIsScore(env: Env, w: World, e: Event, sqrt: real -> real, unit: real)
    requires Stats.IsRoot(sqrt) && unit > 0.0
    ensures var history := Reals(Graph.VendorHistory(env.norm, w.graph, e.vendor));
            IsAnomalous(env, w, e) <==>
            Anomaly.Score(sqrt, e.vendor, unit * e.amount as real, Stats.Affine(history, unit, 0.0), Z_THRESHOLD).isAnomaly
  {
    var history := Reals(Graph.VendorHistory(env.norm, w.graph, e.vendor));
    Anomaly.ScoreScales(sqrt, e.vendor, e.amount as real, history, Z_THRESHOLD, unit);
    Anomaly.FlaggedWithoutRoots(sqrt, e.vendor, e.amount as real, history, Z_THRESHOLD);
  }

  predicate Clean(env: Env, w: World, r: Request) {
    Allowed(r.policy, r.event.vendor, r.event.amount) && !IsAnomalous(env, w, r.event)
  }

  const PAY_SKILL := "pay_invoice_skill"

  function PayArgs(e: Event): Members {
    Dict([("vendor", JString(e.vendor)), ("amount", JFloat(AmountText(e.amount))), ("invoice_id", JString(e.invoiceId))])
  }

  function PayCall(r: Request): Call {
    Call(PAY_SKILL, PayArgs(r.event), "agent", Some(r.event.amount), r.event.vendor, r.threshold)
  }

  /** The pay skill sends one payment. */
  function PayEffect(e: Event): Effect {
    (w: World) => w.(payments := w.payments + [Payment(e.vendor, e.amount, e.invoiceId)])
  }

  /** The ledger entry of a payment; an invoice without a date is posted today. */
  function Posted(r: Request): LedgerEntry {
    var e := r.event;
    LedgerEntry(e.vendor, e.amount, if e.date == "" then r.clock.today else e.date, e.invoiceId)
  }

  /** Reconciliation and the graph edge after a payment. */
  function Settle(env: Env, w: World, r: Request): World {
    var e := r.event;
    w.(ledger := w.ledger + [Posted(r)],
       graph := Graph.RecordPayment(env.norm, w.graph, e.vendor, e.amount, e.date, None, Some(false)))
  }

  function EscalationEntry(r: Request, id: string, flagged: bool): AuditEntry {
    AuditEntry(r.clock.ts2, "approval_request", r.event.vendor, r.event.amount, "escalated", "agent",
               [("invoice_id", JString(r.event.invoiceId)), ("request_id", JString(id)),
                ("anomaly_flagged", JBool(flagged))])
  }

  /** `_do_escalation`: a request is created unless the harness already has one. */
  function DoEscalation(env: Env, w: World, r: Request, known: Option<string>, flagged: bool): (Outcome402, World) {
    var s := Approvals.Spend("purchase", r.event.vendor, r.event.amount);
    if known.None? && !Approvals.ValidSpend(s) then (Failed, w)
    else
      var id := if known.Some? then known.value else Approvals.RequestId(env.ids, s, r.clock.m2.day);
      var w1 := if known.Some? then w
                else w.(approvals := Approvals.Create(env.ids, w.approvals, s, r.event.invoiceId,
                                                      Approvals.DEFAULT_TTL, r.clock.m2));
      var (h, w2) := Audit(env, w1, EscalationEntry(r, id, flagged));
      (if h.Some? then EscalatedTo(id, h.value) else Failed, w2)
  }

  /** What follows the harness's answer. A blocked call has no result to reconcile,
      so it raises. */
  function Finish(env: Env, w: World, res: Result, r: Request): (Outcome402, World) {
    match res
    case Escalated(id, _) => DoEscalation(env, w, r, Some(id), false)
    case Executed(h) => (Paid(h), Settle(env, w, r))
    case _ => (Failed, w)
  }

  /** `_try_pay`. */
  function TryPay(env: Env, w: World, r: Request): (Outcome402, World) {
    var (res, w1) := Execute(env, w, PayCall(r), PayEffect(r.event), r.clock);
    Finish(env, w1, res, r)
  }

  /** `handle_402`. */
  function Handle(env: Env, w: World, r: Request): (Outcome402, World) {
    if Clean(env, w, r) then TryPay(env, w, r)
    else DoEscalation(env, w, r, None, IsAnomalous(env, w, r.event))
  }

  // ---- What a call changes ----

  /** The gate lets the payment of a clean invoice through. */
  predicate Opens(env: Env, w: World, r: Request) {
    Clean(env, w, r) && Runs(env, w, PayCall(r), r.clock)
  }

  /** Whether a call ends with a payment that is audited and settled. */
  predicate Settles(env: Env, w: World, r: Request) {
    Opens(env, w, r) && env.readable(w.log)
  }

  /** An audit entry that records no executed payment. */
  predicate IsOther(e: AuditEntry) {
    e.AuditEntry? ==> e.action != "payment"
  }

  /** `b` is `a` with up to `n` entries added, none of them an executed payment. */
  predicate AddsOthers(a: seq<AuditEntry>, b: seq<AuditEntry>, n: nat) {
    a <= b && |b| <= |a| + n && forall i :: |a| <= i < |b| ==> IsOther(b[i])
  }

  /** `h` is the digest the next entry will chain to. */
  predicate HeadIs(env: Env, w: World, h: string) {
    w.log != [] && h == env.digest(w.log)
  }

  lemma AuditAdds(env: Env, w: World, e: AuditEntry)
    ensures var (h, w') := Audit(env, w, e);
            && w' == w.(log := w'.log) && (h.Some? <==> env.readable(w.log))
            && w'.log == (if h.Some? then w.log + [e] else w.log)
            && (h.Some? ==> HeadIs(env, w', h.value))
            && (IsOther(e) ==> AddsOthers(w.log, w'.log, 1))
  {
  }

  /** An escalation touches neither payments nor ledger nor graph, adds at most one
      entry, and returns the head of the log. */
  lemma EscalationStep(env: Env, w: World, r: Request, known: Option<string>, flagged: bool)
    ensures var (o, w') := DoEscalation(env, w, r, known, flagged);
            && !o.Paid? && AddsOthers(w.log, w'.log, 1)
            && w'.payments == w.payments && w'.ledger == w.ledger && w'.graph == w.graph
            && (o.EscalatedTo? ==> HeadIs(env, w', o.hash) && |w'.log| == |w.log| + 1)
  {
    var s := Approvals.Spend("purchase", r.event.vendor, r.event.amount);
    if known.Some? || Approvals.ValidSpend(s) {
      var id := if known.Some? then known.value else Approvals.RequestId(env.ids, s, r.clock.m2.day);
      var w1 := if known.Some? then w
                else w.(approvals := Approvals.Create(env.ids, w.approvals, s, r.event.invoiceId,
                                                      Approvals.DEFAULT_TTL, r.clock.m2));
      assert "approval_request"[0] != "payment"[0];
      AuditAdds(env, w1, EscalationEntry(r, id, flagged));
    }
  }

  /** The harness on the pay skill. */
  lemma PayStep(env: Env, w: World, r: Request)
    requires Clean(env, w, r)
    ensures var (res, w1) := Execute(env, w, PayCall(r), PayEffect(r.event), r.clock);
            && w1.ledger == w.ledger && w1.graph == w.graph
            && w1.payments == (if Opens(env, w, r) then PayEffect(r.event)(w).payments else w.payments)
            && (res.Executed? <==> Settles(env, w, r))
            && (res.Executed? ==> w1.log == w.log + [ExecutedEntry(PayCall(r), r.clock.ts1)] && HeadIs(env, w1, res.hash))
            && (!res.Executed? ==> AddsOthers(w.log, w1.log, 1))
  {
    var c := PayCall(r);
    assert "access_change"[0] != "payment"[0] && "approval_request"[0] != "payment"[0];
    if !env.guardrail(c.skill, c.args) {
      AuditAdds(env, w, BlockedEntry(c, r.clock.ts1));
    } else {
      var (g, w1) := Gate(env, w, c, r.clock);
      match g {
        case ValueError =>
        case ApprovalRequired(id) => AuditAdds(env, w1, EscalatedEntry(c, id, r.clock.ts1));
        case _ => AuditAdds(env, PayEffect(r.event)(w1), ExecutedEntry(c, r.clock.ts1));
      }
    }
  }

  /** One call, in full: a payment goes out exactly when the invoice is clean, the
      guardrail passes and the gate opens; ledger, graph and an executed entry
      follow it exactly when the log can be extended; anything else touches neither
      payments nor ledger nor graph. The hash returned is always the log's head. */
  lemma CallStep(env: Env, w: World, r: Request)
    ensures var (o, w') := Handle(env, w, r);
            && w'.payments == (if Opens(env, w, r) then PayEffect(r.event)(w).payments else w.payments)
            && w'.ledger == (if Settles(env, w, r) then Settle(env, w, r).ledger else w.ledger)
            && w'.graph == (if Settles(env, w, r) then Settle(env, w, r).graph else w.graph)
            && (if Settles(env, w, r) then w'.log == w.log + [ExecutedEntry(PayCall(r), r.clock.ts1)]
                else AddsOthers(w.log, w'.log, 2))
            && (o.Paid? <==> Settles(env, w, r))
            && (o.Paid? ==> HeadIs(env, w', o.hash)) && (o.EscalatedTo? ==> HeadIs(env, w', o.hash))
  {
    if !Clean(env, w, r) {
      EscalationStep(env, w, r, None, IsAnomalous(env, w, r.event));
    } else {
      PayStep(env, w, r);
      var (res, w1) := Execute(env, w, PayCall(r), PayEffect(r.event), r.clock);
      if res.Escalated? {
        EscalationStep(env, w1, r, Some(res.id), false);
      }
    }
  }

  // ---- Escalations ----

  /** An escalation by an event over the threshold: the gate raised for `id`. */
  predicate Held(env: Env, w: World, r: Request, id: string) {
    && Clean(env, w, r) && env.guardrail(PAY_SKILL, PayArgs(r.event))
    && Gate(env, w, PayCall(r), r.clock).0 == Approvals.ApprovalRequired(id)
  }

  /** An event over the threshold writes two entries, one by the harness and one by
      the escalation; if the log cannot be extended even once more after the first,
      the call raises and leaves only that one. */
  lemma HeldWritesTwice(env: Env, w: World, r: Request, id: string)
    requires Held(env, w, r, id) && env.readable(w.log)
    ensures var (o, w') := Handle(env, w, r);
            var first, second := EscalatedEntry(PayCall(r), id, r.clock.ts1), EscalationEntry(r, id, false);
            if env.readable(w.log + [first])
            then w'.log == w.log + [first] + [second] && o == EscalatedTo(id, env.digest(w'.log))
            else w'.log == w.log + [first] && o == Failed
  {
    var c := PayCall(r);
    var w1 := Gate(env, w, c, r.clock).1;
    AuditAdds(env, w1, EscalatedEntry(c, id, r.clock.ts1));
  }

  /** A call that the guardrail blocks is audited, and then raises: it does not
      return the hash of its entry. */
  lemma BlockedCallRaises(env: Env, w: World, r: Request)
    requires Clean(env, w, r) && !env.guardrail(PAY_SKILL, PayArgs(r.event))
    ensures Handle(env, w, r).0 == Failed
    ensures Handle(env, w, r).1 ==
            if env.readable(w.log) then w.(log := w.log + [BlockedEntry(PayCall(r), r.clock.ts1)]) else w
  {
  }

  /** An invoice from a vendor whose name has an unsafe pattern in it is such a call. */
  lemma UnsafeVendorIsBlocked(skills: set<string>, e: Event, k: nat)
    requires k < |UNSAFE_PATTERNS| && PyText.Contains(e.vendor, UNSAFE_PATTERNS[k])
    ensures !BuiltinGuardrail(skills)(PAY_SKILL, PayArgs(e))
  {
    assert IsUnsafe(e.vendor);
    assert PayArgs(e).MCons? && PayArgs(e).value == JString(e.vendor);
    assert ScanUnsafe(JString(e.vendor));
    assert ScanUnsafeMembers(PayArgs(e));
  }

  const SCRIPT_EVENT := Event("<script>", 100, "2026-06-15", "inv-1")

  /** A concrete one: with an empty world and a policy that allows a dollar, a call for
      this event is blocked, audited, and raises. */
  lemma ScriptVendorRaises(env: Env, skills: set<string>, r: Request)
    requires env.guardrail == BuiltinGuardrail(skills) && env.readable([])
    requires r.event == SCRIPT_EVENT && r.policy == Policy({}, map[], 100)
    ensures var (o, w') := Handle(env, World([], map[], [], [], Graph.EMPTY), r);
            o == Failed && w'.log == [BlockedEntry(PayCall(r), r.clock.ts1)]
  {
    var w := World([], map[], [], [], Graph.EMPTY);
    assert "<script" <= "<script>"[0..];
    UnsafeVendorIsBlocked(skills, r.event, 2);
    assert Graph.VendorHistory(env.norm, w.graph, r.event.vendor) == [];
    BlockedCallRaises(env, w, r);
    assert w.log + [BlockedEntry(PayCall(r), r.clock.ts1)] == [BlockedEntry(PayCall(r), r.clock.ts1)];
  }

  /** The gate holds the call back and the log cannot be extended after its first entry. */
  predicate LocksItself(env: Env, w: World, r: Request) {
    var g := Gate(env, w, PayCall(r), r.clock).0;
    g.ApprovalRequired? && !env.readable(w.log + [EscalatedEntry(PayCall(r), g.id, r.clock.ts1)])
  }

  /** When a call answers: the amount is not negative, the log can be extended, and a
      clean invoice passes the guardrail and does not lock the log with the first of
      its two entries. */
  predicate Answers(env: Env, w: World, r: Request) {
    && r.event.amount >= 0 && env.readable(w.log)
    && (Clean(env, w, r) ==> env.guardrail(PAY_SKILL, PayArgs(r.event)) && !LocksItself(env, w, r))
  }

  /** A call returns a hash, that of the head of the log, exactly then; otherwise it raises. */
  lemma AnswersExactly(env: Env, w: World, r: Request)
    ensures var (o, w') := Handle(env, w, r);
            && (o != Failed <==> Answers(env, w, r))
            && (o != Failed ==> HeadIs(env, w', o.hash))
  {
    CallStep(env, w, r);
    if Clean(env, w, r) { CleanAnswers(env, w, r); } else { UncleanAnswers(env, w, r); }
  }

  lemma UncleanAnswers(env: Env, w: World, r: Request)
    requires !Clean(env, w, r)
    ensures Handle(env, w, r).0 != Failed <==> r.event.amount >= 0 && env.readable(w.log)
  {
    assert "purchase" in Approvals.VALID_ACTIONS;
  }

  lemma CleanAnswers(env: Env, w: World, r: Request)
    requires Clean(env, w, r)
    ensures Handle(env, w, r).0 != Failed <==> Answers(env, w, r)
  {
    var c := PayCall(r);
    assert "purchase" in Approvals.VALID_ACTIONS;
    if env.guardrail(c.skill, c.args) {
      var (g, w1) := Gate(env, w, c, r.clock);
      if g.ApprovalRequired? { AuditAdds(env, w1, EscalatedEntry(c, g.id, r.clock.ts1)); }
    }
  }

  lemma CreatedIsPending(env: Env, st: Approvals.Store, s: Approvals.Spend, context: string, ttl: int, now: Approvals.Moment)
    ensures Approvals.IsPending(Approvals.Create(env.ids, st, s, context, ttl, now), Approvals.RequestId(env.ids, s, now.day))
  {
  }

  lemma HeldIsPending(env: Env, w: World, c: Call, clock: Clock)
    requires Gate(env, w, c, clock).0.ApprovalRequired?
    ensures Approvals.IsPending(Gate(env, w, c, clock).1.approvals, Gate(env, w, c, clock).0.id)
  {
  }

  lemma TryPayPending(env: Env, w: World, r: Request)
    ensures var (o, w') := TryPay(env, w, r);
            o.EscalatedTo? ==> Approvals.IsPending(w'.approvals, o.id)
  {
    var c := PayCall(r);
    if env.guardrail(c.skill, c.args) {
      var (g, w1) := Gate(env, w, c, r.clock);
      if g.ApprovalRequired? {
        HeldIsPending(env, w, c, r.clock);
        EscalationKeepsApprovals(env, Audit(env, w1, EscalatedEntry(c, g.id, r.clock.ts1)).1, r, g.id);
      }
    }
  }

  lemma EscalationKeepsApprovals(env: Env, w: World, r: Request, id: string)
    ensures var (o, w') := DoEscalation(env, w, r, Some(id), false);
            w'.approvals == w.approvals && (o.EscalatedTo? ==> o.id == id)
  {
  }

  /** Whatever the reason for an escalation, the request it returns is pending. */
  lemma EscalationIsPending(env: Env, w: World, r: Request)
    requires Handle(env, w, r).0.EscalatedTo?
    ensures Approvals.IsPending(Handle(env, w, r).1.approvals, Handle(env, w, r).0.id)
  {
    if Clean(env, w, r) {
      TryPayPending(env, w, r);
    } else {
      var s := Approvals.Spend("purchase", r.event.vendor, r.event.amount);
      CreatedIsPending(env, w.approvals, s, r.event.invoiceId, Approvals.DEFAULT_TTL, r.clock.m2);
    }
  }
}
