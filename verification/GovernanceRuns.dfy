/** Whole runs of the spend machine: 402 invoices, human approval operations and
    entries by the other writers of the log, in any order. Money is conserved across
    log, ledger and graph, and every payment was allowed. */
module GovernanceRuns {
  import opened Wrappers
  import opened Harness
  import opened Handle402
  import opened HashChain
  import Approvals
  import Graph
  import opened KeyLists
  import opened Outliers
  import StableSort

  datatype Step = Invoice(r: Request) | Human(op: Approvals.Op) | Logs(draft: Draft)

  function Do(env: Env, w: World, s: Step): World {
    match s
    case Invoice(r) => Handle(env, w, r).1
    case Human(op) => w.(approvals := Approvals.Step(env.ids, w.approvals, op))
    case Logs(d) => if Admissible(d) then Audit(env, w, Foreign(d)).1 else w
  }

  const START := World([], map[], [], [], Graph.EMPTY)

  function RunAll(env: Env, steps: seq<Step>): World {
    if steps == [] then START else Do(env, RunAll(env, steps[..|steps| - 1]), steps[|steps| - 1])
  }

  // ---- Conservation ----

  /** What an audit entry of the spend machine records as paid. */
  function ExecutedAmount(e: AuditEntry): int {
    if e.AuditEntry? && e.action == "payment" && e.decision == "executed" then e.amount else 0
  }

  function ExecutedTotal(log: seq<AuditEntry>): int {
    if log == [] then 0 else ExecutedTotal(log[..|log| - 1]) + ExecutedAmount(log[|log| - 1])
  }

  function LedgerTotal(ledger: seq<LedgerEntry>): int {
    if ledger == [] then 0 else LedgerTotal(ledger[..|ledger| - 1]) + ledger[|ledger| - 1].amount
  }

  function PaymentTotal(ps: seq<Payment>): int {
    if ps == [] then 0 else PaymentTotal(ps[..|ps| - 1]) + ps[|ps| - 1].amount
  }

  function EdgeTotal(edges: seq<Graph.Edge>): int {
    if edges == [] then 0 else EdgeTotal(edges[..|edges| - 1]) + edges[|edges| - 1].amount
  }

  /** The payments under the first `n` vendors of the graph. */
  function GraphTotalTo(g: Graph.Graph, n: nat): int
    requires n <= |g.order|
  {
    if n == 0 then 0 else GraphTotalTo(g, n - 1) + EdgeTotal(Graph.EdgesOf(g, g.order[n - 1]))
  }

  function GraphTotal(g: Graph.Graph): int {
    GraphTotalTo(g, |g.order|)
  }

  lemma {:induction false} InsertTotal(edges: seq<Graph.Edge>, e: Graph.Edge)
    ensures EdgeTotal(StableSort.Insert(Graph.ByDate(), edges, e)) == EdgeTotal(edges) + e.amount
  {
    var r := StableSort.Insert(Graph.ByDate(), edges, e);
    if edges == [] {
      assert r[..0] == [];
    } else {
      var init := edges[..|edges| - 1];
      InsertTotal(init, e);
      assert r[..|r| - 1] == edges || r[..|r| - 1] == StableSort.Insert(Graph.ByDate(), init, e);
    }
  }

  lemma SortedTotal(edges: seq<Graph.Edge>, e: Graph.Edge)
    requires StableSort.Sorted(Graph.ByDate(), edges)
    ensures EdgeTotal(StableSort.Sort(Graph.ByDate(), edges + [e])) == EdgeTotal(edges) + e.amount
  {
    StableSort.SortSorted(Graph.ByDate(), edges);
    assert (edges + [e])[..|edges|] == edges;
    InsertTotal(edges, e);
  }

  /** Changing the edges of one vendor changes the total by the difference. */
  lemma {:induction false} OneVendorTotal(g: Graph.Graph, g': Graph.Graph, key: string, delta: int, n: nat)
    requires n <= |g.order| && g'.order == g.order && NoRepeats(g.order)
    requires forall k :: k in g.order && k != key ==> Graph.EdgesOf(g', k) == Graph.EdgesOf(g, k)
    requires EdgeTotal(Graph.EdgesOf(g', key)) == EdgeTotal(Graph.EdgesOf(g, key)) + delta
    ensures GraphTotalTo(g', n) == GraphTotalTo(g, n) + if key in g.order[..n] then delta else 0
  {
    if n > 0 {
      OneVendorTotal(g, g', key, delta, n - 1);
      assert g.order[..n] == g.order[..n - 1] + [g.order[n - 1]];
      assert g.order[n - 1] !in g.order[..n - 1];
    }
  }

  /** Graphs that agree on the edges of their first `n` vendors agree on the total. */
  lemma {:induction false} SameTotalTo(g: Graph.Graph, g': Graph.Graph, n: nat)
    requires n <= |g.order| && n <= |g'.order|
    requires forall i :: 0 <= i < n ==>
               g'.order[i] == g.order[i] && Graph.EdgesOf(g', g.order[i]) == Graph.EdgesOf(g, g.order[i])
    ensures GraphTotalTo(g', n) == GraphTotalTo(g, n)
  {
    if n > 0 { SameTotalTo(g, g', n - 1); }
  }

  lemma NewVendorTotal(norm: Graph.Norm, g: Graph.Graph, name: string, category: Option<string>)
    requires Graph.Valid(norm, g) && norm(name) !in g.vendors
    ensures GraphTotal(Graph.AddVendor(norm, g, name, category, map[])) == GraphTotal(g)
  {
    var g' := Graph.AddVendor(norm, g, name, category, map[]);
    forall i | 0 <= i < |g.order|
      ensures g'.order[i] == g.order[i] && Graph.EdgesOf(g', g.order[i]) == Graph.EdgesOf(g, g.order[i])
    {
      assert g.order[i] in g.order;
    }
    SameTotalTo(g, g', |g.order|);
  }

  lemma WithVendorTotal(norm: Graph.Norm, g: Graph.Graph, vendor: string, category: Option<string>)
    requires Graph.Idempotent(norm) && Graph.Valid(norm, g)
    ensures var g1 := Graph.WithVendor(norm, g, vendor, category);
            && Graph.Valid(norm, g1) && norm(vendor) in g1.order && GraphTotal(g1) == GraphTotal(g)
  {
    Graph.AddVendorValid(norm, g, vendor, category, map[]);
    if norm(vendor) !in g.vendors {
      NewVendorTotal(norm, g, vendor, category);
    }
  }

  lemma ReplacedTotal(norm: Graph.Norm, g: Graph.Graph, key: string, edges: seq<Graph.Edge>, delta: int)
    requires Graph.Valid(norm, g) && key in g.order && EdgeTotal(edges) == EdgeTotal(Graph.EdgesOf(g, key)) + delta
    ensures GraphTotal(g.(payments := g.payments[key := edges])) == GraphTotal(g) + delta
  {
    OneVendorTotal(g, g.(payments := g.payments[key := edges]), key, delta, |g.order|);
    assert g.order[..|g.order|] == g.order;
  }

  /** Recording a payment adds its amount to the graph, once. */
  lemma RecordTotal(norm: Graph.Norm, g: Graph.Graph, vendor: string, amount: int, date: string,
                    category: Option<string>, flag: Option<bool>)
    requires Graph.Idempotent(norm) && Graph.Valid(norm, g)
    ensures GraphTotal(Graph.RecordPayment(norm, g, vendor, amount, date, category, flag)) == GraphTotal(g) + amount
  {
    WithVendorTotal(norm, g, vendor, category);
    var g1, key := Graph.WithVendor(norm, g, vendor, category), norm(vendor);
    var edge := Graph.Edge(Graph.Target(key), amount, date, Graph.OrOther(category, Graph.CategoryOf(g1, key)), flag);
    SortedTotal(Graph.EdgesOf(g1, key), edge);
    ReplacedTotal(norm, g1, key, StableSort.Sort(Graph.ByDate(), Graph.EdgesOf(g1, key) + [edge]), amount);
  }

  lemma {:induction false} OthersAddNothing(a: seq<AuditEntry>, b: seq<AuditEntry>, n: nat)
    requires AddsOthers(a, b, n)
    ensures ExecutedTotal(b) == ExecutedTotal(a)
    decreases |b|
  {
    if |b| > |a| {
      OthersAddNothing(a, b[..|b| - 1], n);
    } else {
      assert a == b;
    }
  }

  /** A payment that goes out although its audit entry cannot be written. */
  function Unaudited(env: Env, w: World, s: Step): int {
    if s.Invoice? && Opens(env, w, s.r) && !env.readable(w.log) then s.r.event.amount else 0
  }

  /** What a step pays, audits and settles. */
  function Settled(env: Env, w: World, s: Step): int {
    if s.Invoice? && Settles(env, w, s.r) then s.r.event.amount else 0
  }

  lemma LedgerGrows(ledger: seq<LedgerEntry>, x: LedgerEntry)
    ensures LedgerTotal(ledger + [x]) == LedgerTotal(ledger) + x.amount
  {
    assert (ledger + [x])[..|ledger|] == ledger;
  }

  lemma PaymentsGrow(ps: seq<Payment>, x: Payment)
    ensures PaymentTotal(ps + [x]) == PaymentTotal(ps) + x.amount
  {
    assert (ps + [x])[..|ps|] == ps;
  }

  lemma LogGrows(log: seq<AuditEntry>, x: AuditEntry)
    ensures ExecutedTotal(log + [x]) == ExecutedTotal(log) + ExecutedAmount(x)
  {
    assert (log + [x])[..|log|] == log;
  }

  lemma LedgerStep(env: Env, w: World, s: Step)
    ensures LedgerTotal(Do(env, w, s).ledger) == LedgerTotal(w.ledger) + Settled(env, w, s)
  {
    if s.Invoice? {
      CallStep(env, w, s.r);
      LedgerGrows(w.ledger, Posted(s.r));
    }
  }

  lemma PaymentStep(env: Env, w: World, s: Step)
    ensures PaymentTotal(Do(env, w, s).payments)
         == PaymentTotal(w.payments) + Settled(env, w, s) + Unaudited(env, w, s)
  {
    if s.Invoice? {
      var e := s.r.event;
      CallStep(env, w, s.r);
      PaymentsGrow(w.payments, Payment(e.vendor, e.amount, e.invoiceId));
    }
  }

  lemma LogStep(env: Env, w: World, s: Step)
    ensures ExecutedTotal(Do(env, w, s).log) == ExecutedTotal(w.log) + Settled(env, w, s)
  {
    if s.Invoice? {
      CallStep(env, w, s.r);
      if Settles(env, w, s.r) {
        var x := ExecutedEntry(PayCall(s.r), s.r.clock.ts1);
        assert ExecutedAmount(x) == s.r.event.amount;
        LogGrows(w.log, x);
      } else {
        OthersAddNothing(w.log, Do(env, w, s).log, 2);
      }
    } else if s.Logs? {
      LogGrows(w.log, Foreign(s.draft));
    }
  }

  lemma GraphStep(env: Env, w: World, s: Step)
    requires Graph.Idempotent(env.norm) && Graph.Valid(env.norm, w.graph)
    ensures Graph.Valid(env.norm, Do(env, w, s).graph)
    ensures GraphTotal(Do(env, w, s).graph) == GraphTotal(w.graph) + Settled(env, w, s)
  {
    if s.Invoice? {
      var e := s.r.event;
      CallStep(env, w, s.r);
      if Settles(env, w, s.r) {
        RecordTotal(env.norm, w.graph, e.vendor, e.amount, e.date, None, Some(false));
        Graph.RecordPaymentValid(env.norm, w.graph, e.vendor, e.amount, e.date, None, Some(false));
      }
    }
  }

  /** One step adds the same amount to the executed entries, the ledger and the
      graph, and pays out that amount, and more only if the log cannot be extended. */
  lemma StepConserves(env: Env, w: World, s: Step)
    requires Graph.Idempotent(env.norm) && Graph.Valid(env.norm, w.graph)
    ensures var w', d := Do(env, w, s), Settled(env, w, s);
            && Graph.Valid(env.norm, w'.graph)
            && LedgerTotal(w'.ledger) == LedgerTotal(w.ledger) + d
            && ExecutedTotal(w'.log) == ExecutedTotal(w.log) + d
            && GraphTotal(w'.graph) == GraphTotal(w.graph) + d
            && PaymentTotal(w'.payments) == PaymentTotal(w.payments) + d + Unaudited(env, w, s)
  {
    LedgerStep(env, w, s);
    PaymentStep(env, w, s);
    LogStep(env, w, s);
    GraphStep(env, w, s);
  }

  function UnauditedTotal(env: Env, steps: seq<Step>): int {
    if steps == [] then 0
    else UnauditedTotal(env, steps[..|steps| - 1])
         + Unaudited(env, RunAll(env, steps[..|steps| - 1]), steps[|steps| - 1])
  }

  /** Conservation over every run: the executed audit entries, the ledger and the
      graph hold the same amount, and what was paid out exceeds it by exactly the
      payments that met an unreadable log. */
  lemma {:induction false} MoneyIsConserved(env: Env, steps: seq<Step>)
    requires Graph.Idempotent(env.norm)
    ensures var w := RunAll(env, steps);
            && Graph.Valid(env.norm, w.graph)
            && ExecutedTotal(w.log) == LedgerTotal(w.ledger) == GraphTotal(w.graph)
            && PaymentTotal(w.payments) == LedgerTotal(w.ledger) + UnauditedTotal(env, steps)
  {
    if steps != [] {
      MoneyIsConserved(env, steps[..|steps| - 1]);
      StepConserves(env, RunAll(env, steps[..|steps| - 1]), steps[|steps| - 1]);
    }
  }

  // ---- Every payment was allowed ----

  /** Step `n` of the run sent payment `k`. */
  ghost predicate SentBy(env: Env, steps: seq<Step>, k: nat, n: nat) {
    && n < |steps| && steps[n].Invoice?
    && var w := RunAll(env, steps[..n]);
    && k == |w.payments| && k < |RunAll(env, steps).payments|
    && Opens(env, w, steps[n].r)
    && RunAll(env, steps).payments[k]
       == Payment(steps[n].r.event.vendor, steps[n].r.event.amount, steps[n].r.event.invoiceId)
  }

  /** One step sends at most the payment of its own invoice. */
  lemma StepSends(env: Env, w: World, s: Step)
    ensures var w' := Do(env, w, s);
            || w'.payments == w.payments
            || (&& s.Invoice? && Opens(env, w, s.r)
                && w'.payments == w.payments + [Payment(s.r.event.vendor, s.r.event.amount, s.r.event.invoiceId)])
  {
    if s.Invoice? { CallStep(env, w, s.r); }
  }

  lemma SenderKept(env: Env, steps: seq<Step>, s: Step, k: nat, n: nat)
    requires SentBy(env, steps, k, n)
    ensures SentBy(env, steps + [s], k, n)
  {
    StepSends(env, RunAll(env, steps), s);
    assert (steps + [s])[..|steps|] == steps && (steps + [s])[..n] == steps[..n];
  }

  lemma SenderIsLast(env: Env, steps: seq<Step>, s: Step, k: nat)
    requires |RunAll(env, steps).payments| <= k < |RunAll(env, steps + [s]).payments|
    ensures SentBy(env, steps + [s], k, |steps|)
  {
    StepSends(env, RunAll(env, steps), s);
    assert (steps + [s])[..|steps|] == steps;
  }

  lemma {:induction false} PaymentHasSender(env: Env, steps: seq<Step>, k: nat) returns (n: nat)
    requires k < |RunAll(env, steps).payments|
    ensures SentBy(env, steps, k, n)
    decreases |steps|
  {
    var before, s := steps[..|steps| - 1], steps[|steps| - 1];
    assert steps == before + [s];
    if k < |RunAll(env, before).payments| {
      n := PaymentHasSender(env, before, k);
      SenderKept(env, before, s, k, n);
    } else {
      n := |before|;
      SenderIsLast(env, before, s, k);
    }
  }

  /** The approval operations a step amounts to. */
  function OpsOf(env: Env, w: World, s: Step): seq<Approvals.Op> {
    match s
    case Human(op) => [op]
    case Logs(_) => []
    case Invoice(r) =>
      if !Clean(env, w, r) then
        [Approvals.CreateOp(Approvals.Spend("purchase", r.event.vendor, r.event.amount), r.event.invoiceId,
                            Approvals.DEFAULT_TTL, r.clock.m2)]
      else if env.guardrail(PAY_SKILL, PayArgs(r.event)) then
        [Approvals.EnforceOp(SpendOf(PayCall(r)), r.threshold, r.clock.m1, r.clock.m2)]
      else []
  }

  function AllOps(env: Env, steps: seq<Step>): seq<Approvals.Op> {
    if steps == [] then []
    else AllOps(env, steps[..|steps| - 1]) + OpsOf(env, RunAll(env, steps[..|steps| - 1]), steps[|steps| - 1])
  }

  lemma EscalationApprovals(env: Env, w: World, r: Request, known: Option<string>, flagged: bool)
    ensures var s := Approvals.Spend("purchase", r.event.vendor, r.event.amount);
            DoEscalation(env, w, r, known, flagged).1.approvals ==
            if known.Some? || !Approvals.ValidSpend(s) then w.approvals
            else Approvals.Create(env.ids, w.approvals, s, r.event.invoiceId, Approvals.DEFAULT_TTL, r.clock.m2)
  {
  }

  lemma ExecuteApprovals(env: Env, w: World, c: Call, e: Event, clock: Clock)
    requires c.amount.Some?
    ensures Execute(env, w, c, PayEffect(e), clock).1.approvals ==
            if !env.guardrail(c.skill, c.args) then w.approvals
            else Approvals.Enforce(env.ids, w.approvals, SpendOf(c), c.threshold, clock.m1, clock.m2).1
  {
  }

  lemma TryPayApprovals(env: Env, w: World, r: Request)
    ensures TryPay(env, w, r).1.approvals == Execute(env, w, PayCall(r), PayEffect(r.event), r.clock).1.approvals
  {
    var (res, w1) := Execute(env, w, PayCall(r), PayEffect(r.event), r.clock);
    if res.Escalated? { EscalationApprovals(env, w1, r, Some(res.id), false); }
  }

  lemma StepApprovals(env: Env, w: World, s: Step)
    ensures var ops := OpsOf(env, w, s);
            Do(env, w, s).approvals == if ops == [] then w.approvals else Approvals.Step(env.ids, w.approvals, ops[0])
  {
    if s.Invoice? {
      if Clean(env, w, s.r) {
        TryPayApprovals(env, w, s.r);
        ExecuteApprovals(env, w, PayCall(s.r), s.r.event, s.r.clock);
      } else {
        EscalationApprovals(env, w, s.r, None, IsAnomalous(env, w, s.r.event));
      }
    }
  }

  /** The approval store of a run is that of its approval operations. */
  lemma {:induction false} ApprovalsProject(env: Env, steps: seq<Step>)
    ensures RunAll(env, steps).approvals == Approvals.Run(env.ids, AllOps(env, steps))
  {
    if steps != [] {
      var before, s := steps[..|steps| - 1], steps[|steps| - 1];
      ApprovalsProject(env, before);
      StepApprovals(env, RunAll(env, before), s);
      var ops := OpsOf(env, RunAll(env, before), s);
      if ops == [] {
        assert AllOps(env, before) + ops == AllOps(env, before);
      } else {
        assert ops == [ops[0]];
        Approvals.RunStep(env.ids, AllOps(env, before), ops[0]);
      }
    }
  }

  /** What justified step `n`: the vendor is not blocked, the amount is within the vendor's
      own limit or, if it has none, the default, and no outlier among the amounts recorded
      for the vendor just before; and it was within the threshold or covered by a decision
      `j`, in time, on a request created by operation `i` for the same spend on the same
      day, unless two keys share a request id. */
  ghost predicate Justified(env: Env, steps: seq<Step>, n: nat, i: nat, j: nat)
    requires n < |steps| && steps[n].Invoice?
  {
    var r := steps[n].r;
    var vendor, amount, policy := r.event.vendor, r.event.amount, r.policy;
    && vendor !in policy.blocked
    && (vendor in policy.limits ==> amount <= policy.limits[vendor])
    && (vendor !in policy.limits ==> amount <= policy.defaultLimit)
    && !IsOutlier(Graph.VendorHistory(env.norm, RunAll(env, steps[..n]).graph, vendor), amount)
    && (r.event.amount <= r.threshold
        || Approvals.Covered(env.ids, AllOps(env, steps[..n]), SpendOf(PayCall(r)), r.clock.m1.day, i, j))
  }

  lemma OpenMeansReleased(env: Env, w: World, r: Request)
    requires Opens(env, w, r) && r.event.amount > r.threshold
    ensures Approvals.Enforce(env.ids, w.approvals, SpendOf(PayCall(r)), r.threshold, r.clock.m1, r.clock.m2).0.Released?
  {
  }

  /** Safety over every run: each payment has a step that sent it, and that step was
      justified when it was taken. */
  lemma EveryPaymentJustified(env: Env, steps: seq<Step>, k: nat) returns (n: nat, i: nat, j: nat)
    requires k < |RunAll(env, steps).payments|
    ensures SentBy(env, steps, k, n) && Justified(env, steps, n, i, j)
  {
    n := PaymentHasSender(env, steps, k);
    var r := steps[n].r;
    AnomalousExactly(env, RunAll(env, steps[..n]), r.event);
    i, j := 0, 0;
    if r.event.amount > r.threshold {
      ApprovalsProject(env, steps[..n]);
      OpenMeansReleased(env, RunAll(env, steps[..n]), r);
      i, j := Approvals.ReleaseNeedsOwnApproval(env.ids, AllOps(env, steps[..n]), SpendOf(PayCall(r)), r.threshold, r.clock.m1, r.clock.m2);
    }
  }
}
