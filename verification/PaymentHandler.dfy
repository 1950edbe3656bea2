/** The 402 pipeline as the program runs it: one log file, one approval gate, one
    vendor graph and one ledger, updated in place. */
module PaymentHandler {
  import opened Wrappers
  import opened Json
  import opened HashChain
  import opened HashChainFiles
  import opened HashChainRuns
  import opened Harness
  import opened Handle402
  import opened AuditedRuns
  import opened AuditTrail
  import opened CallOutcomes
  import Anomaly
  import Approvals
  import Graph
  import AuditLog
  import ApprovalGate
  import VendorGraph

  predicate Distinct(a: object, b: object, c: object, d: object) {
    a != b && a != c && a != d && b != c && b != d && c != d
  }

  class Handler {
    const p: Platform
    const ids: Approvals.IdHash
    const norm: Graph.Norm
    const skills: set<string>
    const audit: AuditLog.Log
    const gate: ApprovalGate.Gate
    const graph: VendorGraph.KnowledgeGraph
    var payments: seq<Payment>
    var ledger: seq<LedgerEntry>
    ghost var log: seq<AuditEntry>

    ghost function Setting(): Env {
      RealEnv(p, ids, norm, skills)
    }

    /** The file is the sealed form of the entries, and verifies. */
    ghost predicate Valid()
      reads this, audit, gate, graph
    {
      && Distinct(this, audit, gate, graph)
      && StableRepr(p.repr) && audit.p == p && gate.h == ids && graph.norm == norm
      && graph.Valid() && Keeps(audit, log)
    }

    ghost function State(): World
      reads this, gate, graph
    {
      World(log, gate.store, payments, ledger, graph.Contents())
    }

    constructor (p: Platform, ids: Approvals.IdHash, norm: Graph.Norm, skills: set<string>)
      requires StableRepr(p.repr)
      ensures Valid() && Setting() == RealEnv(p, ids, norm, skills)
      ensures State() == World([], map[], [], [], Graph.EMPTY) && audit.file == []
      ensures fresh(audit) && fresh(gate) && fresh(graph)
    {
      this.p, this.ids, this.norm, this.skills := p, ids, norm, skills;
      audit := new AuditLog.Log(p);
      gate := new ApprovalGate.Gate(ids);
      graph := new VendorGraph.KnowledgeGraph(norm);
      payments, ledger, log := [], [], [];
    }

    /** One append to the log file. */
    method Append(e: AuditEntry) returns (h: Option<string>)
      requires Valid() && Fit(p)(e)
      modifies this`log, audit
      ensures Valid() && (h, State()) == Audit(Setting(), old(State()), e)
    {
      ghost var w: World;
      h, w := AppendEntry(audit, ids, norm, skills, State(), e);
      log := w.log;
      assert State() == w;
    }

    method BlockCall(c: Call, ts: string) returns (res: Harness.Result)
      requires Valid()
      modifies this`log, audit
      ensures Valid() && (res, State()) == Block(Setting(), old(State()), c, ts)
    {
      HarnessEntriesGood(p, c, "", ts);
      var h := Append(BlockedEntry(c, ts));
      res := if h.Some? then Blocked(h.value) else Halted;
    }

    method HoldCall(c: Call, id: string, ts: string) returns (res: Harness.Result)
      requires Valid()
      modifies this`log, audit
      ensures Valid() && (res, State()) == Hold(Setting(), old(State()), c, id, ts)
    {
      HarnessEntriesGood(p, c, id, ts);
      var h := Append(EscalatedEntry(c, id, ts));
      res := if h.Some? then Escalated(id, h.value) else Halted;
    }

    /** The pay skill, and the audit entry of the call that ran it. */
    method RunPay(c: Call, e: Event, ts: string) returns (res: Harness.Result)
      requires Valid()
      modifies this`log, this`payments, audit
      ensures Valid() && (res, State()) == RunSkill(Setting(), old(State()), c, PayEffect(e), ts)
    {
      HarnessEntriesGood(p, c, "", ts);
      payments := payments + [Payment(e.vendor, e.amount, e.invoiceId)];
      assert State() == PayEffect(e)(old(State()));
      var h := Append(ExecutedEntry(c, ts));
      res := if h.Some? then Executed(h.value) else Halted;
    }

    method Enforce(s: Approvals.Spend, threshold: int, clock: Clock) returns (g: Approvals.Gate)
      requires Valid()
      modifies gate
      ensures Valid()
      ensures var (g', st) := Approvals.Enforce(ids, old(gate.store), s, threshold, clock.m1, clock.m2);
              g == g' && State() == old(State()).(approvals := st)
    {
      g := gate.EnforceSpend(s, threshold, clock.m1, clock.m2, clock.m2.utc);
    }

    method GateCall(c: Call, clock: Clock) returns (g: Approvals.Gate)
      requires Valid()
      modifies gate
      ensures Valid() && (g, State()) == Harness.Gate(Setting(), old(State()), c, clock)
    {
      if c.amount.Some? {
        g := Enforce(SpendOf(c), c.threshold, clock);
      } else {
        g := Approvals.AutoApproved;
      }
    }

    method ProceedCall(g: Approvals.Gate, c: Call, e: Event, ts: string) returns (res: Harness.Result)
      requires Valid()
      modifies this`log, this`payments, audit
      ensures Valid() && (res, State()) == Proceed(Setting(), old(State()), g, c, PayEffect(e), ts)
    {
      if g.ValueError? {
        res := Halted;
      } else if g.ApprovalRequired? {
        res := HoldCall(c, g.id, ts);
      } else {
        res := RunPay(c, e, ts);
      }
    }

    /** `execute`, on a call whose skill pays for `e`. */
    method ExecuteCall(c: Call, e: Event, clock: Clock) returns (res: Harness.Result)
      requires Valid()
      modifies this`log, this`payments, audit, gate
      ensures Valid()
      ensures (res, State()) == Execute(Setting(), old(State()), c, PayEffect(e), clock)
    {
      if c.skill !in skills || ScanUnsafeMembers(c.args) {
        res := BlockCall(c, clock.ts1);
        return;
      }
      var g := GateCall(c, clock);
      res := ProceedCall(g, c, e, clock.ts1);
    }

    method Escalate(r: Request, known: Option<string>, flagged: bool) returns (o: Outcome402)
      requires Valid()
      modifies this`log, audit, gate
      ensures Valid()
      ensures (o, State()) == DoEscalation(Setting(), old(State()), r, known, flagged)
    {
      var id := known;
      if id.None? {
        id := gate.CreateRequest(Approvals.Spend("purchase", r.event.vendor, r.event.amount), r.event.invoiceId,
                                 Approvals.DEFAULT_TTL, r.clock.m2);
        if id.None? {
          return Failed;
        }
      }
      EscalationEntryGood(p, r, id.value, flagged);
      var h := Append(EscalationEntry(r, id.value, flagged));
      o := if h.Some? then EscalatedTo(id.value, h.value) else Failed;
    }

    method RecordEdge(e: Event)
      requires Valid()
      modifies graph
      ensures Valid()
      ensures State() == old(State()).(graph := Graph.RecordPayment(norm, old(graph.Contents()), e.vendor, e.amount, e.date, None, Some(false)))
    {
      graph.RecordPayment(e.vendor, e.amount, e.date, None, Some(false));
    }

    /** Reconcile, and record the payment in the graph. */
    method SettlePayment(r: Request)
      requires Valid()
      modifies this`ledger, graph
      ensures Valid() && State() == Settle(Setting(), old(State()), r)
    {
      ledger := ledger + [Posted(r)];
      RecordEdge(r.event);
    }

    method FinishCall(res: Harness.Result, r: Request) returns (o: Outcome402)
      requires Valid()
      modifies this`log, this`ledger, audit, gate, graph
      ensures Valid() && (o, State()) == Finish(Setting(), old(State()), res, r)
    {
      match res {
        case Escalated(id, _) =>
          o := Escalate(r, Some(id), false);
        case Executed(h) =>
          SettlePayment(r);
          o := Paid(h);
        case _ =>
          o := Failed;
      }
    }

    method Pay(r: Request) returns (o: Outcome402)
      requires Valid()
      modifies this, audit, gate, graph
      ensures Valid() && (o, State()) == TryPay(Setting(), old(State()), r)
    {
      var res := ExecuteCall(PayCall(r), r.event, r.clock);
      o := FinishCall(res, r);
    }

    /** `handle_402`: it does what the machine of the run theorems does, on a log
        file that keeps verifying and whose last digest is the hash it returns. */
    method Handle402(r: Request) returns (o: Outcome402)
      requires Valid()
      modifies this, audit, gate, graph
      ensures Valid()
      ensures (o, State()) == Handle(Setting(), old(State()), r)
      ensures o.Paid? <==> Pays(Setting(), old(State()), r) && Setting().readable(old(State()).log)
      ensures VerifyFile(p, audit.file) == Intact(|log|)
      ensures o.Paid? || o.EscalatedTo? ==> FullScanHead(p, audit.file) == Head(JString(o.hash), |log|)
    {
      ghost var before := State();
      var history := graph.VendorHistory(r.event.vendor);
      var flagged := Anomaly.Flagged(r.event.amount as real, Reals(history), Z_THRESHOLD);
      if Allowed(r.policy, r.event.vendor, r.event.amount) && !flagged {
        o := Pay(r);
      } else {
        o := Escalate(r, None, flagged);
      }
      CallStep(Setting(), before, r);
      OpensExactly(Setting(), before, r);
      BuiltFileVerifies(p, audit.entries);
      TailReadRefinesFullScan(p, audit.entries);
    }
  }
}
