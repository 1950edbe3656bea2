/** What an entry that cannot be read back does to the spend machine: the log, the
    ledger and the graph never change again, while payments still go out. */
module LockedRuns {
  import opened Wrappers
  import opened Sequences
  import opened Json
  import opened JsonText
  import opened HashChain
  import opened HashChainRuns
  import opened HashChainLimits
  import opened Harness
  import opened Handle402
  import opened GovernanceRuns
  import opened AuditedRuns
  import Approvals
  import Graph

  /** The books of two worlds are the same; payments and approvals may differ. */
  predicate SameBooks(w: World, w': World) {
    w'.log == w.log && w'.ledger == w.ledger && w'.graph == w.graph
  }

  // ---- An unreadable log never changes again ----

  lemma UnreadableAudit(env: Env, w: World, e: AuditEntry)
    requires !env.readable(w.log)
    ensures Audit(env, w, e) == (None, w)
  {
  }

  lemma UnreadableExecute(env: Env, w: World, r: Request)
    requires !env.readable(w.log)
    ensures var (res, w') := Execute(env, w, PayCall(r), PayEffect(r.event), r.clock);
            res == Halted && SameBooks(w, w')
  {
    var c := PayCall(r);
    UnreadableAudit(env, w, BlockedEntry(c, r.clock.ts1));
    var (g, w1) := Gate(env, w, c, r.clock);
    if g.ApprovalRequired? { UnreadableAudit(env, w1, EscalatedEntry(c, g.id, r.clock.ts1)); }
    UnreadableAudit(env, PayEffect(r.event)(w1), ExecutedEntry(c, r.clock.ts1));
  }

  lemma UnreadableEscalation(env: Env, w: World, r: Request, flagged: bool)
    requires !env.readable(w.log)
    ensures SameBooks(w, DoEscalation(env, w, r, None, flagged).1)
  {
  }

  lemma UnreadableStep(env: Env, w: World, s: Step)
    requires !env.readable(w.log)
    ensures SameBooks(w, Do(env, w, s))
  {
    match s
    case Invoice(r) =>
      if Clean(env, w, r) {
        UnreadableExecute(env, w, r);
      } else {
        UnreadableEscalation(env, w, r, IsAnomalous(env, w, r.event));
      }
    case Human(_) =>
    case Logs(d) => UnreadableAudit(env, w, Foreign(d));
  }

  lemma {:induction false} UnreadableIsFinal(env: Env, steps: seq<Step>, more: seq<Step>)
    requires !env.readable(RunAll(env, steps).log)
    ensures SameBooks(RunAll(env, steps), RunAll(env, steps + more))
  {
    if more == [] {
      NothingAdded(steps);
    } else {
      var init, last := more[..|more| - 1], more[|more| - 1];
      UnreadableIsFinal(env, steps, init);
      ApartLast(more);
      Associate(steps, init, [last]);
      Parts(steps + init, [last]);
      UnreadableStep(env, RunAll(env, steps + init), last);
    }
  }

  // ---- What makes it unreadable ----

  lemma LockedLog(p: Platform, log: seq<AuditEntry>, e: AuditEntry, s: string)
    requires WellFormedDraft(p, ToDraft(p, e)) && Carries(ToDraft(p, e), s) && Locks(s)
    ensures !TailReadable(SealAll(p, log + [e]))
  {
    var es := SealAll(p, log);
    SealAllStep(p, log, e);
    SealedIsUnreadable(p, ToDraft(p, e), |es|, PrevHash(es, |es|), s);
  }

  lemma RunStep(env: Env, steps: seq<Step>, s: Step)
    ensures RunAll(env, steps + [s]) == Do(env, RunAll(env, steps), s)
  {
    Parts(steps, [s]);
  }

  lemma PaymentLocks(p: Platform, ids: Approvals.IdHash, norm: Graph.Norm, skills: set<string>, w: World, r: Request)
    requires StableRepr(p.repr) && Settles(RealEnv(p, ids, norm, skills), w, r) && Locks(r.event.vendor)
    ensures var env := RealEnv(p, ids, norm, skills); !env.readable(Do(env, w, Invoice(r)).log)
  {
    var env := RealEnv(p, ids, norm, skills);
    var e := ExecutedEntry(PayCall(r), r.clock.ts1);
    CallStep(env, w, r);
    ExecutedEntryGood(p, PayCall(r), r.clock.ts1);
    ActionCarries(ToDraft(p, e));
    LockedLog(p, w.log, e, r.event.vendor);
  }

  /** After a settled payment to a vendor whose name locks the log, whatever follows, no
      entry is written, nothing is posted and no edge is recorded. */
  lemma LockingPaymentIsLast(p: Platform, ids: Approvals.IdHash, norm: Graph.Norm, skills: set<string>,
                             steps: seq<Step>, r: Request, more: seq<Step>)
    requires StableRepr(p.repr)
    requires var env := RealEnv(p, ids, norm, skills);
             Settles(env, RunAll(env, steps), r) && Locks(r.event.vendor)
    ensures var env := RealEnv(p, ids, norm, skills);
            SameBooks(RunAll(env, steps + [Invoice(r)]), RunAll(env, (steps + [Invoice(r)]) + more))
  {
    var env := RealEnv(p, ids, norm, skills);
    PaymentLocks(p, ids, norm, skills, RunAll(env, steps), r);
    RunStep(env, steps, Invoice(r));
    UnreadableIsFinal(env, steps + [Invoice(r)], more);
  }

  lemma ForeignStep(env: Env, w: World, d: Draft)
    requires Admissible(d)
    ensures Do(env, w, Logs(d)).log == if env.readable(w.log) then w.log + [Foreign(d)] else w.log
  {
  }

  lemma ForeignLocks(p: Platform, log: seq<AuditEntry>, d: Draft, s: string)
    requires WellFormedDraft(p, d) && Carries(d, s) && Locks(s)
    ensures !TailReadable(SealAll(p, log + [Foreign(d)]))
  {
    assert ToDraft(p, Foreign(d)) == d;
    LockedLog(p, log, Foreign(d), s);
  }

  lemma EntryLocks(p: Platform, ids: Approvals.IdHash, norm: Graph.Norm, skills: set<string>, w: World, d: Draft, s: string)
    requires WellFormedDraft(p, d) && Admissible(d) && Carries(d, s) && Locks(s)
    ensures var env := RealEnv(p, ids, norm, skills); !env.readable(Do(env, w, Logs(d)).log)
  {
    ForeignStep(RealEnv(p, ids, norm, skills), w, d);
    ForeignLocks(p, w.log, d, s);
  }

  /** The same after one entry of another writer that holds such a text. */
  lemma LockingEntryIsLast(p: Platform, ids: Approvals.IdHash, norm: Graph.Norm, skills: set<string>,
                           steps: seq<Step>, d: Draft, s: string, more: seq<Step>)
    requires WellFormedDraft(p, d) && Admissible(d) && Carries(d, s) && Locks(s)
    ensures var env := RealEnv(p, ids, norm, skills);
            SameBooks(RunAll(env, steps + [Logs(d)]), RunAll(env, (steps + [Logs(d)]) + more))
  {
    var env := RealEnv(p, ids, norm, skills);
    EntryLocks(p, ids, norm, skills, RunAll(env, steps), d, s);
    RunStep(env, steps, Logs(d));
    UnreadableIsFinal(env, steps + [Logs(d)], more);
  }

  // ---- An input on which money is lost ----

  const LOST_EVENT := Event(SEPARATOR, 100, "2026-06-15", "inv-1")

  lemma ShortIsSafe(s: string)
    requires |s| < 6
    ensures !IsUnsafe(s)
  {
    assert forall k :: 0 <= k < |UNSAFE_PATTERNS| ==> |UNSAFE_PATTERNS[k]| >= 6;
  }

  lemma {:induction false} SafePairs(pairs: seq<(string, Json)>)
    requires forall i :: 0 <= i < |pairs| ==> !ScanUnsafe(pairs[i].1)
    ensures !ScanUnsafeMembers(Dict(pairs))
  {
    if pairs != [] { SafePairs(pairs[1..]); }
  }

  lemma LostEventIsSafe(skills: set<string>)
    requires PAY_SKILL in skills
    ensures BuiltinGuardrail(skills)(PAY_SKILL, PayArgs(LOST_EVENT))
  {
    ShortIsSafe(SEPARATOR);
    ShortIsSafe("inv-1");
    SafePairs([("vendor", JString(SEPARATOR)), ("amount", JFloat(Digits.AmountText(100))), ("invoice_id", JString("inv-1"))]);
  }

  /** A request for this event that is within the policy and the threshold. */
  predicate Affordable(r: Request) {
    r.event == LOST_EVENT && r.policy == Policy({}, map[], 100) && r.threshold >= 100
  }

  lemma LostEventOpens(env: Env, skills: set<string>, w: World, r: Request)
    requires env.guardrail == BuiltinGuardrail(skills) && PAY_SKILL in skills && Affordable(r)
    requires |Graph.VendorHistory(env.norm, w.graph, SEPARATOR)| < 2
    ensures Opens(env, w, r)
  {
    LostEventIsSafe(skills);
    assert "purchase" in Approvals.VALID_ACTIONS;
  }

  lemma OnePaymentHistory(norm: Graph.Norm, e: Event)
    ensures var g := Graph.RecordPayment(norm, Graph.EMPTY, e.vendor, e.amount, e.date, None, Some(false));
            |Graph.VendorHistory(norm, g, e.vendor)| == 1
  {
  }

  /** What a step pays out and what it posts. */
  lemma StepAmounts(env: Env, w: World, r: Request)
    requires Opens(env, w, r)
    ensures var w' := Do(env, w, Invoice(r));
            && PaymentTotal(w'.payments) == PaymentTotal(w.payments) + r.event.amount
            && LedgerTotal(w'.ledger) == LedgerTotal(w.ledger) + if env.readable(w.log) then r.event.amount else 0
  {
    PaymentStep(env, w, Invoice(r));
    LedgerStep(env, w, Invoice(r));
  }

  lemma FirstPayment(env: Env, skills: set<string>, r: Request)
    requires env.guardrail == BuiltinGuardrail(skills) && PAY_SKILL in skills && Affordable(r) && env.readable([])
    ensures var w := Do(env, START, Invoice(r));
            && Settles(env, START, r) && PaymentTotal(w.payments) == LedgerTotal(w.ledger) == 100
            && |Graph.VendorHistory(env.norm, w.graph, SEPARATOR)| == 1
  {
    LostEventOpens(env, skills, START, r);
    StepAmounts(env, START, r);
    CallStep(env, START, r);
    OnePaymentHistory(env.norm, r.event);
  }

  lemma SecondPayment(env: Env, skills: set<string>, w: World, r: Request)
    requires env.guardrail == BuiltinGuardrail(skills) && PAY_SKILL in skills && Affordable(r)
    requires |Graph.VendorHistory(env.norm, w.graph, SEPARATOR)| < 2 && !env.readable(w.log)
    ensures var w' := Do(env, w, Invoice(r));
            PaymentTotal(w'.payments) == PaymentTotal(w.payments) + 100 && LedgerTotal(w'.ledger) == LedgerTotal(w.ledger)
  {
    LostEventOpens(env, skills, w, r);
    StepAmounts(env, w, r);
  }

  /** Two equal invoices for this event, from the start: both are paid, and only the
      first reaches the log, the ledger and the graph. */
  lemma SecondPaymentIsLost(p: Platform, ids: Approvals.IdHash, norm: Graph.Norm, skills: set<string>, r: Request)
    requires StableRepr(p.repr) && PAY_SKILL in skills && Affordable(r)
    ensures var w := RunAll(RealEnv(p, ids, norm, skills), [Invoice(r), Invoice(r)]);
            PaymentTotal(w.payments) == 200 && LedgerTotal(w.ledger) == 100
  {
    var env := RealEnv(p, ids, norm, skills);
    FirstPayment(env, skills, r);
    SeparatorLocks();
    PaymentLocks(p, ids, norm, skills, START, r);
    SecondPayment(env, skills, Do(env, START, Invoice(r)), r);
    TwoSteps(env, r);
  }

  lemma TwoSteps(env: Env, r: Request)
    ensures RunAll(env, [Invoice(r), Invoice(r)]) == Do(env, Do(env, START, Invoice(r)), Invoice(r))
  {
    RunStep(env, [], Invoice(r));
    RunStep(env, [Invoice(r)], Invoice(r));
    assert [] + [Invoice(r)] == [Invoice(r)] && [Invoice(r)] + [Invoice(r)] == [Invoice(r), Invoice(r)];
  }
}
