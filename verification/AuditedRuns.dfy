/** The spend machine on the real log: its audit entries are sealed lines of a file
    that verifies, and the hashes it returns are those the file ends in. */
module AuditedRuns {
  import opened Wrappers
  import opened Digits
  import opened Utf8
  import opened Json
  import opened HashChain
  import opened HashChainFiles
  import opened HashChainRuns
  import opened Harness
  import opened Handle402
  import opened GovernanceRuns
  import Approvals
  import Orchestrator
  import Graph

  /** What the log is handed; the amount is a float, written as `repr` prints it. */
  function ToDraft(p: Platform, e: AuditEntry): Draft {
    match e
    case AuditEntry(ts, action, vendor, amount, decision, actor, metadata) =>
      Action(ts, action, vendor, JFloat(p.repr(AmountText(amount))), decision, actor, Dict(metadata))
    case Foreign(d) => d
  }

  /** The entries of the file for a log: each sealed after those before it. */
  function SealAll(p: Platform, log: seq<AuditEntry>): (es: seq<Members>)
    ensures |es| == |log|
  {
    if log == [] then []
    else
      var es := SealAll(p, log[..|log| - 1]);
      es + [Seal(p, ToDraft(p, log[|log| - 1]), |es|, PrevHash(es, |es|))]
  }

  /** The environment that the log file, the id hash and the built-in guardrail make up. */
  function RealEnv(p: Platform, ids: Approvals.IdHash, norm: Graph.Norm, skills: set<string>): Env {
    Env(log => TailReadable(SealAll(p, log)), log => PrevHash(SealAll(p, log), |log|), ids, norm,
        BuiltinGuardrail(skills))
  }

  /** The log accepts the entry: its action is known and its metadata is a dict of JSON values. */
  predicate GoodEntry(p: Platform, e: AuditEntry) {
    WellFormedDraft(p, ToDraft(p, e)) && Admissible(ToDraft(p, e))
  }

  /** Entries that the log accepts. */
  function Fit(p: Platform): AuditEntry -> bool {
    (e: AuditEntry) => GoodEntry(p, e)
  }

  predicate All(good: AuditEntry -> bool, log: seq<AuditEntry>) {
    forall i :: 0 <= i < |log| ==> good(log[i])
  }

  predicate AllGood(p: Platform, log: seq<AuditEntry>) {
    All(Fit(p), log)
  }

  lemma {:induction false} SealedChain(p: Platform, log: seq<AuditEntry>)
    requires AllGood(p, log)
    ensures IsChain(p, SealAll(p, log))
  {
    if log != [] {
      var es := SealAll(p, log[..|log| - 1]);
      SealedChain(p, log[..|log| - 1]);
      SealedIsLink(p, ToDraft(p, log[|log| - 1]), |es|, PrevHash(es, |es|));
      LinkExtends(p, es, Seal(p, ToDraft(p, log[|log| - 1]), |es|, PrevHash(es, |es|)));
    }
  }

  lemma SealAllStep(p: Platform, log: seq<AuditEntry>, e: AuditEntry)
    ensures var es := SealAll(p, log);
            SealAll(p, log + [e]) == es + [Seal(p, ToDraft(p, e), |es|, PrevHash(es, |es|))]
  {
    assert (log + [e])[..|log|] == log;
  }

  /** An audit step of the machine is an append to the file: it succeeds exactly when
      the append does, leaves the file of the new log, and returns the digest of the
      entry written. */
  lemma AuditIsAppend(p: Platform, ids: Approvals.IdHash, norm: Graph.Norm, skills: set<string>, w: World, e: AuditEntry)
    requires AllGood(p, w.log) && GoodEntry(p, e)
    ensures var (h, w') := Audit(RealEnv(p, ids, norm, skills), w, e);
            var (r, file') := Append(p, FileOf(SealAll(p, w.log)), ToDraft(p, e));
            && file' == FileOf(SealAll(p, w'.log))
            && (h.Some? <==> r.Appended?)
            && (h.Some? ==> h.value == StoredHash(r.entry))
  {
    SealedChain(p, w.log);
    AppendKeepsChain(p, SealAll(p, w.log), ToDraft(p, e));
    SealAllStep(p, w.log, e);
  }

  // ---- The entries of every run are good ----

  lemma MetadataGood(p: Platform, ts: string, action: string, vendor: string, amount: int, decision: string,
                     actor: string, metadata: seq<(string, Json)>)
    requires StableRepr(p.repr) && action in VALID_ACTIONS && DistinctNames(metadata)
    requires forall i :: 0 <= i < |metadata| ==> metadata[i].1.JString? || metadata[i].1.JBool?
    ensures GoodEntry(p, AuditEntry(ts, action, vendor, amount, decision, actor, metadata))
  {
    AmountTextToken(amount);
    DictKeys(metadata);
    DictWellFormed(p, metadata);
  }

  lemma TwoNames(a: string, x: Json, b: string, y: Json)
    requires a != b
    ensures DistinctNames([(a, x), (b, y)])
  {
  }

  lemma BlockedEntryGood(p: Platform, c: Call, ts: string)
    requires StableRepr(p.repr)
    ensures GoodEntry(p, BlockedEntry(c, ts))
  {
    assert "skill"[0] != "reason"[0];
    TwoNames("skill", JString(c.skill), "reason", JString("guardrail"));
    MetadataGood(p, ts, "access_change", OrUnknown(c.vendor), AmountOrZero(c), "blocked", c.actor,
                 [("skill", JString(c.skill)), ("reason", JString("guardrail"))]);
  }

  lemma EscalatedEntryGood(p: Platform, c: Call, id: string, ts: string)
    requires StableRepr(p.repr)
    ensures GoodEntry(p, EscalatedEntry(c, id, ts))
  {
    assert "skill"[0] != "request_id"[0];
    TwoNames("skill", JString(c.skill), "request_id", JString(id));
    MetadataGood(p, ts, "approval_request", OrUnknown(c.vendor), AmountOrZero(c), "escalated", c.actor,
                 [("skill", JString(c.skill)), ("request_id", JString(id))]);
  }

  lemma ExecutedEntryGood(p: Platform, c: Call, ts: string)
    requires StableRepr(p.repr)
    ensures GoodEntry(p, ExecutedEntry(c, ts))
  {
    assert |"skill"| != |"sandbox"|;
    TwoNames("skill", JString(c.skill), "sandbox", JString("in-process"));
    MetadataGood(p, ts, "payment", OrUnknown(c.vendor), AmountOrZero(c), "executed", c.actor,
                 [("skill", JString(c.skill)), ("sandbox", JString("in-process"))]);
  }

  lemma HarnessEntriesGood(p: Platform, c: Call, id: string, ts: string)
    requires StableRepr(p.repr)
    ensures GoodEntry(p, BlockedEntry(c, ts)) && GoodEntry(p, EscalatedEntry(c, id, ts))
    ensures GoodEntry(p, ExecutedEntry(c, ts))
  {
    BlockedEntryGood(p, c, ts);
    EscalatedEntryGood(p, c, id, ts);
    ExecutedEntryGood(p, c, ts);
  }

  lemma EscalationEntryGood(p: Platform, r: Request, id: string, flagged: bool)
    requires StableRepr(p.repr)
    ensures GoodEntry(p, EscalationEntry(r, id, flagged))
  {
    var m := [("invoice_id", JString(r.event.invoiceId)), ("request_id", JString(id)), ("anomaly_flagged", JBool(flagged))];
    assert m[0].0[0] == 'i' && m[1].0[0] == 'r' && m[2].0[0] == 'a';
    MetadataGood(p, r.clock.ts2, "approval_request", r.event.vendor, r.event.amount, "escalated", "agent", m);
  }

  lemma AuditGood(p: Platform, env: Env, w: World, e: AuditEntry)
    requires AllGood(p, w.log) && GoodEntry(p, e)
    ensures AllGood(p, Audit(env, w, e).1.log)
  {
  }

  lemma EscalationGood(p: Platform, env: Env, w: World, r: Request, known: Option<string>, flagged: bool)
    requires StableRepr(p.repr) && AllGood(p, w.log)
    ensures AllGood(p, DoEscalation(env, w, r, known, flagged).1.log)
  {
    var s := Approvals.Spend("purchase", r.event.vendor, r.event.amount);
    if known.Some? || Approvals.ValidSpend(s) {
      var id := if known.Some? then known.value else Approvals.RequestId(env.ids, s, r.clock.m2.day);
      EscalationEntryGood(p, r, id, flagged);
      AuditGood(p, env, w, EscalationEntry(r, id, flagged));
    }
  }

  lemma ExecuteGood(p: Platform, env: Env, w: World, r: Request)
    requires StableRepr(p.repr) && AllGood(p, w.log)
    ensures AllGood(p, Execute(env, w, PayCall(r), PayEffect(r.event), r.clock).1.log)
  {
    var c := PayCall(r);
    HarnessEntriesGood(p, c, "", r.clock.ts1);
    AuditGood(p, env, w, BlockedEntry(c, r.clock.ts1));
    var (g, w1) := Gate(env, w, c, r.clock);
    ProceedGood(p, env, w1, g, c, r.event, r.clock.ts1);
  }

  lemma ProceedGood(p: Platform, env: Env, w: World, g: Approvals.Gate, c: Call, e: Event, ts: string)
    requires StableRepr(p.repr) && AllGood(p, w.log)
    ensures AllGood(p, Proceed(env, w, g, c, PayEffect(e), ts).1.log)
  {
    var id := if g.ApprovalRequired? then g.id else "";
    HarnessEntriesGood(p, c, id, ts);
    AuditGood(p, env, w, EscalatedEntry(c, id, ts));
    AuditGood(p, env, PayEffect(e)(w), ExecutedEntry(c, ts));
  }

  /** The entries of other writers are values that Python can hold. */
  predicate GoodStep(p: Platform, s: Step) {
    s.Logs? ==> WellFormedDraft(p, s.draft)
  }

  ghost predicate GoodSteps(p: Platform, steps: seq<Step>) {
    forall i :: 0 <= i < |steps| ==> GoodStep(p, steps[i])
  }

  lemma StepGood(p: Platform, env: Env, w: World, s: Step)
    requires StableRepr(p.repr) && AllGood(p, w.log) && GoodStep(p, s)
    ensures AllGood(p, Do(env, w, s).log)
  {
    if s.Logs? {
      if Admissible(s.draft) { AuditGood(p, env, w, Foreign(s.draft)); }
    } else if s.Invoice? {
      if Clean(env, w, s.r) {
        ExecuteGood(p, env, w, s.r);
        var (res, w1) := Execute(env, w, PayCall(s.r), PayEffect(s.r.event), s.r.clock);
        if res.Escalated? { EscalationGood(p, env, w1, s.r, Some(res.id), false); }
      } else {
        EscalationGood(p, env, w, s.r, None, IsAnomalous(env, w, s.r.event));
      }
    }
  }

  lemma {:induction false} RunGood(p: Platform, env: Env, steps: seq<Step>)
    requires StableRepr(p.repr) && GoodSteps(p, steps)
    ensures AllGood(p, RunAll(env, steps).log)
  {
    if steps != [] {
      RunGood(p, env, steps[..|steps| - 1]);
      StepGood(p, env, RunAll(env, steps[..|steps| - 1]), steps[|steps| - 1]);
    }
  }

  /** After every run of the machine its log file verifies with one line for each
      audit entry, and a hash that the last step returned is the digest stored in
      the file's last line. */
  lemma RunsLeaveVerifiedLog(p: Platform, ids: Approvals.IdHash, norm: Graph.Norm, skills: set<string>,
                             steps: seq<Step>, r: Request)
    requires StableRepr(p.repr) && GoodSteps(p, steps)
    ensures var env := RealEnv(p, ids, norm, skills);
            var w := RunAll(env, steps);
            var (o, w') := Handle(env, w, r);
            var es := SealAll(p, w'.log);
            && VerifyFile(p, FileOf(es)) == Intact(|w'.log|)
            && (o.Paid? || o.EscalatedTo? ==> es != [] && o.hash == StoredHash(es[|es| - 1]))
            && (o.Paid? || o.EscalatedTo? ==>
                  FullScanHead(p, FileOf(es)) == Head(JString(o.hash), |w'.log|))
  {
    var env := RealEnv(p, ids, norm, skills);
    var w := RunAll(env, steps);
    RunGood(p, env, steps);
    StepGood(p, env, w, Invoice(r));
    var w' := Handle(env, w, r).1;
    SealedChain(p, w'.log);
    BuiltFileVerifies(p, SealAll(p, w'.log));
    TailReadRefinesFullScan(p, SealAll(p, w'.log));
    CallStep(env, w, r);
  }

  // ---- The planner loop on the real log ----

  lemma SealedHash(p: Platform, d: Draft, i: nat, prev: string)
    ensures |StoredHash(Seal(p, d, i, prev))| == 64
  {
    var ms := Payload(d, i, prev);
    NamesDistinct(d, i, prev);
    DictKeys(Pairs(d, i, prev));
    PutFacts(p.repr, ms, "entry_hash", JString(HashEntry(p, prev, ms)));
  }

  lemma RealDigests(p: Platform, ids: Approvals.IdHash, norm: Graph.Norm, skills: set<string>)
    ensures Orchestrator.Digests(RealEnv(p, ids, norm, skills))
  {
    forall log: seq<AuditEntry> | log != [] ensures RealEnv(p, ids, norm, skills).digest(log) != "" {
      var es := SealAll(p, log[..|log| - 1]);
      SealedHash(p, ToDraft(p, log[|log| - 1]), |es|, PrevHash(es, |es|));
    }
  }

  /** The planner loop with the harness on the real log: for every planner and every
      effect of the skills its steps, its history and its hashes have equal length. */
  lemma OrchestratedRunsMatch(p: Platform, ids: Approvals.IdHash, norm: Graph.Norm, skills: set<string>,
                              callOf: (string, Members) -> Call, effectOf: (string, Members) -> Effect,
                              clockAt: nat -> Clock, keyOf: Orchestrator.Keyer, plan: Orchestrator.Planner,
                              w: World, n: nat)
    ensures var harness := Orchestrator.Harnessed(RealEnv(p, ids, norm, skills), callOf, effectOf, clockAt);
            var t := Orchestrator.Closed(Orchestrator.PlayTo(Orchestrator.Turns(keyOf, plan, harness), w, n));
            Orchestrator.Orderly(t) && |t.hashes| == |t.steps| == |t.history|
  {
    RealDigests(p, ids, norm, skills);
    Orchestrator.HarnessedRunsMatch(RealEnv(p, ids, norm, skills), callOf, effectOf, clockAt, keyOf, plan, w, n);
  }
}
