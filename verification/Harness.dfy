/** The safe-execution harness: guardrail, spend gate, run, audit. */
module Harness {
  import opened Wrappers
  import opened Digits
  import opened PyText
  import opened Json
  import opened HashChain
  import Approvals
  import Graph

  datatype Payment = Payment(vendor: string, amount: int, invoiceId: string)

  datatype LedgerEntry = LedgerEntry(vendor: string, amount: int, date: string, invoiceId: string)

  /** What is handed to the audit log; its place, predecessor and hash are added there.
      An entry of the spend machine, or one by another writer of the same file. */
  datatype AuditEntry =
    | AuditEntry(ts: string, action: string, vendor: string, amount: int, decision: string,
                 actor: string, metadata: seq<(string, Json)>)
    | Foreign(draft: Draft)

  /** Everything a spend can change: the audit entries, the approval records, the
      payments sent out, the ledger and the vendor graph. */
  datatype World = World(
    log: seq<AuditEntry>,
    approvals: Approvals.Store,
    payments: seq<Payment>,
    ledger: seq<LedgerEntry>,
    graph: Graph.Graph)

  /** The parts of the environment that never change: whether the tail of a log
      can be read, the digest of its last entry, the ids of requests, the names of
      vendors, and the guardrail on a skill and its arguments. */
  datatype Env = Env(
    readable: seq<AuditEntry> -> bool,
    digest: seq<AuditEntry> -> string,
    ids: Approvals.IdHash,
    norm: Graph.Norm,
    guardrail: (string, Members) -> bool)

  /** Readings of the clock during one call: the gate reads it twice, the log once
      for every entry, and reconciliation may need the date. */
  datatype Clock = Clock(m1: Approvals.Moment, m2: Approvals.Moment, ts1: string, ts2: string, today: string)

  // ---- The guardrail ----

  const UNSAFE_PATTERNS := ["rm -rf", "DROP TABLE", "<script", "ignore previous instructions"]

  predicate IsUnsafe(s: string) {
    exists k :: 0 <= k < |UNSAFE_PATTERNS| && Contains(s, UNSAFE_PATTERNS[k])
  }

  /** Some string value, at any depth, contains an unsafe pattern; keys are not looked at. */
  predicate ScanUnsafe(v: Json) {
    match v
    case JString(s) => IsUnsafe(s)
    case JArray(items) => ScanUnsafeItems(items)
    case JObject(ms) => ScanUnsafeMembers(ms)
    case _ => false
  }

  predicate ScanUnsafeItems(items: Items) {
    items.ICons? && (ScanUnsafe(items.head) || ScanUnsafeItems(items.tail))
  }

  predicate ScanUnsafeMembers(ms: Members) {
    ms.MCons? && (ScanUnsafe(ms.value) || ScanUnsafeMembers(ms.tail))
  }

  /** The built-in guardrail: a registered skill, and no unsafe pattern. */
  function BuiltinGuardrail(skills: set<string>): (string, Members) -> bool {
    (skill: string, args: Members) => skill in skills && !ScanUnsafeMembers(args)
  }

  // ---- The audit ----

  /** An append: the hash of the new entry; None when it raises, and then nothing
      is written. */
  function Audit(env: Env, w: World, e: AuditEntry): (Option<string>, World) {
    if env.readable(w.log) then (Some(env.digest(w.log + [e])), w.(log := w.log + [e]))
    else (None, w)
  }

  // ---- The pipeline ----

  /** What a skill does to the world when it runs. */
  type Effect = World -> World

  datatype Call = Call(skill: string, args: Members, actor: string, amount: Option<int>, vendor: string, threshold: int)

  datatype Result = Blocked(hash: string) | Escalated(id: string, hash: string) | Executed(hash: string) | Halted

  /** `vendor or "unknown"`. */
  function OrUnknown(vendor: string): string {
    if vendor == "" then "unknown" else vendor
  }

  function AmountOrZero(c: Call): int {
    if c.amount.Some? then c.amount.value else 0
  }

  function SpendOf(c: Call): Approvals.Spend {
    Approvals.Spend("purchase", OrUnknown(c.vendor), AmountOrZero(c))
  }

  /** The spend gate; without an amount there is none. */
  function Gate(env: Env, w: World, c: Call, clock: Clock): (Approvals.Gate, World) {
    if c.amount.None? then (Approvals.AutoApproved, w)
    else
      var (g, st) := Approvals.Enforce(env.ids, w.approvals, SpendOf(c), c.threshold, clock.m1, clock.m2);
      (g, w.(approvals := st))
  }

  function BlockedEntry(c: Call, ts: string): AuditEntry {
    AuditEntry(ts, "access_change", OrUnknown(c.vendor), AmountOrZero(c), "blocked", c.actor,
               [("skill", JString(c.skill)), ("reason", JString("guardrail"))])
  }

  function EscalatedEntry(c: Call, id: string, ts: string): AuditEntry {
    AuditEntry(ts, "approval_request", OrUnknown(c.vendor), AmountOrZero(c), "escalated", c.actor,
               [("skill", JString(c.skill)), ("request_id", JString(id))])
  }

  function ExecutedEntry(c: Call, ts: string): AuditEntry {
    AuditEntry(ts, "payment", OrUnknown(c.vendor), AmountOrZero(c), "executed", c.actor,
               [("skill", JString(c.skill)), ("sandbox", JString("in-process"))])
  }

  function Block(env: Env, w: World, c: Call, ts: string): (Result, World) {
    var (h, w') := Audit(env, w, BlockedEntry(c, ts));
    (if h.Some? then Blocked(h.value) else Halted, w')
  }

  function Hold(env: Env, w: World, c: Call, id: string, ts: string): (Result, World) {
    var (h, w') := Audit(env, w, EscalatedEntry(c, id, ts));
    (if h.Some? then Escalated(id, h.value) else Halted, w')
  }

  function RunSkill(env: Env, w: World, c: Call, effect: Effect, ts: string): (Result, World) {
    var (h, w') := Audit(env, effect(w), ExecutedEntry(c, ts));
    (if h.Some? then Executed(h.value) else Halted, w')
  }

  /** What follows the gate's answer. */
  function Proceed(env: Env, w: World, g: Approvals.Gate, c: Call, effect: Effect, ts: string): (Result, World) {
    match g
    case ValueError => (Halted, w)
    case ApprovalRequired(id) => Hold(env, w, c, id, ts)
    case _ => RunSkill(env, w, c, effect, ts)
  }

  /** `execute`. */
  function Execute(env: Env, w: World, c: Call, effect: Effect, clock: Clock): (Result, World) {
    if !env.guardrail(c.skill, c.args) then Block(env, w, c, clock.ts1)
    else
      var (g, w1) := Gate(env, w, c, clock);
      Proceed(env, w1, g, c, effect, clock.ts1)
  }

  /** A skill runs only if the guardrail passes and the gate does not hold the call
      back; it has run whenever the outcome is `executed`, and on no other outcome
      except that of an audit entry that could not be written. */
  predicate Runs(env: Env, w: World, c: Call, clock: Clock) {
    env.guardrail(c.skill, c.args) && var g := Gate(env, w, c, clock).0; g.AutoApproved? || g.Released?
  }

  lemma ExecutedMeansRan(env: Env, w: World, c: Call, effect: Effect, clock: Clock)
    ensures var (res, w') := Execute(env, w, c, effect, clock);
            var w1 := Gate(env, w, c, clock).1;
            && (res.Executed? ==> Runs(env, w, c, clock) && w' == Audit(env, effect(w1), ExecutedEntry(c, clock.ts1)).1)
            && (Runs(env, w, c, clock) ==> res.Executed? || (res.Halted? && !env.readable(effect(w1).log)))
            && (!Runs(env, w, c, clock) ==> w'.(log := w.log, approvals := w.approvals) == w)
  {
  }

  // ---- A call, spelled out ----

  /** An entry of the harness: the vendor or "unknown", the amount or nothing, the skill and
      one more item. */
  function Line(c: Call, ts: string, action: string, decision: string, name: string, value: string): AuditEntry {
    AuditEntry(ts, action, if c.vendor == "" then "unknown" else c.vendor,
               if c.amount.Some? then c.amount.value else 0, decision, c.actor,
               [("skill", JString(c.skill)), (name, JString(value))])
  }

  /** The world with the line added, and its digest; or the world as it is, and no digest. */
  function Logged(env: Env, w: World, line: AuditEntry): (Option<string>, World) {
    if env.readable(w.log) then (Some(env.digest(w.log + [line])), w.(log := w.log + [line])) else (None, w)
  }

  /** What the spend gate answers, and the approvals after it; there is none without an amount. */
  function GateFor(env: Env, w: World, c: Call, clock: Clock): (Approvals.Gate, Approvals.Store) {
    match c.amount
    case None => (Approvals.AutoApproved, w.approvals)
    case Some(a) =>
      var s := Approvals.Spend("purchase", if c.vendor == "" then "unknown" else c.vendor, a);
      Approvals.Enforce(env.ids, w.approvals, s, c.threshold, clock.m1, clock.m2)
  }

  /** A call that the guardrail blocks, or that the gate holds back, writes its entry and runs
      nothing; any other runs its skill and then writes its entry; and a call whose entry
      cannot be written, or whose spend is refused, raises. */
  lemma ExecuteExactly(env: Env, w: World, c: Call, effect: Effect, clock: Clock)
    ensures var (g, st) := GateFor(env, w, c, clock);
            var w1 := w.(approvals := st);
            Execute(env, w, c, effect, clock) ==
            if !env.guardrail(c.skill, c.args) then
              var (h, w') := Logged(env, w, Line(c, clock.ts1, "access_change", "blocked", "reason", "guardrail"));
              (if h.Some? then Blocked(h.value) else Halted, w')
            else
              match g
              case ValueError => (Halted, w1)
              case ApprovalRequired(id) => (
                var (h, w') := Logged(env, w1, Line(c, clock.ts1, "approval_request", "escalated", "request_id", id));
                (if h.Some? then Escalated(id, h.value) else Halted, w')
              )
              case _ =>
                var (h, w') := Logged(env, effect(w1), Line(c, clock.ts1, "payment", "executed", "sandbox", "in-process"));
                (if h.Some? then Executed(h.value) else Halted, w')
  {
  }

  // ---- What the guardrail looks at ----

  /** The text stands in the value, at any depth; names of members do not count. */
  predicate HasText(v: Json, s: string) {
    match v
    case JString(t) => t == s
    case JArray(items) => ItemHasText(items, s)
    case JObject(ms) => MemberHasText(ms, s)
    case _ => false
  }

  predicate ItemHasText(items: Items, s: string) {
    items.ICons? && (HasText(items.head, s) || ItemHasText(items.tail, s))
  }

  predicate MemberHasText(ms: Members, s: string) {
    ms.MCons? && (HasText(ms.value, s) || MemberHasText(ms.tail, s))
  }

  /** Any text in a value that is unsafe makes the value unsafe. */
  lemma {:induction false} TextIsScanned(v: Json, s: string)
    requires IsUnsafe(s) && HasText(v, s)
    ensures ScanUnsafe(v)
    decreases v, 1
  {
    match v
    case JArray(items) => ItemIsScanned(items, s);
    case JObject(ms) => MemberIsScanned(ms, s);
    case _ =>
  }

  lemma {:induction false} ItemIsScanned(items: Items, s: string)
    requires IsUnsafe(s) && ItemHasText(items, s)
    ensures ScanUnsafeItems(items)
    decreases items, 0
  {
    if HasText(items.head, s) { TextIsScanned(items.head, s); } else { ItemIsScanned(items.tail, s); }
  }

  lemma {:induction false} MemberIsScanned(ms: Members, s: string)
    requires IsUnsafe(s) && MemberHasText(ms, s)
    ensures ScanUnsafeMembers(ms)
    decreases ms, 0
  {
    if HasText(ms.value, s) { TextIsScanned(ms.value, s); } else { MemberIsScanned(ms.tail, s); }
  }

  /** And an unsafe value has such a text. */
  lemma {:induction false} ScannedHasText(v: Json) returns (s: string)
    requires ScanUnsafe(v)
    ensures IsUnsafe(s) && HasText(v, s)
    decreases v, 1
  {
    match v
    case JString(t) => s := t;
    case JArray(items) => s := ScannedItemHasText(items);
    case JObject(ms) => s := ScannedMemberHasText(ms);
  }

  lemma {:induction false} ScannedItemHasText(items: Items) returns (s: string)
    requires ScanUnsafeItems(items)
    ensures IsUnsafe(s) && ItemHasText(items, s)
    decreases items, 0
  {
    if ScanUnsafe(items.head) { s := ScannedHasText(items.head); } else { s := ScannedItemHasText(items.tail); }
  }

  lemma {:induction false} ScannedMemberHasText(ms: Members) returns (s: string)
    requires ScanUnsafeMembers(ms)
    ensures IsUnsafe(s) && MemberHasText(ms, s)
    decreases ms, 0
  {
    if ScanUnsafe(ms.value) { s := ScannedHasText(ms.value); } else { s := ScannedMemberHasText(ms.tail); }
  }

  /** The built-in guardrail passes a call exactly if its skill is registered and no text in
      its arguments, at any depth, has an unsafe pattern in it. */
  lemma BuiltinExactly(skills: set<string>, skill: string, args: Members)
    ensures BuiltinGuardrail(skills)(skill, args) <==>
            skill in skills && forall s :: MemberHasText(args, s) ==> !IsUnsafe(s)
  {
    if ScanUnsafeMembers(args) {
      var s := ScannedMemberHasText(args);
    }
    forall s | MemberHasText(args, s) && IsUnsafe(s) ensures ScanUnsafeMembers(args) {
      MemberIsScanned(args, s);
    }
  }
}
