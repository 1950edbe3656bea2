/** The spend approval gate: one record per request id, rewritten by creation,
    decision and expiry. Amounts are integer cents; time is in microseconds. */
module Approvals {
  import opened Wrappers
  import opened Digits

  const VALID_ACTIONS := {"purchase", "subscribe", "renew", "refund", "transfer", "contract"}

  /** The lifetime of a request by default: a day. */
  const DEFAULT_TTL: int := 86_400_000_000

  datatype Status = Pending | Approved | Denied | Expired

  datatype Record = Record(
    id: string, action: string, vendor: string, amount: int, context: string,
    createdAt: int, expiresAt: int, status: Status,
    decidedAt: Option<int>, decidedBy: Option<string>)

  /** The YAML files, by request id. */
  type Store = map<string, Record>

  /** A local date as `%Y%m%d`. */
  type Day = s: string | |s| == 8 && AllDigits(s) witness "20260101"

  /** A reading of the clock: UTC time, and the local date. */
  datatype Moment = Moment(utc: int, day: Day)

  /** The first twelve hexadecimal digits of SHA-256 of a key. */
  type IdHash = string -> string

  datatype Spend = Spend(action: string, vendor: string, amount: int)

  /** What the id of a request is computed from. */
  function Key(s: Spend, day: Day): string {
    s.action + [':'] + (s.vendor + [':'] + (AmountText(s.amount) + [':'] + day))
  }

  function RequestId(h: IdHash, s: Spend, day: Day): string {
    h(Key(s, day))
  }

  /** The boundary check; its failure is a ValueError. */
  predicate ValidSpend(s: Spend) {
    s.action in VALID_ACTIONS && s.amount >= 0
  }

  predicate RequiresApproval(s: Spend, threshold: int) {
    s.amount > threshold
  }

  // ---- The operations, as functions on the store ----

  function FreshRecord(id: string, s: Spend, context: string, ttl: int, now: int): Record {
    Record(id, s.action, s.vendor, s.amount, context, now, now + ttl, Pending, None, None)
  }

  predicate IsPending(st: Store, id: string) {
    id in st && st[id].status.Pending?
  }

  /** `create_request`, for a valid spend: an existing pending record stays as it is,
      anything else is replaced by a fresh pending record. */
  function Create(h: IdHash, st: Store, s: Spend, context: string, ttl: int, now: Moment): Store {
    var id := RequestId(h, s, now.day);
    if IsPending(st, id) then st else st[id := FreshRecord(id, s, context, ttl, now.utc)]
  }

  /** A record as a decision leaves it. */
  function Decided(r: Record, approved: bool, who: string, now: int): Record {
    if !r.status.Pending? then r
    else if now > r.expiresAt then r.(status := Expired)
    else r.(status := if approved then Approved else Denied, decidedAt := Some(now), decidedBy := Some(who))
  }

  /** A record as `check` leaves it: a stale pending one expires. */
  function Checked(r: Record, now: int): Record {
    if r.status.Pending? && now > r.expiresAt then r.(status := Expired) else r
  }

  function Decide(st: Store, id: string, approved: bool, who: string, now: int): Store {
    if id in st then st[id := Decided(st[id], approved, who, now)] else st
  }

  function Check(st: Store, id: string, now: int): Store {
    if id in st then st[id := Checked(st[id], now)] else st
  }

  /** What `enforce_spend` does: returns a record, or raises. */
  datatype Gate = AutoApproved | Released(record: Record) | ApprovalRequired(id: string) | ValueError

  /** `enforce_spend`. The clock is read to find and check an existing request, and
      again to create one. */
  function Enforce(h: IdHash, st: Store, s: Spend, threshold: int, m1: Moment, m2: Moment): (Gate, Store) {
    if !ValidSpend(s) then (ValueError, st)
    else if !RequiresApproval(s, threshold) then (AutoApproved, st)
    else
      var id := RequestId(h, s, m1.day);
      var st1 := Check(st, id, m1.utc);
      if id in st1 && st1[id].status.Approved? then (Released(st1[id]), st1)
      else (ApprovalRequired(RequestId(h, s, m2.day)), Create(h, st1, s, "", DEFAULT_TTL, m2))
  }

  /** `list_pending`: the records that are pending and not stale. */
  predicate Listed(st: Store, id: string, now: int) {
    IsPending(st, id) && now <= st[id].expiresAt
  }

  // ---- The key determines the spend ----

  lemma ColonSplit(a: string, x: string, b: string, y: string)
    requires ':' !in a && ':' !in b && a + [':'] + x == b + [':'] + y
    ensures a == b && x == y
  {
    var s := a + [':'] + x;
    assert s[|a|] == ':' && s[|b|] == ':';
    assert forall k :: 0 <= k < |a| ==> s[k] == a[k];
    assert forall k :: 0 <= k < |b| ==> s[k] == b[k];
    assert a == s[..|a|] && b == s[..|b|];
    assert x == s[|a| + 1..] && y == s[|b| + 1..];
  }

  lemma ColonSplitLast(x: string, a: string, y: string, b: string)
    requires ':' !in a && ':' !in b && x + [':'] + a == y + [':'] + b
    ensures a == b && x == y
  {
    var s := x + [':'] + a;
    assert s[|x|] == ':' && s[|y|] == ':';
    assert forall k :: |x| < k < |s| ==> s[k] == a[k - |x| - 1];
    assert forall k :: |y| < k < |s| ==> s[k] == b[k - |y| - 1];
    assert x == s[..|x|] && y == s[..|y|];
    assert a == s[|x| + 1..] && b == s[|y| + 1..];
  }

  lemma ValidActionsHaveNoColon(a: string)
    requires a in VALID_ACTIONS
    ensures ':' !in a
  {
  }

  /** Different spends, or the same on different days, have different keys, even if
      vendors contain colons. */
  lemma KeyInjective(s: Spend, d: Day, s': Spend, d': Day)
    requires ValidSpend(s) && ValidSpend(s') && Key(s, d) == Key(s', d')
    ensures s == s' && d == d'
  {
    ValidActionsHaveNoColon(s.action);
    ValidActionsHaveNoColon(s'.action);
    var r, r' := s.vendor + [':'] + (AmountText(s.amount) + [':'] + d),
                 s'.vendor + [':'] + (AmountText(s'.amount) + [':'] + d');
    ColonSplit(s.action, r, s'.action, r');
    var q, q' := s.vendor + [':'] + AmountText(s.amount), s'.vendor + [':'] + AmountText(s'.amount);
    assert r == q + [':'] + d && r' == q' + [':'] + d';
    assert ':' !in d && ':' !in d';
    ColonSplitLast(q, d, q', d');
    AmountTextToken(s.amount);
    AmountTextToken(s'.amount);
    ColonSplitLast(s.vendor, AmountText(s.amount), s'.vendor, AmountText(s'.amount));
    AmountTextInjective(s.amount, s'.amount);
  }

  // ---- Runs ----

  datatype Op =
    | CreateOp(s: Spend, context: string, ttl: int, at: Moment)
    | DecideOp(id: string, approved: bool, who: string, time: int)
    | CheckOp(id: string, time: int)
    | EnforceOp(s: Spend, threshold: int, m1: Moment, m2: Moment)

  function Step(h: IdHash, st: Store, op: Op): Store {
    match op
    case CreateOp(s, context, ttl, at) => if ValidSpend(s) then Create(h, st, s, context, ttl, at) else st
    case DecideOp(id, approved, who, time) => Decide(st, id, approved, who, time)
    case CheckOp(id, time) => Check(st, id, time)
    case EnforceOp(s, threshold, m1, m2) => Enforce(h, st, s, threshold, m1, m2).1
  }

  function Run(h: IdHash, ops: seq<Op>): Store {
    if ops == [] then map[] else Step(h, Run(h, ops[..|ops| - 1]), ops[|ops| - 1])
  }

  /** When an operation starts, by the UTC clock. */
  function Start(op: Op): int {
    match op
    case CreateOp(_, _, _, at) => at.utc
    case DecideOp(_, _, _, time) => time
    case CheckOp(_, time) => time
    case EnforceOp(_, _, m1, _) => m1.utc
  }

  /** The spend a request is created for, if this operation may create one, and
      the moment it would do so. */
  function Requested(op: Op): Option<(Spend, Moment, int)> {
    match op
    case CreateOp(s, _, ttl, at) => if ValidSpend(s) then Some((s, at, ttl)) else None
    case EnforceOp(s, threshold, _, m2) =>
      if ValidSpend(s) && RequiresApproval(s, threshold) then Some((s, m2, DEFAULT_TTL)) else None
    case _ => None
  }

  /** Whether this operation, on this store, replaces or adds the record `id`. */
  predicate Writes(h: IdHash, st: Store, op: Op, id: string) {
    match op
    case CreateOp(s, _, _, at) => ValidSpend(s) && id == RequestId(h, s, at.day) && !IsPending(st, id)
    case EnforceOp(s, threshold, m1, m2) =>
      && Enforce(h, st, s, threshold, m1, m2).0.ApprovalRequired?
      && id == RequestId(h, s, m2.day)
      && !IsPending(Check(st, RequestId(h, s, m1.day), m1.utc), id)
    case _ => false
  }

  /** One step on one record: it is written afresh by a creation, or keeps its
      identity and moves from pending to a decision in time or to expiry after it,
      or stays. Nothing but a creation changes a record that is not pending. */
  lemma StepOnRecord(h: IdHash, st: Store, op: Op, id: string)
    requires id in Step(h, st, op)
    ensures var r' := Step(h, st, op)[id];
            if Writes(h, st, op, id) then
              && Requested(op).Some? && RequestId(h, Requested(op).value.0, Requested(op).value.1.day) == id
              && var (s, at, ttl) := Requested(op).value;
                 r' == Record(id, s.action, s.vendor, s.amount, r'.context, at.utc, at.utc + ttl, Pending, None, None)
            else
              && id in st
              && var r := st[id];
                 || r' == r
                 || (r.status.Pending? && r' == r.(status := Expired) && r.expiresAt < Start(op))
                 || (&& r.status.Pending? && op.DecideOp? && op.id == id && op.time <= r.expiresAt
                     && r' == r.(status := if op.approved then Approved else Denied,
                                 decidedAt := Some(op.time), decidedBy := Some(op.who)))
  {
    match op
    case CreateOp(s, context, ttl, at) =>
      if Writes(h, st, op, id) {
        assert Step(h, st, op)[id]
            == Record(id, s.action, s.vendor, s.amount, context, at.utc, at.utc + ttl, Pending, None, None);
      }
    case EnforceOp(s, threshold, m1, m2) =>
      if Writes(h, st, op, id) {
        assert Step(h, st, op)[id]
            == Record(id, s.action, s.vendor, s.amount, "", m2.utc, m2.utc + DEFAULT_TTL, Pending, None, None);
      }
    case _ =>
  }

  /** Operation `i` wrote record `id`, and none after it did. */
  ghost predicate LastWrite(h: IdHash, ops: seq<Op>, id: string, i: nat) {
    && i < |ops|
    && Writes(h, Run(h, ops[..i]), ops[i], id)
    && forall k :: i < k < |ops| ==> !Writes(h, Run(h, ops[..k]), ops[k], id)
  }

  /** The record is the one `op` creates, whatever has been decided since. */
  ghost predicate CreatedBy(h: IdHash, r: Record, op: Op, id: string) {
    && Requested(op).Some?
    && var (s, at, ttl) := Requested(op).value;
    && id == RequestId(h, s, at.day) && r.id == id
    && r.action == s.action && r.vendor == s.vendor && r.amount == s.amount
    && r.createdAt == at.utc && r.expiresAt == at.utc + ttl
  }

  /** `op` is a decision to approve the record, no later than it expires. */
  predicate ApprovedBy(r: Record, op: Op, id: string) {
    && op.DecideOp? && op.id == id && op.approved
    && op.time <= r.expiresAt && r.decidedAt == Some(op.time)
  }

  /** Where record `id` comes from after a run: operation `i` wrote it last, from
      the spend it was given, and if it is approved, operation `j` came later and
      decided so in time. */
  ghost predicate Origin(h: IdHash, ops: seq<Op>, id: string, i: nat, j: nat) {
    && id in Run(h, ops) && LastWrite(h, ops, id, i)
    && CreatedBy(h, Run(h, ops)[id], ops[i], id)
    && (Run(h, ops)[id].status.Approved? ==> i < j < |ops| && ApprovedBy(Run(h, ops)[id], ops[j], id))
  }

  lemma LastWriteKept(h: IdHash, ops: seq<Op>, op: Op, id: string, i: nat)
    requires LastWrite(h, ops, id, i) && !Writes(h, Run(h, ops), op, id)
    ensures LastWrite(h, ops + [op], id, i)
  {
    var all := ops + [op];
    assert forall k :: 0 <= k <= |ops| ==> all[..k] == ops[..k];
    assert ops[..|ops|] == ops;
  }

  lemma RunStep(h: IdHash, ops: seq<Op>, op: Op)
    ensures Run(h, ops + [op]) == Step(h, Run(h, ops), op)
  {
    assert (ops + [op])[..|ops|] == ops;
  }

  lemma CreatedKept(h: IdHash, st: Store, op: Op, id: string, from: Op)
    requires id in st && CreatedBy(h, st[id], from, id) && !Writes(h, st, op, id)
    ensures id in Step(h, st, op) && CreatedBy(h, Step(h, st, op)[id], from, id)
  {
    StepOnRecord(h, st, op, id);
  }

  lemma ApprovalKept(h: IdHash, st: Store, op: Op, id: string)
    requires id in st && !Writes(h, st, op, id)
    ensures id in Step(h, st, op)
    ensures Step(h, st, op)[id].status.Approved? ==>
              if st[id].status.Approved? then Step(h, st, op)[id] == st[id]
              else ApprovedBy(Step(h, st, op)[id], op, id)
  {
    StepOnRecord(h, st, op, id);
  }

  lemma OriginKept(h: IdHash, ops: seq<Op>, op: Op, id: string, i: nat, j: nat) returns (j': nat)
    requires Origin(h, ops, id, i, j) && !Writes(h, Run(h, ops), op, id)
    ensures Origin(h, ops + [op], id, i, j')
  {
    RunStep(h, ops, op);
    LastWriteKept(h, ops, op, id, i);
    CreatedKept(h, Run(h, ops), op, id, ops[i]);
    ApprovalKept(h, Run(h, ops), op, id);
    j' := if Run(h, ops)[id].status.Approved? then j else |ops|;
    assert (ops + [op])[i] == ops[i] && (ops + [op])[|ops|] == op;
    assert Run(h, ops)[id].status.Approved? ==> (ops + [op])[j] == ops[j];
  }

  /** A record is approved only if the creation that last wrote it was followed by
      a decision to approve it, in time. */
  lemma {:induction false} ApprovedOnlyByDecision(h: IdHash, ops: seq<Op>, id: string) returns (i: nat, j: nat)
    requires id in Run(h, ops)
    ensures Origin(h, ops, id, i, j)
    decreases |ops|
  {
    var n := |ops| - 1;
    var before := ops[..n];
    assert ops == before + [ops[n]];
    StepOnRecord(h, Run(h, before), ops[n], id);
    if Writes(h, Run(h, before), ops[n], id) {
      i, j := n, n;
    } else {
      i, j := ApprovedOnlyByDecision(h, before, id);
      j := OriginKept(h, before, ops[n], id, i, j);
    }
  }

  // ---- What enforcement releases ----

  /** Whether two keys have the same request id. */
  predicate KeyCollision(h: IdHash, s: Spend, d: Day, s': Spend, d': Day) {
    Key(s, d) != Key(s', d') && RequestId(h, s, d) == RequestId(h, s', d')
  }

  /** After `ops`, the record of spend `s` on `day` is one that operation `i` wrote
      last, for the same spend on the same day unless two keys share a request id,
      and that operation `j` then approved in time. */
  ghost predicate Covered(h: IdHash, ops: seq<Op>, s: Spend, day: Day, i: nat, j: nat) {
    var id := RequestId(h, s, day);
    && i < j < |ops| && id in Run(h, ops) && LastWrite(h, ops, id, i)
    && ApprovedBy(Run(h, ops)[id], ops[j], id)
    && Requested(ops[i]).Some?
    && var (s', at, _) := Requested(ops[i]).value;
       (s' == s && at.day == day) || KeyCollision(h, s, day, s', at.day)
  }

  /** A spend above the threshold is released only by an approval given, in time,
      to a request created for the same spend on the same day, unless two keys
      share a request id. */
  lemma ReleaseNeedsOwnApproval(h: IdHash, ops: seq<Op>, s: Spend, threshold: int, m1: Moment, m2: Moment)
    returns (i: nat, j: nat)
    requires Enforce(h, Run(h, ops), s, threshold, m1, m2).0.Released?
    ensures Covered(h, ops, s, m1.day, i, j)
  {
    var id := RequestId(h, s, m1.day);
    i, j := ApprovedOnlyByDecision(h, ops, id);
    var (s', at, _) := Requested(ops[i]).value;
    if Key(s', at.day) == Key(s, m1.day) {
      KeyInjective(s', at.day, s, m1.day);
    }
  }

  /** After `enforce_spend` raises, its request is pending. It is in the pending list
      at that moment unless it was pending already after the first reading of the clock
      and had expired by the second. */
  lemma RaisedRequestIsPending(h: IdHash, st: Store, s: Spend, threshold: int, m1: Moment, m2: Moment)
    requires Enforce(h, st, s, threshold, m1, m2).0.ApprovalRequired? && m1.utc <= m2.utc
    ensures var (g, st') := Enforce(h, st, s, threshold, m1, m2);
            && IsPending(st', g.id)
            && (m1 == m2 ==> Listed(st', g.id, m2.utc))
            && (Listed(st', g.id, m2.utc) <==>
                !(IsPending(Check(st, RequestId(h, s, m1.day), m1.utc), g.id)
                  && m2.utc > Check(st, RequestId(h, s, m1.day), m1.utc)[g.id].expiresAt))
  {
  }

  /** So a raised request can be missing from the list within one day: created at 0 to
      live until 10, found live at 5, and stale at 11. */
  lemma ExpiresDuringCall(h: IdHash, s: Spend, threshold: int, day: Day)
    requires ValidSpend(s) && RequiresApproval(s, threshold)
    ensures var st := Create(h, map[], s, "", 10, Moment(0, day));
            var (g, st') := Enforce(h, st, s, threshold, Moment(5, day), Moment(11, day));
            g == ApprovalRequired(RequestId(h, s, day)) && !Listed(st', g.id, 11)
  {
  }

  /** A run continued from a store. */
  function RunFrom(h: IdHash, st: Store, ops: seq<Op>): Store {
    if ops == [] then st else Step(h, RunFrom(h, st, ops[..|ops| - 1]), ops[|ops| - 1])
  }

  /** The store still has record `id` of `st`. */
  predicate Keeps(st: Store, st': Store, id: string) {
    id in st && id in st' && st'[id] == st[id]
  }

  /** One operation keeps a decided or expired record exactly when it does not write it: when
      it neither creates that id, directly or by an enforcement that raises, nor
      raises across midnight into it. */
  lemma SettledStays(h: IdHash, st: Store, op: Op, id: string)
    requires id in st && !st[id].status.Pending?
    ensures Keeps(st, Step(h, st, op), id) <==> !Writes(h, st, op, id)
  {
    StepOnRecord(h, st, op, id);
  }

  /** No operation of the run writes record `id`. */
  ghost predicate Untouched(h: IdHash, st: Store, ops: seq<Op>, id: string) {
    forall k :: 0 <= k < |ops| ==> !Writes(h, RunFrom(h, st, ops[..k]), ops[k], id)
  }

  ghost predicate AlwaysKept(h: IdHash, st: Store, ops: seq<Op>, id: string) {
    forall k :: 0 <= k <= |ops| ==> Keeps(st, RunFrom(h, st, ops[..k]), id)
  }

  lemma {:induction false} KeptSettled(h: IdHash, st: Store, ops: seq<Op>, id: string)
    requires id in st && !st[id].status.Pending? && Untouched(h, st, ops, id)
    ensures Keeps(st, RunFrom(h, st, ops), id)
  {
    if ops != [] {
      var before, op := ops[..|ops| - 1], ops[|ops| - 1];
      assert forall k :: 0 <= k < |before| ==> before[..k] == ops[..k];
      KeptSettled(h, st, before, id);
      SettledStays(h, RunFrom(h, st, before), op, id);
    }
  }

  lemma UntouchedPrefix(h: IdHash, st: Store, ops: seq<Op>, id: string, n: nat)
    requires Untouched(h, st, ops, id) && n <= |ops|
    ensures Untouched(h, st, ops[..n], id)
  {
    assert forall k :: 0 <= k < n ==> ops[..n][..k] == ops[..k];
  }

  /** A decided or expired record stays as it is throughout a run exactly when no operation of
      the run writes it. */
  lemma KeptExactly(h: IdHash, st: Store, ops: seq<Op>, id: string)
    requires id in st && !st[id].status.Pending?
    ensures AlwaysKept(h, st, ops, id) <==> Untouched(h, st, ops, id)
  {
    if Untouched(h, st, ops, id) {
      forall k | 0 <= k <= |ops| ensures Keeps(st, RunFrom(h, st, ops[..k]), id) {
        UntouchedPrefix(h, st, ops, id, k);
        KeptSettled(h, st, ops[..k], id);
      }
    }
    if AlwaysKept(h, st, ops, id) {
      forall k | 0 <= k < |ops| ensures !Writes(h, RunFrom(h, st, ops[..k]), ops[k], id) {
        StepKept(h, st, ops, id, k);
      }
    }
  }

  lemma StepKept(h: IdHash, st: Store, ops: seq<Op>, id: string, k: nat)
    requires id in st && !st[id].status.Pending? && AlwaysKept(h, st, ops, id) && k < |ops|
    ensures !Writes(h, RunFrom(h, st, ops[..k]), ops[k], id)
  {
    var next := k + 1;
    assert Keeps(st, RunFrom(h, st, ops[..k]), id) && Keeps(st, RunFrom(h, st, ops[..next]), id);
    assert ops[..next][..k] == ops[..k];
    SettledStays(h, RunFrom(h, st, ops[..k]), ops[k], id);
  }

  /** Once approved, a request stays approved and every later enforcement of its
      spend on the same day returns it, until an operation writes its record: using
      an approval does not consume it. */
  lemma ApprovalIsReusable(h: IdHash, st: Store, ops: seq<Op>, s: Spend, threshold: int, m1: Moment, m2: Moment)
    requires var id := RequestId(h, s, m1.day);
             && id in st && st[id].status.Approved? && ValidSpend(s) && RequiresApproval(s, threshold)
             && Untouched(h, st, ops, id)
    ensures var st' := RunFrom(h, st, ops);
            Enforce(h, st', s, threshold, m1, m2) == (Released(st[RequestId(h, s, m1.day)]), st')
  {
    var id := RequestId(h, s, m1.day);
    KeptSettled(h, st, ops, id);
    var st' := RunFrom(h, st, ops);
    assert Check(st', id, m1.utc) == st';
  }

  /** The whole course of a request: enforcement raises, reading the clock at `a1` and
      at `a2`, the request is approved no later than it expires, and then every
      enforcement of the spend that day returns. */
  lemma ApprovedRetryIsReleased(h: IdHash, st: Store, s: Spend, threshold: int, a1: Moment, a2: Moment,
                                who: string, time: int, ops: seq<Op>, m1: Moment, m2: Moment)
    requires Enforce(h, st, s, threshold, a1, a2).0.ApprovalRequired? && m1.day == a2.day
    requires var id, raised := RequestId(h, s, a2.day), Enforce(h, st, s, threshold, a1, a2).1;
             && time <= raised[id].expiresAt
             && Untouched(h, Decide(raised, id, true, who, time), ops, id)
    ensures var id := RequestId(h, s, a2.day);
            var st' := RunFrom(h, Decide(Enforce(h, st, s, threshold, a1, a2).1, id, true, who, time), ops);
            && Enforce(h, st', s, threshold, m1, m2).0.Released?
            && Enforce(h, st', s, threshold, m1, m2).0.record.decidedBy == Some(who)
  {
    var id := RequestId(h, s, a2.day);
    ApprovalIsReusable(h, Decide(Enforce(h, st, s, threshold, a1, a2).1, id, true, who, time), ops, s, threshold, m1, m2);
  }

  /** So does an enforcement that starts before midnight and creates its request
      after it, when the spend was already approved for the new day. */
  lemma MidnightResetsApproval(h: IdHash, st: Store, s: Spend, threshold: int, m1: Moment, m2: Moment)
    requires ValidSpend(s) && RequiresApproval(s, threshold)
    requires var id1, id2 := RequestId(h, s, m1.day), RequestId(h, s, m2.day);
             && id1 != id2 && id1 !in st && id2 in st && st[id2].status.Approved?
    ensures IsPending(Enforce(h, st, s, threshold, m1, m2).1, RequestId(h, s, m2.day))
  {
  }

  /** A direct creation takes an approval back: the record becomes pending again. */
  lemma CreationResetsApproval(h: IdHash, st: Store, s: Spend, context: string, ttl: int, now: Moment)
    requires var id := RequestId(h, s, now.day); id in st && st[id].status.Approved?
    ensures var id := RequestId(h, s, now.day); IsPending(Create(h, st, s, context, ttl, now), id)
  {
  }
}
