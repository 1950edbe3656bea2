/** What each operation of the approval gate does to a record, written out, and what becomes
    of a record that is denied. */
module ApprovalStates {
  import opened Wrappers
  import opened Approvals

  /** A pending record takes the decision if it comes no later than the record expires, and
      expires otherwise; a record that is not pending is not decided again. */
  lemma DecisionExactly(st: Store, id: string, approved: bool, who: string, time: int)
    ensures var st' := Decide(st, id, approved, who, time);
            && st'.Keys == st.Keys && (forall k :: k in st && k != id ==> st'[k] == st[k])
            && (id in st ==>
                  var r := st[id];
                  st'[id] ==
                  if !r.status.Pending? then r
                  else if time > r.expiresAt
                  then Record(id := r.id, action := r.action, vendor := r.vendor, amount := r.amount, context := r.context,
                              createdAt := r.createdAt, expiresAt := r.expiresAt, status := Expired,
                              decidedAt := r.decidedAt, decidedBy := r.decidedBy)
                  else Record(id := r.id, action := r.action, vendor := r.vendor, amount := r.amount, context := r.context,
                              createdAt := r.createdAt, expiresAt := r.expiresAt,
                              status := if approved then Approved else Denied,
                              decidedAt := Some(time), decidedBy := Some(who)))
  {
  }

  /** A pending record past its time expires when it is looked at; nothing else changes. */
  lemma CheckExactly(st: Store, id: string, time: int)
    ensures var st' := Check(st, id, time);
            && st'.Keys == st.Keys && (forall k :: k in st && k != id ==> st'[k] == st[k])
            && (id in st ==>
                  && (st[id].status.Pending? && time > st[id].expiresAt ==> st'[id] == st[id].(status := Expired))
                  && (!st[id].status.Pending? || time <= st[id].expiresAt ==> st'[id] == st[id]))
  {
  }

  /** A creation leaves a pending record alone and replaces any other by a pending one that
      lives from the reading of the clock for the time given. */
  lemma CreationExactly(h: IdHash, st: Store, s: Spend, context: string, ttl: int, now: Moment)
    ensures var id := RequestId(h, s, now.day);
            Create(h, st, s, context, ttl, now) ==
            if id in st && st[id].status.Pending? then st
            else st[id := Record(id, s.action, s.vendor, s.amount, context, now.utc, now.utc + ttl, Pending, None, None)]
  {
  }

  const DAY: int := 24 * 60 * 60 * 1_000_000

  /** Enforcement: a spend with an unknown action or a negative amount is refused, one within
      the threshold passes, one with an approved request of that day passes, and any other
      raises, with a pending request for a day. A request of that day past its time expires. */
  lemma EnforcementExactly(h: IdHash, st: Store, s: Spend, threshold: int, m1: Moment, m2: Moment)
    ensures var (g, st') := Enforce(h, st, s, threshold, m1, m2);
            var id1, id2 := RequestId(h, s, m1.day), RequestId(h, s, m2.day);
            if s.action !in {"purchase", "subscribe", "renew", "refund", "transfer", "contract"} || s.amount < 0
            then g == ValueError && st' == st
            else if s.amount <= threshold then g == AutoApproved && st' == st
            else if id1 in st && st[id1].status.Approved? then g == Released(st[id1]) && st' == st
            else
              var stale := id1 in st && st[id1].status.Pending? && m1.utc > st[id1].expiresAt;
              var st1 := if stale then st[id1 := st[id1].(status := Expired)] else st;
              && g == ApprovalRequired(id2)
              && st' == if id2 in st1 && st1[id2].status.Pending? then st1
                        else st1[id2 := Record(id2, s.action, s.vendor, s.amount, "", m2.utc, m2.utc + DAY, Pending, None, None)]
  {
    var id1 := RequestId(h, s, m1.day);
    if id1 in st && Checked(st[id1], m1.utc) == st[id1] { assert st[id1 := st[id1]] == st; }
  }

  // ---- A request that is denied ----

  /** The record stays denied: it is not listed, no enforcement of its spend on its day
      passes because of it, and a later decision, whatever it is, leaves it as it is. */
  ghost predicate StaysDenied(h: IdHash, st: Store, id: string, r: Record) {
    && id in st && st[id] == r && r.status.Denied?
    && (forall now :: !Listed(st, id, now))
    && (forall s: Spend, threshold: int, m1: Moment, m2: Moment ::
          RequestId(h, s, m1.day) == id ==> !Enforce(h, st, s, threshold, m1, m2).0.Released?)
    && (forall approved: bool, who: string, time: int :: Decide(st, id, approved, who, time) == st)
  }

  lemma DeniedNow(h: IdHash, st: Store, id: string)
    requires id in st && st[id].status.Denied?
    ensures StaysDenied(h, st, id, st[id])
  {
    forall approved, who, time ensures Decide(st, id, approved, who, time) == st {
      assert Decided(st[id], approved, who, time) == st[id];
    }
  }

  /** A pending record that is denied in time stays so in every run, until an operation
      writes it again. */
  lemma DeniedUntilCreated(h: IdHash, st: Store, id: string, who: string, time: int, ops: seq<Op>)
    requires IsPending(st, id) && time <= st[id].expiresAt
    requires Untouched(h, Decide(st, id, false, who, time), ops, id)
    ensures var r := st[id].(status := Denied, decidedAt := Some(time), decidedBy := Some(who));
            StaysDenied(h, RunFrom(h, Decide(st, id, false, who, time), ops), id, r)
  {
    var denied := Decide(st, id, false, who, time);
    KeptSettled(h, denied, ops, id);
    DeniedNow(h, RunFrom(h, denied, ops), id);
  }

  /** Operations that write a record are creations of it: direct ones of a valid spend, and
      enforcements that raise. */
  lemma WritesExactly(h: IdHash, st: Store, op: Op, id: string)
    requires id in st && !st[id].status.Pending?
    ensures Writes(h, st, op, id) <==>
            || (op.CreateOp? && ValidSpend(op.s) && id == RequestId(h, op.s, op.at.day))
            || (op.EnforceOp? && ValidSpend(op.s) && op.s.amount > op.threshold && id == RequestId(h, op.s, op.m2.day)
                && var id1 := RequestId(h, op.s, op.m1.day); !(id1 in st && st[id1].status.Approved?))
  {
  }

  /** A record is listed exactly if it is pending and its time has not passed. */
  lemma ListedExactly(st: Store, id: string, now: int)
    ensures Listed(st, id, now) <==> id in st && st[id].status == Pending && now <= st[id].expiresAt
  {
  }
}
