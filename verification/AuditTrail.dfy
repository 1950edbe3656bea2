/** The audit entries of the spend machine in a log file. */
module AuditTrail {
  import opened Wrappers
  import opened Json
  import opened HashChain
  import opened HashChainFiles
  import opened HashChainRuns
  import opened Harness
  import opened AuditedRuns
  import Approvals
  import Graph
  import AuditLog

  /** A writer of entry `e` answers `r` and leaves the lines `es'`. */
  ghost function Written(p: Platform): (seq<Members>, AuditEntry, Outcome, seq<Members>) -> bool {
    (es: seq<Members>, e: AuditEntry, r: Outcome, es': seq<Members>) =>
      r == AppendOutcome(p, es, ToDraft(p, e)) && es' == Extended(p, es, ToDraft(p, e))
  }

  function HashOf(r: Outcome): Option<string> {
    if r.Appended? then Some(StoredHash(r.entry)) else None
  }

  lemma Answered(p: Platform, es: seq<Members>, e: AuditEntry, r: Outcome, es': seq<Members>, x: Members)
    requires Written(p)(es, e, r, es') && Fit(p)(e) && x == Seal(p, ToDraft(p, e), |es|, PrevHash(es, |es|))
    ensures (r, es') == if TailReadable(es) then (Appended(x), es + [x]) else (NoHead, es)
  {
  }

  lemma SealedDigest(es: seq<Members>, x: Members)
    ensures PrevHash(es + [x], |es| + 1) == StoredHash(x)
  {
    assert (es + [x])[|es|] == x;
  }

  lemma AddGood(good: AuditEntry -> bool, log: seq<AuditEntry>, e: AuditEntry)
    requires All(good, log) && good(e)
    ensures All(good, log + [e])
  {
  }

  /** The environment of a log file, with the parts that do not concern the log. */
  lemma FileAudit(env: Env, w: World, e: AuditEntry, readable: bool, h: string)
    requires env.readable(w.log) == readable && env.digest(w.log + [e]) == h
    ensures Audit(env, w, e) == if readable then (Some(h), w.(log := w.log + [e])) else (None, w)
  {
  }

  ghost function Sealed(p: Platform): seq<AuditEntry> -> seq<Members> {
    (log: seq<AuditEntry>) => SealAll(p, log)
  }

  /** An append to the file does what the machine's audit step does. */
  lemma WriteIsAudit(p: Platform, ids: Approvals.IdHash, norm: Graph.Norm, skills: set<string>,
                     w: World, e: AuditEntry, r: Outcome, es': seq<Members>)
    requires All(Fit(p), w.log) && Fit(p)(e) && Written(p)(Sealed(p)(w.log), e, r, es')
    ensures var (h, w') := Audit(RealEnv(p, ids, norm, skills), w, e);
            && h == HashOf(r) && w' == w.(log := if r.Appended? then w.log + [e] else w.log)
            && All(Fit(p), w'.log) && es' == Sealed(p)(w'.log)
  {
    var es := SealAll(p, w.log);
    var x := Seal(p, ToDraft(p, e), |es|, PrevHash(es, |es|));
    Answered(p, es, e, r, es', x);
    SealAllStep(p, w.log, e);
    SealedDigest(es, x);
    AddGood(Fit(p), w.log, e);
    FileAudit(RealEnv(p, ids, norm, skills), w, e, TailReadable(es), StoredHash(x));
  }

  /** One append through the log's writer. */
  method WriteEntry(file: AuditLog.Log, e: AuditEntry) returns (r: Outcome)
    requires file.Valid() && GoodEntry(file.p, e)
    modifies file
    ensures file.Valid() && Written(file.p)(old(file.entries), e, r, file.entries)
  {
    r := file.Write(ToDraft(file.p, e));
  }

  /** The file holds the entries of the machine. */
  ghost predicate Keeps(file: AuditLog.Log, log: seq<AuditEntry>)
    reads file
  {
    file.Valid() && All(Fit(file.p), log) && file.entries == Sealed(file.p)(log)
  }

  /** An append to the file is an audit step. */
  method AppendEntry(file: AuditLog.Log, ids: Approvals.IdHash, norm: Graph.Norm, skills: set<string>,
                     ghost w: World, e: AuditEntry)
    returns (h: Option<string>, ghost w': World)
    requires Keeps(file, w.log) && Fit(file.p)(e)
    modifies file
    ensures (h, w') == Audit(RealEnv(file.p, ids, norm, skills), w, e) && w' == w.(log := w'.log)
    ensures Keeps(file, w'.log)
  {
    var r := WriteEntry(file, e);
    WriteIsAudit(file.p, ids, norm, skills, w, e, r, file.entries);
    h := HashOf(r);
    w' := w.(log := if r.Appended? then w.log + [e] else w.log);
  }
}
