/** The weekly and monthly analysis cycle: each cycle escalates the findings whose
    key the cycle before did not have, and hands its own keys to the next. */
module Cycles {
  import opened Sequences
  import opened StringOrder
  import opened StableSort
  import opened DescendingSort
  import opened Correlation
  import opened Findings

  /** `_finding_key`. */
  function Key(f: Finding): string {
    f.title + "|" + f.category
  }

  /** What is stored with a key. */
  datatype Noted = Noted(title: string, detail: Detail)

  type State = map<string, Noted>

  /** `_diff_findings`. */
  function NewOnes(current: seq<Finding>, last: State): seq<Finding> {
    if current == [] then []
    else
      var f := current[|current| - 1];
      NewOnes(current[..|current| - 1], last) + if Key(f) in last then [] else [f]
  }

  /** The map of the current findings; of findings with one key the last is kept. */
  function Updated(current: seq<Finding>): State {
    if current == [] then map[]
    else
      var f := current[|current| - 1];
      Updated(current[..|current| - 1])[Key(f) := Noted(f.title, f.detail)]
  }

  // ---- The transactions of a cycle ----

  datatype Mode = Weekly | Monthly

  /** The greatest month that occurs. */
  function LatestMonth(txns: seq<Txn>): string
    requires txns != []
  {
    var m := Month(txns[|txns| - 1]);
    if |txns| == 1 then m
    else
      var best := LatestMonth(txns[..|txns| - 1]);
      if Less(best, m) then m else best
  }

  function OfMonth(txns: seq<Txn>, m: string): seq<Txn> {
    if txns == [] then []
    else OfMonth(txns[..|txns| - 1], m) + if Month(txns[|txns| - 1]) == m then [txns[|txns| - 1]] else []
  }

  /** `_newest_period_transactions`. */
  function NewestPeriod(txns: seq<Txn>): seq<Txn> {
    if txns == [] then [] else OfMonth(txns, LatestMonth(txns))
  }

  /** A cycle: its mode, and all transactions loaded for it. */
  datatype Cycle = Cycle(mode: Mode, txns: seq<Txn>)

  function FindingsOf(d: Detectors, alert: real, c: Cycle): seq<Finding> {
    Find(d, if c.mode.Weekly? then NewestPeriod(c.txns) else c.txns, alert)
  }

  /** The state after a run of cycles whose writes succeed. */
  function After(d: Detectors, alert: real, start: State, cycles: seq<Cycle>): State {
    if cycles == [] then start else Updated(FindingsOf(d, alert, cycles[|cycles| - 1]))
  }

  /** The lines that cycle `i` of a run adds to the escalations. */
  function EscalatedIn(d: Detectors, alert: real, start: State, cycles: seq<Cycle>, i: nat): seq<Finding>
    requires i < |cycles|
  {
    NewOnes(FindingsOf(d, alert, cycles[i]), After(d, alert, start, cycles[..i]))
  }

  lemma CycleStep(current: seq<Finding>, state: State, i: nat)
    requires i < |current|
    ensures var f, next := current[i], i + 1;
            && NewOnes(current[..next], state) == (if Key(f) in state then NewOnes(current[..i], state)
                                                   else NewOnes(current[..i], state) + [f])
            && Updated(current[..next]) == Updated(current[..i])[Key(f) := Noted(f.title, f.detail)]
  {
    PrefixGrows(current, i);
    NothingAdded(NewOnes(current[..i], state));
  }

  method RunCycle(d: Detectors, alert: real, state: State, c: Cycle) returns (escalated: seq<Finding>, state': State)
    ensures escalated == NewOnes(FindingsOf(d, alert, c), state)
    ensures state' == Updated(FindingsOf(d, alert, c))
  {
    var current := FindingsOf(d, alert, c);
    escalated, state' := [], map[];
    for i := 0 to |current|
      invariant escalated == NewOnes(current[..i], state) && state' == Updated(current[..i])
    {
      CycleStep(current, state, i);
      var f := current[i];
      if Key(f) !in state { escalated := escalated + [f]; }
      state' := state'[Key(f) := Noted(f.title, f.detail)];
    }
    assert current[..|current|] == current;
  }

  // ---- One cycle ----

  predicate HasKey(fs: seq<Finding>, k: string) {
    exists i :: 0 <= i < |fs| && Key(fs[i]) == k
  }

  /** How many of the findings have key `k`. */
  function KeyCount(fs: seq<Finding>, k: string): nat {
    if fs == [] then 0
    else KeyCount(fs[..|fs| - 1], k) + if Key(fs[|fs| - 1]) == k then 1 else 0
  }

  lemma HasKeyStep(fs: seq<Finding>, f: Finding, k: string)
    ensures HasKey(fs + [f], k) <==> HasKey(fs, k) || Key(f) == k
  {
    if HasKey(fs, k) {
      var i :| 0 <= i < |fs| && Key(fs[i]) == k;
      assert (fs + [f])[i] == fs[i];
    }
    assert (fs + [f])[|fs|] == f;
  }

  lemma {:induction false} UpdatedKeys(fs: seq<Finding>, k: string)
    ensures k in Updated(fs) <==> HasKey(fs, k)
    ensures HasKey(fs, k) <==> KeyCount(fs, k) > 0
  {
    if fs != [] {
      var init, last := fs[..|fs| - 1], fs[|fs| - 1];
      assert fs == init + [last];
      UpdatedKeys(init, k);
      HasKeyStep(init, last, k);
    }
  }

  lemma CountAppend(fs: seq<Finding>, f: Finding, k: string)
    ensures KeyCount(fs + [f], k) == KeyCount(fs, k) + if Key(f) == k then 1 else 0
    ensures KeyCount(fs + [], k) == KeyCount(fs, k)
  {
    assert (fs + [f])[..|fs|] == fs && fs + [] == fs;
  }

  /** Escalation keeps every finding of a new key and none of a known one. */
  lemma {:induction false} NewOnesCount(fs: seq<Finding>, last: State, k: string)
    ensures KeyCount(NewOnes(fs, last), k) == if k in last then 0 else KeyCount(fs, k)
  {
    if fs != [] {
      NewOnesCount(fs[..|fs| - 1], last, k);
      CountAppend(NewOnes(fs[..|fs| - 1], last), fs[|fs| - 1], k);
    }
  }

  // ---- Runs ----

  /** Key `k` is among the findings of cycle `i`; before the first cycle the state decides. */
  predicate Present(d: Detectors, alert: real, start: State, cycles: seq<Cycle>, i: int, k: string)
    requires -1 <= i < |cycles|
  {
    if i < 0 then k in start else HasKey(FindingsOf(d, alert, cycles[i]), k)
  }

  predicate Appears(d: Detectors, alert: real, start: State, cycles: seq<Cycle>, i: nat, k: string)
    requires i < |cycles|
  {
    Present(d, alert, start, cycles, i, k) && !Present(d, alert, start, cycles, i - 1, k)
  }

  lemma AfterKeys(d: Detectors, alert: real, start: State, cycles: seq<Cycle>, i: nat, k: string)
    requires i < |cycles|
    ensures k in After(d, alert, start, cycles[..i]) <==> Present(d, alert, start, cycles, i - 1, k)
  {
    if i > 0 {
      assert cycles[..i][i - 1] == cycles[i - 1];
      UpdatedKeys(FindingsOf(d, alert, cycles[i - 1]), k);
    }
  }

  /** A cycle escalates a key exactly when it is present and was absent the cycle
      before, with one line for each finding that has it. */
  lemma EscalatedExactly(d: Detectors, alert: real, start: State, cycles: seq<Cycle>, i: nat, k: string)
    requires i < |cycles|
    ensures HasKey(EscalatedIn(d, alert, start, cycles, i), k) <==> Appears(d, alert, start, cycles, i, k)
    ensures KeyCount(EscalatedIn(d, alert, start, cycles, i), k)
         == if Appears(d, alert, start, cycles, i, k) then KeyCount(FindingsOf(d, alert, cycles[i]), k) else 0
  {
    var fs, last := FindingsOf(d, alert, cycles[i]), After(d, alert, start, cycles[..i]);
    AfterKeys(d, alert, start, cycles, i, k);
    NewOnesCount(fs, last, k);
    UpdatedKeys(fs, k);
    UpdatedKeys(NewOnes(fs, last), k);
  }

  /** How many of the first `n` numbers have a property. */
  function CountTo(hit: nat -> bool, n: nat): nat {
    if n == 0 then 0 else CountTo(hit, n - 1) + if hit(n - 1) then 1 else 0
  }

  lemma {:induction false} CountsAgree(f: nat -> bool, g: nat -> bool, n: nat)
    requires forall i :: 0 <= i < n ==> f(i) == g(i)
    ensures CountTo(f, n) == CountTo(g, n)
  {
    if n > 0 { CountsAgree(f, g, n - 1); }
  }

  /** The cycles that escalate key `k`. */
  function Escalating(d: Detectors, alert: real, start: State, cycles: seq<Cycle>, k: string): nat -> bool {
    (i: nat) => i < |cycles| && HasKey(EscalatedIn(d, alert, start, cycles, i), k)
  }

  /** The cycles in which `k` is present, having been absent in the one before. */
  function Appearing(d: Detectors, alert: real, start: State, cycles: seq<Cycle>, k: string): nat -> bool {
    (i: nat) => i < |cycles| && Appears(d, alert, start, cycles, i, k)
  }

  /** In every run, as many cycles escalate a key as there are cycles in which it is
      present, having been absent the cycle before. */
  lemma EscalationsAreAppearances(d: Detectors, alert: real, start: State, cycles: seq<Cycle>, k: string)
    ensures CountTo(Escalating(d, alert, start, cycles, k), |cycles|)
         == CountTo(Appearing(d, alert, start, cycles, k), |cycles|)
  {
    var f, g := Escalating(d, alert, start, cycles, k), Appearing(d, alert, start, cycles, k);
    forall i: nat | i < |cycles| ensures f(i) == g(i) {
      EscalatedExactly(d, alert, start, cycles, i, k);
    }
    CountsAgree(f, g, |cycles|);
  }

  // ---- Weekly cycles forget the jumps ----

  lemma {:induction false} OfMonthIsOneMonth(txns: seq<Txn>, m: string)
    ensures OneMonth(OfMonth(txns, m), m)
  {
    if txns != [] { OfMonthIsOneMonth(txns[..|txns| - 1], m); }
  }

  lemma {:induction false} ExpensesOfOneMonth(txns: seq<Txn>, m: string)
    requires OneMonth(txns, m)
    ensures OneMonth(Expenses(txns), m)
  {
    if txns != [] { ExpensesOfOneMonth(txns[..|txns| - 1], m); }
  }

  /** The key of a jump starts as no other finding's key does. */
  predicate IsJumpKey(k: string) {
    RISE <= k
  }

  lemma OtherTitlesDiffer(r: Report)
    ensures !IsJumpKey(Key(Titled(SPIKE)(r))) && !IsJumpKey(Key(Titled(TWICE)(r))) && !IsJumpKey(Key(Titled(TOP)(r)))
  {
    assert Key(Titled(SPIKE)(r))[0] == 'E' && Key(Titled(TWICE)(r))[0] == 'P' && Key(Titled(TOP)(r))[0] == 'T';
  }

  lemma NotAmong(title: string, rs: seq<Report>, k: string)
    requires IsJumpKey(k) && title in {SPIKE, TWICE, TOP}
    ensures forall f :: f in Map(Titled(title), rs) ==> Key(f) != k
  {
    forall f | f in Map(Titled(title), rs) ensures Key(f) != k {
      var i :| 0 <= i < |rs| && f == Titled(title)(rs[i]);
      OtherTitlesDiffer(rs[i]);
    }
  }

  /** A key of a jump comes from the jump detector alone. */
  lemma JumpKeyInFind(d: Detectors, txns: seq<Txn>, alert: real, k: string)
    requires IsJumpKey(k)
    ensures HasKey(Find(d, txns, alert), k) <==>
            HasKey(AllJumps(d.category, Expenses(txns), alert, d.recurring(Expenses(txns))), k)
  {
    var jumps := AllJumps(d.category, Expenses(txns), alert, d.recurring(Expenses(txns)));
    NotAmong(SPIKE, d.spikes(txns), k);
    NotAmong(TWICE, d.duplicates(txns), k);
    NotAmong(TOP, d.top(txns), k);
    RankedMembers(d.round, Collected(d, txns, alert));
    KeyByMember(Find(d, txns, alert), k);
    KeyByMember(jumps, k);
  }

  lemma KeyByMember(fs: seq<Finding>, k: string)
    ensures HasKey(fs, k) <==> exists f :: f in fs && Key(f) == k
  {
    if HasKey(fs, k) {
      var i :| 0 <= i < |fs| && Key(fs[i]) == k;
      assert fs[i] in fs;
    }
  }

  /** A weekly cycle finds no jump, whatever its data. */
  lemma WeeklyFindsNoJump(d: Detectors, alert: real, c: Cycle, k: string)
    requires c.mode.Weekly? && IsJumpKey(k)
    ensures !HasKey(FindingsOf(d, alert, c), k)
  {
    var txns := NewestPeriod(c.txns);
    var m := if c.txns == [] then "" else LatestMonth(c.txns);
    OfMonthIsOneMonth(c.txns, m);
    ExpensesOfOneMonth(txns, m);
    OneMonthHasNoJump(d.category, Expenses(txns), alert, d.recurring(Expenses(txns)), m);
    JumpKeyInFind(d, txns, alert, k);
  }

  lemma JumpTitle(category: CategoryOf, expenses: seq<Txn>, alert: real, v: string, f: Finding)
    requires IsJump(category, expenses, alert, v, f)
    ensures IsJumpKey(Key(f))
  {
    assert f.title == RISE + v;
  }

  /** A monthly cycle finds every jump. */
  lemma JumpIsFound(d: Detectors, alert: real, txns: seq<Txn>, v: string, f: Finding)
    requires v in d.recurring(Expenses(txns)) && IsJump(d.category, Expenses(txns), alert, v, f)
    ensures IsJumpKey(Key(f)) && HasKey(Find(d, txns, alert), Key(f))
  {
    var expenses := Expenses(txns);
    JumpTitle(d.category, expenses, alert, v, f);
    JumpFindingExact(d.category, expenses, alert, d.recurring(expenses), f);
    KeyByMember(AllJumps(d.category, expenses, alert, d.recurring(expenses)), Key(f));
    JumpKeyInFind(d, txns, alert, Key(f));
  }

  /** So in any run a monthly cycle right after a weekly one escalates all its jumps,
      including those that an earlier monthly cycle escalated. */
  lemma JumpsFireAfterWeekly(d: Detectors, alert: real, start: State, cycles: seq<Cycle>, i: nat, v: string, f: Finding)
    requires 0 < i < |cycles| && cycles[i - 1].mode.Weekly? && cycles[i].mode.Monthly?
    requires v in d.recurring(Expenses(cycles[i].txns)) && IsJump(d.category, Expenses(cycles[i].txns), alert, v, f)
    ensures HasKey(EscalatedIn(d, alert, start, cycles, i), Key(f))
  {
    JumpIsFound(d, alert, cycles[i].txns, v, f);
    WeeklyFindsNoJump(d, alert, cycles[i - 1], Key(f));
    EscalatedExactly(d, alert, start, cycles, i, Key(f));
  }

  /** Monthly, weekly, monthly on unchanged data: each jump is escalated twice, unless
      the state already had it, and then once. */
  lemma UnchangedDataFiresAgain(d: Detectors, alert: real, start: State, txns: seq<Txn>, v: string, f: Finding)
    requires v in d.recurring(Expenses(txns)) && IsJump(d.category, Expenses(txns), alert, v, f)
    ensures var cycles := [Cycle(Monthly, txns), Cycle(Weekly, txns), Cycle(Monthly, txns)];
            CountTo(Escalating(d, alert, start, cycles, Key(f)), 3) == if Key(f) in start then 1 else 2
  {
    var cycles := [Cycle(Monthly, txns), Cycle(Weekly, txns), Cycle(Monthly, txns)];
    JumpIsFound(d, alert, txns, v, f);
    WeeklyFindsNoJump(d, alert, cycles[1], Key(f));
    PeaksCountTwice(d, alert, start, cycles, Key(f));
  }

  lemma EscalatesAt(d: Detectors, alert: real, start: State, cycles: seq<Cycle>, i: nat, k: string)
    requires i < |cycles|
    ensures Escalating(d, alert, start, cycles, k)(i) <==>
            HasKey(FindingsOf(d, alert, cycles[i]), k)
            && !(if i == 0 then k in start else HasKey(FindingsOf(d, alert, cycles[i - 1]), k))
  {
    EscalatedExactly(d, alert, start, cycles, i, k);
  }

  lemma PeaksCountTwice(d: Detectors, alert: real, start: State, cycles: seq<Cycle>, k: string)
    requires |cycles| == 3
    requires HasKey(FindingsOf(d, alert, cycles[0]), k) && HasKey(FindingsOf(d, alert, cycles[2]), k)
    requires !HasKey(FindingsOf(d, alert, cycles[1]), k)
    ensures CountTo(Escalating(d, alert, start, cycles, k), 3) == if k in start then 1 else 2
  {
    var hit := Escalating(d, alert, start, cycles, k);
    EscalatesAt(d, alert, start, cycles, 0, k);
    EscalatesAt(d, alert, start, cycles, 1, k);
    EscalatesAt(d, alert, start, cycles, 2, k);
    CountOfThree(hit);
  }

  lemma CountOfThree(hit: nat -> bool)
    ensures CountTo(hit, 3) == (if hit(0) then 1 else 0) + (if hit(1) then 1 else 0) + (if hit(2) then 1 else 0)
  {
    assert CountTo(hit, 1) == if hit(0) then 1 else 0;
    assert CountTo(hit, 2) == CountTo(hit, 1) + if hit(1) then 1 else 0;
  }

  // ---- Keys and periods, spelled out ----

  lemma KeyExactly(f: Finding)
    ensures Key(f) == f.title + "|" + f.category
  {
  }

  function IsNew(last: State): Finding -> bool {
    (f: Finding) => f.title + "|" + f.category !in last
  }

  /** The escalated findings are those whose title and category the state lacks, in order. */
  lemma {:induction false} NewOnesInOrder(fs: seq<Finding>, last: State)
    ensures NewOnes(fs, last) == Filter(IsNew(last), fs)
  {
    if fs != [] {
      NewOnesInOrder(fs[..|fs| - 1], last);
      KeyExactly(fs[|fs| - 1]);
    }
  }

  lemma {:induction false} LatestExactly(txns: seq<Txn>)
    requires txns != []
    ensures forall i :: 0 <= i < |txns| ==> !Less(LatestMonth(txns), Month(txns[i]))
    ensures exists i :: 0 <= i < |txns| && Month(txns[i]) == LatestMonth(txns)
  {
    var n := |txns| - 1;
    var m := Month(txns[n]);
    if n == 0 {
      NotLess(m);
    } else {
      LatestExactly(txns[..n]);
      var best := LatestMonth(txns[..n]);
      NotLess(m);
      forall i | 0 <= i < |txns| ensures !Less(LatestMonth(txns), Month(txns[i])) {
        if i < n {
          assert txns[..n][i] == txns[i];
          if Less(best, m) && Less(m, Month(txns[i])) { LessTransitive(best, m, Month(txns[i])); }
        }
      }
      var j :| 0 <= j < n && Month(txns[..n][j]) == best;
      assert Month(txns[j]) == best;
    }
  }

  lemma NotLess(m: string)
    ensures !Less(m, m)
  {
    if Less(m, m) { LessAsymmetric(m, m); }
  }

  function IsOfMonth(m: string): Txn -> bool {
    (t: Txn) => Month(t) == m
  }

  /** The newest period is the transactions of the greatest month, in order. */
  lemma {:induction false} OfMonthInOrder(txns: seq<Txn>, m: string)
    ensures OfMonth(txns, m) == Filter(IsOfMonth(m), txns)
  {
    if txns != [] { OfMonthInOrder(txns[..|txns| - 1], m); }
  }
}
