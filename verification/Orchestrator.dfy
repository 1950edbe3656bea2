/** The bounded planner loop and its guard against repetition. */
module Orchestrator {
  import opened Wrappers
  import opened Json
  import opened JsonRoundTrip
  import opened JsonScan
  import opened Canonical
  import opened Harness

  /** What a planner's reply says; `Garbled` is a reply that is no JSON object. */
  datatype Action =
    | Garbled
    | Final(summary: string)
    | Escalate(reason: string)
    | RunSkill(skill: string, args: Members)
    | Other(kind: string)

  const SEED := "__SEED__"

  /** The arguments without those that stand for seed data. */
  function WithoutSeeds(ms: Members): (r: Members)
    ensures Keys(r) <= Keys(ms)
    ensures UniqueKeys(ms) ==> UniqueKeys(r)
  {
    match ms
    case MNil => MNil
    case MCons(k, v, t) => if v == JString(SEED) then WithoutSeeds(t) else MCons(k, v, WithoutSeeds(t))
  }

  /** `f"{skill}::{json.dumps(raw_args, sort_keys=True)}"`, with escapes for
      non-ASCII characters left as the characters. */
  function SkillKey(skill: string, args: Members): string {
    skill + ("::" + Dumps(SortKeys(JObject(WithoutSeeds(args)))))
  }

  // ---- The key identifies the call ----

  lemma {:induction false} WithoutSeedsWellFormed(fr: FloatRepr, ms: Members)
    requires WellFormedMembers(fr, ms)
    ensures WellFormedMembers(fr, WithoutSeeds(ms))
  {
    if ms.MCons? { WithoutSeedsWellFormed(fr, ms.tail); }
  }

  /** `s` does not end with a shorter `t`. */
  ghost predicate NotEndedBy(s: string, t: string) {
    forall i :: 0 < i <= |s| ==> s[i..] != t
  }

  /** No object's text ends with another's. */
  lemma ObjectsDoNotNest(fr: FloatRepr, a: Members, b: Members)
    requires WellFormed(fr, JObject(a)) && WellFormed(fr, JObject(b))
    ensures NotEndedBy(Dumps(JObject(b)), Dumps(JObject(a)))
  {
    var s, t := Dumps(JObject(b)), Dumps(JObject(a));
    forall i | 0 < i <= |s| ensures s[i..] != t {
      SuffixIsNoJson(fr, Default, b, i);
      DumpsLoads(fr, Default, JObject(a));
    }
  }

  lemma SplitsOneWay(x: string, s: string, y: string, t: string)
    requires x + s == y + t && NotEndedBy(t, s) && NotEndedBy(s, t)
    ensures x == y && s == t
  {
    if |x| > |y| {
      TailOfSum(x, s, y, t);
    } else if |y| > |x| {
      TailOfSum(y, t, x, s);
    }
    var w := x + s;
    assert x == w[..|x|] && y == w[..|y|];
    assert s == w[|x|..] && t == w[|y|..];
  }

  lemma TailOfSum(x: string, s: string, y: string, t: string)
    requires x + s == y + t && |x| >= |y|
    ensures |x| - |y| <= |t| && t[|x| - |y|..] == s
  {
    var w := x + s;
    assert w[|x|..] == s && w[|y|..] == t;
    assert t[|x| - |y|..] == w[|x|..];
  }

  lemma SortedArgsWellFormed(fr: FloatRepr, a: Members)
    requires WellFormed(fr, JObject(a))
    ensures WellFormed(fr, JObject(WithoutSeeds(a))) && WellFormed(fr, SortKeys(JObject(WithoutSeeds(a))))
  {
    WithoutSeedsWellFormed(fr, a);
    SortWellFormed(fr, JObject(WithoutSeeds(a)));
  }

  lemma KeyParts(s: string, u: string, s': string, v: string)
    requires s + ("::" + u) == s' + ("::" + v) && NotEndedBy(v, u) && NotEndedBy(u, v)
    ensures s == s' && u == v
  {
    assert s + ("::" + u) == (s + "::") + u && s' + ("::" + v) == (s' + "::") + v;
    SplitsOneWay(s + "::", u, s' + "::", v);
    assert s == (s + "::")[..|s|] && s' == (s' + "::")[..|s'|];
  }

  lemma SameDumps(fr: FloatRepr, v: Json, w: Json)
    requires WellFormed(fr, v) && WellFormed(fr, w) && Dumps(v) == Dumps(w)
    ensures v == w
  {
    DumpsLoads(fr, Default, v);
    DumpsLoads(fr, Default, w);
  }

  /** Equal keys mean the same skill and equal arguments, apart from seed data,
      even if a skill's name contains the separator. */
  lemma SkillKeyInjective(fr: FloatRepr, s: string, a: Members, s': string, b: Members)
    requires WellFormed(fr, JObject(a)) && WellFormed(fr, JObject(b))
    requires SkillKey(s, a) == SkillKey(s', b)
    ensures s == s' && Same(JObject(WithoutSeeds(a)), JObject(WithoutSeeds(b)))
  {
    var va, vb := JObject(WithoutSeeds(a)), JObject(WithoutSeeds(b));
    SortedArgsWellFormed(fr, a);
    SortedArgsWellFormed(fr, b);
    ObjectsDoNotNest(fr, SortKeys(va).members, SortKeys(vb).members);
    ObjectsDoNotNest(fr, SortKeys(vb).members, SortKeys(va).members);
    KeyParts(s, Dumps(SortKeys(va)), s', Dumps(SortKeys(vb)));
    SameDumps(fr, SortKeys(va), SortKeys(vb));
    SameSorts(fr, va, vb);
  }

  // ---- The loop ----

  /** What the harness answers; the hash is empty if it has none. */
  datatype StepOutcome = StepOutcome(escalated: bool, hash: string, requestId: string)

  datatype StepRecord = StepRecord(index: nat, key: string, outcome: StepOutcome)

  datatype Message = Observation(record: StepRecord) | Reminder(skill: string)

  /** Why the loop ended. */
  datatype End = NoReply | Summary(text: string) | ModelEscalated | Forced | ApprovalRequired(id: string)
    | UnknownAction | OutOfSteps | Raised

  datatype Trace = Trace(
    selected: seq<string>, steps: seq<StepRecord>, history: seq<string>, hashes: seq<string>,
    calls: nat, end: End, escalated: bool)

  /** The planner answers the messages so far. */
  type Planner = seq<Message> -> Action

  /** The harness runs a skill at a step, in the world that it changes; None when it raises. */
  type Runner = (World, nat, string, Members) -> (Option<StepOutcome>, World)

  /** `s` with runs of equal neighbours collapsed. */
  function Destutter(s: seq<string>): seq<string> {
    if s == [] then []
    else
      var n := |s| - 1;
      Destutter(s[..n]) + if n > 0 && s[n - 1] == s[n] then [] else [s[n]]
  }

  /** How many equal elements `s` ends with. */
  function TrailingRun(s: seq<string>): (n: nat)
    ensures n <= |s| && (s != [] ==> n >= 1)
  {
    if s == [] then 0
    else if |s| >= 2 && s[|s| - 2] == s[|s| - 1] then TrailingRun(s[..|s| - 1]) + 1
    else 1
  }

  function StepKeys(steps: seq<StepRecord>): (r: seq<string>)
    ensures |r| == |steps|
  {
    seq(|steps|, i requires 0 <= i < |steps| => steps[i].key)
  }

  /** The key at place `k` is the third of three equal ones. */
  predicate ThirdInARow(s: seq<string>, k: int) {
    2 <= k < |s| && s[k - 2] == s[k - 1] == s[k]
  }

  lemma {:induction false} TrailingRunEqual(s: seq<string>)
    ensures TrailingRun(s) >= 3 <==> ThirdInARow(s, |s| - 1)
    ensures TrailingRun(s) >= 2 <==> |s| >= 2 && s[|s| - 2] == s[|s| - 1]
  {
    if |s| >= 2 && s[|s| - 2] == s[|s| - 1] {
      var t := s[..|s| - 1];
      assert t[|t| - 1] == s[|s| - 2];
      if |t| >= 2 { assert t[|t| - 2] == s[|s| - 3]; }
    }
  }

  /** Selecting one more key. */
  lemma Selecting(s: seq<string>, key: string)
    ensures var t := s + [key];
            var again := s != [] && s[|s| - 1] == key;
            && TrailingRun(t) == (if again then TrailingRun(s) + 1 else 1)
            && Destutter(t) == (if again then Destutter(s) else Destutter(s) + [key])
            && (TrailingRun(t) >= 3 <==> ThirdInARow(t, |t| - 1))
            && forall k :: ThirdInARow(t, k) && k < |t| - 1 ==> ThirdInARow(s, k)
  {
    assert (s + [key])[..|s|] == s;
    assert Destutter(s) + [] == Destutter(s);
    TrailingRunEqual(s + [key]);
  }

  lemma StepKeysAppend(steps: seq<StepRecord>, record: StepRecord)
    ensures StepKeys(steps + [record]) == StepKeys(steps) + [record.key]
  {
  }

  /** How a selection is told from another. */
  type Keyer = (string, Members) -> string

  function SkillKeys(): Keyer {
    (skill: string, args: Members) => SkillKey(skill, args)
  }

  // ---- What the loop should do ----

  /** The loop between two turns; it has ended if there is a reason for it. */
  datatype Play = Play(
    selected: seq<string>, steps: seq<StepRecord>, history: seq<string>, hashes: seq<string>,
    messages: seq<Message>, calls: nat, world: World, end: Option<End>)

  function Opening(w: World): Play {
    Play([], [], [], [], [], 0, w, None)
  }

  /** Run a skill and note what came of it. */
  function RunStep(s: Play, record: StepRecord): Play {
    s.(steps := s.steps + [record], history := s.history + [record.key],
       hashes := if record.outcome.hash == "" then s.hashes else s.hashes + [record.outcome.hash],
       messages := s.messages + [Observation(record)],
       end := if record.outcome.escalated then Some(ApprovalRequired(record.outcome.requestId)) else None)
  }

  /** Run the selected skill; if that raises, the loop ends as it was. */
  function RunSelected(harness: Runner, i: nat, s: Play, key: string, skill: string, args: Members): Play {
    var (o, w) := harness(s.world, i, skill, args);
    if o.None? then s.(world := w, end := Some(Raised))
    else RunStep(s.(selected := s.selected + [key], world := w), StepRecord(i, key, o.value))
  }

  /** The planner selected `skill`: for the third time in a row the loop ends, for the
      second it is reminded, and otherwise the skill runs. */
  function Select(harness: Runner, i: nat, s: Play, key: string, skill: string, args: Members): Play {
    var selected := s.selected + [key];
    if TrailingRun(selected) >= 3 then s.(selected := selected, end := Some(Forced))
    else if TrailingRun(selected) == 2 then s.(selected := selected, messages := s.messages + [Reminder(skill)])
    else RunSelected(harness, i, s, key, skill, args)
  }

  /** How the loop ends when the planner selects no skill. */
  function EndOf(action: Action): (e: End)
    requires !action.RunSkill?
    ensures e.NoReply? || e.Summary? || e.ModelEscalated? || e.UnknownAction?
  {
    match action
    case Garbled => NoReply
    case Final(summary) => Summary(summary)
    case Escalate(_) => ModelEscalated
    case Other(_) => UnknownAction
  }

  function Turn(keyOf: Keyer, plan: Planner, harness: Runner, i: nat, s: Play): Play {
    var s1, action := s.(calls := s.calls + 1), plan(s.messages);
    if action.RunSkill? then Select(harness, i, s1, keyOf(action.skill, action.args), action.skill, action.args)
    else s1.(end := Some(EndOf(action)))
  }

  type Turner = (nat, Play) -> Play

  /** The turns of a loop, for a way to tell selections apart, a planner and a harness. */
  function Turns(keyOf: Keyer, plan: Planner, harness: Runner): Turner {
    (i: nat, s: Play) => Turn(keyOf, plan, harness, i, s)
  }

  /** The loop after at most `n` turns. */
  function PlayTo(turn: Turner, w: World, n: nat): Play {
    if n == 0 then Opening(w)
    else
      var s := PlayTo(turn, w, n - 1);
      if s.end.Some? then s else turn(n - 1, s)
  }

  function Closed(s: Play): Trace {
    var end := if s.end.Some? then s.end.value else OutOfSteps;
    Trace(s.selected, s.steps, s.history, s.hashes, s.calls, end, end.ModelEscalated? || end.ApprovalRequired?)
  }

  lemma {:induction false} EndedStays(turn: Turner, w: World, m: nat, n: nat)
    requires m <= n && PlayTo(turn, w, m).end.Some?
    ensures PlayTo(turn, w, n) == PlayTo(turn, w, m)
    decreases n
  {
    if m < n { EndedStays(turn, w, m, n - 1); }
  }

  /** The last selection, and how often in a row it was made. */
  predicate Counted(selected: seq<string>, last: Option<string>, count: nat) {
    && count == TrailingRun(selected)
    && last == if selected == [] then None else Some(selected[|selected| - 1])
  }

  /** A selection, with the count of identical ones. */
  method TakeSelection(harness: Runner, i: nat, s: Play, key: string, skill: string, args: Members,
                       last: Option<string>, count: nat)
    returns (s': Play, last': Option<string>, count': nat)
    requires Counted(s.selected, last, count)
    ensures s' == Select(harness, i, s, key, skill, args) && Counted(s'.selected, last', count')
  {
    Selecting(s.selected, key);
    if last == Some(key) {
      last', count' := last, count + 1;
    } else {
      last', count' := Some(key), 1;
    }
    if count' >= 3 {
      s' := s.(selected := s.selected + [key], end := Some(Forced));
    } else if count' == 2 {
      s' := s.(selected := s.selected + [key], messages := s.messages + [Reminder(skill)]);
    } else {
      s' := RunSelected(harness, i, s, key, skill, args);
      if s'.selected == s.selected { last', count' := last, count; }
    }
  }

  /** One turn of the loop. */
  method TakeTurn(keyOf: Keyer, plan: Planner, harness: Runner, i: nat, s: Play, last: Option<string>, count: nat)
    returns (s': Play, last': Option<string>, count': nat)
    requires Counted(s.selected, last, count)
    ensures s' == Turn(keyOf, plan, harness, i, s) && Counted(s'.selected, last', count')
  {
    last', count' := last, count;
    s' := s.(calls := s.calls + 1);
    var action := plan(s.messages);
    if action.RunSkill? {
      var key := keyOf(action.skill, action.args);
      s', last', count' := TakeSelection(harness, i, s', key, action.skill, action.args, last, count);
    } else {
      s' := s'.(end := Some(EndOf(action)));
    }
  }

  /** The loop goes on by one turn. */
  method NextTurn(keyOf: Keyer, plan: Planner, harness: Runner, ghost turn: Turner, ghost w: World, i: nat, s: Play,
                  last: Option<string>, count: nat)
    returns (s': Play, last': Option<string>, count': nat)
    requires turn == Turns(keyOf, plan, harness) && s == PlayTo(turn, w, i) && s.end.None?
    requires Counted(s.selected, last, count)
    ensures s' == PlayTo(turn, w, i + 1) && Counted(s'.selected, last', count')
  {
    s', last', count' := TakeTurn(keyOf, plan, harness, i, s, last, count);
  }

  /** The bounded loop. */
  method Loop(keyOf: Keyer, plan: Planner, harness: Runner, ghost turn: Turner, w: World, bound: nat) returns (s: Play)
    requires turn == Turns(keyOf, plan, harness)
    ensures s == PlayTo(turn, w, bound)
  {
    s := Opening(w);
    var last: Option<string>, count: nat := None, 0;
    var i: nat := 0;
    while i < bound && s.end.None?
      invariant i <= bound && s == PlayTo(turn, w, i) && Counted(s.selected, last, count)
    {
      s, last, count := NextTurn(keyOf, plan, harness, turn, w, i, s, last, count);
      i := i + 1;
    }
    if s.end.Some? { EndedStays(turn, w, i, bound); }
  }

  /** `orchestrate`, for any planner and any harness. */
  method Orchestrate(keyOf: Keyer, plan: Planner, harness: Runner, w: World, maxSteps: int)
    returns (t: Trace, w': World)
    ensures var s := PlayTo(Turns(keyOf, plan, harness), w, if maxSteps < 0 then 0 else maxSteps);
            t == Closed(s) && w' == s.world
  {
    var bound := if maxSteps < 0 then 0 else maxSteps;
    var s := Loop(keyOf, plan, harness, Turns(keyOf, plan, harness), w, bound);
    t, w' := Closed(s), s.world;
  }

  // ---- What every loop keeps ----

  ghost predicate AllHashed(steps: seq<StepRecord>) {
    forall k :: 0 <= k < |steps| ==> steps[k].outcome.hash != ""
  }

  /** Before the last selection there is no third in a row. */
  ghost predicate ThirdOnlyLast(selected: seq<string>) {
    forall k :: 0 <= k < |selected| - 1 ==> !ThirdInARow(selected, k)
  }

  /** The steps are the selections without immediate repetitions, and so is the
      history; there is a hash for each step that has one. */
  ghost predicate StepsMatch(selected: seq<string>, steps: seq<StepRecord>, history: seq<string>, hashes: seq<string>) {
    && StepKeys(steps) == Destutter(selected) && history == StepKeys(steps)
    && (AllHashed(steps) ==> |hashes| == |steps|)
  }

  /** A third selection in a row is the last, and ends the loop. */
  ghost predicate ForcedMatch(selected: seq<string>, forced: bool) {
    ThirdOnlyLast(selected) && (forced <==> TrailingRun(selected) >= 3)
  }

  /** An escalated step is the last, and ends the loop. */
  ghost predicate EscalationMatch(steps: seq<StepRecord>, escalated: bool) {
    && (escalated <==> steps != [] && steps[|steps| - 1].outcome.escalated)
    && forall k :: 0 <= k < |steps| - 1 ==> !steps[k].outcome.escalated
  }

  predicate IsForced(e: Option<End>) {
    e.Some? && e.value.Forced?
  }

  predicate IsEscalated(e: Option<End>) {
    e.Some? && e.value.ApprovalRequired?
  }

  /** Running out of steps is what is left when nothing ended the loop. */
  predicate IsOut(e: Option<End>) {
    e.Some? && e.value.OutOfSteps?
  }

  ghost predicate Kept(s: Play) {
    && StepsMatch(s.selected, s.steps, s.history, s.hashes)
    && ForcedMatch(s.selected, IsForced(s.end)) && EscalationMatch(s.steps, IsEscalated(s.end))
    && !IsOut(s.end)
  }

  lemma SelectedOnce(s: seq<string>, key: string)
    requires ForcedMatch(s, false)
    ensures ForcedMatch(s + [key], TrailingRun(s + [key]) >= 3)
  {
    Selecting(s, key);
    TrailingRunEqual(s);
  }

  lemma StepAdded(s: Play, selected: seq<string>, record: StepRecord)
    requires StepsMatch(s.selected, s.steps, s.history, s.hashes)
    requires Destutter(selected) == Destutter(s.selected) + [record.key]
    ensures var r := RunStep(s.(selected := selected), record);
            StepsMatch(r.selected, r.steps, r.history, r.hashes)
  {
    StepKeysAppend(s.steps, record);
    assert forall k :: 0 <= k < |s.steps| ==> (s.steps + [record])[k] == s.steps[k];
    assert (s.steps + [record])[|s.steps|] == record;
  }

  lemma StepEscalates(steps: seq<StepRecord>, record: StepRecord)
    requires EscalationMatch(steps, false)
    ensures EscalationMatch(steps + [record], record.outcome.escalated)
  {
  }

  lemma RunKeeps(s: Play, selected: seq<string>, record: StepRecord)
    requires Kept(s) && s.end.None? && ForcedMatch(selected, false)
    requires Destutter(selected) == Destutter(s.selected) + [record.key]
    ensures Kept(RunStep(s.(selected := selected), record))
  {
    StepAdded(s, selected, record);
    StepEscalates(s.steps, record);
  }

  lemma SkipKeeps(s: Play, selected: seq<string>, messages: seq<Message>, end: Option<End>)
    requires Kept(s) && s.end.None? && ForcedMatch(selected, IsForced(end)) && !IsEscalated(end) && !IsOut(end)
    requires Destutter(selected) == Destutter(s.selected)
    ensures Kept(s.(selected := selected, messages := messages, end := end))
  {
  }

  lemma SelectKeeps(harness: Runner, i: nat, s: Play, key: string, skill: string, args: Members)
    requires Kept(s) && s.end.None?
    ensures Kept(Select(harness, i, s, key, skill, args))
  {
    var selected := s.selected + [key];
    Selecting(s.selected, key);
    SelectedOnce(s.selected, key);
    if TrailingRun(selected) >= 3 {
      SkipKeeps(s, selected, s.messages, Some(Forced));
    } else if TrailingRun(selected) == 2 {
      SkipKeeps(s, selected, s.messages + [Reminder(skill)], None);
    } else {
      var (o, w) := harness(s.world, i, skill, args);
      WorldKeeps(s, w, None);
      if o.None? {
        WorldKeeps(s, w, Some(Raised));
      } else {
        RunKeeps(s.(world := w), selected, StepRecord(i, key, o.value));
      }
    }
  }

  lemma WorldKeeps(s: Play, w: World, end: Option<End>)
    requires Kept(s) && s.end.None? && !IsForced(end) && !IsEscalated(end) && !IsOut(end)
    ensures Kept(s.(world := w, end := end))
  {
  }

  lemma CalledKeeps(s: Play, calls: nat, end: Option<End>)
    requires Kept(s) && s.end.None? && !IsForced(end) && !IsEscalated(end) && !IsOut(end)
    ensures Kept(s.(calls := calls, end := end))
  {
  }

  lemma TurnKeeps(keyOf: Keyer, plan: Planner, harness: Runner, i: nat, s: Play)
    requires Kept(s) && s.end.None?
    ensures Kept(Turn(keyOf, plan, harness, i, s))
  {
    var action := plan(s.messages);
    if action.RunSkill? {
      CalledKeeps(s, s.calls + 1, None);
      SelectKeeps(harness, i, s.(calls := s.calls + 1), keyOf(action.skill, action.args), action.skill, action.args);
    } else {
      CalledKeeps(s, s.calls + 1, Some(EndOf(action)));
    }
  }

  lemma TurnsKeep(keyOf: Keyer, plan: Planner, harness: Runner, i: nat, s: Play)
    requires Kept(s) && s.end.None?
    ensures Kept(Turns(keyOf, plan, harness)(i, s))
  {
    TurnKeeps(keyOf, plan, harness, i, s);
  }

  /** What every turn keeps, every loop keeps. */
  lemma {:induction false} PlaysKeep(turn: Turner, keep: Play -> bool, w: World, n: nat)
    requires keep(Opening(w)) && forall i, s :: keep(s) && s.end.None? ==> keep(turn(i, s))
    ensures keep(PlayTo(turn, w, n))
  {
    if n > 0 { PlaysKeep(turn, keep, w, n - 1); }
  }

  ghost function Keeper(): Play -> bool {
    (s: Play) => Kept(s)
  }

  /** What the planner selects next, if it selects a skill at all. */
  function Choice(keyOf: Keyer, plan: Planner): Play -> seq<string> {
    (s: Play) =>
      var action := plan(s.messages);
      if action.RunSkill? then [keyOf(action.skill, action.args)] else []
  }

  /** A turn calls the planner once, and adds its selection unless running it raises;
      it ends the loop without a selection. */
  predicate FollowsAt(s: Play, s': Play, c: seq<string>) {
    && s'.calls == s.calls + 1 && |c| <= 1 && (c == [] ==> s'.end.Some?)
    && (s'.selected == s.selected + c || (s'.selected == s.selected && s'.end.Some?))
  }

  ghost predicate Follows(turn: Turner, choice: Play -> seq<string>) {
    forall i, s :: FollowsAt(s, turn(i, s), choice(s))
  }

  lemma TurnFollows(keyOf: Keyer, plan: Planner, harness: Runner, i: nat, s: Play)
    ensures FollowsAt(s, Turns(keyOf, plan, harness)(i, s), Choice(keyOf, plan)(s))
  {
    assert s.selected + [] == s.selected;
  }

  lemma TurnsFollow(keyOf: Keyer, plan: Planner, harness: Runner)
    ensures Follows(Turns(keyOf, plan, harness), Choice(keyOf, plan))
  {
    forall i, s ensures FollowsAt(s, Turns(keyOf, plan, harness)(i, s), Choice(keyOf, plan)(s)) {
      TurnFollows(keyOf, plan, harness, i, s);
    }
  }

  /** The loop stops within its bound, and uses the whole of it if nothing ends it. */
  lemma {:induction false} PlaysCount(turn: Turner, choice: Play -> seq<string>, w: World, n: nat)
    requires Follows(turn, choice)
    ensures var s := PlayTo(turn, w, n);
            s.calls <= n && |s.selected| <= s.calls && (s.end.None? ==> s.calls == n == |s.selected|)
  {
    if n > 0 {
      PlaysCount(turn, choice, w, n - 1);
      var s := PlayTo(turn, w, n - 1);
      assert FollowsAt(s, turn(n - 1, s), choice(s));
    }
  }

  /** The selections are those of the planner: selection `k` is its choice after the
      first `k` turns. */
  lemma {:induction false} SelectedByChoice(turn: Turner, choice: Play -> seq<string>, w: World, n: nat, k: nat)
    requires Follows(turn, choice) && k < |PlayTo(turn, w, n).selected|
    ensures choice(PlayTo(turn, w, k)) == [PlayTo(turn, w, n).selected[k]]
  {
    var s := PlayTo(turn, w, n - 1);
    PlaysCount(turn, choice, w, n - 1);
    assert FollowsAt(s, turn(n - 1, s), choice(s));
    if k < |s.selected| { SelectedByChoice(turn, choice, w, n - 1, k); }
  }

  lemma SelectedByPlanner(keyOf: Keyer, plan: Planner, harness: Runner, w: World, n: nat, k: nat)
    requires k < |PlayTo(Turns(keyOf, plan, harness), w, n).selected|
    ensures var turn := Turns(keyOf, plan, harness);
            Choice(keyOf, plan)(PlayTo(turn, w, k)) == [PlayTo(turn, w, n).selected[k]]
  {
    TurnsFollow(keyOf, plan, harness);
    SelectedByChoice(Turns(keyOf, plan, harness), Choice(keyOf, plan), w, n, k);
  }

  lemma AllKept(keyOf: Keyer, plan: Planner, harness: Runner, w: World, n: nat)
    ensures Kept(PlayTo(Turns(keyOf, plan, harness), w, n))
  {
    var turn := Turns(keyOf, plan, harness);
    forall i, s | Keeper()(s) && s.end.None? ensures Keeper()(turn(i, s)) {
      TurnsKeep(keyOf, plan, harness, i, s);
    }
    PlaysKeep(turn, Keeper(), w, n);
  }

  /** The skills that ran are the de-stuttered selections; a third identical selection
      in a row is the last and forces the end, and nothing else does; steps, history and
      hashes have equal length if every step has a hash; and the loop escalates exactly
      when the model or its last step does. */
  ghost predicate Orderly(t: Trace) {
    && StepKeys(t.steps) == Destutter(t.selected) && t.history == StepKeys(t.steps)
    && (t.end.Forced? <==> ThirdInARow(t.selected, |t.selected| - 1)) && ThirdOnlyLast(t.selected)
    && (AllHashed(t.steps) ==> |t.hashes| == |t.steps|)
    && (t.escalated <==> t.end.ModelEscalated? || (t.steps != [] && t.steps[|t.steps| - 1].outcome.escalated))
  }

  lemma KeptIsOrderly(s: Play)
    requires Kept(s)
    ensures Orderly(Closed(s))
  {
    TrailingRunEqual(s.selected);
  }

  /** For every planner the loop is orderly and stops within its bound. */
  lemma OrchestrationKeeps(keyOf: Keyer, plan: Planner, harness: Runner, w: World, n: nat)
    ensures var t := Closed(PlayTo(Turns(keyOf, plan, harness), w, n));
            Orderly(t) && t.calls <= n && (t.end.OutOfSteps? ==> t.calls == n)
  {
    var turn := Turns(keyOf, plan, harness);
    AllKept(keyOf, plan, harness, w, n);
    KeptIsOrderly(PlayTo(turn, w, n));
    TurnsFollow(keyOf, plan, harness);
    PlaysCount(turn, Choice(keyOf, plan), w, n);
  }

  // ---- A turn, spelled out ----

  /** Selecting `key` again, or for the third time in a row. */
  predicate Again(selected: seq<string>, key: string) {
    selected != [] && selected[|selected| - 1] == key
  }

  predicate ThirdTime(selected: seq<string>, key: string) {
    Again(selected, key) && |selected| >= 2 && selected[|selected| - 2] == key
  }

  /** The ways in which a reply without a skill ends the loop. */
  predicate EndsWith(action: Action, e: End) {
    match action
    case Garbled => e == NoReply
    case Final(summary) => e == Summary(summary)
    case Escalate(_) => e == ModelEscalated
    case Other(_) => e == UnknownAction
    case RunSkill(_, _) => false
  }

  /** What a turn does: it calls the planner with the messages so far. A reply without a skill
      ends the loop. A skill selected for the third time in a row ends it too; one selected for
      the second is noted, and the planner reminded; any other runs, and its outcome is noted,
      shown to the planner, and ends the loop if it is an escalation. */
  ghost predicate IsTurn(keyOf: Keyer, plan: Planner, harness: Runner, i: nat, s: Play, s': Play) {
    && s'.calls == s.calls + 1
    && match plan(s.messages)
       case RunSkill(skill, args) =>
         var key := keyOf(skill, args);
         if ThirdTime(s.selected, key) then
           && s'.selected == s.selected + [key] && s'.end == Some(Forced) && Unrun(s, s')
           && s'.messages == s.messages && s'.world == s.world
         else if Again(s.selected, key) then
           && s'.selected == s.selected + [key] && s'.end == s.end && Unrun(s, s')
           && s'.messages == s.messages + [Reminder(skill)] && s'.world == s.world
         else
           var (o, w) := harness(s.world, i, skill, args);
           && s'.world == w
           && if o.None? then s'.selected == s.selected && s'.messages == s.messages && Unrun(s, s') && s'.end == Some(Raised)
              else
                var record := StepRecord(i, key, o.value);
                && s'.selected == s.selected + [key] && s'.steps == s.steps + [record] && s'.history == s.history + [key]
                && s'.hashes == (if o.value.hash == "" then s.hashes else s.hashes + [o.value.hash])
                && s'.messages == s.messages + [Observation(record)]
                && s'.end == if o.value.escalated then Some(ApprovalRequired(o.value.requestId)) else None
       case action =>
         && s'.end.Some? && EndsWith(action, s'.end.value)
         && s'.selected == s.selected && Unrun(s, s') && s'.messages == s.messages && s'.world == s.world
  }

  predicate Unrun(s: Play, s': Play) {
    s'.steps == s.steps && s'.history == s.history && s'.hashes == s.hashes
  }

  lemma RepeatsExactly(selected: seq<string>, key: string)
    ensures var t := selected + [key];
            && (TrailingRun(t) >= 3 <==> ThirdTime(selected, key)) && (TrailingRun(t) >= 2 <==> Again(selected, key))
  {
    TrailingRunEqual(selected + [key]);
  }

  lemma TurnExactly(keyOf: Keyer, plan: Planner, harness: Runner, i: nat, s: Play, s': Play)
    ensures s' == Turn(keyOf, plan, harness, i, s) <==> IsTurn(keyOf, plan, harness, i, s, s')
  {
    var action := plan(s.messages);
    if action.RunSkill? { RepeatsExactly(s.selected, keyOf(action.skill, action.args)); }
  }

  /** The loop starts with nothing, takes one turn after the other, and after the one that ends
      it no more; so much, at most, as its bound. */
  lemma PlayExactly(turn: Turner, w: World, n: nat)
    ensures var s := PlayTo(turn, w, 0);
            && s.selected == [] && s.steps == [] && s.history == [] && s.hashes == [] && s.messages == []
            && s.calls == 0 && s.world == w && s.end.None?
    ensures var s := PlayTo(turn, w, n);
            PlayTo(turn, w, n + 1) == if s.end.Some? then s else turn(n, s)
  {
  }

  // ---- With the real harness ----

  /** A runner whose answers all carry a hash. */
  ghost predicate AlwaysHashed(harness: Runner) {
    forall w, i, skill, args ::
      var o := harness(w, i, skill, args).0; o.Some? ==> o.value.hash != ""
  }

  lemma HashedAdd(steps: seq<StepRecord>, record: StepRecord)
    requires AllHashed(steps) && record.outcome.hash != ""
    ensures AllHashed(steps + [record])
  {
  }

  lemma TurnHashed(keyOf: Keyer, plan: Planner, harness: Runner, i: nat, s: Play)
    requires AlwaysHashed(harness) && AllHashed(s.steps)
    ensures AllHashed(Turns(keyOf, plan, harness)(i, s).steps)
  {
    var action := plan(s.messages);
    if action.RunSkill? {
      var o := harness(s.world, i, action.skill, action.args).0;
      if o.Some? { HashedAdd(s.steps, StepRecord(i, keyOf(action.skill, action.args), o.value)); }
    }
  }

  ghost function HashKeeper(): Play -> bool {
    (s: Play) => AllHashed(s.steps)
  }

  lemma PlaysHashed(keyOf: Keyer, plan: Planner, harness: Runner, w: World, n: nat)
    requires AlwaysHashed(harness)
    ensures AllHashed(PlayTo(Turns(keyOf, plan, harness), w, n).steps)
  {
    var turn := Turns(keyOf, plan, harness);
    forall i, s | HashKeeper()(s) && s.end.None? ensures HashKeeper()(turn(i, s)) {
      TurnHashed(keyOf, plan, harness, i, s);
    }
    PlaysKeep(turn, HashKeeper(), w, n);
  }

  /** What a step record keeps of the harness's result; None when it raised. */
  function OutcomeOf(res: Result): Option<StepOutcome> {
    match res
    case Blocked(h) => Some(StepOutcome(false, h, ""))
    case Escalated(id, h) => Some(StepOutcome(true, h, id))
    case Executed(h) => Some(StepOutcome(false, h, ""))
    case Halted => None
  }

  /** `execute` as the loop calls it: what is called for a selection, what its skill
      does, and the readings of the clock at each step. */
  function Harnessed(env: Env, callOf: (string, Members) -> Call, effectOf: (string, Members) -> Effect,
                     clockAt: nat -> Clock): Runner {
    (w: World, i: nat, skill: string, args: Members) =>
      var (res, w') := Execute(env, w, callOf(skill, args), effectOf(skill, args), clockAt(i));
      (OutcomeOf(res), w')
  }

  /** The digest of a log that has entries is not empty. */
  ghost predicate Digests(env: Env) {
    forall log :: log != [] ==> env.digest(log) != ""
  }

  lemma AuditHashed(env: Env, w: World, e: AuditEntry)
    requires Digests(env)
    ensures var h := Audit(env, w, e).0; h.Some? ==> h.value != ""
  {
    assert w.log + [e] != [];
  }

  lemma ExecuteHashed(env: Env, w: World, c: Call, effect: Effect, clock: Clock)
    requires Digests(env)
    ensures var o := OutcomeOf(Execute(env, w, c, effect, clock).0); o.Some? ==> o.value.hash != ""
  {
    AuditHashed(env, w, BlockedEntry(c, clock.ts1));
    var (g, w1) := Gate(env, w, c, clock);
    AuditHashed(env, effect(w1), ExecutedEntry(c, clock.ts1));
    if g.ApprovalRequired? { AuditHashed(env, w1, EscalatedEntry(c, g.id, clock.ts1)); }
  }

  lemma HarnessedHashed(env: Env, callOf: (string, Members) -> Call, effectOf: (string, Members) -> Effect,
                        clockAt: nat -> Clock)
    requires Digests(env)
    ensures AlwaysHashed(Harnessed(env, callOf, effectOf, clockAt))
  {
    var harness := Harnessed(env, callOf, effectOf, clockAt);
    forall w, i, skill, args
      ensures var o := harness(w, i, skill, args).0; o.Some? ==> o.value.hash != ""
    {
      ExecuteHashed(env, w, callOf(skill, args), effectOf(skill, args), clockAt(i));
    }
  }

  /** With the real harness steps, history and hashes have equal length in every run,
      whatever the planner and the skills do. */
  lemma HarnessedRunsMatch(env: Env, callOf: (string, Members) -> Call, effectOf: (string, Members) -> Effect,
                           clockAt: nat -> Clock, keyOf: Keyer, plan: Planner, w: World, n: nat)
    requires Digests(env)
    ensures var t := Closed(PlayTo(Turns(keyOf, plan, Harnessed(env, callOf, effectOf, clockAt)), w, n));
            Orderly(t) && |t.hashes| == |t.steps| == |t.history|
  {
    var harness := Harnessed(env, callOf, effectOf, clockAt);
    HarnessedHashed(env, callOf, effectOf, clockAt);
    PlaysHashed(keyOf, plan, harness, w, n);
    OrchestrationKeeps(keyOf, plan, harness, w, n);
  }

  // ---- Seed data ----

  lemma {:induction false} SeedsHaveNoKey(ms: Members, k: string)
    requires k !in Keys(ms)
    ensures Get(WithoutSeeds(ms), k).None?
  {
  }

  /** Exactly the arguments that stand for seed data are left out. */
  lemma {:induction false} SeedsExactly(ms: Members, k: string)
    requires UniqueKeys(ms)
    ensures Get(WithoutSeeds(ms), k) == if Get(ms, k) == Some(JString("__SEED__")) then None else Get(ms, k)
  {
    if ms.MCons? {
      if ms.key == k { SeedsHaveNoKey(ms.tail, k); } else { SeedsExactly(ms.tail, k); }
    }
  }

  /** What the caller gets: what the loop gathered, and why it ended, or that its steps ran out. */
  lemma ClosedExactly(s: Play)
    ensures var t := Closed(s);
            && t.selected == s.selected && t.steps == s.steps && t.history == s.history && t.hashes == s.hashes
            && t.calls == s.calls
            && (s.end.Some? ==> t.end == s.end.value) && (s.end.None? ==> t.end == OutOfSteps)
            && (t.escalated <==> t.end == ModelEscalated || t.end.ApprovalRequired?)
  {
  }
}
