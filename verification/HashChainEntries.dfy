/** What a written line stores, name by name, and what is read back from a file. */
module HashChainEntries {
  import opened Wrappers
  import opened Sequences
  import opened Utf8
  import opened PyText
  import opened Json
  import opened JsonRoundTrip
  import opened JsonText
  import opened Canonical
  import opened HashChain
  import opened HashChainFiles
  import opened HashChainRuns
  import opened HashChainVerify

  /** The digest of `prev` followed by the canonical text of the entry without its own. */
  function DigestOver(p: Platform, prev: string, e: Members): string {
    p.sha(Encode(prev + CanonicalText(JObject(Without(e, "entry_hash")))))
  }

  lemma SealedPair(p: Platform, d: Draft, n: nat, prev: string, i: nat)
    requires i < |Pairs(d, n, prev)|
    ensures var e, pairs := Seal(p, d, n, prev), Pairs(d, n, prev);
            Get(e, pairs[i].0) == Some(pairs[i].1)
  {
    var ms, pairs := Payload(d, n, prev), Pairs(d, n, prev);
    NamesDistinct(d, n, prev);
    DictKeys(pairs);
    DictGet(pairs, i);
    PutFacts(p.repr, ms, "entry_hash", JString(HashEntry(p, prev, ms)));
  }

  lemma SealedDigest(p: Platform, d: Draft, n: nat, prev: string)
    ensures var e := Seal(p, d, n, prev); Get(e, "entry_hash") == Some(JString(DigestOver(p, prev, e)))
  {
    var ms, pairs := Payload(d, n, prev), Pairs(d, n, prev);
    NamesDistinct(d, n, prev);
    DictKeys(pairs);
    PutFacts(p.repr, ms, "entry_hash", JString(HashEntry(p, prev, ms)));
  }

  /** What every entry stores besides the arguments of its writer. */
  predicate StoresPlace(p: Platform, e: Members, ts: string, n: nat, prev: string) {
    && Has(e, "ts", JString(ts)) && Has(e, "seq", JInt(n)) && Has(e, "prev_hash", JString(prev))
    && Has(e, "entry_hash", JString(DigestOver(p, prev, e)))
  }

  lemma SealedPlace(p: Platform, d: Draft, n: nat, prev: string)
    ensures StoresPlace(p, Seal(p, d, n, prev), d.ts, n, prev)
  {
    var pairs := Pairs(d, n, prev);
    SealedDigest(p, d, n, prev);
    SealedPair(p, d, n, prev, 0);
    SealedPair(p, d, n, prev, 1);
    SealedPair(p, d, n, prev, |pairs| - 1);
    assert pairs[0] == ("ts", JString(d.ts)) && pairs[1] == ("seq", JInt(n));
    assert pairs[|pairs| - 1] == ("prev_hash", JString(prev));
  }

  /** The entry stores `v` under `name`. */
  predicate Has(e: Members, name: string, v: Json) {
    Get(e, name) == Some(v)
  }

  lemma OwnPair(p: Platform, d: Draft, n: nat, prev: string, i: nat, name: string, v: Json)
    requires i < |OwnPairs(d)| && OwnPairs(d)[i] == (name, v)
    ensures Has(Seal(p, d, n, prev), name, v)
  {
    SealedPair(p, d, n, prev, 2 + i);
  }

  lemma {:induction false} FirstNames(pairs: seq<(string, Json)>, names: seq<string>)
    requires |names| == |pairs| && forall i :: 0 <= i < |pairs| ==> pairs[i].0 == names[i]
    ensures forall k :: k in Keys(Dict(pairs)) <==> k in names
  {
    if pairs != [] {
      FirstNames(pairs[1..], names[1..]);
      ApartFirst(names);
    }
  }

  lemma AllNames(d: Draft, n: nat, prev: string, names: seq<string>)
    requires |names| == |OwnPairs(d)| && forall i :: 0 <= i < |names| ==> OwnPairs(d)[i].0 == names[i]
    ensures var all := ["ts", "seq"] + names + ["prev_hash"];
            |all| == |Pairs(d, n, prev)| && forall i :: 0 <= i < |all| ==> Pairs(d, n, prev)[i].0 == all[i]
  {
  }

  lemma NamesAround(names: seq<string>)
    ensures forall k :: k in ["ts", "seq"] + names + ["prev_hash"] <==> k in names || k == "ts" || k == "seq" || k == "prev_hash"
  {
  }

  /** The names of an entry are those of its writer and no others. */
  lemma SealedNames(p: Platform, d: Draft, n: nat, prev: string, names: seq<string>)
    requires |names| == |OwnPairs(d)| && forall i :: 0 <= i < |names| ==> OwnPairs(d)[i].0 == names[i]
    ensures forall k :: k in Keys(Seal(p, d, n, prev)) <==>
              k in names || k == "ts" || k == "seq" || k == "prev_hash" || k == "entry_hash"
  {
    var all := ["ts", "seq"] + names + ["prev_hash"];
    AllNames(d, n, prev, names);
    FirstNames(Pairs(d, n, prev), all);
    NamesAround(names);
  }

  const ACTION_NAMES := ["action", "vendor", "amount", "decision", "actor", "metadata"]
  const EARN_NAMES := ["event", "service", "amount_cents", "token_id"]
  const INTERACTION_NAMES := ["sponsor", "op", "segment", "status", "model", "latency_ms", "mode", "metadata"]

  /** An action is stored with each argument under its own name. */
  lemma ActionStored(p: Platform, d: Draft, n: nat, prev: string)
    requires d.Action?
    ensures var e := Seal(p, d, n, prev);
            && Has(e, "action", JString(d.action)) && Has(e, "vendor", JString(d.vendor))
            && Has(e, "amount", d.amount) && Has(e, "decision", JString(d.decision))
            && Has(e, "actor", JString(d.actor)) && Has(e, "metadata", JObject(d.metadata))
  {
    OwnPair(p, d, n, prev, 0, "action", JString(d.action));
    OwnPair(p, d, n, prev, 1, "vendor", JString(d.vendor));
    OwnPair(p, d, n, prev, 2, "amount", d.amount);
    OwnPair(p, d, n, prev, 3, "decision", JString(d.decision));
    OwnPair(p, d, n, prev, 4, "actor", JString(d.actor));
    OwnPair(p, d, n, prev, 5, "metadata", JObject(d.metadata));
  }

  lemma ActionNames(p: Platform, d: Draft, n: nat, prev: string)
    requires d.Action?
    ensures forall k :: k in Keys(Seal(p, d, n, prev)) <==>
              k in ACTION_NAMES || k == "ts" || k == "seq" || k == "prev_hash" || k == "entry_hash"
  {
    SealedNames(p, d, n, prev, ACTION_NAMES);
  }

  /** So is an earn event. */
  lemma EarnStored(p: Platform, d: Draft, n: nat, prev: string)
    requires d.Earn?
    ensures var e := Seal(p, d, n, prev);
            && Has(e, "event", JString("mpp_earn")) && Has(e, "service", JString(d.service))
            && Has(e, "amount_cents", JInt(d.amountCents)) && Has(e, "token_id", JString(d.tokenId))
  {
    OwnPair(p, d, n, prev, 0, "event", JString("mpp_earn"));
    OwnPair(p, d, n, prev, 1, "service", JString(d.service));
    OwnPair(p, d, n, prev, 2, "amount_cents", JInt(d.amountCents));
    OwnPair(p, d, n, prev, 3, "token_id", JString(d.tokenId));
  }

  lemma EarnNames(p: Platform, d: Draft, n: nat, prev: string)
    requires d.Earn?
    ensures forall k :: k in Keys(Seal(p, d, n, prev)) <==>
              k in EARN_NAMES || k == "ts" || k == "seq" || k == "prev_hash" || k == "entry_hash"
  {
    SealedNames(p, d, n, prev, EARN_NAMES);
  }

  lemma InteractionCallStored(p: Platform, d: Draft, n: nat, prev: string)
    requires d.Interaction?
    ensures var e := Seal(p, d, n, prev);
            && Has(e, "sponsor", JString(d.sponsor)) && Has(e, "op", JString(d.op))
            && Has(e, "segment", JString(d.segment)) && Has(e, "status", JString(d.status))
  {
    OwnPair(p, d, n, prev, 0, "sponsor", JString(d.sponsor));
    OwnPair(p, d, n, prev, 1, "op", JString(d.op));
    OwnPair(p, d, n, prev, 2, "segment", JString(d.segment));
    OwnPair(p, d, n, prev, 3, "status", JString(d.status));
  }

  /** And an interaction. */
  lemma InteractionStored(p: Platform, d: Draft, n: nat, prev: string)
    requires d.Interaction?
    ensures var e := Seal(p, d, n, prev);
            && Has(e, "sponsor", JString(d.sponsor)) && Has(e, "op", JString(d.op))
            && Has(e, "segment", JString(d.segment)) && Has(e, "status", JString(d.status))
            && Has(e, "model", d.model) && Has(e, "latency_ms", d.latency)
            && Has(e, "mode", d.mode) && Has(e, "metadata", JObject(d.details))
  {
    InteractionCallStored(p, d, n, prev);
    OwnPair(p, d, n, prev, 4, "model", d.model);
    OwnPair(p, d, n, prev, 5, "latency_ms", d.latency);
    OwnPair(p, d, n, prev, 6, "mode", d.mode);
    OwnPair(p, d, n, prev, 7, "metadata", JObject(d.details));
  }

  lemma InteractionNames(p: Platform, d: Draft, n: nat, prev: string)
    requires d.Interaction?
    ensures forall k :: k in Keys(Seal(p, d, n, prev)) <==>
              k in INTERACTION_NAMES || k == "ts" || k == "seq" || k == "prev_hash" || k == "entry_hash"
  {
    SealedNames(p, d, n, prev, INTERACTION_NAMES);
  }

  /** The entry stores what the writer was handed, each argument under its own name. */
  predicate StoresArguments(e: Members, d: Draft) {
    match d
    case Action(_, action, vendor, amount, decision, actor, metadata) =>
      && Has(e, "action", JString(action)) && Has(e, "vendor", JString(vendor)) && Has(e, "amount", amount)
      && Has(e, "decision", JString(decision)) && Has(e, "actor", JString(actor)) && Has(e, "metadata", JObject(metadata))
    case Earn(_, service, amountCents, tokenId) =>
      && Has(e, "event", JString("mpp_earn")) && Has(e, "service", JString(service))
      && Has(e, "amount_cents", JInt(amountCents)) && Has(e, "token_id", JString(tokenId))
    case Interaction(_, sponsor, op, segment, status, model, latency, mode, details) =>
      && Has(e, "sponsor", JString(sponsor)) && Has(e, "op", JString(op)) && Has(e, "segment", JString(segment))
      && Has(e, "status", JString(status)) && Has(e, "model", model) && Has(e, "latency_ms", latency)
      && Has(e, "mode", mode) && Has(e, "metadata", JObject(details))
  }

  lemma SealedStores(p: Platform, d: Draft, n: nat, prev: string)
    ensures StoresArguments(Seal(p, d, n, prev), d) && StoresPlace(p, Seal(p, d, n, prev), d.ts, n, prev)
  {
    SealedPlace(p, d, n, prev);
    match d
    case Action(_, _, _, _, _, _, _) => ActionStored(p, d, n, prev);
    case Earn(_, _, _, _) => EarnStored(p, d, n, prev);
    case Interaction(_, _, _, _, _, _, _, _, _) => InteractionStored(p, d, n, prev);
  }

  // ---- Reading a file back ----

  /** The objects on the lines of a file; a line that holds none is skipped. */
  function ObjectsOn(p: Platform, texts: seq<string>): seq<Members> {
    if texts == [] then []
    else
      var t := texts[|texts| - 1];
      ObjectsOn(p, texts[..|texts| - 1]) + if IsObject(p, t) then [ObjectOf(p, t)] else []
  }

  function ReadFile(p: Platform, file: seq<byte>): seq<Members> {
    match DecodeStrict(file)
    case None => []
    case Some(text) => ObjectsOn(p, Kept(FileLines(text)))
  }

  predicate IsText(p: Platform, e: Members, t: string) {
    t == EntryText(e) && Strip(t) == t && t != "" && IsObject(p, t) && ObjectOf(p, t) == e
  }

  lemma ChainText(p: Platform, es: seq<Members>, i: nat)
    requires IsChain(p, es) && i < |es|
    ensures IsText(p, es[i], Texts(es)[i])
  {
    assert LinkAt(p, es, i);
    ObjectText(p.repr, es[i]);
    StripBraces(EntryText(es[i]));
    DumpsLoads(p.repr, Default, JObject(es[i]));
  }

  lemma {:induction false} TextsRead(p: Platform, es: seq<Members>, texts: seq<string>)
    requires |texts| == |es| && forall i :: 0 <= i < |es| ==> IsText(p, es[i], texts[i])
    ensures Kept(texts) == texts && ObjectsOn(p, texts) == es
  {
    if es != [] {
      TextsRead(p, es[..|es| - 1], texts[..|es| - 1]);
      ApartLast(es);
      ApartLast(texts);
    }
  }

  /** A file that the writers built reads back as the entries written, in order. */
  lemma ReadBack(p: Platform, es: seq<Members>)
    requires IsChain(p, es)
    ensures ReadFile(p, FileOf(es)) == es
  {
    FileLinesOf(p, es);
    forall i | 0 <= i < |es| ensures IsText(p, es[i], Texts(es)[i]) {
      ChainText(p, es, i);
    }
    TextsRead(p, es, Texts(es));
  }

  /** An append that succeeds adds one line, which reads back as the entry returned and
      stores what the writer was handed. */
  lemma AppendReadsBack(p: Platform, es: seq<Members>, d: Draft)
    requires IsChain(p, es) && WellFormedDraft(p, d)
    ensures var (r, file) := Append(p, FileOf(es), d);
            && ReadFile(p, file) == (if r.Appended? then es + [r.entry] else es)
            && (r.Appended? <==> Admissible(d) && TailReadable(es))
            && (r.Appended? ==> StoresArguments(r.entry, d) && StoresPlace(p, r.entry, d.ts, |es|, PrevHash(es, |es|)))
  {
    AppendKeepsChain(p, es, d);
    ReadBack(p, Extended(p, es, d));
    SealedStores(p, d, |es|, PrevHash(es, |es|));
  }

  /** The boundary checks of the writers. */
  lemma AdmissibleExactly(d: Draft)
    ensures Admissible(d) <==>
            && (d.Action? ==> d.action in {"payment", "approval_request", "approval_grant", "access_change", "vendor_switch"})
            && (d.Interaction? ==> d.sponsor in {"Nous Research", "NVIDIA", "Stripe", "C1"})
  {
  }
}
