/** The hash-chained log file: what a writer appends, what the tail read finds,
    and what verification checks. The audit log, its second writer and the
    interactions log are the same chain with different entries. */
module HashChain {
  import opened Wrappers
  import opened Digits
  import opened Utf8
  import opened PyText
  import opened TailWindow
  import opened Json
  import opened Canonical

  /** A SHA-256 digest in hexadecimal; only its fixed length matters. */
  type Digest = s: string | |s| == 64
    witness Zeros(64)

  function Zeros(n: nat): (r: string)
    ensures |r| == n
  {
    seq(n, i => '0')
  }

  /** What the platform supplies: the hash, the `repr` of float tokens, the
      integer a float equals or truncates to, and `int` of a text. */
  datatype Platform = Platform(
    sha: seq<byte> -> Digest,
    repr: FloatRepr,
    exact: string -> Option<int>,
    truncate: string -> Option<int>,
    textInt: string -> Option<int>)

  const GENESIS: Digest := Zeros(64)

  /** The hash of an entry: its predecessor's digest, then its canonical text. */
  function HashEntry(p: Platform, prev: string, payload: Members): Digest {
    p.sha(Encode(prev + CanonicalText(JObject(payload))))
  }

  /** `v == n`, as Python compares a JSON value with an integer. */
  predicate EqualsInt(p: Platform, v: Json, n: int) {
    match v
    case JInt(m) => m == n
    case JBool(b) => (if b then 1 else 0) == n
    case JFloat(t) => p.exact(t) == Some(n)
    case _ => false
  }

  /** `int(v)`; None when it raises. */
  function ToInt(p: Platform, v: Json): Option<int> {
    match v
    case JInt(m) => Some(m)
    case JBool(b) => Some(if b then 1 else 0)
    case JFloat(t) => p.truncate(t)
    case JString(s) => p.textInt(s)
    case _ => None
  }

  // ---- Writing ----

  /** What a caller hands to one of the three writers; `ts` is the clock's text. */
  datatype Draft =
    | Action(ts: string, action: string, vendor: string, amount: Json, decision: string,
             actor: string, metadata: Members)
    | Earn(ts: string, service: string, amountCents: int, tokenId: string)
    | Interaction(ts: string, sponsor: string, op: string, segment: string, status: string,
                  model: Json, latency: Json, mode: Json, details: Members)

  const VALID_ACTIONS :=
    {"payment", "approval_request", "approval_grant", "access_change", "vendor_switch"}

  const SPONSORS := {"Nous Research", "NVIDIA", "Stripe", "C1"}

  /** The boundary check; its failure is a ValueError. */
  predicate Admissible(d: Draft) {
    match d
    case Action(_, action, _, _, _, _, _) => action in VALID_ACTIONS
    case Earn(_, _, _, _) => true
    case Interaction(_, sponsor, _, _, _, _, _, _, _) => sponsor in SPONSORS
  }

  /** The arguments are values that Python can hold. */
  predicate WellFormedDraft(p: Platform, d: Draft) {
    match d
    case Action(_, _, _, amount, _, _, metadata) =>
      WellFormed(p.repr, amount) && WellFormed(p.repr, JObject(metadata))
    case Earn(_, _, _, _) => true
    case Interaction(_, _, _, _, _, model, latency, mode, details) =>
      && WellFormed(p.repr, model) && WellFormed(p.repr, latency) && WellFormed(p.repr, mode)
      && WellFormed(p.repr, JObject(details))
  }

  /** The dict displayed by a list of pairs. */
  function Dict(pairs: seq<(string, Json)>): Members {
    if pairs == [] then MNil else MCons(pairs[0].0, pairs[0].1, Dict(pairs[1..]))
  }

  /** The pairs of an entry that follow `ts` and `seq` and precede `prev_hash`. */
  function OwnPairs(d: Draft): seq<(string, Json)> {
    match d
    case Action(_, action, vendor, amount, decision, actor, metadata) =>
      [("action", JString(action)), ("vendor", JString(vendor)), ("amount", amount),
       ("decision", JString(decision)), ("actor", JString(actor)), ("metadata", JObject(metadata))]
    case Earn(_, service, amountCents, tokenId) =>
      [("event", JString("mpp_earn")), ("service", JString(service)),
       ("amount_cents", JInt(amountCents)), ("token_id", JString(tokenId))]
    case Interaction(_, sponsor, op, segment, status, model, latency, mode, details) =>
      [("sponsor", JString(sponsor)), ("op", JString(op)), ("segment", JString(segment)),
       ("status", JString(status)), ("model", model), ("latency_ms", latency), ("mode", mode),
       ("metadata", JObject(details))]
  }

  /** The entry without its hash. */
  function Payload(d: Draft, seqNo: int, prev: string): Members {
    Dict([("ts", JString(d.ts)), ("seq", JInt(seqNo))] + OwnPairs(d) + [("prev_hash", JString(prev))])
  }

  /** The entry as written: the payload with its hash added last. */
  function Seal(p: Platform, d: Draft, seqNo: int, prev: string): Members {
    var payload := Payload(d, seqNo, prev);
    Put(payload, "entry_hash", JString(HashEntry(p, prev, payload)))
  }

  /** The text of an entry, without the newline that ends its line. */
  function EntryText(entry: Members): string {
    Dumps(JObject(entry))
  }

  // ---- The tail read ----

  /** What a tail read yields: the hash to chain to and the next sequence
      number, or an exception. */
  datatype Head = Head(hash: Json, next: int) | Unreadable

  function HeadOf(p: Platform, line: string): Head {
    match Loads(p.repr, line)
    case Some(JObject(ms)) => (
      match (Get(ms, "entry_hash"), Get(ms, "seq"))
      case (Some(h), Some(q)) => if ToInt(p, q).Some? then Head(h, ToInt(p, q).value + 1) else Unreadable
      case _ => Unreadable
    )
    case _ => Unreadable
  }

  function HeadParser(p: Platform): string -> Head {
    line => HeadOf(p, line)
  }

  const FIRST_HEAD := Head(JString(GENESIS), 0)

  /** `_read_head`. */
  function ReadHead(p: Platform, file: seq<byte>): Head {
    ReadTail(HeadParser(p), FIRST_HEAD, file)
  }

  /** What an append does: the entry written, or the exception. */
  datatype Outcome = Appended(entry: Members) | Rejected | NoHead

  function Append(p: Platform, file: seq<byte>, d: Draft): (Outcome, seq<byte>) {
    if !Admissible(d) then (Rejected, file)
    else
      match ReadHead(p, file)
      case Head(JString(prev), n) =>
        var entry := Seal(p, d, n, prev);
        (Appended(entry), file + Encode(EntryText(entry) + "\n"))
      case _ => (NoHead, file)
  }

  // ---- Verification ----

  /** `verify_chain`: intact with so many entries, a fault on a line, or an exception. */
  datatype Verdict = Intact(count: nat) | Broken(lineNo: nat) | Raised

  /** One line of the file, checked against its predecessor. */
  datatype LineVerdict = Skipped | Good(hash: string) | Fault | Crash

  function CheckLine(p: Platform, line: string, prev: string, expected: nat): LineVerdict {
    var t := Strip(line);
    if t == [] then Skipped
    else
      match Loads(p.repr, t)
      case None => Fault
      case Some(JObject(e)) => if EntryOk(p, e, prev, expected) then Good(StoredHash(e)) else Fault
      case _ => Crash
  }

  /** The digest an entry carries. */
  function StoredHash(e: Members): string {
    match Get(e, "entry_hash")
    case Some(JString(h)) => h
    case _ => ""
  }

  /** The three checks on an entry. */
  predicate EntryOk(p: Platform, e: Members, prev: string, expected: nat) {
    && Get(e, "prev_hash") == Some(JString(prev))
    && Get(e, "seq").Some? && EqualsInt(p, Get(e, "seq").value, expected)
    && Get(e, "entry_hash") == Some(JString(HashEntry(p, prev, Without(e, "entry_hash"))))
  }

  /** A check of a line, given the digest to follow and the number to carry. */
  type Check = (string, string, nat) -> LineVerdict

  function Checker(p: Platform): Check {
    (line: string, prev: string, expected: nat) => CheckLine(p, line, prev, expected)
  }

  function VerifyLines(check: Check, lines: seq<string>, lineNo: nat, prev: string, expected: nat): Verdict
    decreases |lines|
  {
    if lines == [] then Intact(expected)
    else
      match check(lines[0], prev, expected)
      case Skipped => VerifyLines(check, lines[1..], lineNo + 1, prev, expected)
      case Good(h) => VerifyLines(check, lines[1..], lineNo + 1, h, expected + 1)
      case Fault => Broken(lineNo)
      case Crash => Raised
  }

  function VerifyFile(p: Platform, file: seq<byte>): Verdict {
    match DecodeStrict(file)
    case None => Raised
    case Some(text) => VerifyLines(Checker(p), FileLines(text), 1, GENESIS, 0)
  }

  // ---- Files the writers build ----

  /** Entry `i` of a chain: well formed, and it passes the three checks with its
      sequence number written as an integer. */
  predicate Link(p: Platform, e: Members, prev: string, i: nat) {
    && WellFormed(p.repr, JObject(e))
    && Get(e, "seq") == Some(JInt(i))
    && EntryOk(p, e, prev, i)
  }

  /** The digest entry `i` must chain to. */
  function PrevHash(es: seq<Members>, i: nat): string
    requires i <= |es|
  {
    if i == 0 then GENESIS else StoredHash(es[i - 1])
  }

  predicate LinkAt(p: Platform, es: seq<Members>, i: nat)
    requires i < |es|
  {
    Link(p, es[i], PrevHash(es, i), i)
  }

  ghost predicate IsChain(p: Platform, es: seq<Members>) {
    forall i :: 0 <= i < |es| ==> LinkAt(p, es, i)
  }

  /** The printed entries. */
  function Texts(es: seq<Members>): (r: seq<string>)
    ensures |r| == |es|
  {
    seq(|es|, i requires 0 <= i < |es| => EntryText(es[i]))
  }

  function FileOf(es: seq<Members>): seq<byte> {
    Encode(JoinLines(Texts(es)))
  }
}
