# NemoClaw: verified models of the spend machine, the flagging statistics and the ledgers

NemoClaw is an agent that runs the finances of a small business. It pays vendor
invoices (HTTP 402) through a gate that asks a human above a threshold, writes every
action to a hash-chained log, flags unusual costs, and aggregates transactions into
reports. This project models that behaviour in Dafny and proves what it keeps.

`dafny verify dfyconfig.toml` checks the whole project.

## The three parts

**The log and the spend machine.**
The log is a sequence of bytes. `Utf8`, `Digits`, `Json`, `PyText` model the text that
Python writes and reads: JSON (RFC 8259, sections 4 and 7) in `json.dumps` form, UTF-8
with strict and replacing decoders, `strip`, `splitlines`. `JsonRoundTrip` proves that
what is printed is read back; `JsonScan` proves that no strict suffix of an object's text
is JSON; `TailWindow` and `HashChainFiles` conclude that the read of at most 4096 bytes
finds the head a full scan finds, or raises. `HashChain`, `HashChainRuns` and
`HashChainTamper` model the three writers and the verifier, `HashChainLimits` the entries
that lock a log, and `AuditLog` runs them as a class over the bytes. `HashChainHead`,
`HashChainVerify` and `HashChainEntries` say in full what the tail read, the verifier and
the writers do, in terms of the lines of the file and what they store. `Approvals` (and the
class in `ApprovalGate`) is the approval gate, `ApprovalStates` what each of its operations
does to a record. `Harness` and `Handle402` are the pipeline, `CallOutcomes` and `Outliers`
its cases written out, `GovernanceRuns` the theorems over every run, `AuditedRuns`,
`AuditTrail` and the class in `PaymentHandler` the same pipeline on a real log file,
`PaidAmounts` the money read back from that file, and `LockedRuns` what a locked log does
to it. `Orchestrator` is the bounded planner loop.

**The statistics.** `Stats`, `Pearson`, `Correlation`, `Anomaly`, `Scan`, `Duplicates`,
`Findings` and `AnomalyFindings` decide what is reported, in exact reals; `SumForms` gives
the statistics as plain sums, `FindingForms` each kind of finding with its numbers;
`FeeFindings` and `FeeBooks` say what is reported about one vendor, and about a
constant-percentage fee. The
square root is a parameter `sqrt` with `sqrt(v) >= 0` and `sqrt(v) * sqrt(v) == v` for `v >= 0`.

**The indexes and aggregations.** `Graph` (and the class in `VendorGraph`) is the vendor
graph with its save, load and ingestion, `Recurring` the detection of recurring charges,
`Pnl` and `Export` the monthly buckets and their transposed export, `Billing` the owner
invoices, `Cycles` the state carried between analysis cycles. Money is integer cents.

## Parameters of the model

- SHA-256 is a function `p.sha` with results of fixed length. It is not assumed to be
  injective (no such function is); theorems that need collision freedom give back the two
  inputs that collide instead. The same holds for request ids.
- A `Moment` is one reading of the clock: UTC time and local date. Where the program reads
  the clock several times in one call, so does the model. Only
  `Approvals.RaisedRequestIsPending` and `ApprovalGate.ListingIgnoresCreation` need the clock
  to move forward.
- A float is the text Python prints for it; `p.repr` maps any number token to that text,
  and is assumed (`StableRepr`) to leave the texts it yields as they are.
- `norm` is the normalization of vendor names, assumed idempotent where that matters.
- `PaidAmounts.FilePaysLedger` assumes that the float of each amount paid prints as its
  digits (`Prints`), which holds of amounts below 10^13 dollars.
- The planner of the orchestrator is an arbitrary function, and so are the effects of the
  skills. The detectors behind `Findings.Find` are arbitrary there, and the program's own
  in `AnomalyFindings`.

## Where the code and its documentation disagree

- `analysis/findings.py:25-26` says that a constant-percentage fee produces no finding.
  That holds for the anomaly detectors (`AnomalyFindings.ConstantFeeIsNotReported`). Over all
  detectors it holds exactly if the fee has no charges that are alike on one day and either
  does not recur or is neither among the three most expensive recurring charges nor meets a
  jump of revenue (`FeeFindings.ConstantFeeFoundExactly`). Of three courses of revenue one
  produces a rise, one a top recurring charge without any jump, and one, which jumps every
  month, nothing (`FeeBooks.LateJumpIsReported`, `FlatFeeIsReported`, `GrowingFeeIsSilent`).
- `agent/audit_log.py:1-11` promises an append for every valid action. A last line over
  4095 bytes, or one whose text contains U+0085, U+2028 or U+2029, makes every later append
  raise, although the file verifies (`HashChainRuns.UnreadableTailIsFinal`). Each writer
  can write such a line (`HashChainLimits.DraftLocksLog`).
- `agent/interactions_log.py:83-84` says that appending raises on nothing but an unknown
  sponsor; after an interaction whose operation is U+2028 the next one raises
  (`HashChainLimits.SecondInteractionRaises`).
- `payments/payment_402_handler.py:6` promises an audit hash on every call. It is returned
  exactly under the condition of `Handle402.AnswersExactly`; a call that the guardrail
  blocks, for example, is audited and then raises (`Handle402.ScriptVendorRaises`).
- `agent/require_approval.py:165` promises pending records sorted by creation time; they come
  sorted by file name, and the orders differ exactly when a later request has a smaller id
  than an earlier one (`ApprovalGate.ListedByCreation`, `ApprovalGate.ListingIgnoresCreation`).
- An approval is not used up by a payment (`Approvals.ApprovalIsReusable`), and a direct
  `create_request` takes it back (`Approvals.CreationResetsApproval`).
- A payment goes out before its audit entry is written; if the log's tail cannot be read
  the money is gone without entry, ledger line or graph edge (`LockedRuns.SecondPaymentIsLost`
  gives two such invoices, `GovernanceRuns.MoneyIsConserved` the exact amount in every run).
  One paid vendor whose name holds a line separator brings this about for good
  (`LockedRuns.LockingPaymentIsLast`).
- `analysis/pnl.py:53-58`: a direction that is neither income nor expense counts as expense
  but is subtracted from its category (`Pnl.CategoriesBalance` gives the exact difference).
- A recurring-jump finding is escalated again after every weekly cycle, because weekly
  cycles cannot see it and forget it (`Cycles.JumpsFireAfterWeekly`).

## Model

| member | source | states |
|---|---|---|
| `Utf8.DecodeEncode` | agent/audit_log.py:120-139 | what is written in UTF-8 is read back by the strict decoder |
| `Utf8.EncodeInjective` | agent/audit_log.py:39 | different texts have different bytes, so a hash input determines its text |
| `Utf8.TailDecodes` | agent/audit_log.py:63-65 | the replacing decoder, started at any byte of well-formed UTF-8, yields one U+FFFD for each leftover byte of the cut character and then the rest of the text |
| `JsonRoundTrip.ValueRoundTrip` | agent/audit_log.py:121 | a printed value followed by anything that does not extend a number is parsed back exactly, leaving what follows |
| `JsonRoundTrip.DumpsLoads` | agent/audit_log.py:121 | `json.loads(json.dumps(v))` is `v`, in both separator styles |
| `JsonScan.ObjectSuffix` | agent/audit_log.py:68-76 | no strict suffix of a text that starts with `{` and is JSON is itself JSON (quote parity and bracket nesting) |
| `JsonScan.SuffixIsNoJson` | agent/audit_log.py:68-76 | no strict suffix of the printed form of an object can be read |
| `JsonText.ObjectText` | agent/audit_log.py:121 | a printed object starts with `{`, ends with `}` and holds no control character, so it is one line |
| `Canonical.SameSorts` | agent/audit_log.py:32-34 | two values that differ in key order only have the same sorted form |
| `Canonical.CanonicalComplete` | agent/audit_log.py:32-34 | two values have the same canonical text if and only if they are the same up to key order |
| `Canonical.CanonicalIsCompact` | agent/audit_log.py:32-34 | the canonical text has no spaces after its separators |
| `TailWindow.WindowOnFile` | agent/audit_log.py:57-81 | for any parser that rejects damaged lines: the window read of a file parses the whole last line if it is readable, and raises otherwise |
| `TailWindow.FullScanOfFile` | agent/audit_log.py:126-167 | a full scan of the same file parses its last line |
| `HashChainFiles.TailRead` | agent/audit_log.py:47-81 | on every file the writers build, the tail read yields the last stored hash and the next number exactly if the last line has at most 4095 bytes and no line break of `splitlines`, and raises otherwise |
| `HashChainFiles.TailReadRefinesFullScan` | agent/audit_log.py:47-81 | the tail read yields what a full scan yields or raises; never another head |
| `HashChainFiles.FullScanOf` | agent/audit_log.py:47-81 | a full scan of a built file yields the hash of the last entry and the count of entries |
| `HashChainFiles.BuiltFileVerifies` | agent/audit_log.py:126-169 | every built file verifies, with as many entries as were written |
| `HashChainHead.HeadExactly` | agent/audit_log.py:74-81 | a line yields a head exactly if it is an object with a hash and a place that `int` reads; anything else raises and is never taken for the start of a chain |
| `HashChainHead.ReadHeadExactly` | agent/audit_log.py:54-73 | on every file, whoever wrote it: without a line in the last 4096 bytes the chain starts after 64 zeros, and otherwise the last such line alone decides |
| `HashChainHead.ReadableExactly` | agent/audit_log.py:57-68 | a line can be read back exactly if it has at most 4095 bytes and none of ten line breaks |
| `HashChainVerify.VerdictExactly` | agent/audit_log.py:126-169 | every verdict in terms of the lines: intact, the first line at fault, or an exception, and no other verdict fits |
| `HashChainVerify.IntactExactly` | agent/audit_log.py:140-169 | a file is intact with n entries if and only if it is UTF-8, has n lines that are not blank, and each is an object that names the digest of the one before, its own place, and the digest of both |
| `HashChainVerify.OneFirstFault` | agent/audit_log.py:140-167 | at most one line is the first one at fault |
| `HashChainRuns.SealedIsLink` | agent/audit_log.py:107-118 | what a writer seals passes all three checks of the verifier |
| `HashChainRuns.NamesDistinct` | agent/audit_log.py:107-118 | the names in an entry are distinct and none is `entry_hash`, for all three writers |
| `HashChainRuns.AppendKeepsChain` | agent/audit_log.py:99-123 | an append to a chain adds one sealed line exactly if its arguments are admissible and the tail is readable; otherwise it raises and the file is unchanged |
| `HashChainRuns.RunBuildsChain` | agent/audit_log.py:84-123 | every interleaving of the writers from an empty file leaves a chain with as many entries as appends succeeded |
| `HashChainRuns.RunVerifies` | payments/mpp_server.py:126-176 | whatever the writers of the file do and in whatever order, it verifies and its count is that of the successful appends |
| `HashChainRuns.UnreadableTailIsFinal` | agent/audit_log.py:68-81 | after a line that cannot be read back no run appends anything more, and the file keeps verifying |
| `HashChainEntries.ActionStored` | agent/audit_log.py:107-118 | a sealed action stores action, vendor, amount, decision, actor and metadata under those names |
| `HashChainEntries.EarnStored` | payments/mpp_server.py:142-158 | a sealed earn event stores event, service, amount and token under those names |
| `HashChainEntries.InteractionStored` | agent/interactions_log.py:91-106 | a sealed interaction stores its eight arguments under their names |
| `HashChainEntries.SealedPlace` | agent/audit_log.py:107-118 | every entry stores its time, place, predecessor digest, and the digest of that and its other members |
| `HashChainEntries.ActionNames` | agent/audit_log.py:107-118 | an action has these names and no others |
| `HashChainEntries.ReadBack` | agent/audit_log.py:120-145 | a file that the writers built reads back as the entries written, in order |
| `HashChainEntries.AppendReadsBack` | agent/audit_log.py:99-123 | an append that succeeds adds one line, which reads back as the entry returned and stores what the writer was handed; it succeeds exactly if the draft is admissible and the tail readable |
| `HashChainEntries.AdmissibleExactly` | agent/audit_log.py:24-30 | which actions and which sponsors the writers accept |
| `HashChainLimits.DraftLocksLog` | agent/audit_log.py:84-123 | an entry by any of the writers that holds, at any depth, a string of 4096 characters or one with U+0085, U+2028 or U+2029 is written to any log that can be extended, and after it no append of any run succeeds, while the file verifies |
| `HashChainLimits.SecondEventRaises` | payments/mpp_server.py:126-163 | of two equal earn events of a service named by U+2028, from an empty file, the first is written and the second raises |
| `HashChainLimits.SecondInteractionRaises` | agent/interactions_log.py:70-111 | of two equal interactions of a known sponsor, with U+2028 as the operation, from an empty file, the first is written and the second raises |
| `HashChainTamper.ParsedWellFormed` | agent/audit_log.py:145 | what is parsed prints and parses again, so a recomputed hash depends on the parsed value only |
| `HashChainTamper.LastHashFixesEntries` | agent/audit_log.py:158-167 | two verified entry lists that end in the same stored hash are equal throughout, in length and up to key order, unless two hash inputs collide |
| `HashChainTamper.VerifiedFilesAgree` | agent/audit_log.py:126-169 | two non-empty files that verify and end in the same `entry_hash` hold equal entries throughout, or the lemma gives the two inputs that collide |
| `HashChainTamper.PrefixVerifies` | agent/audit_log.py:140-167 | every prefix of the lines of a verifying file verifies |
| `HashChainTamper.RemovalDetected` | agent/audit_log.py:148-157 | removing any entry that is not the last makes verification fail |
| `AuditLog.ReadHeadOfFile` | agent/audit_log.py:47-81 | the backwards search for the last line that is not blank computes the tail read |
| `AuditLog.VerifyChainOfFile` | agent/audit_log.py:126-169 | the verifying loop returns the verdict that fits the lines: the first fault, with its line, or the number of entries |
| `AuditLog.Log.constructor` | agent/audit_log.py:54-62 | an empty file is a chain of no entries |
| `AuditLog.Log.Write` | agent/audit_log.py:99-123 | an append on the bytes: new file, result and chain in full; a raising append leaves the file unchanged |
| `AuditLog.Log.AppendAction` | agent/audit_log.py:84-123 | `append_action` on the bytes: after it the file reads back with one more line, which stores each argument under its name |
| `AuditLog.Log.WriteEarnEvent` | payments/mpp_server.py:138-163 | the second writer on the same bytes |
| `AuditLog.Log.AppendInteraction` | agent/interactions_log.py:70-111 | the interactions log: the same chain with other entries |
| `AuditLog.Log.VerifyChain` | agent/interactions_log.py:142-168 | in every reachable state verification succeeds and counts all entries |
| `Approvals.KeyInjective` | agent/require_approval.py:48-52 | equal keys mean equal action, vendor, amount and date, even if vendors contain colons |
| `Approvals.StepOnRecord` | agent/require_approval.py:85-153 | one operation on one record: only a creation changes a record that is not pending; a pending one becomes approved or denied as decided in time, expires after it, or stays |
| `ApprovalStates.DecisionExactly` | agent/require_approval.py:117-138 | a pending record is approved if so decided, denied if not, with time and name, if the decision is in time; else it expires; others stay |
| `ApprovalStates.CheckExactly` | agent/require_approval.py:141-153 | a pending record past its time expires when looked at, and nothing else changes |
| `ApprovalStates.CreationExactly` | agent/require_approval.py:85-114 | a creation leaves a pending record alone and replaces any other by a pending one with the time given to live |
| `ApprovalStates.EnforcementExactly` | agent/require_approval.py:188-220 | what enforcement answers and stores, case by case |
| `ApprovalStates.ListedExactly` | agent/require_approval.py:164-176 | a record is listed exactly if it is pending and not past its time |
| `ApprovalStates.DeniedUntilCreated` | agent/require_approval.py:117-176 | a record denied in time stays so in every run until an operation writes it: it is never listed, releases nothing, and no later decision changes it |
| `ApprovalStates.WritesExactly` | agent/require_approval.py:85-220 | a settled record is written exactly by creations of its id and by enforcements that raise into it |
| `Approvals.ApprovedOnlyByDecision` | agent/require_approval.py:117-138 | in every run each record comes from the creation that last wrote it, and if it is approved, from a later decision to approve no later than it expires |
| `Approvals.ReleaseNeedsOwnApproval` | agent/require_approval.py:188-220 | a spend over the threshold is released only by an approval, in time, of a request for the same spend on the same day, unless two keys share an id |
| `Approvals.RaisedRequestIsPending` | agent/require_approval.py:214-220 | after a raise the request is pending; it is listed exactly unless it was pending already at the first reading of the clock and had expired by the second |
| `Approvals.ExpiresDuringCall` | agent/require_approval.py:164-220 | within one day: a request found live at 5 that expires at 10 makes the call raise, and is not listed at 11 |
| `Approvals.SettledStays` | agent/require_approval.py:85-153 | one operation keeps an approved, denied or expired record exactly if it does not write it |
| `Approvals.KeptExactly` | agent/require_approval.py:85-153 | an approved, denied or expired record stays as it is throughout a run exactly if no operation of the run writes it |
| `Approvals.ApprovalIsReusable` | agent/require_approval.py:214-217 | an approved spend is returned by every later enforcement that day, whatever runs in between, until an operation writes its record |
| `Approvals.ApprovedRetryIsReleased` | agent/require_approval.py:117-220 | raise at two readings of the clock, approval in time, retry: every later enforcement that day returns the approved record, until an operation writes it |
| `Approvals.MidnightResetsApproval` | agent/require_approval.py:179-220 | an enforcement that straddles midnight can reset an approval of the new day |
| `Approvals.CreationResetsApproval` | agent/require_approval.py:97-113 | a direct creation makes an approved record pending again |
| `ApprovalGate.Gate.constructor` | agent/require_approval.py:31-40 | the store starts empty |
| `ApprovalGate.Gate.CreateRequest` | agent/require_approval.py:85-114 | the new store is the creation step of the model, and the id is returned unless the boundary check raises |
| `ApprovalGate.Gate.DecideRequest` | agent/require_approval.py:117-138 | the new store is the decision step; the record returned is the stored one; a missing id raises |
| `ApprovalGate.Gate.CheckRequest` | agent/require_approval.py:141-153 | the new store is the check step; the record returned is the stored one; a missing id raises |
| `ApprovalGate.Gate.IsApproved` | agent/require_approval.py:156-161 | true exactly if the record exists and is approved after the check |
| `ApprovalGate.Gate.EnforceSpend` | agent/require_approval.py:188-220 | store and answer are those of the model, with the clock read anew for creation |
| `ApprovalGate.Gate.ListPending` | agent/require_approval.py:164-176 | exactly the records that are pending and not stale by the clock as read at each of them, each once, in ascending order of id |
| `ApprovalGate.PendingIdsExact` | agent/require_approval.py:164-176 | filtering the sorted files keeps exactly the listed ids, sorted |
| `ApprovalGate.ListedByCreation` | agent/require_approval.py:164-176 | the list is in order of creation exactly if no listed record has a smaller id than one created before it |
| `ApprovalGate.ListingIgnoresCreation` | agent/require_approval.py:164-176 | for every id hash: of two requests created one after the other the list is in order of creation exactly if the later one does not have the smaller id |
| `Harness.ExecutedMeansRan` | agent/nemoclaw_harness.py:70-139 | the skill runs exactly if the guardrail passes and the gate opens; then the outcome is executed unless the entry cannot be written; otherwise nothing but log and approvals changes |
| `Harness.ExecuteExactly` | agent/nemoclaw_harness.py:70-139 | `execute` case by case, with the entry of each written out |
| `Harness.BuiltinExactly` | agent/nemoclaw_harness.py:259-306 | the built-in guardrail passes a call exactly if its skill is registered and no text in its arguments, at any depth, has an unsafe pattern in it |
| `Handle402.AnomalyIsScore` | payments/payment_402_handler.py:87-88 | the anomaly test of the pipeline is the verdict of `score_invoice`, in any unit of money |
| `Outliers.AnomalousExactly` | payments/payment_402_handler.py:87-88 | the anomaly test on whole cents, without mean, root or division: two earlier amounts, more than two deviations, at least 8 percent |
| `CallOutcomes.CleanExactly` | control_plane/policy_check.py:50-71 | an invoice is clean exactly if the vendor is not blocked, the amount is within its own limit or, without one, the default, and it is no outlier |
| `CallOutcomes.EscalatedOutcome` | payments/payment_402_handler.py:100-103 | a forbidden or outlying invoice is never paid; it is escalated, with a pending request and its entry, if the amount is not negative and the log can be extended |
| `CallOutcomes.OpensExactly` | payments/payment_402_handler.py:78-147 | a payment goes out exactly if policy, anomaly test, guardrail and gate let it |
| `CallOutcomes.PaidOutcome` | payments/payment_402_handler.py:122-177 | what a payment changes: the money, the entry, the ledger line with its date, the edge |
| `CallOutcomes.UnpaidOutcome` | payments/payment_402_handler.py:55-177 | any other call leaves payments, ledger and graph as they are |
| `CallOutcomes.HeldOutcome` | payments/payment_402_handler.py:149-158 | an invoice the gate holds back: a pending request and two entries |
| `CallOutcomes.BlockedOutcome` | agent/nemoclaw_harness.py:97-113 | an invoice the guardrail stops: one entry, and the call raises |
| `CallOutcomes.GuardrailExactly` | agent/nemoclaw_harness.py:259-306 | the built-in guardrail passes a payment exactly if the skill is registered and neither vendor nor invoice mentions one of four patterns |
| `CallOutcomes.GateExactly` | agent/nemoclaw_harness.py:142-181 | the gate passes exactly an amount within the threshold or with an approved request of that day |
| `CallOutcomes.AdobeIsEscalated` | control_plane/policy_mock.yaml:1-17 | under the bundled policy an Adobe invoice of 450 is escalated |
| `Handle402.EscalationStep` | payments/payment_402_handler.py:180-231 | an escalation changes neither payments nor ledger nor graph, writes one entry, and returns the head of the log |
| `Handle402.PayStep` | payments/payment_402_handler.py:122-158 | the harness on the pay skill: when the payment goes out, when it is executed, and what is logged |
| `Handle402.CallStep` | payments/payment_402_handler.py:55-177 | one call in full: a payment goes out exactly if the invoice is clean and the gate opens; it is settled exactly if it can be logged; else ledger and graph stay; the hash returned is the head of the log |
| `Handle402.HeldWritesTwice` | payments/payment_402_handler.py:149-158 | an event over the threshold writes exactly two entries, the second only if the first leaves the tail readable |
| `Handle402.BlockedCallRaises` | agent/nemoclaw_harness.py:97-113 | a blocked call writes its entry, raises, and changes nothing else |
| `Handle402.ScriptVendorRaises` | agent/nemoclaw_harness.py:97-113 | a concrete event, from a vendor named `<script>`, is blocked, audited, and raises |
| `Handle402.AnswersExactly` | payments/payment_402_handler.py:55-231 | a call returns the hash of the head of the log exactly if the amount is not negative, the log can be extended, and a clean invoice passes the guardrail and does not lock the log with its first entry; otherwise it raises |
| `Handle402.EscalationIsPending` | payments/payment_402_handler.py:180-231 | the request id that an escalated call returns is that of a pending record |
| `GovernanceRuns.RecordTotal` | gbrain/knowledge_graph.py:66-87 | recording a payment adds its amount to the graph, once |
| `GovernanceRuns.StepConserves` | payments/payment_402_handler.py:55-177 | one step adds the same amount to executed entries, ledger and graph |
| `GovernanceRuns.MoneyIsConserved` | payments/payment_402_handler.py:55-231 | in every run of invoices, human decisions and entries by other writers of the log, the executed entries, the ledger and the graph total the same, and the payments sent exceed it exactly by those whose entry could not be written |
| `LockedRuns.LockingPaymentIsLast` | payments/payment_402_handler.py:122-164 | on the real log: after a settled payment to a vendor whose name locks the log, log, ledger and graph stay the same whatever follows |
| `LockedRuns.LockingEntryIsLast` | payments/mpp_server.py:126-163 | the same after one entry of another writer that holds such a text |
| `LockedRuns.SecondPaymentIsLost` | payments/payment_402_handler.py:122-164 | on two equal invoices of a vendor named by U+2028 both payments go out, and only the first reaches log, ledger and graph |
| `GovernanceRuns.PaymentHasSender` | payments/payment_402_handler.py:138-147 | every payment was sent by one step of the run, whose gate was open |
| `GovernanceRuns.ApprovalsProject` | agent/nemoclaw_harness.py:142-181 | the approval store of a run is that of the approval operations it performed |
| `GovernanceRuns.EveryPaymentJustified` | payments/payment_402_handler.py:78-103 | for every payment of every run the vendor was not blocked, the amount within the limit of the vendor or, without one, the default, no outlier among the amounts recorded just before, and within the threshold or covered by an approval in time of the same spend on the same day |
| `PaidAmounts.AmountReadsBack` | agent/require_approval.py:48-52 | the text of an amount reads back as the amount |
| `PaidAmounts.FilePaysLedger` | payments/payment_402_handler.py:122-177 | in every run the amounts on the executed lines of the log file, read back, sum to the ledger and to the graph, plus what other writers recorded as paid |
| `AuditedRuns.AuditIsAppend` | agent/audit_log.py:84-123 | an audit step of the machine is an append to the file: same success, same file, same hash |
| `AuditedRuns.HarnessEntriesGood` | agent/nemoclaw_harness.py:97-136 | every entry the harness writes is accepted by the log |
| `AuditedRuns.RunsLeaveVerifiedLog` | payments/payment_402_handler.py:55-231 | after every run of the machine, entries of other writers included, the log file verifies with one line for each entry, and the hash returned last is the one a full scan finds at its end |
| `AuditTrail.WriteIsAudit` | agent/audit_log.py:99-123 | what a writer answers and leaves is the audit step on the entries it holds |
| `PaymentHandler.Handler.constructor` | payments/payment_402_handler.py:55-70 | an empty log, no approvals, no payments, an empty graph |
| `PaymentHandler.Handler.Append` | agent/audit_log.py:84-123 | an append to the log file is the audit step of the machine |
| `PaymentHandler.Handler.GateCall` | agent/nemoclaw_harness.py:142-181 | the gate on the store is the gate of the machine; without an amount there is none |
| `PaymentHandler.Handler.ExecuteCall` | agent/nemoclaw_harness.py:70-139 | `execute` on log file, approvals and payments has the outcome and the state of the model |
| `PaymentHandler.Handler.Escalate` | payments/payment_402_handler.py:180-231 | `_do_escalation` on log file and approvals has the outcome and the state of the model |
| `PaymentHandler.Handler.SettlePayment` | payments/payment_402_handler.py:160-164 | ledger line and graph edge of one payment |
| `PaymentHandler.Handler.Handle402` | payments/payment_402_handler.py:55-177 | `handle_402` on the real file, gate, graph and ledger refines the machine of the run theorems; the file verifies after it and ends in the hash returned |
| `Orchestrator.SkillKeyInjective` | agent/hermes_orchestrator.py:232-233 | equal keys mean the same skill and the same arguments up to key order, seed data apart, even if a name contains the separator |
| `Orchestrator.SeedsExactly` | agent/hermes_orchestrator.py:232 | exactly the arguments that stand for seed data are left out of the key |
| `Orchestrator.Orchestrate` | agent/hermes_orchestrator.py:205-290 | the loop with its last key and its count computes the play of planner and harness, in which a third identical selection in a row ends it, a second is only reminded, and every other one runs |
| `Orchestrator.SelectedByPlanner` | agent/hermes_orchestrator.py:210-233 | selection k is the key of what the planner answers after the first k turns |
| `Orchestrator.TurnExactly` | agent/hermes_orchestrator.py:205-290 | a turn case by case: the reply, the third and second identical selection, the run, and what each adds to steps, messages and hashes |
| `Orchestrator.PlayExactly` | agent/hermes_orchestrator.py:205-210 | the loop takes one turn after the other until one ends it or the bound is reached |
| `Orchestrator.ClosedExactly` | agent/hermes_orchestrator.py:281-290 | what the caller gets, and why the loop ended |
| `Orchestrator.OrchestrationKeeps` | agent/hermes_orchestrator.py:205-290 | for every planner and harness: the planner is called within the bound; what ran is the de-stuttered sequence of selections; a third identical selection in a row is the last and forces the end, and nothing else does; an escalated step is the last |
| `Orchestrator.HarnessedRunsMatch` | agent/hermes_orchestrator.py:256-266 | with the real harness, whatever the planner and the skills do, steps, history and hashes have equal length |
| `AuditedRuns.OrchestratedRunsMatch` | agent/hermes_orchestrator.py:256-266 | the same with the harness on the real log |
| `Stats.CauchySchwarz` | analysis/revenue_correlation.py:61-67 | the square of a dot product is at most the product of the squared norms |
| `Pearson.PearsonBounded` | analysis/revenue_correlation.py:56-67 | r lies between -1 and 1 for all equal-length sequences |
| `Pearson.PearsonSymmetric` | analysis/revenue_correlation.py:56-67 | r does not depend on which side is which |
| `Pearson.PearsonAffine` | analysis/revenue_correlation.py:56-67 | r is unchanged by a positive affine map of a side |
| `Pearson.PearsonSelf` | analysis/revenue_correlation.py:56-67 | a sequence that varies has r = 1 with itself |
| `Pearson.ProportionalCorrelates` | analysis/revenue_correlation.py:56-67 | a positive multiple of a sequence that varies has r = 1 with it |
| `Pearson.PearsonIsOneExactly` | analysis/revenue_correlation.py:56-67 | r is 1 if and only if the sequences vary and one is a positive affine image of the other |
| `Pearson.PearsonSquared` | analysis/revenue_correlation.py:56-67 | r has the sign of the product of the deviations, and its square is the square of that over the product of their squares; 0 on degenerate input |
| `Pearson.PearsonBySums` | analysis/revenue_correlation.py:56-67 | the same from plain sums |
| `Pearson.PearsonReaches` | analysis/revenue_correlation.py:101-114 | r is at least a threshold exactly if a test on sums, without roots, says so |
| `Correlation.SumByMonth` | analysis/revenue_correlation.py:76-98 | the loop computes, for each month with a selected transaction, the sum of those transactions |
| `Correlation.AutoCorrelated` | analysis/revenue_correlation.py:101-114 | at least four shared months, and r at or above the threshold, by sums |
| `Correlation.SharedExactly` | analysis/revenue_correlation.py:108-112 | the shared months, each once and in ascending order |
| `Correlation.ExpensesInOrder` | analysis/findings.py:78 | the expenses are the transactions marked so, in order |
| `Correlation.FixedInOrder` | analysis/findings.py:80-84 | the scan sees the expenses whose category is not correlated, in order |
| `Correlation.RevenueSnoc` | analysis/revenue_correlation.py:88-98 | revenue is what is marked as income, by month |
| `Correlation.CategoriesExactly` | analysis/revenue_correlation.py:117-131 | which categories are classed as correlated, by substrings or by sums |
| `Correlation.BuildCorrelatedCategories` | analysis/revenue_correlation.py:117-131 | exactly the named categories that match the configuration or correlate |
| `Correlation.FindRatios` | analysis/revenue_correlation.py:134-199 | the loop reports the months whose ratio deviates from the ones before, as specified |
| `Correlation.RatioFindingsExact` | analysis/revenue_correlation.py:167-177 | exactly the months from the third on whose ratio rises above the earlier ones, by a test without divisions, are reported |
| `Correlation.ReportedExactly` | analysis/revenue_correlation.py:167-177 | a month is reported exactly if its ratio is far above the earlier ones or rises by the share, by sums |
| `Correlation.ExpensesOf` | analysis/findings.py:78 | the expense transactions, in order |
| `Correlation.ConstantShareCorrelates` | analysis/revenue_correlation.py:101-114 | a constant positive share of a revenue that varies, over four shared months, is classed as correlated for every threshold up to 1 |
| `Correlation.ConstantShareSilent` | analysis/revenue_correlation.py:134-199 | a constant share of revenue yields no ratio finding |
| `Correlation.ConstantFeeRaisesNoAnomaly` | analysis/findings.py:64-112 | such a category is classed as correlated, none of its transactions reaches the scan, and the ratio detector is silent |
| `AnomalyFindings.ExpenseAnomalyFindings` | analysis/findings.py:64-114 | the loops over anomalies and correlated categories compute the specified reports, with impact and confidence from the rounded mean and score |
| `FindingForms.SpikesExactly` | analysis/findings.py:64-114 | which anomalies and ratios are reported, and with what impact and confidence |
| `FindingForms.ChargeExactly` | gbrain/invoice_ingestion.py:104-133 | a charge is read from a transaction: vendor without surrounding space or from the description, day, amount without sign in cents |
| `FindingForms.TopsExactly` | analysis/findings.py:205-232 | the first three recurring charges, each with a year of its rounded cost |
| `FindingForms.FindExactly` | analysis/findings.py:285-298 | the result holds the findings of the four detectors, each as often as its detector gives it |
| `AnomalyFindings.ConstantFeeIsNotReported` | analysis/findings.py:247-298 | no finding of `find` is about the ratio of a constant-fee category, and every anomaly it reports is of a vendor that is also paid under another category |
| `AnomalyFindings.FoundByOwnDetector` | analysis/findings.py:285-298 | a finding of any kind is in the result exactly if the detector for that kind reports it |
| `FeeFindings.RecurringExactly` | analysis/findings.py:123-132 | the recurring vendors are those whose charges have a group that repeats at a recognized interval |
| `FeeFindings.OwnEntries` | gbrain/invoice_ingestion.py:104-133 | if vendor names have no surrounding space, the charges grouped under a vendor are its own transactions, in order |
| `FeeFindings.JumpsFoundExactly` | analysis/findings.py:117-167 | `find` reports a rise exactly if it is one, above the threshold, of a recurring vendor |
| `FeeFindings.OwnRiseFoundExactly` | analysis/findings.py:117-167 | a rise is reported for a vendor exactly if its own transactions recur and some charged month exceeds the one before by more than the threshold |
| `FeeFindings.TopFoundExactly` | analysis/findings.py:205-232 | a vendor is reported as top recurring exactly if it is among the three most expensive recurring ones |
| `FeeFindings.DoubledFoundExactly` | analysis/findings.py:170-202 | a vendor is reported for a doubled charge exactly if on some day it has several charges that are alike |
| `FeeFindings.FeeRiseFoundExactly` | analysis/findings.py:117-167 | a rise of a vendor that charges the same share of revenue in every month is reported exactly if it recurs and revenue jumps between neighbouring charged months |
| `FeeFindings.ConstantFeeFoundExactly` | analysis/findings.py:247-298 | a constant-percentage fee of one vendor produces a finding of any kind exactly if it has charges that are alike on one day, or recurs and is among the three most expensive recurring ones or meets a jump of revenue |
| `FeeBooks.BooksFoundExactly` | analysis/findings.py:247-298 | for every course of up to nine months of a revenue that varies, with one fee a month: a finding is produced exactly if the fees recur |
| `FeeBooks.LateJumpIsReported` | analysis/findings.py:117-167 | a fee of 20 percent on 1000, 1000, 1000 and 1300 is a constant fee and is reported as a rise |
| `FeeBooks.FlatFeeIsReported` | analysis/findings.py:205-232 | on 1000, 1000, 1000 and 1100 the constant fee is no rise and is reported as top recurring |
| `FeeBooks.GrowingFeeIsSilent` | analysis/findings.py:117-167 | on 1000, 1300, 1690 and 2197 revenue jumps every month and nothing is reported about the fee |
| `Duplicates.FindDoubles` | analysis/findings.py:170-202 | the dict by vendor and date and the loop over it compute the specified reports |
| `Duplicates.DoublesExact` | analysis/findings.py:179-183 | a vendor and day are reported exactly if they have several charges, each within 5 percent of their mean |
| `Duplicates.DoubleExactly` | analysis/findings.py:176-202 | which days are reported and with what numbers, by sums |
| `Duplicates.DoublesOnce` | analysis/findings.py:179-202 | each vendor and day is reported once |
| `Duplicates.EqualChargesAreAlike` | analysis/findings.py:179-183 | two or more charges of one amount are always alike, whatever the amount |
| `Anomaly.FlaggedWithoutRoots` | gbrain/anomaly_detector.py:57-62 | the flag has an equivalent form on squares, without square roots |
| `Anomaly.ScoreExactly` | gbrain/anomaly_detector.py:34-82 | every field of a verdict from plain sums, and when it is an anomaly |
| `Anomaly.ScoreScales` | gbrain/anomaly_detector.py:34-82 | scaling all amounts scales mean and amount and changes neither score, percentage nor flag |
| `Scan.ScanExact` | gbrain/anomaly_detector.py:85-110 | an anomaly is reported exactly if it is the verdict on some invoice against the earlier ones of its vendor; the report is in descending order of score |
| `Scan.DatedExactly` | gbrain/anomaly_detector.py:93-98 | a vendor list holds its own invoices, each as often as it came, in stable order of date |
| `Scan.FlaggedExactly` | gbrain/anomaly_detector.py:101-107 | the anomalies of a vendor are the verdicts on its anomalous invoices, each once and in order |
| `Scan.CountExactly` | gbrain/anomaly_detector.py:100-110 | an anomaly is in the report exactly as often as it is found for its vendor |
| `Scan.ReportExactly` | gbrain/anomaly_detector.py:109-110 | the report holds all anomalies, each as often as found, in descending rounded size of the score |
| `Scan.AddedInvoice` | gbrain/anomaly_detector.py:85-110 | adding an invoice changes no verdict of another vendor, nor of its own vendor before its date |
| `Scan.ScanScales` | gbrain/anomaly_detector.py:85-110 | scaling all amounts gives the same anomalies, scaled, in the same order |
| `Scan.ScoredScanScales` | gbrain/anomaly_detector.py:85-110 | so with `score_invoice` for every threshold: the flagged set and its order do not depend on the unit of money |
| `Scan.ScanInvoices` | gbrain/anomaly_detector.py:85-110 | the loops over vendors and invoices compute the specified report |
| `Findings.RecurringJumps` | analysis/findings.py:117-167 | the loops compute the specified list of jumps, for the recurring vendors given |
| `Findings.JumpFindingExact` | analysis/findings.py:136-167 | a finding is reported exactly if it is a rise, above the threshold, between neighbouring charged months of a recurring vendor |
| `Findings.RisesExactly` | analysis/findings.py:136-167 | exactly the rises between months with charges and none between, above the threshold without division, of the vendors given, with their numbers |
| `Findings.RisesOnce` | analysis/findings.py:136-167 | for distinct vendors each rise is reported once |
| `Findings.SortedMonthsExactly` | analysis/findings.py:139 | the charged months, each once and in ascending order |
| `Findings.FeeJumpsWithRevenue` | analysis/findings.py:141-147 | a vendor that charges the same share of revenue in every month jumps between neighbouring charged months exactly when revenue does |
| `Findings.OneMonthHasNoJump` | analysis/findings.py:136-140 | within a single month there is no jump |
| `Findings.FindIsRanked` | analysis/findings.py:293-298 | the result is ordered by rounded impact, then by confidence, and holds every finding as often as it was found |
| `Graph.HistoryRefinesPayments` | gbrain/knowledge_graph.py:155-158 | in every run the history of a name is the stable date sort of all amounts recorded under names that normalize alike |
| `Graph.RunValid` | gbrain/knowledge_graph.py:51-88 | in every run keys are normalized, both dicts have the same keys, and edges are sorted under the vendor they point to |
| `Graph.AdditionExactly` | gbrain/knowledge_graph.py:51-64 | an addition writes one node with its own fields, overwritten by attributes of those names |
| `Graph.PaymentExactly` | gbrain/knowledge_graph.py:66-87 | a payment inserts one edge after all of its date or an earlier one, with the category given, or known, or other |
| `Graph.PaymentKeeps` | gbrain/knowledge_graph.py:66-87 | and adds the vendor if it is not known, and nothing else |
| `Graph.IngestedExactly` | gbrain/invoice_ingestion.py:179-215 | an invoice becomes a node record at the first sight of its vendor and an edge record |
| `Graph.LoadRestores` | gbrain/knowledge_graph.py:190-217 | loading what was saved gives back the same graph if and only if no node has extra attributes |
| `Graph.SavedRunIsRestored` | gbrain/knowledge_graph.py:190-217 | every graph built without extra attributes is the same after saving and loading |
| `Graph.EdgeLandsOnVendor` | gbrain/knowledge_graph.py:96-109 | an edge record with a raw vendor name is recorded under the normalized name |
| `Graph.BuildIsRun` | gbrain/knowledge_graph.py:224-229 | ingesting invoices amounts to recording each of them under its own name |
| `Graph.InvoicesBecomeHistory` | gbrain/knowledge_graph.py:224-229 | every invoice becomes exactly one edge under its normalized vendor, in order of date |
| `VendorGraph.KnowledgeGraph.constructor` | gbrain/knowledge_graph.py:42-45 | the graph starts empty |
| `VendorGraph.KnowledgeGraph.AddVendor` | gbrain/knowledge_graph.py:51-64 | the dicts after it are those of the model |
| `VendorGraph.KnowledgeGraph.RecordPayment` | gbrain/knowledge_graph.py:66-87 | the dicts after it are those of the model, with the edge list sorted again |
| `VendorGraph.KnowledgeGraph.LoadRecords` | gbrain/knowledge_graph.py:90-109 | the loop over the records computes the graph of the model |
| `VendorGraph.KnowledgeGraph.VendorHistory` | gbrain/knowledge_graph.py:155-158 | the amounts under the normalized name, in order |
| `Graph.KnownExactly` | gbrain/knowledge_graph.py:151-153 | after any run a name is known exactly if some addition or payment of the run named a vendor that normalizes alike |
| `VendorGraph.KnowledgeGraph.IsKnownVendor` | gbrain/knowledge_graph.py:151-153 | on the graph of any run the answer is yes exactly if some operation named a vendor that normalizes alike |
| `VendorGraph.LoadGraph` | gbrain/knowledge_graph.py:202-217 | the two nested loops build the loaded graph of the model |
| `VendorGraph.SaveAndLoad` | gbrain/knowledge_graph.py:190-217 | a saved and loaded graph is the same if and only if no node has extra attributes |
| `VendorGraph.Ingest` | gbrain/invoice_ingestion.py:179-215 | the loop with its set of seen names computes the records of the model |
| `VendorGraph.BuildFromInvoices` | gbrain/knowledge_graph.py:224-229 | the graph object holds the graph of the model |
| `Recurring.GroupingPartitions` | gbrain/invoice_ingestion.py:242-256 | every entry lands in exactly one group, every group holds amounts similar to the one that opened it, and no key is similar to an earlier key |
| `Recurring.AverageNearKey` | gbrain/invoice_ingestion.py:276-277 | the average of a group is within 15 percent of its key |
| `Recurring.IntervalTelescopes` | gbrain/invoice_ingestion.py:258-261 | the average interval is the span of the dates over the count less one |
| `Recurring.SimilarExactly` | gbrain/invoice_ingestion.py:245-249 | amounts are similar if less than 15 percent of the key apart |
| `Recurring.RegularExactly` | gbrain/invoice_ingestion.py:258-275 | a group recurs exactly if the span of its days is within 20 to 40, 80 to 100 or 340 to 400 days a gap |
| `Recurring.RecursExactly` | gbrain/invoice_ingestion.py:242-288 | the first such group is the one summarized, with its average, monthly cost, last day and count |
| `Recurring.ApartNeverRecurs` | gbrain/invoice_ingestion.py:242-288 | entries none of whose amounts is similar to an earlier one never recur |
| `Recurring.FindRecurringGroup` | gbrain/invoice_ingestion.py:242-288 | the loops find the first group of the partition that repeats at a recognized interval, and summarize it |
| `Recurring.RecurrencesExact` | gbrain/invoice_ingestion.py:166-176 | a summary is reported exactly if it is that of a vendor whose partition has such a group; in descending order of cost |
| `Recurring.DetectRecurring` | gbrain/invoice_ingestion.py:158-176 | grouping by vendor, finding and sorting compute the specified list |
| `Pnl.ComputePnl` | analysis/pnl.py:34-85 | exactly the months that occur have a bucket, in ascending order, with exactly the categories that occur and the sums of their transactions; the totals are the sums over all dated transactions |
| `Pnl.WeightsExactly` | analysis/pnl.py:50-58 | what a transaction counts as, by direction and category |
| `Pnl.MonthsPartition` | analysis/pnl.py:71-72 | summing month by month or all at once gives the same |
| `Pnl.CategoriesBalance` | analysis/pnl.py:53-58 | the categories of a month sum to expense minus income less twice the amounts of unknown direction, hence to minus the net if and only if those sum to nothing |
| `Pnl.TotalsPermute` | analysis/pnl.py:71-79 | the totals do not depend on the order of the transactions |
| `Export.ReportShaped` | analysis/pnl.py:60-68 | every report of `compute_pnl` has the shape the exports need |
| `Export.ExpenseByCategory` | analysis/export.py:64-73 | the nested loops compute the total of every category, ranked by amount |
| `Export.RankedExactly` | analysis/export.py:64-73 | every category with its sum, once, the greatest first |
| `Export.CategoryMonthlySeries` | analysis/export.py:93-126 | the transposing loops compute, for every category with a positive month, its values over all months, sorted by name |
| `Export.LineExactly` | analysis/export.py:117-122 | the values of a line, 0 where the category has none |
| `Export.PositiveInOrder` | analysis/export.py:112-116 | the categories with a series are those with a month above zero, in order |
| `Export.SeriesSumToTotal` | analysis/export.py:93-126 | the series of a category sums to its exported total |
| `Export.CategoryTotalsSumToNet` | analysis/export.py:64-73 | the exported totals of all categories sum to minus the net, less twice the dated amounts whose direction is neither income nor expense |
| `Export.DroppedCategories` | analysis/export.py:115-118 | the totals of the categories that have a series sum to at least those of all categories, and to the same exactly if every category left out totals nothing |
| `Export.NetsSumToNet` | analysis/export.py:85-90 | the exported nets are in ascending order of month, one for each, and sum to the net of the report |
| `Billing.CalculateUbp` | payments/metronome.py:58-93 | one line for each property of the owner, in order, and the sums of their revenues and fees |
| `Billing.FeeExactly` | payments/metronome.py:74-78 | the fee of a line is the management fee and half a percent, each rounded down on its own |
| `Billing.OwnedInOrder` | payments/metronome.py:66 | the lines are in the order of the registry |
| `Billing.EachListedOnce` | acts/property_mgmt_agent.py:118-120 | billing every distinct owner lists each property exactly once |
| `Billing.BillingConserves` | acts/property_mgmt_agent.py:118-120 | what the parts of all owners sum to is what the properties sum to |
| `Billing.InvoicesConserveRevenue` | acts/property_mgmt_agent.py:118-120 | each property stands on one line of the invoices of all distinct owners, and the invoice revenues sum to the revenues of the properties |
| `Billing.InvoiceFeeBound` | payments/metronome.py:74-78 | an invoice never exceeds the exact fee, and is less than two cents a line below it |
| `Cycles.RunCycle` | analysis/loop.py:178-219 | one cycle escalates the findings of new keys and stores the keys of its own findings |
| `Cycles.NewOnesInOrder` | analysis/loop.py:112-121 | the escalated findings are those whose title and category the state lacks, in order |
| `Cycles.LatestExactly` | analysis/loop.py:170-175 | the newest month is one that occurs and none is greater |
| `Cycles.EscalatedExactly` | analysis/loop.py:112-121 | a cycle escalates a key exactly if it is present and was absent the cycle before, with one line for each finding that has it |
| `Cycles.EscalationsAreAppearances` | analysis/loop.py:226-277 | in every run as many cycles escalate a key as there are cycles in which it is present and was absent the cycle before |
| `Cycles.WeeklyFindsNoJump` | analysis/loop.py:170-192 | a weekly cycle finds no recurring jump, whatever its data |
| `Cycles.JumpsFireAfterWeekly` | analysis/loop.py:178-219 | in every run a monthly cycle after a weekly one escalates all its jumps |
| `Cycles.UnchangedDataFiresAgain` | analysis/loop.py:226-277 | monthly, weekly, monthly on unchanged data escalates each jump twice, or once if the state already had it |

## Left out

- Lone surrogates: a Dafny `char` is a Unicode scalar value, so a Python string that `encode("utf-8")` refuses cannot be written down.
- Floats as binary numbers: precision and the rounding for display are not modelled (where rounding to two places decides an order or a confidence, `round` is a parameter); amounts are cents, exact reals, or (inside JSON) the text of the float. Amounts of 10^16 and more print differently in the key of an approval request, with an exponent.
- `OSError`, missing directories, concurrent processes and `RecursionError` in the JSON reader; a file that does not exist is an empty one. Python's limit on the digits of an integer is not modelled.
- HashChainTamper.VerifiedFilesAgree: gives a concrete SHA-256 collision as the alternative to equal entries, because a fixed-length hash cannot be injective.
- Approvals.ReleaseNeedsOwnApproval: gives a pair of keys with one request id as the alternative, because ids are the first twelve hexadecimal digits of a hash.
- Approvals.KeyInjective: is about amounts in cents, which print as Python prints the nearest float below 10^16.
- ApprovalGate.Gate.ListPending: records with unreadable YAML, which the program skips, do not occur.
- Harness.ExecutedMeansRan: the reason text in a blocked entry is a fixed word, and the sandbox label is always "in-process"; NeMo Guardrails and the subprocess sandbox are left out.
- Handle402.CallStep: the returned `steps` list, which is text for display, is not part of the outcome; the policy is the local one, without the C1 service; the ledger entry keeps vendor, amount, date and invoice, without account name and entry id; the threshold is given, as resolved from argument and environment.
- AuditLog.Log.WriteEarnEvent: the best-effort copy of the event to the interactions log is a separate chain and not written here.
- Graph.LoadRestores: extra attributes are strings, and the saved form is the value of `to_dict`, not its JSON text; mirroring to the GBrain service, `expected_range`, `nodes` and `edges` are left out.
- Recurring.DetectRecurring: starts from dated amounts in whole cents; reading amounts, dates and vendor names out of raw invoices is left out.
- AnomalyFindings.ConstantFeeIsNotReported: parameters are the order in which sets are visited, the ordinal of a date, the vendor read from a description where the name is blank, and a vendor's most common category, because equal counts are settled by set order; explanations are kept as the numbers they quote.
- Cycles.RunCycle: writes succeed, connector state and the written reports are left out.
- Orchestrator.Orchestrate: the key of a selection is a parameter, which the program sets to `SkillKeys`; prompts and the reading of the model's reply are left out; a planner answers with an action. A harness that raises ends the loop.
- Orchestrator.SkillKeyInjective: arguments are printed unescaped, where the program escapes characters beyond ASCII; both printings are injective.
- Scan.ScanExact: the reason text of an anomaly is left out.
- Billing.CalculateUbp: names and descriptions on invoice lines and the invoice id are left out; rates are exact.
- Network clients, the user interface, report text, CSV and spreadsheet parsing, AEO scoring, dynamic pricing, turnover and stall views: presentation, foreign calls, or easy branch sums.
