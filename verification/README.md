# Verified model of VeriClose

VeriClose closes payment settlements across three ledgers: the gateway that collected the money, the
bank that received it, and the ERP general ledger that should record it. This project models its
deterministic kernel and the workflow around it in Dafny and proves what the two promise.

## What is modelled

- **The kernel.** `Selection`, `Grouping` and `Context` are the filters, the bounded subset-sum search
  and the indexed view of a batch. `SettlementRule` is the rule that turns one settlement reference into
  sixteen proof checks, reasons and evidence; `Pipeline` is the consumption fold over all references, the
  orphan sweep and the risk gate (`Gate`). The loops are methods proved against first-order reference
  definitions; the theorems are about those definitions.
- **What a clear means.** `Verdicts`, `Proof`, `Money`, `Clearance`, `Partition` and `Totality`: a proved
  settlement is forced on the bank side and conserves money in three ledgers, every row is accounted for
  once, and no constructor raises. `Example` follows a small batch through the whole
  kernel, `CorrectionExample` and `ReversalExample` through the correction loop, `ClashExample` into the store.
- **What the rules mean.** `Meaning`, `Showing` and `Outcomes` tell the settlement rule and the gate by the fields of the
  rows alone, without the functions that compute them; `Drafts`, `FileReading`, `RunRules`, `Approval`, `Stability`, `Tallies` and
  `AdviceText` do the same for the drafted journal, the ERP reader, the run transactions, the action desk, the evaluator and
  the advisory model.
- **Two runs compared.** `Renaming`, `Mirror`, `Invariance`, `MirrorRun` and `MirrorSweep` relate a batch to the same
  batch with other ids, narrations and lineage plus extra ERP lines. `Narration`, `NarrationRun` and
  `OrderIndependence` use this for two-run properties; `Drafting`, `Ledger`, `Rerun`, `Correction`,
  `CorrectionLoop`, `CorrectionRun` and `RelatedCase` for the correction loop over events, and `ErpReimport`,
  `CorrectionImport`, `Readiness` and `PaddedAccounts` for its way through the ERP file: it drafts the missing
  journal, appends it to the file, imports everything again and runs the kernel again.
- **The workflow.** `RunProtocol` and `RunInterleaving` (run lifecycle over serializable transactions),
  `CaseKeys` (what fits its primary keys), `Actions` and `ActionDesk` (approval-gated actions with idempotent
  receipts), `Join` (review queue).
- **Three smaller cores.** `Predictions`, `Matching` and `Metrics` (evaluator), `Normalization` and `ErpImport` (import
  of rows), `Advice` and `Investigation` (advisory model).

A batch is a sequence of `Event`s; dates are day numbers; amounts are natural numbers of minor units. An
absent reference is the empty string, since the rules only test references for truth. `StableId` and
`ActionId` stand for truncated digests and are taken to be injective. The narration similarity is an
arbitrary function with real values.

## Assumptions carried in contracts

- Event ids are unique in a batch (`UniqueIds`), and ids are made of run, source and record (`Rerun.Issued`).
- Gateway rows use the six gateway event types (`Money.GatewayKinds`); bank amounts are positive and a bank
  row is a credit event exactly when its direction is credit (`Proof.BankRowsAreSound`). The adapters
  enforce both.
- Where stated: no tolerance, fees and taxes subtracted, and bank, fee and tax accounts pairwise disjoint
  (`Policy.ZeroTolerance`, `Policy.StandardAccounts`); the fifteen hard checks required
  (`Events.FIFTEEN`). `Totality.KernelIsTotal` and `Clearance.NoFalseClear` need three of them only
  (`Totality.UNGUARDED`); for any policy, `Totality.KernelRaisesExactly` says on which rows
  the kernel raises.
- The correction loop posts under a journal id that no row has yet (`Rerun.FreshJournal`), with tidy lines and a
  trimmed reference (`ErpReimport.Postable`: amounts that 28 significant digits hold, a currency code in capitals,
  and trimmed accounts, which `PaddedAccounts` does without), in an ERP file without blockers (`ErpReimport.IsValid`).
- Truth cases and predictions have different ids; stored decisions always do, by their primary key.

## Where the code differs from what one might expect

- A failed receipt direction adds no reason (`Clearance.SilentExactly`, `Example.DebitFailsSilently`).
- A policy that requires the narration support check lets narration decide proof
  (`NarrationRun.RequiredNarrationDecides`, `NarrationRun.RequiredNarrationTellsApart`, `Example.NarrationTellsApart`).
- A policy of hard checks that leaves out receipt direction, reference or date can make the kernel raise; one that
  requires all three cannot (`Example.NeverRaisesExactly`, `Totality.KernelRaisesExactly`).
- Case keys are not namespaced by source, so a run's result can clash with the store's primary keys
  (`CaseKeys.StorableWhenNamesDiffer`, `ClashExample.ClashIsNotStorable`).
- A crash between the two transactions of a run leaves it reconciling for ever
  (`RunInterleaving.StuckExactlyWhenUnheld`, `RunInterleaving.CrashStrandsRun`).
- A duplicate reversal cannot clear its case (`RelatedCase.ReversalNeverClears`,
  `ReversalExample.ReversalLeavesItOpen`).
- An account that a policy lists with padding is stripped on its way through the ERP file; a correction that posts to
  it closes its case only if every role still receives its share (`PaddedAccounts.CorrectionClosesExactly`), which
  a role with padded accounts only does not (`PaddedAccounts.PaddedAccountsStayOpen`).
- `bank_to_erp_max_days` is read by no rule, and a gateway row without a settlement reference is in no
  proposal (`Partition.Accountable`).

`dafny verify dfyconfig.toml` checks the whole project.

## Model

| member | source | states |
|---|---|---|
| Grouping.AmountGroups | core/vericlose/reconciliation/rules/grouping.py:18-35 | the nested loops with early exit return exactly the reference search, a prefix of all combinations in search order |
| Grouping.SearchIsExact | core/vericlose/reconciliation/rules/grouping.py:25-35 | within the candidate bound only valid groups are reported, each once, by size then lexicographically; fewer than the threshold means all valid groups are there, and whatever is left out comes after everything reported; beyond the bound the search is bounded out and reports none |
| Context.AcceptedBatchIsWellFormed | core/vericlose/reconciliation/context.py:28-46 | a batch that is not refused is in strict id order, and all its events share run, entity and the policy currency |
| Context.BuildIndexes | core/vericlose/reconciliation/indexes.py:23-44 | every look-up in each of the five indexes, by settlement, UTR, external reference, amount and date, equals the filter of the id-sorted events that it stands in for, for every key |
| Context.Build | core/vericlose/reconciliation/context.py:22-46 | building the context refuses exactly when the batch is empty, mixed or in another currency, for that reason, and otherwise gives the batch with faithful indexes |
| Context.BatchExactly | core/vericlose/reconciliation/context.py:28-46 | why a batch is refused, first match first: it is empty, its rows are of several runs or entities, or some row is not in the policy currency; otherwise it has their run and entity, and the rows in id order |
| Context.GatewayRows | core/vericlose/reconciliation/context.py:57-62 | the indexed look-up returns all gateway rows of the reference in scope, in id order |
| Context.RowsWithUtr | core/vericlose/reconciliation/rules/settlement.py:97-104 | the indexed look-up returns all free bank rows in scope with the UTR |
| Context.ErpJournals | core/vericlose/reconciliation/context.py:64-77 | grouping in a dictionary and sorting twice gives the lines of the reference split by journal, in journal-id order |
| Context.DateOrderIsImmaterial | core/vericlose/reconciliation/context.py:79-98 | sorting candidates by value date leaves no trace in the search, which sorts them by id again |
| Selection.JournalIdRoundTrip | core/vericlose/reconciliation/context.py:72-72 | the journal id is recovered from journal:line whatever colons it contains |
| Proposals.UniqueEvidence | core/vericlose/reconciliation/proposals.py:52-60 | keeps the first link of each event and purpose, in order |
| Proposals.NothingToDrop | core/vericlose/reconciliation/proposals.py:52-60 | links to different events are all kept |
| SettlementRule.SelectBank | core/vericlose/reconciliation/rules/settlement.py:301-339 | bank selection is the decision over the bounded search and, when that finds nothing, the free rows with the anchor's reference |
| Showing.PickTable | core/vericlose/reconciliation/rules/settlement.py:91-115 | on the facts of any batch: all rows with the reference when they conflict, the one group found, the first of several and ambiguous, a lone row with the reference, the first of several and ambiguous, or none |
| SettlementRule.AnalyzeSettlement | core/vericlose/reconciliation/rules/settlement.py:29-299 | the rule's sequence of checks, reasons, flags, support scoring and evidence is the proposal determined by the facts it looked up, and it cites the case's members |
| Money.ComponentsByKind | core/vericlose/reconciliation/policy.py:76-85 | expected net and clearing amount are the totals of each kind of gateway row under its own sign, credit and debit adjustments each under theirs |
| Meaning.HoldsExactly | core/vericlose/reconciliation/rules/settlement.py:45-249 | each of the fifteen conditions, told by amounts, sides, references, dates and accounts of the rows |
| Meaning.ReasonsExactly | core/vericlose/reconciliation/rules/settlement.py:51-249 | each of the fourteen reasons is given exactly when the rows call for it |
| Meaning.ReasonsComeInOrder | core/vericlose/reconciliation/rules/settlement.py:51-294 | no reason comes twice, and they come gateway side, bank side, ledger side, each in its fixed place |
| Meaning.ProvedExactlyWhenItAddsUp | core/vericlose/reconciliation/rules/settlement.py:29-299 | under the fifteen checks and with no bank tolerance, a settlement is PROVED if and only if it adds up on the rows: one settlement row that its signed components make up, free bank credits with its reference in its window that are the only group to make it up, and one balanced journal that gives each role its amount |
| Showing.ChecksShow | core/vericlose/reconciliation/rules/settlement.py:45-249 | each of the sixteen proof checks shows, as expected and observed, the figures of the rows that it compares |
| Showing.ChecksCite | core/vericlose/reconciliation/rules/settlement.py:342-351 | each proof check cites the rows of its side, or the gateway rows when there are none, and allows the tolerance of its kind |
| Showing.ScoresExactly | core/vericlose/reconciliation/rules/support.py:12-42 | a settlement not proved outright scores its bank rows: amount, reference and date at full weight or nothing, narration at the nearest whole number, the sum capped at 10000 |
| Showing.SupportShows | core/vericlose/reconciliation/rules/settlement.py:267-279 | each support check sets a feature's score against its weight and is never required; amount, reference and date pass exactly when their condition holds or weighs nothing |
| Outcomes.SettlementAtRisk | core/vericlose/reconciliation/rules/settlement.py:295-295 | a settlement risks the larger of the reported net and the signed components, never less than nothing |
| CaseFacts.MembersOfCase | core/vericlose/reconciliation/rules/settlement.py:280-283 | a settlement's members are its gateway rows, the bank rows considered and its ERP lines, ordered and each once; the three parts are recovered by source |
| CaseFacts.PickIsSound | core/vericlose/reconciliation/rules/settlement.py:301-339 | whatever branch bank selection takes, the rows it picks are among the rows it considers, all of them free bank rows in id order |
| CaseFacts.JournalsPartition | core/vericlose/reconciliation/context.py:70-77 | the journals of a list of lines are non-empty, disjoint, and together exactly those lines |
| Pipeline.SettleAll | core/vericlose/reconciliation/pipeline.py:47-59 | the consumption fold analyses each reference on exactly the bank rows that earlier proposals left, and consumes what each proposal cites |
| Pipeline.OrphanSweep | core/vericlose/reconciliation/pipeline.py:80-103 | one proposal for each bank row and each ERP journal left over, in id order and journal-id order |
| Outcomes.OrphanRowsAreFiled | core/vericlose/reconciliation/pipeline.py:84-92 | every bank row left over is AMBIGUOUS, for review, and filed as an orphaned credit at its amount |
| Outcomes.OrphanJournalsAreFiled | core/vericlose/reconciliation/pipeline.py:93-139 | every journal left over is AMBIGUOUS, for review, and filed as an orphaned posting at its largest line, under its own id if it has one |
| Pipeline.Reconcile | core/vericlose/reconciliation/pipeline.py:41-77 | refuses a batch for the context's reason, otherwise computes the reference kernel, and raises exactly when one of its constructors would |
| Pipeline.ReferencesAreKnown | core/vericlose/reconciliation/context.py:48-62 | every settlement reference has gateway rows in scope, so the anchor of the rule always exists |
| Gate.OnlyProofClears | core/vericlose/reconciliation/risk_gate.py:21-71 | a decision is auto-cleared if and only if the policy enables it and the proposal is unique, unambiguous, valid, without hard contradiction, and passes every required check |
| Gate.DecisionTable | core/vericlose/reconciliation/risk_gate.py:26-71 | level and state of a decision, first match first: invalid, ambiguous, contradicted, proved, supported; the contradiction named is the earliest of the five, exactly when CONTRADICTED; rows, checks and evidence are carried on |
| Gate.FirstListedIsMostUrgent | core/vericlose/reconciliation/exception_factory.py:12-41 | an exception is filed under the reason of highest priority among those given |
| Gate.ExceptionTable | core/vericlose/reconciliation/exception_factory.py:30-54 | an exception is filed for every decision that is not PROVED, under the most urgent of its reasons, named one by one, or as unresolved if there is none, with the policy treatment, the amount and the evidence |
| Gate.VerdictOfCheck | core/vericlose/reconciliation/risk_gate.py:26-30 | when no check code repeats, the look-up by code reads off the check itself |
| Verdicts.ProofChecksReport | core/vericlose/reconciliation/rules/settlement.py:42-251 | the proof checks come in a fixed order of sixteen; each reports its own condition, with evidence, and all but the variance are required |
| Verdicts.RequiredPassMeansAllHold | core/vericlose/reconciliation/rules/settlement.py:251-279 | looking up the fifteen required codes among all checks of a proposal, support checks included, finds them passed exactly when the fifteen conditions hold |
| Verdicts.ExplanationsAreComplete | core/vericlose/reconciliation/rules/settlement.py:51-251 | with no bank tolerance, the reason list is empty if and only if every condition other than the receipt direction holds |
| Proof.ProvedExactlyWhenUnopposed | core/vericlose/reconciliation/rules/settlement.py:51-299 | a settlement is PROVED if and only if it has no reason against it and its receipt is a credit |
| Proof.FallbackCannotProve | core/vericlose/reconciliation/rules/settlement.py:91-115 | a case that meets all conditions never came from the UTR fall-back or the identifier-conflict path |
| Proof.ProvedBankIsForced | core/vericlose/reconciliation/rules/settlement.py:91-115 | a proved case's bank rows are the only group of free receipts in the window that sums to the settlement, and exactly the free bank rows with its UTR |
| Money.ProvedCaseConservesMoney | core/vericlose/reconciliation/rules/settlement.py:207-249 | in a proved case bank total, settlement net, components kind by kind and ERP bank debits are one amount, clearing credits are that plus fees and taxes, and the journal's remaining lines balance by themselves |
| Money.ClearedTotalsAgree | core/vericlose/reconciliation/risk_gate.py:46-59 | over a run, the proved cases' nets, bank totals and ledger totals are equal sums |
| Clearance.NoFalseClear | core/vericlose/reconciliation/risk_gate.py:21-71 | every auto-cleared decision of a run is a settlement whose bank side is forced on the rows left by the settlements before it and whose money adds up three ways |
| Outcomes.ClearsExactly | core/vericlose/reconciliation/risk_gate.py:46-59 | over a run with auto-clear enabled: a settlement is auto-cleared if and only if it adds up on the rows that the settlements before it left |
| Clearance.SilentExactly | core/vericlose/reconciliation/rules/settlement.py:137-148 | a settlement has no reason and yet is not PROVED if and only if the receipt direction is all that fails; its exception is then filed as unresolved |
| Example.DebitFailsSilently | core/vericlose/reconciliation/rules/settlement.py:325-337 | it happens: a debit row with the settlement's reference, amount and day is picked by the fall-back, and the batch's settlement gets no reason and is not PROVED |
| Partition.EveryRowOnce | core/vericlose/reconciliation/pipeline.py:47-61 | all proposals' members together are exactly the bank rows, the ERP rows and the gateway rows with a reference, each once, so bank and ERP amounts over proposals equal the input totals |
| Partition.NoRowTwice | core/vericlose/reconciliation/pipeline.py:80-103 | no row belongs to two proposals |
| Partition.ProposalsCiteTheirMembers | core/vericlose/reconciliation/rules/settlement.py:280-287 | each proposal's event ids are the ids of its own member list |
| Totality.CaseEvidence | core/vericlose/reconciliation/rules/settlement.py:280-283 | a settlement cites each of its members exactly once, so removing repeated evidence removes nothing |
| Totality.SettlementDecisionAccepted | core/vericlose/domain/decisions.py:65-103 | a settlement's decision is accepted by its constructor unless it would be PROVED while one of the fifteen conditions fails |
| Totality.ProvedExactly | core/vericlose/reconciliation/risk_gate.py:26-53 | for any policy, the gate proves a settlement if and only if its facts meet twelve of the fifteen conditions, no bank rows conflict over its reference, and every check the policy requires holds |
| Totality.KernelRaisesExactly | core/vericlose/domain/decisions.py:84-103 | for any policy, the kernel raises on a batch if and only if some settlement meets those twelve conditions and what the policy requires, yet fails receipt direction, reference or date; otherwise it returns its result |
| Totality.GateGuardsTheRest | core/vericlose/reconciliation/risk_gate.py:26-53 | of a settlement the gate proves, whatever checks the policy requires, twelve of the fifteen conditions hold and no rows conflict over its reference; so all fifteen hold exactly when receipt direction, reference and date do |
| Totality.KernelIsTotal | core/vericlose/reconciliation/pipeline.py:64-77 | once the policy requires receipt direction, reference and date, no constructor of the kernel raises on any well-formed batch; in particular with all fifteen required |
| Totality.OneExceptionPerOpenDecision | core/vericlose/reconciliation/pipeline.py:65-70 | there are as many exceptions as decisions that are not PROVED |
| Totality.ExceptionsComeFromProposals | core/vericlose/reconciliation/pipeline.py:65-70 | an exception is listed exactly when it is the one filed for some proposal |
| Narration.SameSettlement | core/vericlose/reconciliation/rules/settlement.py:251-299 | a settlement whose rows changed narration only gives the same members, links, checks, reasons and flags, narration support aside |
| NarrationRun.NarrationCannotInfluenceProof | core/vericlose/reconciliation/rules/support.py:31-42 | unless the policy requires the narration check, two batches that differ only in narration are refused alike or give equal members, checks, reasons, levels, states and exceptions, but for that check and the score |
| NarrationRun.RequiredNarrationDecides | core/vericlose/reconciliation/risk_gate.py:26-48 | the boundary, for every policy that requires the narration check: it proves a settlement exactly when the policy without that check proves it and the narration scores in full |
| NarrationRun.RequiredNarrationTellsApart | core/vericlose/reconciliation/risk_gate.py:26-48 | over two batches that differ only in narration: such a policy proves a settlement in one and not in the other exactly when the policy without that check proves it and the narration scores in full in just one of them |
| Example.ExampleClears | core/vericlose/reconciliation/risk_gate.py:46-59 | the premises of the safety theorems are met: a concrete batch runs through the whole kernel and its settlement is auto-cleared |
| Example.EachUnguardedCheckIsNeeded | core/vericlose/domain/decisions.py:84-103 | for each of receipt direction, reference and date: under every policy that requires hard checks but not this one, the kernel raises on a concrete batch |
| Example.NeverRaisesExactly | core/vericlose/domain/decisions.py:84-103 | of the policies that require some of the fifteen hard checks and nothing else, those under which no well-formed batch makes the kernel raise are exactly the ones that require receipt direction, reference and date |
| Example.NarrationTellsApart | core/vericlose/reconciliation/rules/support.py:31-42 | under a policy that requires the narration check, two concrete settlements that differ in narration only are proved and not proved |
| OrderIndependence.OrderIsImmaterial | core/vericlose/reconciliation/context.py:39-46 | every permutation of a batch gives identical proposals, decisions and exceptions, and identical look-ups in all five indexes |
| Join.ListCases | core/vericlose/application/review_cases.py:80-99 | filling a dictionary by member set and looking decisions up is the join with the last matching exception |
| Join.JoinIsFaithful | core/vericlose/application/review_cases.py:80-99 | for any stored order of a run's exceptions, each decision is joined to exactly the exception filed for the same proposal, and to none exactly when it is PROVED |
| Join.MemberSetsDiffer | core/vericlose/reconciliation/pipeline.py:47-61 | different proposals of a run have disjoint, hence different, member sets |
| Predictions.BuildPredictions | evaluation/evaluate.py:102-139 | indexing events by id and exceptions by members gives one prediction per decision, in id order, or a refusal exactly when a decision cites an event that is not stored |
| Predictions.PredictionsOfRun | evaluation/evaluate.py:116-138 | a stored run never cites a missing event, and however its events and exceptions are ordered, each decision is predicted with the source keys of its own rows and the treatment of its own exception |
| Predictions.ExactCaseIsAssigned | evaluation/evaluate.py:243-266 | when a stored run groups exactly the rows of a true case, the evaluator assigns that case the run's own decision, whatever else the run and the truth contain |
| MirrorRun.MirroredCases | core/vericlose/reconciliation/pipeline.py:47-59 | a run over renamed rows plus extra ERP lines takes the renamed bank rows and sees the renamed facts, case by case, because bank selection never reads ERP rows |
| Invariance.SameHolds | core/vericlose/reconciliation/rules/settlement.py:42-251 | renaming rows changes none of the fifteen conditions |
| Transforms.RupeesRoundTrip | core/vericlose/application/corrections.py:237-239 | a printed amount is parsed back as that amount rounded to 28 significant digits |
| Transforms.RoundTripIsExact | core/vericlose/ingestion/mappings.py:215-226 | the print and parse round trip is exact if and only if the amount has nothing beyond its 28th digit |
| Transforms.RoundedIsNearest | core/vericlose/ingestion/mappings.py:215-226 | rounding gives the nearest multiple of the last of 28 digits, the even one of two |
| Ledger.AppendJournal | core/vericlose/application/corrections.py:192-234 | appends one numbered row per journal line after the existing rows |
| Ledger.LineReadsBack | core/vericlose/adapters/erp_gl.py:47-112 | an appended row is read back as the line was drafted if and only if the line is tidy: trimmed account, trimmed upper-case currency, and nothing beyond the 28th digit |
| FileReading.RowReadsExactly | core/vericlose/adapters/erp_gl.py:47-202 | an ERP row is unreadable for its first fault, named, or becomes the event that its cells say: the side that is not zero, its amount, and the trimmed texts |
| Ledger.RecordIdIsInjective | core/vericlose/adapters/erp_gl.py:38-40 | a record id determines journal and line |
| Drafting.MissingErpJournal | core/vericlose/application/actions.py:314-370 | drafts the journal of a case with exactly one bank credit, or refuses exactly when a policy direction, a zero amount or missing evidence makes a constructor raise |
| Drafting.DraftIsAccepted | core/vericlose/domain/actions.py:64-88 | a draft always has two to four positive lines in one currency, each citing evidence, with equal debits and credits |
| Drafting.DraftSums | core/vericlose/application/actions.py:325-369 | each side of a draft adds up to bank plus fees plus taxes, and each account role receives exactly the amounts posted to its accounts |
| Drafts.DraftExactly | core/vericlose/application/actions.py:325-370 | a draft has the receipt to the bank role, fees and taxes to theirs if there are any, and all of it to the clearing role, each at the smallest account and citing the rows it comes from |
| Correction.MissingPosting | core/vericlose/reconciliation/rules/settlement.py:194-205 | a missing posting is reported exactly when there is no journal, and is the only reason exactly when gateway and bank side are sound |
| Correction.TheReceipt | core/vericlose/application/actions.py:316-323 | when the bank side is sound and the case cites one bank credit, that credit is the settlement's receipt |
| ErpReimport.ValidExactly | core/vericlose/adapters/base.py:160-185 | a file has no blocking issue if and only if every row can be read and no journal line comes twice |
| ErpReimport.ExtendedFileIsValid | core/vericlose/application/corrections.py:192-234 | appending tidy lines under a new journal id to a valid file gives a valid file |
| ErpReimport.CorrectedFileReads | core/vericlose/adapters/base.py:188-269 | reading the extended file under a new run gives the old events with new ids and lineage, then exactly the events of the appended lines |
| CorrectionImport.ImportedIsCorrected | core/vericlose/application/corrections.py:86-121 | what the corrected run imports is exactly every stored row again plus the drafted postings: nothing is lost or changed on the way through the file |
| Rerun.CorrectedBatchMirrors | core/vericlose/application/corrections.py:86-123 | importing all rows under a new run with the posted journal gives one accepted batch: the old rows renamed in the same order, plus the posted lines |
| CorrectionLoop.PostingProves | core/vericlose/application/corrections.py:192-234 | after its draft is posted, a settlement without journal is PROVED if and only if the missing posting was the only reason against it |
| CorrectionLoop.NothingElseMoves | core/vericlose/application/corrections.py:86-125 | every other settlement and every orphan keeps its rows, reasons, amount at risk and proof level |
| CorrectionRun.DraftReference | core/vericlose/application/actions.py:427-437 | the reference an action posts under is the settlement reference of its own case |
| CorrectionRun.PostedDraftCloses | core/vericlose/application/corrections.py:192-234 | over events: with every row again and the drafted lines posted, the settlement is PROVED exactly when the missing posting was its only reason, and nothing else changes |
| CorrectionImport.CorrectionClosesItsCase | core/vericlose/application/corrections.py:55-152 | through the file: append the drafted rows, read the file again with the other files unchanged; the import is valid, the settlement is PROVED exactly when the missing posting was its only reason, and every other proposal is unchanged |
| Readiness.ReadyExactly | core/vericlose/ingestion/validation.py:22-71 | no cross-source issue is raised if and only if all three sources are there, with one entity, one currency and dates within 45 days |
| Readiness.IssuesExactly | core/vericlose/ingestion/validation.py:22-71 | each cross-source issue is raised exactly when the rows call for it |
| Readiness.CorrectedImportIsReady | core/vericlose/application/corrections.py:108-123 | a ready run stays ready after a correction if and only if the posting date is within 45 days of every stored row |
| Readiness.DraftedDayFits | core/vericlose/application/actions.py:127-134 | which the date of a draft always is: it is the value date of a bank row of the case |
| PaddedAccounts.CorrectionClosesExactly | core/vericlose/application/corrections.py:55-152 | the loop when the policy lists accounts with padding: the corrected settlement becomes PROVED if and only if the missing posting was its only reason and each account role still receives its share once the file's reader has stripped the accounts; every other proposal keeps its rows, reasons, risk and level |
| PaddedAccounts.ClosedRolesSurvive | core/vericlose/reconciliation/policy.py:139-145 | the roles receive their shares whenever stripping takes no account out of its role or into another, as with tidy accounts or a role that lists an account both ways |
| PaddedAccounts.PaddedAccountsStayOpen | core/vericlose/reconciliation/policy.py:139-145 | in particular, when a policy lists its bank accounts with padding only, the corrected settlement is not PROVED, on any stored run |
| CorrectionExample.CorrectionProvesTheCase | core/vericlose/application/corrections.py:55-152 | the loop from start to finish on a concrete ready run with an ERP file: all premises of the correction theorem are met, the case is open before, the corrected run is ready and the case PROVED |
| CorrectionExample.PaddedAccountStaysOpen | core/vericlose/reconciliation/policy.py:139-145 | the same settlement under account ` 110000`: the missing posting is its only reason, and it stays open |
| RelatedCase.OnlyItsCaseIsRelated | core/vericlose/application/corrections.py:250-266 | exactly one case of the corrected run shares a gateway record with the corrected case: the one of the same settlement |
| RelatedCase.RelatedCaseIsFound | core/vericlose/application/corrections.py:176-189 | the correction reports on that case in whatever order cases are listed |
| RelatedCase.ReversalNeverClears | core/vericlose/application/actions.py:372-393 | under any policy, anything posted under a reference with several journals, such as a duplicate reversal, leaves it with several journals and not PROVED |
| ReversalExample.ReversalLeavesItOpen | core/vericlose/application/actions.py:372-393 | a concrete settlement posted twice: the reversal of its second journal is posted, all is imported again, and it still has several journals and is not PROVED |
| RunProtocol.RunStore.Import | core/vericlose/ingestion/service.py:159-199 | an import stores its three snapshots at once, or nothing when the run exists |
| RunRules.ImportExactly | core/vericlose/ingestion/service.py:159-199 | a new run is validated exactly when its files are ready and starts without results; one that exists is kept |
| RunProtocol.RunStore.Start | core/vericlose/application/run_reconciliation.py:47-66 | only a validated run of this policy starts, and starting takes it out of VALIDATED in the same transaction |
| RunRules.StartExactly | core/vericlose/application/run_reconciliation.py:47-66 | a run leaves VALIDATED for RECONCILING exactly when it is validated and was imported for this policy, by id or by versioned id; nothing else changes |
| RunProtocol.RunStore.Complete | core/vericlose/application/run_reconciliation.py:93-99 | decisions, exceptions, summary and COMPLETED are stored together, or a fault or key clash rolls all of it back |
| RunRules.CommitExactly | core/vericlose/application/run_reconciliation.py:68-99 | a completed run has exactly the decisions and exceptions of the kernel, and a summary that counts them, counts the clears and adds up what is at risk |
| RunProtocol.RunStore.MarkFailed | core/vericlose/application/run_reconciliation.py:131-143 | a run is marked failed exactly if it is still reconciling |
| RunProtocol.RunStore.Run | core/vericlose/application/run_reconciliation.py:45-128 | an undisturbed call ends COMPLETED with its results or FAILED without any, and does nothing when the guard refuses |
| CaseKeys.StorableWhenNamesDiffer | core/vericlose/infrastructure/duckdb/migrations/0001_initial.sql:57-69 | a run's result fits the primary keys if and only if the orphaned bank records, the orphaned journals and the settlements have different names |
| CaseKeys.RowNamesSuffice | core/vericlose/reconciliation/pipeline.py:106-118 | on rows alone: it fits whenever bank records, journals and settlement references are named apart |
| ClashExample.ClashIsNotStorable | core/vericlose/reconciliation/pipeline.py:106-118 | a concrete batch, bank record J and journal J, that the kernel accepts and the store refuses |
| RunProtocol.SummaryAddsUp | core/vericlose/reconciliation/pipeline.py:36-38 | with auto-clear enabled, cleared decisions plus exceptions are all decisions |
| RunInterleaving.EveryWorldIsSound | core/vericlose/application/run_reconciliation.py:47-143 | under any interleaving of imports, calls, failures, rollbacks and crashes, snapshots form legal paths and results are stored exactly for the completed runs |
| RunInterleaving.GuardPassesOnce | core/vericlose/application/run_reconciliation.py:47-66 | at most one call ever gets past the guard of a run |
| RunInterleaving.HistoryIsKept | core/vericlose/infrastructure/duckdb/repositories.py:120-143 | snapshots are only ever appended, and a completed or failed run never changes again |
| RunInterleaving.PathsMoveForward | core/vericlose/domain/runs.py:37-48 | a legal path of run states only moves forward, so no state comes twice |
| RunRules.StepsExactly | core/vericlose/domain/runs.py:37-48 | the allowed transitions, one by one |
| RunRules.EveryPathOccurs | core/vericlose/application/run_reconciliation.py:47-143 | under any interleaving a run has one of five histories: failed validation, validated, reconciling, completed or failed |
| RunInterleaving.StuckExactlyWhenUnheld | core/vericlose/application/run_reconciliation.py:131-143 | a reconciling run stays reconciling, whatever is called from now on, if and only if no call holds it any more; otherwise it can still be failed |
| RunInterleaving.CrashStrandsRun | core/vericlose/application/run_reconciliation.py:47-143 | an execution that gets there: import, start, and a crash of the only call |
| Actions.EssenceNeverChanges | core/vericlose/application/actions.py:183-210 | journal, evidence, identity, idempotency key and every field but the two texts are the same in all snapshots |
| Actions.TextsAreFinal | core/vericlose/application/actions.py:188-196 | once an action has left PROPOSED its texts are final and it never returns |
| Actions.ExportedAfterApproval | core/vericlose/domain/actions.py:20-31 | an exported action was approved in the snapshot before and is never changed again |
| ActionDesk.Desk.Propose | core/vericlose/application/actions.py:104-171 | one action per case: proposing again returns it, and a journal action without a template becomes a manual review |
| Approval.NewActionTable | core/vericlose/application/actions.py:117-154 | a new action asks for what the exception recommends, or a manual review when no template drafts the recommended journal, and carries the lines and texts that go with it |
| ActionDesk.Desk.Review | core/vericlose/application/actions.py:173-235 | a review is refused, is a repeat that changes nothing, or appends the edited or moved snapshot and its entry; edits reach the two texts of a proposed action only |
| Actions.ReviewTable | core/vericlose/application/actions.py:185-207 | an approval approves a proposed action, a rejection rejects it, any other verdict leaves it proposed, with permitted edits trimmed in; a later action takes no edits and repeats or refuses |
| Approval.ReviewIsNoted | core/vericlose/application/actions.py:207-235 | a review that is not refused is noted with verdict, reviewer and time unless it repeats the state; a snapshot is added by an approval, a rejection or an edit |
| Approval.ExportNeedsApproval | core/vericlose/application/actions.py:200-246 | over any sequence of calls: an exported action was approved in some review, and one that a review rejected is never exported |
| ActionDesk.Desk.Export | core/vericlose/application/actions.py:237-278 | an approved action is exported once with its receipt; exporting again returns the first receipt; receipts exist exactly for exported actions |
| Approval.ExportTable | core/vericlose/application/actions.py:237-278 | exporting gives the first receipt again, or a new one to an approved action, which becomes exported; anything else is refused and changes nothing |
| ActionDesk.Desk.Apply | core/vericlose/application/corrections.py:62-152 | an exported journal is applied once; applying again returns the first receipt and creates no run |
| Approval.ApplyTable | core/vericlose/application/corrections.py:62-152 | applying gives the first receipt again, or creates a run of a new name and a receipt exactly when its files validate and it completes; anything else is refused |
| ActionDesk.EveryDeskIsSound | core/vericlose/application/actions.py:104-278 | after any sequence of propose, review, export and apply calls: one action per case, legal histories, export receipts exactly for exported actions, correction receipts only for those |
| ActionDesk.NothingIsTakenBack | core/vericlose/infrastructure/duckdb/repositories.py:361-385 | over any sequence of calls snapshots, receipts, review entries and runs only accumulate |
| ActionDesk.ExportHappensOnce | core/vericlose/application/actions.py:237-258 | exporting again, after any calls in between, returns the first receipt and changes nothing |
| ActionDesk.ApplyHappensOnce | core/vericlose/application/corrections.py:79-85 | applying again, after any calls in between and whatever would become of it, returns the first receipt and creates no run |
| Matching.AssignPredictions | evaluation/evaluate.py:243-266 | the loop over sorted pairs is the greedy assignment, and the unmatched predictions are the rest in order |
| Matching.AssignmentIsGood | evaluation/evaluate.py:243-266 | the assignment is one to one, takes overlapping pairs only, cannot be extended, and its overlap is at least half of any matching's |
| Stability.AssignmentIsStable | evaluation/evaluate.py:243-266 | whenever a case and a prediction overlap, one of them is assigned in a pair that comes no later in the order: larger overlap, smaller union, then ids |
| Matching.ExactPredictionIsAssigned | evaluation/evaluate.py:247-262 | when cases are disjoint and predictions are disjoint, an exactly predicted case gets its exact prediction |
| Metrics.EvaluatePredictions | evaluation/evaluate.py:142-209 | the counting loops compute the reference counts of the assignment, which `Tallies.CountsMean` tells in numbers of cases |
| Tallies.CountsMean | evaluation/evaluate.py:142-209 | each count is a number of rows, cases or predictions told by members, proof level and treatment; the false clears are the auto-cleared predictions not assigned to a case that they clear exactly |
| Tallies.ClearsAreRightOrFalse | evaluation/evaluate.py:184-209 | clears are either right or false as long as no exact clear carries an exception |
| Metrics.CountsAreConsistent | evaluation/evaluate.py:184-209 | every count stays within its denominator, and correct clears plus false clears never exceed predicted clears |
| Metrics.RatesAreInRange | evaluation/metrics.py:21-68 | consistent counts stay consistent when seeds are added up, and no rate raises or leaves 0 to 10000 |
| Tallies.RatesMean | evaluation/metrics.py:40-68 | each of the five rates is its share in basis points, rounded down, with clears and recalls perfect and the others nothing when there is nothing to share |
| Normalization.Normalize | core/vericlose/adapters/base.py:188-269 | disposing of the rows one by one gives the reference result; a file-level blocker or a result its constructor refuses refuses the file |
| Normalization.EveryRowDisposedOnce | core/vericlose/ingestion/contracts.py:338-377 | each row has one disposition in order, normalized exactly when it reads and has no blocker; the result is accepted if and only if the events that went through have different ids |
| Normalization.DispositionTable | core/vericlose/adapters/base.py:203-262 | a row is quarantined under the codes that block it, each once, or else normalized, failed, or quarantined under its own code, by its reading |
| ErpImport.FindBatchIssues | core/vericlose/adapters/erp_gl.py:114-170 | grouping in a dictionary gives the duplicate and imbalance issues journal by journal, in order of first appearance |
| ErpImport.DuplicatesAreBlocked | core/vericlose/adapters/erp_gl.py:131-154 | the file check blocks exactly the rows whose journal line another row repeats |
| FileReading.RepeatedExactly | core/vericlose/adapters/erp_gl.py:131-154 | a line is repeated exactly when two readable rows of the file are that line of that journal |
| FileReading.UnbalancedAreFlagged | core/vericlose/adapters/erp_gl.py:155-169 | exactly the lines of journals that do not balance are flagged, without blocking them |
| ErpImport.AnyErpFileNormalizes | core/vericlose/adapters/erp_gl.py:114-170 | any ERP file with distinct row numbers normalizes to a result its constructor accepts |
| ErpImport.ControlTotalsAddUp | core/vericlose/adapters/erp_gl.py:214-227 | control totals add up to the amounts and the number of the events |
| Ledger.JournalOfRecord | core/vericlose/adapters/erp_gl.py:204-212 | grouping by record id recovers the journal each line was read from |
| Advice.ResolveRefs | core/vericlose/investigation/service.py:577-602 | resolves short references and full ids, or refuses when one is unknown or two name the same row |
| Advice.ReadJournal | core/vericlose/investigation/service.py:373-410 | the loop over the listed items computes the reference reading, refusing on the first bad line or an unbalanced journal |
| AdviceText.JournalExactly | core/vericlose/investigation/service.py:373-410 | a journal is attached exactly when the answer lists one: one line for each item in order, with its account, side, amount and rows, accepted and in balance |
| Advice.ValidatedIsSafe | core/vericlose/investigation/service.py:291-365 | an answer is rejected or becomes advice that cites distinct rows of the case, has a balanced journal exactly when it recommends one, needs approval, and claims certainty with at most 8000 basis points |
| AdviceText.AdviceExactly | core/vericlose/investigation/service.py:291-365 | advice is attached if and only if it says what the answer says: action, rows, amounts, journal and words, with a claim of certainty marked and capped |
| Investigation.Investigator.Investigate | core/vericlose/investigation/service.py:110-164 | asks the model once, a second time only after a rejected answer, and attaches the one result it returns |
| Investigation.InvestigationIsSafe | core/vericlose/investigation/service.py:119-164 | for any two answers a stored case gets exactly one safe result, unless the model fails in a way that is not caught |
| Investigation.InvestigationTable | core/vericlose/investigation/service.py:110-164 | which result is attached, for any two answers: the first or the retried answer, or the note for an absent or an invalid model, which keeps the policy action and cites all evidence |
| Investigation.KernelCasesCiteOwnRows | core/vericlose/investigation/service.py:513-532 | every exception of the kernel cites its rows once each, so the fall-back's constructor never raises |

## Left out

- Policy files with missing keys, on which look-ups raise `KeyError`: `Events.Policy` is a complete record.
- Payment references, raw fields and mapping versions of events.
- Rendering of expected and observed values as text: checks carry the structured value instead.
- Stage timings, logs, audit events, report and note wording, and review identifiers.
- Digests are injective here; a collision of truncated SHA-256 values is not modelled.
- Exponent notation, underscores between digits, NaN and infinities in numeric text, non-ASCII digits and white space, date parsing, and the reading and writing of CSV and XLSX files: cells arrive as text and posting dates as days.
- CorrectionImport.CorrectionClosesItsCase: the rows of the other files are taken to be read again as before, which is what importing unchanged bytes does; ERP files in another layout, which a correction refuses, are left out.
- Matching.AssignPredictions: with equal case and decision ids the original would go on to compare predictions and raise; ids are distinct here.
- The journal of a duplicate reversal is not drafted here; whatever it contains, `RelatedCase.ReversalNeverClears` applies.
- Concurrent reviews or exports of one action, and concurrent imports of one run: calls of `ActionDesk.Desk` are sequential and an import is one step.
- Field validation in constructors that types already give (text, enumerations, time zones, immutable tuples), and lineage hashes.
- The gateway and bank adapters' own row parsing: `Normalization` covers them for any outcome of reading a row.
- Detection scores, synthetic data, delivery routes, schemas, user interface, settings and the HTTP model client, which is an arbitrary answer in `Investigation.Answer`.
- The scenario and confusion tables of the evaluator.
