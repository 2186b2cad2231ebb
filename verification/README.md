# Escrow platform: a verified model

The repository runs an escrow service: deals are agreed in a mini-app, funded in USDT on TON or Polygon,
and settled by contracts, with a user service that keeps quotes, confirmations, disputes and reports of scammers.
This project models the parts of it whose correctness spans many steps, and proves what they promise.

| module | models |
|---|---|
| `Deployment` | the deployment script that survives a crash between any two of its lines: checkpoint file, process and chain |
| `SettlementGate` | the tables, constraints and triggers that decide which deals can become funded |
| `TonCells`, `TonJettonEscrow` | the cell trees and message bodies that commit a deal on TON, with matching decoders |
| `TlCodec` | the hand-written codec of block signature sets |
| `Decimal` | parsing an amount into atomic units and printing it |
| `ReleaseApproval`, `StringOrder` | threshold approval of a release and the authorisation that follows it |
| `AntiScam`, `ScamText` | complaints, the automatic threshold, moderation and the publish queue |
| `ArbitratorSelection` | choosing the least loaded arbitrator, and how disputes move on and come back |
| `EscrowFunding`, `DisputeSplit` | the funding call that can be repeated after an interruption, against the escrow contract and its division of a disputed balance |
| `Outcomes` | `Option` and `Result` |

Code that works by changing things is modelled by classes and loops (`Deployer`, `Database`, `Writer`, `Reader`,
`Store`, `Desk`, `Relay`); code made of expressions by functions.

## How runs are modelled

In `Deployment` and `EscrowFunding` the method `Gap` stands wherever the script awaits. Anything can happen in it:
transactions are mined or revert, other parties act, the checkpoint file is lost or replaced, the process dies.
The flags `calm` and `quiet` select the runs in which nothing of that happens; what is proved under them is that an
undisturbed run completes. In a quiet call only the transactions it waits for are mined. `Operate` is any number of runs or calls with anything in between. In `AntiScam`, `Run` is any
sequence of states whose steps are what the operations are proved to do.

## How operations are specified

An operation is specified on the fields it reads and writes and on the functions of its platform, and not with the
predicates its body decides by. What a body decides by is tied to that by lemmas that end in `Iff`: `OwnFileIff` for the
deployment's file, `AgreedByIff`, `PointsToOwnIff` and `QuoteRowIff` for the tables, `InputsReadIff`, `EntryReadIff` and
`FullCandidateReadIff` for releases, `EncodableIff` for the codec; and for TON by the lemmas that end in `Accepted`.

## What turned out not to hold

- The funding gate never compares the terms, network, chain or asset of a deal with those of the quote it points to.
  `SettlementGate.QuoteMayDisagree` gives a funded deal on TON whose quote is for Polygon; `SettlementGate.TermsAgreeIff`
  says exactly when the two agree.
- The buyer and the seller of a funded deal are not frozen: every native deal funded through the gate can be given others, who
  have not confirmed
  (`SettlementGate.PartiesMayChange`). Either of them is one who confirmed exactly when it is still the one of the moment of
  funding (`SettlementGate.PresentPartiesConfirmedIff`).
- A deal inserted already funded meets no gate, because the trigger is on UPDATE only. It is accepted exactly when it names
  no quote (`SettlementGate.InsertMeetsNoGate`), and the funded native deals without confirmations are exactly those inserted so
  (`SettlementGate.FundedDealIsConfirmed`).
- Repeating the funding call can debit the relay a second time. Undisturbed, exactly when the escrow has expired and been
  emptied by a rescue (`EscrowFunding.ExpiredDebitsTwice`, `EscrowFunding.DebitsAgainIff`). Disturbed, also when the escrow is
  cancelled and emptied between its two reads (`EscrowFunding.CancelledMidCall`, `EscrowFunding.DebitsAgainMidCallIff`). And
  begun while an earlier transfer is still waiting to be mined, exactly when the relay can pay both
  (`EscrowFunding.PendingTransferIsRepeated`, `EscrowFunding.TwoDebitsIff`).
- Selecting an arbitrator below the limit does not keep everybody within it: an approved appeal reopens a decided dispute
  without looking at its arbitrator's load (`ArbitratorSelection.AppealPassesLimit`). `ArbitratorSelection.TakesIff`,
  `ArbitratorSelection.AppealWithinIff` and `ArbitratorSelection.RunWithinIff` say exactly when the limit is kept.
- The deployment script reads the amount to mint on every run. A rerun with a larger amount, once the mint is on record,
  finishes without minting the difference (`Deployment.Deployer.RerunWithMore`); `Deployment.Deployer.RunScript` says exactly when the relay ends with the amount
  of the run that finishes.
- The funding call reports a cancelled escrow as already funded (`EscrowFunding.CancelledCountsAsFunded`).
- A printed negative amount is not accepted back; every printed non-negative one is (`Decimal.ParseOfPrintAccepts`).
- The comment on arbitrator selection speaks of active profiles only; the code also demands that they are available, and
  the model follows the code.

## Model

| member | source | states |
|---|---|---|
| Deployment.PlannedContracts | contracts/scripts/deploy-amoy-test.ts:112-120 | the planned address of contract k is the one the deployer's nonce `initial + k` creates |
| Deployment.BlankSteps | contracts/scripts/deploy-amoy-test.ts:121-147 | step k has label k, nonce `initial + k`, the planned address if it deploys, and no record yet |
| Deployment.OwnFileIff | contracts/scripts/deploy-amoy-test.ts:151-170 | a file passes exactly when its schema version is 1, chain, deployer and relay are the plan's, its initial nonce is 0, and each of its six contracts is the address that the deployer's nonce of that number creates |
| Deployment.PendingIsLogLength | contracts/scripts/deploy-amoy-test.ts:202-210 | when submitted nonces are 0, 1, 2, ... the pending transaction count is the number of submitted transactions |
| Deployment.AtMostOneSend | contracts/scripts/deploy-amoy-test.ts:292-300 | in every reachable chain two submitted transactions with one nonce are the same one, and only the ten steps' nonces are used |
| Deployment.MintedExactly | contracts/scripts/deploy-amoy-test.ts:410-421 | nothing but the mint step mints, and it mints exactly the amount it was sent with |
| Deployment.RelayBalanceExact | contracts/scripts/deploy-amoy-test.ts:410-421 | the relay holds exactly the amount the mint was sent with once that took effect, and nothing before |
| Deployment.CodeIffStepDone | contracts/scripts/deploy-amoy-test.ts:273-290 | code is at a planned address exactly when that deployment step took effect, so recovering from code is sound |
| Deployment.RoleIffStepDone | contracts/scripts/deploy-amoy-test.ts:356-375 | a role is held exactly when its grant step took effect, so recovering from the role is sound |
| Deployment.RelayRoleIffFactory | contracts/scripts/deploy-amoy-test.ts:405-408 | the relay role is held exactly when the factory step took effect, so the check after the grants never fails |
| Deployment.CheckpointStaysTrue | contracts/scripts/deploy-amoy-test.ts:258-308 | what a checkpoint says of every step stays true however the chain continues |
| Deployment.RevertedStepHasNoEvidence | contracts/scripts/deploy-amoy-test.ts:258-308 | a reverted step never has evidence in a true checkpoint |
| Deployment.Deployer.constructor | contracts/scripts/deploy-amoy-test.ts:198-223 | the initial world: no file, empty chain, the invariant holds |
| Deployment.Deployer.SaveCheckpoint | contracts/scripts/deploy-amoy-test.ts:84-92 | the file is replaced as a whole by the process's checkpoint |
| Deployment.Deployer.Gap | contracts/scripts/deploy-amoy-test.ts:254-309 | whatever happens between two lines keeps the invariant and submits nothing |
| Deployment.Deployer.ReplaceFile | contracts/scripts/deploy-amoy-test.ts:198-243 | any file at all that is not the plan's own can come to lie on the disk |
| Deployment.Deployer.Wait | contracts/scripts/deploy-amoy-test.ts:304-306 | the process sees the receipt of its own transaction or dies waiting |
| Deployment.Deployer.Send | contracts/scripts/deploy-amoy-test.ts:300-301 | exactly one transaction is appended, with the step's nonce and payload |
| Deployment.Deployer.SettleRecorded | contracts/scripts/deploy-amoy-test.ts:258-271 | a recorded hash is settled by its receipt alone: evidence, refusal while pending, refusal when reverted; nothing is sent |
| Deployment.Deployer.CheckNonces | contracts/scripts/deploy-amoy-test.ts:292-299 | passes only if latest and pending counts both equal the step's nonce, and refuses only if the step was submitted before |
| Deployment.Deployer.SendAndRecord | contracts/scripts/deploy-amoy-test.ts:300-303 | one transaction is sent; unless the process dies first, the file then holds its hash |
| Deployment.Deployer.Await | contracts/scripts/deploy-amoy-test.ts:304-308 | success writes the evidence of exactly this transaction; otherwise the checkpoint is unchanged and the file holds the hash |
| Deployment.Deployer.Transact | contracts/scripts/deploy-amoy-test.ts:300-308 | a transaction is sent, recorded before it is awaited, and its success becomes evidence |
| Deployment.Deployer.SendStep | contracts/scripts/deploy-amoy-test.ts:292-308 | a step is sent at most once, recorded before it is awaited, and only if the nonce guard passes |
| Deployment.Deployer.RecoverOrSend | contracts/scripts/deploy-amoy-test.ts:273-308 | code at the planned address is taken as evidence, otherwise the step is sent; with nothing on record it succeeds only when the step is next or deploys a contract |
| Deployment.Deployer.ReconcileStep | contracts/scripts/deploy-amoy-test.ts:254-309 | evidence costs nothing; success is evidence in memory and file; only this step's record changes; every refusal has its reason; only a crash right after the broadcast leaves a sent transaction unrecorded; left alone it succeeds exactly when the step is next or can be recovered |
| Deployment.Deployer.Recover | contracts/scripts/deploy-amoy-test.ts:276-289 | evidence recovered from the chain is written only for a step that took effect |
| Deployment.Deployer.DeployOrAttach | contracts/scripts/deploy-amoy-test.ts:311-327 | afterwards the contract stands at its planned address; the missing-code error is never thrown |
| Deployment.Deployer.GrantRoleStep | contracts/scripts/deploy-amoy-test.ts:356-383 | afterwards the role is held and the step has evidence |
| Deployment.Deployer.MintStep | contracts/scripts/deploy-amoy-test.ts:410-434 | the run that sends the mint decides its amount; left alone the excess error is thrown exactly when the mint took effect with more than this run is to mint, and the step succeeds exactly when the mint was not sent, or with this amount, or with a smaller one that is on record |
| Deployment.Deployer.DeployContracts | contracts/scripts/deploy-amoy-test.ts:329-353 | afterwards all six deployments have evidence |
| Deployment.Deployer.ConfigureContracts | contracts/scripts/deploy-amoy-test.ts:386-434 | afterwards all ten steps have evidence |
| Deployment.Deployer.Boot | contracts/scripts/deploy-amoy-test.ts:198-243 | refuses as foreign exactly the files that differ from the plan in one of the identity fields or addresses, named one by one; goes on only with its own file or an account that never sent anything; left alone it goes on exactly then |
| Deployment.Deployer.EvidencedIsComplete | contracts/scripts/deploy-amoy-test.ts:329-434 | evidence of all ten steps means exactly ten transactions on chain, all in effect, contracts at planned addresses, roles held, and the relay holding what the mint was sent with |
| Deployment.Deployer.Proceed | contracts/scripts/deploy-amoy-test.ts:329-434 | from its checkpoint on, a run that finishes is complete, and one left alone finishes exactly when nothing is pending or reverted and the mint does not conflict |
| Deployment.Deployer.RunScript | contracts/scripts/deploy-amoy-test.ts:171-434 | a file that differs in one of the fields, named one by one, is refused and nothing is sent; finishing means completeness; the relay then holds this run's amount if and only if the mint was not sent before or with that amount; without its file a deployment that sent anything is refused; a rerun left alone completes if and only if nothing is pending or reverted, the file is intact (or nothing was ever sent) and the mint does not conflict |
| Deployment.Deployer.RerunWithMore | contracts/scripts/deploy-amoy-test.ts:410-434 | after a finished deployment whose mint is on record, a run with a larger amount finishes and mints nothing |
| Deployment.Deployer.Operate | contracts/scripts/deploy-amoy-test.ts:171-434 | over any number of crashing runs, each with an amount of its own: one transaction per nonce, in step order, and exactly the amount of one of the runs minted, or nothing |
| Deployment.Deployer.StepsDone | contracts/scripts/deploy-amoy-test.ts:258-308 | evidence of the first k steps implies that they all took effect |
| SettlementGate.AddConfirmation | services/user-service/src/migrations/1718000000000-FreezeMultichainDomainContract.ts:74-107 | a new confirmation disturbs neither uniqueness nor any funded deal |
| SettlementGate.QuoteRowIff | services/user-service/src/migrations/1718000000000-FreezeMultichainDomainContract.ts:18-62 | the checks of a quote row, column by column: digests, chain, network with asset and contract, and amounts that are printed numbers which balance |
| SettlementGate.ConfirmationRowIff | services/user-service/src/migrations/1718000000000-FreezeMultichainDomainContract.ts:74-96 | the checks of a confirmation row, column by column |
| SettlementGate.PointsToOwnIff | services/user-service/src/migrations/1718000000000-FreezeMultichainDomainContract.ts:115-134 | a pointer passes exactly when it names no quote, or a quote of its own deal with that quote's version, hash and fee model |
| SettlementGate.AgreedByIff | services/user-service/src/migrations/1718000000000-FreezeMultichainDomainContract.ts:167-196 | the query for a party's confirmation finds one exactly when some row has the deal, the party, its user and all eight further columns of the deal, none of them NULL |
| SettlementGate.QuoteKeepsPointers | services/user-service/src/migrations/1718000000000-FreezeMultichainDomainContract.ts:115-134 | a new quote changes neither what a pointer names nor what was frozen |
| SettlementGate.AddQuote | services/user-service/src/migrations/1718000000000-FreezeMultichainDomainContract.ts:18-72 | a new quote disturbs no pointer, no frozen quote and no other quote's version or hash |
| SettlementGate.AddDeal | services/user-service/src/migrations/1718000000000-FreezeMultichainDomainContract.ts:115-134 | writing a deal whose pointer is complete and references its own quote keeps every pointer sound |
| SettlementGate.RemoveDeal | services/user-service/src/migrations/1718000000000-FreezeMultichainDomainContract.ts:20-21 | only an unreferenced deal may go, and nothing dangles afterwards |
| SettlementGate.Witnesses | services/user-service/src/migrations/1718000000000-FreezeMultichainDomainContract.ts:162-201 | whatever passes the gate has a matching confirmation by its buyer and one by its seller |
| SettlementGate.UpdateKeepsGate | services/user-service/src/migrations/1718000000000-FreezeMultichainDomainContract.ts:136-211 | an allowed update keeps the funding gate for every deal, users included, also when funding marks are cleared and set again |
| SettlementGate.UpdateKeepsFrozen | services/user-service/src/migrations/1718000000000-FreezeMultichainDomainContract.ts:143-160 | while a deal stays funded each of its eleven columns and its quote row stay those of the moment it became funded |
| SettlementGate.FundedDealIsConfirmed | services/user-service/src/migrations/1718000000000-FreezeMultichainDomainContract.ts:162-201 | a funded native deal has exactly one confirmation of its quote by each of those who were its buyer and seller when it became funded, matching its quote, terms, network, chain and asset, if and only if it was not inserted funded |
| SettlementGate.FundedEconomics | services/user-service/src/migrations/1718000000000-FreezeMultichainDomainContract.ts:54-72 | the quote of such a deal is the row both parties confirmed by version and hash; total funding minus seller receipt is the sum of the fees; the receipt is not negative |
| SettlementGate.TermsAgreeIff | services/user-service/src/migrations/1718000000000-FreezeMultichainDomainContract.ts:174-196 | a funded deal has its quote's terms if and only if the buyer's (equally the seller's) confirmation copied them |
| SettlementGate.PresentPartiesConfirmedIff | services/user-service/src/migrations/1718000000000-FreezeMultichainDomainContract.ts:143-160 | the present buyer (seller) of a funded deal is one who confirmed if and only if it is the buyer (seller) it had when it became funded |
| SettlementGate.PartiesMayChange | services/user-service/src/migrations/1718000000000-FreezeMultichainDomainContract.ts:143-160 | every such deal can be given another buyer and seller by an update that passes every check, and those have not confirmed |
| SettlementGate.QuoteMayDisagree | services/user-service/src/migrations/1718000000000-FreezeMultichainDomainContract.ts:162-201 | a concrete deal on TON that every check lets be funded on a quote for Polygon |
| SettlementGate.InsertMeetsNoGate | services/user-service/src/migrations/1718000000000-FreezeMultichainDomainContract.ts:206-211 | an inserted deal is accepted, funded or not, if and only if it is new and names no quote |
| SettlementGate.InsertedUnconfirmed | services/user-service/src/migrations/1718000000000-FreezeMultichainDomainContract.ts:206-211 | a concrete deal, funded at insertion, for which no confirmations could ever be the required ones |
| SettlementGate.Database.constructor | services/user-service/src/migrations/1718000000000-FreezeMultichainDomainContract.ts:18-96 | the empty tables satisfy every invariant |
| SettlementGate.Database.InsertDeal | services/user-service/src/migrations/1718000000000-FreezeMultichainDomainContract.ts:115-134 | accepted exactly when the pointer is complete and references a quote of the deal; a deal inserted funded is recorded as ungated |
| SettlementGate.Database.InsertQuote | services/user-service/src/migrations/1718000000000-FreezeMultichainDomainContract.ts:18-62 | accepted exactly when id, version and hash are new, the deal exists and every column passes its check; all invariants kept |
| SettlementGate.Database.InsertConfirmation | services/user-service/src/migrations/1718000000000-FreezeMultichainDomainContract.ts:74-96 | accepted exactly when deal and quote exist, the party has not confirmed the quote and every column passes its check; all invariants kept |
| SettlementGate.Database.Gate | services/user-service/src/migrations/1718000000000-FreezeMultichainDomainContract.ts:136-204 | the trigger's branches raise exactly when one of eleven columns, named one by one, changes while funded, or a native deal becomes funded without a quote, its buyer's or its seller's exact confirmation |
| SettlementGate.Database.UpdateDeal | services/user-service/src/migrations/1718000000000-FreezeMultichainDomainContract.ts:136-211 | accepted exactly by gate and constraints; of a funded deal eleven columns, named one by one, never change, and an update of any of them is refused; invariants kept; what is frozen is what the deal, its buyer and its seller were when it became funded; a deal escapes as ungated only while it stays funded |
| SettlementGate.Database.DeleteDeal | services/user-service/src/migrations/1718000000000-FreezeMultichainDomainContract.ts:20-21 | refused exactly when quotes or confirmations reference the deal; invariants kept |
| SettlementGate.Database.Execute | services/user-service/src/migrations/1718000000000-FreezeMultichainDomainContract.ts:67-107 | any statement on any table keeps every invariant and every stored quote and confirmation; a rewrite that meets one is refused; what is refused changes nothing |
| SettlementGate.Database.Operate | services/user-service/src/migrations/1718000000000-FreezeMultichainDomainContract.ts:18-211 | over any statements every quote and confirmation ever stored stays as it was, and exactly the gated deals that were not inserted funded are confirmed once by each of their parties at funding |
| TonCells.CoinsRoundTrip | contracts-ton/wrappers/TonJettonEscrow.ts:250-260 | a variable-length amount below 2^120 is read back, whatever follows |
| TonCells.AddressRoundTrip | contracts-ton/wrappers/TonJettonEscrow.ts:222-241 | a standard address is read back, whatever follows, also with a negative workchain |
| TonCells.FieldsRoundTrip | contracts-ton/wrappers/TonJettonEscrow.ts:222-298 | any sequence of fields is read back in order, leaving exactly what follows |
| TonCells.FirstFieldFirst | contracts-ton/wrappers/TonJettonEscrow.ts:339-345 | the first stored field is the first bits, so the opcode can be read before the shape is known |
| TonCells.BitsSize | contracts-ton/wrappers/TonJettonEscrow.ts:222-298 | a layout takes exactly the sum of its fields' sizes |
| TonCells.SizeBound | contracts-ton/wrappers/TonJettonEscrow.ts:222-298 | the bits of a layout are bounded by the sum of its fields' largest sizes |
| TonCells.EndCellIff | contracts-ton/wrappers/TonJettonEscrow.ts:222-298 | a cell is made exactly when every value is in range and there are at most 1023 bits and 4 references |
| TonCells.CellRoundTrip | contracts-ton/wrappers/TonJettonEscrow.ts:222-298 | a layout within 1023 bits and 4 references always makes a cell, from which the fields are read back |
| TonJettonEscrow.AssertDistinctAddresses | contracts-ton/wrappers/TonJettonEscrow.ts:146-158 | reports the first equal pair in loop order, and none exactly when all are distinct |
| TonJettonEscrow.ParseRoundTrip | contracts-ton/wrappers/TonJettonEscrow.ts:222-298 | the cell of a fixed layout parses back to its fields and references |
| TonJettonEscrow.RolesRoundTrip | contracts-ton/wrappers/TonJettonEscrow.ts:222-232 | the four roles are recovered from the roles cell and the cell nested in it |
| TonJettonEscrow.FundingPartsRoundTrip | contracts-ton/wrappers/TonJettonEscrow.ts:234-260 | authorities, asset and the five amounts are recovered from their cells |
| TonJettonEscrow.FundingRoundTrip | contracts-ton/wrappers/TonJettonEscrow.ts:262-274 | the funding commitment of a valid config decodes to all its fields through four references |
| TonJettonEscrow.ConfigRoundTrip | contracts-ton/wrappers/TonJettonEscrow.ts:276-286 | the config cell of a valid config decodes to that config |
| TonJettonEscrow.DataRoundTrip | contracts-ton/wrappers/TonJettonEscrow.ts:288-298 | the data cell of a valid config decodes to that config, and every cell in it fits |
| TonJettonEscrow.DataCellCommits | contracts-ton/wrappers/TonJettonEscrow.ts:160-298 | the data cell exists exactly for valid configs, and equal data cells mean equal configs |
| TonJettonEscrow.ConfigAccepted | contracts-ton/wrappers/TonJettonEscrow.ts:160-220 | a data cell is built exactly for configs with numbers in range, deadlines that follow each other, payouts and refunds that each add up to what the buyer pays, and seven different addresses |
| TonJettonEscrow.SealRoundTrip | contracts-ton/wrappers/TonJettonEscrow.ts:300-346 | a seal body is built exactly for a valid seal, fits, carries its opcode and decodes to the seal |
| TonJettonEscrow.SealAccepted | contracts-ton/wrappers/TonJettonEscrow.ts:300-346 | a seal is built exactly when its numbers are in range and, for a config, that is accepted, its query is still to come, the code hash is the pinned one and the wallet is none of the roles |
| TonJettonEscrow.NotificationRoundTrip | contracts-ton/wrappers/TonJettonEscrow.ts:348-402 | by reference a valid notification is always built, inline exactly when the payload fits what the head leaves; both forms decode to the same notification and payload |
| TonJettonEscrow.NotificationAccepted | contracts-ton/wrappers/TonJettonEscrow.ts:348-402 | a notification is built exactly when it is in range and fits and, for a config, query, amount, sender and payload are the expected ones |
| TonJettonEscrow.QueryRoundTrip | contracts-ton/wrappers/TonJettonEscrow.ts:416-419 | built exactly for queries in range, fits, decodes to opcode and query |
| TonJettonEscrow.CommandRoundTrip | contracts-ton/wrappers/TonJettonEscrow.ts:404-434 | built exactly for valid commands, fits, decodes to opcode and command |
| TonJettonEscrow.CommandAccepted | contracts-ton/wrappers/TonJettonEscrow.ts:404-434 | query and command bodies are built exactly when opcode, query, settlement and leg queries are in range |
| TonJettonEscrow.NumbersAccepted | contracts-ton/wrappers/TonJettonEscrow.ts:436-521 | the other bodies need what a command needs, attempts below 2^32, awards below 2^120 and positive evidence |
| TonJettonEscrow.ResolutionRoundTrip | contracts-ton/wrappers/TonJettonEscrow.ts:436-452 | built exactly for valid commands with awards in range, decodes to all of them |
| TonJettonEscrow.ReconcileRoundTrip | contracts-ton/wrappers/TonJettonEscrow.ts:454-492 | built exactly when identity, ranges and masks are valid, decodes to the whole reconciliation |
| TonJettonEscrow.ReconciliationAccepted | contracts-ton/wrappers/TonJettonEscrow.ts:454-492 | a reconciliation is built exactly when its numbers are in range and each of the three legs, if active, is confirmed or failed, never both, and otherwise neither |
| TonJettonEscrow.RetryRoundTrip | contracts-ton/wrappers/TonJettonEscrow.ts:494-506 | built exactly for valid retries, decodes to command and previous attempt |
| TonJettonEscrow.FinalizeRoundTrip | contracts-ton/wrappers/TonJettonEscrow.ts:508-521 | built exactly for valid finalisations, decodes to all fields |
| TonJettonEscrow.BodySays | contracts-ton/wrappers/TonJettonEscrow.ts:334-521 | every body that is built fits, starts with its opcode and decodes in its own shape to its message |
| TonJettonEscrow.OpcodesAreNames | contracts-ton/wrappers/TonJettonEscrow.ts:35-49 | each opcode is the four letters of its name, the notification's that of TEP-74 |
| TonJettonEscrow.MessageRoundTrip | contracts-ton/wrappers/TonJettonEscrow.ts:557-720 | one decoder, dispatching on the opcode alone, recovers any message the sender methods send |
| TonJettonEscrow.BodiesDiffer | contracts-ton/wrappers/TonJettonEscrow.ts:334-521 | bodies with different opcodes never coincide, and equal bodies that are sent carry equal messages |
| TlCodec.Int32RoundTrip | services/user-service/scripts/capture-ton-proof-fixture.ts:73-74 | a signed 32-bit value, such as a tag after its wrap, is read back, whatever follows |
| TlCodec.BufferRoundTrip | services/user-service/scripts/capture-ton-proof-fixture.ts:281-300 | a buffer of any length below 2^24 is read back with its padding, and takes a multiple of four bytes |
| TlCodec.ConcatRoundTrip | services/user-service/scripts/capture-ton-proof-fixture.ts:258-300 | a list of anything is read back whenever its elements are, for any element codec |
| TlCodec.SignatureListRoundTrip | services/user-service/scripts/capture-ton-proof-fixture.ts:258-300 | any number of signatures is read back |
| TlCodec.VectorRoundTrip | services/user-service/scripts/capture-ton-proof-fixture.ts:258-300 | a counted vector of signatures is read back |
| TlCodec.OrdinaryRoundTrip | services/user-service/scripts/capture-ton-proof-fixture.ts:258-300 | an ordinary signature set is read back |
| TlCodec.SimplexRoundTrip | services/user-service/scripts/capture-ton-proof-fixture.ts:258-300 | a simplex signature set is read back, all six fields |
| TlCodec.SetRoundTrip | services/user-service/scripts/capture-ton-proof-fixture.ts:256-301 | decoding an encoded set followed by any bytes gives the set and leaves exactly those bytes |
| TlCodec.PrefixFree | services/user-service/scripts/capture-ton-proof-fixture.ts:256-301 | no encoding is a proper prefix of another, so a stream of sets is read in one way only |
| TlCodec.EncodableIff | services/user-service/scripts/capture-ton-proof-fixture.ts:281-300 | exactly what can be encoded: signed 32-bit numbers, 256-bit identifiers, byte strings below 2^24 |
| TlCodec.OrdinaryHeader | services/user-service/scripts/capture-ton-proof-fixture.ts:281-288 | an encoded ordinary set begins with its constructor, hash, sequence number and the count of its signatures, each in four bytes, least significant first |
| TlCodec.SimplexHeader | services/user-service/scripts/capture-ton-proof-fixture.ts:289-297 | an encoded simplex set likewise, with sequence number before hash |
| TlCodec.Writer.WriteBuffer | services/user-service/scripts/capture-ton-proof-fixture.ts:281-300 | the write buffer grows by exactly the buffer's framing, refused from 2^24 bytes |
| TlCodec.Writer.WriteVector | services/user-service/scripts/capture-ton-proof-fixture.ts:281-300 | the loop appends exactly count and signatures, refusing what cannot be encoded |
| TlCodec.Writer.EncodeOrdinary | services/user-service/scripts/capture-ton-proof-fixture.ts:281-288 | succeeds exactly on encodable values and appends exactly their bytes |
| TlCodec.Writer.EncodeSimplex | services/user-service/scripts/capture-ton-proof-fixture.ts:289-297 | succeeds exactly on encodable values and appends exactly their bytes |
| TlCodec.Writer.Encode | services/user-service/scripts/capture-ton-proof-fixture.ts:281-300 | succeeds exactly on encodable values and appends exactly their bytes |
| TlCodec.Reader.ReadBuffer | services/user-service/scripts/capture-ton-proof-fixture.ts:258-280 | advances the cursor over exactly one framed buffer, or fails |
| TlCodec.Reader.ReadVector | services/user-service/scripts/capture-ton-proof-fixture.ts:258-280 | the loop reads as many signatures as counted, or fails |
| TlCodec.Reader.ReadOrdinary | services/user-service/scripts/capture-ton-proof-fixture.ts:258-268 | reads the fields in order and stops right behind them |
| TlCodec.Reader.ReadSimplex | services/user-service/scripts/capture-ton-proof-fixture.ts:268-278 | reads the fields in order and stops right behind them |
| TlCodec.Reader.Decode | services/user-service/scripts/capture-ton-proof-fixture.ts:258-280 | an encoded value is decoded and the cursor stops right behind it |
| Decimal.ToStringBigInt | mini-app/src/utils/tonLinks.ts:36-39 | printing a parsed digit string removes its leading zeros and nothing else |
| Decimal.BigIntToString | mini-app/src/utils/tonLinks.ts:36-39 | a printed number reads back as itself |
| Decimal.BigIntConcat | mini-app/src/utils/tonLinks.ts:36-39 | the value of two digit strings put together is that of the first, scaled, plus the second |
| Decimal.StripThenPad | mini-app/src/utils/tonLinks.ts:36-39 | padding a fraction back to its length undoes the removal of trailing zeros |
| Decimal.ParseOfPrint | mini-app/src/pages/AdminPage.tsx:26-36 | parsing the printed form of any digit string, with any number of decimals, gives the string without leading zeros |
| Decimal.ParseRefusesNegative | mini-app/src/utils/tonLinks.ts:27-34 | the printed form of a negative amount is refused |
| Decimal.ParseOfPrintAccepts | mini-app/src/utils/tonLinks.ts:27-34 | a printed amount is accepted back if and only if it was not negative |
| Decimal.UnitsOfAmount | mini-app/src/utils/tonLinks.ts:27-40 | the units of an accepted amount are its whole part followed by its padded fraction, without leading zeros |
| Decimal.PrintOfParse | mini-app/src/utils/tonLinks.ts:27-40 | printing the units of any accepted amount gives the amount's canonical decimal form |
| Decimal.ParseInjective | mini-app/src/utils/tonLinks.ts:27-40 | amounts with equal units have equal canonical forms |
| ReleaseApproval.MapExtends | contracts-ton/scripts/verify-release-approval.ts:208-236 | adding a new signer to the map keeps it the map of the policy read so far |
| ReleaseApproval.MapDecides | contracts-ton/scripts/verify-release-approval.ts:252-306 | looking an enabled signer up in the map is looking for it in the policy |
| ReleaseApproval.MapEnabled | contracts-ton/scripts/verify-release-approval.ts:237-242 | the enabled entries of the map are the enabled signers of the policy |
| ReleaseApproval.EntriesSnoc | contracts-ton/scripts/verify-release-approval.ts:252-306 | one more entry keeps the bundle good if and only if it is a valid signature by a signer not seen before |
| ReleaseApproval.ReadSigners | contracts-ton/scripts/verify-release-approval.ts:208-236 | the loop succeeds exactly when signers are well formed with readable keys and unique ids, and gives exactly their map |
| ReleaseApproval.VerifyEntry | contracts-ton/scripts/verify-release-approval.ts:252-306 | accepts exactly a valid signature by an enabled signer not seen before |
| ReleaseApproval.VerifyEntries | contracts-ton/scripts/verify-release-approval.ts:252-306 | the loop accepts exactly the bundles whose entries are valid signatures by distinct enabled signers, and lists those signers |
| ReleaseApproval.Verify | contracts-ton/scripts/verify-release-approval.ts:205-318 | succeeds exactly when policy, bindings, entries and thresholds are good; the result is the sorted list of the bundle's signers |
| ReleaseApproval.VerifyReleaseApproval | contracts-ton/scripts/verify-release-approval.ts:187-318 | from the bytes of the three files: it succeeds exactly when there is evidence, told on the files and the platform's own functions alone, and gives that; every named signer has signed, and one entry that does not verify means refusal; what it emits is parsed unchanged by the second stage |
| ReleaseApproval.PayloadInjective | contracts-ton/scripts/verify-release-approval.ts:177-185 | the signed text determines the policy and the candidate digest |
| ReleaseApproval.InputsReadIff | contracts-ton/scripts/verify-release-approval.ts:82-149 | the three inputs are read exactly when the files say, member by member, what candidate, policy and bundle must say, and are then what they say |
| ReleaseApproval.EntryReadIff | contracts-ton/scripts/verify-release-approval.ts:252-306 | an entry is good exactly when it is, in canonical Base64, 64 bytes that the platform verifies as a signature of the text under the key it reads for an enabled signer of that name |
| ReleaseApproval.BackedIff | contracts-ton/scripts/verify-release-approval.ts:205-306 | signers and entries are good, and enough, exactly when all are signers under different names and every entry is signed by another of the enabled ones |
| ReleaseApproval.ApprovedAreSigned | contracts-ton/scripts/verify-release-approval.ts:252-318 | whoever evidence names has signed this policy and this candidate, and every entry of the bundle is such a signature by a listed name |
| ReleaseApproval.EvidenceIsApproval | contracts-ton/scripts/verify-release-approval.ts:308-318 | the evidence lists, strictly increasing, a permutation of the bundle's signers, at least the threshold of two, each with an entry that the platform verifies as its signature of policy and candidate |
| ReleaseApproval.SignerListIff | contracts-ton/scripts/authorize-deployment.ts:144-160 | accepted exactly for strictly increasing identifier lists of length 1 to 256, and returned unchanged |
| ReleaseApproval.CandidateStagesAgree | contracts-ton/scripts/authorize-deployment.ts:162-262 | every candidate the second stage accepts is read the same by the first |
| ReleaseApproval.FullCandidateReadIff | contracts-ton/scripts/authorize-deployment.ts:162-262 | a complete candidate, member by member, with toolchains, artifacts and sources |
| ReleaseApproval.ParsedInputsOk | contracts-ton/scripts/verify-release-approval.ts:82-149 | what the three parsers guarantee of identifiers, digests, thresholds and sizes |
| ReleaseApproval.EvidenceFields | contracts-ton/scripts/verify-release-approval.ts:308-318 | the emitted signers are strictly increasing identifiers, and the threshold lies between 2 and their number, at most 256 |
| ReleaseApproval.StagesAgree | contracts-ton/scripts/authorize-deployment.ts:264-311 | every evidence the first stage emits is parsed by the second, unchanged |
| ReleaseApproval.RecordParses | contracts-ton/scripts/authorize-deployment.ts:313-367 | a deployment record is accepted if and only if what it writes down is valid, and is then read as exactly that |
| ReleaseApproval.SameCandidate | contracts-ton/scripts/authorize-deployment.ts:404-548 | the verification inside the authorisation is over the same candidate and digest |
| ReleaseApproval.Authorize | contracts-ton/scripts/authorize-deployment.ts:404-548 | the comparisons and the re-verification succeed exactly when the record binds the evidence and verification yields it |
| ReleaseApproval.AuthorizeDeployment | contracts-ton/scripts/authorize-deployment.ts:404-548 | authorisation succeeds exactly when, told on the five files and the platform alone, there is evidence, the approval file states it, the record expects it and the policy is one of the target network; every named signer has signed, and one entry that does not verify means refusal |
| ReleaseApproval.OneNetwork | contracts-ton/scripts/authorize-deployment.ts:313-367 | one evidence binds at most one deployment record, hence one network |
| StringOrder.SortKeeps | contracts-ton/scripts/verify-release-approval.ts:308-318 | sorting permutes, and makes distinct names strictly increasing |
| StringOrder.IncreasingIff | contracts-ton/scripts/authorize-deployment.ts:152-159 | a list is strictly increasing if and only if it is distinct and its own sorting |
| StringOrder.IncreasingIsUnique | contracts-ton/scripts/verify-release-approval.ts:308-318 | only one order of its members is strictly increasing |
| StringOrder.SizeIff | contracts-ton/scripts/authorize-deployment.ts:152-156 | the set of a list is as large as the list if and only if the list is distinct |
| ScamText.NormaliseIsWords | services/user-service/src/modules/anti-scam/anti-scam.service.ts:387-390 | the normal form is the lower-cased words joined by single spaces |
| ScamText.WordsOfJoin | services/user-service/src/modules/anti-scam/anti-scam.service.ts:387-390 | the words of a normal form are the words it was made of |
| ScamText.SameNormalForm | services/user-service/src/modules/anti-scam/anti-scam.service.ts:387-390 | two texts have one normal form if and only if they have the same words, whatever the case and spacing |
| AntiScam.CountIsReporters | services/user-service/src/modules/anti-scam/anti-scam.service.ts:356-360 | counting non-rejected reports is counting distinct reporters |
| AntiScam.StoredReasonsDiffer | services/user-service/src/modules/anti-scam/anti-scam.service.ts:137-142 | no two stored complaints have the same words |
| AntiScam.CountsAfter | services/user-service/src/modules/anti-scam/anti-scam.service.ts:164-184 | changing one record and the reports against it keeps every other record's cached count right |
| AntiScam.RecordsAfter | services/user-service/src/modules/anti-scam/anti-scam.service.ts:298-345 | one record per account and distinct confirmation times are kept |
| AntiScam.ModerateKeeps | services/user-service/src/modules/anti-scam/anti-scam.service.ts:218-252 | moderating a record's pending reports changes no other record's count, and approving not even its own |
| AntiScam.DismissedOne | services/user-service/src/modules/anti-scam/anti-scam.service.ts:255-271 | dismissing a report changes no other record's count and does not raise its own |
| AntiScam.FilingKeepsRejected | services/user-service/src/modules/anti-scam/anti-scam.service.ts:164-184 | a complaint against a rejected account does not revive it |
| AntiScam.FilingSaid | services/user-service/src/modules/anti-scam/anti-scam.service.ts:160-192 | after a complaint the record holds the number of complainants; without a record or with a reported one it is confirmed at the threshold, by source and time, and reported below it; any other state stays; only this record changes |
| AntiScam.UsernameKept | services/user-service/src/modules/anti-scam/anti-scam.service.ts:383-385 | a user name is kept in lower case and without the at sign in front |
| AntiScam.ConfirmationSaid | services/user-service/src/modules/anti-scam/anti-scam.service.ts:218-238 | a record confirmed by hand names the moderator, the moment and the number of its complainants, and nothing else about it changes |
| AntiScam.DelaysNobody | services/user-service/src/modules/anti-scam/anti-scam.service.ts:298-307 | changing a record, or confirming it now, puts nobody ahead of a record already waiting |
| AntiScam.EarliestOf | services/user-service/src/modules/anti-scam/anti-scam.service.ts:274-280 | gives the one record confirmed before all the others |
| AntiScam.TakeEarliest | services/user-service/src/modules/anti-scam/anti-scam.service.ts:274-280 | gives the earliest confirmed records in order, as many as wait, at most the limit |
| AntiScam.PublishKeeps | services/user-service/src/modules/anti-scam/anti-scam-publisher.service.ts:105-142 | publishing a batch keeps counts, uniqueness and times |
| AntiScam.TickAdvances | services/user-service/src/modules/anti-scam/anti-scam-publish.scheduler.ts:27-44 | publishing the earliest n takes exactly n from ahead of everyone who still waits |
| AntiScam.WaitIsBounded | services/user-service/src/modules/anti-scam/anti-scam-publish.scheduler.ts:27-44 | over any run, the full ticks seen times the batch size plus those still ahead never exceed those ahead at the start |
| AntiScam.PublishedInTime | services/user-service/src/modules/anti-scam/anti-scam-publish.scheduler.ts:27-44 | no record waits through more than floor(r / batch size) full ticks, r being the records ahead of it at the start |
| AntiScam.Store.constructor | services/user-service/src/modules/anti-scam/anti-scam.service.ts:118-192 | the empty store satisfies every invariant |
| AntiScam.Store.FindByAccount | services/user-service/src/modules/anti-scam/anti-scam.service.ts:309-322 | finds the record of an account, and none exactly when there is none |
| AntiScam.Store.Admit | services/user-service/src/modules/anti-scam/anti-scam.service.ts:118-158 | a complaint is admitted exactly when screenshots, reason, self-report, duplicate text, target account and repeated reporter checks pass |
| AntiScam.Store.StoreReport | services/user-service/src/modules/anti-scam/anti-scam.service.ts:160-184 | the report is stored, its record holds the number of complainants and is confirmed exactly when it was reported or new and meets the threshold |
| AntiScam.Store.FileReport | services/user-service/src/modules/anti-scam/anti-scam.service.ts:118-192 | succeeds exactly on acceptable complaints, fails without effect; with n complainants an account without a record or with a reported one is reported below the threshold and confirmed at it, by source and time, and any other keeps its state; counts, uniqueness and hashes kept; nobody in the queue is delayed; a rejected record stays rejected |
| AntiScam.Store.PostEvidence | services/user-service/src/modules/anti-scam/anti-scam-publisher.service.ts:39-98 | the first message a channel returned is kept; invariants and queue untouched |
| AntiScam.Store.MarkManually | services/user-service/src/modules/anti-scam/anti-scam.service.ts:218-236 | the record is confirmed by the moderator with its true count, its pending reports are approved, nobody waiting is delayed |
| AntiScam.Store.ConfirmScammer | services/user-service/src/modules/anti-scam/anti-scam.service.ts:218-238 | confirms a reported or rejected record and approves its pending reports, does nothing for a confirmed or published one; no other rejected record leaves that state |
| AntiScam.Store.RejectScammer | services/user-service/src/modules/anti-scam/anti-scam.service.ts:241-252 | rejects the record whatever its state and dismisses its pending reports; invariants kept |
| AntiScam.Store.Dismiss | services/user-service/src/modules/anti-scam/anti-scam.service.ts:255-271 | the report is dismissed and its record, while only reported, is counted anew; every invariant kept |
| AntiScam.Store.RejectReport | services/user-service/src/modules/anti-scam/anti-scam.service.ts:255-271 | dismisses the report and recounts its record while that is only reported; the count stays right and below the threshold |
| AntiScam.Store.FindConfirmedUnpublished | services/user-service/src/modules/anti-scam/anti-scam.service.ts:274-280 | the earliest confirmed records, as many as wait, at most the limit |
| AntiScam.Store.PublishConfirmedBatch | services/user-service/src/modules/anti-scam/anti-scam-publisher.service.ts:105-142 | if the message was sent, exactly the batch is marked published with it, otherwise nothing changes |
| AntiScam.Store.PublishBatch | services/user-service/src/modules/anti-scam/anti-scam-publish.scheduler.ts:27-44 | nothing happens until a whole batch waits; a sent tick publishes the earliest whole batch and advances everyone else |
| AntiScam.CollectScreenshots | services/user-service/src/modules/anti-scam/anti-scam-publisher.service.ts:191-202 | the loops collect the first `max` screenshots of all reports in order |
| ArbitratorSelection.BeforeTotal | services/user-service/src/modules/arbitration/arbitrator-selection.service.ts:148-152 | the comparison never holds both ways and decides between any two users |
| ArbitratorSelection.BeforeTransitive | services/user-service/src/modules/arbitration/arbitrator-selection.service.ts:148-152 | the comparison is transitive |
| ArbitratorSelection.SortSorts | services/user-service/src/modules/arbitration/arbitrator-selection.service.ts:148-152 | the sort orders all candidates strictly and loses none |
| ArbitratorSelection.SortedHead | services/user-service/src/modules/arbitration/arbitrator-selection.service.ts:148-154 | the head of the sorted list is the least candidate |
| ArbitratorSelection.QueryLists | services/user-service/src/modules/arbitration/arbitrator-selection.service.ts:85-108 | the query lists exactly the active, available profiles that are neither parties nor excluded |
| ArbitratorSelection.BestIsUnique | services/user-service/src/modules/arbitration/arbitrator-selection.service.ts:148-154 | there is at most one least candidate |
| ArbitratorSelection.LoadCounts | services/user-service/src/modules/arbitration/arbitrator-selection.service.ts:121-126 | the load of an arbitrator is the number of disputes in one of the six active states that name him |
| ArbitratorSelection.BestOfRows | services/user-service/src/modules/arbitration/arbitrator-selection.service.ts:110-154 | the least candidate is a qualifying profile such that no other is less loaded, none as loaded is rated higher, and none as loaded and rated has an earlier id |
| ArbitratorSelection.OrderDoesNotMatter | services/user-service/src/modules/arbitration/arbitrator-selection.service.ts:102-106 | whatever order the table is returned in, the chosen arbitrator is the same |
| ArbitratorSelection.SelectForDeal | services/user-service/src/modules/arbitration/arbitrator-selection.service.ts:76-159 | fails exactly when the deal is missing or no profile qualifies; the winner is a qualifying profile and for each other one its load is at most theirs, at equal load its rating at least theirs, and at equal load and rating its id comes first |
| ArbitratorSelection.LoadAfterUpdate | services/user-service/src/modules/arbitration/arbitrator-selection.service.ts:121-126 | changing one dispute changes exactly the loads of its old and new arbitrator |
| ArbitratorSelection.WithinIff | services/user-service/src/modules/arbitration/arbitrator-selection.service.ts:121-129 | a change of one dispute keeps the limit if and only if it takes no arbitrator, or one who is below it |
| ArbitratorSelection.EnteredFrom | services/user-service/src/modules/arbitration/entities/dispute.entity.ts:215-268 | from which statuses each status can be entered |
| ArbitratorSelection.MovesSay | services/user-service/src/modules/arbitration/dispute.service.ts:335-466 | how each move changes status and pending appeals |
| ArbitratorSelection.TakesIff | services/user-service/src/modules/arbitration/entities/dispute.entity.ts:215-268 | exactly assignments, reassignments of what is active, approved appeals and the step back from an appealed dispute take an arbitrator |
| ArbitratorSelection.AppealWithinIff | services/user-service/src/modules/arbitration/arbitration.service.ts:333-378 | an approved appeal keeps the limit if and only if the dispute was active already, has no arbitrator, or its arbitrator is below the limit |
| ArbitratorSelection.RunWithinIff | services/user-service/src/modules/arbitration/dispute.service.ts:335-466 | a run stays within the limit if and only if it starts there and no step of it takes an arbitrator who is at the limit |
| ArbitratorSelection.AppealPassesLimit | services/user-service/src/modules/arbitration/arbitration.service.ts:366-370 | a concrete run in which everybody assigned was below a limit of one and the arbitrator ends with two disputes, because an appeal was approved |
| ArbitratorSelection.Desk.SelectAndAssign | services/user-service/src/modules/arbitration/dispute-blockchain.controller.ts:71-99 | succeeds exactly when the dispute is in one of five open statuses and some profile qualifies; the qualifying profile that is least loaded, then rated highest, then first by id is assigned and ends within the limit of this call, nobody else gains a case, and any limit at least as large is kept |
| ArbitratorSelection.Desk.Take | services/user-service/src/modules/arbitration/dispute.service.ts:335-466 | any move of a dispute keeps a limit if and only if it takes no arbitrator who is at it |
| DisputeSplit.SplitConserves | contracts/contracts/EscrowImplementation.sol:359-390 | everything the escrow holds is paid out, and the fine is paid in full from escrow and reserve |
| DisputeSplit.PrincipalsAreSafe | contracts/contracts/EscrowImplementation.sol:359-390 | each party gets at least its share of the price, the shares make up the price, and fine and fee stay within what lies above it |
| DisputeSplit.InnocentLosesNothing | contracts/contracts/EscrowImplementation.sol:359-390 | a buyer awarded everything gets the whole balance, a seller awarded everything the whole price, and neither pays a fee |
| DisputeSplit.SellerIsNotFined | contracts/contracts/EscrowImplementation.sol:366-389 | the seller is paid the same whatever fine, fees and surplus there are |
| DisputeSplit.FineIsClamped | contracts/contracts/EscrowImplementation.sol:364-397 | the fine is the percentage of the price between its two bounds, and the seller's part of it comes from the escrow as far as what lies above the price reaches |
| DisputeSplit.FeeIsHalf | contracts/contracts/EscrowImplementation.sol:379-390 | when the price is shared half of both fees is due as far as price and fine leave it, and the buyer's share is the percentage rounded down |
| EscrowFunding.MinedKeepsSound | contracts/contracts/EscrowImplementation.sol:186-193 | mining a transfer or a `notifyFunded` keeps statuses, coverage and conservation of tokens |
| EscrowFunding.StepKeepsSound | contracts/contracts/EscrowImplementation.sol:216-340 | no event breaks them: statuses 2 to 6 are the funded ones, a funded escrow covers its payout, no token appears or is lost |
| EscrowFunding.StatusMoves | contracts/contracts/EscrowImplementation.sol:186-340 | all the ways in which an event changes the status of an escrow, with their guards |
| EscrowFunding.WaysOut | contracts/contracts/EscrowImplementation.sol:236-340 | no token is stuck: funded escrows can be refunded, released or disputed, disputes decided for any share, and the rest rescued |
| EscrowFunding.StepKeepsOnce | contracts/contracts/EscrowImplementation.sol:186-254 | no event breaks the one-debit invariant |
| EscrowFunding.SendKeepsOnce | services/user-service/scripts/amoy-web3signer-acceptance.ts:210-219 | sending the shortfall that was read, however late, keeps the one-debit invariant when nothing was pending |
| EscrowFunding.RunKeeps | contracts/contracts/EscrowImplementation.sol:186-340 | over any events tokens are conserved, a funded escrow has received the price and the buyer's fee and holds them until it pays, funded stays funded, cancelled stays cancelled, and others cannot debit the relay |
| EscrowFunding.ForwardFunds | services/user-service/scripts/amoy-web3signer-acceptance.ts:202-226 | an undisturbed call leaves a funded escrow if and only if it was funded before, or awaits funding in time and balance and relay together reach price and buyer's fee; then the debit is exactly what was missing of them |
| EscrowFunding.ResumeIsOneCall | services/user-service/scripts/amoy-web3signer-acceptance.ts:202-226 | a call stopped after its transfer and the call that resumes it do exactly what one call does |
| EscrowFunding.FundedIsFinal | services/user-service/scripts/amoy-web3signer-acceptance.ts:208-209 | once funded, every later call changes nothing, also after release or rescue empties the escrow |
| EscrowFunding.DebitsAgainIff | services/user-service/scripts/amoy-web3signer-acceptance.ts:208-219 | after its first debit a further undisturbed call debits the relay if and only if the escrow has expired, lacks tokens and the relay can pay; then it was rescued |
| EscrowFunding.DebitsAgainMidCallIff | services/user-service/scripts/amoy-web3signer-acceptance.ts:208-219 | a disturbed call debits the relay again if and only if the escrow has been emptied unfunded when its balance is read and the relay can pay what is missing then |
| EscrowFunding.CancelledMidCall | services/user-service/scripts/amoy-web3signer-acceptance.ts:208-219 | cancelled and rescued between the two reads, an escrow is paid for a second time and stays cancelled |
| EscrowFunding.ExpiredDebitsTwice | services/user-service/scripts/amoy-web3signer-acceptance.ts:208-219 | stopping after the transfer, expiry, rescue and a repeated call debit twice and fund nothing |
| EscrowFunding.FundedForTheShortfall | services/user-service/scripts/amoy-web3signer-acceptance.ts:202-226 | a funded escrow to which nobody else has sent anything has cost the relay exactly what was missing at the start |
| EscrowFunding.CancelledCountsAsFunded | services/user-service/scripts/amoy-web3signer-acceptance.ts:208-209 | the call takes an escrow for funded exactly when it has been funded or was cancelled; a cancelled one never was |
| EscrowFunding.SendsTransferIff | services/user-service/scripts/amoy-web3signer-acceptance.ts:208-219 | whatever is pending, the call sends a transfer if and only if the status is outside 2 to 7 and the mined balance is too small |
| EscrowFunding.TwoDebitsIff | services/user-service/scripts/amoy-web3signer-acceptance.ts:208-221 | a call begun with a transfer pending ends in two more debits if and only if it sends its own and the relay can pay both |
| EscrowFunding.PendingTransferIsRepeated | services/user-service/scripts/amoy-web3signer-acceptance.ts:208-221 | repeating a call that died while its transfer was pending sends the shortfall again, and debits it twice if and only if the relay can pay both |
| EscrowFunding.Relay.constructor | services/user-service/scripts/amoy-web3signer-acceptance.ts:183-200 | a new escrow with nothing sent satisfies the invariants |
| EscrowFunding.Relay.Gap | services/user-service/scripts/amoy-web3signer-acceptance.ts:202-226 | anything that can happen between two lines keeps the invariants |
| EscrowFunding.Relay.WaitForSuccess | services/user-service/scripts/amoy-web3signer-acceptance.ts:88-95 | the waited-for transaction was mined and its receipt decides success, or the process died |
| EscrowFunding.Relay.TransferShortfall | services/user-service/scripts/amoy-web3signer-acceptance.ts:212-221 | a transfer of exactly the shortfall is sent if and only if the balance read is too small; evidence is pushed exactly on success |
| EscrowFunding.Relay.Notify | services/user-service/scripts/amoy-web3signer-acceptance.ts:223-224 | evidence is pushed exactly on success, and then the escrow has been funded |
| EscrowFunding.Relay.RecoveryAwareForward | services/user-service/scripts/amoy-web3signer-acceptance.ts:202-226 | a completed call reports exactly its own successful transactions, and one that throws ends in a reverted one; a full one leaves a funded escrow, which has received price and buyer's fee; `alreadyFunded` means funded or cancelled; on a funded escrow it is a no-op under any interference; undisturbed it is `Forwarded` |
| EscrowFunding.Relay.Operate | services/user-service/scripts/amoy-web3signer-acceptance.ts:202-243 | over any number of interrupted calls that begin with nothing pending, the relay is debited at most once, by the shortfall, unless the escrow was emptied unfunded |

## Left out

- Deployment: two copies of the script at once, transactions dropped from the pool, other users of the key and outside moves of the test token (which anybody may mint); the re-check of the nonce of a sent transaction; a file that passes validation but was edited in its steps; gas, wallet and manifest reporting.
- Deployment.Deployer.RunScript: the environment checks before the checkpoint is read are not modelled; the balance check is the parameter `funded`.
- SettlementGate: updates of a deal's id, foreign keys to users, TRUNCATE, the width of integers and of the varchar columns of deals, and the enumeration casts; only the columns the gate reads are modelled.
- TonCells: addresses are of the standard form with an 8-bit workchain; the level of a cell and its hash are not modelled, the hash is a parameter.
- TonJettonEscrow: the senders' values and modes, the getters and the contract itself; its on-chain guards are not part of this model.
- TlCodec: the primitive readers and writers follow the TL format of the library; reading past the end fails; the block request types around the codec are not modelled.
- Decimal: a negative number of decimals; strings are sequences of Unicode characters, so lengths do not count surrogate pairs twice (this also holds for complaint texts and JSON strings).
- ReleaseApproval: the text of JSON, SHA-256, Ed25519 and Base64 are parameters; reading and writing the files and their overwrite protection are left out; error messages are abbreviated.
- ScamText: `toLowerCase` is a parameter of which only one thing is assumed, that it commutes with trimming.
- AntiScam: one call runs at a time, database calls succeed, confirmation times strictly increase, and the batch size is not negative; the lookup command, captions and links of messages are left out.
- ArbitratorSelection: identifiers are compared by code unit, which is what the locale's comparison does on lower-case UUIDs; the sort is the library's, modelled as a function; who may call a service, decisions and deposits are left out of the moves of a dispute.
- EscrowFunding: tokens of one escrow and the relay's account only; reading a sent transaction back and summarising its signature; the arbitrator's registry and the treasury's reserve; amounts are unbounded.
- EscrowFunding.Relay.Operate: the bound on debits is for calls that begin with nothing pending, because otherwise it is false.
- The on-chain escrow lifecycle of TON, the deal, payment and dispute services, controllers, other migrations and the mini-app: their decisive rules are in files outside these modules, or they would add only lists of independent checks.
