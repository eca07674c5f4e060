# CTVS reference implementation: a verified model

This project models the deterministic core of the CTVS vault reference implementation and proves properties of it in
Dafny: the integer economics of sections 6 and 7 of CTVS-1 v0.6.3, the planners that turn them into transaction intents,
the accepted-chain reader and its durable host, the wallet's review of a candidate transaction, group selection, and the
WIRE-2 codecs.

`dafny verify dfyconfig.toml` checks the whole project.

## How it is laid out

**Vault economics and settlement.** `Arithmetic`, `Quotes`, `Transitions` and `Limits` are the exact integer rules: four
quotes with their two fee denominators and two roundings, the transition of a State, and the search for the largest
deposit. `Values` holds the multi-asset custody maps in which the ADA partitions merge. `Planning`, `Planners`,
`Settlement` and `Batches` are the planners. `Ledger` states the ledger's own balance rule, and `VaultRuns` lets any
number of planned and ordinary wallet transactions follow a genesis; its theorems are about every ledger so reached.
`PlannedCustody` and `Participation` say what one planner's output means to the next and to the participant: what is
created settles or refunds, what settles is delivered, and who is paid what. `Premises`, `Intents` and `Conduct` spell
the planners out in literal terms: exactly which evidence each accepts, what an intent must be, and what every plan does,
lays out and has signed, under each setting of the modes and the pause flags; `Existence` has the exact conditions for
a plan that consumes the State.

**The accepted-chain reader and its host.** `AcceptedTransactions` reads a decoded transaction, `Projections` and
`Projecting` fold it into linked maps (pure functions, and a `Staging` class that mutates a private copy and is proved
equal to them), `Lifecycles` and `Progress` say what holds of those maps and how records evolve, and `Ownership` sums
the shares of an owner over them. `Recognition` and `Admissions` say, in both directions, which accepted outputs
become Requests and what evidence in a transaction stands behind every other change of a record or a vault.
`Agreement`, `LedgerAgreement`, `Acceptance`, `LedgerReading` and `GenesisAgreement` join the two halves: what was
planned and realized is accepted by the reader and recorded as planned, from genesis along every run of the ledger.
`Readers` is the reader with its one-use publication tokens, `Journals` the durable log, `Runners` the host that
orders prepare, commit and publish, `HostRuns` its runs with crashes, and `Reconciliations` the overlapping probes of
a lookup source.

**Wallet review and selection.** `EffectsLedger`, `EffectInputs`, `EffectOutputs`, `Witnesses` and `Effects` review a
candidate transaction: every loop is a method whose acceptance is an if-and-only-if, and the top-level method accepts
exactly the predicate `Acceptable`. `Approvals` and `Reviews` say what that is over the fields of the candidate and the
authorization alone. `Selection` is the nested search over whole groups.

**Codecs.** `DataValues`, `DataJson` and `BoundedData` are semantic Plutus Data. `WirePrimitives`, `WireTerms`,
`WireDatums` and `WireActions` encode and decode the protocol's records, and `WireFormat` is the format as a relation between
Data and records, field by field, which the decoders are proved to accept exactly.

Three conventions run through it. Operations that the source ends with a thrown error return a `Result` or an `Outcome`.
Code that works by updating state is a class or a method with loops, proved equal to a function on values; the theorems
are about those functions. And above the codecs, identifiers are canonical lower-case hexadecimal, while datums and
redeemers are carried as the record they decode to; `WireDatums.Classify` and `WireActions.ClassifyRedeemer` are proved to
be the only reading that Data has.

## What the feed is assumed to deliver

The reader checks projection invariants, not consensus. `Lifecycles.FeedOk` states what it relies on: a transaction's
inputs are distinct, none is one of its own outputs, an input created in retained history is still unspent there, ledger
quantities are unsigned, and the collateral of a failed transaction names no tracked script output. `Readers.Feed` asks
this of every transaction along a history. Theorems that need it say so in their `requires`; the replay, publication and
crash theorems do not need it.

`LedgerReading.Undisturbed` is what acceptance of a whole transaction rests on besides: its identity is new, it announces no
vault and spends no Config, and the tracked outputs that it spends are those its plan names. Given that, a batch is still
refused unless the reader has seen every Request that it settles; `LedgerReading.RealizedStepIsAccepted` is exact about it.

## Findings

- A deposit's executable amounts are an interval, not a prefix: amounts too small to issue a share fail as well as amounts
  beyond capacity. `Limits.SmallestDepositFails` is an instance, `Limits.ExecutableDepositsAreAPrefix` says exactly when
  the small amounts execute too, and `Limits.DepositExecutes` when one amount does. The reported maximum is exact anyway.
- A stopped host does not stay stopped: a block that arrives at it moves it to the failed phase, because the session check
  sits inside the guarded block, while a rollback there is refused without a change. `HostRuns.ClosedHostFailsOnBlock` is
  an instance, `HostRuns.StoppedHost` says which events do it, and `HostRuns.StoppedRun` what any sequence of them comes
  to. None of them touches the journal or the view.
- The decimal text `-0` is accepted (`DataJson.NegativeZeroParses`), and it is the only accepted integer text that does not
  print back (`DataJson.ParsedIntPrints`).

## Model

| member | source | states |
|---|---|---|
| Arithmetic.CeilDiv | reference/packages/protocol/src/math/integer.ts:26-31 | the least integer whose multiple reaches the dividend |
| Arithmetic.FeeRaw | reference/packages/protocol/src/math/integer.ts:38-43 | defined exactly on in-range amounts and basis points; the least fee that covers its share of a net amount |
| Arithmetic.FeeTotal | reference/packages/protocol/src/math/integer.ts:50-55 | defined exactly on in-range amounts and basis points; the least fee contained in a gross amount |
| Arithmetic.FeeAdjoint | reference/packages/protocol/src/math/integer.ts:33-55 | the two fee formulas undo each other: a gross amount leaves a net amount exactly when it covers that net amount plus its fee, through both ceilings |
| Quotes.ConversionsEnclosePrice | reference/packages/protocol/src/math/quotes.ts:52-92 | in either direction the two roundings of a conversion differ by at most one unit, and converting back never gains |
| Quotes.QuoteFavoursVault | reference/packages/protocol/src/math/quotes.ts:101-152 | every quote stands on the vault's side of the snapshot price, and its fee is exactly gross less net |
| Quotes.EntryQuotesAdjoint | reference/packages/protocol/src/math/quotes.ts:110-134 | depositing d issues at least s shares exactly when d covers the gross price of minting s |
| Quotes.ExitQuotesAdjoint | reference/packages/protocol/src/math/quotes.ts:110-134 | redeeming s pays at least a exactly when s covers the share price of withdrawing a |
| Quotes.QuotesMonotone | reference/packages/protocol/src/math/quotes.ts:101-152 | for each operation, a larger exact input never quotes less gross, net, shares or fee |
| Quotes.PreviewIsTheQuote | reference/packages/protocol/src/math/quotes.ts:101-152 | a quote is returned exactly when its exact side is the amount, the other side is the least or greatest the snapshot price allows, the fee is the least charge at the rate of its own direction, and all of it is in range |
| Quotes.FeeIsCharged | reference/packages/protocol/src/math/quotes.ts:110-134 | deposits and mints are charged at the entry rate and withdrawals and redemptions at the exit rate, as the least amount that covers it |
| Transitions.TransitionKeepsPrice | reference/packages/protocol/src/math/transition.ts:56-91 | every executed operation leaves the virtual share price (A+1)/(S+V) at least where it was |
| Transitions.TransitionConservesCustody | reference/packages/protocol/src/math/transition.ts:56-91 | backing plus fees grow by exactly what the user brings in and shrink by exactly what the user is paid |
| Transitions.PriceBoundsSupply | reference/packages/protocol/src/math/transition.ts:56-91 | between States whose price did not fall, returning supply implies returning backing, and supply stays at most V times backing |
| Transitions.TransitionMeans | reference/packages/protocol/src/math/transition.ts:56-91 | an operation executes exactly under an advertised path, an unpaused direction, positive sides, its own bound and a valid successor, which the quote determines |
| Transitions.PauseStopsOneDirection | reference/packages/protocol/src/math/transition.ts:19-31 | flag 1 stops deposits and mints and flag 2 withdrawals and redemptions; under the other flag an operation executes as unpaused, with the same quote |
| Limits.DepositExecutes | reference/packages/protocol/src/math/limits.ts:36-77 | a deposit executes if and only if it is positive, within capacity, issues at least its bound, and a sequence number is left |
| Limits.ExecutableDepositsAreAnInterval | reference/packages/protocol/src/math/limits.ts:14-77 | between two executable deposits every deposit executes |
| Limits.ExecutableDepositsAreAPrefix | reference/packages/protocol/src/math/limits.ts:14-77 | every amount up to an executable deposit executes if and only if an amount of 1 issues a share |
| Limits.SmallestDepositFails | reference/packages/protocol/src/math/limits.ts:14-77 | with one basis point on entry a deposit of 1 into an empty vault fails, and a deposit of 2 executes |
| Limits.SearchCapacity | reference/packages/protocol/src/math/limits.ts:57-70 | the binary search ends at the last amount within capacity |
| Limits.MaximumIsExact | reference/packages/protocol/src/math/limits.ts:14-77 | at the last amount within capacity the quote exists, and whether it issues a share decides whether any deposit executes |
| Limits.MaxDeposit | reference/packages/protocol/src/math/limits.ts:14-77 | a positive reported maximum executes with bound 1 and nothing above it executes; zero, unavailable or exhausted means no deposit executes at any bound |
| References.SortReferences | reference/packages/protocol/src/wire/primitives.ts:258-282 | the seen-set loop accepts exactly 1 to 16 entries with valid references that differ beyond letter case, and returns the sorted copy |
| References.SortedReferencesIsCanonical | reference/packages/protocol/src/wire/primitives.ts:258-282 | the result is strictly ordered, holds exactly the given entries, and is the same for every order of submission |
| References.SortedIsFixed | reference/packages/protocol/src/wire/primitives.ts:258-282 | a strictly ordered list has distinct references and is its own sorted copy |
| References.TextLessIsExact | reference/packages/protocol/src/wire/primitives.ts:258-282 | the order of text is that of its first difference, a proper prefix first |
| Values.BuildValue | reference/packages/planning/src/value.ts:12-24 | the accumulating loop returns canonical custody that holds of each asset exactly the sum of its entries, merged identities included |
| Values.NormalizeCustody | reference/packages/planning/src/value.ts:80-97 | supplied custody under canonical keys keeps every quantity and loses its zero entries; anything else is refused |
| Values.SameValueIsExact | reference/packages/planning/src/value.ts:104-113 | the size-and-lookup comparison passes if and only if every asset agrees: no deficit and no surplus |
| Premises.EquationIsExact | reference/packages/planning/src/value.ts:12-113 | custody meets an equation exactly when its terms are bounded amounts of named assets and it holds their sum of every asset, under canonical names |
| Planning.ResolveState | reference/packages/planning/src/context.ts:114-134 | a resolved State is the input's own datum, economically valid, of the deployment's policy, and backed by exact custody |
| Planning.ResolvedStateHolds | reference/packages/planning/src/value.ts:36-42 | the State input holds, asset by asset, backing plus fees, the reserve, and one STATE token |
| Planning.SupplyMintMeans | reference/implementations/ctvs1/client/src/direct.ts:84-90 | a supply mint moves SHARE alone, by its signed amount |
| Planning.OutputIsValid | reference/packages/planning/src/plan.ts:41-58 | whatever the output planner makes passes the output checks of plan validation |
| Premises.ResolveMeans | reference/packages/planning/src/context.ts:53-134 | a State input resolves exactly in a consistent deployment, at the vault script, as a sound State of this vault and these Terms that holds what it says, asset by asset |
| Intents.PlanMeans | reference/packages/planning/src/plan.ts:112-257 | an intent is accepted exactly when inputs carry the action of their role, nothing is used twice, mints are signed nonzero amounts of own tokens, signers are distinct and any interval is finite |
| Intents.PlansAreIntents | reference/packages/planning/src/plan.ts:67-110 | whatever the planners make is such an intent |
| Settlement.SettlementQuote | reference/implementations/ctvs2/client/src/settlement.ts:84-95 | a request is priced exactly when its direction is enabled and the preview of its kind exists, pays something and meets the minimum; and then at that preview |
| Settlement.BatchTotals.Accumulate | reference/implementations/ctvs2/client/src/settlement.ts:120-137 | the mutated totals are the old ones plus this settlement's flows, and the call reports whether each is still a quantity |
| Settlement.SettlementsAreIndividual | reference/implementations/ctvs2/client/src/batch.ts:126-133 | in a settled batch each request got exactly the settlement it would get alone at the snapshot, and the aggregates are in range |
| Batches.SettleAll | reference/implementations/ctvs2/client/src/batch.ts:126-133 | the loop with mutated totals is the pure settlement of the sorted list, errors included |
| Batches.BuildBatchPlan | reference/implementations/ctvs2/client/src/batch.ts:112-212 | the planner's acceptance and plan are those of the batch specification |
| Batches.FlowsFavourVault | reference/implementations/ctvs2/client/src/batch.ts:123-158 | the aggregate flows of any mix of requests stand on the vault's side of the one snapshot price |
| Batches.FeesSeparateFlows | reference/implementations/ctvs2/client/src/settlement.ts:120-137 | accumulated fees are exactly what separates gross from net flows on both sides |
| Batches.RedemptionsAreSolvent | reference/implementations/ctvs2/client/src/batch.ts:135-158 | if the burned shares are within the pre-existing supply, the redeemed assets are within the pre-existing backing, without the batch's own deposits |
| Batches.BatchKeepsPrice | reference/implementations/ctvs2/client/src/batch.ts:148-158 | a batch leaves the virtual share price at least where it was |
| Batches.SingletonBatchIsTransition | reference/implementations/ctvs2/client/src/settlement.ts:57-137 | a batch of one executes if and only if the asynchronous transition does, with the same quote, successor and mint |
| Batches.BatchIgnoresSubmissionOrder | reference/implementations/ctvs2/client/src/batch.ts:112-133 | permuting the submitted requests changes neither acceptance nor the plan |
| Batches.SettlementConserves | reference/implementations/ctvs2/client/src/settlement.ts:57-112 | for every asset, one request's escrow, top-up and mint leave as its Claim, the settler fee and the vault's side of the quote |
| Batches.ClaimsConserve | reference/implementations/ctvs2/client/src/batch.ts:60-103 | the same equation added up over all Claims of a batch |
| Batches.BatchConserves | reference/implementations/ctvs2/client/src/batch.ts:60-212 | every batch plan conserves every asset exactly, also when ADA is the underlying: State and Requests plus mint plus top-ups are the planned outputs |
| Conduct.SettlementsMean | reference/implementations/ctvs2/client/src/settlement.ts:115-137 | Requests settle together exactly when each settles alone and the flows of each direction, the fees and the rewards are in range in all |
| Existence.BatchMeans | reference/implementations/ctvs2/client/src/batch.ts:60-212 | a batch of given settlements exists exactly when its settler may settle, the interval is finite, 1 to 16 distinct Requests within the cap settle alone at the snapshot, flows fit, redemptions are covered by the old supply, the successor is valid, Claims and reward have room, and no output is spent twice |
| Conduct.BatchAccounts | reference/implementations/ctvs2/client/src/batch.ts:135-158 | the State after a batch from its settlements: net deposits in, gross redemptions out, issued and burned shares, and fees charged at each direction's own rate |
| Conduct.BatchAuthority | reference/implementations/ctvs2/client/src/batch.ts:112-125 | under a settler set the reward key is a member; it signs, the interval is finite, and the batch is within both caps |
| Conduct.BatchLayout | reference/implementations/ctvs2/client/src/batch.ts:160-212 | State first, one acknowledged Request and one Claim an entry in order, and a reward of exactly the settler fees and its top-up when there are any |
| Conduct.SettlementPauses | reference/implementations/ctvs2/client/src/settlement.ts:84-95 | a Request is priced under any flags exactly when its own direction runs and it is priced unpaused, at the same quote |
| Planners.DirectConserves | reference/implementations/ctvs1/client/src/direct.ts:48-101 | a direct plan balances asset by asset once the user's gross assets or burned shares and the receiver's top-up are counted |
| Conduct.PauseGatesDirect | reference/implementations/ctvs1/client/src/direct.ts:48-101 | under any flags a direct plan exists exactly when its direction runs and it exists unpaused, and pays and mints the same |
| Existence.DirectMeans | reference/implementations/ctvs1/client/src/direct.ts:48-101 | an immediate operation is planned exactly when it executes at the resolved State and its receiver exists and has room for the top-up |
| Conduct.PausedVaultRefuses | reference/packages/planning/src/maintenance.ts:121-141 | after a planned pause no direct plan and no settlement of a stopped direction exists |
| Existence.PauseMeans | reference/packages/planning/src/maintenance.ts:121-141 | a pause is planned exactly for flags 0 to 3 in a vault whose Terms name a pause key |
| Existence.TopUpMeans | reference/packages/planning/src/maintenance.ts:93-113 | the reserve is topped up exactly by a positive amount that the State has room for |
| Existence.CollectMeans | reference/packages/planning/src/maintenance.ts:66-86 | fees are collected exactly when some have accrued and the payment has room for its top-up |
| Conduct.DirectLayout | reference/implementations/ctvs1/client/src/direct.ts:62-101 | the State is spent alone under the user's own request, the receiver is paid in the second output, and nobody else has to sign |
| Planners.RefundConserves | reference/implementations/ctvs2/client/src/recovery.ts:47-77 | a refund pays the whole source value to the refund destination, mints nothing, respects controller and deadline, and never moves STATE or ID custody |
| Premises.RefundMeans | reference/implementations/ctvs2/client/src/recovery.ts:47-77 | a refund is planned exactly for custody at the vault script under a sound Recovery of the vault, free of STATE and ID, over a finite interval that an expiry starts at or after the deadline |
| Premises.RefundLayout | reference/implementations/ctvs2/client/src/recovery.ts:58-77 | a cancellation is signed by the controller and an expiry by nobody; the one output pays the refund destination |
| Planners.DeliverOutput | reference/implementations/ctvs2/client/src/delivery.ts:28-45 | a delivered Claim is paid to its receiver's address, with the receiver's own datum and the Claim's whole value, surplus included |
| Planners.DeliveryConserves | reference/implementations/ctvs2/client/src/delivery.ts:23-48 | a delivery pays out every asset of every Claim it consumes and mints nothing |
| Premises.DeliveryMeans | reference/implementations/ctvs2/client/src/delivery.ts:23-48 | Claims are delivered together exactly when they are 1 to 16 distinct sound Claims at the Claim script |
| Premises.DeliveryLayout | reference/implementations/ctvs2/client/src/delivery.ts:23-48 | Claims in reference order, each paid whole to its own receiver at its own output under one redeemer that lists them all |
| Planners.StateUpdateHolds | reference/packages/planning/src/value.ts:36-42 | a planned State output holds exactly its closed custody equation |
| PlannedCustody.BatchPlansExactly | reference/implementations/ctvs2/client/src/batch.ts:60-103 | a batch plan keeps exact State custody in its first output, and for each settlement exact Claim custody in the place its entry names, under the references of its own request |
| Participation.CreatedRequestIsEligible | reference/implementations/ctvs2/client/src/requests.ts:24-64 | what the creation planner plans is accepted by every batch of its deployment exactly until the request's deadline |
| Premises.EligibleMeans | reference/implementations/ctvs2/client/src/settlement.ts:57-82 | a Request is eligible exactly when it sits at the vault script, is sound, names this vault and these Terms, holds its escrow to the unit, and its deadline is not before the end of the interval |
| Premises.RequestPlanMeans | reference/implementations/ctvs2/client/src/requests.ts:24-64 | a Request is planned exactly in a consistent deployment that advertises its direction, whether or not the vault is paused |
| Participation.CreatedRequestIsRefundable | reference/implementations/ctvs2/client/src/recovery.ts:47-77 | escrow is never stuck: a created request has a cancellation in every finite interval and an expiry refund in exactly those from its deadline on, each paying the refund destination the whole escrow |
| Participation.SettlementHonoursRequest | reference/implementations/ctvs2/client/src/settlement.ts:57-112 | a settlement spends exactly what was offered before the deadline, and owes the named receiver at least the minimum, in the other asset, with all ADA but the settler fee |
| Participation.PlannedClaimDelivers | reference/implementations/ctvs2/client/src/delivery.ts:23-48 | every Claim that a batch plans is deliverable, whole, to the receiver in its datum |
| Participation.DeliveryExists | reference/implementations/ctvs2/client/src/delivery.ts:23-48 | a delivery is planned if and only if there are 1 to 16 distinct Claims, each well formed and protected, in a request-path deployment |
| Participation.BatchPaysReceivers | reference/implementations/ctvs2/client/src/settlement.ts:57-112 | from escrow to payment: delivering any Claim of a batch pays the receiver its request named at least the minimum it set |
| Participation.DirectHonoursUser | reference/implementations/ctvs1/client/src/direct.ts:48-101 | a direct plan pays the named receiver exactly the user's side of a quote whose fixed side is exact and whose other side is within the bound |
| Participation.FeesReachTheirDestination | reference/packages/planning/src/maintenance.ts:66-86 | collected fees are paid, all of them, to the destination of the Terms, nothing else of the State moves, and the plan balances asset by asset |
| Ledger.BalancedTotal | reference/packages/cardano/src/effects.ts:538-544 | a balanced transaction changes an asset's ledger total by its mint and, for ADA, its fee alone |
| VaultRuns.DirectIsSound | reference/implementations/ctvs1/client/src/direct.ts:48-101 | a direct plan updates the State with exact custody, keeps the price, and mints exactly the change of supply |
| VaultRuns.CollectFeesIsSound | reference/packages/planning/src/maintenance.ts:66-86 | collecting fees moves neither shares nor price and leaves exact custody |
| VaultRuns.TopUpIsSound | reference/packages/planning/src/maintenance.ts:93-113 | a reserve top-up moves neither shares nor price and leaves exact custody |
| VaultRuns.SetPauseIsSound | reference/packages/planning/src/maintenance.ts:121-141 | a pause change moves neither shares nor price and leaves exact custody |
| VaultRuns.BatchIsSound | reference/implementations/ctvs2/client/src/batch.ts:112-212 | a batch plan updates the State with exact custody, keeps the price, and mints exactly the change of supply |
| VaultRuns.SidePlanSparesState | reference/implementations/ctvs2/client/src/requests.ts:24-64 | request, refund and delivery plans spend no State output and mint nothing |
| Premises.GenesisMeans | reference/packages/planning/src/genesis.ts:24-87 | a vault is planned exactly from a consistent context, a well-formed seed and positive reserves, with empty accounts and one ID and one STATE token |
| VaultRuns.GenesisEstablishesInv | reference/packages/planning/src/genesis.ts:24-87 | a realized genesis starts with empty accounting, no SHARE, one STATE token and exact State custody |
| VaultRuns.StepKeepsInv | reference/packages/planning/src/maintenance.ts:32-58 | every accepted step, planned or wallet, keeps the ledger invariant and does not lower the price |
| VaultRuns.RunsKeepInv | reference/implementations/ctvs1/client/src/direct.ts:53-92 | over every run, all SHARE anywhere is the economic supply and the State output holds exactly its custody and one STATE token |
| VaultRuns.RunsKeepPrice | reference/packages/protocol/src/math/transition.ts:56-91 | over every run, the virtual share price never falls between any two ledgers |
| VaultRuns.VaultAccounting | reference/implementations/ctvs2/client/src/batch.ts:148-177 | from genesis on: total SHARE is the supply, custody is exact, S <= V*A, and no part of a run that returns the supply extracts assets |
| AcceptedTransactions.ReadAcceptedTransaction | reference/packages/integration/src/ledger.ts:21-95 | the decoding loops compute the effective inputs, outputs and spends, failing exactly when a pointer is out of range or repeated |
| AcceptedTransactions.SpendsArePointers | reference/packages/integration/src/ledger.ts:60-95 | a spend is attributed to exactly the input at its redeemer's pointer in canonical input order |
| AcceptedTransactions.AcceptedIsRead | reference/packages/integration/src/ledger.ts:60-95 | a failed transaction is always read, and a valid one exactly when every spending redeemer points to an input and no two to the same |
| AcceptedTransactions.AcceptedShape | reference/packages/integration/src/ledger.ts:21-95 | a valid transaction spends its own inputs in canonical order and creates its outputs in order; a failed one spends its collateral, runs no script and creates at most its return, at the index after the ordinary outputs |
| AcceptedTransactions.ProtectedOutput | reference/packages/integration/src/ledger.ts:104-146 | accepted if and only if enterprise script custody on the network with an inline datum and no reference script |
| Admissions.FindOutputMeans | reference/packages/integration/src/project.ts:78-79 | the output found at an index is the first that has it, and none is found exactly when none has it |
| Projections.FindGenesis | reference/packages/integration/src/identity.ts:130-165 | the nested search over outputs and builds finds the vaults of the specification, in output order |
| Projections.DiscoveredAreAuthentic | reference/packages/integration/src/identity.ts:31-121 | every discovered vault names a protected State output of this very transaction, at its own policy |
| Admissions.DiscoveredAreBorn | reference/packages/integration/src/identity.ts:31-165 | every discovered vault rests on a spent seed, a Config output with the ID token at its build's lock, the only STATE output with empty accounts, and a consistent deployment |
| Projecting.Staging.Record | reference/packages/integration/src/project.ts:109-151 | installing one allocation mutates the staging copy exactly as specified, or fails for the same inputs |
| Projecting.Staging.Advance | reference/packages/integration/src/project.ts:65-100 | advancing a vault installs its settlements and its successor State exactly as specified |
| Projecting.Staging.VisitAll | reference/packages/integration/src/project.ts:285-298 | every known vault is visited in insertion order, Config spends are refused |
| Projecting.Staging.ConsumeOne | reference/packages/integration/src/project.ts:160-203 | one input's refund and delivery effects, exactly as specified |
| Projecting.Staging.ConsumeAll | reference/packages/integration/src/project.ts:160-203 | the loop over inputs is the fold of single consumptions |
| Projecting.Staging.AddGenesis | reference/packages/integration/src/project.ts:298-307 | discovered vaults are added when in scope, and a known policy is refused |
| Projecting.Staging.ProjectOutputs | reference/packages/integration/src/project.ts:212-263 | inputs leave the unspent outputs, outputs enter them, and recognized requests are recorded |
| Projecting.Staging.Project | reference/packages/integration/src/project.ts:272-309 | projecting a transaction in place is the specification's projection, and fails for the same inputs |
| Admissions.SettlementMeans | reference/packages/integration/src/project.ts:109-151 | a settlement is recorded exactly when the allocated output is an exactly funded Claim of this vault for a Request that is pending and spent |
| Admissions.SuccessorMeans | reference/packages/integration/src/project.ts:65-100 | a State is advanced exactly to an output at the vault script that is next in sequence, of the same identity, with exact custody |
| Admissions.EveryChangeHasEvidence | reference/packages/integration/src/project.ts:272-309 | over a whole transaction every settlement, completion, new vault and moved State has its evidence in the transaction, every tracked input is completed, and a failed transaction changes no record |
| Recognition.RequestsAreExact | reference/packages/integration/src/project.ts:212-263 | an output becomes a pending Request exactly when it is protected custody at a request-path vault without STATE whose envelope names that vault, with or without readable economics |
| Recognition.RecordedIsRefundable | reference/implementations/ctvs2/client/src/recovery.ts:47-77 | a recorded Request, its economics readable or not, can be refunded exactly when its Recovery is sound and it holds no ID token |
| Recognition.RecordedRefundIsRecorded | reference/packages/integration/src/project.ts:160-203 | realizing that refund records it as refunded into the planned output |
| Lifecycles.RecordSettlementKeeps | reference/packages/integration/src/project.ts:109-151 | a settlement pairs its request with a new, correctly funded Claim and overwrites no Claim |
| Lifecycles.DeliverConsumedKeeps | reference/packages/integration/src/project.ts:160-203 | a spent Claim was undelivered until now, and its request completes with it |
| Lifecycles.CollateralKeeps | reference/packages/integration/src/project.ts:205-228 | the spend of a failed transaction's collateral leaves every tracked link intact |
| Lifecycles.ProjectTransactionKeepsLifecycle | reference/packages/integration/src/project.ts:272-309 | every transaction the feed may deliver keeps the cross-map invariant: paired settlements and Claims, status fixes settlement and completion, tracked means unspent, request and Claim keys are disjoint, keys name seen transactions |
| Progress.TransactionProgresses | reference/packages/integration/src/project.ts:272-309 | no accepted transaction overwrites a record, changes its identity, or moves its status backwards |
| Progress.HistoryOnlyAdvances | reference/packages/integration/src/project.ts:272-309 | a longer history has every record of a shorter one, advanced or unchanged |
| Agreement.PlannedBatchIsRecorded | reference/packages/integration/src/project.ts:65-151 | a transaction that realizes a batch plan advances the tracked vault to exactly the planned successor, makes every settled request claimable through the very Claim that was planned, and leaves every other record alone |
| Agreement.RecordedStateResolves | reference/packages/planning/src/context.ts:114-134 | the State recorded for a batch is one that the next plan resolves |
| Agreement.RecordedIsTracked | reference/packages/integration/src/project.ts:65-100 | after a recorded batch the projection again tracks the vault for the next plan, so agreement chains over any run of batches |
| Agreement.PlannedRequestIsTracked | reference/packages/integration/src/project.ts:212-263 | a planned request is recognized as pending escrow with its economics readable |
| Agreement.PlannedRefundIsRecorded | reference/packages/integration/src/project.ts:160-203 | a realized refund plan is recorded as a refund into the planned output |
| Agreement.PlannedDeliveryIsRecorded | reference/packages/integration/src/project.ts:160-203 | a realized delivery plan is recorded as delivering the i-th Claim in reference order to output i |
| LedgerAgreement.SuccessorIsDesignated | reference/packages/integration/src/project.ts:65-100 | for every planned operation that changes the State, the reader accepts the realized redeemer and designates the planned successor |
| LedgerAgreement.ProjectionMovesVault | reference/packages/integration/src/project.ts:272-309 | whatever else a projected transaction does, each tracked vault moves exactly as its own State input says |
| LedgerAgreement.VaultStaysInSync | reference/packages/integration/src/project.ts:65-100 | on every step of the ledger, planned or wallet, a vault record that equals the State output moves to the next State output |
| Acceptance.AcceptedByVisit | reference/packages/integration/src/project.ts:272-309 | when every tracked input is directed, other vaults are spared and none is announced, a whole transaction is accepted exactly when its visit to the one vault is |
| Acceptance.SettledWerePending | reference/packages/integration/src/project.ts:109-151 | every settlement that the reader accepts was of a Request pending before the batch |
| LedgerReading.RealizedStepIsAccepted | reference/packages/integration/src/project.ts:272-309 | a following reader accepts a realized transaction of any kind whole, if and only if each Request that it settles is tracked as pending |
| LedgerReading.AcceptedIsFollowed | reference/packages/integration/src/project.ts:272-309 | whatever realized transaction a following reader accepts, its vault, unspent outputs and links follow the ledger afterwards |
| LedgerReading.ReaderFollowsLedger | reference/packages/integration/src/project.ts:272-309 | along every run the reader accepts each transaction, and the projected State is the ledger's State output |
| LedgerReading.ServedStateIsTrue | reference/packages/integration/src/project.ts:272-309 | so the served supply is all SHARE on the ledger, and the served State output holds exactly its custody |
| GenesisAgreement.PlannedGenesisIsDiscovered | reference/packages/integration/src/identity.ts:31-165 | a realized genesis plan is discovered as the planned deployment at its new Config reference, with the planned State, and is an error exactly when another output looks like its State |
| GenesisAgreement.StateIsOnlyPlanned | reference/packages/integration/src/identity.ts:31-58 | by the ledger's balance, no other output of a genesis looks like its State |
| GenesisAgreement.GenesisIsFollowed | reference/packages/integration/src/identity.ts:130-165 | a realized genesis that disturbs nothing else is accepted, and the reader follows the ledger it made |
| GenesisAgreement.ReaderFollowsFromGenesis | reference/packages/integration/src/project.ts:272-309 | from genesis on, along every run, the reader accepts each transaction and follows the ledger |
| Readers.VaultReader.Forward | reference/packages/integration/src/reader.ts:174-189 | prepares exactly when the specification does and changes nothing visible; the token carries a faithful view |
| Readers.VaultReader.Backward | reference/packages/integration/src/reader.ts:202-222 | rebuilding the retained prefix prepares exactly when the specification does and changes nothing visible |
| Readers.ForwardIsExact | reference/packages/integration/src/reader.ts:174-189 | a block is prepared exactly when it extends the point the reader is at and all its transactions project |
| Readers.BackwardIsExact | reference/packages/integration/src/reader.ts:202-222 | a rollback is prepared exactly to the intersection or a retained point, which then is the head |
| Readers.VaultReader.ExtendStaging | reference/packages/integration/src/reader.ts:183-184 | the loop over a block's transactions is the projection of the block |
| Readers.PreparedUpdate.Publish | reference/packages/integration/src/reader.ts:225-243 | publishes exactly once and only at the revision it was prepared at; a refused call changes nothing |
| Readers.ForwardIsFaithful | reference/packages/integration/src/reader.ts:174-189 | from a faithful reader, what forward prepares is the replay of the history it would publish |
| Readers.BackwardIsFaithful | reference/packages/integration/src/reader.ts:202-222 | from a faithful reader, what rollback prepares is the replay of a prefix of the retained blocks |
| Readers.RollbackSucceeds | reference/packages/integration/src/reader.ts:202-222 | rolling back to any retained point or to the intersection always succeeds and keeps exactly that prefix |
| Readers.EveryRunIsFaithful | reference/packages/integration/src/reader.ts:174-243 | over every sequence of forwards, rollbacks and failed, abandoned or stale preparations, the published view is the replay of the retained blocks, and of the tokens of one revision at most one was published |
| Readers.BranchesLeaveNoTrace | reference/packages/integration/src/reader.ts:191-222 | two runs that retain the same blocks serve the same view, whatever was rolled back on the way |
| Readers.ReplayIsLifecycle | reference/packages/integration/src/reader.ts:174-243 | every view published over an admissible feed satisfies the lifecycle invariant |
| Ownership.FreeShareBalance | reference/packages/integration/src/reader/ownership.ts:39-51 | the loop sums SHARE at the owner's complete address over untracked unspent outputs |
| Ownership.PendingRequestOwnership | reference/packages/integration/src/reader/ownership.ts:59-98 | locked shares, pending assets and unsupported requests of the refund owner, and apart from them the requests the owner controls |
| Ownership.UndeliveredClaimOwnership | reference/packages/integration/src/reader/ownership.ts:106-128 | issued shares and fixed asset Claims still owed to the owner |
| Ownership.OwnershipData | reference/packages/integration/src/reader/ownership.ts:130-153 | each partition is exactly its own sum, fixed Claims included, and the three share partitions together are the owner's shares in the no-double-count theorem |
| Ownership.LockedIsHeld | reference/packages/integration/src/reader/lifecycle.ts:25-39 | a pending redemption whose escrow validates locks exactly the shares its output holds |
| Ownership.IssuedIsHeld | reference/packages/integration/src/project.ts:139-141 | an undelivered SHARE Claim owes exactly the shares its output holds |
| Ownership.OwnershipNeverDoubleCounts | reference/packages/integration/src/reader/ownership.ts:39-128 | for any distinct owner addresses, free plus locked plus issued shares together are at most the SHARE in the projected unspent outputs |
| Ownership.FreeSharesReach | reference/packages/integration/src/reader/ownership.ts:39-51 | the free shares of all holders together are the SHARE of the untracked outputs at base and enterprise addresses |
| Ownership.PricedIsExact | reference/packages/integration/src/reader/lifecycle.ts:25-39 | a Request counts as priced exactly when its economics are readable, bind the vault and its Terms, and its output holds its escrow |
| Journals.Journal.Append | reference/services/indexer/src/storage/journal.ts:119-131 | appends whole or not at all, exactly when contiguous and the hash is new |
| Journals.Journal.Rollback | reference/services/indexer/src/storage/journal.ts:133-153 | truncates whole or not at all, exactly to a stored point or the intersection under the expected head |
| Journals.AppendThenRollback | reference/services/indexer/src/storage/journal.ts:119-153 | rolling back to the parent undoes an append exactly |
| Journals.RollbackAgreesWithReader | reference/services/indexer/src/storage/journal.ts:133-153 | the journal's search by hash and the reader's search by point keep the same blocks |
| Journals.AppendIsExact | reference/services/indexer/src/storage/journal.ts:119-131 | a row is appended exactly when it is contiguous and new by hash, and becomes the head |
| Journals.RollbackIsExact | reference/services/indexer/src/storage/journal.ts:133-153 | a rollback keeps exactly the rows up to its target under the expected head |
| Runners.Runner.Restore | reference/services/indexer/src/runner.ts:68-96 | the replay loop over stored rows ends in the specified host, with budgets checked row by row |
| Runners.Runner.Forward | reference/services/indexer/src/runner.ts:112-137 | admits exactly within budgets, session, tip, projection and commit, then publishes; otherwise fails the host and leaves journal and view alone |
| Runners.Runner.Backward | reference/services/indexer/src/runner.ts:139-158 | refused outside a session without change; otherwise a new generation that rolls journal and view back together, or fails |
| Runners.Runner.Intersect | reference/services/indexer/src/runner.ts:103-110 | reconciles a connection from any phase but failed, stopped and replaying |
| Runners.Runner.ObserveTip | reference/services/indexer/src/runner.ts:172-191 | a heartbeat tip advances the session or, on conflict, disconnects it |
| Runners.Runner.Progress | reference/services/indexer/src/runner.ts:210-219 | keeps the highest observed tip and is ready exactly within the allowed lag |
| Runners.Runner.Target | reference/services/indexer/src/runner.ts:246-258 | a lookup target exists exactly at a ready host standing at the observed tip and the durable head |
| HostRuns.RestoreSucceeds | reference/services/indexer/src/runner.ts:68-96 | a durable journal always restores, to a connecting host with exactly its blocks |
| HostRuns.HandleKeeps | reference/services/indexer/src/runner.ts:103-158 | every event keeps journal and view equal, the journal restorable, and readiness honest |
| HostRuns.EveryRunIsDurable | reference/services/indexer/src/runner.ts:68-258 | over every run with crashes, outside an in-flight event the journal holds exactly the reader's retained blocks and the view is their replay |
| HostRuns.CrashYieldsBeforeOrAfter | reference/services/indexer/src/runner.ts:112-158 | stopping anywhere between prepare, commit and publish and restoring always succeeds, with exactly the view before or after the event |
| HostRuns.RunIsLater | reference/services/indexer/src/runner.ts:103-243 | instance, then generation, then retained history only grow along a run |
| HostRuns.SameGenerationSameHistory | reference/services/indexer/src/runner.ts:246-258 | equal instance, generation and head at two times mean identical history and view |
| HostRuns.ReadyIsCaughtUp | reference/services/indexer/src/runner.ts:205-231 | ready means the durable head is served and the observed tip is at most the allowed lag ahead, never behind |
| HostRuns.ForwardCatchesUp | reference/services/indexer/src/runner.ts:112-219 | after an admitted block the host serves exactly when the later of the observed and the retained tip is within the allowed lag of it |
| HostRuns.BackwardCatchesUp | reference/services/indexer/src/runner.ts:139-219 | after an admitted rollback it serves exactly when the observed tip alone is within the lag of the target |
| HostRuns.IntersectCatchesUp | reference/services/indexer/src/runner.ts:103-110 | a reconciled intersection is such a rollback from any phase that may reconcile |
| HostRuns.HeartbeatIsExact | reference/services/indexer/src/runner.ts:172-191 | a heartbeat disconnects exactly behind the head, at the head with another block, or behind the retained tip, and otherwise only catches up |
| HostRuns.AdmissionIsExact | reference/services/indexer/src/runner.ts:112-137 | a block is admitted exactly in a session, under a fitting tip, within every budget, when it projects and is new |
| HostRuns.StoppedHost | reference/services/indexer/src/runner.ts:112-158 | a stopped host leaves that phase exactly on a block or a recorded failure, and no event changes its journal or view |
| HostRuns.StoppedRun | reference/services/indexer/src/runner.ts:103-257 | whatever a stopped process is still sent, it never serves again, and it is stopped exactly when neither a block nor a failure came after its last close |
| HostRuns.ClosedHostFailsOnBlock | reference/services/indexer/src/runner.ts:112-158 | a closed host that receives an empty block fails, and refuses a rollback in its place without a change |
| Reconciliations.KupoReconciliation.Begin | reference/services/indexer/src/chain/kupo-reconciliation.ts:37-48 | starting a probe takes a new revision and clears what was recorded |
| Reconciliations.KupoReconciliation.Finish | reference/services/indexer/src/chain/kupo-reconciliation.ts:50-58 | a finished probe is recorded exactly when no later one has started |
| Reconciliations.KupoReconciliation.Status | reference/services/indexer/src/chain/kupo-reconciliation.ts:61-80 | reconciled only for an unexpired observation of the very target asked about |
| Reconciliations.OvertakenProbesAreIgnored | reference/services/indexer/src/chain/kupo-reconciliation.ts:37-59 | in every interleaving, an overtaken probe changes nothing however late it finishes |
| Reconciliations.VerifiedIsCurrent | reference/services/indexer/src/chain/kupo-reconciliation.ts:37-80 | in every interleaving with host events and crashes, verified means the last-started probe looked at the present history and view, at the observed tip |
| Reconciliations.StatusIsExact | reference/services/indexer/src/chain/kupo-reconciliation.ts:61-80 | the present target is verified exactly by an unexpired reconciled observation of it |
| Reconciliations.LatestProbeIsRecorded | reference/services/indexer/src/chain/kupo-reconciliation.ts:37-59 | a probe that nothing overtakes is recorded |
| EffectsLedger.SameValueMeans | reference/packages/cardano/src/effects-ledger.ts:122-130 | the comparison of normalized maps is agreement on every asset; malformed values are refused |
| EffectsLedger.Balance.Add | reference/packages/cardano/src/effects-ledger.ts:137-140 | adds the signed normalized quantity of every asset to the accumulator |
| EffectsLedger.SameOutputIsIdentity | reference/packages/cardano/src/effects-ledger.ts:183-213 | matching outputs is equality up to spelling, hence an equivalence on well-formed outputs |
| EffectInputs.IndexEvidence | reference/packages/cardano/src/effects.ts:37-62 | indexes a category exactly when references are distinct, addresses are payment addresses of the network, quantities are unsigned, and keys are present where demanded |
| EffectInputs.ResolveAuthorizedInputs | reference/packages/cardano/src/effects.ts:71-146 | accepts exactly the plan's spends plus allowlisted funding and disjoint allowlisted references, and accumulates exactly the evidence of the spends and their keys |
| EffectInputs.SpendsSplit | reference/packages/cardano/src/effects.ts:109-131 | the accumulated value is the plan's own evidence plus the selected funding, asset by asset |
| EffectInputs.VerifyCollateralEvidence | reference/packages/cardano/src/effects.ts:154-179 | accepts exactly allowlisted key-held collateral consistent with overlapping spends, and collects exactly its keys |
| EffectInputs.VerifyCollateral | reference/packages/cardano/src/effects.ts:401-455 | accepts exactly when no native asset is exposed, ADA exposure is within the authorization, the return is authorized change, and a stated total agrees |
| EffectOutputs.VerifyOutputs | reference/packages/cardano/src/effects.ts:333-392 | accepts if and only if the protected prefix matches by index, the permitted outputs occur as a sub-multiset of the rest, and everything else is change; and then attributes every asset exactly |
| EffectOutputs.UnapprovedIsExcess | reference/packages/cardano/src/effects.ts:365-384 | an output that matches nothing left and is not change breaks the multiset condition, so refusing it is right |
| EffectOutputs.ReviewEnds | reference/packages/cardano/src/effects.ts:387-388 | with all outputs reviewed, the multiset condition holds exactly when no permitted entry remains |
| Witnesses.PlannedWitnessRequirements | reference/packages/cardano/src/effects-witnesses.ts:15-68 | the two loops derive exactly the specified pointers and script hashes |
| Witnesses.VerifyRedeemers | reference/packages/cardano/src/effects-witnesses.ts:77-118 | the deleting walk accepts if and only if the observed redeemers are the expected ones, each exactly once and none besides |
| Witnesses.VerifyScriptAvailability | reference/packages/cardano/src/effects-witnesses.ts:127-158 | accepts if and only if attached programs are all needed and every needed one is attached or named by reference |
| Witnesses.VerifyWitnesses | reference/packages/cardano/src/effects-witnesses.ts:168-206 | accepts if and only if no other witness kind is present, pointers match and programs are available |
| Witnesses.RequirementsMean | reference/packages/cardano/src/effects-witnesses.ts:35-65 | the expected map is exactly the planned spends at their canonical positions and the planned mints at their policies |
| Witnesses.ExecutionIsPlanned | reference/packages/cardano/src/effects-witnesses.ts:77-118 | matching redeemers are in bijection with the planned actions, by pointer and data |
| Effects.ExpectedMint | reference/packages/cardano/src/effects.ts:509-514 | the accumulated planned mint holds each asset's sum over all planned policies and names |
| Effects.VerifyMint | reference/packages/cardano/src/effects.ts:508-516 | accepts exactly when the observed signed mint agrees with the planned one on every asset |
| Effects.VerifyConservation | reference/packages/cardano/src/effects.ts:538-544 | accepts exactly when spends and mint equal outputs and fee for every asset |
| Effects.LossIsAuthorized | reference/packages/cardano/src/effects.ts:465-580 | funding less change is permitted plus protected outputs less plan inputs and planned mint, plus for ADA the fee, for every asset |
| Effects.VerifyTransactionEffects | reference/packages/cardano/src/effects.ts:465-580 | approves if and only if every condition of the policy holds; approval keeps every slot of the interval within the plan's bounds, has every planned and additional signer sign, admits no other purpose, script-data or network, bounds the wallet's loss exactly by prior authorization and a fee within its cap, and the failure path by the authorized exposure, and names exactly the keys that must sign |
| Reviews.ReviewIsExact | reference/packages/cardano/src/effects.ts:465-580 | review accepts exactly the candidates whose header, interval, evidence, spends, reads, collateral, mint, signers, execution, outputs and balance are as authorized, each spelled out over the candidate's own fields |
| Reviews.OutputsAuthorizedMean | reference/packages/cardano/src/effects.ts:333-392 | planned outputs first and as planned; then each permitted output as often as permitted, counted, and nothing beyond that but the wallet's own change |
| Reviews.ExecutionMeans | reference/packages/cardano/src/effects-witnesses.ts:15-206 | script witnesses are accepted exactly when planned spends sit at their scripts, redeemers are the planned ones at their canonical positions, and the programs present are those needed |
| Reviews.WitnessKeysMean | reference/packages/cardano/src/effects.ts:109-179 | whoever must sign holds a spend or the collateral or is named in the signer field, and nobody else |
| Approvals.ApprovalMeans | reference/packages/cardano/src/effects.ts:465-580 | an approval's roles, references and programs are what the wallet or the plan named |
| Effects.ApprovedExecutionIsPlanned | reference/packages/cardano/src/effects.ts:516-535 | an approved candidate executes exactly its plan's scripts, or none without a plan |
| Selection.NormalizeGroups | reference/packages/cardano/src/selection.ts:134-155 | accepts exactly nonempty groups of valid references with no repetition across groups |
| Selection.BoundedPrefixes | reference/packages/cardano/src/selection.ts:163-177 | all whole-group runs from a start that fit the cap, longest first |
| Selection.BoundedEndIsExact | reference/packages/cardano/src/selection.ts:163-177 | a run is among those prefixes exactly when it fits the cap |
| Selection.SearchHead | reference/packages/cardano/src/selection.ts:256-291 | trying one head finds its longest feasible run, with one attempt recorded for each call |
| Selection.SearchIsMaximal | reference/packages/cardano/src/selection.ts:187-304 | the chosen run is feasible, none longer from its head is, none from an earlier head is; and no choice means nothing is feasible |
| Selection.Select | reference/packages/cardano/src/selection.ts:187-304 | succeeds exactly when input is normal and valid and no call fails otherwise than by resources; the result is the search's, with all attempts and all omissions accounted for |
| Selection.SelectionPartitions | reference/packages/cardano/src/selection.ts:216-251 | every reference appears once, in caller order: exclusions before, the run, exclusions after |
| Selection.ReasonsAreMeasured | reference/packages/cardano/src/selection.ts:216-304 | every omission before the run is over the cap or was measured alone and carries that failure, as an item or a group, and one after the run was never measured |
| Selection.HeadIsTriedInOrder | reference/packages/cardano/src/selection.ts:256-291 | a head is tried with every run within the cap, longest first, down to the first that is prepared |
| Selection.AttemptsAreInOrder | reference/packages/cardano/src/selection.ts:256-304 | the recorded attempts are those of each head in turn up to the chosen one, and no others |
| Selection.SelectNextBatch | reference/packages/cardano/src/selection.ts:314-339 | selects under the snapshot's cap and only if the final read names the same State |
| HexStrings.PrintThenParse | reference/packages/protocol/src/data/value.ts:36-59 | printed bytes parse back to themselves |
| HexStrings.ParseThenPrint | reference/packages/protocol/src/data/value.ts:36-59 | parsed text prints as its lower-case form |
| HexStrings.SameBytesIffSameLower | reference/packages/protocol/src/data/value.ts:53-55 | two spellings name the same bytes exactly when they agree up to letter case |
| HexStrings.HexIsExact | reference/packages/protocol/src/data/value.ts:36-59 | hexadecimal text is an even number of digits in either case, and the first of each pair is the more significant |
| DataValues.EqualDataIsSemantic | reference/packages/protocol/src/data/value.ts:98-115 | the recursive comparison is equality up to the spelling of alternatives, list length and pair order included |
| DataValues.CanonicalMeansTheSame | reference/packages/protocol/src/data/value.ts:25-29 | respelling alternatives keeps Data shaped and equal, and is idempotent |
| DataJson.PrintIntParses | reference/packages/protocol/src/data/value.ts:148-153 | every integer survives its decimal text |
| DataJson.ParsedIntPrints | reference/packages/protocol/src/data/value.ts:148-153 | accepted decimal text prints back to itself exactly when it is not `-0` |
| DataJson.NegativeZeroParses | reference/packages/protocol/src/data/value.ts:148-153 | the text `-0` parses, as the integer that prints as `0` |
| DataJson.JsonSurvives | reference/packages/protocol/src/data/value.ts:122-225 | printing and parsing returns the same Data, large alternatives and ordered pairs included |
| DataJson.ParsedIsCanonical | reference/packages/protocol/src/data/value.ts:160-225 | whatever the parser accepts is shaped and in preferred spelling |
| DataJson.JsonFormat | reference/packages/protocol/src/data/value.ts:122-225 | JSON is accepted as Data exactly when it writes that Data, member by member and pair by pair, with decimal strings for integers and both spellings of an alternative |
| BoundedData.Walker.Walk | reference/packages/protocol/src/data/bounds.ts:19-47 | with the shared counter at n, succeeds exactly when the subtree fits its depth and what is left of the budget |
| BoundedData.ValidateBoundedData | reference/packages/protocol/src/data/bounds.ts:12-55 | accepts precisely the Data within the node, depth, integer, byte, alternative, key and size limits, unchanged |
| BoundedData.FittingIsShaped | reference/packages/protocol/src/data/bounds.ts:30-45 | Data within the limits is shaped, so key comparison is exact on it |
| WireFormat.ProfileMeans | reference/packages/protocol/src/data/bounds.ts:12-55 | depth, integer width, byte length, alternative and key limits of a recipient datum, node by node |
| WirePrimitives.CredentialSurvives | reference/packages/protocol/src/wire/primitives.ts:96-113 | encode then decode gives the canonical credential |
| WirePrimitives.AddressSurvives | reference/packages/protocol/src/wire/primitives.ts:125-139 | encode then decode gives the canonical address |
| WirePrimitives.AddressDecoded | reference/packages/protocol/src/wire/primitives.ts:125-139 | accepted Data equals the encoding of its decoded address |
| WirePrimitives.EncodedAddressIsIdentity | reference/packages/integration/src/reader/ownership.ts:80-81 | encoded addresses are equal exactly when the addresses agree up to letter case |
| WirePrimitives.DestinationSurvives | reference/packages/protocol/src/wire/primitives.ts:146-159 | encode then decode gives the canonical destination, its bounded datum unchanged |
| WirePrimitives.DestinationDecoded | reference/packages/protocol/src/wire/primitives.ts:146-159 | accepted Data equals the encoding of its decoded destination |
| WirePrimitives.AssetSurvives | reference/packages/protocol/src/wire/primitives.ts:166-194 | encode then decode gives the canonical asset |
| WirePrimitives.AssetDecoded | reference/packages/protocol/src/wire/primitives.ts:166-194 | accepted Data equals the encoding of its decoded asset |
| WirePrimitives.OutRefSurvives | reference/packages/protocol/src/wire/primitives.ts:207-225 | encode then decode gives the reference's identity |
| WirePrimitives.OutRefDecoded | reference/packages/protocol/src/wire/primitives.ts:207-225 | accepted Data equals the encoding of its decoded reference |
| WireTerms.SettlersSurvive | reference/packages/protocol/src/wire/terms.ts:26-67 | an unrestricted or strictly ordered key set survives, and keeps its alternative |
| WireTerms.SettlersDecoded | reference/packages/protocol/src/wire/terms.ts:26-67 | accepted key lists are nonempty, bounded, strictly ordered, and equal their re-encoding |
| WireTerms.TermsSurvive | reference/packages/protocol/src/wire/terms.ts:75-123 | encoded Terms decode to the same Terms with canonical identifiers |
| WireTerms.TermsDecoded | reference/packages/protocol/src/wire/terms.ts:102-123 | accepted Terms Data equals what the encoder produces for the decoded Terms |
| WireFormat.TermsFormat | reference/packages/protocol/src/wire/terms.ts:75-123 | Data decodes to Terms exactly when its thirteen fields write them in commitment order, each in its own format and range |
| WireDatums.StateSurvives | reference/packages/protocol/src/wire/state.ts:72-116 | encoded State decodes to the same State with canonical identifiers |
| WireDatums.StateDecoded | reference/packages/protocol/src/wire/state.ts:97-116 | accepted State Data equals what the encoder produces |
| WireFormat.StateFormat | reference/packages/protocol/src/wire/state.ts:72-116 | Data decodes to a State exactly when its ten marked fields write it, each in its own range |
| WireDatums.ConfigSurvives | reference/packages/protocol/src/wire/state.ts:24-64 | encoded Config, Terms commitment included, decodes to the same Config |
| WireDatums.ConfigDecoded | reference/packages/protocol/src/wire/state.ts:48-64 | accepted Config Data equals what the encoder produces |
| WireFormat.ConfigFormat | reference/packages/protocol/src/wire/state.ts:24-64 | Data decodes to a Config exactly when its seven marked fields write it and its hash commits to its Terms |
| WireDatums.RecoverySurvives | reference/packages/protocol/src/wire/requests.ts:34-57 | encoded Recovery decodes to the same Recovery |
| WireDatums.RecoveryDecoded | reference/packages/protocol/src/wire/requests.ts:48-57 | accepted Recovery Data equals its re-encoding |
| WireDatums.BodySurvives | reference/packages/protocol/src/wire/requests.ts:65-117 | an encoded economic body decodes to the same body |
| WireDatums.BodyDecoded | reference/packages/protocol/src/wire/requests.ts:91-117 | accepted body Data equals its re-encoding |
| WireDatums.RequestSurvives | reference/packages/protocol/src/wire/requests.ts:125-163 | an encoded Request decodes to the same Request |
| WireDatums.RequestDecoded | reference/packages/protocol/src/wire/requests.ts:139-163 | accepted Request Data equals what the encoder produces |
| WireFormat.RequestFormat | reference/packages/protocol/src/wire/requests.ts:34-163 | Data decodes to a Request exactly when its marked fields write a Recovery and an economic body, each in its own range |
| WireDatums.ClaimSurvives | reference/packages/protocol/src/wire/requests.ts:171-218 | an encoded Claim decodes to the same Claim |
| WireDatums.ClaimDecoded | reference/packages/protocol/src/wire/requests.ts:199-218 | accepted Claim Data equals what the encoder produces |
| WireFormat.ClaimFormat | reference/packages/protocol/src/wire/requests.ts:171-218 | Data decodes to a Claim exactly when its ten marked fields write it |
| WireDatums.DatumKindsAreDisjoint | reference/packages/protocol/src/wire/requests.ts:139-218 | no Data decodes as two of State, Request envelope, Claim and Config |
| WireDatums.ClassificationIsComplete | reference/packages/protocol/src/wire/state.ts:48-116 | the one reading of a datum says of every decoder, tried alone, whether it accepts and what it returns |
| WireActions.RedeemerSurvives | reference/packages/protocol/src/wire/actions.ts:33-155 | every encodable action decodes, under its own role, to its canonical form with entries in reference order |
| WireActions.RedeemerDecoded | reference/packages/protocol/src/wire/decode-actions.ts:226-252 | accepted Data equals what the encoder produces for the decoded action, which is already in canonical form |
| WireFormat.RedeemerFormat | reference/packages/protocol/src/wire/decode-actions.ts:226-252 | Data decodes under a role exactly when it writes an action of that role, field by field, whose entries are in strict order and whose outputs are apart |
| WireActions.ShapeIsEncodable | reference/packages/protocol/src/wire/actions.ts:33-155 | what a plan may carry as a redeemer is what the encoder takes, in order, up to the size of a receiver's datum |
| WireActions.DecodedRedeemerFits | reference/packages/planning/src/plan.ts:133-153 | every redeemer accepted for its role has the shape that plan validation asks for |
| WireActions.SettleListIsCanonical | reference/packages/protocol/src/wire/decode-actions.ts:69-101 | a settle list that equals the encoding of its own sorted reading was strictly ordered already |
| WireActions.DeliverListIsCanonical | reference/packages/protocol/src/wire/decode-actions.ts:166-181 | a delivery list that equals the encoding of its own sorted reading was strictly ordered already |
| WireActions.RolesAreDisjoint | reference/packages/protocol/src/wire/decode-actions.ts:232-252 | no Data decodes under two redeemer roles |
| WireActions.RedeemerClassificationIsComplete | reference/packages/protocol/src/wire/decode-actions.ts:232-252 | the one reading of a redeemer says of every role, selected alone, whether its decoder accepts and what it returns |

## Left out

- CBOR bytes, bech32, signatures, script evaluation and BLAKE2b: decoded transactions are records, the preferred encoded
  length and the Terms commitment are functions that a codec takes as arguments, and identifiers are compared as text.
- Encoder refusals by size inside planners: plans carry the datum and redeemer records themselves, checked for shape, so a
  plan whose preferred encoding would exceed its role's size ceiling is not refused; the ceilings are in the codecs.
- Which error is thrown: acceptance is modelled exactly, but errors are one constructor for each family of messages, and
  where several conditions fail at once the model does not say which is reported.
- Readers.VaultReader.constructor: the shape checks of network, builds and selected policies are not modelled.
- Readers.VaultReader.Forward: states when a block is admitted and what is prepared, not which error a refusal carries.
- Ownership.PendingRequestOwnership: the controlled requests are listed once each, but their map order is not modelled.
- Journals.Journal.constructor: SQLite is an atomic list of rows with a head and a unique hash; the identity binding, the
  integrity check and the JSON text of stored bodies are not modelled.
- Runners.Runner.constructor: the random instance identifier is a counter that each restore advances.
- Effects.VerifyTransactionEffects: inline Data and redeemers compare as records instead of canonical CBOR, and execution
  budgets are reported without being judged, as in the source.
- Selection.Select: the preparation callback is a fixed function of the candidate, so a callback that answers differently
  on the same candidate is outside the model; `selectNextDelivery` is the same search with the cap 16.
- DataValues.EqualData: a malformed constructor alternative compares unequal instead of raising an error.
- `assertApprovedTransaction`: comparing the signed bytes and checking signatures is about encodings only.
- On-chain validators: the planners' and the reader's rules are modelled, not script acceptance.
- Ogmios, HTTP, timeouts, abort signals and clocks: only the events they deliver, and the age of an observation as a flag.
- Query views, response envelopes, plugin loading, the price codec and build tools: field-by-field checks over the same
  arithmetic.
