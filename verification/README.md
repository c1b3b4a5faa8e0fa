# Verified model of the Hamilton token ledgers

The repository keeps one token ledger in three forms: SQL tables behind Hamilton Core, a locked in-memory dictionary,
and a Redis store with optimistic transactions. Around them stand a shared transaction model, a wallet that builds
payments, a merchant service that settles payment requests, and two rate limiters. This project models those parts in
Dafny and proves what each of them keeps over every run.

Imperative code is modelled imperatively. Hamilton Core, the in-memory ledger, the Redis store, the wallet, the
merchant and the limiters are classes whose methods loop over their fields; every method is proved equal to a
specification function of the old state, and the theorems over runs and interleavings are about those functions. What
such a function computes is in turn fixed by laws that speak of requests, transactions and tables only: who is paid
(`Payments`, `Payees`), which requests run and what they are answered (`HamiltonRequests`), which errors are reported
(`PreCheckReports`, `ValidationReports`), how a payment request ends (`Merchant.StatusIff`), who passes a limiter
(`RateLimits.AcceptedIff`) and what the hashed and signed texts look like (`Texts`).

| file | content |
|---|---|
| `Prelude.dfy` | options, results, sums over lists and sets |
| `Decimal.dfy`, `Rounding.dfy` | amounts as decimals, 28-digit sums, amounts as text; how rounding to 28 digits and to a cent act on each other |
| `Json.dfy` | JSON text as `json.dumps` prints it (ASCII escapes as in section 7 of RFC 8259), and its injectivity |
| `Syntax.dfy`, `Signing.dfy` | the text forms of keys and UUIDs; what Hamilton's requests sign and when a signature is accepted |
| `Texts.dfy` | the hashed, signed and stored texts, character by character |
| `AuditLog.dfy`, `AuditValue.dfy`, `AuditChain.dfy` | Hamilton's audit log: replay and provenance, value, hash chain |
| `HamiltonCore.dfy`, `HamiltonRuns.dfy`, `HamiltonRequests.dfy` | transfer, mint and burn as transactions; runs with restarts; exactly which requests are executed and what each is answered |
| `TxRules.dfy`, `Tokens.dfy`, `Payments.dfy` | canonical text, validation, and the token table shared by the other two ledgers; whom a transaction pays |
| `MemoryLedger.dfy`, `MemoryRuns.dfy` | the in-memory ledger; any number of threads |
| `RedisStore.dfy`, `RedisRuns.dfy` | commands, pipelines, snapshot, restore, healing balances; any number of clients |
| `CoreModels.dfy` | the transaction model's own economic check, compared with the ledgers' validation |
| `Wallet.dfy`, `WalletRuns.dfy`, `Payees.dfy` | coin selection, locks, sequences of payments, payments before the ledgers, and whom they pay |
| `RateLimits.dfy` | the bridge's sliding window and Hamilton's minute buckets |
| `Merchant.dfy` | payment requests and webhooks |

## How the model reads the code

- Ledger amounts are whole cents; an amount given to the wallet or the merchant is any finite decimal, digits / 10^places
  cents. `Decimal` sums, differences and products carry the default context of 28 significant digits and are rounded,
  half to even; comparisons and quantizing are exact, and quantizing to more than 28 digits fails. Laws about totals are
  therefore true up to 10^28 cents and false beyond it, and the lemmas that say so prove both halves.
- Hamilton checks that an amount is positive before cutting it down to cents, so tokens of zero cents exist there.
  The other two ledgers reject such outputs.
- Token ids are strings. `core/models.py` types ids as UUID4 while both ledgers compare a supplied `transaction_id` with
  a hexadecimal digest, which no UUID can equal; the model treats the supplied id as an optional string and compares it
  as the ledgers do.
- `uuid4` (section 5.4 of RFC 9562) is a parameter that returns an id never issued before. Hamilton does not need that
  assumption: its primary keys refuse a repeated id, and the model includes the refusal.
- Hamilton's request bodies appear with their amounts parsed (`Decimal.ToCents`), and their keys and counts are checked
  as the request models check them. Which forms of a UUID besides the plain one the idempotency key may take is left
  open by a parameter of the configuration.
- SHA-256 and Ed25519 are uninterpreted. Where a theorem needs it, digests are assumed to be 64 hexadecimal characters,
  and to differ on the finitely many texts that the compared logs actually hashed; no hash is assumed injective.
  Hamilton's verification is a function of key, message and signature, reached only with a key of 32 bytes and
  a signature of 64; the message is the prefix and the canonical payload.
- `BEGIN IMMEDIATE` is serial execution with a committed copy that a rollback restores. Redis `EXEC` fails when the
  version of a watched key has moved. An expiring replay key may or may not count as a change; both are covered.
- Authentication is not modelled, so Hamilton's clients have any names; `ReachedInRole` shows that the two registered
  clients, each in its role, reach every log that any clients reach, while plain UUIDs are left for idempotency keys.
- Clock readings are parameters, and nothing forces them to increase except where a lemma says so; in particular
  `ReachableIffGenuine` lets the clock of each request fit its signature. The ledgers judge expiry when they validate,
  not when they commit.
- Runs of the in-memory ledger start from any table of tokens, since it has no mint. Runs of the Redis ledger start
  empty and add tokens under fresh ids.

## What comes out false, and when

- UNSPENT = minted - burned holds in all Hamilton runs exactly when no currency's mints may reach 10^28 cents
  (`HamiltonRuns.RunConservationIff`), and the other two ledgers keep their totals exactly up to the same bound (`RunConservesIff` of
  each), wherever somebody's signatures are accepted. A sum of up to 100 amounts is exact
  exactly when each is at most 10^26 cents (`HundredExactIff`).
- Reported balances are exact exactly up to 10^28 cents, in any order of addition (`BalanceExactIff`, `PrintedTotalsIff`).
- The chain head binds payloads but not the `tx_id` column, so it does not name minted tokens (`HeadOmitsMintIds`);
  two logs with equal heads have the same table exactly when their MINT rows carry the same ids (`HeadBindsTableIff`).
- The canonical transaction text leaves out lock scripts and signatures, and tells a fee of -0.00 from one of 0.00
  (`CanonicalIff`).
- At the very instant of a token's expiry both ledgers let it be spent and the transaction model does not
  (`LedgerVersusModel`); balances no longer count it then either.
- A covered payment is always built exactly while the available coins stay below 10^28 cents (`BuiltWhenCoveredIff`).
  Whatever is built is optimal, without any bound (`BuiltIsOptimal`).
- A payment as the wallet builds it never passes the ledgers' checks before validation: it carries a UUID where only the
  digest is taken (`BuiltIdRefused`, `WholeCentPreCheckIff`).
- A wallet payment for a fraction of a cent can lose or gain a cent, or carry an output of nothing: the change is rounded
  to 28 digits and then to a cent. Exactly when is `PaymentMeetsRulesIff`, and `SlipperyPayment` is an input of 29
  decimals of a cent that fails for the double rounding alone. Whole cents are always safe
  (`WholeCentPaymentsAreValid`).
- The merchant rounds to 28 digits before it truncates. Below 10^28 cents an amount keeps its whole cents or gains
  exactly one, and it gains one exactly when its 29th digit and what follows round it onto the next cent; from there on
  it keeps its whole cents exactly when these need no more than 28 digits (`TruncateIff`, with `TruncateRoundsUp` as an instance).
- Twice the per-minute limit can pass within one second (`TwiceIsReached`), and no 60 seconds admit more (`AtMostTwice`).

## Model

| member | source | states |
|---|---|---|
| `HamiltonCore.Service.Transfer` | hamilton/main.py:491-580 | one transfer with all its failure points leaves exactly the next tables and reply of the pure function `Handle`, or the old tables |
| `HamiltonCore.Service.Mint` | hamilton/main.py:587-627 | the same for minting, under a fresh or colliding token id |
| `HamiltonCore.Service.Burn` | hamilton/main.py:631-691 | the same for burning, whatever token of the list is refused |
| `HamiltonCore.Service.Swap` | hamilton/main.py:536-560 | consuming, comparing totals and storing outputs gives the first objection in source order, or the marked table with the new rows |
| `HamiltonCore.Service.Consume` | hamilton/main.py:537-549 | the consuming loop reports the first objection in request order; with none it marks exactly the listed tokens and returns their 28-digit sum |
| `HamiltonCore.Service.InsertOutputs` | hamilton/main.py:555-560 | inserts all outputs, or reports a primary-key clash exactly when an output id exists |
| `HamiltonCore.Service.Finish` | hamilton/main.py:562-566 | audit row, completed idempotency row and commit, or rollback to the old tables |
| `HamiltonCore.Service.IdemAcquire` | hamilton/main.py:451-471 | stored reply for a finished key, 409 for a pending one, otherwise a new PENDING row |
| `HamiltonCore.Service.IdemComplete` | hamilton/main.py:474-481 | completes a row exactly when it is there and PENDING |
| `HamiltonCore.Service.AuditInsert` | hamilton/main.py:319-329 | appends a row chained to the last one, unless its tx_id is taken |
| `HamiltonCore.Service.GcStaleIdem` | hamilton/main.py:104-109 | keeps exactly the finished keys and the PENDING ones of the last 130 seconds, and touches neither tokens nor log |
| `HamiltonCore.FirstBad` | hamilton/main.py:537-547 | there is no objection if and only if every listed token is unspent, of the currency and of the owner |
| `HamiltonRequests.ExecutedIff` | hamilton/main.py:491-691 | in every reached state a request lengthens the log if and only if it is of this network, at most 60 seconds from its signing time, well formed, signed for exactly its fields under a new usable key, without repeated ids, and takes unspent tokens of its signer and currency whose total its outputs with new ids match; then it leaves exactly those tokens spent or burned, its outputs or its mint as new rows, one chained audit row and its stored reply, and otherwise nothing |
| `HamiltonRequests.KeyTakenIff` | hamilton/main.py:451-471 | a key is taken exactly when an earlier event of the run by the same client lengthened the log under it |
| `HamiltonRequests.AnsweredIff` | hamilton/main.py:491-691 | the reply is 200 exactly for what is executed now and for well-formed repeats of a used key; a transfer is answered its transaction id, a mint its new token's id, a burn the number burned, a repeat the stored reply |
| `HamiltonRequests.StaleIsRefused` | hamilton/main.py:305-307 | a transfer or burn handled more than 60 seconds from its signing time changes nothing; if nothing else is wrong with it, the answer is 400 for that reason |
| `HamiltonRequests.RefusalMeans` | hamilton/main.py:491-691 | every refusal names the first thing that is wrong in the order of the checks, with its own status code; 409 does not occur |
| `HamiltonRuns.RunInvariant` | hamilton/main.py:528-566 | after every run with restarts: the table is the replay of the log, the log is legal and chained, and executions, audit rows and idempotency rows are in bijection |
| `HamiltonRuns.LogDeterminesTable` | hamilton/main.py:536-562 | replaying the audit log rebuilds every id, amount, currency, owner and status |
| `HamiltonRuns.NothingPending` | hamilton/main.py:104-109 | no committed PENDING row exists, so stale collection deletes nothing |
| `HamiltonRuns.RepeatIsReplayed` | hamilton/main.py:451-471 | any later repeat of an executed (client, key) returns the first reply and changes nothing |
| `HamiltonRuns.TxIdOnce` | hamilton/main.py:325-329 | one tx_id takes effect at most once, under any keys |
| `HamiltonRuns.TokensTraceToMints` | hamilton/main.py:537-562 | in every run each token has one creating entry, at most one later consuming entry, and its history ends at mints of its own currency |
| `HamiltonRuns.EqualHeadsEqualRuns` | hamilton/main.py:319-329 | two runs with equal chain heads recorded the same payload sequence, and have the same table if and only if their MINT rows carry the same ids |
| `HamiltonRuns.ReachableIffGenuine` | hamilton/main.py:491-691 | a log is the audit log of some run if and only if it is legal, chained and within the request checks: currencies, counts, amounts of at most 28 digits, hexadecimal keys, uuid4 ids for mints and burns, and some signature that verifies for every transfer and burn |
| `HamiltonRuns.ReachedInRole` | hamilton/main.py:152-165 | every such log of at most 16^32 rows is reached by the two registered clients alone, each in its role |
| `HamiltonRuns.ConsumptionIsSigned` | hamilton/main.py:295-302 | in every run each consuming row has a signature that verifies, and every token it consumed was unspent and owned by its signer |
| `Signing.SignedTextInjective` | hamilton/main.py:315-316 | a signed message stands for one payload only, action included |
| `Texts.SignedTransferLayout` | hamilton/main.py:508-524 | what a transfer's signer signs, key by key in alphabetical order behind its prefix |
| `Texts.SignedBurnLayout` | hamilton/main.py:643-649 | the same for a burn |
| `HamiltonRuns.RunConservationIff` | hamilton/main.py:536-553 | wherever some owner's signature for a transfer of two tokens verifies: unspent = minted - burned in every run whose mints stay within a bound, if and only if the bound is below 10^28 cents |
| `HamiltonRuns.RunConservation` | hamilton/main.py:536-553 | everywhere: unspent = minted - burned in every run whose mints stay below 10^28 cents |
| `AuditLog.Provenance` | hamilton/main.py:537-562 | every token of a legal log is created once, consumed at most once and later, and its row follows from those two entries |
| `AuditLog.LegalIdsDistinct` | hamilton/main.py:325-329 | a legal log repeats no tx_id |
| `AuditLog.Roots` | hamilton/main.py:537-562 | following consumed tokens back from any entry ends, and ends at MINT entries |
| `AuditLog.RootsKeepCurrency` | hamilton/main.py:544-545 | the mints at the root of a transfer are of its own currency |
| `AuditValue.LiveIsMinted` | hamilton/main.py:551-553 | what is unspent or burned of a currency totals what was minted, below 10^28 cents |
| `AuditValue.Conservation` | hamilton/main.py:551-553 | unspent = minted - burned for every legal log below that bound |
| `AuditValue.InflatingLog` | hamilton/main.py:551-553 | for any distinct ids and any owner, a legal log with mints of exactly 10^28 cents that is not conserved |
| `AuditChain.RenderInjective` | hamilton/main.py:562 | the stored payload text determines the payload and its action |
| `Texts.TransferLayout` | hamilton/main.py:562 | the stored text of a transfer, key by key |
| `Texts.MintLayout` | hamilton/main.py:612 | the stored text of a mint |
| `Texts.BurnLayout` | hamilton/main.py:673 | the stored text of a burn |
| `AuditChain.HeadBindsPayloads` | hamilton/main.py:100-101 | equal chain heads mean equally long logs with the same payloads, although hash and payload are joined without a separator |
| `AuditChain.HeadAndIdsBindTable` | hamilton/main.py:319-329 | with the tx_id column equal too, the logs and the tables are equal |
| `AuditChain.TableSplits` | hamilton/main.py:536-562 | a legal log's table is its mint rows and its transfer rows, disjoint, with the statuses the payloads leave |
| `AuditChain.HeadBindsTableIff` | hamilton/main.py:319-329 | for legal logs with equal heads: equal tables if and only if equal mint rows |
| `AuditChain.HeadOmitsMintIds` | hamilton/main.py:612 | two one-row logs with the same head and different token tables |
| `Decimal.DecSumExact` | hamilton/main.py:536-551 | running 28-digit sums are exact up to 10^28 and stay at or above it beyond |
| `Decimal.BalancedBelowLimit` | utxo/mock_store.py:196 | below 10^28 the rounded comparison of inputs with outputs plus fee is the true one |
| `Decimal.HundredExactIff` | hamilton/main.py:58 | sums of up to 100 amounts of at most m are all exact if and only if m is at most 10^26 cents |
| `Decimal.ZeroCentsIff` | hamilton/main.py:173-180 | a parsed amount becomes zero cents exactly when it is positive and below one cent |
| `Decimal.ParsedIffBelowLimit` | hamilton/main.py:173-180 | the cents a request amount can parse to are exactly those below 10^28 |
| `Decimal.CentsRoundTrip` | hamilton/main.py:548-559 | an amount stored as text parses back to the same cents |
| `Rounding.ToCentsIff` | hamilton/main.py:173-180 | a request amount is read as the largest number of whole cents it covers, if that has at most 28 digits |
| `Rounding.NearestIff` | core/models.py:30-31 | quantizing to a unit yields the one multiple within half a unit, at exactly half the even one |
| `Rounding.Round28Is` | wallet/cli.py:188 | an arithmetic result is rounded to the power of ten that leaves it at most 28 digits |
| `Rounding.Round28Stays` | wallet/cli.py:188 | a number rounded to 28 digits is unchanged by rounding again |
| `Rounding.TwiceRounded` | core/models.py:30-31 | rounding to 28 digits and then to a cent is rounding once, unless the first lands half way between two cents on a number that was not there |
| `Rounding.PartsDrift` | wallet/cli.py:195-200 | by how many cents the two rounded parts of a total miss it, in closed form |
| `Json.PrintInjective` | utxo/mock_store.py:65-72 | equal JSON text means equal values, escapes and separators included |
| `Texts.EscapeReads` | utxo/mock_store.py:65-72 | every string is read back from its escaped text, characters beyond 16 bits from their surrogate pairs |
| `TxRules.CanonicalIff` | utxo/mock_store.py:63-74 | two transactions have the same canonical text if and only if ordered input ids, outputs (amount, currency, owner) and fee, with the sign of a zero, agree |
| `Texts.CanonicalLayout` | utxo/mock_store.py:63-74 | the hashed text of a transaction, key by key, without spaces |
| `Texts.FeeTextIs` | utxo/mock_store.py:71 | a fee is written like any amount, except that a zero keeps its sign |
| `TxRules.AcceptedIffSound` | utxo/store.py:148-191 | both ledgers' checks, in their own orders, accept exactly the transactions that meet one declarative condition |
| `TxRules.CheckInputs` | utxo/mock_store.py:165-188 | the input loop reports the first failing input, or the 28-digit total |
| `TxRules.CheckOutputs` | utxo/store.py:179-185 | the output loop reports the first failing output, or the 28-digit total |
| `TxRules.ValidateTxIntent` | utxo/mock_store.py:158-199 | the loops with the balance check give the first error of the specification |
| `TxRules.PreCheckReports` | utxo/store.py:194-207 | the checks before the inputs are read report the first of their conditions that holds, in each ledger's own order, and nothing exactly when none does |
| `TxRules.ValidationReports` | utxo/store.py:148-191 | validation reports the first wrong input, else the first wrong output, else a negative fee, else an imbalance |
| `Tokens.AfterAt` | utxo/mock_store.py:121-149 | after a transaction the inputs are gone, the untouched tokens are as before, and each new id holds its entry of the list of new tokens |
| `Payments.AdmittedPays` | utxo/mock_store.py:129-149 | an admitted transaction changes every owner's balance, in every currency and at every time of reading, by the sum of the outputs made out to that owner, plus the fee for the collector, minus the owner's inputs; each output becomes one token with its amount, currency, owner and lock script and no expiry |
| `Payments.AdmitsIff` | utxo/store.py:193-227 | admission, in declarative terms: every input is there and the transaction is sound |
| `Payments.BalanceOfAdded` | utxo/mock_store.py:53-61 | a token raises its owner's balance in its currency by its amount, while the time of reading is before its expiry, and no other balance |
| `Payments.BalanceLater` | utxo/mock_store.py:53-61 | between two readings of the same tokens a balance loses exactly what expires on the way |
| `Tokens.AdmittedConserves` | utxo/mock_store.py:190-199 | an admitted transaction keeps every currency's total, fee token included, below 10^28 cents |
| `Tokens.BalanceOverOwned` | utxo/mock_store.py:46-61 | summing over one owner's tokens equals the scan over all tokens |
| `MemoryLedger.MemoryLedger.constructor` | utxo/mock_store.py:30-40 | a new ledger holds nothing, and its index agrees |
| `Tokens.BalanceExactIff` | utxo/mock_store.py:53-61 | in any order of visits the 28-digit sum is the true balance, for all balances up to a bound, if and only if the bound is at most 10^28 cents |
| `MemoryLedger.MemoryLedger.GetBalance` | utxo/mock_store.py:46-61 | the loop over the owner's bucket returns the 28-digit sum of that owner's unexpired tokens of the currency in some order, exact up to 10^28 cents |
| `MemoryLedger.MemoryLedger.FetchInputs` | utxo/mock_store.py:100-109 | the first locked phase returns every input, or the first refusal |
| `MemoryLedger.MemoryLedger.Pop` | utxo/mock_store.py:121-127 | removes one token and keeps the index the exact inverse of ownership, without empty buckets |
| `MemoryLedger.MemoryLedger.Insert` | utxo/mock_store.py:129-138 | adds one token and keeps the index exact |
| `MemoryLedger.MemoryLedger.CommitTransaction` | utxo/mock_store.py:113-154 | the second locked phase refuses exactly on a recorded id or a missing input, and otherwise yields the specified tokens and bounded history |
| `MemoryLedger.MemoryLedger.ApplyTransaction` | utxo/mock_store.py:76-156 | undisturbed, the two phases are one atomic step that succeeds exactly for new, present and sound transactions and pays each owner as the outputs say; on any error nothing changes |
| `MemoryLedger.AppliedIff` | utxo/mock_store.py:76-111 | a transaction is applied if and only if it is not remembered, its inputs are all there and it is sound; a replay is reported before a missing input |
| `MemoryLedger.AppliedPays` | utxo/mock_store.py:121-154 | what is applied pays each owner as the outputs say, and its id enters the history, whose oldest id leaves when there are 100,000 |
| `MemoryRuns.FinishIsAtomic` | utxo/mock_store.py:111-154 | in every reached state, rechecking only presence commits, and refuses, exactly what full validation at that moment would; either way the call is over |
| `MemoryRuns.RunKeepsInv` | utxo/mock_store.py:100-154 | every interleaving of any number of threads keeps snapshots truthful, spent inputs gone and the history exact |
| `MemoryRuns.Linearizable` | utxo/mock_store.py:100-156 | every interleaving leaves the ledger that serial, fully validated application in commit order leaves |
| `MemoryRuns.EveryStepPays` | utxo/mock_store.py:100-156 | in every interleaving a step either leaves all tokens alone or applies the transaction its thread fetched, which pays each owner as its outputs say |
| `MemoryRuns.RunBalance` | utxo/mock_store.py:46-61 | after every run each balance is the genesis balance plus what was received, minus what was given, over the applied transactions |
| `MemoryRuns.CallIsAtomic` | utxo/mock_store.py:76-156 | in any state a call whose steps follow each other is one atomic application and leaves the thread free |
| `MemoryRuns.UndisturbedApplies` | utxo/mock_store.py:100-156 | a call nobody disturbs, if admitted, goes through and pays each owner as its outputs say |
| `MemoryRuns.NeverAgain` | utxo/mock_store.py:101-109 | nothing that shares an input with an applied transaction is admitted again |
| `MemoryRuns.ForgettingIsSafe` | utxo/mock_store.py:151-154 | the history is the last 100,000 applied ids, and despite eviction no input is consumed and no transaction applied twice |
| `MemoryRuns.RunConservesIff` | utxo/mock_store.py:190-199 | on every node that accepts some owner's signatures for two tokens: every run keeps every currency's genesis total, if and only if that total is bounded below 10^28 cents |
| `RedisStore.ExecIsTame` | utxo/store.py:215-216 | a pipeline never moves a version back, and a key whose version stands still holds what it held |
| `RedisStore.PipelineEffect` | utxo/store.py:229-273 | the queued commands swap inputs for outputs, in the table and in the owner sets alike, and record the id |
| `RedisStore.PipelinePays` | utxo/store.py:229-273 | the queued commands of an admitted transaction pay each owner as the outputs say, set its replay key for a week and log its digest, inputs, outputs and fee |
| `RedisStore.Store.AddUtxo` | utxo/store.py:100-113 | a fresh token is stored and joins its owner's set; other owners' sets, replay keys and the stream are unchanged |
| `RedisStore.Refusal` | utxo/store.py:193-227 | there is no refusal if and only if the transaction is new and admitted |
| `RedisStore.PassesIff` | utxo/store.py:193-227 | a transaction passes if and only if its replay key is not set, its inputs are all there and it is sound; a replay is reported before a missing input |
| `RedisStore.Store.Queue` | utxo/store.py:229-273 | the queueing loops build exactly the specified pipeline |
| `RedisStore.Store.ProcessTransaction` | utxo/store.py:193-281 | undisturbed, it succeeds exactly for new, present and sound transactions, pays each owner as the outputs say and records digest, inputs, outputs and fee; otherwise the first failing check in source order is returned and nothing changes |
| `RedisStore.Store.Snapshot` | utxo/store.py:283-292 | returns exactly the live tokens |
| `RedisStore.Store.Restore` | utxo/store.py:294-315 | replaces tokens by the snapshot's, rebuilds the exact owner index without orphans and drops all replay keys; refuses another version unchanged |
| `RedisStore.Store.GetBalance` | utxo/store.py:119-146 | with no other writer, returns the 28-digit sum of what the scan returned, exact up to 10^28 cents when each member came once, and heals exactly the orphans |
| `RedisStore.ReloadKeepsBalances` | utxo/store.py:283-315 | a restore from the store's own snapshot leaves every balance unchanged |
| `RedisRuns.RunKeepsInv` | utxo/store.py:100-276 | under every interleaving live tokens stay in their owner's set, no set lists a live token of another owner, spent tokens stay gone |
| `RedisRuns.ExecutionIsAtomic` | utxo/store.py:216-276 | in every reached state, an EXEC that goes through does what full validation and application at that moment would |
| `RedisRuns.HealingDropsNoLiveToken` | utxo/store.py:133-144 | the removal outside any transaction drops no live token, whatever ran between its read and its write |
| `RedisRuns.ConsumedOnce` | utxo/store.py:215-276 | no token is consumed twice and no transaction applied twice, whatever replay keys expired |
| `RedisRuns.NeverAgain` | utxo/store.py:218-232 | nothing that shares an input with an applied transaction is admitted again, after expiry and after reloads |
| `RedisRuns.ReloadOfRun` | utxo/store.py:283-315 | reloading a reached state keeps tokens and balances and drops only orphans from the owner sets |
| `RedisRuns.StreamIsApplied` | utxo/store.py:266-273 | after every run the audit stream holds, in order, the digest, input ids, outputs and fee of each applied transaction |
| `RedisRuns.Linearizable` | utxo/store.py:193-281 | the tokens are those of the additions and committed transactions made one at a time, each admitted in full |
| `RedisRuns.EveryStepPays` | utxo/store.py:193-281 | in every interleaving a step leaves all tokens alone, or adds one, or applies the transaction its client watched, which pays each owner as its outputs say and is recorded |
| `RedisRuns.RunBalance` | utxo/store.py:119-146 | after every run each balance is what additions and applied transactions moved |
| `RedisRuns.UndisturbedApplies` | utxo/store.py:215-276 | from any reached state an attempt nobody disturbs, if admitted and new, goes through and pays each owner as its outputs say |
| `RedisRuns.UndisturbedRefused` | utxo/store.py:215-227 | and if it is not admitted or not new it leaves no trace |
| `RedisRuns.RunConservesIff` | utxo/store.py:179-191 | on every node that accepts some owner's signatures for two tokens: in every run the live total of a currency is what was added, if and only if the additions are bounded below 10^28 cents |
| `CoreModels.VerifyEconomicValidity` | core/models.py:148-177 | the loops report the first failing check of the specification |
| `CoreModels.EconomicCheckReports` | core/models.py:153-177 | the check reports a wrong count, else the first input that is not backed, of another currency or expired, else value that is not conserved |
| `CoreModels.LookupIff` | core/models.py:156 | of several tokens under one id the last one backs the input |
| `CoreModels.ModelAccepts` | core/models.py:156-177 | for distinct inputs the check passes exactly when currencies match, no token has expired and value is conserved |
| `CoreModels.LedgerVersusModel` | core/models.py:169-177 | ledger validation and the model's check agree except for a token that expires at the clock reading itself |
| `Wallet.SortedIsSorted` | wallet/cli.py:181 | sorting yields the same coins, largest first |
| `Wallet.SortedIsStable` | wallet/cli.py:181 | coins of equal amount keep their order |
| `Wallet.BuildsIffCovered` | wallet/cli.py:180-193 | a payment is built if and only if the amount is positive, the unlocked coins of the currency cover it and neither output needs more than 28 digits |
| `Wallet.BuiltWhenCoveredIff` | wallet/cli.py:180-200 | every covered positive amount is built, for all wallets up to a bound, if and only if the bound is below 10^28 cents |
| `Wallet.GreedyIsOptimal` | wallet/cli.py:186-190 | for amounts up to 10^28 cents no covering selection of available coins uses fewer coins than the greedy one |
| `Wallet.BuiltIsOptimal` | wallet/cli.py:180-210 | every payment that is built spends the fewest available coins that could cover it |
| `Wallet.BeyondLimitMeansUnpayable` | utxo/mock_store.py:14 | if greedy needs more than 100 coins, no selection of at most 100 could pay any amount that fits an output |
| `Wallet.Wallet.LockTokens` | wallet/cli.py:169-172 | adds exactly the given ids to the locked set |
| `Wallet.Wallet.BuildPayment` | wallet/cli.py:174-210 | the transaction is the specified one, with 28-digit totals and change; its inputs are the chosen coins, and exactly these are locked; on any failure nothing is locked |
| `Wallet.Wallet.Assemble` | wallet/cli.py:195-210 | the loop and the two appends yield one input for each coin, the merchant's output and the change |
| `Payees.WholeCentsArePaid` | wallet/cli.py:195-200 | of a payment for whole cents the outputs of the merchant total exactly these cents, those of the payer what the chosen coins leave, and no one else is paid, in any currency; no fee, no lock script |
| `Payees.PaymentArrives` | wallet/cli.py:174-210 | once a ledger applies it, in whatever signed form, the merchant's balance is higher by exactly these cents and no third party's balance has moved |
| `Payees.PayerPays` | wallet/cli.py:174-210 | and the payer's balance is lower by exactly these cents, while the chosen coins stay within 10^28 cents |
| `Wallet.Wallet.SelectCoins` | wallet/cli.py:180-190 | the filtering and choosing loops return the shortest prefix, largest first, whose running total reaches the amount |
| `Wallet.Wallet.Balance` | wallet/cli.py:261-271 | returns the 28-digit sums of unlocked and of locked coins of the currency in list order |
| `WalletRuns.PrintedTotalsIff` | wallet/cli.py:266-267 | both printed sums are the true totals for all wallets up to a bound, if and only if the bound is at most 10^28 cents |
| `WalletRuns.SelectionsDisjoint` | wallet/cli.py:202-203 | over any sequence of requests no coin is promised to two payments |
| `WalletRuns.AvailablePlusPending` | wallet/cli.py:266-267 | available plus pending is the whole balance whatever is locked |
| `WalletRuns.PendingIsSpent` | wallet/cli.py:202-203 | over any sequence of requests pending grows by exactly what the built payments chose |
| `WalletRuns.PaymentMeetsRulesIff` | wallet/cli.py:195-200 | a built payment meets the ledgers' value and currency rules exactly when both outputs survive rounding to 28 digits and to a cent, and their drift does not show in the ledgers' sums |
| `WalletRuns.SlipperyPayment` | wallet/cli.py:198-200 | a payment that is built with an output of nothing because its change is rounded twice |
| `WalletRuns.LedgersDecide` | utxo/store.py:148-191 | either ledger's validation can fail a transaction that meets the value rules only for an expired or locked token or a signature, and accepts none that does not meet them |
| `WalletRuns.WholeCentVerdict` | utxo/mock_store.py:158-199 | so either ledger's validation can object to a payment for whole cents only for those reasons |
| `WalletRuns.WholeCentPreCheckIff` | utxo/store.py:194-207 | the checks before validation pass a payment for whole cents if and only if it takes at most 100 coins and carries no id or the digest |
| `WalletRuns.DigestIgnoresId` | utxo/store.py:78-88 | that digest does not depend on the id carried |
| `WalletRuns.BuiltIdRefused` | wallet/cli.py:206 | with digests of 64 characters, both ledgers refuse every payment that carries a uuid4 |
| `WalletRuns.WholeCentPaymentsAreValid` | core/models.py:30-38 | every payment for whole cents meets the rules of both ledgers, and of the model unless a token has expired |
| `RateLimits.SlidingWindow.CheckRateLimit` | bridge/main.py:129-149 | inserts the row, deletes old rows on every twentieth second, and accepts exactly when at most 60 rows remain in the window |
| `RateLimits.AcceptedIff` | bridge/main.py:129-149 | with a clock that never steps back a request is accepted if and only if at most 60 requests of its address, itself included, lie in the 60 seconds before it |
| `RateLimits.SixtyPass` | bridge/main.py:148 | of any number of requests of one address within one second exactly the first 60 are accepted |
| `RateLimits.SweptAtTwenty` | bridge/main.py:138-139 | every twentieth second the table loses exactly what is older than 60 seconds, and never anything else |
| `RateLimits.DeletionChangesNoDecision` | bridge/main.py:138-149 | with a clock that never steps back every decision equals that of a limiter that deletes nothing |
| `RateLimits.WindowBound` | bridge/main.py:141-149 | no closed window of 60 seconds holds more than 60 accepted requests of one address |
| `RateLimits.FixedWindow.RateLimit` | hamilton/main.py:418-427 | increments the minute's counter, starts its expiry on the first call, and admits up to the limit |
| `RateLimits.CountersAreExact` | hamilton/main.py:422-425 | a counter never resets inside its minute, and is gone before the next one is over |
| `RateLimits.AdmittedIff` | hamilton/main.py:423-427 | a call is admitted exactly when its minute has seen at most limit calls of that client |
| `RateLimits.AtMostTwice` | hamilton/main.py:418-427 | any 60 consecutive seconds admit at most twice the limit |
| `RateLimits.TwiceIsReached` | hamilton/main.py:418-427 | twice the limit is admitted within one second |
| `Merchant.TruncateIff` | merchant/main.py:198 | below 10^28 cents the stored cents are the whole cents, or one more exactly when the amount lies within half a unit of its 28th digit of the next cent; from there on they are the whole cents exactly when these are a multiple of that unit |
| `Merchant.TruncateSymmetric` | merchant/main.py:268 | negative amounts are treated as their opposites |
| `Merchant.TruncateRoundsUp` | merchant/main.py:198 | an amount below 100 cents that is stored as 100 |
| `Merchant.Service.CreatePayment` | merchant/main.py:190-221 | creates a PENDING payment with its log entry, or changes nothing |
| `Merchant.Service.PaymentCallback` | merchant/main.py:239-294 | settles, records or refuses a webhook exactly as specified, with rollback on refusal |
| `Merchant.LogIsPendingThenFinal` | merchant/main.py:207-215 | after every run a payment's log is PENDING, or PENDING and then its one final status |
| `Merchant.SettledForever` | merchant/main.py:264-267 | amount and expiry never change, and a final status stays |
| `Merchant.AnsweredIsRecorded` | merchant/main.py:251-253 | a webhook once answered without error is a no-op forever after |
| `Merchant.GrantedIff` | merchant/main.py:190-212 | a payment exists exactly when some request asked for its id with a positive amount that fits the column, and has the merchant, the cents and ten minutes of the first such request |
| `Merchant.StatusIff` | merchant/main.py:250-283 | after every run a payment is SUCCESS if and only if the first webhook with an unrecorded event id, its merchant and its amount reported success by its expiry, FAILED if and only if that one reported anything else by then, EXPIRED if and only if that one came later, PENDING if and only if there was none |
| `Merchant.RecordedIff` | merchant/main.py:263-283 | a webhook id is recorded exactly when a delivery of it found its payment settled or matched its amount |
| `Merchant.RepliesIff` | merchant/main.py:250-294 | accepted is the reply to exactly the webhook that settles the payment; every other reply is given exactly in its own case |

## Left out

- FastAPI routing, authentication, HMAC headers, roles, body limits, logging, QR images, file writes and HTTP calls: plumbing around the modelled operations.
- Field validators of the shared models (script lengths, metadata limits, currency names): each looks at one field and no modelled behaviour depends on it.
- `created_at` columns and the check that a token expires after its creation: no modelled behaviour reads them.
- Ed25519, HMAC and key serialization: `CryptoUtils` is imported by the ledgers but not defined in `core/crypto.py`; verification is an uninterpreted predicate.
- Acceptance of the wallet's signatures: the wallet signs a text that contains `transaction_id` and the ledgers verify one that does not, so only value, currency and selection cross that boundary.
- SQLite and Redis internals: locking, durability and lost connections between a command and its reply.
- A restore while other clients are in flight, a restore of an older snapshot, and `add_utxo` under an id already in use: the code does not guard them, so quiescence and freshness are assumed.
- Text with unpaired surrogates: strings are sequences of Unicode scalar values.
- Decimals that are not finite, and exponents beyond a million in size: every amount is digits over a power of ten.
- Wallet.Wallet.BuildPayment: sorting is the library call of the source, specified as a stable sort; the payer's key and the new id are parameters.
- RedisStore.Store.GetBalance: stated for a quiescent store; what concurrent scans may and may not remove is in `RedisRuns`.
- RateLimits.FixedWindow.RateLimit: one clock serves the bucket name and the expiry, and a crash between the two Redis commands is not modelled.
- Merchant.Service.CreatePayment: the rate limit and the signed QR payload are not part of this model.
- Bridge liquidity accounting and `advance_status`: single-row status changes that touch none of the modelled state.
- `test_system.py` and `IMPLEMENTATION_SUMMARY.md`: they describe classes and methods that the code does not contain.
