# Operator tools of the CL8Y DEX: a verified model

This project models the operator tools of the repository whose mistakes cannot be undone, and proves
the properties they are built for. To check it, run `dafny verify dfyconfig.toml` (Dafny 4.11).

* **Rollout engine** (`rollout_*.dfy`). `_operation`, `execute`, `verify` and `finalize` drive pauses,
  uploads, migrations, template changes and restores from a write-ahead journal. The process may be cut
  off before any effect and started again any number of times; transactions are included late, early, or
  with a failure; somebody else may change the chain at any moment. `RolloutPlan` holds the inventory, the
  journal and the order of work, `RolloutChain` the chain and the drift check, `RolloutWorld` everything
  durable with its inductive invariant `WorldOk`, `RolloutSite` the world outside the process,
  `RolloutEngine` the process itself, `RolloutCutover` when a verification accepts finished work,
  `RolloutSafety` what the invariant says about whole runs, and `RolloutExamples` four concrete rollouts that
  cannot end well.
  A ghost history records every accepted drift check, signature, broadcast and passed verification
  together with the durable state at that moment.
* **Fee guard** (`fee_guard.dfy`). The reserve that every normal spend leaves for a containment round.
* **Bech32** (`bech32.dfy`). The address check over GF(2): linearity, burst detection, and the one-to-one
  correspondence with 20-byte and 32-byte payloads (BIP 173).
* **AMM planning** (`amm_*.dfy`). The ceil-rounded swap, the binary search over its strictly monotone
  price, liquidity sizing, and the ladder that carries reserves and balances from rung to rung.
* **Codecs** (`leb128.dfy`, `wasm_locals.dfy`, `protobuf.dfy`, `line_feed.dfy`). Readers proved against
  their grammars and round trips with the printers they must undo.
* **At-most-once protocols** (`adoption_*.dfy`, `drill.dfy`). A compare-and-swap journal with interleaved
  operators, a latched worker over container restarts, and a persistent phase machine.
* **Sell preview** (`sell_preview.dfy`). The tax check that verification makes, as an adjunction.

Conventions. Exceptions are `Option`, `Result` or `Outcome` values. A hash stands for the bytes it was
taken of, so a signed transaction is its own hash. `Decimal` is an exact real, raw amounts are unbounded
integers, and where Python joins bits of disjoint groups with `|` the model adds. Clocks, randomness, the
network, keyrings and other programs' answers are parameters or nondeterministic choices. A `hide`
statement only keeps a definition out of a proof.

## What was found false of the code, and exactly when

* A completed rollout may keep `whitelist:token` in its journal without a receipt. A run cut off between
  inclusion and save leaves the next run with the query's answer "listed" (`RolloutSafety.ListedWhen`,
  `RolloutSafety.ListingStaysUnanswered`); from then on every run skips the operation and leaves its entry as it
  is, unless somebody else acts (`RolloutEngine.Rollout.Execute`, `RolloutEngine.Campaign`). Even so the listing
  has been applied exactly once, as every other journaled operation has (`RolloutSafety.CompleteOnce`).
* During `execute` the drift check can refuse a state that the tool itself found or made. Without changes by
  others a signature is refused exactly if a doomed contract was already migrated, or a mute router was not yet
  (`RolloutSafety.FalseDriftExactly`, `RolloutSafety.OwnDriftExactly`).
  A contract that needs migration is doomed if its own code id is the smallest candidate that already holds the
  reviewed binary, so that it is migrated onto the very code id it was inventoried with, or if it is a router or
  token whose reviewed binary does not answer the probes that its version is asked. A router is mute if it needs
  migration, is at 1.3.0 or later and does not advertise settlement: the inventory does not ask it, the drift check
  does. All of this shows before the first operation.
  With a doomed contract the work never gets done (`RolloutSafety.DoomedNeverFinishes`,
  `RolloutExamples.StaleRefused`), with a mute router nothing is ever signed (`RolloutSafety.MuteNeverSigns`,
  `RolloutExamples.MuteRefused`).
* `finalize` verifies before it reconciles. An included but unsaved restore of a pair that originally ran
  therefore makes every later verification refuse (`RolloutSafety.RestoreStaysRefused`), and unless somebody else
  acts it stays unsaved through any further starts, of which no `execute` and no `finalize` succeeds
  (`RolloutEngine.Campaign`).
* Verification can refuse finished work. When nobody else acted, it accepts exactly if
  the reviewed router and token binaries answer what it asks of them;
  every token that is not migrated runs an inventoried listed code or the smallest candidate with the reviewed binary;
  every pair that is not affected was planned with pins that are what its assets run afterwards, and listed codes;
  and no restore of a running pair is unsaved. All but the last are decided by the plan and the chain it was made on,
  and the inventory asks them only in part (`RolloutSafety.VerifyAcceptsExactly`).
  `RolloutExamples.TwinRefused` (an unlisted token) and `RolloutExamples.PinRefused` (an unaffected pair with a
  stale pin) are finished rollouts that are refused.
  An affected pair always ends with fresh pins (`RolloutCutover.RefreshedPinned`), but the chain admits its refresh
  exactly if all its assets then run listed codes (`RolloutSafety.RefreshAdmittedExactly`); otherwise the transaction
  fails, and a failed transaction stops the rollout.
  Beside these cases only causes from outside keep a resumed rollout from its end (`RolloutEngine.Resume`, where a
  failed transaction counts as such a cause).
* The fee reserve is for one containment round. Another round passes the guard in every permitted order exactly
  if the saved fees and two envelopes for every eligible pair still fit under the cap, or the round has nothing
  to pause (`FeeGuard.NextRoundExactly`); `FeeGuard.OneRoundOnly` is a budget that has spent its reserve.
* Every rung that is planned for a pool lands at or below its target within the sizing error exactly if the pool
  holds both tokens or neither.
  A pool with one empty side is credited with no value, so the rung overshoots by what it holds: 5 units of one
  token and a rung of 2 end at 7 (`AmmLadder.LandsExactly`, `AmmLadder.OneSidedOvershoots`).
* The ladder's clamps are dead for every buffer that is not negative; for a negative one they are dead
  exactly if each mint still covers its need (`AmmLadder.NoClampExactly`, `AmmLadder.NegativeBufferClamps`).
* Whatever containers meet and wherever they die, an attempt nonce runs at most one host transaction exactly if
  all admissible adopt requests for it mount its state volume under the same one of its two names
  (`AdoptionWorker.OnceExactly`); `AdoptionWorker.TwoMountsTwoTransactions` is a run of two. A volume never runs
  two.

## Model

| member | source | states |
|---|---|---|
| RolloutPlan.AllItemsIn | scripts/lib/route_tax_rollout.py:416 | the list walked by the drift check holds exactly the inventoried core contracts, pairs and tokens |
| RolloutPlan.ReadyExtends | scripts/lib/route_tax_rollout.py:503-538 | a position that was settled stays settled while the journal grows, also when the pair code is settled later |
| RolloutPlan.SamePosition | scripts/lib/route_tax_rollout.py:482-542 | the order of work is total: two planned operations at one position are the same operation |
| RolloutPlan.NoOtherPending | scripts/lib/route_tax_rollout.py:350-389 | when an operation is due, every other signed one has its receipt, a listing excepted |
| RolloutPlan.ActionKnown | scripts/lib/route_tax_rollout.py:354 | a name stands for one action, so a resumed run never finds a changed one |
| RolloutChain.BindingsExact | scripts/lib/route_tax_rollout.py:411-477 | with only the rollout's own changes and nothing else unanswered, the comparison of membership, admins, codes, versions, settings, probes, templates and pauses refuses in exactly two named cases |
| RolloutChain.RestoreNeedsPause | scripts/lib/route_tax_rollout.py:618-627 | a signed restore presupposes the receipt of its pause, and a complete rollout has the receipt of every restore |
| RolloutWorld.FreshTx | scripts/lib/route_tax_rollout.py:373-385 | a transaction that is about to be signed is recorded under no other name |
| RolloutWorld.IncludeTracks | scripts/lib/route_tax_rollout.py:411-477 | inclusion of a saved transaction keeps the chain equal to the inventory plus the applied operations |
| RolloutWorld.IncludePins | scripts/lib/route_tax_rollout.py:537-538 | inclusion keeps a refreshed pair pinned to what its assets run, because refreshes come behind all migrations, and leaves other pins alone |
| RolloutWorld.IncludeKeeps | scripts/lib/route_tax_rollout.py:360-369 | inclusion at any time, with or without success, keeps the invariant |
| RolloutWorld.ForeignKeeps | scripts/lib/route_tax_rollout.py:411-477 | changes by others that keep stored code keep the invariant |
| RolloutWorld.SaveKeeps | scripts/lib/route_tax_rollout.py:60-71 | an atomic replacement of the journal by a later well-formed one keeps the invariant |
| RolloutWorld.SignKeeps | scripts/lib/route_tax_rollout.py:383-385 | a signature directly after an accepted drift check keeps the history legitimate; a restore also needs a passed verification |
| RolloutWorld.SendKeeps | scripts/lib/route_tax_rollout_cli.py:505-518 | a broadcast of saved bytes keeps the invariant |
| RolloutSteps.SaveOp | scripts/lib/route_tax_rollout.py:370-371 | journaling a due operation keeps the invariant; an upload only after every candidate differed |
| RolloutSteps.SaveSigned | scripts/lib/route_tax_rollout.py:373-381 | saving bytes, hash and fee within the cap keeps the invariant |
| RolloutSteps.SaveReceipt | scripts/lib/route_tax_rollout.py:368-369 | saving the receipt of an included transaction keeps the invariant |
| RolloutSteps.SaveCode | scripts/lib/route_tax_rollout.py:395-397 | settling a role's code id keeps the invariant |
| RolloutSteps.DueIsSettled | scripts/lib/route_tax_rollout.py:350-389 | a due operation finds nothing unanswered but a listing, and no unsaved restore |
| RolloutSteps.TripsExactly | scripts/lib/route_tax_rollout.py:411-450 | which contracts trip the check of a due operation by themselves is decided by the inventory, the reviewed binaries and the order of work |
| RolloutSteps.DueBindings | scripts/lib/route_tax_rollout.py:383 | before every signature the drift check accepts if and only if no contract before it in the order trips it once migrated, and none behind it trips it until migrated |
| RolloutSite.Site.Save | scripts/lib/route_tax_rollout.py:60-71 | a temporary file is filled and then replaces the journal; a cut at any effect leaves the old one or the new one |
| RolloutSite.Site.Broadcast | scripts/lib/route_tax_rollout_cli.py:513-516 | exactly the given bytes are handed to the network, and the moment is recorded |
| RolloutSite.Site.SomeInclusion | scripts/lib/route_tax_rollout_cli.py:440-464 | only broadcast transactions are included, each at most once; a refresh of a pair with an unlisted asset only fails |
| RolloutProgress.Advance | scripts/lib/route_tax_rollout.py:488-538 | the receipt of the due operation settles its position |
| RolloutProgress.StageDone | scripts/lib/route_tax_rollout.py:488-538 | a stage whose positions and codes are settled is passed |
| RolloutRun.MigrateSkip | scripts/lib/route_tax_rollout.py:511-513 | a contract that needs no migration has no operation at its position |
| RolloutRun.EntryProven | scripts/lib/route_tax_rollout.py:181-199 | every saved entry passes the proofs asked of it on resume |
| RolloutRun.VerifyExact | scripts/lib/route_tax_rollout.py:544-548 | once all work is receipted no contract trips the drift check, and that of a verification refuses exactly for an unsaved restore |
| RolloutRun.WorkIsClear | scripts/lib/route_tax_rollout.py:383 | finished work holds no contract that trips the drift check before or after its migration, because a signature would have been refused |
| RolloutInventory.Inspect | scripts/lib/route_tax_rollout.py:207-222 | an accepted entry describes the contract as it is; downgrades, foreign identities or admins, missing capabilities and same-version different binaries are refused |
| RolloutInventory.TakeCore | scripts/lib/route_tax_rollout.py:230-232 | exactly the listed core contracts are read; it fails exactly on one that is not what it should be |
| RolloutInventory.TakeMarkets | scripts/lib/route_tax_rollout.py:257-274 | the market list has every listed pair once, in order, with its assets, its pause flag and the rule that decides whether it is affected; it fails exactly on an unreadable or repeated pair |
| RolloutInventory.TakeTokens | scripts/lib/route_tax_rollout.py:294-315 | the token list has every listed token once, in order; it fails exactly on an unreadable or repeated token |
| RolloutInventory.TakeInventory | scripts/lib/route_tax_rollout.py:224-327 | it succeeds exactly if the core contracts are listed, every listed contract is what it should be, none is repeated, the pairs are the factory's and there is a token; the result is a snapshot of the chain with exactly these contracts |
| RolloutInventory.FirstSaveOk | scripts/lib/route_tax_rollout.py:341-348 | the first journal write establishes the invariant |
| RolloutEngine.Rollout.SaveState | scripts/lib/route_tax_rollout.py:140-141 | a save that is cut off loses nothing and replaces nothing |
| RolloutEngine.Rollout.SavedFees | scripts/lib/route_tax_rollout.py:378 | the walk over the journal computes the sum of all saved fees |
| RolloutEngine.Rollout.Rebroadcast | scripts/lib/route_tax_rollout_cli.py:505-518 | an included transaction is looked up first; otherwise the saved bytes and no others are sent |
| RolloutEngine.Rollout.SaveAnswer | scripts/lib/route_tax_rollout.py:365-369 | a successful receipt is saved, a failed one stops the run |
| RolloutEngine.Rollout.Reconcile | scripts/lib/route_tax_rollout.py:360-369 | a saved hash is never signed again, and is sent again only on request |
| RolloutEngine.Rollout.SignAndSave | scripts/lib/route_tax_rollout.py:373-385 | bytes and fee are durable before anything is sent, within the cap; a stop before that leaves the journal as it was |
| RolloutEngine.Rollout.Transact | scripts/lib/route_tax_rollout.py:373-389 | sign, save within the cap, broadcast, save the receipt, in that order; only the journaled bytes are sent and only this entry changes |
| RolloutEngine.Rollout.CheckAndTransact | scripts/lib/route_tax_rollout.py:383-389 | a refusal for drift happens only after a foreign change or for a contract that trips the check by itself |
| RolloutEngine.Rollout.Conclude | scripts/lib/route_tax_rollout.py:360-389 | a saved hash is reconciled, an unsigned entry is signed; without the request to rebroadcast a signed one sends nothing |
| RolloutEngine.Rollout.Operation | scripts/lib/route_tax_rollout.py:350-389 | from whatever point an earlier run left it at, the operation gains its receipt or stops for a named cause that is never a mismatch with its journal; no other entry changes, no bytes but its journaled ones are sent, and a receipted one does nothing |
| RolloutEngine.Rollout.StoreRole | scripts/lib/route_tax_rollout.py:391-400 | a role's code id is settled once and holds the reviewed artifact |
| RolloutEngine.Rollout.Search | scripts/lib/route_tax_rollout.py:404-408 | the smallest matching candidate is found, or every candidate differs |
| RolloutEngine.Rollout.Code | scripts/lib/route_tax_rollout.py:402-409 | an upload happens only if no candidate holds the artifact |
| RolloutEngine.Rollout.VisitPairs | scripts/lib/route_tax_rollout.py:488-491 | every affected pair is paused, refreshed or restored in inventory order |
| RolloutEngine.Rollout.CoreRoles | scripts/lib/route_tax_rollout.py:492-502 | every deployed core contract is migrated, or its current code is noted |
| RolloutEngine.Rollout.MigrateAll | scripts/lib/route_tax_rollout.py:511-520 | every token or pair that needs it is migrated to the settled code |
| RolloutEngine.Rollout.ListToken | scripts/lib/route_tax_rollout.py:508-510 | the listing is skipped exactly when the factory answers that the code is listed, which it does whenever the rollout's own listing is included |
| RolloutEngine.Rollout.LauncherStages | scripts/lib/route_tax_rollout.py:521-528 | the launcher is pointed at the settled token code, and at the auto-liquidity code if there is one |
| RolloutEngine.Rollout.PairTemplateStages | scripts/lib/route_tax_rollout.py:529-532 | the factory template is changed only if it differs |
| RolloutEngine.Rollout.CheckProofs | scripts/lib/route_tax_rollout.py:181-199 | the proofs of a resumed journal never fail |
| RolloutEngine.Rollout.Verify | scripts/lib/route_tax_rollout.py:544-616 | it accepts, refuses for drift or refuses the cut-over exactly as the chain demands; for finished work that nobody else touched all three are decided by named conditions, and an unsaved restore stays unsaved |
| RolloutEngine.Rollout.Prepare | scripts/lib/route_tax_rollout.py:329-348 | a journal of the same inputs is always resumed, other inputs are refused, and a first journal is a snapshot of the chain without operations |
| RolloutEngine.Rollout.Execute | scripts/lib/route_tax_rollout.py:482-542 | success means all contract work receipted and a passed verification; every stop has a named cause; a listing whose receipt was missed stays as it is, and so do all restores, one of which unsaved means a stop |
| RolloutEngine.Rollout.Finalize | scripts/lib/route_tax_rollout.py:618-627 | success means a complete journal after a passed verification; every stop has a named cause; with an unsaved restore it stops and leaves the journal as it is |
| RolloutEngine.Handoff | scripts/lib/route_tax_rollout_cli.py:686-687 | the verification before the hand-over stops only for an unsaved restore or a plan that does not verify, unless somebody else acted |
| RolloutEngine.Invoke | scripts/lib/route_tax_rollout_cli.py:678-687 | one start of the tool, cut off anywhere, keeps the invariant and everything durable, and stops only for named causes; an unsaved restore stays unsaved and makes it stop |
| RolloutEngine.Resume | scripts/lib/route_tax_rollout_cli.py:678-687 | `execute` and then `finalize` complete the rollout unless a cause from outside, somebody else, a doomed contract, a mute router, a plan that does not verify or an unsaved restore stops them |
| RolloutEngine.Campaign | scripts/lib/route_tax_rollout_cli.py:678-687 | any sequence of starts keeps the invariant and everything durable, never saves a missed receipt of the listing, and never gets past an unsaved restore |
| RolloutCutover.ItemAfterwards | scripts/lib/route_tax_rollout.py:549-552 | after the work a contract runs the settled code and version if it needed migration, its own otherwise |
| RolloutCutover.TokensCutOver | scripts/lib/route_tax_rollout.py:565-570 | every token then runs a listed code exactly if those that stay ran a listed or the settled one |
| RolloutCutover.TemplatesCutOver | scripts/lib/route_tax_rollout.py:557-564 | both templates then name the settled codes, and nothing was taken off the list |
| RolloutCutover.PauseCutOver | scripts/lib/route_tax_rollout.py:609-615 | a pair's pause flag is then the expected one exactly if its restore is not included and unsaved |
| RolloutCutover.RunsAfterwards | scripts/lib/route_tax_rollout.py:606 | what any contract runs once all migrations are done is known from the plan |
| RolloutCutover.RefreshedPinned | scripts/lib/route_tax_rollout.py:537-538 | after the work every affected pair is pinned to what its assets run, all of it listed |
| RolloutCutover.OtherPinned | scripts/lib/route_tax_rollout.py:604-608 | an unaffected pair passes the pin and listing checks exactly if its planned pins are listed and what its assets run afterwards |
| RolloutCutover.PairsCutOver | scripts/lib/route_tax_rollout.py:600-608 | the pin and listing checks of all pairs pass exactly if those of the unaffected pairs do |
| RolloutCutover.ProbesCutOver | scripts/lib/route_tax_rollout.py:553-598 | the capability, rate and preview checks ask for the reviewed router and token binaries only |
| RolloutCutover.CutOverExactly | scripts/lib/route_tax_rollout.py:549-616 | the cut-over checks accept finished work exactly under four conditions: capable reviewed binaries, listed tokens, valid pins of unaffected pairs, no unsaved restore |
| RolloutSafety.WorldParts | scripts/lib/route_tax_rollout.py:181-199 | what the invariant gives for the journal on disk: the hypotheses of the statements below |
| RolloutSafety.BroadcastOnce | scripts/lib/route_tax_rollout.py:350-409 | every broadcast transaction was durable under its name, and a name has at most one |
| RolloutSafety.SentOneToOne | scripts/lib/route_tax_rollout_cli.py:594-598 | names and saved transactions correspond one to one, and only broadcast ones are included |
| RolloutSafety.NeverResigned | scripts/lib/route_tax_rollout.py:360-369 | a name whose hash was ever durable is never signed again |
| RolloutSafety.WorkNeedsPause | scripts/lib/route_tax_rollout.py:488-491 | anything but a pause is signed only with the pause of every affected pair included |
| RolloutSafety.WorkSeenPaused | scripts/lib/route_tax_rollout.py:465-477 | whoever else acts, the drift check just before a work signature other than the listing's saw every affected pair paused |
| RolloutSafety.RestoreNeedsVerification | scripts/lib/route_tax_rollout.py:618-624 | a restore is signed only with all work receipted and after a passed verification |
| RolloutSafety.CompleteOnce | scripts/lib/route_tax_rollout.py:482-542 | a complete rollout has applied each journaled operation with exactly one transaction; for the listing this needs that nobody else acted |
| RolloutSafety.CompleteCovers | scripts/lib/route_tax_rollout.py:618-627 | a complete rollout has applied everything the inventory calls for |
| RolloutSafety.CompleteRestores | scripts/lib/route_tax_rollout.py:621-627 | unless somebody else acted, a complete rollout leaves every affected pair's pause flag at its inventoried value |
| RolloutSafety.CompleteMigrates | scripts/lib/route_tax_rollout.py:533-536 | unless somebody else acted, every contract that needed it runs the reviewed binary and version |
| RolloutSafety.SpentWithinCap | scripts/lib/route_tax_rollout.py:378-381 | the fees of all transactions ever broadcast stay within the cap |
| RolloutSafety.FalseDriftExactly | scripts/lib/route_tax_rollout.py:383 | without changes by others, a signature is refused for drift exactly if a doomed contract was already migrated or a mute router was not yet |
| RolloutSafety.ListedAtPlanning | scripts/lib/route_tax_rollout.py:504-510 | a token that stays ends on a listed code exactly if its code was listed or is the smallest match, which the inventory shows |
| RolloutSafety.DoomedNeverFinishes | scripts/lib/route_tax_rollout.py:411-450 | on an inventory with a doomed contract the work never gets done |
| RolloutSafety.MuteNeverSigns | scripts/lib/route_tax_rollout.py:445-447 | on an inventory with a mute router nothing is ever signed |
| RolloutSafety.VerifyAcceptsExactly | scripts/lib/route_tax_rollout.py:544-616 | a verification of finished work accepts exactly if the plan verifies (capable reviewed binaries, listed tokens, valid pins of unaffected pairs) and no restore is unsaved |
| RolloutSafety.RefreshAdmittedExactly | smartcontracts/contracts/pair/src/asset_code_id_guard.rs:102-116 | while nobody else acts, the chain admits a due refresh exactly if all assets of the pair then run listed codes, which the plan decides |
| RolloutSafety.OwnDriftExactly | scripts/lib/route_tax_rollout.py:402-450 | which contracts trip the drift check by themselves is decided by inventory, stored code and reviewed binaries: a doomed one once migrated, a mute router until migrated |
| RolloutSafety.FirstMatchIsSettled | scripts/lib/route_tax_rollout.py:402-409 | a role with a matching candidate is settled on the smallest one |
| RolloutSafety.CutOffPossible | scripts/lib/route_tax_rollout.py:384-389 | from every state in which an operation is due and the chain admits it, a run can be cut off with its transaction included and unsaved |
| RolloutSafety.ListedWhen | scripts/lib/route_tax_rollout.py:508 | the listing query says yes exactly if the code was listed from the start or its listing is included |
| RolloutSafety.ListingStaysUnanswered | scripts/lib/route_tax_rollout.py:508-510 | right after such a cut the factory answers that the code is listed, and the entry lacks its receipt |
| RolloutSafety.RestoreStaysRefused | scripts/lib/route_tax_rollout.py:620 | after such a cut of a restore of a running pair, verification refuses |
| RolloutSafety.UnsavedStays | scripts/lib/route_tax_rollout.py:620 | and waiting does not change that |
| RolloutSafety.FullRunPossible | scripts/lib/route_tax_rollout.py:370-389 | from every state in which an operation is due, the chain admits it and no contract trips the drift check, a run can carry it through |
| RolloutExamples.StaleRefused | scripts/lib/route_tax_rollout.py:411-433 | an undisturbed rollout whose next signature is refused for drift |
| RolloutExamples.MuteRefused | scripts/lib/route_tax_rollout.py:445-447 | an undisturbed rollout whose first signature is refused for drift |
| RolloutExamples.TwinRefused | scripts/lib/route_tax_rollout.py:570 | an undisturbed rollout whose finished work is refused for an unlisted token |
| RolloutExamples.PinRefused | scripts/lib/route_tax_rollout.py:604-606 | an undisturbed rollout whose finished work is refused for the stale pin of a pair it does not touch |
| FeeGuard.EnvelopeCovers | scripts/lib/route_tax_rollout_cli.py:162-166 | the fee of any permitted containment gas fits into one envelope |
| FeeGuard.SumFees | scripts/lib/route_tax_rollout_cli.py:135-143 | the loop computes the sum of an entry map, or finds a malformed entry |
| FeeGuard.CountSlots | scripts/lib/route_tax_rollout_cli.py:191-198 | the nested loops count exactly the slots of the round that stay reserved |
| FeeGuard.FeeBudgetGuard | scripts/lib/route_tax_rollout_cli.py:112-203 | the guard admits exactly the spends that leave the reserve, and reports the true sums |
| FeeGuard.NormalSpendFunds | scripts/lib/route_tax_rollout_cli.py:169-202 | after an admitted normal spend the running round, a new one and the first one are funded |
| FeeGuard.OwnedActionPasses | scripts/lib/route_tax_rollout_cli.py:170-199 | in a funded round an owned action passes the guard before signing, before the save and after it |
| FeeGuard.RoundAlwaysFunded | scripts/ops/2026-10-06/route-containment.py:50-124 | every permitted order of a round's pauses, restores, answers and external pauses passes the guard at every step |
| FeeGuard.ReserveSuffices | scripts/lib/route_tax_rollout_cli.py:112-203 | after an admitted normal spend the running round, a later one or the very first passes the guard in every permitted order |
| FeeGuard.FirstPauseExactly | scripts/lib/route_tax_rollout_cli.py:189-202 | the first full pause of a new round is admitted exactly if the whole round is funded |
| FeeGuard.NextRoundExactly | scripts/lib/route_tax_rollout_cli.py:169-202 | another round passes in every permitted order exactly if the fees and its whole reserve fit under the cap, or it has nothing to pause |
| FeeGuard.AdmittedWithinCap | scripts/lib/route_tax_rollout_cli.py:201-202 | admitted fees never exceed the cap |
| FeeGuard.OneRoundOnly | scripts/lib/route_tax_rollout_cli.py:169-202 | a budget that has spent exactly its reserve, and the next round is refused |
| Bech32.StepLinear | scripts/ops/api-rolling-eligibility.py:181-184 | the checksum step respects exclusive or |
| Bech32.ZeroStepInjective | scripts/ops/api-rolling-eligibility.py:181-184 | a step on a zero symbol loses nothing |
| Bech32.FoldLinear | scripts/ops/api-rolling-eligibility.py:180-184 | the checksum of a difference is the difference of the checksums |
| Bech32.FoldPacks | scripts/ops/api-rolling-eligibility.py:180-184 | six symbols from the zero state are packed without reduction |
| Bech32.BurstDetected | scripts/ops/api-rolling-eligibility.py:180-185 | two runs of symbols that differ within six consecutive positions have different checksums |
| Bech32.BurstRejected | scripts/ops/api-rolling-eligibility.py:172-190 | an accepted address changed within a window of at most six data characters is rejected |
| Bech32.ChecksumUnique | scripts/ops/api-rolling-eligibility.py:180-185 | exactly one six-symbol checksum completes a payload |
| Bech32.PaddingBits | scripts/ops/api-rolling-eligibility.py:186-190 | the padding condition on the last symbol is the one on the last four bits |
| Bech32.PayloadOfAddress | scripts/ops/api-rolling-eligibility.py:172-190 | every 20-byte and 32-byte payload has an accepted address that decodes to it |
| Bech32.AddressOfPayload | scripts/ops/api-rolling-eligibility.py:172-190 | every accepted address is the address of its payload |
| Bech32.AcceptedIsLower | scripts/ops/api-rolling-eligibility.py:175 | the length and case guards reject nothing that the rest accepts |
| Bech32.DecodeSymbols | scripts/ops/api-rolling-eligibility.py:176-178 | the lookup loop yields the symbols of the text, or finds a foreign character |
| Bech32.Checksum | scripts/ops/api-rolling-eligibility.py:180-184 | the two loops compute the checksum fold |
| Bech32.Regrouped | scripts/ops/api-rolling-eligibility.py:186-190 | the accumulator loops accept exactly 32 symbols, or 52 with four zero bits at the end |
| Bech32.TerraAddress | scripts/ops/api-rolling-eligibility.py:172-190 | the procedure accepts exactly the specified language |
| AmmSwap.ProductKept | scripts/lib/clunc-custc-lp-math.py:63-76 | the reserve product never falls, the clamp never acts, the reserves stay positive |
| AmmSwap.PaysTheFee | scripts/lib/clunc-custc-lp-math.py:70-76 | the output reserve is the least that keeps the product, and the commission is the fee's share rounded down |
| AmmSwap.OfferMonotone | scripts/lib/clunc-custc-lp-math.py:63-76 | a larger offer leaves a strictly larger input and no larger output reserve |
| AmmSwap.RoundTripLoses | scripts/lib/clunc-custc-lp-math.py:63-76 | swapping the proceeds back never returns more than was put in |
| AmmSwap.SplitGainsLittle | scripts/lib/clunc-custc-lp-math.py:63-76 | splitting an offer gains at most one unit, and nothing without a fee |
| AmmSearch.PriceMonotone | scripts/lib/clunc-custc-lp-math.py:133-142 | the price after a swap is strictly monotone in the offer |
| AmmSearch.BinarySearch | scripts/lib/clunc-custc-lp-math.py:130-163 | the loop finds an offer in the band exactly if there is one in reach |
| AmmSearch.FindCluncOffer | scripts/lib/clunc-custc-lp-math.py:89-174 | idle on an empty pool or inside the band; otherwise an in-band offer exactly if one exists up to the bound |
| AmmSearch.FindUst1Offer | scripts/lib/ust1-lp-rebalance-math.py:78-158 | the same search, with an error on an empty pool |
| AmmLadder.LegsWorth | scripts/lib/clunc-custc-lp-math.py:177-207 | the legs are worth at most the requested value and fall short by less than one unit each |
| AmmLadder.AddKeepsPrice | scripts/lib/clunc-custc-lp-math.py:201-202 | adding liquidity never raises the ratio and lowers it by less than 1/(r0+a0) |
| AmmLadder.BufferCovers | scripts/lib/clunc-custc-lp-math.py:210-213 | a buffered amount covers the amount exactly if the buffer does not round below zero |
| AmmLadder.WrapIsLeast | scripts/lib/clunc-custc-lp-math.py:220-227 | the wrap is the least gross amount that mints enough |
| AmmLadder.PlanStep | scripts/lib/clunc-custc-lp-math.py:277-348 | a plan is the swap, legs, mints and wraps of its rung for the reserves and balances at hand; each refusal names the inputs that cause it |
| AmmLadder.RungLands | scripts/lib/clunc-custc-lp-math.py:314-333 | a rung without a forced amount lands at or below its target plus the value of an uncredited one-sided pool, within the sizing error |
| AmmLadder.LandsExactly | scripts/lib/clunc-custc-lp-math.py:308-333 | every rung planned for a pool lands on target exactly if the pool, before its swap, has both tokens or neither |
| AmmLadder.OneSidedOvershoots | scripts/lib/clunc-custc-lp-math.py:308-333 | a pool with one empty side ends above the target by what it holds |
| AmmLadder.MintsCover | scripts/lib/clunc-custc-lp-math.py:335-348 | the mints cover swap and liquidity, so no clamp acts |
| AmmLadder.NoClampExactly | scripts/lib/clunc-custc-lp-math.py:249-274 | for any buffer, no clamp acts exactly if each mint covers its need |
| AmmLadder.NegativeBufferClamps | scripts/lib/clunc-custc-lp-math.py:270-273 | with a negative buffer a clamp can act |
| AmmLadder.StepConserves | scripts/lib/clunc-custc-lp-math.py:249-274 | reserves, balances and commissions after a rung equal those before and the mints |
| AmmLadder.LadderConserves | scripts/lib/clunc-custc-lp-math.py:398-432 | the same over every ladder, with no clamp ever acting |
| AmmLadder.ParseRungs | scripts/lib/clunc-custc-lp-math.py:230-246 | exactly the nonempty, positive, strictly increasing rungs are accepted |
| AmmLadder.PlanRungs | scripts/lib/clunc-custc-lp-math.py:398-432 | the loop plans each rung for the state its predecessors lead to, with true totals; a refusal is malformed rungs or a rung refused in that state |
| AmmUst1.BuildPlan | scripts/lib/ust1-lp-rebalance-math.py:204-271 | a plan is one swap, the legs of both pools and three mints for the balances at hand; each refusal names the inputs that cause it |
| AmmUst1.MintsPayForBothPools | scripts/lib/ust1-lp-rebalance-math.py:258-271 | the mints pay for the swap and for both pools from one balance |
| AmmUst1.MintsOnlyWhatIsMissing | scripts/lib/ust1-lp-rebalance-math.py:269-271 | a token is minted exactly if something of it is missing |
| Leb128.WriteLeb | scripts/ci/test-wasm-local-limit.py:16-23 | the loop prints the shortest encoding |
| Leb128.WriteVarint | scripts/lib/chain-attestation.py:89-95 | the loop prints the same encoding |
| Leb128.LebLength | scripts/ci/test-wasm-local-limit.py:16-23 | an encoding has at most n bytes exactly if its number is below 128 to the n |
| Leb128.ReadBack | scripts/ci/check-wasm-local-limit.py:33-42 | a number is read back with exactly its bytes, whatever follows |
| WasmLocals.Reader.U32 | scripts/ci/check-wasm-local-limit.py:33-42 | every number read is below 2^32 and takes exactly its encoding |
| WasmLocals.Reader.Payload | scripts/ci/check-wasm-local-limit.py:44-49 | a sub-reader holds exactly the next bytes, and too long a length is refused |
| WasmLocals.ReadBody | scripts/ci/check-wasm-local-limit.py:81-93 | a body yields the sum of its local groups, or is malformed |
| WasmLocals.ReadCode | scripts/ci/check-wasm-local-limit.py:75-94 | a code section yields the sums of its bodies in order |
| WasmLocals.DeclaredFunctionLocals | scripts/ci/check-wasm-local-limit.py:56-97 | the reader computes exactly what its grammar means |
| WasmLocals.BodyBack | scripts/ci/test-wasm-local-limit.py:30-34 | no guard rejects a printed body, and its locals are read back |
| WasmLocals.ModuleBack | scripts/ci/test-wasm-local-limit.py:26-34 | every printable list of sections is read back exactly, duplicates and unequal counts being refused |
| WasmLocals.LocalsBack | scripts/ci/test-wasm-local-limit.py:30-34 | one function and one code section, in either order and with other sections anywhere, give the per-function sums |
| Protobuf.ReadVarint | scripts/lib/chain-attestation.py:102-113 | a number of at most ten groups is read with exactly its bytes |
| Protobuf.ProtobufFields | scripts/lib/chain-attestation.py:98-130 | the decoder is total and computes exactly what its grammar means |
| Protobuf.FieldBack | scripts/lib/chain-attestation.py:115-129 | a printed field is read back, and the bytes after it are left |
| Protobuf.FieldsBack | scripts/lib/chain-attestation.py:98-130 | every printable list of fields decodes to its last-wins map |
| Protobuf.LastWinsMeans | scripts/lib/chain-attestation.py:129 | a number maps to the content of its last field |
| AdoptionJournal.AttemptNoncesDistinct | scripts/ops/adopt-logs-s3.py:332-335 | all attempts of a journal have different nonces |
| AdoptionJournal.OneAdoptionPerNonce | scripts/ops/adopt-logs-s3.py:478-499 | a nonce has at most one commit to a started adoption |
| AdoptionJournal.ReentryArchivesOne | scripts/ops/adopt-logs-s3.py:381-385 | a re-entry archives exactly the failed adoption receipt of the attempt it leaves |
| AdoptionJournal.ArchiveCountsReentries | scripts/ops/adopt-logs-s3.py:381-385 | the archive counts the re-entries exactly |
| AdoptionJournal.FinishedRestsOnPass | scripts/ops/adopt-logs-s3.py:502-526 | a finished adoption rests on a passed adoption receipt of its own attempt |
| AdoptionOperator.Vault.Save | scripts/ops/adopt-logs-s3.py:64-71 | a stale version never writes, and a confirmed write is in the history at its version |
| AdoptionOperator.Create | scripts/ops/adopt-logs-s3.py:188-211 | only a missing journal is created, and preflight starts only after its commit |
| AdoptionOperator.CreateServiceJob | scripts/ops/adopt-logs-s3.py:214-239 | the job is journaled before its first start |
| AdoptionOperator.ResumeCreate | scripts/ops/adopt-logs-s3.py:241-253 | creation is taken up again only from a prepared journal without a job |
| AdoptionOperator.Recover | scripts/ops/adopt-logs-s3.py:432-456 | exactly one matching job is adopted, without starting it |
| AdoptionOperator.Status | scripts/ops/adopt-logs-s3.py:459-475 | a failure is noted exactly if the last receipt of the running attempt is a harmless failed adoption |
| AdoptionOperator.StartAdoption | scripts/ops/adopt-logs-s3.py:478-499 | success is one commit from a passed preflight of the same attempt, by an operator whose version was current |
| AdoptionOperator.Finalize | scripts/ops/adopt-logs-s3.py:502-526 | success needs a passed adoption receipt of the running attempt and ends persisted |
| AdoptionOperator.ResetPreflight | scripts/ops/adopt-logs-s3.py:306-387 | success enters preflight again under a nonce that was never used, after a failed adoption |
| AdoptionOperator.Cleanup | scripts/ops/adopt-logs-s3.py:563-599 | nothing is cleaned up while an adoption may still be running |
| AdoptionWorker.VolumeHasOneNonce | scripts/ops/loki-s3-adoption-worker.py:258-261 | an admissible volume name belongs to one nonce |
| AdoptionWorker.Host.Latch | scripts/ops/loki-s3-adoption-worker.py:186-200 | the latch is created by one start only |
| AdoptionWorker.Host.Execute | scripts/ops/loki-s3-adoption-worker.py:240-295 | latches and transactions change as specified: only the first start that gets through every check latches, and it runs unless it dies; a passed report rests on the checks, a passed adoption on the latch |
| AdoptionWorker.Host.Persist | scripts/ops/loki-s3-adoption-worker.py:298-321 | terminal adoption evidence is never replaced |
| AdoptionWorker.Host.Restarts | scripts/ops/loki-s3-adoption-worker.py:324-345 | over any starts and restarts, latches and transactions are exactly those the starts call for, and evidence stays |
| AdoptionWorker.RanFromStarts | scripts/ops/loki-s3-adoption-worker.py:186-200 | every transaction comes from an admissible adopt request with its volume and nonce, and no volume runs two |
| AdoptionWorker.TwoMountsRunTwice | scripts/ops/loki-s3-adoption-worker.py:258-261 | two admissible names among the requests for a nonce can run two transactions |
| AdoptionWorker.OnceExactly | scripts/ops/loki-s3-adoption-worker.py:253-262 | whatever is answered, a nonce runs at most one transaction exactly if its admissible adopt requests all name one volume |
| AdoptionWorker.AtMostTwice | scripts/ops/loki-s3-adoption-worker.py:258-261 | and never three |
| AdoptionWorker.TwoMountsTwoTransactions | scripts/ops/loki-s3-adoption-worker.py:258-261 | a run of two starts under the two names of one attempt, with two transactions |
| Drill.ActiveState | monitoring/dex/drill.py:87-103 | the one own alert's state, none, or an error for an unknown state or a duplicate |
| Drill.WasDelivered | monitoring/dex/drill.py:106-115 | whether an own receipt of that status is recent enough |
| Drill.Respond | monitoring/dex/drill.py:142-173 | one phase's answers give the specified state, and order and format are kept |
| Drill.Machine.Step | monitoring/dex/drill.py:126-177 | every persisted state loads, enabling happens once and only first, a terminal state stays, markers are ordered, and a completed step leaves exactly the state its answers call for |
| Drill.Machine.Run | monitoring/dex/drill.py:126-177 | over any starts at any times, 64 completed steps end in a terminal phase, and a drill that first saw the alert firing never passes |
| Drill.PassSawEverything | monitoring/dex/drill.py:156-170 | a passed drill has all five markers, in order |
| SellPreview.DebitAdjoint | scripts/bots/swarm_tax.py:77-81 | the debit fits a gross amount exactly up to the fundable amount |
| SellPreview.SellUnique | scripts/lib/route_tax_rollout.py:587-594 | the check accepts exactly one economic amount per gross amount and rate |
| SellPreview.FailsClosedExactly | scripts/bots/swarm_tax.py:91-105 | when a preview names no debit, the fail-closed one is required, on the router path only under a stated condition |
| SellPreview.RouterPreviewWithoutNumbers | scripts/bots/swarm_tax.py:102-104 | a router preview without numbers asks for the tax alone |
| LineFeed.CutTwice | gch-agent-idle-wrap.py:31-37 | a stream may be cut anywhere without changing its lines or its unfinished rest |
| LineFeed.FeedLines | gch-agent-idle-wrap.py:31-37 | the loop yields the complete lines' kinds and the unfinished rest, or fails with the classifier |
| LineFeed.Wrapper.OnChunk | gch-agent-idle-wrap.py:87-93 | buffer, kinds and short-idle flag are those of the whole stream |
| LineFeed.CopyOutput | gch-agent-idle-wrap.py:74-97 | however a stream is cut into chunks, the end state depends on the stream alone |

## Left out

- RolloutChain.BindingsExact: all settings that the check compares are one value per contract; what a router or token advertises is a fact of the binary it runs.
- RolloutCutover.CutOverExactly: whether rates and tax previews reconcile is a fact of the binary too (the arithmetic of the preview check is modelled on its own in `SellPreview`).
- RolloutEngine.Rollout.Verify: a preservation checkpoint that replaces the inventoried supplies and pools.
- RolloutEngine.Rollout.CheckProofs: the re-encoding of saved signed bytes and the comparison of their messages.
- RolloutSafety.WorkSeenPaused: the signature of the listing; once somebody else has taken the code off the list, it can be signed after restores.
- Rollout: artifact amendments, the manifest file and its digests, which detect edits of the journal by hand.
- Rollout: reads of one check happen at one moment; a change by others between two reads of the same check is not told apart from one after it.
- Rollout: signing, key custody, multisig proofs, gas estimation, endpoint failover and the process lock; the signer may refuse at any time.
- RolloutInventory.TakeInventory: factory, governance and router bindings of the contracts' own settings, and the treasury's least version.
- Rollout: paging through pairs, whitelist and token discovery; the inventory starts from the discovered addresses.
- RolloutEngine.Rollout.Transact: the fee guard inside the transport is modelled in its own module and appears here only as a possible refusal.
- FeeGuard: parsing of the gas price text; the price is a positive real or refused.
- FeeGuard.RoundAlwaysFunded: the containment tool's own reads of pause flags are moves chosen freely.
- Bech32.TerraAddress: capital letters outside ASCII, which the alphabet rejects anyway.
- AMM planners: the 80-digit rounding of `Decimal`, oracle fetching and cross-checks, and the report fields that only restate computed values.
- AmmSearch.BinarySearch: the variable that remembers the last probe; only a probe inside the band is ever returned.
- WasmLocals: the artifact report around the checker (path, digest, limit comparison).
- Protobuf: the queries and comparisons around the decoder.
- Adoption: the checks of the deployment service, the candidate credential and the recovery report; each is one yes-or-no answer.
- AdoptionOperator.CreateServiceJob: numeric job and child identities.
- AdoptionWorker.Host.Execute: container identity and isolation checks are one answer; two containers on one volume at the same moment are excluded by the code's own inventory query, and the latch is exclusive in any case.
- Drill: the layout of alert and receipt payloads beyond the fields that decide; file size limits.
- LineFeed: the classification of a single line, the child process, its time limits and signals.
- swarm_tax: message builders, the environment parser and `find_tax_multihop`, which read off their bodies.
