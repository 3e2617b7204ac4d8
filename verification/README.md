# Verification of MCode's protocols and stores

This directory models the parts of MCode that carry an invariant over whole
runs, and proves those invariants in Dafny 4.11. `dafny verify dfyconfig.toml`
checks everything.

Two forms are used side by side. A protocol with several threads or processes
is a state machine: one action is one critical section, one system call or one
poll, everything in between is a program counter, and every native outcome
comes from an oracle. Code that edits its fields in place is a class whose
methods are proved to answer as a function on plain values, and the laws are
proved about that function. A call of a thread among others is a class too:
its control flow is written out, the others act between any two of its atomic
steps, and what happened is proved to be a run of the protocol; its answer is
tied to the states that run passed, and with nobody in the way and native calls
that work it must succeed. What a function leaves is also stated outright,
without its helpers, in the modules named for effects, laws and lines. The main
results are stated for every input, every reachable state or every run.

| files | what they model |
|---|---|
| `TerminalProtocol`, `TerminalSafety`, `TerminalTrace`, `TerminalCode`, `TerminalCalls` | ownership of the process-wide terminal slot: entering threads, guards, retried restorations and the abnormal exit, with native calls that fail, panic, or take effect and still report failure |
| `GenerationWord`, `GenerationFence`, `FenceSafety`, `FenceCode` | the lock-free fence of a Host generation: a packed phase and count, an epoch recheck, a commit mutex and a drain notification |
| `PackSelection`, `PackSafety`, `PackEffects`, `PackCode` | publication of root compositions, selection stamps, and activation of an exact Pack set on generations that are such fences |
| `KeyOrder`, `HostVault`, `VaultHistory`, `VaultCheck`, `VaultEffects`, `VaultCode` | the Host vault: seven commands on two strictly sorted tables, what each leaves, the whole-document check, and the laws of every history |
| `OwnedFile`, `OwnedFileSafety`, `FileProgress`, `LockedDocuments` | the locked read-modify-rename of one owned file by any number of processes with failing calls, crashes and losses of power, and its two documents |
| `EventStream`, `StreamCode`, `StreamSends` | the bounded provider event stream |
| `ToolDispatch` | the tool stream and the select loop that dispatches one call |
| `AgentHistory`, `AgentScript`, `AgentLaws`, `AgentLoop` | one turn of the agent: what it amounts to for any script of responses, tool results, cancellation and arrivals, the laws of that, and the double loop that does it |
| `StagingPaths`, `StagingLedger`, `StagingCode` | the payload ledger of a staging transaction |
| `Transcript`, `Reducer`, `ReducerLaws` | the scrollback window and the pure transition of the terminal application |
| `PlainText`, `PlainGrammar`, `PlainTree`, `TreeLines` | sanitizing, with the grammar of what is taken out, cutting, and the bounded tree renderer, line by line |
| `StrictJson`, `PackInstallation` | the strict bounded JSON reader and the Pack installation document |
| `Prelude` | `Option`, `Result`, `Min` and a fact about set sizes |

## Where the code and its documentation differ

- `restore_on_abnormal_exit` (crates/mcode-tui/src/guard.rs:549-570) presents
  itself as restoring the terminal before it returns. With leave calls that work
  the terminal modes are indeed off by then and stay off until another owner
  enters, whatever the other threads do (`AbnormalExitStopsAnEntry`), but
  `acquire_output` tests `cancelled` before it
  takes the lease lock (guard.rs:206-216), so the page may still be switched
  after the return. `LateSwitchHappens` is a concrete run, and `LateSwitchIff`
  the exact condition. The page is restored when the slot is released.
- An error from `replace` does not mean that nothing was published
  (crates/mcode-config/src/secure_fs/unix_file.rs:113-128): an error after the
  rename leaves the new bytes in place. `ErrorAfterPublication` is a concrete
  run and `PublishedIff` the exact condition. Only a success says that a loss of
  power keeps the document (`SuccessIsDurable`, `UnsyncedMayBeLost`).
- A guard's drop promises to release the slot (guard.rs:493-500), but a page
  backend that panics during it unwinds past `finish_guard`: the slot stays
  active with nobody left to release it. `HeldUnlessAbandoned` is the exact
  condition and `AbandonedByPanic` says what it takes.
- In the staging ledger the two range probes can only find what the lookup in
  `directories` found already (staging.rs:89 and 108-121), because every
  directory is a proper ancestor of a file. Both are modelled.

## Model

| member | source | states |
|---|---|---|
| TerminalProtocol.ApplyKeeps | crates/mcode-tui/src/guard.rs:206-259 | every step of entering threads, guard drops, claim retries and abnormal restores, with any native outcome, keeps every switched mode and page recorded as an obligation of the one guard the slot names |
| TerminalProtocol.DropLeaseIsSilent | crates/mcode-tui/src/output_cp.rs:185-194 | the last reference to a guard the slot has let go of has nothing left to restore, so a lease dropped late is harmless |
| TerminalSafety.VacantMeansRestored | crates/mcode-tui/src/guard.rs:589-667 | in every reachable state a vacant slot means no mode is on and the page is the original one |
| TerminalSafety.ObligationsBelongToTheSlot | crates/mcode-tui/src/guard.rs:240-267 | no two guards hold obligations at once, and whatever is on is owed by the guard in the slot |
| TerminalSafety.CleanupStartsOnce | crates/mcode-tui/src/guard.rs:240-259 | a guard counts at most one cleanup sequence however often it is restored |
| TerminalSafety.CleanupIsCounted | crates/mcode-tui/src/guard.rs:240-259 | a guard counts its cleanup exactly at the first restoration that finds a mode to leave |
| TerminalSafety.HeldUnlessAbandoned | crates/mcode-tui/src/guard.rs:493-500 | an active guard is held by somebody if and only if its drop did not unwind out of a panicking backend |
| TerminalSafety.AbandonedByPanic | crates/mcode-tui/src/output_cp.rs:158-176 | only a panicking page backend, in one of the two drops that release the slot, abandons a guard |
| TerminalSafety.CancelledForever | crates/mcode-tui/src/guard.rs:311-350 | a cancelled entry never becomes active over any later run, and the modes it owes only shrink |
| TerminalSafety.OnlyEntererReleases | crates/mcode-tui/src/guard.rs:623-641 | only the thread that owns the entry takes the slot out of Entering, whatever the abnormal-exit thread does |
| TerminalSafety.AbnormalExitStopsAnEntry | crates/mcode-tui/src/guard.rs:556-570 | once the terminal half of an abnormal exit against an entry has run with working leaves, with any other steps before and in between, the modes are off and stay off over every later run until another owner enters |
| TerminalSafety.AbnormalExitReturns | crates/mcode-tui/src/guard.rs:549-570 | when such a call returns, whatever ran in between, nothing is owed for the entry and the terminal is as it was |
| TerminalSafety.AbnormalExitFreesAGuard | crates/mcode-tui/src/guard.rs:669-698 | against an active or deferred guard the call ends with nothing owed for it and the slot never names it again, whatever the others do in between and later |
| TerminalSafety.ClaimFinishesDeferredWork | crates/mcode-tui/src/guard.rs:589-621 | a claimant that meets a deferred restoration completes it, whatever the others do in between, and owns the slot if it is vacant when it looks again |
| TerminalSafety.RestorationFreesTheSlot | crates/mcode-tui/src/guard.rs:589-621 | restoring for a claim or an abnormal exit ends with nothing owed and the slot not naming the guard, for every interleaving |
| TerminalSafety.LateSwitchIff | crates/mcode-tui/src/guard.rs:206-216 | a cancelled entry with its page restored can still switch it if and only if its thread sits between the first cancellation check and the lease lock with an unused switchable lease |
| TerminalSafety.LateSwitchHappens | crates/mcode-tui/src/guard.rs:549-570 | a concrete run in which the abnormal exit has returned, all is restored, and the page is about to be switched |
| TerminalCode.LeaveAllIs | crates/mcode-tui/src/guard.rs:240-259 | leaving stage by stage clears exactly the stages whose leave succeeded and calls leave once for each recorded stage, in the given order |
| TerminalCode.LeavesMirrorEntries | crates/mcode-tui/src/guard.rs:240-259 | whatever was entered is left in the reverse of the order raw mode, alternate screen, cursor, bracketed paste |
| TerminalCode.GuardInner.EnterStage | crates/mcode-tui/src/guard.rs:218-238 | the obligation is recorded before the native call, which may take effect and still fail; equals the protocol section |
| TerminalCode.GuardInner.RestoreModes | crates/mcode-tui/src/guard.rs:240-259 | the restore loop, stage by stage in reverse order, equals the atomic section of the protocol |
| TerminalCode.GuardInner.Acquire | crates/mcode-tui/src/output_cp.rs:114-145 | acquiring the page lease equals the protocol section, a failed set leaving no obligation |
| TerminalCode.GuardInner.RestoreOutput | crates/mcode-tui/src/output_cp.rs:158-173 | restoring the page equals the protocol section: cleared, still owed, or a panic that keeps the obligation |
| TerminalCalls.Call.ClaimActiveSlot | crates/mcode-tui/src/guard.rs:589-621 | the claim loop among any interference is a run of the protocol: it ends owning a fresh entry; refused only after it saw the slot taken, saw no owner left, or a deferred restoration failed again; or still trying after finishing one. Undisturbed, with a free or deferred slot and native calls that work, it owns an entry |
| TerminalCalls.Call.EnterTerminal | crates/mcode-tui/src/guard.rs:378-392 | entry among any interference is a run of the protocol: a returned guard is active and uncancelled with all four modes on and recorded and the output settled; otherwise it was refused for the reason above or rolled back after a failed call or a cancellation. Undisturbed, with native calls that work, a free slot gives a guard |
| TerminalCalls.Call.DropGuard | crates/mcode-tui/src/guard.rs:493-500 | the drop among any interference is a run of the protocol that runs both halves of the restoration; the slot does not name the guard afterwards when all is restored, and it is deferred or abandoned otherwise. Undisturbed, with calls that undo, the slot is vacant and the terminal as it was |
| TerminalCalls.Call.RestoreOnAbnormalExit | crates/mcode-tui/src/guard.rs:556-570 | the abnormal exit among any interference is a run of the protocol. It restores nothing only when the slot it saw was vacant or active with nobody holding the guard; otherwise both halves of the restoration of the owner it saw ran, and when they report all restored for a guard, nothing is owed for it and the slot does not name it. Undisturbed, against an active held or a deferred guard, with calls that undo, the slot ends vacant and the terminal as it was |
| GenerationWord.ReserveAddsOne | crates/mcode-plugin-host/src/generation.rs:62-69 | adding the reserve unit to a word that is not full adds exactly one activity |
| GenerationWord.FullIffWraps | crates/mcode-plugin-host/src/generation.rs:118-131 | a word counts as full exactly when one more activity would wrap it around |
| GenerationWord.ReleaseTakesOne | crates/mcode-plugin-host/src/generation.rs:189-201 | subtracting it from a word with activities takes exactly one away |
| GenerationWord.PhaseOfReserve | crates/mcode-plugin-host/src/generation.rs:203-205 | the phase bits are untouched by the addition |
| GenerationWord.WordIsPair | crates/mcode-plugin-host/src/generation.rs:203-209 | a packed word is determined by its phase and its count |
| GenerationFence.ApplyKeeps | crates/mcode-plugin-host/src/generation.rs:108-201 | every step of any number of threads, the publisher and the waiter keeps the count equal to live activities plus in-flight reservations |
| FenceSafety.CountIsExact | crates/mcode-plugin-host/src/generation.rs:189-201 | in every reachable state the packed count is the number of reservations and no release panics |
| FenceSafety.ReserveIsSafe | crates/mcode-plugin-host/src/generation.rs:118-131 | a reservation never overflows and never changes the phase, from any reachable word |
| FenceSafety.PhaseForward | crates/mcode-plugin-host/src/generation.rs:139-177 | the phase only moves forward along every step |
| FenceSafety.MarkCurrentIff | crates/mcode-plugin-host/src/generation.rs:139-148 | marking current succeeds exactly while the fence is preparing |
| FenceSafety.DrainedForever | crates/mcode-plugin-host/src/generation.rs:150-187 | once retired with count zero the word never changes again and nobody is admitted |
| FenceSafety.DrainReturnsForGood | crates/mcode-plugin-host/src/generation.rs:179-187 | a drain that returns on a retired fence stays drained over every later run |
| FenceSafety.NoLostWakeUp | crates/mcode-plugin-host/src/generation.rs:179-201 | a single waiter is never asleep at count zero with no notification under way |
| FenceSafety.WokenWaiterReturns | crates/mcode-plugin-host/src/generation.rs:179-201 | a waiter asleep at count zero has a notification coming, and that notification makes it return |
| FenceSafety.AdmissionIsCurrent | crates/mcode-plugin-host/src/generation.rs:108-137 | every live activity was reserved while Current, in the same even open epoch its first load saw |
| FenceSafety.CommitWindowIsCurrent | crates/mcode-plugin-host/src/generation.rs:216-233 | while a commit window is open the fence is Current and no other window is open |
| FenceSafety.RetirementWaits | crates/mcode-plugin-host/src/generation.rs:150-177 | retirement cannot take the commit lock while a window is open |
| FenceSafety.PanicShutsWindows | crates/mcode-plugin-host/src/generation.rs:216-233 | a panic inside a commit window poisons the mutex, and no window opens again over any later run |
| FenceSafety.MomentIsHonest | crates/mcode-plugin-host/src/generation.rs:118-131 | the moment recorded for an admission is that of its successful exchange |
| FenceCode.Caller.Enter | crates/mcode-plugin-host/src/generation.rs:108-137 | the enter loop among any interference is a run of the protocol: an activity was reserved while Current in the even open epoch loaded first and seen again; a refused call holds no reservation and since it began passed a state that was closed, odd, not Current, full, or of another epoch. Undisturbed, it is admitted exactly by a fence without any of these |
| FenceCode.Caller.MarkRetired | crates/mcode-plugin-host/src/generation.rs:150-177 | the retirement loop among any interference is a run of the protocol and ends Retired; it gives up only after the mutex was held or its exchanges kept failing, and never when left alone |
| FenceCode.Caller.BeginCommit | crates/mcode-plugin-host/src/generation.rs:216-228 | the commit window opens only on a Current fence under an open authority, each refusal tells why not, only a held mutex keeps the call waiting, and left alone it answers at once |
| FenceCode.Caller.ReleaseOne | crates/mcode-plugin-host/src/generation.rs:189-201 | a release never panics: the number the count stands for drops by exactly one, the phase stays, and the waiter is notified exactly when nothing is left |
| PackSelection.Project | crates/mcode-plugin-host/src/pack_selection.rs:353-365 | the projection lists, family by family, exactly what the composition selects |
| PackSelection.Mint | crates/mcode-plugin-host/src/pack_selection.rs:189-199 | a minted stamp never repeats a live one |
| PackSelection.ApplyKeeps | crates/mcode-plugin-host/src/pack_selection.rs:92-209 | every action of clients, publisher and generations keeps the authority, the caches and the live stamps consistent |
| PackSafety.LiveStampsAreCached | crates/mcode-plugin-host/src/pack_selection.rs:150-209 | while the authority is open the live stamps are exactly the pairwise distinct stamps cached by live clients |
| PackSafety.ProjectionFollowsDocument | crates/mcode-plugin-host/src/pack_selection.rs:92-125 | the projection is always the projection of the accepted document |
| PackSafety.RevisionsOnlyGrow | crates/mcode-plugin-host/src/pack_selection.rs:92-125 | accepted revisions never regress over any run, and one revision never names two documents |
| PackSafety.PublicationsCommuteIff | crates/mcode-plugin-host/src/pack_selection.rs:92-125 | two publications give the same authority in either order if and only if they are not two different newer documents under one revision |
| PackSafety.ActiveChangesOnlyByCommit | crates/mcode-plugin-host/src/pack_activation.rs:93-126 | at a commit the generation is Current, the authority open, and the target equals the cached stamp and the latest projection; nothing else touches the active set |
| PackSafety.ActivationIsAtomic | crates/mcode-plugin-host/src/pack_activation.rs:62-126 | a failed activation leaves the set it found, a successful one leaves exactly the target ids in order |
| PackSafety.PreviousSetStaysActive | crates/mcode-plugin-host/src/pack_activation.rs:62-91 | while the candidate loads the previous set stays active |
| PackSafety.WindowBlocksRetirement | crates/mcode-plugin-host/src/generation.rs:216-233 | no step of anybody on the fence or elsewhere retires a generation while a client is inside its commit window |
| PackSafety.CommitIffNothingPublished | crates/mcode-plugin-host/src/pack_selection.rs:248-287 | an activation that reaches its commit succeeds if and only if the authority is still open and nothing was accepted since it began, over every run in between |
| PackSafety.NewerDocumentStalesSelections | crates/mcode-plugin-host/src/pack_selection.rs:275-287 | after a newer document no earlier selection can be begun or committed |
| PackSafety.IssueIsStable | crates/mcode-plugin-host/src/pack_selection.rs:150-187 | issuing again without a publication returns the same selection and draws nothing |
| PackSafety.StampsAreFaithful | crates/mcode-plugin-host/src/pack_selection.rs:367-378 | sixteen random bytes make one 38-character token, and different bytes make different tokens |
| PackSafety.HexIsTheNumber | crates/mcode-plugin-host/src/pack_selection.rs:367-378 | two stamps with the same hexadecimal digits encode the same number, the high digit of each byte first |
| PackEffects.HighestRevisionWins | crates/mcode-plugin-host/src/pack_selection.rs:92-125 | however many documents an open authority is offered, it holds the first one of the highest revision |
| PackEffects.PublishAnswers | crates/mcode-plugin-host/src/pack_selection.rs:92-125 | a publication succeeds exactly when the authority then holds that document, and otherwise says whether it was older or in conflict |
| PackEffects.MintGivesFirstUnused | crates/mcode-plugin-host/src/pack_selection.rs:189-199 | minting gives the first unused draw when one of the attempts is unused and none before it failed, and nothing otherwise |
| PackEffects.IssuedCanBeActivated | crates/mcode-plugin-host/src/pack_selection.rs:150-187 | an open authority issues when the cached selection still holds or one of eight draws is unused; what it issued can be begun and committed by its stamp alone, until the authority closes |
| PackEffects.FamiliesGetTheirOwn | crates/mcode-plugin-host/src/pack_selection.rs:353-365 | after a newer document each family is issued exactly the Packs that document gives it, field by field |
| PackEffects.ActivationSucceeds | crates/mcode-plugin-host/src/pack_activation.rs:62-126 | a current selection on a ready generation with nobody in the way ends with exactly its Packs in place, in order, loaded now or confirmed |
| PackEffects.FailureTellsWhy | crates/mcode-plugin-host/src/pack_activation.rs:62-126 | whoever else acts, an activation fails only by its own step, for a reason that was there at that moment, and its error says which |
| PackCode.PackSelectionAuthority.PublishDocument | crates/mcode-plugin-host/src/pack_selection.rs:92-125 | the method answers and changes the fields as the protocol function does |
| PackCode.PackSelectionAuthority.MintStamp | crates/mcode-plugin-host/src/pack_selection.rs:189-199 | the minting loop tries at most eight draws and returns the first unused one |
| PackCode.PackActivationClient.Activate | crates/mcode-plugin-host/src/pack_activation.rs:62-91 | the whole activation call, with loads, retirement and publications in between: it succeeds if and only if the selection still stands at both ends, every load succeeds or the set is active already, and the generation is open and unpoisoned; success puts exactly the target in place and every failure keeps the old set and says why |
| KeyOrder.Sort | crates/mcode-config/src/host_vault/reducer.rs:411-427 | the sort gives the ordered permutation, strict exactly when no key repeats |
| KeyOrder.BinarySearch | crates/mcode-config/src/host_vault/reducer.rs:437-449 | the search finds the row of a key if and only if there is one |
| KeyOrder.RepeatsAreNeighbours | crates/mcode-config/src/host_vault/reducer.rs:487-501 | in sorted keys a repetition is always between neighbours |
| KeyOrder.KeyTransitive | crates/mcode-config/src/host_vault/model.rs:353-367 | the order of key tuples is transitive |
| KeyOrder.TextIsLexicographic | crates/mcode-config/src/host_vault/model.rs:353-367 | identifiers are ordered by their first differing character, a beginning before what extends it |
| KeyOrder.KeyIsLexicographic | crates/mcode-config/src/host_vault/model.rs:353-367 | keys are ordered by their first differing component |
| HostVault.InsertKeepsSound | crates/mcode-config/src/host_vault/reducer.rs:263-308 | an accepted insertion keeps caps, row shape, active/secret agreement and grant ownership |
| HostVault.RevokeKeepsSound | crates/mcode-config/src/host_vault/reducer.rs:328-346 | an accepted revocation leaves no grant without an active credential |
| HostVault.BindKeepsSound | crates/mcode-config/src/host_vault/reducer.rs:348-376 | an accepted binding keeps the vault sound |
| HostVault.ApplyKeepsSound | crates/mcode-config/src/host_vault/reducer.rs:223-261 | every accepted command takes a sound vault to a sound vault |
| VaultEffects.InsertIff | crates/mcode-config/src/host_vault/reducer.rs:263-308 | an insertion is accepted exactly when the account is new, the keys are distinct and ungranted, secret and texts are well formed and all caps leave room; it is a conflict exactly when the account or a key is taken |
| VaultEffects.InsertStores | crates/mcode-config/src/host_vault/reducer.rs:263-308 | an accepted insertion stores the given secret under the given descriptor at version one, grants each approval to it under its digest and its family's manager, and changes nothing else |
| VaultEffects.RotateStores | crates/mcode-config/src/host_vault/reducer.rs:310-326 | a rotation is accepted exactly at the standing version; it stores the given secret at the next version and leaves every other credential and every grant as it was |
| VaultEffects.RevokeTakes | crates/mcode-config/src/host_vault/reducer.rs:328-346 | a revocation takes the secret, counts the version, and keeps exactly the grants of the other accounts |
| VaultEffects.BindIff | crates/mcode-config/src/host_vault/reducer.rs:348-376 | a binding is accepted exactly when its keys are distinct and ungranted and every target stands as named; it is a conflict exactly when one of these fails |
| VaultEffects.BindGrantsEach | crates/mcode-config/src/host_vault/reducer.rs:348-376 | an accepted binding grants each key to its own target under its digest and changes nothing else |
| VaultEffects.RebindRedirects | crates/mcode-config/src/host_vault/reducer.rs:378-396 | a rebinding is accepted exactly when the grant is as expected and the replacement stands; it redirects that one grant to the target and digest given and changes nothing else |
| VaultEffects.UnbindRemoves | crates/mcode-config/src/host_vault/reducer.rs:398-409 | an unbinding removes exactly the one grant that is as expected |
| VaultEffects.PersistWhenExpected | crates/mcode-config/src/host_vault/reducer.rs:172-221 | a command is applied exactly when the stored state is the one it expected; only an insertion or the empty initialization creates a vault |
| VaultEffects.KeysDiffer | crates/mcode-config/src/host_vault/reducer.rs:571-587 | two grant keys have the same row exactly when family, Pack and operation agree |
| VaultEffects.FamiliesInOrder | crates/mcode-config/src/host_vault/model.rs:98-110 | stored grants are in the order of their families' names |
| VaultEffects.AcceptedDocument | crates/mcode-config/src/host_vault/model.rs:229-286 | in an accepted document exactly the active credentials hold a secret, no account and no grant is stored twice, and every grant has a digest and exactly one active credential |
| VaultHistory.VersionNamesOneSecret | crates/mcode-config/src/host_vault/model.rs:124-130 | over any history an account is kept, its version never falls, and one version names one secret, issuer and schema |
| VaultHistory.RevokedForever | crates/mcode-config/src/host_vault/reducer.rs:328-346 | a revoked account never changes again and no grant ever names it again |
| VaultHistory.ExpectationIsSpent | crates/mcode-config/src/host_vault/reducer.rs:211-221 | of two commands that expect the same state at most one ever succeeds |
| VaultHistory.GrantsChangeByName | crates/mcode-config/src/host_vault/reducer.rs:348-396 | a grant appears or is redirected only by a command that names its key |
| VaultHistory.UnbindUndoesBind | crates/mcode-config/src/host_vault/reducer.rs:398-409 | unbinding what was just bound restores both tables, unless the revision is exhausted |
| VaultCheck.ReferencesIsLookup | crates/mcode-config/src/host_vault/model.rs:263-277 | counting active matches over all rows is one lookup of the owner |
| VaultCheck.ChecksAreComplete | crates/mcode-config/src/host_vault/model.rs:229-286 | the row-by-row check accepts exactly the strictly ordered documents that stand for a sound vault |
| VaultCheck.Validate | crates/mcode-config/src/host_vault/model.rs:229-286 | the validating loops decide exactly that |
| VaultCode.VaultDocument.AreNewKeys | crates/mcode-config/src/host_vault/reducer.rs:487-501 | sorting, comparing neighbours and searching accepts exactly distinct, ungranted keys |
| VaultCode.VaultDocument.Insert | crates/mcode-config/src/host_vault/reducer.rs:263-308 | the in-place insertion answers as the command on the tables, leaving the document untouched when it refuses |
| VaultCode.VaultDocument.Rotate | crates/mcode-config/src/host_vault/reducer.rs:310-326 | the same for rotation; what the command leaves is `VaultEffects.RotateStores` |
| VaultCode.VaultDocument.Revoke | crates/mcode-config/src/host_vault/reducer.rs:328-346 | the same for revocation, retaining exactly the other accounts' grants |
| VaultCode.VaultDocument.BindAll | crates/mcode-config/src/host_vault/reducer.rs:348-376 | the same for a list of bindings |
| VaultCode.VaultDocument.Rebind | crates/mcode-config/src/host_vault/reducer.rs:378-396 | the same for redirecting one grant |
| VaultCode.VaultDocument.Unbind | crates/mcode-config/src/host_vault/reducer.rs:398-409 | the same for removing one grant |
| VaultCode.VaultDocument.ApplyCommand | crates/mcode-config/src/host_vault/reducer.rs:223-261 | every command keeps the concrete document valid or untouched |
| VaultCode.PersistCommand | crates/mcode-config/src/host_vault/reducer.rs:172-199 | the transaction answers as the abstract one, and its second validation is proved never to fail |
| OwnedFile.ApplyKeeps | crates/mcode-config/src/secure_fs/unix_file.rs:48-136 | every step, failure and crash of any process keeps the target complete and the chain of publications unbroken |
| OwnedFileSafety.TargetIsComplete | crates/mcode-config/src/secure_fs/unix_file.rs:92-129 | in every run the target is absent or holds exactly the last complete document published |
| OwnedFileSafety.NoLostUpdate | crates/mcode-config/src/secure_fs/owned_file.rs:119-137 | each publication was computed from the one right before it and fits the size limit |
| OwnedFileSafety.ReadersSeeWhatWasPublished | crates/mcode-config/src/secure_fs/unix_file.rs:34-46 | a reader without the lock gets the complete document that was latest when it opened the file |
| OwnedFileSafety.OnlyTheHolderIsInside | crates/mcode-config/src/secure_fs/unix_file.rs:54-80 | at most one process is between lock and unlock |
| OwnedFileSafety.PublishedIff | crates/mcode-config/src/secure_fs/unix_file.rs:73-128 | a returned call has a publication of its own since it began if and only if it reports success or an error from after its rename, and then exactly one, of its own command |
| OwnedFileSafety.SuccessIsDurable | crates/mcode-config/src/secure_fs/unix_file.rs:113-128 | a reported success is one publication of the call that a loss of power keeps |
| OwnedFileSafety.DurableStays | crates/mcode-config/src/secure_fs/unix_file.rs:113-128 | what a loss of power would keep, every later state keeps, over every run |
| OwnedFileSafety.UnsyncedMayBeLost | crates/mcode-config/src/secure_fs/unix_file.rs:113-128 | a concrete run in which a renamed document that the directory sync has not reached is gone after a loss of power |
| OwnedFileSafety.ErrorAfterPublication | crates/mcode-config/src/secure_fs/unix_file.rs:113-128 | a concrete run that reports an error although its bytes are published |
| OwnedFileSafety.RenamedFileIsFound | crates/mcode-config/src/secure_fs/unix_file.rs:313-322 | the inode comparison after the rename never finds another file |
| OwnedFileSafety.OneWinner | crates/mcode-config/src/secure_fs/owned_file.rs:119-137 | two processes whose updates compare and swap on the same expectation never both succeed |
| OwnedFileSafety.RanksCount | crates/mcode-config/src/secure_fs/owned_file.rs:119-137 | when each update adds one to the revision, the n-th publication has revision base plus n |
| FileProgress.UndisturbedCallSucceeds | crates/mcode-config/src/secure_fs/unix_file.rs:48-136 | an undisturbed call with system calls that work publishes exactly the bytes its update computes, durably, gives the lock back and leaves no temporary name |
| FileProgress.RefusedCallChangesNothing | crates/mcode-config/src/secure_fs/owned_file.rs:119-137 | an update that refuses, or computes too many bytes, leaves files, names and lock as they were and is reported as such |
| FileProgress.ReaderGetsTheLatest | crates/mcode-config/src/secure_fs/unix_file.rs:34-46 | a reader gets the document published when it looks, whoever holds the lock |
| FileProgress.FailureIsReported | crates/mcode-config/src/secure_fs/unix_file.rs:92-129 | a call reports the system call that failed, gives the lock back, and before the rename removes its temporary name without touching the target |
| LockedDocuments.VaultHasOneWinner | crates/mcode-config/src/host_vault/reducer.rs:172-221 | two processes that expected the same vault state never both succeed |
| LockedDocuments.OneVaultPerExpectation | crates/mcode-config/src/host_vault/reducer.rs:172-221 | no two published vault commands expected the same state, whoever sent them and whatever their calls returned |
| LockedDocuments.PublishedVaultsExtend | crates/mcode-config/src/host_vault/reducer.rs:172-199 | between any two published vaults no account is lost and every account only moves forward |
| LockedDocuments.InstallationsCount | crates/mcode-config/src/pack_installation.rs:309-332 | the n-th installation published has revision n, the caller's value, and expected n minus one |
| LockedDocuments.VaultCommandTakesEffect | crates/mcode-config/src/host_vault/reducer.rs:172-199 | an undisturbed vault command publishes exactly the vault it makes of the stored one, and otherwise changes nothing and is reported as refused |
| LockedDocuments.ReplacementTakesEffect | crates/mcode-config/src/pack_installation.rs:309-332 | an undisturbed replacement that expects the stored revision publishes its value under the next one, and with any other expectation changes nothing |
| EventStream.ApplyKeeps | crates/mcode-provider-api/src/stream.rs:50-201 | every step of senders, receiver, cancellation and dropped futures keeps the stream consistent |
| EventStream.AbortKeeps | crates/mcode-provider-api/src/stream.rs:56-77 | a send dropped while it waits changes nothing but its own entry and the mutex it held |
| EventStream.OneTerminalThenNothing | crates/mcode-provider-api/src/stream.rs:127-194 | next yields a prefix of the enqueue order and at most one made-up terminal: non-terminals, exactly one terminal, then nothing forever |
| EventStream.QueuedBeforeCancelComesFirst | crates/mcode-provider-api/src/stream.rs:132-168 | everything enqueued before cancellation is delivered before the Cancelled terminal |
| EventStream.BoundedWithOneTerminal | crates/mcode-provider-api/src/stream.rs:58-77 | the queue with an outstanding permit never exceeds sixteen, and at most one terminal is ever enqueued, last |
| EventStream.SendsTellTheTruth | crates/mcode-provider-api/src/stream.rs:58-77 | a send that returned true stays in the log as it was enqueued, and after a terminal every send is turned away; that it is the event offered is `StreamSends.SentIsWhatWasOffered` |
| StreamSends.SentIsWhatWasOffered | crates/mcode-provider-api/src/stream.rs:58-77 | over any run from a sender waiting with an event, once that send has returned true the log holds that event at its place if it encodes within 1 048 576 bytes and one protocol failure otherwise, and keeps it there |
| StreamSends.SendGoesThrough | crates/mcode-provider-api/src/stream.rs:58-77 | with the mutex free, room in the queue and the stream open, a send returns true in three steps and its event comes next |
| StreamSends.TurnedAwayOnlyAtTheEnd | crates/mcode-provider-api/src/stream.rs:58-77 | a send is turned away only after a terminal was enqueued or handed out, or when the receiver is gone |
| StreamSends.LogOnlyGrows | crates/mcode-provider-api/src/stream.rs:58-77 | nothing is ever taken out of the log |
| StreamSends.ClosedAlways | crates/mcode-provider-api/src/stream.rs:127-202 | in every run the stream is closed exactly when the receiver gave its terminal or is gone |
| StreamSends.MadeUpTerminalTellsWhy | crates/mcode-provider-api/src/stream.rs:162-194 | next makes up a terminal only with nothing queued; it is Cancelled exactly when the request was cancelled, and otherwise every sender is gone |
| StreamSends.NobodyIsServed | crates/mcode-provider-api/src/stream.rs:197-202 | after the receiver is dropped the request is cancelled for good, nothing more is handed out, and at most the one send that had its place still enqueues |
| EventStream.NextReturns | crates/mcode-provider-api/src/stream.rs:127-160 | once an event is queued, the request is cancelled or every sender is gone, next returns within four polls whatever the other side does between them |
| StreamCode.EventStreamReceiver.Next | crates/mcode-provider-api/src/stream.rs:127-169 | the code of next, with any interference between its polls, is a run of the protocol and appends exactly its result: a queued event is returned at once, a closed stream gives nothing, and it gives up only while the request is open |
| ToolDispatch.ToolStream.Send | crates/mcode-tools/src/stream.rs:101-114 | test, claim and enqueue as one section: accepted exactly until the first terminal |
| ToolDispatch.ToolStream.Drain | crates/mcode-tools/src/stream.rs:132-142 | drain returns everything left, which ends at the terminal |
| ToolDispatch.OneMoreSend | crates/mcode-tools/src/stream.rs:101-114 | sending is appending to the items up to the first terminal |
| ToolDispatch.AttemptsAreTheSends | crates/mcode-agent/src/turn.rs:260-330 | each send is attempted in its place and so is the outcome when the execution is first seen ready, and nothing else is |
| ToolDispatch.AttemptsGrow | crates/mcode-agent/src/turn.rs:260-330 | attempts are never withdrawn |
| ToolDispatch.MessagesAreTheStream | crates/mcode-agent/src/turn.rs:260-330 | what is reported is the stream itself, item by item, up to the first terminal |
| ToolDispatch.Dispatch | crates/mcode-agent/src/turn.rs:260-330 | for every schedule the events are one start, the progress sent before the first terminal in order, and one completion with the first terminal's outcome |
| AgentHistory.EachCallIsAnswered | crates/mcode-agent/src/agent.rs:467-487 | in a disciplined history each call of each reply has its result in its place, with its id |
| AgentHistory.DisciplinedReply | crates/mcode-agent/src/agent.rs:456-487 | a reply followed by the results of its calls keeps the discipline |
| AgentScript.OneEnding | crates/mcode-agent/src/agent.rs:405-524 | the script decides how many rounds a turn enters and how it ends |
| AgentScript.AbortedIffCancelled | crates/mcode-agent/src/agent.rs:432-487 | a turn is aborted if and only if cancellation is seen in a round it entered, and fails if and only if a request does |
| AgentScript.QueuesAreFifo | crates/mcode-agent/src/agent.rs:194-200 | in every round each message that came was taken exactly once in queue order or still waits |
| AgentScript.EndedQueues | crates/mcode-agent/src/agent.rs:405-524 | what a turn injected by its end plus what its queues hold is what came, also when it aborts or fails |
| AgentScript.SteeredIffSteersCame | crates/mcode-agent/src/agent.rs:509-524 | a turn not cut short leaves both queues empty and is Steered if and only if some steer came |
| AgentScript.FollowUpsWait | crates/mcode-agent/src/agent.rs:500-507 | a follow-up is taken only after a response without calls whose steering drain was empty |
| AgentScript.InputsEnterOnce | crates/mcode-agent/src/agent.rs:422-431 | the user messages of the history are exactly the inputs taken, rewritten, each once and in order |
| AgentScript.WhatCame | crates/mcode-agent/src/agent.rs:405-507 | what came in each queue is what it held at first and then the arrivals of the rounds whose drain was reached, in order |
| AgentScript.OutputsAreTheScripts | crates/mcode-agent/src/agent.rs:432-487 | besides the user messages the history holds exactly the reply and the results of each round entered, in order |
| AgentScript.AlwaysDisciplined | crates/mcode-agent/src/agent.rs:426-487 | at every request and after every round each reply is followed by exactly its results in call order |
| AgentScript.TurnIsBracketed | crates/mcode-agent/src/agent.rs:379-402 | the events are one bracket around announcements that fold to exactly the history, with one error if and only if the turn failed |
| AgentLaws.DrainTakes | crates/mcode-agent/src/agent.rs:194-200 | one at a time a drain of a waiting queue takes exactly its first message, and in the other mode everything |
| AgentLaws.DrainsByMode | crates/mcode-agent/src/agent.rs:500-524 | before every round the steering queue gives up exactly its oldest message, or all of them in the other mode; follow-ups come the same way only when it is empty and the agent would stop |
| AgentLaws.OneMessageARound | crates/mcode-agent/src/agent.rs:194-200 | one at a time no round takes more than one message after the prompt |
| AgentLaws.AllLeavesNothing | crates/mcode-agent/src/agent.rs:194-200 | in the other mode the steering queue is empty after every drain |
| AgentLaws.RequestsShowEverything | crates/mcode-agent/src/agent.rs:432-455 | each round not cancelled at its top sends one request that shows the whole conversation so far: with what the round adds it is the new history |
| AgentLaws.FirstRequest | crates/mcode-agent/src/agent.rs:405-431 | the first request is what the agent held, the rewritten prompt, and the steering its mode takes |
| AgentLaws.CallComesTo | crates/mcode-agent/src/agent.rs:456-487 | the result of a call is what its tool gave, unless the reply was truncated or cancellation was seen by then, and then an error that says which |
| AgentLaws.TurnSays | crates/mcode-agent/src/agent.rs:379-402 | the events of a turn relay exactly the deltas of its rounds and report each call as begun, its progress, and finished, in order, and no others |
| AgentLaws.EndsFor | crates/mcode-agent/src/agent.rs:432-487 | a turn is aborted exactly by a cancellation at the top of a round, in its response or before a call of a whole reply, and fails exactly by a failed request |
| AgentLaws.StopsWhenDone | crates/mcode-agent/src/agent.rs:488-524 | a turn not cut short stops after the first round that leaves no call, no message and a gate that lets it stop, and after no other |
| AgentLoop.Agent.RunCalls | crates/mcode-agent/src/agent.rs:456-487 | truncated, cancelled and run calls are all answered in order as the script says; the turn aborts exactly when cancellation was seen before a call |
| AgentLoop.Agent.Stream | crates/mcode-agent/src/turn.rs:58-157 | a response is relayed and either becomes one assistant message, an abort, or exactly one error |
| AgentLoop.Agent.DrainSteer | crates/mcode-agent/src/agent.rs:194-200 | draining takes the first waiting message one at a time, or all of them, and leaves the rest |
| AgentLoop.Agent.Pass | crates/mcode-agent/src/agent.rs:428-500 | one pass of the inner loop adds what the script says and goes on, runs dry, or ends the turn |
| AgentLoop.Agent.DoubleLoop | crates/mcode-agent/src/agent.rs:405-524 | the double loop enters exactly the rounds of the script and leaves its history, requests, events and queues |
| AgentLoop.Agent.RunTurn | crates/mcode-agent/src/agent.rs:379-402 | history, requests, events, queues and ending of a whole turn are those the script determines, for any script and any number of rounds |
| StagingPaths.StartsWithIffBelow | crates/mcode-config/src/staging.rs:108-121 | text starting with a path and a slash is exactly the text of the paths below it |
| StagingPaths.ProbeFindsDescendant | crates/mcode-config/src/staging.rs:108-118 | the first entry from the prefix on is a descendant if and only if some entry is |
| StagingPaths.JoinIsInjective | crates/mcode-config/src/staging.rs:88-107 | a path is determined by its text |
| StagingCode.ProbesAreRedundant | crates/mcode-config/src/staging.rs:108-121 | a path that is not a recorded directory has nothing below it, so the probes repeat what the lookup said |
| StagingLedger.AcceptedIffFits | crates/mcode-config/src/staging.rs:77-152 | a sequence of writes is accepted if and only if its paths are distinct, none is above another, and sizes and totals fit; the ledger then holds exactly those files |
| StagingLedger.OrderDoesNotMatter | crates/mcode-config/src/staging.rs:77-152 | reordered writes are accepted together or not at all and leave the same ledger |
| StagingLedger.RefusalTellsWhy | crates/mcode-config/src/staging.rs:77-152 | an oversized write exceeds one of the limits, a conflict has a stored file at, above or below its path under any limits, and an accepted write does neither |
| StagingLedger.PublicLedgerIsBounded | crates/mcode-config/src/staging.rs:20-28 | what the writer accepts is at most 4096 files and 4096 directories of 8192 entries, 256 MiB a file and 512 MiB together |
| StagingCode.PayloadLedger.Walk | crates/mcode-config/src/staging.rs:93-107 | the growing prefix finds a file on the way if and only if there is one, and collects exactly the missing directories |
| StagingCode.PayloadLedger.Plan | crates/mcode-config/src/staging.rs:78-145 | the plan on texts gives exactly the verdict of the simple ledger |
| StagingCode.PayloadLedger.Apply | crates/mcode-config/src/staging.rs:147-151 | applying a plan keeps files, ancestors and total in agreement with the simple ledger |
| StagingCode.StagingTransaction.WriteFile | crates/mcode-config/src/staging.rs:180-198 | refusals change nothing; a failed native write poisons the writer exactly when it had begun to mutate |
| Transcript.NewestFirstIsReverse | crates/mcode-tui/src/scrollback.rs:239-265 | the walk order is the reverse of the flattened transcript with its separators |
| Transcript.FlattenSplits | crates/mcode-tui/src/scrollback.rs:222-282 | the transcript may be cut between any two blocks: what lies above, one blank line styled like the newer block, what lies below |
| Transcript.BlocksShowTheirLines | crates/mcode-tui/src/scrollback.rs:222-265 | a block shows the lines its renderer gives it, or one blank line |
| Transcript.WindowEndsAt | crates/mcode-tui/src/scrollback.rs:266-282 | the window is as high as the transcript allows and its last line is offset lines from the newest |
| Transcript.Walk | crates/mcode-tui/src/scrollback.rs:236-265 | the early-exit walk collects exactly the newest lines wanted and examines no block once it has them |
| Transcript.Materialize | crates/mcode-tui/src/scrollback.rs:222-282 | the result is exactly the window of the flattened transcript at the clamped offset |
| Transcript.Scrollback.Replace | crates/mcode-tui/src/scrollback.rs:161-169 | the newest blocks within capacity are kept and the window jumps to the tail |
| Transcript.Scrollback.ScrollBy | crates/mcode-tui/src/scrollback.rs:179-205 | a moved offset stays in range and scrolling by nothing brings it back into range |
| Reducer.ReduceKeeps | crates/mcode-tui/src/actions.rs:596-730 | every action keeps the prompt readable, the store bounded and the offset in range |
| Reducer.ReachableIsGood | crates/mcode-tui/src/actions.rs:714-724 | the same over every action sequence, across resizes through zero size |
| Reducer.PresentAccounts | crates/mcode-tui/src/actions.rs:732-768 | presenting resolves or activates exactly the requests it must |
| Reducer.EveryRequestIsResolvedOnce | crates/mcode-tui/src/actions.rs:646-676 | for each request, resolutions plus one if it is active equal the presentations made while it was not |
| Reducer.AnswersComeFromThePrompt | crates/mcode-tui/src/actions.rs:770-794 | an answer is always an option of the active, readable prompt under the key it shows |
| ReducerLaws.FitsWithEightMoreRows | crates/mcode-tui/src/interaction.rs:285-324 | a prompt is readable exactly in 24 columns and eight rows besides one for each option |
| ReducerLaws.ActivePromptStays | crates/mcode-tui/src/actions.rs:732-768 | only a readable prompt of the same request replaces the active one, any other request is cancelled at once, and with none active a readable prompt becomes active |
| ReducerLaws.KeyAnswers | crates/mcode-tui/src/actions.rs:770-794 | the key of an option answers the active prompt with exactly that option and removes the prompt |
| ReducerLaws.OtherKeysAreIgnored | crates/mcode-tui/src/actions.rs:770-794 | no other key does anything |
| ReducerLaws.PromptIsCancelled | crates/mcode-tui/src/actions.rs:796-808 | cancelling, quitting and a resize that leaves no room cancel the active prompt and remove it |
| ReducerLaws.PromptStaysOtherwise | crates/mcode-tui/src/actions.rs:596-730 | through every other action the prompt stays as it is and nothing is said of its request |
| ReducerLaws.SubmitsTheText | crates/mcode-tui/src/actions.rs:596-645 | what is submitted is the text as it stands, exactly when it is submitted and not blank, and then it is gone |
| ReducerLaws.TextIsWhatWasTyped | crates/mcode-tui/src/actions.rs:596-645 | the text is what the editor made of it or what was there, and a paste does not reach it behind a prompt |
| ReducerLaws.OwnActionsOnly | crates/mcode-tui/src/actions.rs:596-712 | each other field changes only by its own action, to what that action says |
| ReducerLaws.QuitsOnRequest | crates/mcode-tui/src/actions.rs:596-712 | the application is asked to quit exactly by the action that says so |
| ReducerLaws.ChangesAreDrawn | crates/mcode-tui/src/actions.rs:596-730 | every change asks for a redraw, of the layout when the viewport changes or a prompt comes or goes and of the theme when it is selected |
| ReducerLaws.ScrollMoves | crates/mcode-tui/src/scrollback.rs:179-205 | scrolling moves the window by what was asked, as far as the transcript goes |
| ReducerLaws.WindowStays | crates/mcode-tui/src/actions.rs:714-730 | new blocks show from the tail, and every other action moves the window only to keep it in range |
| Reducer.PackOptions | crates/mcode-tui/src/interaction.rs:366-381 | at most nine options, each the first visible one of its id, none dropped without nine before it |
| PlainText.SanitizeIsIdempotent | crates/mcode-render/src/plain.rs:152-210 | sanitizing twice is sanitizing once |
| PlainText.SanitizedIsClean | crates/mcode-render/src/plain.rs:145-210 | no control character but the line feed survives |
| PlainGrammar.SanitizedShowsThePieces | crates/mcode-render/src/plain.rs:145-210 | a text read as shown characters, line breaks, tabs, escaped pairs, styling sequences and quoted strings is sanitized to exactly what these show |
| PlainGrammar.EveryTextReads | crates/mcode-render/src/plain.rs:145-210 | every text is such pieces and an unfinished rest |
| PlainText.Sanitize | crates/mcode-render/src/plain.rs:152-210 | the character loop computes the state machine |
| PlainText.TruncatedFits | crates/mcode-render/src/plain.rs:88-143 | a cut line is never wider than asked, and a line that fits is returned as it is |
| PlainText.CutKeepsWhatFits | crates/mcode-render/src/plain.rs:88-143 | a cut line keeps as many leading graphemes as fit beside the ellipsis by their own widths, or as many of these as fit when the whole is measured, for every measure |
| PlainText.Truncate | crates/mcode-render/src/plain.rs:96-143 | the two loops give leading graphemes and the ellipsis, backing off until the whole fits |
| PlainTree.PlainWriter.PushLine | crates/mcode-render/src/plain.rs:450-467 | as many terminal lines as there is room for; anything dropped marks truncation |
| PlainTree.PlainWriter.Finish | crates/mcode-render/src/plain.rs:473-483 | never more or wider lines than allowed, ending in the marker when truncated |
| PlainTree.RenderTree | crates/mcode-render/src/plain.rs:302-371 | the explicit stack emits exactly the recursive drawing, truncation is marked if and only if the drawing exceeds the line limit, and never more than 4096 nodes wait |
| TreeLines.EveryNodeHasItsLine | crates/mcode-render/src/plain.rs:302-371 | the drawing has one line for each node down to depth 128, in preorder, with the rails and the branch that its place among its siblings and theirs above it gives it |
| TreeLines.DeepNodesAreOmitted | crates/mcode-render/src/plain.rs:302-371 | a node at depth 128 that has children is followed by one line, past its rails, that stands for all below it |
| TreeLines.SplitIsExact | crates/mcode-render/src/plain.rs:450-467 | the lines of a text joined by line feeds are the text and hold none |
| StrictJson.ParseStrict | crates/mcode-config/src/parse.rs:203-229 | the bounded reader accepts exactly the trees within depth and node limits that repeat no member, and reads them as they are |
| StrictJson.NestedCost | crates/mcode-config/src/parse.rs:36-52 | a value inside n lists costs n + 1 levels and nodes, and the reader stops exactly there |
| StrictJson.RepeatsAreFound | crates/mcode-config/src/parse.rs:178-200 | a name that a record repeats anywhere is found |
| StrictJson.ParseState.ReadMap | crates/mcode-config/src/parse.rs:178-200 | the member loop counts names and values and refuses a repeated name |
| StrictJson.ParseState.ReadSequence | crates/mcode-config/src/parse.rs:152-176 | the element loop counts every value below |
| PackInstallation.PrintedDocument | crates/mcode-config/src/pack_installation.rs:335-369 | a printed document has 27 nodes and five for each entry, is at most four levels deep and repeats nothing |
| PackInstallation.PrintReadsBack | crates/mcode-config/src/pack_installation.rs:349-427 | every valid document prints within the reader's bounds and reads back as itself |
| PackInstallation.ParseIsExact | crates/mcode-config/src/pack_installation.rs:383-442 | whatever the schema accepts is a valid document and exactly what that document prints to |
| PackInstallation.ValidDocuments | crates/mcode-config/src/pack_installation.rs:383-454 | which documents are valid, in plain terms: revisions from 1 to 2^63 - 1, well-formed texts, 1 through 4096 entries in strictly increasing order of their paths |
| PackInstallation.EachMemberSaysItsField | crates/mcode-config/src/pack_installation.rs:335-369 | a printed document is one object of nine members, each saying the field of its name, under format version 1 |
| PackInstallation.ParseDocument | crates/mcode-config/src/pack_installation.rs:371-381 | reader and schema together, on any tree |
| PackInstallation.ValidateInventory | crates/mcode-config/src/pack_installation.rs:444-454 | one through 4096 entries, strictly increasing by path |
| PackInstallation.ComponentDigest | crates/mcode-config/src/pack_installation.rs:225-236 | the binary search finds what a scan from the front would |

## Left out

- Native file-system, ACL and terminal calls: only their outcomes appear, as oracles; the fallback and Windows back ends are not part of this model.
- `TemporaryName` (crates/mcode-config/src/secure_fs/unix_file.rs:382-421) as an object: its removal is a step of the file protocol, the repeated attempt when it is dropped is not, so a failed removal leaves the name behind.
- The creation of a temporary file with its permission check is one step; a failing check leaves no name behind.
- Inode numbers are never reused in the file protocol, and only the modelled processes write the directory.
- A loss of power in the file protocol keeps the renames up to some point and all synced contents; that a file system reorders the renames of one directory is not modelled.
- Loops that others can keep going, and calls that wait for a mutex, are followed for a number of turns given by the caller; the result says when that was not enough.
- The publication epoch is one counter for all generations; in the Pack protocol each fence has its own, which allows more.
- The two locks that a commit drops one after the other are dropped in one step.
- The fence's wake-up claim is for one drain waiter, as `notify_one` supports one.
- Memory orderings: each atomic operation is one indivisible step.
- Text encodings: JSON text, UTF-8, base64 and semantic versions. Vault and installation documents are values or trees; that an encoded vault fits its size limit is an input of `PersistCommand`.
- Identifier grammars and the portable path grammar are parameters of the vault, the installation and the ledger, and so is the digest grammar of the installation: the laws hold for every grammar. A stored vault digest is its text when it is well formed and `None` otherwise. `PathName` and its neighbours stand for the member names of the installation schema.
- The strict reader's choice among several violations in one document: the model says when reading fails, and that one violation is then recorded.
- Hooks of the agent: the input hook is a function, the others are part of the scripted responses and results; tool lookup, gating, capability binding and argument checks are part of the scripted result of a call.
- Cancellation of a turn is what the loop sees at its checks; a token that fires after the last check has no effect in the code either.
- Messages queued between two drains are scripted as arrivals just before the later one, since nothing reads the queues in between.
- Panics inside tools, provider implementations and the terminal's panic hook, and a second panic while a thread already unwinds, which ends the process.
- The layout of the terminal application, its text editor and its key bindings: the layout is any function of viewport, prompt and input, and the editor's answers come with the actions.
- `Materialize` assumes that the whole transcript has at most 2^64 - 1 lines, as any vector does.
- Unicode width and grapheme tables are parameters; only that the empty text has no width is used.
- Tables, diffs, progress and error blocks of the plain renderer: straight-line uses of the writer.
- Random generation, zeroizing, backtraces and redaction.
