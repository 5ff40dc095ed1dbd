# Nectovia coordination and sending: a verified model

A Dafny model of the parts of the repository where several processes, windows or asynchronous
actions work on one shared record, and proofs of what they promise each other. Verify the whole
project with `dafny verify dfyconfig.toml`.

**File claims** (`scripts/coordination.ts`). Any number of processes publish attempts, decisions and
releases under names that can be taken only once. `ClaimProtocol` cuts `claimPaths` and
`releaseClaim` at every file operation; any number of calls interleave, and any of them may crash
between two operations. Foreign writers may occupy a release name with any record that has no
authority, and anyone may write any handoff record. `ClaimInvariant`, `ClaimSteps` and `ClaimSafety`
prove mutual exclusion over every run; `ClaimPromises`, `ClaimProgress`, `ClaimRefusals`,
`ClaimReleases`, `ClaimEndings`, `ClaimRecovery`, `HotClaims` and `WorkMode` prove what callers rely
on, and `ClaimChances` and `ClaimWins` exactly which undecided attempts can still win. `Paths`,
`PathRules` and `PathSets` hold the path algebra exclusion rests on, `HotFiles` the charter and
`Owners` process identity. `Rendezvous` is the directory as an object with the functions in their
written form, each proved to be an uninterrupted run of the protocol; `RendezvousRuns` turns that
into reachability, so every promise about runs holds for the object, and `ClaimAnswers`,
`ReleaseAnswers` and `WorkModeAnswers` say what each call answers when and only when. `Handoffs`
covers issuing, and `HeavySlot` the one heavy slot.

**Sending a message** (`client/conversation-send.ts`). Windows are calls under one exclusive lock.
The mirror is one cell every window shares; a window's local storage may at any moment turn into
anything ever written there; the server answers as it likes. Assumed: mirror writes succeed, minted
and preset ids are fresh. `ConversationSafety` proves body binding, exclusion and settlement over
every run, and the central promise, one identity per message, for every run in which nothing is
posted while the mirror has no record; `ConversationMirror` proves that this is what it needs, and
`ConversationAnswers` what each call run alone posts and answers.

**Native sign-in** (`desktop/native-auth.ts`, `desktop/native-auth-storage.ts`). Begin, callback,
abandon, sign-out and read are cut at every await and interleave freely over one token store whose
writes may fail. Of the SDK it is assumed only that completing a callback takes the pending verifier
first and stores the session last, and that signing out clears the session before it first waits.
`NativeAuthObjects` holds the store and the sign-in as objects, whose whole calls are proved to be
valid runs of those turns.

**Saved commands** (`client/work-start.ts`, `client/approval-decisions.ts`). `Json` prints and parses
JSON over UTF-16 code units. `SavedStarts` and `SavedApprovals` prove that what is saved fits its cap
and reads back; `WorkStart` builds the retry automaton on those records, and `WorkStartAnswers` says
what a press and its replies are answered.

**The sign-in wait** (`client/ai-setup-state.ts`). A timed fold over arbitrary payloads.

Where the code does not do what its comments promise:

- `resendPending` posts a claim it found in local storage without putting it into an unset mirror, so
  another window can then mint a second command (`ConversationMirror.OneIdentityIffMirrored`).
- `abandon` promises that nothing late survives it. A session stored just
  before `abandon` stays, and a later read shows it (`NativeAuthOutlived.AbandonedSignsInIffStored`,
  reached in `NativeAuthOutlived.AbandonedIsShown`).
- The last clear of `signOut` runs under the generation current when the hosted logout answers, so it
  can remove a newer sign-in's session (`NativeAuthSignOut.ShownSessionIsLostIffLogoutPends`).
- A process that exits between a slot's release record and its removal leaves the slot held for good
  (`HeavySlot.FreeableUnlessStuck`).
- `workMode` reads active claims and pending attempts one after the other; a claim that wins in
  between is seen by neither (`WorkMode.MisledIffRivalMayWin`).

## Model

| member | source | states |
|---|---|---|
| Paths.CanonicalizePath | scripts/coordination.ts:205-246 | the segment loop, as written, computes the canonical identity or the first refusal |
| Paths.CanonicalFixedPoint | scripts/coordination.ts:205-246 | an accepted path comes back as itself, is no longer than its spelling, and has no empty, dot or dot-dot segment |
| Paths.AcceptedSegments | scripts/coordination.ts:221-244 | an accepted path is exactly its resolved segments, spelled no longer than the input; `PathRules.AcceptedIff` says which names are legal |
| Paths.SeparatorsAgree | scripts/coordination.ts:217 | backslashes and slashes never make two identities, nor change a refusal |
| Paths.DetoursAgree | scripts/coordination.ts:221-227 | an empty, dot or enter-and-leave detour anywhere inside a path never makes a second identity |
| Paths.LetterCaseAgrees | scripts/coordination.ts:240-245 | letter case never makes a second identity, nor changes a refusal |
| PathRules.AcceptedIff | scripts/coordination.ts:205-246 | accepted if and only if printable, unreserved, relative and at most 1024 units, with every name free of outer spaces, a last dot, a device in any case or extension and a tilde digit, never leaving the root and not ending at it |
| PathRules.RefusedIff | scripts/coordination.ts:221-239 | a refusal inside a legible path is that of the first faulty segment, or the root when none is faulty |
| PathRules.IllegibleIff | scripts/coordination.ts:213-219 | a refusal of the characters is the first of the five that applies, in order |
| PathRules.ValueIs | scripts/coordination.ts:238-245 | the accepted identity is, at each depth, the last name to lead there and never left; the key is its lower case |
| PathRules.DirectoryIff | scripts/coordination.ts:239-243 | a directory if and only if the spelling ends in a separator, or in one or two dots after one |
| PathSets.ContainsIsSegmentPrefix | scripts/coordination.ts:252-253 | containment of keys is the prefix order on segment lists, not on characters |
| PathSets.ContainsIsPartialOrder | scripts/coordination.ts:252-253 | containment is reflexive, antisymmetric and transitive |
| PathSets.OverlapIsSharedTerritory | scripts/coordination.ts:249-250 | two keys overlap exactly when some path lies at or below both |
| PathSets.CanonicalizeSet | scripts/coordination.ts:274-293 | the map-building loop and the filter loop, as written, compute the reduced set |
| PathSets.EntriesSound | scripts/coordination.ts:278-285 | the map holds every named key once, as a directory if any spelling of it is one, and refuses if any spelling is refused |
| PathSets.ReducedKeys | scripts/coordination.ts:286-291 | the reduced keys are exactly the named keys no other named key contains, in order |
| PathSets.ReducedIsAntichain | scripts/coordination.ts:286-292 | the reduced set is a strictly sorted antichain of spellings from the input |
| PathSets.ReductionPreservesOverlap | scripts/coordination.ts:274-293 | the reduced set overlaps exactly what the full input overlaps |
| PathSets.ReductionIgnoresOrder | scripts/coordination.ts:274-293 | order and duplication of the input change neither whether it is accepted nor the keys |
| PathSets.ReductionIsIdempotent | scripts/coordination.ts:274-293 | reducing the recorded spellings of a reduced set gives the set back, directory flags included |
| PathSets.StoredKeysAreDecidedKeys | scripts/coordination.ts:296-305 | the keys re-read from a stored claim are the keys it was decided on |
| Records.SharedTerritoryOverlaps | scripts/coordination.ts:306-307 | two recorded claims that both cover some path are found overlapping |
| Records.OverlapSymmetric | scripts/coordination.ts:306-307 | the overlap test gives one answer whichever claim came first |
| HotFiles.HotIff | scripts/coordination.ts:255-268 | a path is hot if and only if it is refused, or some path lies at or below both it and a charter file |
| HotFiles.CharterKeys | scripts/coordination.ts:51-68 | every charter file is an accepted path, with the listed key |
| Owners.CompleteIff | scripts/coordination.ts:312-327 | an identity is complete if and only if its role is known, its host and worktree say something, its process number is a positive safe integer and its start an instant |
| Owners.SameOwnerIsEquivalence | scripts/coordination.ts:336-346 | being one process is symmetric, transitive, and reflexive exactly on complete identities |
| Owners.OtherProcess | scripts/coordination.ts:336-346 | another role, host, process number, start or worktree, or an incomplete identity, is never the same process |
| Owners.RespelledIsSame | scripts/coordination.ts:329-346 | outer spaces, letter case and separators of host and worktree do not make another process |
| Owners.TrailingSlashIsSame | scripts/coordination.ts:329-330 | nor does a trailing separator of the worktree |
| Directory.PublishGrows | scripts/coordination.ts:390-402 | a publication adds its name or changes nothing; nothing published is ever changed or removed |
| Directory.FactsStay | scripts/coordination.ts:574-601 | won, released and finished are permanent |
| ClaimInvariant.ReleaseStepKeeps | scripts/coordination.ts:827-885 | every operation of a release call keeps what the call relies on |
| ClaimSteps.ClaimStepKeeps | scripts/coordination.ts:680-799 | every operation of a claim call keeps the directory invariant and what the call relies on |
| ClaimSafety.ApplyKeeps | scripts/coordination.ts:490-885 | every start, operation, crash and foreign record keeps the whole invariant |
| ClaimSafety.RunKeeps | scripts/coordination.ts:490-885 | so does every run, and the directory only grows along it |
| ClaimSafety.MutualExclusion | scripts/coordination.ts:613-644 | in every reachable state no path is covered by two won and unreleased claims, nor by one and an unreleased claim of the earlier tool |
| ClaimSafety.WinnersYield | scripts/coordination.ts:628-641 | a winner has every earlier overlapping attempt lost, abandoned or released |
| ClaimSafety.WinnersYieldEarlier | scripts/coordination.ts:619-625 | a winner has every overlapping claim of the earlier tool released |
| ClaimPromises.DenseOrder | scripts/coordination.ts:513-524 | published numbers are exactly 0 to n-1, and an attempt landing at n finds every smaller one published |
| ClaimPromises.FailedLinksArePaidFor | scripts/coordination.ts:513-524 | each number an attempt found taken is paid for by an entry another call published since the listing |
| ClaimPromises.HandoffAuthorizesItsUser | scripts/coordination.ts:778-799 | a claim returned under a handoff has won, is its one recorded user, and is exactly what the handoff authorizes |
| ClaimPromises.RecordedUserIsAuthorized | scripts/coordination.ts:778-795 | in every reachable state, the caller still there or not, the recorded user of a handoff has won and is exactly what that handoff authorizes |
| ClaimPromises.HandoffUsedOnce | scripts/coordination.ts:778-795 | two calls that returned claims under one handoff are one call |
| ClaimPromises.SpentHandoffGivesBack | scripts/coordination.ts:786-795 | an attempt that won and found its handoff spent has released its paths when it returns, or throws only because they are released or both names are lost |
| ClaimPromises.ReleasedForGood | scripts/coordination.ts:827-885 | after a successful release the claim is over in every later state |
| ClaimPromises.OnlyEntitledEnd | scripts/coordination.ts:557-579 | whatever record occupies a release name, only the holder or the integrator with a reason ever ends a claim |
| ClaimPromises.AuthorityIsEntitlement | scripts/coordination.ts:557-566 | a record ends a claim if and only if it names that claim and its writer is entitled: the claiming process, or a complete integrator giving a reason |
| HotClaims.HotAttemptsAreAllowed | scripts/coordination.ts:724-735 | in every reachable state an attempt that covers territory of a charter file is the integrator's, or names a recorded handoff of the integrator to its owner for its node, base and exact paths |
| ClaimRecovery.CanBeEnded | scripts/coordination.ts:827-885 | from any reachable state one entitled call ends a won or undecided claim unless both release names are taken |
| ClaimRecovery.LostNamesAreFinal | scripts/coordination.ts:872-882 | with both release names taken by records without authority no run ever ends the claim |
| ClaimProgress.NoWaitingCycle | scripts/coordination.ts:582-601 | waits point to smaller order numbers, so no chain of waiting calls closes |
| ClaimProgress.SearchDescends | scripts/coordination.ts:613-644 | every read of the search brings it closer to its end unless it is waiting |
| ClaimProgress.NeverMissing | scripts/coordination.ts:629-635 | the missing-entry refusal never happens in a reachable state |
| ClaimProgress.RefusedForUndecided | scripts/coordination.ts:637-641 | the read that refuses as undecided names an earlier entry overlapping the refused claim, still without a decision, and only once the wait ran out |
| ClaimProgress.RefusedForActive | scripts/coordination.ts:582-591 | the two reads behind a refusal as held name an earlier overlapping claim that was won and unreleased at the first of them |
| ClaimRefusals.RefusalIsEarned | scripts/coordination.ts:613-644 | over every run, the claim a returned refusal names overlaps the refused one, and is an earlier entry that was active in some state of the run or undecided at the timed-out read, or a claim of the earlier tool unreleased in some state of the run |
| ClaimProgress.UnblockedIsNeverRefused | scripts/coordination.ts:613-644 | an attempt whose earlier overlapping attempts are all finished is never refused as held, whatever all others do |
| ClaimProgress.UnblockedDecides | scripts/coordination.ts:759-775 | left to itself such an attempt decides, and if it was undecided the decision published is that it won |
| ClaimReleases.ReleasedHasDecided | scripts/coordination.ts:827-885 | no attempt is released in any reachable state before it has a decision |
| ClaimEndings.LostBearsNoRelease | scripts/coordination.ts:853-860 | in every reachable state a refused attempt bears no release with authority |
| ClaimEndings.EndsOwnOrWon | scripts/coordination.ts:827-885 | over every run a release call succeeds only for a claim of the earlier tool, a winner, or an attempt this very call recorded as abandoned while it was undecided |
| ReleaseAnswers.ReleaseAnswers | scripts/coordination.ts:827-885 | run alone, each refusal and the success of a release is given if and only if its reason holds; in particular, holds nothing exactly for an entitled releaser of an unreleased attempt decided otherwise than won |
| ReleaseAnswers.ReleaseLeaves | scripts/coordination.ts:853-885 | a success leaves one release under the first free name, after an undecided attempt is abandoned; a refusal leaves nothing, but for that decision when both names are taken |
| ClaimWins.WinsIffMayWin | scripts/coordination.ts:613-644 | an undecided attempt in the order can still win in some run if and only if its call is alive, its search has found no one to refuse for, and nothing it must yield to is held for good |
| ClaimChances.NeverWins | scripts/coordination.ts:613-644 | an attempt that lost that chance never wins, over any run |
| ClaimWins.WinsAlone | scripts/coordination.ts:613-644 | an attempt with that chance is active at the end of some run that leaves the order as it is and decides every entry of it |
| ClaimAnswers.ClaimAnswers | scripts/coordination.ts:696-799 | run alone, each answer of a claim is given if and only if its reason holds: invalid, handoff invalid, integrator owned, held by a named claim, ended before, or the claim |
| ClaimAnswers.ClaimLeaves | scripts/coordination.ts:737-799 | a claim turned away before publishing leaves nothing; a held one its lost attempt in the order; a returned one its won and filed claim and its use of the handoff |
| WorkMode.EditHoldsOverRun | scripts/coordination.ts:1125-1181 | after an edit verdict on a snapshot, every conflicting claim active later in any run was published after it |
| WorkMode.EditHoldsForEarlier | scripts/coordination.ts:1145-1168 | after an edit verdict, conflicting claims of the earlier tool stay over |
| WorkMode.HotPathsAreHandedOff | scripts/coordination.ts:982-1005 | in every reachable state each hot path of an edit verdict lies in the scope of a handoff an integrator issued to this process, held under an active claim of exactly that scope that is its one user |
| WorkMode.EarlierNeverHandedOff | scripts/coordination.ts:982-1005 | no claim of the earlier tool ever covers a hot path for an edit verdict |
| WorkModeAnswers.VerdictIff | scripts/coordination.ts:1125-1181 | in every reachable state each verdict is given if and only if it is due; edit exactly when the partner is present, the identity complete, the paths readable, each hot one handed over, and no other process holds or asks for territory of them |
| WorkMode.MissedOnlyBetweenReads | scripts/coordination.ts:1144-1172 | over the two separate readings, a missed conflicting claim was undecided at the first and won by the second |
| WorkMode.MisledIffRivalMayWin | scripts/coordination.ts:1144-1172 | from every reachable state, some run between the two readings ends with edit answered beside an active claim published before them if and only if one reading would have said being claimed and some conflicting undecided attempt can still win |
| WorkMode.EditBesideActiveClaim | scripts/coordination.ts:1144-1172 | a concrete run in which exactly that happens and edit is answered beside an active conflicting claim |
| Rendezvous.Rendezvous.PublishExclusive | scripts/coordination.ts:390-402 | put-if-absent on the object: true exactly when the name was free, and nothing else changes |
| Rendezvous.Rendezvous.Decide | scripts/coordination.ts:490-505 | the first publisher decides and everyone else reads that decision |
| Rendezvous.Rendezvous.PublishInOrder | scripts/coordination.ts:513-524 | the link loop lands on the first free number at or after the listed count |
| Rendezvous.Rendezvous.ReleaseOf | scripts/coordination.ts:574-579 | an authoritative release under either name, or none |
| Rendezvous.Rendezvous.SettledOutcome | scripts/coordination.ts:582-601 | held, done or undecided, as the decision and the release names say |
| Rendezvous.Rendezvous.EarlierActive | scripts/coordination.ts:543-554 | the loop over claim files runs the search through the unreleased claims of the earlier tool |
| Rendezvous.Rendezvous.FirstBlocking | scripts/coordination.ts:613-644 | the search loop reaches exactly the verdict the step-by-step search reaches |
| Rendezvous.Rendezvous.ApplicableHandoff | scripts/coordination.ts:941-979 | a handoff is returned exactly when it authorizes this claim and is unused |
| Rendezvous.Rendezvous.ClaimPaths | scripts/coordination.ts:680-799 | the whole call is an uninterrupted run of the step-by-step claim to the result it returns |
| Rendezvous.Rendezvous.ReleaseClaim | scripts/coordination.ts:827-885 | the whole call is an uninterrupted run of the step-by-step release to the result it returns |
| RendezvousRuns.ClaimPathsIsARun | scripts/coordination.ts:680-799 | what ClaimPaths does from a reachable state ends in a reachable state holding its result |
| RendezvousRuns.ReleaseClaimIsARun | scripts/coordination.ts:827-885 | what ReleaseClaim does from a reachable state ends in a reachable state |
| Handoffs.IssueHandoff | scripts/coordination.ts:894-938 | the record is published under a free id with the reduced scope, or the call throws and changes nothing |
| Handoffs.IssuedIff | scripts/coordination.ts:906-921 | a handoff is issued if and only if a complete integrator names a complete recipient, a note, a node, a base and at least one path, all readable |
| Handoffs.IssuedAuthorizesExactly | scripts/coordination.ts:941-979 | an issued handoff authorizes exactly its recipient, node, base and reduced scope |
| Handoffs.ScopeIgnoresOrder | scripts/coordination.ts:964-971 | naming the issued paths in another order or twice is still exactly the issued scope |
| HeavySlot.ApplyKeeps | scripts/coordination.ts:1012-1077 | every operation and crash of request and release calls keeps the slot invariant |
| HeavySlot.OneHolder | scripts/coordination.ts:1012-1036 | at most one granted slot is unreleased, and it is the one in the file |
| HeavySlot.RemovesOnlyItsOwn | scripts/coordination.ts:1066-1075 | a removal takes exactly the slot its call read, after that slot was recorded as released by its holder |
| HeavySlot.HeldUntilReleased | scripts/coordination.ts:1055-1077 | over any run a slot stays in the file until its holder records its release |
| HeavySlot.ReleasedOnce | scripts/coordination.ts:1071-1072 | of all calls releasing one slot at most one succeeds |
| HeavySlot.FreeableUnlessStuck | scripts/coordination.ts:1071-1075 | some run frees the slot if and only if it is not recorded as released with no call left to remove it |
| HeavySlot.StuckByCrash | scripts/coordination.ts:1071-1075 | only a process that exits between its record and its removal brings that about |
| HeavySlot.StuckForGood | scripts/coordination.ts:1012-1077 | and then the slot file never changes again |
| HeavySlot.CrashSticks | scripts/coordination.ts:1071-1075 | a concrete run reaches that state from any held slot |
| HeavySlot.SlotFolder.RequestSlot | scripts/coordination.ts:1012-1036 | the request on the object is its three operations run alone |
| HeavySlot.SlotFolder.ReleaseSlot | scripts/coordination.ts:1055-1077 | the release on the object is its four operations run alone: record first, then remove |
| HeavySlot.RequestAnswers | scripts/coordination.ts:1012-1036 | a request run alone is granted if and only if the identity is complete and the slot free, and is else told the holder |
| HeavySlot.ReleaseAnswers | scripts/coordination.ts:1055-1077 | a release run alone frees the slot if and only if its holder names it and it was not recorded before; each refusal exactly for its reason |
| ConversationSafety.ApplyKeeps | client/conversation-send.ts:285-629 | every step, closed window and out-of-date local copy keeps the invariant |
| ConversationSafety.NoSecondIdentity | client/conversation-send.ts:567-592 | in every state reached without a post under an unset mirror: a command is minted only when every id ever posted is confirmed or read back, or refused on a first certain attempt or discarded and not posted since; two unresolved ids are one |
| ConversationSafety.PostedIsSaved | client/conversation-send.ts:306-341 | at every post of every run the id is bound to that input and no other call is inside the lock; the mirror holds exactly that command unless a resend posts with no mirror record; the post leaves the id unresolved unless it was answered |
| ConversationSafety.OneBodyPerId | client/conversation-send.ts:495-500 | over every run, all requests under one id carry one body |
| ConversationSafety.RefusedOnceOnly | client/conversation-send.ts:513-519 | over every run, a refusal settles an id only when the send that minted it had posted it once |
| ConversationSafety.RefusedIsNotSentAgain | client/conversation-send.ts:513-519 | over every run, an id posted twice never counts as settled by a refusal |
| ConversationSafety.PostsItsOwn | client/conversation-send.ts:604-622 | a send posts the input it was given, and a resend only the command it was given |
| ConversationSafety.ClearsOnlyItsOwn | client/conversation-send.ts:349-364 | over every run, the mirror is emptied only of an id confirmed or read back, of the id whose one post was just refused, or of the id the person discarded |
| ConversationSafety.SentIsSettled | client/conversation-send.ts:508-512 | when a send returns confirmed its id is confirmed or read back, out of the mirror and remembered, and the lock is free |
| ConversationSafety.SettledNeverReposts | client/conversation-send.ts:501-512 | after a confirmation or a certain final refusal the same call never posts again, over any run |
| ConversationMirror.OneIdentityIffMirrored | client/conversation-send.ts:285-299 | from a state at rest, no run whatever doubles a message if and only if the mirror has a record of the conversation |
| ConversationSafety.OnlyResendsPostUnmirrored | client/conversation-send.ts:614-622 | only resendPending ever comes to a post while the mirror has no record |
| ConversationSafety.MirroredRunsAreGuarded | client/conversation-send.ts:274-281 | once the mirror has a record it keeps one, so every later run is free of such posts |
| ConversationMirror.DoubledOnlyUnmirrored | client/conversation-send.ts:567-592 | a run, a new conversation included, doubles a message only if something was posted under an unset mirror |
| ConversationMirror.UnsetDoubles | client/conversation-send.ts:614-622 | with an unset mirror, a run through resendPending ends with a second command minted beside an unresolved one |
| ConversationWindow.Conversation.HeldClaim | client/conversation-send.ts:285-299 | the pending claim, from the mirror or an own copy, and that copy brought up to date |
| ConversationWindow.Conversation.Clear | client/conversation-send.ts:349-364 | both shared records of one command go, only while they still name it |
| ConversationWindow.Conversation.Dispatch | client/conversation-send.ts:495-528 | the two-attempt loop with its uncertainty flag is the step-by-step dispatch run alone |
| ConversationWindow.Conversation.SendMessage | client/conversation-send.ts:567-592 | the locked part of a send is the step-by-step send run alone |
| ConversationWindow.Conversation.ResendPending | client/conversation-send.ts:604-629 | the locked part of a resend is the step-by-step resend run alone |
| ConversationWindow.Conversation.DiscardPendingMessage | client/conversation-send.ts:455-466 | a discard gives up only the command it was shown, and says whether it was still pending |
| ConversationAnswers.SendAnswers | client/conversation-send.ts:530-592 | a send run alone posts the pending command under its own id, or a new one if nothing is pending, and is turned away as earlier if and only if another input is pending; its answer and the mirror follow the replies, the second request going out exactly after an uncertain first |
| ConversationAnswers.ResendAnswers | client/conversation-send.ts:604-629 | a resend run alone posts the command it was given exactly while it is held, and otherwise answers what the record says |
| ConversationAnswers.DiscardAnswers | client/conversation-send.ts:455-466 | a discard empties the mirror exactly if the command it was shown is held, and posts nothing |
| ConversationAnswers.CleanupAnswers | client/conversation-send.ts:423-445 | a late cleanup empties the mirror of its own command alone, and posts nothing |
| NativeAuthSafety.ApplyKeeps | desktop/native-auth.ts:543-756 | every turn of every action keeps the lock invariant |
| NativeAuthSafety.OneExchangePerGeneration | desktop/native-auth.ts:720-728 | at most one exchange is live per generation, the current one holds the lock, and a held lock always has a live holder |
| NativeAuthSafety.OldCleanupKeepsLock | desktop/native-auth.ts:753-754 | an older exchange, its cleanup included, never frees the lock a newer one holds |
| NativeAuthSafety.OldWritesNothing | desktop/native-auth-storage.ts:35-38 | an action of an earlier generation writes nothing, shows nothing and is never handed its result |
| NativeAuthSafety.FencedForever | desktop/native-auth-storage.ts:95-106 | once the generation has moved on no run lets the action succeed |
| NativeAuthOutlived.AbandonedSignsInIffStored | desktop/native-auth.ts:708-719 | an abandoned live exchange can still be shown as signed in if and only if its session was already stored and the store works |
| NativeAuthOutlived.AbandonedIsShown | desktop/native-auth.ts:708-719 | a concrete run from a launch in which that happens: stored, abandoned, and shown by the next read |
| NativeAuthOutlived.NewerSignInOutlivesIffNotStored | desktop/native-auth.ts:590-603 | an exchange live when a newer sign-in begins, its deletion failing or not, can still be shown if and only if it had stored its session and the deletion did not fail |
| NativeAuthOutlived.SignedOutStaysOut | desktop/native-auth.ts:574-589 | after a sign-out no exchange that was live, stored or not, ever signs anyone in |
| NativeAuthOutlived.SignOutOutlived | desktop/native-auth.ts:574-589 | after any sign-out, its deletion failing or not, an exchange then live can be shown as signed in if and only if the deletion failed and it already was |
| NativeAuthSignOut.ShownSessionIsLostIffLogoutPends | desktop/native-auth.ts:582-588 | from any reachable state showing a stored session, the actions in flight can delete it if and only if the store works and some sign-out still waits at its hosted logout |
| NativeAuthOutlived.LateSignOutTakesNewSession | desktop/native-auth.ts:582-588 | a concrete run in which the last clear of a slow sign-out removes the session of a newer sign-in still shown as signed in |
| NativeAuthObjects.TokenStorage.SetSession | desktop/native-auth-storage.ts:54-58 | a session write takes effect only under the current generation, and a broken store fails for good |
| NativeAuthObjects.TokenStorage.ClearSession | desktop/native-auth-storage.ts:59-62 | a clear takes effect only under the current generation |
| NativeAuthObjects.TokenStorage.SetPendingVerifier | desktop/native-auth-storage.ts:68-77 | one pending verifier at a time, written only under the current generation |
| NativeAuthObjects.TokenStorage.TakePendingVerifier | desktop/native-auth-storage.ts:78-84 | a verifier is taken at most once, and counted |
| NativeAuthObjects.TokenStorage.Invalidate | desktop/native-auth-storage.ts:104-113 | the generation advances even when the deletion fails |
| NativeAuthObjects.SignIn.BeginSignIn | desktop/native-auth.ts:590-603 | the first turn of a sign-in: refused, or a new generation and a waiting attempt |
| NativeAuthObjects.SignIn.SignOut | desktop/native-auth.ts:574-583 | the first turn of a sign-out invalidates and clears in one turn |
| NativeAuthObjects.SignIn.Abandon | desktop/native-auth.ts:708-719 | the generation advances and the lock is free, even when the deletion fails |
| NativeAuthObjects.SignIn.HandleCallback | desktop/native-auth.ts:720-729 | a callback is let in exactly when the lock is free, and takes it under its own epoch |
| NativeAuthObjects.SignIn.ConcludeCallback | desktop/native-auth.ts:738-744 | the exchange shows its result only in its own generation, and releases only its own lock |
| NativeAuthObjects.SignIn.FailCallback | desktop/native-auth.ts:745-755 | a failed exchange ends the attempt only if it used up a verifier of its own generation |
| NativeAuthObjects.SignIn.RunBegin | desktop/native-auth.ts:590-637 | a whole sign-in is a valid run of the turns; it waits if and only if nothing is signed in or being handled, the store works and the browser opens, and then its verifier is stored, the old session is gone and its attempt is the one waiting |
| NativeAuthObjects.SignIn.RunCallback | desktop/native-auth.ts:720-756 | a whole callback is a valid run of the turns; it finishes if and only if it is let in with the pending verifier, the store works and the provider answers; let in, it gives the lock back, and a sign-in it shows is the one stored |
| NativeAuthObjects.SignIn.RunRead | desktop/native-auth.ts:543-573 | a whole read is a valid run of the turns; let in exactly when the store works and nothing else is under way, it shows the stored session, or nobody if there is none or it could not be refreshed |
| NativeAuthObjects.SignIn.RunSignOut | desktop/native-auth.ts:574-589 | a whole sign-out is a valid run of the turns; it gets past its deletion if and only if that works, and then shows nobody, frees the lock and leaves no session unless the store failed |
| NativeAuthObjects.ReachedIsReachable | desktop/native-auth.ts:543-756 | what such calls reach from a reachable state is reachable, so every promise about runs holds for the objects |
| Json.DocumentBack | client/work-start.ts:252-259 | every printed JSON value parses back to itself, lone surrogates and control characters included |
| Json.ValueBack | client/work-start.ts:100-104 | a printed value is read back with exactly what follows it left over |
| Json.BodyBack | client/work-start.ts:252-259 | an escaped string body is unescaped to the same code units |
| Json.EscapeLength | client/work-start.ts:98 | escaping costs at most six units for one |
| SavedStarts.NormalizedIsNormal | client/work-start.ts:45-84 | whatever the validator lets through is trimmed, filled, within every limit and on a known route |
| SavedStarts.NormalizedBack | client/work-start.ts:45-84 | validating an already normal input again changes nothing |
| SavedStarts.NormalizedIff | client/work-start.ts:45-84 | input is accepted if and only if it has the known members alone, each of its kind and within its limit, up to outer space in identities and instruction |
| SavedStarts.SavedFits | client/work-start.ts:98 | the saved record of any valid start fits the 160,000-unit cap |
| SavedStarts.SavedReadsBack | client/work-start.ts:85-119 | the saved record of any valid start is read back as the same command and body |
| SavedStarts.ReadIsValid | client/work-start.ts:85-119 | whatever is read back was saved for this project and task, passes every check and fits the cap |
| SavedApprovals.CommandBack | client/approval-decisions.ts:88-109 | a saved approval command passes every check it is read back under and is unchanged |
| SavedApprovals.SavedFits | client/approval-decisions.ts:63 | the saved record of any valid approval decision fits the 4,096-unit cap |
| SavedApprovals.SavedReadsBack | client/approval-decisions.ts:50-123 | the saved record of any valid approval decision is read back as the same decision |
| SavedApprovals.ReadIsValid | client/approval-decisions.ts:50-123 | whatever is read back was saved for this project and need, passes every check and fits the cap |
| WorkStartSafety.ApplyKeeps | client/work-start.ts:148-262 | every press, answer, refresh and reload keeps the invariant |
| WorkStartSafety.NoSecondStart | client/work-start.ts:224-262 | a command is minted for a task only when every earlier one sent for it is confirmed, or refused for certain and not sent since, and is saved before it is sent; otherwise the saved command is sent |
| WorkStartSafety.ReloadResumes | client/work-start.ts:237-241 | after a reload and any events that do not press this task, a start neither confirmed nor refused since its last request is sent again under its own command for the same input, and any other input for the task sends nothing |
| WorkStartSafety.OneBodyPerId | client/work-start.ts:191-222 | all requests sent under one id carry one body |
| WorkStartSafety.RefusedOnceOnly | client/work-start.ts:203-211 | a final refusal drops a record only when its id was sent exactly once |
| WorkStartSafety.RefusedIsNotSentAgain | client/work-start.ts:203-211 | an id sent twice never counts as settled by a refusal |
| WorkStartSafety.ReconcilesExactlyConfirmed | client/work-start.ts:148-189 | a refresh removes exactly the readable records of the project that the listed sessions confirm |
| WorkStartSafety.DamagedIsKept | client/work-start.ts:179-187 | over any run, reloads included, a damaged record stays as it is and nothing is sent for its task |
| WorkStartTab.WorkStarts.StartWork | client/work-start.ts:224-262 | the whole turn up to the first request, on the object |
| WorkStartTab.WorkStarts.Settle | client/work-start.ts:191-222 | one answer: cleared once confirmed or certainly refused, kept and retried once when uncertain |
| WorkStartTab.WorkStarts.ReconcileWorkStarts | client/work-start.ts:148-189 | the loop over saved starts clears exactly what the sessions confirm |
| WorkStartAnswers.PressAnswers | client/work-start.ts:224-262 | each answer to a press is given if and only if its reason holds, and only a sent one changes the tab |
| WorkStartAnswers.ConfirmsIff | client/work-start.ts:131-146 | a session confirms a start if and only if its receipt is the one for exactly that command, project, task, route and session |
| WorkStartAnswers.SessionForIs | client/work-start.ts:170-178 | of the listed sessions whose receipt names a command the last one counts |
| WorkStartAnswers.RepliesAnswer | client/work-start.ts:191-222 | one more request goes out exactly after an uncertain first reply; the outcome and the fate of the record follow the replies |
| SignInWait.AdvanceWatches | client/ai-setup-state.ts:499-513 | both loops, as written: every route ends as the clock followed by its own rows make it |
| SignInWait.OtherRowsChangeNothing | client/ai-setup-state.ts:499-513 | rows about other routes, wherever they stand, change nothing for this one |
| SignInWait.HiddenOnlyWithinLimit | client/ai-setup-state.ts:445-521 | for any payloads and nondecreasing times a control is hidden only within 604,000 ms of its wait |
| SignInWait.OneWindowIsBounded | client/ai-setup-state.ts:445-521 | however many windows came before, the control is hidden only for the latest one, counted from when that one was first seen running, and at most 604,000 ms from then |
| SignInWait.SecondWindowWaitsAnew | client/ai-setup-state.ts:472-477 | a window opened while the check of another is awaited begins its own wait |
| SignInWait.OldCheckEndsNothing | client/ai-setup-state.ts:478-487 | no check made before a wait began ends it |
| SignInWait.EndedWindowIsChecked | client/ai-setup-state.ts:478-488 | an open wait whose window ended waits for the check from then on |
| SignInWait.CheckingHidesExactlyFourSeconds | client/ai-setup-state.ts:444-456 | and without an answer or another window for exactly 4,000 ms |
| SignInWait.UnconfirmedStays | client/ai-setup-state.ts:468-488 | a given-up wait is left exactly as it is by rows that do not answer it |
| SignInWait.UnconfirmedEndsIffAnswered | client/ai-setup-state.ts:478-488 | one row ends it if and only if it reports a check newer than the wait with the window not running |
| SignInWait.AnswerEndsAnyWait | client/ai-setup-state.ts:478-488 | whatever rows came before in the payload, a wait they leave ends at the next row if and only if that row answers it |
| SignInWait.RunningHidesExactlyTenMinutes | client/ai-setup-state.ts:445-477 | a window reported running throughout hides the control for exactly 600,000 ms from when it was first seen |
| SignInWait.RowAloneOutlivesLimit | client/ai-setup-state.ts:479-488 | a row folded without the clock keeps an overdue open wait alive exactly when it says the window ended and brings no newer check |

## Left out

- WorkMode.EditHoldsOverRun: the verdict is taken over one snapshot; `WorkMode.MissedOnlyBetweenReads` and `WorkMode.MisledIffRivalMayWin` say what separate readings can miss.
- ClaimSafety.MutualExclusion: claims of the earlier tool are a fixed set that may only be released, because that tool claims outside the order.
- Rendezvous.Rendezvous.SettledOutcome: the wait for an undecided attempt is over when it is asked; the step-by-step protocol lets it last any time.
- WorkStartSafety.NoSecondStart: other writers of the same session storage, and a kept record whose id was minted for another task, are not modelled.
- Legacy lock files (`writeLegacyLocks`, `clearLegacyLocks`): never trusted by this protocol; only the length check on their names is modelled.
- Temporary files, busy retries, half-written records, journals, `history.jsonl`, timestamps and the command line.
- Claim, handoff, slot and command ids are abstract values in the protocols, so their syntax checks appear only where a saved record is read back.
- Lower-casing is that of ASCII letters; owner hosts and worktrees outside ASCII are compared as they are spelled.
- `activeClaims`, `pendingAttempts`, `holderOf` and `workMode` are modelled on values: the order of their listing and their messages are not.
- A window's session-storage reference and same-window joins of a send in flight: the reference decides nothing, and a joined call sends nothing of its own.
- Damaged or oversized conversation records: the cap on them is smaller than a legal message can become once escaped, so record length is taken as given there.
- Native sign-in: the loopback server, timers that call `abandon`, protocol registration, token verification and the forced renewal in `identity.session`; `abandon` may come at any moment instead.
- The bounded callback queue: a first-in first-out list of at most four entries.
- JSON numbers other than natural numbers, and the object identity checks on parsed records.
- The approval automaton (`decideApproval`, `reconcileApprovals`) repeats the Work start automaton over another record; only its record is modelled.
- `client/task-create.ts`, the setup cards, views, display sentences and settings.
