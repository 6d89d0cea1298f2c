# Verified models of shdeps

Dafny models of the parts of shdeps whose correctness depends on more than one
function: the crash-recoverable checkout lock and its wire records, the shared
public symlinks, the ledgered relink, the bare-`github` resolver, path ownership,
the terminal dashboard, the hook wrapper and the choice among duplicate rows.
`dafny verify dfyconfig.toml` checks everything.

## How the models are built

**The checkout lock** (`LockDirectory`, `CheckoutLock`) is a machine of single
filesystem calls. Any number of threads in any number of processes run acquire,
classify, recover, claim, detach, retire, sweep and release one call at a time.
Between two calls another thread may act, a process may die for good, or a legacy
installer may take or drop the canonical name. Owner directories, claim directories
with their `owner` and `retired` slots, tombstones and the canonical name are
separate parts of the state; checks and renames are separate calls; a directory
stream returns every name of its opening snapshot that it has not returned yet, and
perhaps later ones. Assumptions: identifiers are drawn once, a dead verdict is given
only for a process that takes no more steps, `rename` and `symlink` are atomic.
`LockInvariant` states the inductive invariant and the one interface (`Rely`) between
a step and every other thread; `LockSteps` and `LockPreserved` prove it kept;
`LockClean` and `LockTidy` prove that a thread at rest has left nothing behind.
`LockConformance` gives the verdict of each check for every directory there is,
`LockTransfers` what each transfer does when nobody disturbs it, `LockWaiting` when an
acquirer waits, looks again and gives up, `LockCoverage` what its scans cannot miss, and
`LockRecovery` that it gets through what the dead left.
`LockRefusals` and `LockScans` say exactly when an overlapped scan gives up, and
`LockScenes`, `LockRaces` and `LockTakeoverRace` spell out two runs in which one does.
`LockRecords` has the parser and printer of the records, `LockWire` their text and
`LockFaults` the reasons for which one is refused.

**Public links** (`PublicLinks`) is the second machine: workers withdraw their own
link by quarantine and publish by staging, in any interleaving, while outside writers
put anything on the name at any time. Every entry has an identity, so that what became
of it is a theorem; `PublicLinkHistory` keeps the order in which entries came to the
name, so that which of two is older is one too, and `PublicLinkFiles` follows the
regular files that stand in a link's way.

**Relinking, the resolver's state directory, the dashboard, path normalization, the
wrapper and the duplicate choice** are methods with loops over the state they change,
each proved against a function or relation whose meaning is proved separately. In
`Relink` the process may die before every durable write. In `ResolverBatch` the two
resolvers share one outcome predicate, and `ResolverTable` proves the staged decision
equal to one flat table of rules; `DuplicateRows` does the same for the choice of rows.
In `Redraw` the dashboard drives a screen with CR, LF, EL (ECMA-48 section 8.3.41) and
CUU (section 8.3.22). `Wrapper` reads the script back by the quoting rules of the POSIX.1
Shell Command Language, section 2.2.

## Where the code and its comments differ

* A directory scan that overlaps somebody else's transfer can refuse claims that are
  well formed. A sweep fails exactly when it looked for the tombstone of a claim before
  its owner was detached, then found the canonical name gone and the owner still in the
  claim (`LockRefusals.SweepFailsExactly`); the search for a claimed owner fails exactly
  when a takeover fell between two claims it accepted and the link is still there
  (`LockScans.ScanFailsExactly`). Without such an overlap neither ever fails
  (`LockRefusals.QuietSweepNeverFails`, `LockScans.QuietScansNeverFail`). Both happen:
  `LockRaces.HealthyAcquirerFails` without any crash, and
  `LockTakeoverRace.OverlappedScanFails` after one.
* The comment at `src/github_method.rs:614-619` says that the next stale run after a
  manifest seed performs the normal remote check. The code renews the seed instead. A
  stale run asks exactly when it is forced, a reinstall, or sees no checkout, whatever
  was cached: `Resolver.StaleRunAsks` and `Resolver.CheckoutIsNeverAskedAbout`.
* The comment at `src/cleanup.rs:891-895` calls a displaced link obsolete because a
  newer entry holds the name. The entry that holds it may be an older one that was
  itself put back: `PublicLinkRaces.NewestLinkLostToAnOlderOne` is such a run, and
  `PublicLinkHistory.WinnerOlderExactly` says when it happens.
* The forecast for a read-only caller differs from what an update chooses without a
  remote answer in exactly two situations: `Resolver.ForecastHoldsInOutage`.
* A relative install root that normalizes to the empty path owns every link
  (`LexicalPath.RelativeRootOwnsAllOrNothing`).

## Model

| member | source | states |
|---|---|---|
| LockPreserved.NextKeeps | src/checkout_lock.rs:1038-1138 | Every call of every thread, every crash and every legacy writer keeps the directory invariant and what each other live thread counts on. |
| LockTheorems.MutualExclusion | src/checkout_lock.rs:499-523 | In every reachable state at most one live thread is inside the operation, and the canonical name is its own generation. |
| LockTheorems.DetachMovesHeldGeneration | src/checkout_lock.rs:1074-1105 | The detaching rename always finds and moves the generation the claimant holds, although check and rename are two calls. |
| LockTheorems.CanonicalChanges | src/checkout_lock.rs:1038-1105 | Only an exclusive publication and a detaching rename of the held generation change the canonical name; retirement, leaf removal and sweeps never do. |
| LockTheorems.OnePlace | src/checkout_lock.rs:1166-1236 | A generation is in at most one of its places, so one instant never shows two owner-bearing claims of it. |
| LockTheorems.OnlyForward | src/checkout_lock.rs:1108-1120 | A generation only moves forward: owner directory, claimed, detached, retired, gone. |
| LockTheorems.StepRefines | src/checkout_lock.rs:1098-1104 | Each call is the step of an abstract lock that its label names, all others silent. |
| LockTheorems.RunRefines | src/checkout_lock.rs:1466-1486 | Every run is a run of the abstract lock: taken when free, worked in and released by its live holder, broken only when the holder is dead. |
| LockTheorems.OnlyScanFailures | src/checkout_lock.rs:1454-1553 | A live thread fails only by timeout or by a refusal of an overlapping scan; never at publication, verification, discard or release. When it times out is `LockWaiting.TimesOutExactly`. |
| LockWaiting.TimesOutExactly | src/checkout_lock.rs:1529-1548 | A call of a thread that has not timed out times out if and only if it is the deadline check and the deadline has passed. |
| LockWaiting.PatientNeverTimesOut | src/checkout_lock.rs:1529-1548 | Over any run, a thread whose deadline checks are all in time never times out, whatever it meets. |
| LockWaiting.LooksAgainExactly | src/checkout_lock.rs:1454-1553 | A thread looks at the name at the start, after a deadline check in time, and without one only after it has recovered a generation to the last directory. |
| LockWaiting.AttemptGoesOn | src/checkout_lock.rs:1454-1553 | An attempt ends only inside the operation, from the last check of the thread's own generation, or in a failure. |
| LockWaiting.LiveHolderIsWaitedFor | src/checkout_lock.rs:1529-1548 | As long as a live thread holds the lock, whatever else happens, an acquirer stays between its look at the name and its deadline check, and with time left never fails. |
| LockWaiting.LiveClaimIsWaitedFor | src/checkout_lock.rs:1529-1548 | As long as a live claimant holds the generation on the name, an acquirer with time left searches and waits; it never takes the claim over nor fails. |
| LockWaiting.LegacyIsWaitedFor | src/checkout_lock.rs:1239-1287 | The same while a legacy directory holds the name. |
| LockConformance.ClassifiesByTheTable | tests/fixtures/checkout-lock-v1/checkout-lock-v1-states.tsv:1-13 | Each call of a classification of any directory that stays as it is, well formed or not, heads for the verdict of the table of states: acquire, wait, recover the owner, take the claim over, or fail. |
| LockConformance.ClassificationEnds | src/checkout_lock.rs:1166-1287 | Enough such calls end with that verdict, in whatever order the stream returns the claims. |
| LockConformance.SweepsByTheTable | src/checkout_lock.rs:1296-1371 | At any one claim of such a directory the sweep passes over the ownerless and the living, retires the dead, and gives up on the malformed unless the name is taken. |
| LockConformance.ChecksByTheTable | src/checkout_lock.rs:1038-1138 | The checks before a recovery, a release, a detachment, a retirement and after a publication let a thread through exactly on the directories they are to let through. |
| LockConformance.SweepsAFreeName | src/checkout_lock.rs:1296-1371 | A sweep opens the directory, and an acquisition goes on to prepare a generation, exactly when the call before it found the name free. |
| LockTransfers.OwnerTransfer | src/checkout_lock.rs:1108-1138 | On any directory, a release or the recovery of a dead owner that nobody disturbs frees the name and removes the owner directory in 24 calls, and leaves everything else as it was. |
| LockTransfers.ClaimTransfer | src/checkout_lock.rs:1390-1432 | The same for a takeover: in 27 calls the name is free, and the dead claim is gone with its owner directory. |
| LockTransfers.LateTransfer | src/checkout_lock.rs:1108-1120 | Whoever comes too late for an owner directory leaves the whole directory as it was. |
| LockTransfers.RetireCalls | src/checkout_lock.rs:1038-1071 | The retirement of a whole detached claim removes it to the last directory and nothing else. |
| LockTransfers.TakesTheName | src/checkout_lock.rs:1466-1486 | A free name is taken in four calls, which add the owner directory and the link and nothing else. |
| LockTransfers.LeavesTheName | src/checkout_lock.rs:1466-1486 | An attempt that finds the name taken leaves the directory as it was. |
| LockTransfers.CallConserves | src/checkout_lock.rs:1038-1138 | On any directory and at any point of the protocol, a call removes only empty directories, and moves every other owner directory whole. |
| LockCoverage.HeldClaimIsFound | src/checkout_lock.rs:1166-1236 | Whatever happens meanwhile, a scan that comes to its end has accepted every claim that bore its generation's owner directory throughout. |
| LockCoverage.NobodyPassesADeadClaim | src/checkout_lock.rs:1296-1371 | Whatever happens meanwhile, as long as a dead claimant's claim keeps its owner directory no attempt that finds the evidence gets past its sweep. |
| LockTheorems.ReleaseIsWaitFree | src/checkout_lock.rs:1108-1138 | Whatever the others do, each call of a release succeeds and the 27th ends it. |
| LockClean.ReachableClean | src/checkout_lock.rs:1024-1071 | A live thread outside a transfer and the operation has nothing of its own on the canonical name or in a claim. |
| LockTidy.ReachableTidy | src/checkout_lock.rs:1024-1138 | In every reachable state a live thread has no owner or claim directory on disk but those it is at work on; while it rests, waits, looks, scans or sweeps, none. |
| LockRecovery.SoloNext | src/checkout_lock.rs:1374-1432 | Each call of a lone thread stays on course, lowers a bound on the remaining calls, and begins a new pass only if one was left; its peers are dead, or live and off the canonical name. |
| LockRecovery.SoloAcquires | src/checkout_lock.rs:1454-1553 | From every reachable state in which no other live thread is between publishing and detaching its generation and no legacy directory holds the name, a thread holds the lock within a bounded number of calls and two passes of the loop, whatever half-done transfers the dead left and wherever off the name the living pause, and every owner directory the dead left in a claim is then gone. |
| LockRecovery.SoloNeverBlocks | src/checkout_lock.rs:1454-1553 | The lone thread always has a next call that is made and returns. |
| LockTheorems.LegacyBlocks | src/checkout_lock.rs:1239-1287 | As long as a legacy directory is not dropped, whatever else happens, it stays on the name, nobody enters the operation, and no live thread is inside. |
| LockRefusals.SweepFailsExactly | src/checkout_lock.rs:1317-1354 | From the third check of a visited claim, with any calls of others between the thread's own, the sweep fails if and only if the canonical name was the owner's link at that check, was gone at the first check of the fault, and the claim still has its owner at the last. |
| LockRefusals.QuietSweepNeverFails | src/checkout_lock.rs:1296-1371 | In any run in which no other thread makes a detaching rename, no sweep of the thread fails with a malformed claim. |
| LockRefusals.SweepRefusesAWholeClaim | src/checkout_lock.rs:1296-1371 | Whenever a sweep gives up on a claim as malformed, the claim passes every check the sweep makes. |
| LockScans.TakeoverBetween | src/checkout_lock.rs:1394-1432 | When two claims hold the owner directory of one generation at different times, a takeover of that generation lies between. |
| LockScans.SeveralFoundExactly | src/checkout_lock.rs:1166-1236 | A scan ends with several accepted claims if and only if a takeover of the generation fell between two of its acceptances. |
| LockScans.ScanFailsExactly | src/checkout_lock.rs:1166-1236 | The search for a claimed owner fails if and only if that happened and the canonical name is still the generation's link at its last call. |
| LockScans.RefusesAtSettle | src/checkout_lock.rs:1201-1235 | The malformed-claims refusal comes from the end of a scan alone; a visited claim is never refused. |
| LockScans.QuietScansNeverFail | src/checkout_lock.rs:1166-1236 | In any run without a takeover no scan fails, however many the thread makes. |
| LockScans.ScanRefusesOneClaim | src/checkout_lock.rs:1166-1236 | Whenever a scan refuses several owner-bearing claims while one is there, it is the only one, and whole. |
| LockRaces.HealthyAcquirerFails | src/checkout_lock.rs:1296-1371 | A crash-free run in which one thread releases and the acquisition of another fails with a malformed-claim error. |
| LockTakeoverRace.OverlappedScanFails | src/checkout_lock.rs:1166-1236 | A run with one crash in which one thread takes a dead claim over and the acquisition of another, scanning meanwhile, fails with malformed claims. |
| LockRecords.HexIsOnto | src/checkout_lock.rs:230-232 | Every even-length lower-case hex text is the encoding of some byte string. |
| LockRecords.HexIsInjective | src/checkout_lock.rs:230-245 | Two byte strings never share an encoding. |
| LockWire.HexByDigits | src/checkout_lock.rs:230-232 | Digit by digit: each byte gives the lower-case digit of its high half, then of its low half. |
| LockWire.DecodeInverts | src/checkout_lock.rs:230-232 | Reading the digits back is the exact inverse: a text reads as some bytes if and only if it is their hex. |
| LockRecords.NonceOf | src/checkout_lock.rs:780-785 | Sixteen random bytes give a valid identifier. |
| LockRecords.UnframedIsFramed | src/checkout_lock.rs:282-302 | A text that passes framing, line count, header and field extraction is the frame of the values extracted. |
| LockRecords.FramedIsItself | src/checkout_lock.rs:282-302 | A frame yields its own eight values or nothing. |
| LockRecords.AcceptedIsPrinted | src/checkout_lock.rs:275-343 | Every accepted byte string is exactly the printing of its result, which is in bounds and bound to role, nonces and checkout. |
| LockRecords.WrittenIsRead | src/checkout_lock.rs:788-812 | A written record is read back as itself exactly when its unchecked fields are in bounds and it is the one asked for, and never as another. |
| LockRecords.RecordBindsItsPath | src/checkout_lock.rs:304-334 | One byte string is accepted for one role, nonce, owner and checkout only. |
| LockRecords.InBoundsFits | src/checkout_lock.rs:827-841 | The reader's size limit cuts off no record in bounds whose process identifier has at most 5418 digits. |
| LockRecords.WriteThenLoad | src/checkout_lock.rs:788-841 | What is written is loaded as itself and as nothing else, exactly when it is in bounds, fits the reader's limit and is the record asked for. |
| LockRecords.LoadThenWrite | src/checkout_lock.rs:788-841 | What is loaded is byte for byte what writing its result writes. |
| LockWire.PrintedText | src/checkout_lock.rs:788-826 | A record is written as exactly this text of nine lines, each spelled out. |
| LockWire.AcceptsExactly | src/checkout_lock.rs:275-343 | A byte string is accepted as a record if and only if it is that text and the record is sound and the one asked for, each condition spelled out. |
| LockWire.RefusesByShape | src/checkout_lock.rs:275-302 | The refusals for size, framing, line count and header, each exactly when. |
| LockFaults.Utf8IsText | src/checkout_lock.rs:346-352 | A field is accepted as text exactly when its bytes encode characters by the table of RFC 3629, section 3. |
| LockFaults.FieldsFail | src/checkout_lock.rs:346-352 | The fields cannot be read exactly at the first line that lacks its key or goes on with what is not text. |
| LockFaults.FirstFault | src/checkout_lock.rs:304-334 | Of the faults that values can have, spelled out, the first in the reader's order is reported, and values without one are accepted. |
| LockRecords.TargetSlice | src/checkout_lock.rs:1148-1157 | Prefix and suffix of an accepted target never overlap, so taking the text between them cannot fail. |
| LockRecords.TargetsInvert | src/checkout_lock.rs:1148-1158 | Canonical target and generation determine each other. |
| LockRecords.ClaimNamesInvert | src/checkout_lock.rs:989-1005 | Claim directory name and the pair of nonces it binds determine each other. |
| LockRecords.PrefixSelectsGeneration | src/checkout_lock.rs:132-134 | The scan prefix of one generation matches exactly the claims on it. |
| LexicalPath.LexicalNormalize | src/cleanup.rs:1293-1316 | The push-and-pop loop computes the fold that the other results are about. |
| LexicalPath.NormalizeYieldsNormalForm | src/cleanup.rs:1293-1316 | The result has no `.`, no `..` under the root and only leading `..` in a relative path; exactly these paths are left alone. |
| LexicalPath.NormalizeIsIdempotent | src/cleanup.rs:1293-1316 | Normalizing twice is normalizing once. |
| LexicalPath.NormalizeOfJoin | src/cleanup.rs:797-805 | The base of a join may be normalized first. |
| LexicalPath.NormalizeReachesTheSameNode | src/cleanup.rs:1293-1316 | In a tree without symlinks a path that exists and its normal form reach the same node. |
| LexicalPath.OwnershipIsContainment | src/cleanup.rs:775-805 | However an absolute link, its target and absolute roots are spelled, and whether or not they exist, the link belongs to one of the roots exactly when the place its target names lies at or below that root. |
| LexicalPath.OwnershipEverywhere | src/cleanup.rs:775-805 | The same for every link, target and root, relative ones and a link without a parent among them, with what containment comes to between relative places. |
| LexicalPath.OwnershipOfReachedNodes | src/cleanup.rs:775-805 | Where target and root exist in a tree without symlinks, these are the places that following the two paths reaches. |
| LexicalPath.RelativeRootOwnsAllOrNothing | src/cleanup.rs:775-783 | A relative root owns a link to an absolute target exactly when it normalizes to the empty path. |
| PublicLinkTheorems.NextKeeps | src/cleanup.rs:858-923 | Every call of every worker and every outside write keeps unique fates, private hidden names and the accounts of what was lost. |
| PublicLinkHistory.QuarantineDestroysAtMostOne | src/cleanup.rs:858-923 | One quarantine call destroys at most one entry, always a link: its own, or a foreign one in whose place stood another entry that had really been placed. |
| PublicLinkHistory.SupersededAtARefusal | src/cleanup.rs:889-905 | Every superseded link was hidden, and its winner on the public name, at the call of its worker that was refused. |
| PublicLinkHistory.WinnerOlderExactly | src/cleanup.rs:891-905 | Every superseded link had been on the name, its winner came there later, and the winner is the older of the two exactly when its own first coming was earlier; no winner that came new is. |
| PublicLinkHistory.OlderExactlyWhenPutBack | src/cleanup.rs:891-905 | When the lost link was displaced from its first stay and the winner came to the name once since, the winner is older if and only if it was put back rather than created, published or written. |
| PublicLinkRuns.OneFate | src/cleanup.rs:880-918 | Every entry ever seen is on the public name, under one hidden name, or lost once; no regular file is lost to a quarantine. |
| PublicLinkRuns.OnlyTwoFailures | src/cleanup.rs:897-923 | A worker fails only when all sixteen names are taken, or with a displaced regular file kept under the name it reports. |
| PublicLinkRuns.OnlyPublishLosesPublicFiles | src/extras.rs:499-519 | A call destroys the regular file on the public name exactly when it is the rename of a staged link; which files that can hit is `PublicLinkFiles.OnlyLateFilesAreLost`. |
| PublicLinkFiles.FileStays | src/extras.rs:429-462 | Over any run of any workers that had not looked yet, a regular file on the public name stays, is never lost, nothing on disk changes, and whoever ends a relink reports that it linked nothing. |
| PublicLinkFiles.OnlyLateFilesAreLost | src/extras.rs:403-418 | In every run a publication destroys a regular file only if it was not on the name when that worker last looked. |
| PublicLinkFiles.UndisturbedJob | src/extras.rs:429-519 | What one undisturbed withdrawal or relink leaves on the name and beside it, and what it reports, for every site and owner. |
| PublicLinkFiles.SixteenNames | src/cleanup.rs:877-923 | A quarantine gives up at its sixteenth taken name and at none before. |
| PublicLinkRuns.PublishLosesALateFile | src/extras.rs:403-418 | The documented loss happens whenever a file takes the name after staging, and the publication reports success. |
| PublicLinkRuns.FirstRestoreWins | src/cleanup.rs:889-905 | Of two workers that displaced a link, the first to put its own back has the other's destroyed. |
| PublicLinkRaces.NewestLinkLostToAnOlderOne | src/cleanup.rs:889-905 | A run without outside writers at whose end all are done, yet the link published last has been destroyed in favour of an older one of a retired dependency. |
| PublicLinkRuns.WorkersAreWaitFree | src/extras.rs:429-519 | A withdrawal and publication ends within 28 calls of its own, whatever the others do. |
| PublicLinkRuns.SharedName | src/extras.rs:429-538 | Any number of dependencies relinking one name with no regular file there: nobody fails or declines, and when all are done the name leads into one of their roots and nothing hidden is left. |
| Relink.Inventory | src/bin_link.rs:84-108 | The scan fails as a whole exactly when the listing breaks off; otherwise the wanted commands are exactly the executable entries whose names are text, each to lead to the file of its name. |
| Relink.Disk.FromDir | src/bin_link.rs:77-152 | A failed scan changes nothing. Otherwise the disk is safe at every cut point and headed for the same end; it is refused exactly when a tracked or executable path holds a line break; and when it finishes, the links made are exactly the executable commands that no regular file occupies, exactly the other tracked links into the root are gone, all else is as it was, and the ledger is the links made. |
| Relink.RefusedExactly | src/link_state.rs:127-159 | A plan is refused exactly when a path to record holds a newline or a carriage return. |
| Relink.Disk.Reconcile | src/bin_link.rs:110-152 | At whatever durable write it dies, every link it made is covered, no wanted command vanished, no regular file changed; if it finishes it is at the final directory and ledger. |
| Relink.Disk.Reruns | src/bin_link.rs:353-410 | However many relinks die, and wherever, the first to finish leaves what one undisturbed relink would have left. |
| Relink.Disk.RecoverReconcile | src/link_state.rs:166-216 | The ledger takes over from the plan without the set of tracked links changing at any write, and ends as the prior links still there and the wanted links that are live. |
| Relink.Disk.BeginReconcile | src/link_state.rs:127-159 | A plan is pending afterwards exactly when there is something to track or to publish, and it is refused exactly when a path cannot be recorded. |
| Relink.Disk.One | src/bin_link.rs:35-52 | Without an executable source nothing happens, a regular file is preserved, anything else replaced. |
| Relink.PhaseIsSafe | src/bin_link.rs:122-147 | A relink under way is safe and has kept its goal. |
| Relink.PruneAfterDeath | src/link_state.rs:161-216 | After a death at any write, recovery and prune remove all that the relink made or that was tracked, and leave the rest as it was. |
| Relink.LastPhase | src/bin_link.rs:146-151 | When all wanted links are made and all stale ones gone, the disk is at the goal and the ledger may shrink to the made links. |
| Resolver.OwnershipHolds | src/github_method.rs:338-445 | An owned release of an active entry resolves to the release, for all options, caches and remote answers. |
| Resolver.OwnershipIsNeverLost | src/github_method.rs:338-477 | Over any run of runs in which each manifest row is the one before or what was just installed, a release once owned stays owned and is what every run resolves to. |
| Resolver.KeptReleaseIsAskedAgain | src/github_method.rs:390-402 | After a run kept an owned release for lack of an asset, the next run asks again, however soon, and neither stamp nor list is left to stop the installer. |
| Resolver.CachedListIsTheAnswer | src/github_method.rs:376-412 | A run that was answered leaves a cached list only if it is the list it decided by. |
| Resolver.CacheAgrees | src/github_method.rs:338-363 | Within the time to live a remote answer is repeated without asking or writing, exactly when the command survives the cache file. |
| Resolver.CacheAgreesOverRuns | src/github_method.rs:347-357 | The same over any number of such runs. |
| Resolver.OutageRepeatsTheAnswer | src/github_method.rs:414-440 | A run that asks in vain repeats the last remote answer, however old, and changes no file. |
| Resolver.StaleRunAsks | src/github_method.rs:338-363 | A stale run asks exactly when it is forced, a reinstall, or sees no checkout, whatever was cached; otherwise it keeps the checkout and renews the seed. |
| Resolver.FreshRunAsks | src/github_method.rs:338-363 | A fresh run asks exactly when its cache file holds no usable answer, or there is none and no checkout is visible. |
| Resolver.CheckoutIsNeverAskedAbout | src/github_method.rs:584-629 | Over any number of unforced runs from any stale start, whatever was cached, the visible checkout is kept and nobody asks. |
| Resolver.ForecastHoldsInOutage | src/github_method.rs:457-472 | The offline forecast is the update's choice without a remote answer, except exactly when a visible checkout is seeded over a stale release answer or the manifest's release is for another command. |
| ResolverTable.ResolvesByTheTable | src/github_method.rs:246-445 | For all files, entries, hosts, answers, clocks and options the staged decision is the first rule of one flat table that applies, in method and in every file. |
| ResolverTable.AnswerDecides | src/github_method.rs:365-412 | A remote answer makes it the release exactly when the command is served or the release owned; list, stamp and marker are filed, except that an owned release without an asset leaves neither stamp nor list. |
| ResolverTable.StampCounts | src/stamp.rs:45-73 | An unforced run trusts a stamp exactly from five minutes before it, by the clock, to the time to live after it. |
| ResolverCache.WrittenIsParsed | src/github_method.rs:561-582 | A written decision keeps its marker, and its command exactly when that has no newline and no final carriage return. |
| ResolverCache.ParsedFile | src/github_method.rs:561-582 | Of a file others wrote the first line, trimmed, is the marker and the first later line with the key the command. |
| ResolverCache.AnyLinesRead | src/github_method.rs:570-577 | A text is read line by line whichever way its lines end, and what follows the last newline is a line as it stands. |
| ResolverCache.MarkersAreText | src/github_method.rs:534-559 | The four marker texts, and no other, mean something. |
| ResolverBatch.StateDir.SeedFromManifest | src/github_method.rs:584-629 | The seed writes and stamps only a visible checkout's marker. |
| ResolverBatch.StateDir.ResolveLocal | src/github_method.rs:338-363 | The local half decides as specified and touches only this name's files. |
| ResolverBatch.StateDir.ResolveRemote | src/github_method.rs:365-445 | The remote half decides as specified and touches only this name's files. |
| ResolverBatch.StateDir.InvalidateReleaseChecks | src/github.rs:337-346 | Both stamps and the cached list go, nothing else. |
| ResolverBatch.StateDir.ResolveMethod | src/github_method.rs:246-299 | One entry is resolved as specified. |
| ResolverBatch.StateDir.ResolveEntries | src/github_method.rs:88-100 | Entry by entry, the methods and final files are the specified outcome. |
| ResolverBatch.StateDir.ResolveBatch | src/github_method.rs:108-216 | The batch, with remote checks made in any order, reaches the same outcome for distinct names. |
| ResolverBatch.OutcomeIsUnique | src/github_method.rs:108-216 | Two resolutions with that outcome agree in every answer and every name's files. |
| ResolverTable.EntriesByTheTable | src/github_method.rs:88-216 | Both ways of resolving a list answer each bare entry, and leave its files, as the table says over its own files alone. |
| Redraw.TtyProgress.RewriteRows | src/cli.rs:1516-1567 | From a screen in step, line by line: the rows from the top of the block, the footer below them, blanks to the end of the old block, everything else as it was; and the cursor is where the next call expects it. |
| Redraw.TtyProgress.Draw | src/cli.rs:1569-1603 | A live draw repaints in place, growing by a row for a new stage. |
| Redraw.TtyProgress.Draws | src/cli.rs:1516-1567 | After any sequence of draws with any row counts and footers the screen shows the latest frame, blanks as far as any draw reached, and nothing outside has changed. |
| Redraw.TtyProgress.Update | src/cli.rs:1444-1463 | After any such sequence and a finish, the final frame stands alone, with blanks down to the tallest frame of all. |
| Redraw.TtyProgress.Finish | src/cli.rs:1444-1463 | The final rows and footer replace the block and the cursor is on the line below them, or below the whole old block if there are no final rows. |
| Redraw.TtyProgress.ClearUnfinished | src/cli.rs:1605-1623 | An unfinished block is blanked and nothing else; a finished one is left alone. |
| Redraw.LatestFrameShows | src/cli.rs:1516-1567 | However frames grow and shrink, painting them one over the other equals painting the last one once at the height of the tallest. |
| Wrapper.WriteWrapper | src/hook_toolkit.rs:135-167 | The script is the shebang, the exports in order and the exec line, or nothing for an unsafe name. |
| Wrapper.ScriptRuns | src/hook_toolkit.rs:135-167 | Line by line, the script is the shebang, one export per line, and a last line that a shell reads as the launch. |
| Wrapper.LexQuoted | src/hook_toolkit.rs:214-216 | After a blank, a quoted value is one literal word, whatever it contains. |
| Wrapper.WrapperRoundTrip | src/hook_toolkit.rs:140-161 | A shell reads the exec line as exactly the interpreter, arguments and payload, then its own arguments. |
| Wrapper.ExecLineIsInjective | src/hook_toolkit.rs:140-161 | Two different launches are never printed alike. |
| Duplicates.DedupeLastWins | src/config.rs:259-272 | The two-pass loop keeps exactly the last row of each name, in load order. |
| Duplicates.SelectFilteredDuplicates | src/config.rs:497-537 | The grouped loops keep exactly each name's winner, in load order, whatever order the map gives the groups out in. |
| Duplicates.Choose | src/config.rs:508-533 | The choice within one group is the winner. |
| Duplicates.OneRowPerName | src/config.rs:497-537 | Every name that occurs survives, and no name twice. |
| Duplicates.UnfilteredIsLastWins | src/config.rs:510-512 | A name with one row, or with an unfiltered one, goes to its last row. |
| Duplicates.WinnerMatches | src/config.rs:513-518 | Among several filtered rows the winner matches this host if any does, and no later one matches. |
| Duplicates.WinnerIsUnproven | src/config.rs:519-528 | With no match the winner is not proven excluded if any row is not, and the last of its kind. |
| DuplicateRows.WinsExactly | src/config.rs:497-537 | A row survives if and only if a flat rule over the rows of its name says so. |
| DuplicateRows.NameAndFilter | src/config.rs:539-541 | The name stands before the first bar, and the filter between the fourth and the fifth. |
| Duplicates.ByNameIsTotal | src/config.rs:227-234 | The sort order is total and ties only equal rows. |
| DuplicateRows.OrderIsByText | src/config.rs:227-234 | Rows ascend by lower-cased name, then name, then text, by the code of the first character that differs. |
| Duplicates.LoadEntries | src/config.rs:386-425 | The loaded list is sorted and a rearrangement of the safe survivors; its members and their order are spelled out by `DuplicateRows.LoadedRows`. |
| DuplicateRows.LoadedRows | src/config.rs:386-425 | A row is loaded exactly when it stands in the files, wins its name and its name is safe, and earlier rows never follow later ones by lower-cased name. |
| Duplicates.LoadedListIsUnique | src/config.rs:227-234 | Whatever order the rows reach the sort in, the loaded list is the same. |

## Left out

- LockRecovery.SoloAcquires: a legacy directory on the canonical name is excluded, because the code waits for it forever (`LockTheorems.LegacyBlocks`), and so is a live thread between publishing and detaching its generation, because the code waits for it (`LockWaiting.LiveHolderIsWaitedFor`, `LockWaiting.LiveClaimIsWaitedFor`).
- LockTheorems.MutualExclusion: other objects than a symlink, a directory or nothing on the canonical name are not modelled; the code fails closed on them and changes nothing.
- LockWaiting.TimesOutExactly: the classification that the code makes once more when its time is up is not modelled; it changes nothing on disk, and reports a malformed lock in place of the timeout if it finds one.
- LockScans.TakeoverBetween: how many takeovers lie between is not counted.
- PublicLinkHistory.OlderExactlyWhenPutBack: a link lost from a later stay, and a winner that came more than once since, are left to `PublicLinkHistory.WinnerOlderExactly`, since there a winner put back can be the newer one.
- Relink.Disk.One: staging and rename count as one durable write, so a staging leftover of a death between them is not seen, and whether the source is executable is asked once, when the directory is scanned.
- PublicLinkRuns.SharedName: withdrawals without a following publication are excluded, because with them the last published link can be lost (`PublicLinkRaces.NewestLinkLostToAnOlderOne`).
- Process and host probes, zombies and reuse of process identifiers: a liveness verdict that is dead only for processes that take no more steps.
- Record contents inside the lock machine: a record names its writer's process; the text forms are modelled apart in `LockRecords`.
- The private preparation directories of owners and claims: one publishing step, since their names play no part in arbitration.
- The acquire deadline: a free choice between waiting and timing out; `parse_timeout` is not part of this model.
- Permission bits, user identities, inode and change-time checks of private files and of quarantined regular files.
- I/O errors other than absence and existence, and the cancellation latch: an unexpected failure is a crash.
- The second release attempt when a held lock is dropped: no release of a live thread fails.
- The fallback of `rename_noreplace` on filesystems without an atomic exclusive rename.
- The lock and the public links as methods: they are step machines, because interleaving at single calls is what they are about; their loops appear as counters in the next call.
- Order in ledgers and plans, and in the returned list of links: sets, because every reader treats them as sets.
- The size limit of a relink plan.
- Splitting path text into components: the standard library does it; the model starts from components.
- How versions, tags and redirects are compared, token lookup, and asset selection: one answer per name and run.
- Progress callbacks of the batch resolver, and state writes that fail.
- The text of dashboard rows, their order and the counters behind them; a screen lower than the block; wrapping.
- Environment lines of the wrapper are copied verbatim and not read back; a shell's treatment of NUL.
- Which wrapper and dependency names are safe, and lower-casing of names: inputs.
- Parsing of filters and platform identities: which filter texts match and which are proven excluded are inputs.
- The in-place sort of the standard library: an insertion sort to the same total order.
- Man pages and completions, method transitions, archives, downloads, hooks, prompts and the command line.
