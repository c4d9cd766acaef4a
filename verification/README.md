# HostDeck: a verified model of its installer, broker and loopback client

HostDeck is a local service with a command line client. This project models the parts of it whose
correctness does not show in any one function, and proves what they keep over whole runs.

**The service installer.** Install, upgrade and uninstall change files (a journal, the `current`
selector, stable links, an environment file, an enablement link, staging trees and published releases)
and the user's service manager, and any of their steps can fail or be the last one before the process
dies. Install and upgrade roll back; uninstall rolls forward. `Lifecycle` gives every command as a
function of the world and of a *plan*: the environment's answer to each atomic step, where a plan that
ends early is a crash. "For every plan" is therefore every combination of failures and every crash
point, in the command, in its rollback and in the recovery that follows. `LifecycleSafety` holds the
invariant and recovery; `LifecyclePrepare`, `LifecycleInstall`, `LifecycleUpgrade` and
`LifecycleUninstall` one phase each; `LifecycleCommands` and `LifecycleRuns` whole commands and whole
runs; `LifecycleFiles` what holds of the files in every run without exception; `LifecyclePaths` what
uninstall deletes, as paths; `LifecycleOutcomes` and `LifecycleProgress` say when a command gets to its
end; `LifecycleLimits` where the protocol does not keep its promise, with `LifecycleReplay` to choose where
a run stops and `LifecycleWitnesses` for runs that get there; `LifecycleHost` is the same as an object that
is changed step by step, each method proved equal in outcome and state to its function.
`SemVer`, `Json`, `Journal`, `JournalFacts`, `LifecycleJournals` and `Paths` are what it stands on.

**The request broker and the connection.** `Broker` and `Connection` are state machines whose steps are
the event handlers and the continuations between two awaits. Their states also hold the history that
properties of runs speak about: which frames left, what was settled, what was delivered.
`BrokerRequests`, `BrokerGuarantees` and `BrokerReplies` prove what the broker promises;
`BrokerHost` and `ConnectionHost` are the objects, proved to take exactly these steps.

**Smaller parts.** `Loopback` is the bounded HTTP client, `SystemdUnits` and `ServiceEnvironment` the
text encodings of unit files and of the environment file.

`dafny verify dfyconfig.toml` checks everything.

## What was found

Some things the code or its documentation suggests are not so. Each is kept as the code has it, with an
input the code can receive and the exact condition under which the promise holds.

- An uninstall journal can outgrow its own reader: 64 releases are allowed, and with versions of 190
  characters, the most for which the name of the release directory fits a Linux file system, their journal
  is over 16,384 bytes (`LifecycleWitnesses.LongJournalIsReached`). An uninstall can be completed
  exactly when its journal fits at the last stage (`LifecycleOutcomes.PendingUninstallCompletesIff`,
  `LifecycleOutcomes.FreshUninstallCompletesIff`).
- A leftover release is used again without comparing its environment file with the new one. An install
  of it that is cut off is then refused by recovery, and with it by every other command, for good
  (`LifecycleWitnesses.MismatchIsReached`; exactly when: `LifecycleLimits.InstallIsSafeIff`).
- The last status read of install and upgrade is inside the block whose failure starts the rollback, but
  comes after the journal was removed. If it fails, the rollback has no journal, and a crash in it leaves
  a world that recovery does not know (`LifecycleWitnesses.UnreadInstallIsReached`,
  `LifecycleWitnesses.UnreadUpgradeIsReached`; exactly when: `LifecycleLimits.InstallIsSafeIff`,
  `LifecycleLimits.UpgradeIsSafeIff`). Whether that read works is up to the service manager and is not
  something a caller can check before the call. The files stay sound even then
  (`LifecycleFiles.EveryRunKeepsFiles`).
- The check on the paths that uninstall has to leave alone compares strings, and an accepted path may end
  in a slash. A surviving path that is a removed one with a slash at its end passes and is deleted
  (`Paths.SlashSlipsThrough`; exactly when: `Paths.SurvivesIffClear`, `LifecyclePaths.SparedIff`). Of the
  paths the check is made for only `CODEX_HOME` can be such a path: the database has to lie under the state
  directory, so that one of the two is refused (`Paths.NestedNeverRespell`), and the programs are resolved
  (`Paths.CanonicalNeverRespells`).
- With a change pending, uninstall recovers from it before it makes that check, and the recovery deletes
  without asking (`LifecycleWitnesses.InterruptedIsReached`, where `CODEX_HOME` is the releases directory;
  exactly when: `LifecyclePaths.PendingSparedIff`).
- A ready connection, with its gate open, can be on a transport that is closed
  (`Connection.ReadyMayBeClosed`) or that its owner is closing (`Connection.ReadyMayBeLeaving`); exactly
  when: `Connection.ReadyIsOpenIff`. The broker's own check is what stops requests then
  (`BrokerGuarantees.NothingLeavesWhileClosed`). The owner's close is also the one case in which the gate of
  a closing connection opens again (`Connection.ClosingOpensIff`).
- A reconnect whose transport cannot be closed can leave the connection closing (`Connection.RecyclingMayFail`;
  exactly when: `Connection.RecyclingSticksIff`); it then neither connects nor reconnects until its owner
  closes it (`Connection.FailedRecyclingSticks`).

The theorems about runs of commands hold for all of them: what they say is true, or a launch of the run
ended in one of the two ways that the second and third point describe (`LifecycleRuns.Spoils`).

## Assumptions

- Exclusive creation of a file, replacing a file or link by rename, unlinking with its directory sync,
  and removing a release or staging tree are each one atomic step; a failing file step has no effect. A
  call to the service manager may also fail after it took effect.
- A crash is the death of the process. The manager lives on, and reports what it loaded at its last
  reload; no reboot happens in between.
- Nobody else edits the files, and the lifecycle lock gives mutual exclusion.
- The package verifier is a predicate on a release, and a hash stands for the content it names. The
  listing of the releases directory is the one that is read, sorted by code unit.
- The transport marks an error as safe to retry, or as not sent, only for a frame that never leaves, and
  delivers frames only while it is open; its generation never goes down. `link` in the connection and
  `open` in the broker are the state of the one transport they share: what is asked to close is no longer
  open, and its end is a later event.

## Model

| member | source | states |
|---|---|---|
| `SemVer.SupportedTexts` | packages/cli/src/service-lifecycle.ts:294 | A text is an accepted version exactly when it is the text of a version as Semantic Versioning 2.0.0 section 9 allows it, without build metadata. |
| `SemVer.NumericOrderIsIntegerOrder` | packages/cli/src/service-lifecycle.ts:3547-3551 | Comparing digit strings by length and then by character is comparing the unbounded integers they denote. |
| `SemVer.CompareVersionsIsPrecedence` | packages/cli/src/service-lifecycle.ts:3502-3545 | The comparison decides the precedence of Semantic Versioning 2.0.0 section 11, defined independently; it is antisymmetric, and zero only for identical texts. |
| `SemVer.CompareVersionsTransitive` | packages/cli/src/service-lifecycle.ts:3502-3545 | The order of accepted versions is transitive, and a chain of comparisons is zero only when all three texts are the same. |
| `Json.StableJsonIgnoresInsertionOrder` | packages/cli/src/service-lifecycle.ts:3489-3500 | Two values have the same canonical text exactly when they differ in nothing but the order in which fields were inserted, in every object at every depth. |
| `Json.ReadWrite` | packages/cli/src/service-install-manifest.ts:705-720 | Every printed value is read back as itself, and the text after it is left alone. |
| `Journal.RoundTrip` | packages/cli/src/service-lifecycle.ts:3045-3169 | A rendered journal reads back as itself exactly when it passes all cross-field checks and fits into 16,384 bytes; otherwise it is refused. |
| `Journal.RenderIgnoresInsertionOrder` | packages/cli/src/service-lifecycle.ts:3167-3169 | A value has the text of a journal exactly when it is that journal with its keys inserted in any order. |
| `JournalFacts.SelectorInjective` | packages/cli/src/service-lifecycle.ts:2963-2968 | Version plus fixed-length hash determines the selector and the other way round. |
| `JournalFacts.SelectorIsSafe` | packages/cli/src/service-lifecycle.ts:3438-3448 | The selector of every accepted package passes the reader's test for safe relative selectors. |
| `JournalFacts.BuiltIsValid` | packages/cli/src/service-lifecycle.ts:3078-3147 | Every journal of the shape that install, upgrade and uninstall build passes the reader's cross-field checks. |
| `JournalFacts.ChangeJournalAlwaysReads` | packages/cli/src/service-lifecycle.ts:3045-3169 | An install or upgrade journal always reads back: it never comes near the size limit. |
| `JournalFacts.UninstallJournalReads` | packages/cli/src/service-lifecycle.ts:3018-3057 | An uninstall journal reads back at all six stages exactly when it still fits at the last one, whose name is the longest. |
| `JournalFacts.StageSize` | packages/cli/src/service-lifecycle.ts:3018-3029 | Moving an uninstall journal to another stage changes its size by exactly the difference of the two stage names. |
| `JournalFacts.LongJournalCannotBeRead` | packages/cli/src/service-lifecycle.ts:3045-3057 | A journal for 64 releases, within the limit on releases and each with a directory name of 255 characters, is written and then refused for its size. |
| `LifecycleJournals.FreshJournalReads` | packages/cli/src/service-lifecycle.ts:583-593 | The journal an install writes is read back as itself in every phase. |
| `LifecycleJournals.UpgradeJournalReads` | packages/cli/src/service-lifecycle.ts:790-800 | So is the journal an upgrade writes; its two selectors differ because its version is strictly newer. |
| `LifecycleJournals.UninstallJournalReadsIff` | packages/cli/src/service-lifecycle.ts:942-975 | The journal that uninstall prepares from an idle installation reads back at every stage exactly when it fits at the last. |
| `LifecycleJournals.ReadableIsRead` | packages/cli/src/service-lifecycle.ts:3171-3176 | For every journal the commands build, the size test of the protocol model is the whole reader. |
| `Paths.DescendantExtends` | packages/cli/src/service-lifecycle.ts:3433-3436 | An accepted path counts as lying under another exactly when the place it leads to properly extends the other's, whether or not either is written with a slash at its end. |
| `Paths.SurvivesIffClear` | packages/cli/src/service-lifecycle.ts:1168-1200 | A path that has to survive passes the check, and is not a removed path written with a slash at its end, exactly when it is clear of the place of everything uninstall can delete. |
| `Paths.SlashSlipsThrough` | packages/cli/src/service-lifecycle.ts:1189-1199 | In every layout the releases directory written with a slash at its end is an accepted path and passes the check. |
| `Paths.NestedNeverRespell` | packages/cli/src/service-lifecycle.ts:2251-2255 | When a state directory and the database under it both pass the check, neither is a removed path written with a slash at its end. |
| `Paths.CanonicalNeverRespells` | packages/cli/src/service-lifecycle.ts:3356-3375 | Nor is a path without a slash at its end, as those of the resolved programs are. |
| `Paths.ElsewhereSurvives` | packages/cli/src/service-lifecycle.ts:1184-1200 | A path that shares no first name with the three directories everything is derived from passes the check. |
| `LifecycleSafety.RecoverSafe` | packages/cli/src/service-lifecycle.ts:2001-2128 | Wherever recovery fails or dies the invariant holds again, no release is lost and the committed release is the same; when it returns nothing is pending. |
| `LifecycleSafety.UntouchedManager` | packages/cli/src/service-lifecycle.ts:2057-2121 | With the old selector in place and an early phase the manager only knows the old release, so recovery may skip the reload. |
| `LifecycleOutcomes.RecoveryCompletes` | packages/cli/src/service-lifecycle.ts:2001-2128 | From every world the protocol can leave, recovery whose steps work trips none of its guards: no journal, no staging tree, the previous release selected and loaded, or nothing installed; with no journal it changes nothing. |
| `LifecyclePrepare.BuildReleaseEffect` | packages/cli/src/service-lifecycle.ts:1547-1640 | A build leaves either one staging tree and the releases as they were, or the complete release and no staging tree. |
| `LifecyclePrepare.PrepareSafe` | packages/cli/src/service-lifecycle.ts:594-626 | Preparation ends with the release complete and the journal marked, or with a world that recovery accepts. |
| `LifecycleInstall.InstallCommitSafe` | packages/cli/src/service-lifecycle.ts:627-663 | The commit of an install ends with exactly the new release delivered, whether its state could be read or not, or still under way with its journal. |
| `LifecycleInstall.InstallRollbackSafe` | packages/cli/src/service-lifecycle.ts:664-727 | A rollback of an install leaves nothing installed and no journal, or the install under way with its journal. |
| `LifecycleCommands.FreshInstallSafe` | packages/cli/src/service-lifecycle.ts:577-729 | A fresh install under every plan ends all or nothing, or in a late rollback, which needs a status read that fails, or in a mixture, which needs a leftover made for another environment file; when it returns exactly the requested release is left. |
| `LifecycleCommands.InstallSafe` | packages/cli/src/service-lifecycle.ts:512-729 | From every reachable world and under every plan install keeps the invariant and commits the requested release or nothing, or ends in one of those two ways. |
| `LifecycleProgress.InstallCompletesIff` | packages/cli/src/service-lifecycle.ts:528-663 | On a clean machine some run of install gets to its end exactly when the leftover releases are within the limit, a leftover of the same release was built for the same programs, and the final state can be read. |
| `LifecycleUpgrade.UpgradeCommitSafe` | packages/cli/src/service-lifecycle.ts:834-872 | The commit of an upgrade ends with the new release running and exactly the two releases kept, or is still recoverable to the previous release. |
| `LifecycleUpgrade.RollbackStepsSafe` | packages/cli/src/service-lifecycle.ts:873-889 | The rollback keeps the journal until the previous release is selected, loaded and settled. |
| `LifecycleCommands.NewerIsAnother` | packages/cli/src/service-lifecycle.ts:765-779 | A strictly newer version has another selector. |
| `LifecycleCommands.UpgradeSafe` | packages/cli/src/service-lifecycle.ts:731-906 | From every reachable world and under every plan upgrade keeps the invariant and moves the commitment only to a strictly newer release, kept with exactly its predecessor, or ends in a late rollback, which needs a status read that fails. |
| `LifecycleProgress.UpgradeCompletesIff` | packages/cli/src/service-lifecycle.ts:731-872 | On a coherent, idle installation some run of upgrade to another package gets to its end exactly when the package is strictly newer, the releases are within the limit, a running host has its companion, a leftover of the next release was built for the installed programs, and the final state can be read. |
| `LifecycleCommands.SetRunningSafe` | packages/cli/src/service-lifecycle.ts:330-369 | Start, stop and restart keep the invariant, the releases and the commitment wherever they stop; when start or restart returns the selected release runs with its companion, when stop returns neither runs. |
| `LifecycleUninstall.AdvanceSafe` | packages/cli/src/service-lifecycle.ts:3031-3043 | A stage may be claimed once its work is done; the stage never goes back and nothing else changes. |
| `LifecycleUninstall.ExecuteUninstallSafe` | packages/cli/src/service-lifecycle.ts:977-1063 | From any stage the run ends with nothing left, or stops at the same stage or a later one, resumable; if a path that has to survive is in the way nothing at all changes. |
| `LifecycleUninstall.UninstallSafe` | packages/cli/src/service-lifecycle.ts:908-940 | Uninstall, fresh or resumed, keeps the invariant and when it returns leaves no release, no artifact, no journal and no loaded unit. |
| `LifecycleOutcomes.PendingUninstallCompletesIff` | packages/cli/src/service-lifecycle.ts:977-1063 | A pending uninstall can be brought to its end exactly when the surviving paths are clear of its deletions and its journal fits at the last stage. |
| `LifecycleOutcomes.FreshUninstallCompletesIff` | packages/cli/src/service-lifecycle.ts:908-975 | A fresh uninstall can be brought to its end exactly when its checks pass and, if there is anything to remove, its journal fits at the last stage. |
| `LifecyclePaths.UninstallSpares` | packages/cli/src/service-lifecycle.ts:977-1063 | Under every plan, fresh or resumed: of everything on disk that is gone afterwards, no path that has to survive is the place, contains it or lies under it, unless it is a removed path written with a slash at its end. |
| `LifecyclePaths.SparedIff` | packages/cli/src/service-lifecycle.ts:1168-1200 | Where uninstall can be completed, every plan spares a path that has to survive exactly when it is not another spelling of the path of something that is there. |
| `LifecyclePaths.RecoveryTakes` | packages/cli/src/service-lifecycle.ts:2001-2128 | Of what is on disk, recovery takes away nothing but its journal, its staging tree and, with no previous release, selector, links, environment file and enablement, wherever it stops; when it returns all of these are gone. |
| `LifecyclePaths.PendingSparedIff` | packages/cli/src/service-lifecycle.ts:908-940 | With an install or upgrade pending, every plan of an uninstall spares a path that has to survive, and is no other spelling of a removed one, exactly when it is clear of what the recovery takes away. |
| `LifecycleRuns.RunKeepsInv` | packages/cli/src/service-lifecycle.ts:306-389 | Any sequence of launches, each cut off or failing at any step, keeps the installation recoverable, or one of them ended in one of the two ways of InstallSafe and UpgradeSafe. |
| `LifecycleRuns.EveryRunIsSound` | packages/cli/src/service-lifecycle.ts:306-389 | From an empty machine, unless a launch ended in one of those two ways: besides the files, the manager runs what is selected when nothing is pending, and knows the next release only in the phases after the switch. |
| `LifecycleRuns.RunAdvances` | packages/cli/src/service-lifecycle.ts:747-779 | Without an uninstall the committed version never goes down and rises strictly whenever the release changes, or a launch ended in one of those two ways. |
| `LifecycleFiles.EveryRunKeepsFiles` | packages/cli/src/service-lifecycle.ts:306-389 | In every run from an empty machine without exception: every published release and the selected one are complete, staging is named by the journal, and the release a live journal goes back to is there. |
| `LifecycleFiles.InstallRollbackFiles` | packages/cli/src/service-lifecycle.ts:664-727 | A rollback of an install keeps the files sound with its journal or without it. |
| `LifecycleFiles.UpgradeRollbackFiles` | packages/cli/src/service-lifecycle.ts:873-889 | A rollback of an upgrade keeps the files sound with its journal or without it. |
| `LifecycleLimits.InstallIsSafeIff` | packages/cli/src/service-lifecycle.ts:512-729 | On a clean machine install is safe to cut off at every point exactly when it cannot be carried out, or no leftover of its release was made for another environment file and the final state can be read. |
| `LifecycleLimits.UpgradeIsSafeIff` | packages/cli/src/service-lifecycle.ts:731-906 | On a coherent, idle installation upgrade is safe to cut off at every point exactly when it is to the installed package, or cannot be carried out, or the final state can be read. |
| `LifecycleLimits.MismatchIsForever` | packages/cli/src/service-lifecycle.ts:2060-2085 | Once an install of a mismatched leftover was cut off, no sequence of commands with any outcome of their steps changes anything any more. |
| `LifecycleLimits.UnreadStatusRollsBack` | packages/cli/src/service-lifecycle.ts:865-889 | An upgrade whose last status read fails is the completed upgrade followed by a rollback that has no journal. |
| `LifecycleLimits.CommittedUpgradeStaysIff` | packages/cli/src/service-lifecycle.ts:865-889 | After an upgrade committed, consistency survives every further failure and crash exactly when the last status read works; when it does not, a crash can leave the old release selected under the new definitions. |
| `LifecycleLimits.CommittedInstallStaysIff` | packages/cli/src/service-lifecycle.ts:656-727 | The same for an install. |
| `LifecycleWitnesses.MismatchIsReached` | packages/cli/src/service-lifecycle.ts:1527-1544 | Three launches on an empty machine lead to the mixture with a leftover, for every request and every other environment file, and nothing leads away from it. |
| `LifecycleWitnesses.UnreadInstallIsReached` | packages/cli/src/service-lifecycle.ts:656-727 | The first install on an empty machine, its status read failing, can be cut off where it is not recoverable. |
| `LifecycleWitnesses.UnreadUpgradeIsReached` | packages/cli/src/service-lifecycle.ts:865-889 | So can an upgrade of an installation that is reached from an empty machine. |
| `LifecycleWitnesses.InterruptedIsReached` | packages/cli/src/service-lifecycle.ts:906-940 | From an empty machine: an install that dies while it builds its release, and an uninstall whose recovery takes the staging tree although the releases directory has to survive, and which refuses only then. |
| `LifecycleWitnesses.LongJournalIsReached` | packages/cli/src/service-lifecycle.ts:942-1063 | A run from an empty machine leaves 64 releases with names a file system takes; no uninstall of them can be completed, and one that dies with its journal written leaves a machine on which no command changes anything. |
| `LifecycleWitnesses.UnreadableIsForever` | packages/cli/src/service-lifecycle.ts:917-923 | With an uninstall journal that is too long no sequence of commands changes anything. |
| `LifecycleHost.ServiceHost.RecoverPendingTransaction` | packages/cli/src/service-lifecycle.ts:2001-2128 | From a recoverable world it leaves a recoverable world with the same releases and commitment, and nothing pending when it returns; when its steps work it returns, on the previous release. |
| `LifecycleHost.ServiceHost.InstallService` | packages/cli/src/service-lifecycle.ts:512-729 | From a recoverable world, whatever fails and wherever it stops: recoverable again, and committed to what it was or to exactly the requested release with no other beside it, or one of the two ends of InstallSafe. |
| `LifecycleHost.ServiceHost.UpgradeService` | packages/cli/src/service-lifecycle.ts:731-906 | From a recoverable world, whatever fails and wherever it stops: recoverable again, and committed to what it was or to a strictly newer release with exactly its predecessor beside it, or the late rollback of UpgradeSafe. |
| `LifecycleHost.ServiceHost.UninstallService` | packages/cli/src/service-lifecycle.ts:908-940 | From a recoverable world, whatever fails and wherever it stops: recoverable again, nothing at all is left when it returns, and every surviving path that no recovery takes is clear of what is gone. |
| `LifecycleHost.ServiceHost.SetRunningService` | packages/cli/src/service-lifecycle.ts:330-369 | Start, stop and restart leave releases and commitment alone and the world recoverable; on return the selected release runs or is stopped as asked. |
| `LifecycleHost.ServiceHost.UpdatePhase` | packages/cli/src/service-lifecycle.ts:3007-3016 | Only the journal changes, and once its release is published a pending upgrade stays recoverable to the same release in every later phase. |
| `LifecycleHost.ServiceHost.RemoveJournal` | packages/cli/src/service-lifecycle.ts:3171-3176 | The journal of a change that is undone can go: what is left is idle, with the same releases and commitment. |
| `LifecycleHost.ServiceHost.RemoveStaging` | packages/cli/src/service-lifecycle.ts:2970-2983 | The staging tree the journal names can go at any point of a pending change, and then none is left. |
| `LifecycleHost.ServiceHost.PrepareRelease` | packages/cli/src/service-lifecycle.ts:1513-1640 | Touches nothing but the journal and the releases directory; from a clean start there is a staging tree and the releases as they were, or the complete new release and nothing staged. |
| `LifecycleHost.ServiceHost.Prepare` | packages/cli/src/service-lifecycle.ts:594-626 | From a suitable start it ends with the release complete and the journal marked, or with a world that recovery accepts, committed as before. |
| `LifecycleHost.ServiceHost.RemoveUnretained` | packages/cli/src/service-lifecycle.ts:2871-2885 | No retained release goes and none changes; on success none of the listed others is left. The loop is the recursive step. |
| `LifecycleHost.ServiceHost.Prune` | packages/cli/src/service-lifecycle.ts:2871-2890 | On success the releases are exactly the retained ones; on every outcome no retained release is gone, none has changed, and nothing but releases has. |
| `LifecycleHost.ServiceHost.PublishAnchors` | packages/cli/src/service-lifecycle.ts:2391-2401 | On success all four stable links are there; on every outcome no link is lost and nothing but links changes. |
| `LifecycleHost.ServiceHost.RemoveAnchors` | packages/cli/src/service-lifecycle.ts:2403-2412 | On success no link is left; nothing but links changes, and none is added. |
| `LifecycleHost.ServiceHost.PublishEnvironment` | packages/cli/src/service-lifecycle.ts:2378-2389 | Reports as created exactly a file that this call made, so that a rollback removes no file it found. |
| `LifecycleHost.ServiceHost.PlaceInstall` | packages/cli/src/service-lifecycle.ts:631-640 | The two flags tell exactly whether the file and the selector are there. |
| `LifecycleHost.ServiceHost.ActivateInstall` | packages/cli/src/service-lifecycle.ts:641-650 | The enablement is as before unless the flag says that enabling was asked for. |
| `LifecycleHost.ServiceHost.InstallCommit` | packages/cli/src/service-lifecycle.ts:627-663 | A flag that is not set tells that its artifact is not there when the commit stops. |
| `LifecycleHost.ServiceHost.InstallRollback` | packages/cli/src/service-lifecycle.ts:664-727 | Leaving out the clean-ups whose flag is not set loses nothing: outcome and world are those of the full clean-up of InstallRollbackSafe. |
| `LifecycleHost.ServiceHost.UpgradeCommit` | packages/cli/src/service-lifecycle.ts:834-872 | From a prepared upgrade it ends with the new release selected, no journal and exactly the two releases, or recoverable to the previous one. |
| `LifecycleHost.ServiceHost.UpgradeRollback` | packages/cli/src/service-lifecycle.ts:873-903 | Never reports success; while the journal is there it stays committed to the previous release, and it is idle on it when the rollback worked. |
| `LifecycleHost.ServiceHost.Advance` | packages/cli/src/service-lifecycle.ts:3031-3043 | The stage never goes back, only the journal changes, and claiming a stage whose work is done keeps the uninstall resumable. |
| `LifecycleHost.ServiceHost.ExecuteUninstall` | packages/cli/src/service-lifecycle.ts:977-1063 | From any stage nothing is left, or it can be resumed at the same stage or a later one; if a path that has to survive is in the way nothing changes. |
| `BrokerRequests.NextKeeps` | packages/codex-adapter/src/broker.ts:124-302 | Every handler keeps the account of ids: issued once, pending or settled once, remembered in order. |
| `BrokerRequests.EveryRunIsSound` | packages/codex-adapter/src/broker.ts:124-302 | In every run: pending, retired and completed ids are pairwise disjoint, every issued request is pending or settled exactly once, the limit holds, and a frame settles only requests of its own generation. |
| `BrokerGuarantees.MutationsRunAtMostOnce` | packages/codex-adapter/src/broker.ts:124-190 | If callers repeat a mutation only after an error marked safe to retry, then in every run at most one of its frames leaves. |
| `BrokerGuarantees.RetryableNeverLeft` | packages/codex-adapter/src/broker.ts:438-454 | When every earlier attempt at a mutation ended with an error marked safe to retry, none of its frames left. |
| `BrokerGuarantees.LateResponseIsDegraded` | packages/codex-adapter/src/broker.ts:264-274 | The first response to a retired request with fewer later retirements than the memory holds is only degraded and touches no promise. |
| `BrokerGuarantees.MemoryIsExact` | packages/codex-adapter/src/broker.ts:493-501 | While no late response has come, a response to a retired request is degraded exactly when fewer requests were retired after it than the memory holds, and fatal otherwise. |
| `BrokerGuarantees.SecondResponseIsFatal` | packages/codex-adapter/src/broker.ts:275-277 | Once a response was taken for an id, any later one, after whatever run, is fatal and changes nothing else. |
| `BrokerGuarantees.TakenResponseIsAnswered` | packages/codex-adapter/src/broker.ts:264-292 | A response that is accepted, on time or late, uses its id up. |
| `BrokerGuarantees.ClosedTransportRefuses` | packages/codex-adapter/src/broker.ts:128-131 | On a closed transport a call is refused as not sent before a frame is made, and no response is begun. |
| `BrokerGuarantees.NothingLeavesWhileClosed` | packages/codex-adapter/src/broker.ts:128-131 | Until the transport is open again no run of events issues a request or begins a response. |
| `BrokerReplies.NextKeepsOrder` | packages/codex-adapter/src/broker.ts:320-436 | Every handler keeps the account of server requests and of the responses tried for them. |
| `BrokerReplies.OneResponsePerRequest` | packages/codex-adapter/src/broker.ts:389-436 | In every run at most one response frame of each server request instance leaves, and another is tried only when the earlier ones did not leave. |
| `BrokerReplies.OldResponseTouchesOnlyItsOwn` | packages/codex-adapter/src/broker.ts:414-432 | The end of a response changes no entry but its own, even when a newer request uses the same id. |
| `BrokerHost.RequestBroker.Request` | packages/codex-adapter/src/broker.ts:124-190 | Keeps both accounts: a call is refused without an id, refused with its id used up, or entered under a new id and at most at once given up. |
| `BrokerHost.RequestBroker.Remember` | packages/codex-adapter/src/broker.ts:493-501 | Dropping the oldest one by one leaves exactly the latest ids up to the limit. |
| `BrokerHost.RequestBroker.Retire` | packages/codex-adapter/src/broker.ts:380-387 | Exactly the request with this id is no longer pending, its promise is rejected once and its id is the latest remembered; any other id changes nothing. |
| `BrokerHost.RequestBroker.SendRejected` | packages/codex-adapter/src/broker.ts:179-188 | Keeps both accounts: a late send failure settles its request, if nothing else has. |
| `BrokerHost.RequestBroker.Cancel` | packages/codex-adapter/src/broker.ts:367-378 | Keeps both accounts under timeouts and aborts. |
| `BrokerHost.RequestBroker.FailPending` | packages/codex-adapter/src/broker.ts:456-469 | The loop over a snapshot gives up every pending request, in insertion order, each once. |
| `BrokerHost.RequestBroker.ReceiveMessage` | packages/codex-adapter/src/broker.ts:230-302 | Keeps both accounts for every frame: stale, malformed, response, notification or server request. |
| `BrokerHost.RequestBroker.Claim` | packages/codex-adapter/src/broker.ts:389-403 | Lets a response go out exactly when the entry is of the open generation and has none under way; an entry of a closed generation is dropped. |
| `BrokerHost.RequestBroker.StartReply` | packages/codex-adapter/src/broker.ts:405-418 | Keeps both accounts: at most one response of an entry is under way. |
| `BrokerHost.RequestBroker.FinishReply` | packages/codex-adapter/src/broker.ts:418-435 | Keeps both accounts: an entry can be answered again only after a send that did not leave. |
| `BrokerHost.RequestBroker.TransportClose` | packages/codex-adapter/src/broker.ts:239-243 | Keeps both accounts; nothing is pending on either side afterwards, unless the broker was closed before and nothing happens. |
| `BrokerHost.RequestBroker.Close` | packages/codex-adapter/src/broker.ts:222-228 | Keeps both accounts; it is closed, and the first close leaves nothing pending on either side. |
| `Connection.NextKeeps` | packages/codex-adapter/src/connection.ts:134-384 | Every handler and continuation keeps the account of the handshake, the queue and the gate. |
| `Connection.DeliveriesAreOrderly` | packages/codex-adapter/src/connection.ts:309-358 | In every run nothing is delivered before the initialized notification, deliveries are in arrival order and never repeated, the queue stays bounded, and a completed handshake has lost nothing. |
| `Connection.BlockedUntilConnected` | packages/codex-adapter/src/connection.ts:360-384 | After a degraded issue other than a late response, or a closed transport, no run opens the gate before a handshake completes. |
| `Connection.LateResponsesNeverBlock` | packages/codex-adapter/src/connection.ts:360-373 | Late responses alone, however many, never shut the gate. |
| `Connection.GateShutsIff` | packages/codex-adapter/src/connection.ts:239-384 | Of all events that are possible while the gate is open, exactly these shut it: a closed transport, a degraded issue other than a late response, a first close, the end of a close, and a reconnect that is not refused. |
| `Connection.ReadyMayBeClosed` | packages/codex-adapter/src/connection.ts:190-221 | A run from a fresh connection, with its transport open until just before the end, that ends ready with an open gate on a closed transport. |
| `Connection.ReadyMayBeLeaving` | packages/codex-adapter/src/connection.ts:191-302 | A run from a fresh connection in which the owner closes it between the last response and the step that takes it up: it ends ready with an open gate, closed for good, its transport closing. |
| `Connection.ReadyIsOpenIff` | packages/codex-adapter/src/connection.ts:182-221 | From the step that sends the initialized notification to the one that makes the connection ready: it is ready on an open transport exactly when in between the transport did not close and nobody closed the connection. |
| `Connection.ClosingOpensIff` | packages/codex-adapter/src/connection.ts:246-373 | While a connection is being closed or recycled exactly one event opens its gate: the last handshake response, if it had come before; nothing that arrives does. |
| `Connection.RecyclingMayFail` | packages/codex-adapter/src/connection.ts:246-264 | A run from a fresh connection in which a reconnect finds that its transport cannot be closed: the connection stays closing, at rest. |
| `Connection.RecyclingSticksIff` | packages/codex-adapter/src/connection.ts:246-264 | A reconnect that cannot close its transport leaves the connection closing exactly when the transport has not reported its end in the meantime. |
| `Connection.FailedRecyclingSticks` | packages/codex-adapter/src/connection.ts:134-264 | From there no run without a close by the owner gets the connection out of closing: it neither connects nor reconnects. |
| `ConnectionHost.AppServerConnection.Handle` | packages/codex-adapter/src/connection.ts:134-384 | One turn of the event loop takes exactly the step of the state machine and keeps its account. |
| `ConnectionHost.AppServerConnection.Flush` | packages/codex-adapter/src/connection.ts:351-358 | The loop delivers the queue in order, all of it or up to the message at which a consumer fails. |
| `ConnectionHost.AppServerConnection.NotifyReady` | packages/codex-adapter/src/connection.ts:184-194 | Keeps the account; nothing is delivered unless the initialized notification went out, and then the queue from its front, all of it when the attempt goes on. |
| `ConnectionHost.AppServerConnection.Receive` | packages/codex-adapter/src/connection.ts:309-349 | Keeps the account; a message is delivered, queued behind the others, or ends the connection, never two of these. |
| `ConnectionHost.AppServerConnection.ReceiveIssue` | packages/codex-adapter/src/connection.ts:360-373 | Keeps the account; mutations stay allowed exactly when the issue is not degraded or is a late response. |
| `ConnectionHost.AppServerConnection.ReceiveTransportClose` | packages/codex-adapter/src/connection.ts:375-384 | Keeps the account; gate and transport are shut, and nothing is queued. |
| `ConnectionHost.AppServerConnection.CloseReady` | packages/codex-adapter/src/connection.ts:222-237 | Keeps the account; a failed attempt ends at rest, disconnected or incompatible, with gate and transport shut and nothing queued. |
| `ConnectionHost.AppServerConnection.Connect` | packages/codex-adapter/src/connection.ts:134-165 | Keeps the account; an attempt starts only from rest, of a supported version, with nothing queued, over a transport that is shut, and never opens the gate. |
| `ConnectionHost.AppServerConnection.Reconnect` | packages/codex-adapter/src/connection.ts:246-264 | Keeps the account; an open transport is taken down first, an attempt starts at once only over one that is shut, and unless it is refused the gate is shut. |
| `ConnectionHost.AppServerConnection.Close` | packages/codex-adapter/src/connection.ts:289-307 | Keeps the account; no connect and no reconnect does anything afterwards, and the first close shuts the gate and leaves the transport closing or shut. |
| `ConnectionHost.AppServerConnection.Admit` | packages/codex-adapter/src/connection.ts:239-244 | What is admitted comes after a handshake that failed nowhere and delivered every message it accepted. |
| `Loopback.HasValidBoundedRawHeaders` | packages/cli/src/loopback-http.ts:680-701 | True exactly when the raw headers pair up, are few enough and their size on the wire is within the limit. |
| `Loopback.RawHeaderValues` | packages/cli/src/loopback-http.ts:669-678 | All values of one header, in order. |
| `Loopback.ReadResponseFraming` | packages/cli/src/loopback-http.ts:614-667 | Accepts exactly the responses with one JSON content type, no content coding, and one length, declared or chunked, never both (stricter than section 6.3 of RFC 9112); a declared length is within the limit. |
| `Loopback.SuccessIsWhatCameIn` | packages/cli/src/loopback-http.ts:486-541 | Whatever arrives in whatever order, the promise is settled at most once, and a success is the concatenation of the chunks, within the limit and of the declared length. |
| `Loopback.CounterIsRunningCalls` | packages/cli/src/loopback-http.ts:77-122 | In every run, with fetches of different limits on the one counter, it is the number of running calls and never above the largest limit. |
| `Loopback.AdmittedIff` | packages/cli/src/loopback-http.ts:103-120 | In every run a fetch admits a call exactly when fewer calls run, whoever made them, than its own limit. |
| `Loopback.LoopbackCall.OnResponse` | packages/cli/src/loopback-http.ts:465-489 | Keeps the account of one call; the buffer is never larger than the limit. |
| `Loopback.LoopbackCall.Copy` | packages/cli/src/loopback-http.ts:501-502 | In place, the buffer becomes its old contents with as much of the chunk laid over them as fits. |
| `Loopback.LoopbackCall.OnData` | packages/cli/src/loopback-http.ts:490-504 | Keeps the account: the bytes so far are the received ones, or the call is over. |
| `Loopback.LoopbackCall.OnEnd` | packages/cli/src/loopback-http.ts:505-541 | Keeps the account: a success carries exactly what came in. |
| `Loopback.LoopbackCall.Stop` | packages/cli/src/loopback-http.ts:404-433 | Timers, aborts and errors settle the promise only if nothing else has. |
| `Loopback.LoopbackFetch.Begin` | packages/cli/src/loopback-http.ts:98-111 | Admits exactly when fewer calls run in the whole process than its own limit, and counts what it admits. |
| `Loopback.LoopbackFetch.Finish` | packages/cli/src/loopback-http.ts:112-121 | A call that ran is taken off the count of the process whatever became of it; the count stays the number of running calls. |
| `SystemdUnits.ChainIsOnePass` | packages/cli/src/systemd-user-units.ts:614-621 | The chain of replacements for a quoted word is one pass over its characters. |
| `SystemdUnits.WordRoundTrip` | packages/cli/src/systemd-user-units.ts:614-621 | A quoted word is read back as its value, whatever follows it, for every value. |
| `SystemdUnits.PathChainIsOnePass` | packages/cli/src/systemd-user-units.ts:623-630 | The chain of replacements for a path setting is one pass over its characters. |
| `SystemdUnits.FilePathRoundTrip` | packages/cli/src/systemd-user-units.ts:623-630 | A path setting is read back unchanged, for every path. |
| `SystemdUnits.RenderHostDeckUnit` | packages/cli/src/systemd-user-units.ts:569-596 | Read back line by line the text starts exactly the two programs, sets exactly the one variable and names the environment file, if any, that it was generated for, once each. |
| `SystemdUnits.HostUnitReadsBack` | packages/cli/src/systemd-user-units.ts:569-596 | The lines of the unit are exactly the intended ones, and each setting among them occurs once and decodes to its input. |
| `ServiceEnvironment.ValueRoundTrip` | packages/cli/src/service-install-manifest.ts:686-688 | A quoted environment value is read back unchanged. |
| `ServiceEnvironment.RenderEnvironment` | packages/cli/src/service-install-manifest.ts:206-226 | The loop over the optional keys collects exactly those present, and the file has one line per value in key order. |
| `ServiceEnvironment.EnvironmentReadsBack` | packages/cli/src/service-install-manifest.ts:206-226 | The environment file is read back as exactly the values that went in, each key once. |
| `ServiceEnvironment.LinesAreInKeyOrder` | packages/cli/src/service-install-manifest.ts:218-220 | The lines are strictly increasing in the key. |

## Left out

- The branch of uninstall for a missing data root: it only reads.
- Files in the data root that no command makes, temporary names of half-done renames, owners, modes and
  symbolic-link checks: the steps stand for the whole operation, and the checks for its verdict.
- Half-removed trees: a tree removal is one step.
- Waiting and polling: a check that is repeated until it holds or times out is one check.
- The version probe of the companion program, the readiness request, and the check that the companion's
  process is the same one before and after an upgrade restarts the host: further checks that may fail.
- The text of error messages and the aggregation of several errors into one.
- LifecycleHost.ServiceHost.InstallService: the environment's answers come from the `plan` field, and what
  a status result reports is not modelled.
- Two handshakes at once: a call of connect while another attempt, or the recycling of a reconnect, is
  suspended. The code does not rule it out, and the model takes one attempt at a time.
- A consumer of protocol issues that throws, and the transport's own shutdown after a fatal issue: a
  later close event stands for it.
- The install manifest's own schema and cross-field checks: a manifest is a record, printed by the printer
  of the journals, and its agreement with the release directory is one predicate.
- Frame decoding, request encoding, the schemas of compatibility and the resource budgets: verdicts of
  the environment and limits.
- BrokerHost.RequestBroker.Request: checks of the shape of the input object are one flag.
- Loopback.LoopbackCall.OnEnd: UTF-8 decoding and JSON parsing are one verdict, and the result is the
  body's bytes.
- Loopback.ReadResponseFraming: white space is space, tab, line feed and carriage return only.
- The refusal of directories that overlap when the layout is worked out: `Paths.Separate` is only asked
  for where it is needed.
- Timers and the socket events of the HTTP client: each is an event that stops the call.
- Locale order of keys is code-unit order, which is the same for the keys that occur.
- The companion's unit file: it is built like the host's from the same encodings.
- The per-command HTTP clients, the argument parser, the shell and the rendering of results: thin
  wrappers around the parts above.
