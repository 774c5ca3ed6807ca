# Verified models of the container-orchestration core

A Dafny 4.11 model of the parts of this repository whose correctness rests on protocols rather than on
single functions, with proofs that hold for every input, every interleaving and every answer of the
collaborators.

- **The content-addressed image store.** `StoreProtocol` is a transition system: any number of Get, Refresh
  and Verify calls from any number of processes over one blob directory, one system call per step, with
  process kills, power loss, outside bit-rot and the start-up sweep of other processes. A power loss turns
  unflushed data into anything and lets each directory entry come back as any of those it has had since the
  last directory fsync. `StoreInvariants` proves what every step keeps, `StoreTheorems` what follows for
  whole runs, `StoreOutcomes` how each call ends and what it has done by then, told from its steps, `StoreReuse` why a
  live temp name must not be handed out again, `StoreNames` that file names can be identified with what they stand for.
  SHA-256 is a parameter: the results hold for every hash function.
- **The distributor.** `Distribution.DefaultDistributor` carries a ghost set of the containers really live on
  hosts. A round, a failover and an Undistribute are described exactly, with an answer of its own for every host
  lookup, start and removal. `DistributionHistory` says, over every history, when tracking and reality agree, when
  the open tunnels are the recorded ones, and how often a volume can come up. `Wiring` is the tunnel and volume
  set-up with its managers, `Handover` the concurrent hand-over of placement lists. `DistributionRaces` is what
  concurrent calls do to the containers that run, and `ApartCalls` what is known about calls that keep apart.
  `WiringFacts` and `DistributionFacts` read every operation off the fields of its inputs.
- **The boot sequence.** `Boot.BootManager` runs discovery, compose groups, distribution, health checks and
  rollback against arbitrary answers and any map order, with a trace of the commands issued. `BootVerdict`
  separates what the answers decide from what map order decides, and `BootFacts` reads results, counters and commands
  off the endpoints and the answers.
- **Shell commands.** `ShellTokens` is the token recognition of IEEE Std 1003.1-2017, Shell Command Language,
  sections 2.2.1 to 2.2.3, 2.3 and 2.10.1; `ShellQuoting` proves the quoting styles inverse to it;
  `RemoteCommands` builds the real command lines and proves what the shell reads; `CommandFacts` spells it out word
  by word.
- **Build artifacts and output.** `LexicalPaths` is the cleaning of paths and link targets against what a text means,
  read from its end; `ArtifactCopy` copies a tree within one file system under arbitrary failures;
  `OutputCapture` is the bounded output buffer against an unbounded one.
- **The SSH tunnel.** `Tunnel` interleaves the child, its watcher, the readiness loop and any number of Down calls;
  `TunnelFacts` tells from the steps how TunnelUp ends.
- **The process reapers.** `Reaper` is the find, TERM, poll, KILL escalation shared by the emulator and
  Cuttlefish clean-ups; `ReaperFacts` says whom it signals and what it reports in terms of the process table.

To check the whole project: `dafny verify dfyconfig.toml`.

Several claims one would like to make are false of the code as it stands. Each comes with a concrete example
and the exact condition under which it holds:

- Tracking and reality can come apart in one call (`Distribution.LeakExample`): a local container that is
  redeployed in place and fails to start keeps running untracked, and so does an old placement whose removal has no
  effect, or a new container that cannot be wired and is not removed again. `Distribution.RoundAgreesIffClean` and
  `DistributionHistory.HistoryAgreesIffClean` give the condition.
- They can come apart between concurrent calls (`DistributionRaces.RaceExample`): an Undistribute may remove what a
  Distribute has just redeployed. `DistributionRaces.AccountedIffClean` gives the condition step by step, and
  `ApartCalls` over schedules: calls that keep off each other's instances, in particular calls that do not overlap,
  lose exactly the tracked instances that a round tried, left untouched and published over.
- Old tunnels stay open after a relocation (`DistributionHistory.DroppedExample`), and of two mappings with one remote
  port only one tunnel is recorded (`DistributionHistory.OverwrittenExample`). `DistributionHistory.TunnelsAgreeIff`
  says when the open tunnels are those recorded with the tracked containers.
- A failed wiring can leave volumes registered (`Wiring.LeftoverExample`): rsync mounts cannot be unmounted and a
  mount that fails at the host keeps its name. `Wiring.WireRestoresIff` gives the condition.
- The verdict of a boot can depend on map order, because a partial distribution is attributed by count
  (`BootVerdict.VerdictExample`) and because the first profile found in a compose group is used for all of it
  (`BootVerdict.ProfileExample`). `BootVerdict.VerdictFixedIff` gives the condition.
- A successful TunnelUp does not imply a living child (`Tunnel.DeadChildReported`). `Tunnel.DeadSuccessIff` and
  `Tunnel.GraceVouchesIff` give the condition over runs.
- A directory artifact cannot be copied into itself (`ArtifactCopy.SelfCopyExample`): the copy descends into its own
  output until the path is too long. A failed copy is without trace only where there was nothing before, and a file
  copied onto itself is emptied. `ArtifactCopy.FileSystem.CopyFile` gives the conditions.

Assumptions, all of them visible in the definitions: `stat` tells the truth; a temp name is not handed out while
another call that was given it may still publish it (such a name can only be free because a start-up sweep removed
the file, and `StoreReuse` shows what happens then); the blob directory itself and its parents are durable; names in
a scheduling batch are unique; a failed start leaves nothing new running; a remote start that succeeds has replaced
what ran under its name; closing a tunnel works; two runs of the boot manager with the same answers get them
whatever order they ask in; removing a failed artifact copy works, and the directory it goes into existed before.

## Model

| member | source | states |
|---|---|---|
| StoreNames.NormalizeSHA256 | pkg/cache/store.go:184-193 | accepted exactly for 64 hexadecimal characters of either case; the result is a canonical address that can be no path |
| StoreNames.NormalizeCanonical | pkg/cache/store.go:184-193 | normalising twice changes nothing, and two digests agree afterwards exactly when they differ in letter case only |
| StoreNames.FileNameInjective | pkg/cache/store.go:95-126 | blobs, downloads and quarantined samples never share a file name, whatever addresses and numbers |
| StoreNames.SweepSeesOnlyTemps | pkg/cache/store.go:77-90 | the sweep's prefix test matches downloads and nothing else the store creates |
| StoreNames.BlobDirectory.QuarantinePath | pkg/cache/store.go:115-126 | the search ends, at the first sidecar name no file uses, after at most as many tries as there are files |
| StoreNames.BlobDirectory.SweepStaleIncoming | pkg/cache/store.go:77-90 | removes the leftover downloads it can and keeps every other file with its identity |
| StoreTheorems.SectionsAreExclusive | pkg/cache/store.go:99-105 | in every execution two calls holding the lock for one address are the same call, although locks are keyed by an eight-character prefix |
| StoreInvariants.InvStep | pkg/cache/store.go:245-539 | every step of every call, kill, power loss, bit-rot and sweep keeps the protocol invariant |
| StoreInvariants.InvAlways | pkg/cache/store.go:245-539 | the invariant holds at every moment of every execution |
| StoreTheorems.BlobsAreSound | pkg/cache/store.go:297-404 | any file at a blob address hashes to that address unless an outside step changed it, at every moment of every interleaving |
| StoreTheorems.RecoveredBlobsAreSound | pkg/cache/store.go:297-404 | the same of whatever a power loss at any moment leaves behind |
| StoreTheorems.UntamperedBlobsMatch | pkg/cache/store.go:297-404 | without outside corruption every blob's bytes hash to its address |
| StoreTheorems.OnlyTwoWaysToChange | pkg/cache/store.go:316-336 | in every execution, short of a power loss, an address changes only by the rename of a verified download for that address or by a Verify removing the file it found there |
| StoreTheorems.BlobOutlivesFailures | pkg/cache/store.go:348-404 | whichever steps fail, an address that held a blob holds one as long as no Verify removes it |
| StoreTheorems.FailedFetchKeepsBlob | pkg/cache/store.go:297-346 | a failing Get or Refresh leaves the entry it found, or, only after a failed directory fsync, the newly verified file |
| StoreTheorems.DriftWitness | pkg/cache/store.go:441-472 | a Verify that judged drift hashed the very file that has been at the address ever since |
| StoreTheorems.VerifyRemovesWhatItHashed | pkg/cache/store.go:421-502 | what Verify moves aside or removes is the file it hashed and found wrong, never one published in between, and no sidecar is taken over |
| StoreTheorems.GetDownloadsOnce | pkg/cache/store.go:256-314 | between two publications by Get at one address lies a removal by Verify or a power loss |
| StoreTheorems.DeadlockFree | pkg/cache/store.go:195-233 | while any call is unfinished, it or a lock holder it waits for can take its next step |
| StoreTheorems.CallTakesBoundedSteps | pkg/cache/store.go:245-539 | in every execution a call takes at most 21 steps and one more per file the directory ever held, apart from received chunks |
| StoreTheorems.ProbeBounded | pkg/cache/store.go:115-126 | during any run the sidecar search stays within the number of files in the directory |
| StoreTheorems.SamplesSurvive | pkg/cache/store.go:77-126 | no step and no sweep overwrites, moves or deletes a quarantined sample or changes its bytes, and no power loss once it is durable |
| StoreTheorems.PublicationIsDurable | pkg/cache/store.go:333-346 | a fetch that returns without error has made its blob durable, as far as the blob directory itself is |
| StoreTheorems.DurableBlobSurvives | pkg/cache/store.go:297-346 | a durable blob outlives any number of power losses until a fetch replaces it or a Verify removes it |
| StoreOutcomes.VerifyOkIff | pkg/cache/store.go:421-502 | in every execution a Verify is certain to return without error if and only if it has read the file at its address and the bytes hash to the address |
| StoreOutcomes.VerifyReadsIff | pkg/cache/store.go:431-452 | a finished Verify has read the file if and only if none of its steps was refused and there was a file to open |
| StoreOutcomes.DriftIsHandled | pkg/cache/store.go:456-502 | after reading wrong bytes a Verify does not return before it has moved the file aside or removed it, leaving the address empty, unless the host refuses both |
| StoreOutcomes.RemovalIsDurable | pkg/cache/store.go:473-500 | what Verify removed stays removed: after its directory fsync the address is empty and no power loss brings a file back |
| StoreOutcomes.FetchOkIff | pkg/cache/store.go:245-404 | a finished Get or Refresh returns without error if and only if a look found a blob, or no step was refused, the server sent bytes of the right hash and size, and the download was still there to be renamed; a Refresh never looks |
| StoreOutcomes.FetchPlaces | pkg/cache/store.go:316-346 | a fetch that succeeds without having found a blob has put a flushed file with exactly the bytes the server sent at its address |
| StoreOutcomes.LooksBeforeDownload | pkg/cache/store.go:256-314 | a Get downloads only after looking in vain three times: at once, after taking its mutex, and after taking the lock of its address |
| StoreOutcomes.NoDebris | pkg/cache/store.go:359-403 | a fetch that has created a download returns only after publishing or removing it, unless the removal is refused |
| StoreOutcomes.OwnDownloadOnly | pkg/cache/store.go:316-403 | a call renames and removes only a download it has created itself |
| StoreOutcomes.WaitsIff | pkg/cache/store.go:195-233 | a call waits for an address lock exactly while another call holds one with the same first eight characters, and for its mutex exactly while a call of the same process and image holds it |
| StoreOutcomes.LogTells | pkg/cache/store.go:316-500 | the log of publications and removals that other theorems speak of grows by exactly the steps that publish and remove |
| StoreReuse.ReuseBreaksIntegrity | pkg/cache/store.go:77-90 | in any state, handing the swept name of a call about to publish to another call leads in three steps to wrong bytes under an address |
| StoreReuse.ReusedTempNameBreaksIntegrity | pkg/cache/store.go:77-90 | such a run exists from an empty directory |
| Wiring.RemoteLinks.CreateTunnel | pkg/network/tunnel.go:248-270 | a local port that carries a tunnel is refused; otherwise exactly the effective port is added |
| Wiring.RemoteLinks.Mount | pkg/volume/manager.go:84-198 | succeeds exactly for a new name, a free remote path and a host that mounts; a mount that fails at the host stays registered as failed |
| Wiring.RemoteLinks.Unmount | pkg/volume/manager.go:200-304 | the entry goes exactly when an sshfs or nfs mount is unmounted by its host; otherwise it stays, marked failed if the host was asked |
| Wiring.RemoteLinks.UnmountAll | pkg/volume/manager.go:417-435 | exactly the mounts that cannot be unmounted stay registered |
| Wiring.RemoteLinks.OpenTunnels | pkg/distribution/distributor.go:477-517 | succeeds exactly when every positive port can be tunnelled in turn, with the exact set of open tunnels, else none of them stays; the record by remote port is given in both cases |
| Wiring.RemoteLinks.MountVolumes | pkg/distribution/distributor.go:519-545 | which request fails follows from the answers, and so does every registered mount afterwards |
| Wiring.RemoteLinks.WireTunnelsAndVolumes | pkg/distribution/distributor.go:470-547 | how it ends, the open tunnels, the registered mounts and the recorded ports are exactly those the answers decide; a local container changes nothing |
| Wiring.WireRestoresIff | pkg/distribution/distributor.go:477-545 | a failed wiring leaves tunnels and mounts as they were if and only if the failed mount was not registered and each earlier one can be unmounted |
| Wiring.WireTunnels | pkg/distribution/distributor.go:470-547 | a wiring only adds tunnels, and adds none unless it completes |
| Wiring.WireKeepsMounts | pkg/distribution/distributor.go:519-545 | no wiring unregisters a mount that was there before |
| Wiring.CompleteMounts | pkg/distribution/distributor.go:519-545 | a completed wiring found each requested volume unregistered and leaves it registered |
| Wiring.RecordsAllIff | pkg/distribution/distributor.go:482-516 | of the tunnels a container opens, all are recorded if and only if its remote ports are pairwise different |
| Wiring.LeftoverExample | pkg/volume/manager.go:177-277 | an rsync mount and a mount failing at the host stay registered after a failed wiring |
| WiringFacts.RemotePortReads | pkg/distribution/distributor.go:489-492 | a tunnel leads to the host port if there is one, else to the container port, in decimal |
| WiringFacts.LocalPortReads | pkg/distribution/distributor.go:510-513 | the local port is the one reported, else the remote one |
| WiringFacts.MountReads | pkg/volume/manager.go:84-198 | what a request to mount makes of the registered volumes, case by case |
| WiringFacts.UnmountReads | pkg/volume/manager.go:200-304 | what a request to unmount makes of them, case by case |
| WiringFacts.CompleteIff | pkg/distribution/distributor.go:477-545 | a wiring completes if and only if every positive port is granted a local port of its own that nobody uses, where tunnels are enabled, and every volume is new in name and remote path and mounted by its host |
| WiringFacts.CompleteLeaves | pkg/distribution/distributor.go:477-545 | a completed wiring adds exactly those local ports and those volumes, each on its own host or the container's |
| Distribution.DefaultDistributor.TeardownContainer | pkg/distribution/distributor.go:617-664 | the instance is gone exactly when the collaborators are configured, the host is found and the command takes effect; an error is reported exactly for a remote host without them or not found, and for an issued command that fails |
| Distribution.DefaultDistributor.DeployContainer | pkg/distribution/distributor.go:412-443 | the outcome, with the recorded ports, follows from host, configuration, links and answers; a started remote container stays up exactly when the wiring completes, else it is removed or stranded as its own lookup and removal say; tunnels and mounts are exactly those of the wiring |
| Distribution.DefaultDistributor.ReconcileRelocations | pkg/distribution/distributor.go:675-713 | exactly the old live placements not redeployed in place are taken down, where the removal takes effect |
| Distribution.DefaultDistributor.DeployAll | pkg/distribution/distributor.go:95-176 | outcomes, placement with recorded ports, live set, tunnels, mounts and counters after the deploy loop, cancelled and zero-score decisions included |
| Distribution.DefaultDistributor.Distribute | pkg/distribution/distributor.go:63-192 | the new placement, the live set, the links and the counters; tracking and reality agree afterwards if and only if the round was clean |
| Distribution.DefaultDistributor.Rebalance | pkg/distribution/distributor.go:353-370 | the same, counters included, for a round over the tracked requirements |
| Distribution.DefaultDistributor.Undistribute | pkg/distribution/distributor.go:195-251 | nothing tracked, no tunnel open, only volumes that cannot be unmounted left, the exact list of failed teardowns, and nothing live if and only if every live placement is taken down |
| Distribution.DefaultDistributor.CheckAndFailover | pkg/distribution/failover.go:26-134 | exactly the containers on offline hosts are affected, in order, with the scheduler's hosts; only running ones are marked migrating, and what needs teardown stays the same |
| Distribution.RoundExact | pkg/distribution/distributor.go:63-192 | after a round, reality is tracking plus exactly the leaked and stranded instances, disjointly |
| Distribution.RoundAgreesIffClean | pkg/distribution/distributor.go:675-713 | agreement survives a round if and only if each live placement is cleared by its redeployment in place or taken down, and each container that cannot be wired is removed again |
| Distribution.LeakExample | pkg/distribution/distributor.go:549-577 | a concrete round that leaves a container running untracked |
| Distribution.FlipKeepsTeardown | pkg/distribution/failover.go:101-114 | failover never changes which entries need teardown, nor their hosts and names |
| DistributionFacts.RunningIff | pkg/distribution/distributor.go:95-160 | entry by entry: a decision's container runs after a round if and only if the context was live, its score is not zero, its host can be commanded, the start worked and, on a remote host, ports and volumes could be wired; otherwise it has failed |
| DistributionFacts.TunnelsBefore | pkg/distribution/distributor.go:477-517 | the tunnels open when a decision is reached are those of before and those of the remote containers up by then |
| DistributionFacts.InstanceAfterRound | pkg/distribution/distributor.go:95-192 | whether the instance of a decision is live after a round, for every way its attempt can go |
| DistributionFacts.OtherInstances | pkg/distribution/distributor.go:675-713 | every other instance is live if it was and no old placement of it was taken down |
| DistributionFacts.NothingAttempted | pkg/distribution/distributor.go:103-131 | a round of cancelled and zero-score decisions opens, mounts and starts nothing and leaves only failed entries |
| DistributionFacts.SummaryReads | pkg/distribution/distributor.go:141-176 | the counters are the numbers of running entries here and elsewhere and of all others |
| DistributionFacts.TeardownErrorsRead | pkg/distribution/distributor.go:223-251 | the reported names are those whose teardown goes wrong, in order, and no others |
| DistributionFacts.UndistributeReads | pkg/distribution/distributor.go:195-251 | what is live and mounted after an Undistribute, instance by instance and volume by volume |
| DistributionFacts.OfflineReads | pkg/distribution/failover.go:43-63 | a host is offline if and only if some container on it finds it unknown or unreachable |
| DistributionFacts.AffectedRead | pkg/distribution/failover.go:69-83 | one action for each container on an offline host, in order, and no others |
| DistributionFacts.RehostedReads | pkg/distribution/failover.go:116-131 | the suggested hosts are handed out position by position |
| DistributionFacts.FailoverReads | pkg/distribution/failover.go:101-114 | a container is marked migrating exactly when it is running and one of its name is on an offline host; nothing else changes |
| DistributionHistory.OperationExact | pkg/distribution/distributor.go:63-251 | each operation keeps agreement if and only if it is clean; a clean Undistribute leaves nothing live |
| DistributionHistory.HistoryAgreesIffClean | pkg/distribution/distributor.go:63-251 | over every history of rounds, failovers and Undistributes, live equals tracked throughout if and only if each operation was clean |
| DistributionHistory.TunnelsAgreeIff | pkg/distribution/distributor.go:477-517 | over every history the open tunnels are those recorded with the tracked containers throughout if and only if no round starts while one is recorded and the remote ports of each container that comes up are pairwise different |
| DistributionHistory.OverwrittenExample | pkg/distribution/distributor.go:511-515 | one port published for TCP and UDP: two tunnels open, one recorded |
| DistributionHistory.DroppedExample | pkg/distribution/distributor.go:675-713 | a container dropped in the next round leaves its tunnel open |
| DistributionHistory.VolumeComesUpOnce | pkg/distribution/distributor.go:519-545 | over every history, remote containers that ask for a volume of one name come up twice only in different rounds with an Undistribute in between |
| DistributionRaces.StepExact | pkg/distribution/distributor.go:95-251 | each deploy attempt, critical section and removal of concurrent calls keeps the account of what runs if and only if it is clean |
| DistributionRaces.AccountedIffClean | pkg/distribution/distributor.go:95-251 | in every interleaving what is held runs and what runs is owned, throughout, if and only if every step is clean |
| DistributionRaces.QuietAgrees | pkg/distribution/distributor.go:177-251 | then, once no call is in progress, exactly what is tracked runs |
| DistributionRaces.RaceExample | pkg/distribution/distributor.go:206-234 | an Undistribute removes what a concurrent Distribute redeployed and publishes as running |
| ApartCalls.ApartExact | pkg/distribution/distributor.go:95-251 | over every interleaving of calls that keep apart, at every moment what is held runs, and what runs is either owned or was left untouched by a round that published over it and not touched since, never both |
| ApartCalls.QuietExact | pkg/distribution/distributor.go:177-251 | once those calls are over, exactly what is tracked runs, plus what was lost that way; both are equal if and only if nothing was lost |
| ApartCalls.ApartAccountedIff | pkg/distribution/distributor.go:95-251 | such calls keep the account throughout if and only if no round publishes over a tracked instance that its attempt left untouched |
| ApartCalls.OneByOneIsApart | pkg/distribution/distributor.go:63-251 | calls that do not overlap in time keep apart |
| ApartCalls.RaceIsNotApart | pkg/distribution/distributor.go:206-234 | the race has an attempt at an instance that the other call is still to remove |
| Handover.InvStep | pkg/distribution/distributor.go:177-213 | every critical section keeps each published list with exactly one owner |
| Handover.EachListHasOneOwner | pkg/distribution/distributor.go:177-213 | in every interleaving a published list is current or was taken over exactly once, with the teardown obligations it was published with |
| Handover.TakenListIsStable | pkg/distribution/failover.go:101-114 | a list taken over by a Distribute never changes again, so reading it outside the lock is safe |
| Handover.TakenByTheNextCall | pkg/distribution/distributor.go:177-213 | the call that replaces or clears a list has it for good, as it was at that moment; after an Undistribute the list itself reads as stopped, entry by entry |
| Handover.MarkReads | pkg/distribution/failover.go:101-114 | marking changes only the current list, and there exactly the running containers of those names |
| Boot.BootManager.Discover | pkg/boot/manager.go:102-135 | disabled endpoints skipped, found ones discovered, nobody else recorded, whatever was recorded before |
| Boot.BootManager.GroupByCompose | pkg/boot/manager.go:536-552 | the groups are exactly the enabled endpoints by non-empty compose file |
| Boot.BootManager.Compose | pkg/boot/manager.go:143-203 | one Up per compose file in any order, with a profile its group offers; every endpoint's status and every counter afterwards |
| Boot.BootManager.Attribute | pkg/boot/manager.go:247-285 | exactly the reported number of endpoints counts as deployed; a shortfall is failed, and counted only when required |
| Boot.BootManager.DistributeRemote | pkg/boot/manager.go:211-295 | the distributor is called once with all candidates, or not at all; as many are missed as its report falls short |
| Boot.BootManager.TakeRemaining | pkg/boot/manager.go:297-310 | remote endpoints without a result, and only those, become remote |
| Boot.BootManager.CheckHealth | pkg/boot/manager.go:320-362 | exactly the enabled required unhealthy endpoints fail, each moved from the counter it was in |
| Boot.BootManager.RollBack | pkg/boot/manager.go:394-432 | one Undistribute if the distributor was invoked, then one Down per project that came up, last first |
| Boot.BootManager.BootAll | pkg/boot/manager.go:64-386 | results, counters and commands for every run; an error exactly on cancellation or a counted failure, and then the full rollback |
| Boot.RollbackMirrorsUps | pkg/boot/manager.go:394-432 | every successful Up has its Down on the same project value at the mirrored position |
| Boot.CountersNonNegative | pkg/boot/manager.go:320-362 | no counter is ever negative |
| BootVerdict.RerunsAgree | pkg/boot/manager.go:72-79 | with the same answers, whatever the map order and whatever the manager held before: results outside the distribution's candidates and outside groups whose profiles are answered differently, the skipped counter, and before health checks the discovered one, are the same |
| BootVerdict.AlikeRerunsAgree | pkg/boot/manager.go:143-168 | when the chosen profiles are answered alike the started, discovered and (before health checks) remote counters agree too, and with the same endpoints missed everything does |
| BootVerdict.FailedIffVerdict | pkg/boot/manager.go:320-384 | the run fails exactly when a required endpoint was missed or something failed elsewhere |
| BootVerdict.AlwaysFailsIff | pkg/boot/manager.go:143-384 | every choice of profiles and every attribution fails if and only if something fails elsewhere, some group comes up with none of its profiles, or more are missed than are optional |
| BootVerdict.AlwaysPassesIff | pkg/boot/manager.go:143-384 | every choice succeeds if and only if nothing fails elsewhere, every group comes up with each of its profiles, and nothing is missed or no candidate is required |
| BootVerdict.VerdictFixedIff | pkg/boot/manager.go:143-281 | the verdict is the same for every choice of profiles and every attribution of the reported number if and only if the run is sure to fail or sure to pass |
| BootVerdict.EveryProfileHappens | pkg/boot/manager.go:150-157 | every profile a group offers is chosen for some map order |
| BootVerdict.EveryAttributionHappens | pkg/boot/manager.go:214-281 | every attribution of that size comes about for some map order |
| BootVerdict.VerdictExample | pkg/boot/manager.go:236-281 | the same answers with one required and one optional endpoint succeed or fail |
| BootVerdict.ProfileExample | pkg/boot/manager.go:150-182 | two required endpoints in one file with different profiles: the same answers succeed or fail |
| BootFacts.ResultReads | pkg/boot/manager.go:102-362 | for a run cancelled anywhere or not at all, when each of the six statuses is recorded, in terms of the endpoint's own fields |
| BootFacts.FirstProfileReads | pkg/boot/manager.go:150-157 | a walk settles on the first profile that is not empty, or on none |
| BootFacts.CountersRead | pkg/boot/manager.go:102-362 | each counter is the number of results of its kind, with the two exceptions spelt out |
| BootFacts.ReportReads | pkg/boot/manager.go:247-285 | a report of nothing or less misses every candidate, one of all or more misses none, and one in between leaves exactly that many distributed |
| BootFacts.NothingDeployedFails | pkg/boot/manager.go:247-285 | a boot whose distributor deploys nothing fails if an endpoint handed over is required |
| BootFacts.CommandsRead | pkg/boot/manager.go:143-235 | each compose project is brought up once, then the distributor is called at most once, last, with exactly the remote endpoints left over |
| BootFacts.RollbackReads | pkg/boot/manager.go:394-432 | a rollback is Undistribute first if the distributor was called, then only Downs of projects that came up |
| BootFacts.RollbackIsComplete | pkg/boot/manager.go:394-432 | it has as many Downs as there were successful Ups |
| ShellTokens.RunConcat | pkg/distribution/distributor.go:759-803 | reading a command line piece by piece is reading it whole |
| ShellQuoting.QuoteTokenises | pkg/distribution/distributor.go:759-761 | both quoting styles read back as exactly one word equal to the input if and only if it has no NUL |
| ShellQuoting.RunQuote | pkg/emulator/containerized.go:992-994 | quoting at the start or inside a word adds exactly the input to it |
| ShellQuoting.LineTokenises | pkg/ctop/collector.go:316-346 | a line of passable arguments reads back as exactly those arguments, in order |
| RemoteCommands.BuildPublishFlags | pkg/distribution/distributor.go:719-746 | the text is exactly the intended port arguments, each after a space |
| RemoteCommands.PublishArgsPassable | pkg/distribution/distributor.go:719-746 | no port list can produce an argument with a special character |
| RemoteCommands.BuildRemoteRunCommand | pkg/distribution/distributor.go:794-803 | the shell reads runtime, name, ports and image as the intended argument list |
| RemoteCommands.RemoveCommandTokenises | pkg/distribution/distributor.go:775-780 | the shell reads the intended arguments, a discarded error stream and the fallback |
| RemoteCommands.ListCommandTokenises | pkg/ctop/collector.go:326-328 | the shell reads the intended argument list for every runtime |
| RemoteCommands.StatsCommandTokenises | pkg/ctop/collector.go:305-346 | built exactly for safe ids, and then read as the intended argument list |
| RemoteCommands.ShellQuoteArgs | pkg/emulator/containerized.go:997-1003 | the joined text is the arguments, each quoted, separated by single spaces |
| RemoteCommands.InstrumentationCommand | pkg/emulator/containerized.go:815-840 | the shell reads a word it takes as the assignment of ANDROID_SERIAL, the gradle binary and exactly its arguments, an empty list included |
| CommandFacts.PublishedReads | pkg/distribution/distributor.go:719-740 | a port is published exactly with a positive container port and one of four protocol texts in any letter case, each with its own name |
| CommandFacts.MappingReads | pkg/distribution/distributor.go:741-745 | host port, colon, container port, slash, protocol, with both ports readable back |
| CommandFacts.PublishWordsRead | pkg/distribution/distributor.go:719-746 | the words are `-p` and the mapping for each published port, in order |
| CommandFacts.RunWordsRead | pkg/distribution/distributor.go:794-803 | the run command word by word |
| CommandFacts.RemoveWordsRead | pkg/distribution/distributor.go:775-780 | the remove command word by word |
| CommandFacts.ListWordsRead | pkg/ctop/collector.go:326-328 | the list command word by word |
| CommandFacts.StatsWordsRead | pkg/ctop/collector.go:305-346 | the stats command word by word, and exactly which ids are accepted |
| CommandFacts.InstrumentationWordsRead | pkg/emulator/containerized.go:815-840 | the instrumentation command word by word |
| OutputCapture.BoundedBufferWriter.Write | pkg/crossbuild/host_direct.go:165-179 | after every write the buffer is the tail of everything written |
| OutputCapture.BufferHoldsTail | pkg/crossbuild/host_direct.go:165-179 | after any writes of any sizes the buffer holds the last min(total, budget) bytes |
| OutputCapture.TailAgreesIff | pkg/crossbuild/host_direct.go:388-393 | the reported tail, mark included, is that of an unbounded buffer exactly when nothing was dropped or the budget exceeds the tail |
| OutputCapture.ReportedTailIsExact | pkg/crossbuild/host_direct.go:71-78 | with the real sizes the reported tail is the whole output up to 4096 bytes, else the mark and its last 4096 |
| LexicalPaths.WithinIffPrefix | pkg/crossbuild/host_direct.go:263-272 | the relative-path test decides exactly whether the cleaned target extends the root |
| LexicalPaths.SplitJoin | pkg/crossbuild/host_direct.go:573-577 | a text has exactly the pieces between its slashes |
| LexicalPaths.ResolveIsNet | pkg/crossbuild/host_direct.go:573-577 | cleaning from the front agrees with reading from the end, where each ".." cancels a name or climbs |
| LexicalPaths.LinkStaysIff | pkg/crossbuild/host_direct.go:573-585 | the test on the cleaned target holds if and only if the text, absolute or relative, leads into the root |
| LexicalPaths.AbsoluteStaysIff | pkg/crossbuild/host_direct.go:573-577 | an absolute text is accepted if and only if the root's own components lead it |
| LexicalPaths.RelativeStaysIff | pkg/crossbuild/host_direct.go:573-577 | a relative text is accepted if and only if it climbs no higher than the root or its names lead back into it |
| LexicalPaths.AbsoluteLinkExample | pkg/crossbuild/host_direct.go:573-585 | from /d/l the text "/x" is refused |
| LexicalPaths.RelativeLinkExample | pkg/crossbuild/host_direct.go:573-585 | from /d/s/l the text "../../x" is refused and "../x" is not |
| ArtifactCopy.CopiedIsContained | pkg/crossbuild/host_direct.go:548-619 | a tree that copies has no special file and no link whose text leads out of the root |
| ArtifactCopy.CopiedLinksStay | pkg/crossbuild/host_direct.go:566-592 | the links of a copied artifact: absolute texts are led by the root, relative ones climb no higher unless they lead back |
| ArtifactCopy.CopiesIffContained | pkg/crossbuild/host_direct.go:548-619 | without I/O failures a directory is copied if and only if nothing in it escapes and no copied directory has too long a path |
| ArtifactCopy.FileSystem.CopyEntry | pkg/crossbuild/host_direct.go:560-617 | one entry is copied exactly as predicted, mirrored, and nothing else is touched |
| ArtifactCopy.FileSystem.CopyDir | pkg/crossbuild/host_direct.go:548-619 | into its own tree it always fails; elsewhere it succeeds exactly as predicted, mirrors files, directories and link texts, and touches nothing outside the destination |
| ArtifactCopy.FileSystem.CopyFile | pkg/crossbuild/host_direct.go:421-489 | succeeds exactly for a resolvable artifact that copies to a destination outside it; success mirrors it with every link inside the root, a refused artifact changes nothing, and any other failure removes exactly what is at the destination; a file copied onto itself is emptied |
| ArtifactCopy.SelfCopyExample | pkg/crossbuild/host_direct.go:548-556 | an empty directory whose copy into itself fails although nothing in it offends |
| Tunnel.InvStep | pkg/egress/egress.go:214-323 | every step of child, watcher, TunnelUp and Down keeps the lifecycle invariant |
| Tunnel.TunnelIsSafe | pkg/egress/egress.go:214-323 | in every interleaving at most one wait and one kill, an error return only after the child is reaped, success only after a dial and an open waitDone |
| Tunnel.KilledByOneDown | pkg/egress/egress.go:298-323 | after one Down has killed the child no other does |
| Tunnel.DeadSuccessIff | pkg/egress/egress.go:214-268 | in every interleaving TunnelUp succeeds with a child already gone if and only if the exit precedes its last select and the watcher has not closed waitDone in between |
| Tunnel.GraceVouchesIff | pkg/egress/egress.go:247-268 | a success vouches for a child alive at the end of the grace window if and only if every earlier exit is reported by the last select |
| Tunnel.DeadChildReported | pkg/egress/egress.go:247-268 | a run in which TunnelUp succeeds although the child has exited |
| Tunnel.AlwaysProgress | pkg/egress/egress.go:298-323 | while a call is unfinished something can step, or a killed child is about to exit |
| TunnelFacts.TunnelUpEndsIff | pkg/egress/egress.go:234-274 | in every interleaving TunnelUp gives up exactly after an expired deadline, a cancelled context or a reported end of the child, and succeeds exactly when its last select meets none |
| TunnelFacts.NeverReadyAfterGivingUp | pkg/egress/egress.go:234-274 | after any of those it never returns the tunnel |
| TunnelFacts.ReadyPath | pkg/egress/egress.go:234-274 | a tunnel is returned only at the end of one pass through deadline, context, child, dial, grace window and last select, in that order |
| TunnelFacts.DownExample | pkg/egress/egress.go:298-323 | a run with two Downs: the first kills and reaps, the second finds nothing to do |
| Reaper.ArgvHasAdjacent | pkg/emulator/cleanup.go:170-177 | true exactly when the two tokens stand next to each other |
| Reaper.ArgvContains | pkg/cuttlefish/cleanup.go:238-245 | true exactly when some token equals the given one |
| Reaper.FindOwned | pkg/emulator/cleanup.go:102-118 | exactly the processes of the class that carry the ownership token, each once; unreadable ones are listed as skipped |
| Reaper.WatchLast | pkg/cuttlefish/cleanup.go:190-210 | the grace period ends at the first cancellation, empty poll or the deadline, with the stragglers of its last poll |
| Reaper.Killer.Reap | pkg/emulator/cleanup.go:89-304 | what is reported and sent for every process table, polls and KILL outcomes; an empty token or an unreadable table sends nothing |
| Reaper.OnlyOwnedSignalled | pkg/cuttlefish/cleanup.go:158-245 | only processes that pass the ownership test are ever signalled |
| Reaper.KillFollowsTerm | pkg/emulator/cleanup.go:120-160 | KILL goes only to processes sent TERM before and alive at the last poll |
| Reaper.ReportPartitions | pkg/emulator/cleanup.go:142-163 | on normal return the found processes are split, each once, into departed, killed and surviving; departed means not alive at the last poll, or no poll at all |
| ReaperFacts.OwnedReads | pkg/emulator/cleanup.go:102-118 | the ownership test of each reaper in terms of the raw process table |
| ReaperFacts.SignalledIff | pkg/cuttlefish/cleanup.go:171-231 | TERM goes to exactly the processes that carry the reaper's own tokens, KILL to exactly those alive at the last poll |
| ReaperFacts.PollsRead | pkg/emulator/cleanup.go:125-141 | polling ends at the deadline, at the first poll that finds none of them alive, or with the context |
| ReaperFacts.ReportReads | pkg/emulator/cleanup.go:142-163 | which list a process is reported in, and no other process is |
| ReaperFacts.WalkFailsReads | pkg/emulator/cleanup.go:94-101 | when the process table counts as unreadable |
| ReaperFacts.OtherInstanceExample | pkg/cuttlefish/cleanup.go:176-183 | another instance's virtual machine is not the reaper's own |

## Left out

- SHA-256 itself, HTTP, SSH, container command lines, gradle and `adb`: their outcomes are answers or steps.
- Clocks, tickers and timeouts: a deadline that passes, a poll that happens and a cancelled context are choices.
- File modes, ownership and symbolic links in the blob directory of the store.
- Get's fast path returns an existing blob without hashing it again, so a Get may hand out a file damaged from outside.
- StoreTheorems.CallTakesBoundedSteps: a Get or Refresh ends only if its download does; the length of a download is not bounded.
- Scheduler, host manager, health checker, discoverer and compose orchestrator: only their answers matter; tunnels that die by themselves and concurrent use of the volume manager are not modelled.
- Distribution.DefaultDistributor.DeployContainer: the names of a container's own volumes, events, metrics and error texts are left out.
- DistributionRaces.AccountedIffClean: removals without effect and failed wirings are part of the sequential model only.
- ApartCalls.ApartAccountedIff: calls that do not keep apart may still end well; for them only the step-by-step condition is given.
- Status, HealthCheckAll, HostStatus and DistributeEndpoints of the distributor, and Shutdown of the boot manager: they would only add easy members.
- Boot.BootManager.BootAll: durations, events, log lines and error texts are left out; which names a partial distribution is attributed to follows the order in which the map was walked.
- Boot.BootManager.RollBack: a Down or Undistribute that reports an error is logged by the code; here the command is recorded and its outcome ignored.
- Expansions, comments, here-documents, aliases and reserved words of the shell: text that would lead to an expansion or a comment is refused by the tokeniser; quoted words cannot be aliases or reserved words.
- ArtifactCopy.CopiedIsContained: containment is lexical only; with `d -> .` and `x -> d/../y` a link may resolve elsewhere physically.
- ArtifactCopy.FileSystem.CopyFile: a directory artifact over an existing destination, and a destination that is a link or a special file, are left out; the source directory is taken as an absolute clean path, file modes are left out, and a top-level pipe that is never written to would block the copy.
- Tunnel.TunnelIsSafe: a Down that finds the flag set returns at once and says nothing about the child.
- The derived poll interval of the Cuttlefish clean-up, and the parsing of `/proc` and `ps` output.
- Sorting and filtering of the process list, JSON and size parsing in the collector, and everything of the emulator besides quoting and clean-up.
