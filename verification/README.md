# Verified model of multicluster-runtime's coordination core

multicluster-runtime runs controllers against a changing set of clusters. This project models, in
Dafny, the parts of it whose correctness depends on what happens in between other things, and proves
what they promise for every input, every run and any number of peers.

* **The sharded coordinator.** A fencing lease per cluster is taken, renewed and given up by a read
  followed by a version-checked write (`Leases`, `LeaseGuards`, `LeaseProtocol`). Rendezvous hashing
  says who should own a cluster (`Rendezvous`, `WrappingScores`), from a membership kept by heartbeat
  leases (`PeerRegistry`, `Membership`). The coordinator ties both to one work context per cluster
  (`Coordination`, `WorkContexts`). Many coordinators over one set of leases give the single-writer
  guarantee (`SingleWriter`), the exact condition for it (`TwoWriters`) and a bounded takeover
  (`Takeover`, `TakeoverRuns`).
* **The engagement machinery.** The controller's cluster-by-source watches (`WatchMatrix`), the
  handler a kind source keeps on an informer (`KindSource`), and the set of clusters with their
  contexts and indexes (`ClusterSet`).
* **Names.** The multi provider's joined cluster names (`MultiProvider`) and the normalisation behind
  lease names (`Sanitize`).

Code that changes fields in place is a class here. Each of its methods is proved equal to a function of
the old state; what that function comes to, in terms of the fields, is stated on the method or in a lemma
beside it (`...Is`, `...Outcome`), and the theorems are about runs of those functions. Where goroutines interleave,
the run is a state machine whose steps are what the source does between two points where another
goroutine or process can come in: sampling the clock, reading a lease, writing it, each locked
section, each call outside a lock.

## How the source is read

* Time is an integer number of nanoseconds. Each peer has its own clock; clocks only advance and any
  two are never more than `skew` apart. With `skew` 0 the theorems are about one shared clock.
* The API server is a versioned record: Create needs the name to be free, Update needs the version
  that was read. Any request may fail, and a write may land although its caller sees an error.
* A guard is one leaseGuard object. A coordinator makes a new one for a cluster whenever an engagement
  without a fence is first tried (coordinator.go:298-316), and a re-engagement carries it over, so a
  peer's slot for a cluster has several guards over time, numbered by the token of the engagement that
  made them. Calls of the old ones may still be under way when the next one is made. A slot's window is
  measured from the RenewTime of the last of its writes that reached the server.
* `Discipline` in `LeaseProtocol` says what a TryAcquire waits for: nothing; the other calls on the same
  guard object, which is the contract at leaseguard.go:47-49; or the calls on all guards of the slot.
  Only the last gives mutual exclusion. With the contract on each object alone, the old guard's Release
  can clear what the new guard has just acquired (`LateReleaseBreaksExclusion`, `PerGuardExclusionIff`).
* `Rules` in `SingleWriter` adds whether giving up a fence marks its guard free at once. The code as
  written keeps to neither rule: it launches Release in a goroutine (coordinator.go:240, 259, 341), calls
  onLost before Release (leaseguard.go:148-151), and a TryAcquire waits for nothing. Every combination is
  in the step relation, and `TwoWriters.SingleWriterIff` says which of them give a single writer.
* Cluster objects, sources, contexts and registrations are numbers; an engagement's `token` stands
  for the identity of the object.

Where the source's comments and its code differ, the model follows the code:

* hrw.go:44-45 says that the order of the peer list does not matter. It matters on a tie for the
  highest score, and only then (`Rendezvous.OrderIndependentIff`).
* leaseguard.go:74-76 promises ownership after TryAcquire. With an empty identity, or two guards of
  one identity on one lease, two guards can hold it (`LeaseProtocol.ExclusionIffWellNamed`).
* coordinator.go:96-97 promises single-writer semantics. With two peers and a cluster it holds in all
  runs exactly under both rules above, with non-empty peer identities and distinct fences
  (`TwoWriters.SingleWriterIff`). As the code is written, two peers can run one cluster inside their lease
  windows (`TwoWriters.AsWrittenIff`, by the runs of `TwoWriters.LateRelease` and `TwoWriters.SplitLoss`). Cluster names that normalise alike, such as
  "A" and "a", share a fence (`Sanitize.FencesMayCollide`), and then it fails under the rules, too
  (`TwoWriters.SharedFence`).
* A MultiClusterWatch that fails part way keeps the watches it has started, so a second try doubles
  them (`WatchMatrix.FailedWatchIsNotUndone`, `WatchMatrix.FailedWatchIsHarmlessIff`).

## Model

| member | source | states |
|---|---|---|
| LeaseGuards.LeaseGuard.TryAcquire | pkg/manager/coordinator/sharded/leaseguard.go:77-134 | true exactly when already held or when the lease was absent, free, ours or expired and the write landed; gives the whole new record and the held and renewing flags |
| LeaseGuards.LeaseGuard.RenewOnce | pkg/manager/coordinator/sharded/leaseguard.go:158-177 | true exactly when nothing fails and the lease is present and unheld, ours or expired; then holder, duration and RenewTime are rewritten and AcquireTime is kept, otherwise the record stays as it was |
| LeaseGuards.LeaseGuard.Release | pkg/manager/coordinator/sharded/leaseguard.go:180-199 | a no-op unless held; otherwise gives up the hold and clears the holder if it is still us, keeping the times |
| LeaseGuards.AcquireWriteIs | pkg/manager/coordinator/sharded/leaseguard.go:88-126 | TryAcquire is refused exactly by another holder's unexpired lease; AcquireTime is kept exactly when the lease was already ours and had one |
| LeaseGuards.RenewWriteIs | pkg/manager/coordinator/sharded/leaseguard.go:160-175 | a renewal is refused exactly without a lease or by another holder's unexpired one |
| LeaseGuards.ReleaseWriteIs | pkg/manager/coordinator/sharded/leaseguard.go:189-198 | a release writes exactly over its own lease, and changes nothing but the holder |
| LeaseGuards.LeaseGuard.RenewLoop | pkg/manager/coordinator/sharded/leaseguard.go:138-156 | over any sequence of ticks, of failures and of writes by others, before a renewal or between its read and its write, onLost is called once on loss and never otherwise, the guard is released exactly on loss, and the record is what all these writes leave |
| LeaseGuards.LoopKeepsOrFrees | pkg/manager/coordinator/sharded/leaseguard.go:136-177 | a loop that ends without loss leaves the lease in its own name with its latest clock reading; one that lost it leaves it free if its Release gets through |
| LeaseGuards.UndisturbedLoopKeeps | pkg/manager/coordinator/sharded/leaseguard.go:136-177 | from a lease of its own, a loop that meets no fault and no other client never loses it |
| LeaseGuards.DisturbedTurnLoses | pkg/manager/coordinator/sharded/leaseguard.go:146-152 | a renewal that meets a fault, no lease or another's unexpired lease is the loop's last |
| Leases.WholeSeconds | pkg/manager/coordinator/sharded/leaseguard.go:85 | the duration written is the whole seconds of the configured one, as long as they fit 32 bits |
| LeaseProtocol.OnlyTheFencerWrites | pkg/manager/coordinator/sharded/leaseguard.go:105-126 | while a held guard is inside its window, a write to its lease that passes the version check is a renewal of its own peer |
| LeaseProtocol.InvNext | pkg/manager/coordinator/sharded/leaseguard.go:77-206 | every step of every interleaving keeps the protocol's invariant |
| LeaseProtocol.MutualExclusion | pkg/manager/coordinator/sharded/leaseguard.go:77-206 | in every state of every run, a held guard inside its window, shortened by the clock skew, is the recorded holder with the RenewTime last written for it, and no other guard of the lease is in that position, of another peer or an earlier one of the same |
| LeaseProtocol.ExclusionIffWellNamed | pkg/manager/coordinator/sharded/leaseguard.go:106-115 | mutual exclusion holds in all runs exactly when slots sharing a lease have different, non-empty identities |
| LeaseProtocol.LateReleaseBreaksExclusion | pkg/manager/coordinator/sharded/leaseguard.go:180-199 | a run, also with the calls on each guard object serialised, in which the Release of one guard, overtaken by the TryAcquire of the peer's next, lets two peers hold the lease inside their windows |
| LeaseProtocol.PerGuardExclusionIff | pkg/manager/coordinator/sharded/leaseguard.go:47-49 | under the contract on each guard object, or none, mutual exclusion holds in all runs exactly when no two slots share a lease at all |
| LeaseProtocol.StableOwnership | pkg/manager/coordinator/sharded/leaseguard.go:138-177 | if each write for a held guard lands while the previous window is open, it stays the recorded holder and the record changes only by its peer's own writes, so it loses no version check to another |
| LeaseProtocol.RenewalGetsThrough | pkg/manager/coordinator/sharded/leaseguard.go:158-177 | under the same premises, a renewal that has read since the last write for the guard passes the version check, and its write makes the lease the guard's own from the time it sampled |
| LeaseProtocol.WindowStaysOpen | pkg/manager/coordinator/sharded/leaseguard.go:201-206 | a window open when the next write lands was open at every state since the previous one |
| Rendezvous.ShouldOwn | pkg/manager/coordinator/sharded/sharder/hrw.go:60-78 | the loop answers true exactly when the peer list is empty or the id is that of the last peer with the highest score, the score being the 64-bit value of hash times weight; without wrap-around, the highest product |
| Rendezvous.ScoreIs | pkg/manager/coordinator/sharded/sharder/hrw.go:67-71 | a score is the 64-bit unsigned value congruent to the hash of cluster and id times the weight, 0 counting as 1 |
| Rendezvous.OwnsIff | pkg/manager/coordinator/sharded/sharder/hrw.go:60-78 | whoever has the last highest of any such list of scores owns the cluster, and nobody else |
| Rendezvous.Winner | pkg/manager/coordinator/sharded/sharder/hrw.go:64-76 | its position has a highest score and every later one has less |
| Rendezvous.ExactlyOneOwner | pkg/manager/coordinator/sharded/sharder/hrw.go:40-60 | of listed peers with distinct ids, exactly one is told to own the cluster |
| Rendezvous.OrderIndependentIff | pkg/manager/coordinator/sharded/sharder/hrw.go:44-52 | the owner is the same for every order of the list exactly when some peer scores strictly above all others |
| Rendezvous.MembershipChangeIsMinimal | pkg/manager/coordinator/sharded/sharder/hrw.go:60-78 | removing a peer changes the owner only of clusters it owned, adding one moves clusters only to it, in any order of the lists |
| Rendezvous.WeightChangeIsMinimal | pkg/manager/coordinator/sharded/sharder/hrw.go:66-75 | changing one peer's weight moves clusters only to or from that peer |
| WrappingScores.ProductsTieIff | pkg/manager/coordinator/sharded/sharder/hrw.go:71 | under a weight of 2^k times an odd number, two hashes tie exactly when their low 64 - k bits agree |
| Rendezvous.OddWeightTies | pkg/manager/coordinator/sharded/sharder/hrw.go:66-72 | peers of one odd weight (0 counting as 1) tie exactly when their hashes collide |
| Rendezvous.ScoreDivisible | pkg/manager/coordinator/sharded/sharder/hrw.go:68-71 | a weight divisible by 2^k gives only scores divisible by 2^k |
| PeerRegistry.WeightRoundTrip | pkg/manager/coordinator/sharded/peers/registry.go:216-284 | every 32-bit weight survives printing to the annotation and parsing back |
| PeerRegistry.LeaseRegistry.Identity | pkg/manager/coordinator/sharded/peers/registry.go:100-112 | a process registers under its normalised id or host name, or "unknown" if both are empty, and a weight of 1 in place of 0 |
| PeerRegistry.LeaseRegistry.RenewSelfLease | pkg/manager/coordinator/sharded/peers/registry.go:197-241 | a heartbeat writes holder, duration, RenewTime and weight over whatever lease it found, and nothing after a failed read |
| PeerRegistry.HeartbeatPublishes | pkg/manager/coordinator/sharded/peers/registry.go:202-240 | a heartbeat carries its sender's id and weight, for ttl from the time it sampled |
| PeerRegistry.HeartbeatReadsBack | pkg/manager/coordinator/sharded/peers/registry.go:216-286 | a reader gets back exactly the sender with its weight, until ttl is over |
| PeerRegistry.WeightOfIs | pkg/manager/coordinator/sharded/peers/registry.go:278-284 | a missing, unreadable, oversized or zero annotation counts as 1, any other as its value |
| PeerRegistry.LeaseRegistry.RefreshPeers | pkg/manager/coordinator/sharded/peers/registry.go:244-296 | the new snapshot is the live, held leases with their weights plus the process itself; a failed list keeps the old one |
| PeerRegistry.LastListedCounts | pkg/manager/coordinator/sharded/peers/registry.go:260-287 | of several live leases of one holder the last in the list gives its weight |
| PeerRegistry.UnlistedIsAbsent | pkg/manager/coordinator/sharded/peers/registry.go:260-287 | a holder without a live lease is not listed |
| PeerRegistry.LeaseRegistry.Snapshot | pkg/manager/coordinator/sharded/peers/registry.go:131-139 | lists every peer of the map once, in some order |
| PeerRegistry.LeaseRegistry.Release | pkg/manager/coordinator/sharded/peers/registry.go:177-194 | clears the holder of a lease that is still ours and writes nothing otherwise |
| PeerRegistry.ReleaseSentIs | pkg/manager/coordinator/sharded/peers/registry.go:183-191 | exactly a lease that is still ours is written, with the holder cleared and nothing else |
| PeerRegistry.LeaseRegistry.Run | pkg/manager/coordinator/sharded/peers/registry.go:141-167 | sends one heartbeat for each pass whose read succeeded, then the release if configured and nothing after it; the snapshot is that of the last successful list |
| PeerRegistry.SentIs | pkg/manager/coordinator/sharded/peers/registry.go:141-167 | each pass that could read its lease sends one heartbeat, in order, with its own clock reading |
| PeerRegistry.SeenIs | pkg/manager/coordinator/sharded/peers/registry.go:141-167 | the snapshot is that of the last pass that could list |
| PeerRegistry.SeenNothingNew | pkg/manager/coordinator/sharded/peers/registry.go:141-167 | without one it is the snapshot there was |
| PeerRegistry.SnapshotsAgree | pkg/manager/coordinator/sharded/peers/registry.go:244-296 | processes that see the same leases alike compute the same snapshot, the fleet itself |
| PeerRegistry.OwnershipAgreement | pkg/manager/coordinator/sharded/peers/registry.go:131-296 | then, with distinct scores, exactly one process is told to own each cluster, whatever order its snapshot comes in |
| Membership.MembershipIff | pkg/manager/coordinator/sharded/peers/registry.go:244-287 | over every run of heartbeats and releases, a refresh shows another peer exactly when its last write was a heartbeat sampled at most ttl before |
| Membership.SteadyPeerStays | pkg/manager/coordinator/sharded/peers/registry.go:141-167 | a peer whose heartbeat gaps plus delay stay within ttl is in every refresh between its first and its last |
| Membership.SilentPeerLeaves | pkg/manager/coordinator/sharded/peers/registry.go:169-194 | a peer that stops writing is absent from others' refreshes after RenewTime + ttl, and after a release at once and for good |
| Membership.ListedByLastLanded | pkg/manager/coordinator/sharded/peers/registry.go:141-296 | whichever of the leases a Run sent have landed, others list the process exactly when the last of them is a heartbeat at most ttl old |
| Membership.ReleasedPeerNeverReturns | pkg/manager/coordinator/sharded/peers/registry.go:141-194 | once the release of a Run has landed, no refresh of another peer ever shows the process again |
| Membership.UnreleasedPeerExpires | pkg/manager/coordinator/sharded/peers/registry.go:169-176 | without a landed release it is listed exactly until its last landed heartbeat is ttl old |
| Coordination.Coordinator.EngageCluster | pkg/manager/coordinator/sharded/coordinator.go:208-274 | refuses an ended context; otherwise an entry with this cluster object and a new token, not started and not throttled, the old work cancelled and the fence carried over |
| Coordination.Coordinator.OnProviderDone | pkg/manager/coordinator/sharded/coordinator.go:251-264 | only the engagement with this token is stopped, its own guard released and its entry removed |
| Coordination.Coordinator.OnLost | pkg/manager/coordinator/sharded/coordinator.go:300-309 | cancels the started work of the name and marks it stopped |
| Coordination.Coordinator.OnStartFailed | pkg/manager/coordinator/sharded/coordinator.go:362-367 | cancels the work of the name and marks it stopped so that a later pass can retry |
| Coordination.Coordinator.Recompute | pkg/manager/coordinator/sharded/coordinator.go:276-355 | whatever order the map yields, each engagement is decided by the hash, the throttle and the fence; each cluster that starts is listed once with its handle and new context, and exactly the guards of the stopped ones are released |
| Coordination.OwnedIff | pkg/manager/coordinator/sharded/coordinator.go:293 | ours are exactly the clusters for which our id has the last highest score |
| WorkContexts.WorkConservation | pkg/manager/coordinator/sharded/coordinator.go:208-371 | over every run, a cluster has an uncancelled work context exactly while its current engagement is started, and never two |
| WorkContexts.SupersededCleanupIsInert | pkg/manager/coordinator/sharded/coordinator.go:231-245 | after a re-engagement, whatever follows, the cleanup of the replaced engagement changes nothing |
| WorkContexts.PassIsDecisionByDecision | pkg/manager/coordinator/sharded/coordinator.go:292-355 | a pass equals deciding its clusters one at a time, in any order |
| WorkContexts.EngageOutcome | pkg/manager/coordinator/sharded/coordinator.go:208-266 | a new engagement has this cluster object, a token above all others, no work and the replaced one's fence, and no other name changes |
| WorkContexts.StopOutcome | pkg/manager/coordinator/sharded/coordinator.go:300-309 | a lost fence, like a refused start (lines 362-367), leaves the name stopped and without work, keeps the rest of its engagement and changes no other |
| WorkContexts.ProviderDoneOutcome | pkg/manager/coordinator/sharded/coordinator.go:251-264 | the end of a provider's context removes its own engagement with its work, and nothing otherwise |
| WorkContexts.PassOutcome | pkg/manager/coordinator/sharded/coordinator.go:292-347 | a pass starts exactly what is ours, not throttled and granted, backs off where refused, stops exactly what is not ours and releases those guards; a name has work afterwards exactly when it is started |
| SingleWriter.SingleWriterEverywhere | pkg/manager/coordinator/sharded/coordinator.go:208-371 | under the strict rules, in every reachable state of any number of coordinators, a started cluster has its current guard held, a held guard belongs to a current engagement, and no two peers run one cluster inside their lease windows |
| SingleWriter.OnlyReleasesDelay | pkg/manager/coordinator/sharded/coordinator.go:296-332 | what a TryAcquire waits for under the strict rules is the Release of an earlier guard of the same peer and cluster, and nothing else |
| SingleWriter.GivingUpFrees | pkg/manager/coordinator/sharded/coordinator.go:300-345 | under the strict rules, a loss, a stop and the end of an engagement leave the guard free, its Release under way and the cluster stopped |
| SingleWriter.InvNext | pkg/manager/coordinator/sharded/coordinator.go:276-371 | every step of every coordinator and of the leases keeps the joint invariant |
| SingleWriter.NormalNamesAreWellFormed | pkg/manager/coordinator/sharded/coordinator.go:177-182 | per-cluster leases and normalised cluster names give the distinct fences the guarantee needs |
| TwoWriters.SingleWriterIff | pkg/manager/coordinator/sharded/coordinator.go:90-97 | whatever the rules, no two peers run one cluster in any run exactly when there are no two peers or no clusters, or the rules are the strict ones, identities are non-empty and fences distinct |
| TwoWriters.AsWrittenIff | pkg/manager/coordinator/sharded/coordinator.go:208-371 | for the rules the code keeps to, that is exactly when there are no two peers or no clusters, however they are named |
| TwoWriters.SplitLoss | pkg/manager/coordinator/sharded/leaseguard.go:146-152 | onLost and Release being two steps, a pass in between restarts the cluster on a guard that is then given up, and a run from the start ends with two peers running it |
| TwoWriters.LateRelease | pkg/manager/coordinator/sharded/coordinator.go:251-264 | an engagement ends and the cluster is engaged anew while the old guard's Release is under way: a run from the start, also with all calls on each guard serialised, ends with two peers running it |
| TwoWriters.SharedFence | pkg/manager/coordinator/sharded/coordinator.go:177-182 | with two clusters on one fence, giving up one lets a second peer run the other, in a run from the start under the strict rules |
| TwoWriters.EmptyIdentity | pkg/manager/coordinator/sharded/leaseguard.go:107-115 | a peer with an empty identity and another one come to run one cluster, in a run from the start under the strict rules |
| TwoWriters.AnyPeerCanRun | pkg/manager/coordinator/sharded/coordinator.go:296-332 | from any start without leases, under any rules, any peer can come to run any cluster inside its window |
| TakeoverRuns.TakenOver | pkg/manager/coordinator/sharded/coordinator.go:185-332 | in every stretch of every run of the coordinators, once the holder is silent, a peer that goes on wanting the cluster, whose requests are answered and whose last pass is at most probe ago, has started it when its clock is past expiry + throttle + probe, and only after expiry or on a guard it never let go |
| Takeover.TakeoverBound | pkg/manager/coordinator/sharded/coordinator.go:318-332 | after the holder's last RenewTime, a peer that keeps winning starts the cluster after expiry and no later than expiry + throttle + probe |
| Takeover.AttemptsAreSpaced | pkg/manager/coordinator/sharded/coordinator.go:318-327 | two attempts on a fence held elsewhere are never closer than the throttle |
| Takeover.StartsAfterExpiry | pkg/manager/coordinator/sharded/leaseguard.go:111-115 | no pass starts the cluster before the lease has expired |
| WatchMatrix.Controller.EngageCluster | pkg/controller/controller.go:118-179 | the same live cluster is left alone; otherwise the old context ends and the name is engaged with this cluster under a new live context with one watch per registration of each accepting source, or not at all on failure; no other name changes |
| WatchMatrix.Controller.MultiClusterWatch | pkg/controller/controller.go:181-201 | the source gets a watch in each accepting cluster and is registered; on failure it is not registered |
| WatchMatrix.Controller.OnContextDone | pkg/controller/controller.go:168-176 | removes the entry only if it is still the one with this token |
| WatchMatrix.EngageOutcome | pkg/controller/controller.go:118-179 | what Engage comes to in each of its three outcomes: nothing, engaged anew, not engaged |
| WatchMatrix.WatchOutcome | pkg/controller/controller.go:181-201 | on success every accepting cluster has one watch of the source more and it is registered; on failure those before the failing one, and it is not |
| WatchMatrix.EngagementEndsBy | pkg/controller/controller.go:118-179 | an engagement ends only by the cleanup of its own ended context or by an Engage of its name that finds it ended or brings another cluster |
| WatchMatrix.LiveEngagementStays | pkg/controller/controller.go:118-201 | in every run, an engagement stays while its context lives and no other cluster is engaged under its name |
| WatchMatrix.MatrixIsComplete | pkg/controller/controller.go:118-201 | in every run without a failed MultiClusterWatch, each engaged cluster has under its own context one watch per registration of each accepting source and none of others, and every context made has ended or belongs to an engaged cluster |
| WatchMatrix.FailedEngageLeavesNothing | pkg/controller/controller.go:137-159 | a failed Engage leaves no entry under the name and an ended context, and touches no other name |
| WatchMatrix.FailedWatchIsHarmlessIff | pkg/controller/controller.go:185-196 | a failed MultiClusterWatch keeps the matrix complete exactly when no cluster before the failing one accepts the source |
| WatchMatrix.FailedWatchIsNotUndone | pkg/controller/controller.go:185-198 | trying again after a failure leaves an accepting cluster with one watch too many |
| ClusterSet.IndexCoverage | pkg/clusters/clusters.go:108-230 | in every interleaving, once Add and IndexField have returned without error, the index has been applied to the cluster if it is still present |
| ClusterSet.ContextConservation | pkg/clusters/clusters.go:151-203 | in every interleaving, clusters and cancels have the same names, and every context made is that of a present cluster or cancelled |
| ClusterSet.Clusters.InsertCluster | pkg/clusters/clusters.go:151-163 | refuses a name already present; otherwise registers the cluster and its new context |
| ClusterSet.Clusters.RemoveCluster | pkg/clusters/clusters.go:166-175 | cancels the context registered under the name and removes both entries |
| ClusterSet.Clusters.IndexCluster | pkg/clusters/clusters.go:131-139 | applies the registered indexes in order up to the first that fails |
| ClusterSet.Clusters.Add | pkg/clusters/clusters.go:108-149 | succeeds exactly when the name is new and waiting, indexing and engaging succeed; then the name is entered under a live context with every index applied; any failure leaves a new name absent and its context ended, and a taken name untouched |
| ClusterSet.Clusters.AddOrReplace | pkg/clusters/clusters.go:188-203 | keeps a cluster of equal configuration; ends the context of a different one and leaves the new entry, or none on failure |
| ClusterSet.AddOutcome | pkg/clusters/clusters.go:108-149 | what Add comes to: nothing for a taken name, a new entry, or none |
| ClusterSet.ReplaceOutcome | pkg/clusters/clusters.go:188-203 | what AddOrReplace comes to: nothing for an equal configuration, otherwise Add on a state without the old entry |
| ClusterSet.IndexSteps | pkg/clusters/clusters.go:208-229 | IndexField registers the index with every cluster then present still to do, and each application does one of them or reports a failure |
| ClusterSet.Clusters.IndexField | pkg/clusters/clusters.go:208-230 | registers the index and applies it to every cluster present except those that refuse, reporting exactly whether one refused |
| KindSource.ClusterKind.Start | pkg/source/kind.go:140-233 | succeeds exactly when already running for this context or when nothing fails; then the one handler is of this context and a goroutine waits for it; a failure leaves no handler, or the old one if the informer was not found |
| KindSource.StartIsARun | pkg/source/kind.go:140-233 | the call is a run of the interleaved steps, ending in a successful sync exactly when it succeeds anew |
| KindSource.ClusterKind.OnContextDone | pkg/source/kind.go:216-230 | removes the registration only if it is still that of this context |
| KindSource.OneHandlerAcrossRestarts | pkg/source/kind.go:140-233 | in every interleaving of serialised Starts with cleanups, the informer never holds two handlers of the source, and between calls exactly the stored one, built for the active context |
| KindSource.LiveHandlerSurvives | pkg/source/kind.go:140-230 | in every interleaving, the active handler of a live context survives every cleanup and every step of a Start other than the removal of the old handler and its own failed sync |
| KindSource.CleanupLeavesNone | pkg/source/kind.go:216-230 | the cleanup of the active context leaves no handler, wherever it comes in, and between calls the handler of an ended context always has such a cleanup still to come |
| KindSource.FailedStartLeavesNone | pkg/source/kind.go:165-211 | in every interleaving, a Start that fails leaves no handler, or whatever was there if the informer could not be found |
| KindSource.SuccessfulStartLeavesOne | pkg/source/kind.go:188-213 | in every interleaving, a Start that succeeds leaves exactly one handler, of its own context; if that has ended meanwhile, at most this one and a goroutine to remove it |
| KindSource.RepeatedStartKeepsOne | pkg/source/kind.go:143-163 | a Start repeated with its live context changes nothing and finds exactly its one handler |
| MultiProvider.RoundTripIff | providers/multi/provider.go:190-196 | splitting a joined name returns the provider and the cluster, for every cluster name, exactly when the separator is first found at the end of the provider's name |
| MultiProvider.SplitThenJoin | providers/multi/provider.go:190-196 | joining the parts of a name with a separator gives the name back |
| MultiProvider.SplitIs | providers/multi/provider.go:190-196 | a name is cut at its first separator, or kept whole without one |
| MultiProvider.JoinIsInjective | providers/multi/wrapper_aware.go:34-36 | joined names of clean providers are injective |
| MultiProvider.CleanIffAbsent | providers/multi/provider.go:41-45 | for a one-character separator, a provider name is clean exactly when it does not contain it |
| MultiProvider.Provider.Get | providers/multi/provider.go:263-278 | routes a name to the provider its first part names, or nowhere |
| MultiProvider.JoinedNamesReachTheirProvider | providers/multi/provider.go:263-278 | a joined name of a clean provider reaches that provider with the cluster's own name, or nothing if it is not registered |
| MultiProvider.UncleanNamesAreMisrouted | providers/multi/provider.go:190-196 | joined names of an unclean provider are always read as those of a shorter provider name |
| MultiProvider.Provider.AddProvider | providers/multi/provider.go:222-239 | refuses a taken name; otherwise registers it and queues it for start if running |
| MultiProvider.Provider.RemoveProvider | providers/multi/provider.go:247-260 | removes the provider and its cancel function |
| Sanitize.DNS1123 | pkg/util/sanitize/sanitize.go:5-37 | the result is the lower-cased, dash-replaced name without its longest prefix and suffix of dashes and dots, or "unknown" |
| Sanitize.Dns1123Is | pkg/util/sanitize/sanitize.go:5-37 | the result stands, character by character, for the name from its first to its last letter or digit, or is "unknown" when it has none |
| Sanitize.Retraction | pkg/util/sanitize/sanitize.go:3-37 | results are non-empty, of letters, digits, dots and dashes, alphanumeric at both ends (as section 2.1 of RFC 1123 asks of a name's ends), and exactly such names are left unchanged |
| Sanitize.FenceName | pkg/manager/coordinator/sharded/coordinator.go:177-182 | the prefix and the normalised cluster name, or the prefix alone when fences are shared |
| Sanitize.FencesCollideIff | pkg/manager/coordinator/sharded/coordinator.go:177-182 | two clusters share a fence exactly when fences are shared or their normalised names agree; normal names never do |
| Sanitize.FencesMayCollide | pkg/manager/coordinator/sharded/coordinator.go:177-182 | the cluster names "A" and "a" share a fence |

## Left out

- The FNV-1a hash: any function into 64 bits, so nothing is said about how evenly clusters spread or about shares proportional to weight.
- The Kubernetes client, informers, caches and work queues: a versioned record, a set of handlers, and requests that may fail.
- Rounding of lease times to microseconds on the wire, and deletion of leases by third parties.
- Data races on a guard's fields when its calls overlap: what such calls do to the lease is modelled, a torn read of held or cancel is not.
- A process that restarts under the same identity: the lease protocol has it as a crash and a new guard, the coordinators' runs do not.
- How long a work context lives: it derives from the context of whichever caller ran the pass, so the model only says when the coordinator cancels it.
- Engagement objects in the coordinator and the controller are values with a token, not heap objects; aliasing between a stale pointer and the map entry is reduced to comparing tokens.
- Whether a replaced cluster stays present: the deferred Remove goes by name and may remove its successor; conservation and coverage hold regardless.
- Exactly-once index application: the code gives at least once.
- Handler removal that fails: kind.go logs it and carries on, so the one-handler claim assumes it succeeds.
- Event filtering and conversion in the kind source, projections and predicates.
- Starting providers, the start channel's capacity and index propagation in the multi provider.
- Provider discovery, webhooks, builder options, logging and role-based access control.
- RFC 1123 in full: the sanitizer checks neither the length nor each label between dots, so names such as "a..b" pass through it.
