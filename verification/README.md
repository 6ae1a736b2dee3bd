# krabka-operator: a verified model of its protocols

This project models the decision logic of the Krabka Kubernetes operator
(`crates/krabka-operator`) in Dafny and proves what its protocols promise over
whole runs: a certificate authority that changes its key under a running
cluster, leader election over one Lease, the approval of a rebalance, the
finalisation of `metadata.version`, and the texts and numbers these rest on.
`dafny verify dfyconfig.toml` checks all of it.

## What is modelled

**Key rotation of the two CAs.** `CaRotation` holds the planner, the Secret
patches of every plan and the reconcile method over the two Secrets of one CA.
`CaViews` reads the pair as one of five views and shows that each accepted patch
of each pass is one edge of a small automaton; `CaHistory` shows over whole runs
that any crash leaves a state the next pass can continue from.
`Rollout` is the ordered roll of a hash over the pools, `Convergence` the check
that no roll is in flight, `Fleet` the pods, labels and templates they act on.
`ClusterTrust` and `ClientsTrust` put the pieces together, patch by patch: passes
that may crash, pods that start, stop and reload at any time, sets that follow
their label at any time, users that come and go. `ClusterTrustProof` and
`ClientsTrustProof` hold the invariants and theorems. `ClusterTrustLimits` and
`ClientsTrustLimits` show that the conditions on crashes are exact,
`ClusterTrustReach` and `ClientsTrustReach` that every harmful place is reached
from an empty cluster, and `ClusterProgress` and `ClientsProgress` that a
replacement can always be completed. `ClusterGate` and `ClientsGate` are the convergence gate for every
change of CA content. `Paths`, `FleetRuns`, `Listings` and `ClusterTrustMoves` are
what the runs are built from.

**Leader election.** `Lease` is the object, `LeaderElection` the replicas, the
writes in flight and the API server that applies a write only to the version it
was based on, and `RenewLoop` the leader's own deadline.

**Rebalance approval.** `Rebalance` is one pass over the resource,
`RebalanceRuns` runs of passes, spec edits and annotation edits.

**Metadata version.** `KafkaVersion` parses and evaluates versions,
`MetadataVersion` runs spec edits, rolling pools and passes whose reply may be
lost.

**Texts and numbers.** `Pem`, `SecretCodec`, `ConfigHash`, `San`, `Keystore`
(with `KeystoreLaws` and `KeystoreRenewal`) and `Quantity`.

Code that changes things step by step is modelled as such: `SecretPair`,
`UserSecretStore`, `RebalanceObject` and `Finalizer` are classes
whose methods update their fields, and the loops of `split_pem_certs`,
`dedup_blocks`, `plan_rollout`, `pools_converged`, `combined_config_hash`,
`compute_san_digest`, `ensure_broker_keystore`, `renew_broker_leafs`, `renew_loop`
and `reissue_tls_user_cert_secrets` are loops with invariants. Each is proved equal
to a function or predicate about which the results are then proved.

## Hypotheses

These are stated in the step relations and in the `requires` of the theorems.

- Passes over one CA are serialized; a user pass runs between Kafka passes.
- The set of pools is fixed and not empty, and nobody else edits or deletes the
  managed Secrets, labels and annotations.
- The signing certificate that a promotion replaces has not expired at that
  pass (`CaViews.OldSignerLive`). The trust systems and the view automaton need
  this; the crash-replay and counter results of `CaHistory` do not.
- The hash does not collide; in the trust systems it is represented by the
  content it digests.
- Pools and StatefulSets are listed at one moment, and a set that owns a pool by
  its name and labels is truthful (`Convergence.Truthful`): once its status is up
  to date with its spec, it counts as updated no pod that runs something else and
  as ready only pods that run, and one revision means that nothing older can be
  started. A pod that starts or reloads reads the Secrets of that moment.
- The scheduled renewal reads the CA key and writes the keystore in one step.
- No pass of the cluster CA or the clients CA ends at a harmful point
  (`ClusterTrust.Harmful`, `ClientsTrust.Harmful`), and a promoting pass skips
  the keystore only if it has nothing to reissue. Every other crash and early
  end is allowed. A point is harmful when new trust or a new signer is stored, no
  label announces it, all labels agree, and someone is still behind. These
  conditions are exact: `CrashIsSafeIff` and `SkipIsSafeIff` are equivalences.
  They are needed because `pools_converged` does not compare with the hash that
  is desired now, and because the cluster-CA reissue is a signal of one pass.
  The convergence gate proper speaks of every change of CA content and needs that
  no pass crashes while the labels agree on content that is no longer current;
  `ClusterGate.GateIsSafeIff` and `ClientsGate.GateIsSafeIff` show that this is
  exact too.
- Replicas have distinct non-empty identities and a common clock, and the Lease
  is not deleted. Exclusion is stated for leaders whose stored renewal is not
  older than the duration; `ExpiredLeaderIsOvertaken` shows in every reachable
  state that this is necessary, and `RenewLoop` bounds how far a leader can run
  past it.
- Rebalance passes over one resource run one after another. Their patches may be
  lost and the annotation may change in the middle of a pass; each property is
  stated with the exact steps that break it (`SessionIsLatestIff`,
  `OfferIsComputedIff`, `ExecutionWasSentIff`, `ApproveIsTimelyIff`).
- Feature levels do not fall as versions grow, and a binary supports the levels
  of its own version and older ones (`MetadataVersion.Monotone`, `Sound`).

## Where code and comments disagree

The comment on `parse_quantity` (`common.rs:1159-1165`) speaks of rounding in an
`f64` intermediate. The code computes in checked `i128` integers throughout; the
model follows the code, and the result is exact up to the final rounding down.
The same comment says that zero is rejected; a positive quantity of less than one
byte, such as `0.5`, is accepted and yields zero (`Quantity.LessThanOneByte`).

## Model

| member | source | states |
|---|---|---|
| `Blocks.DedupBlocks` | crates/krabka-operator/src/controller/cluster_ca.rs:140-147 | the result has the same elements without repetition, in first-occurrence order |
| `Blocks.DedupPrefix` | crates/krabka-operator/src/controller/cluster_ca.rs:140-147 | later blocks never change what earlier ones produced, so the signing block stays first |
| `CaRotation.SecretPair.ReconcileCa` | crates/krabka-operator/src/controller/cluster_ca.rs:436-766 | when the API accepts only some patches, exactly that prefix of the planned patches is stored; when it accepts all, the outcome describes the Secrets left behind |
| `CaRotation.SecretPair.PatchCertBundle` | crates/krabka-operator/src/controller/cluster_ca.rs:779-800 | replaces bundle, generation and phase and keeps the leaf marker of the other field manager |
| `CaViews.ViewTrust` | crates/krabka-operator/src/controller/cluster_ca.rs:588-727 | a consistent pair trusts exactly the keys of its rotation view |
| `CaViews.PruneElements` | crates/krabka-operator/src/controller/cluster_ca.rs:156-163 | pruning keeps the signing block and every unexpired block, and nothing else |
| `CaViews.RenewedBundle` | crates/krabka-operator/src/controller/cluster_ca.rs:612-628 | a renewal puts the new certificate first, keeps the old signing one and leaves no duplicates |
| `CaViews.WidenedBundle` | crates/krabka-operator/src/controller/cluster_ca.rs:629-676 | a start keeps the signing block first, adds the staged certificate and leaves no duplicates |
| `CaViews.PromotedBundleShape` | crates/krabka-operator/src/controller/cluster_ca.rs:677-702 | a promotion puts the staged certificate first, the old signer second while it lives, no duplicates |
| `CaViews.PatchMoves` | crates/krabka-operator/src/controller/cluster_ca.rs:520-727 | every prefix of the patches of every pass keeps the crash-replay invariant and moves the pair along one edge of the rotation automaton |
| `CaViews.PromoteAlwaysStaged` | crates/krabka-operator/src/controller/cluster_ca.rs:677-692 | the two "promote without staged material" errors are unreachable; a pass fails before its first patch only for a missing user-supplied CA |
| `CaViews.KeyPairsOrStaged` | crates/krabka-operator/src/controller/cluster_ca.rs:629-726 | the stored key pairs with the first block, or the phase is KeyReplaceTrust with the active key equal to the staged one and its certificate trusted |
| `CaViews.UserPathIsInert` | crates/krabka-operator/src/controller/user_tls.rs:180-195 | on a complete pair, without force and convergence, a pass changes no phase, key, staged material, key generation or leaf marker, at any crash point; on an incomplete pair it creates new material as any pass does |
| `CaHistory.CrashReplay` | crates/krabka-operator/src/controller/cluster_ca.rs:520-727 | in every run, with passes cut off anywhere and certificates expiring at any time, the stored key pairs with the first block or the staged pair is complete and trusted |
| `CaHistory.ViewsReplay` | crates/krabka-operator/src/controller/cluster_ca.rs:520-727 | and every state is one of the view automaton when no promotion finds the old signer expired |
| `CaHistory.GenerationsCountChanges` | crates/krabka-operator/src/controller/cluster_ca.rs:612-702 | the key generation is the number of real changes of the active key, the certificate generation that of the signing certificate, through crashes and replays |
| `CaHistory.GenerationsMonotone` | crates/krabka-operator/src/controller/cluster_ca.rs:612-702 | neither generation ever decreases, and the pair never disappears |
| `CaHistory.IdlePass` | crates/krabka-operator/src/controller/cluster_ca.rs:312-334 | whatever the bundle holds, an idle pass leaves a signing certificate outside the renewal window, renews exactly one inside it, keeps the old signing certificate in the bundle, and leaves no expired anchor when no renewal was due |
| `CaHistory.IdleQuiesces` | crates/krabka-operator/src/controller/cluster_ca.rs:312-334 | whatever its bundle holds, after at most two writing passes an idle CA plans nothing and never changes again |
| `CaHistory.NeverExpired` | crates/krabka-operator/src/controller/cluster_ca.rs:312-334 | when idle passes are never further apart than the renewal window and issued certificates outlive it, the signing certificate is at no moment expired |
| `CaHistory.ForcedRenewal` | crates/krabka-operator/src/controller/cluster_ca.rs:312-321 | a forced renewal of an idle generated CA puts the new certificate first whatever the old one's expiry, and counts |
| `CaHistory.ForcedReplacement` | crates/krabka-operator/src/controller/cluster_ca.rs:312-315 | a forced replacement stages the new key and certificate and signs with the old one until the promotion |
| `CaHistory.UserSuppliedIsUntouched` | crates/krabka-operator/src/controller/cluster_ca.rs:283-296 | a user-supplied CA is never patched, and a forced rotation of it, and only that, is refused |
| `CaHistory.OutcomeDescribesSecrets` | crates/krabka-operator/src/controller/cluster_ca.rs:728-766 | what a finished pass reports is what it leaves: signing pair, bundle, phase and both generations |
| `CaHistory.GeneratedIsNeverRefused` | crates/krabka-operator/src/controller/cluster_ca.rs:283-296 | a generated CA never refuses |
| `CaHistory.MarkerSurvives` | crates/krabka-operator/src/controller/cluster_ca.rs:779-800 | no pass touches the leaf marker, at any crash point |
| `Rollout.PlanRollout` | crates/krabka-operator/src/controller/common.rs:1106-1145 | pools up to and including the first that is not Ready on the desired hash get it, later ones keep theirs; unsettled labels all get it |
| `Rollout.FirstPoolAlwaysDesired` | crates/krabka-operator/src/controller/common.rs:1106-1145 | the first pool in roll order always gets the desired hash |
| `Rollout.UnsettledGetsDesired` | crates/krabka-operator/src/controller/common.rs:1106-1125 | with an unlabelled pool or two old hashes in use every pool gets the desired hash at once |
| `Rollout.SettledMovesInOrder` | crates/krabka-operator/src/controller/common.rs:1126-1145 | with one old hash in use a pool gets the desired hash exactly when every pool before it is Ready on it, and otherwise keeps its own |
| `Rollout.RestampMoves` | crates/krabka-operator/src/controller/kafka.rs:2310-2351 | a pass moves at most one pool, and only when all earlier pools were Ready on the desired hash, even if its patches stop midway |
| `Rollout.OrderedRollout` | crates/krabka-operator/src/controller/common.rs:1106-1145 | every reachable labelling is a desired prefix followed by an old suffix |
| `Rollout.ReadyPassesFinish` | crates/krabka-operator/src/controller/common.rs:1106-1145 | each pass over a Ready prefix takes one old label away, so as many passes as pools finish the roll |
| `Convergence.IndexByName` | crates/krabka-operator/src/controller/kafka.rs:2424-2440 | succeeds exactly for distinct names and then finds every set |
| `Convergence.PoolsConverged` | crates/krabka-operator/src/controller/kafka.rs:2424-2505 | true exactly when all pools carry one hash and each is fully rolled out by the one set of its name |
| `Convergence.RolledReality` | crates/krabka-operator/src/controller/kafka.rs:2479-2502 | for a truthful set the check on one pool means that all its pods run, none runs anything but the template, and nothing older can be started |
| `Convergence.PoolsRolledToVersion` | crates/krabka-operator/src/controller/kafka.rs:2507-2522 | true exactly when there are pools, they converged and every listed set carries the version |
| `Fleet.ObservedConverged` | crates/krabka-operator/src/controller/kafka.rs:2424-2505 | a positive check on truthful counts and revisions means that every label, template and pod of the fleet is on one hash |
| `CaPass.PatchCa` | crates/krabka-operator/src/controller/cluster_ca.rs:588-727 | the next patch of a running pass is one edge of the automaton, and the stored trust is that of the new view |
| `ClusterTrust.ReportedReissue` | crates/krabka-operator/src/controller/cluster_ca.rs:677-702 | a finished cluster-CA pass asks for a forced reissue exactly when it promoted, and then hands out a paired certificate and key |
| `ClusterTrustProof.TrustContinuity` | crates/krabka-operator/src/controller/kafka.rs:1571-1631 | at every moment of every run in which no pass ends at a harmful point, any two running brokers, and the operator with any of them, can verify each other's leaf |
| `ClusterGate.ConvergenceGate` | crates/krabka-operator/src/controller/kafka.rs:2295-2505 | in every run in which no pass crashes while the labels agree on a bundle that is no longer stored, the check is positive only when every label, template and pod carries exactly the stored bundle, after renewals and prunes as in every rotation step |
| `ClusterTrustProof.ConvergedIsPrepared` | crates/krabka-operator/src/controller/kafka.rs:2424-2505 | between passes of every careful run a positive check means that all brokers trust the staged key before promotion and serve the promoted signer before the prune |
| `ClusterTrustProof.StepKeepsInv` | crates/krabka-operator/src/controller/cluster_ca.rs:283-336 | each patch, pod event, renewal, crash or pass boundary keeps the phase-indexed trust invariant |
| `ClusterTrustLimits.HarmfulCrashBreaks` | crates/krabka-operator/src/controller/cluster_ca.rs:684-684 | a crash at any harmful point of any fleet with a broker leads, by careful steps only, to two parties that cannot verify each other |
| `ClusterTrustLimits.CrashIsSafeIff` | crates/krabka-operator/src/controller/kafka.rs:1416-1444 | in every fleet with a broker, a crash is safe for all careful continuations if and only if it is not at a harmful point |
| `ClusterTrustLimits.SkippedKeystoreBreaks` | crates/krabka-operator/src/controller/kafka.rs:1416-1432 | without any crash, in every fleet, a promoting pass that skips a keystore with old leaves rolls the new hash over them, and the next pass prunes the trust they need |
| `ClusterTrustLimits.SkipIsSafeIff` | crates/krabka-operator/src/controller/kafka.rs:1416-1432 | a promoting pass may skip the keystore safely, whatever pools are Ready, if and only if it has nothing to reissue |
| `ClusterGate.GateIsSafeIff` | crates/krabka-operator/src/controller/kafka.rs:2424-2505 | a crash keeps the gate sound for every continuation if and only if the labels do not agree on a bundle that is no longer stored, with a filled keystore |
| `ClientsGate.ConvergenceGate` | crates/krabka-operator/src/controller/kafka.rs:1200-1212 | the same for the clients CA: a positive check means that every label, template and pod carries exactly its current contribution to the hash, with the staged key in it during a replacement |
| `ClientsGate.GateIsSafeIff` | crates/krabka-operator/src/controller/kafka.rs:2424-2505 | a crash keeps that gate sound for every continuation if and only if the labels are not stale |
| `ClusterProgress.RotationCompletes` | crates/krabka-operator/src/controller/cluster_ca.rs:283-336 | from every careful state in the middle of a key replacement, also in the middle of a pass, careful steps lead to an idle CA with the new key as its only trusted one |
| `ClientsProgress.RotationCompletes` | crates/krabka-operator/src/controller/cluster_ca.rs:303-311 | the same for the clients CA, through the batch over its users and the leaf marker |
| `ClusterTrustReach.SteadyIsReached` | crates/krabka-operator/src/controller/cluster_ca.rs:520-537 | from every empty cluster with a broker a run reaches a converged cluster with an idle CA |
| `ClusterTrustReach.WidenedIsReached` | crates/krabka-operator/src/controller/cluster_ca.rs:629-676 | and one with the staged trust rolled out everywhere |
| `ClusterTrustReach.EveryPlaceBreaks` | crates/krabka-operator/src/controller/kafka.rs:1416-1444 | at every place of both windows there is a run from the empty cluster whose only careless step is a crash there and which ends with broken trust |
| `ClusterTrustReach.SkippingBreaks` | crates/krabka-operator/src/controller/kafka.rs:1416-1432 | and one whose only careless step is the skipped keystore |
| `ClientsTrustLimits.HarmfulCrashBreaks` | crates/krabka-operator/src/controller/kafka.rs:1122-1144 | a crash at any harmful point leads, by careful steps only, to a user whose certificate a running broker does not trust |
| `ClientsTrustLimits.CrashIsSafeIff` | crates/krabka-operator/src/controller/kafka.rs:1122-1144 | a crash is safe for all careful continuations if and only if it is not at a harmful point |
| `ClientsTrustReach.SteadyIsReached` | crates/krabka-operator/src/controller/cluster_ca.rs:520-537 | from every empty cluster with a broker a run reaches a converged cluster with an idle clients CA |
| `ClientsTrustReach.EveryPlaceBreaks` | crates/krabka-operator/src/controller/kafka.rs:1122-1144 | at every place of the window there is a run from the empty cluster whose only careless step is a crash there and which ends with an unverifiable user |
| `UserSecrets.EnsuredSecretSigner` | crates/krabka-operator/src/controller/user_tls.rs:212-272 | a user's leaf keeps its signer exactly when that is the checked certificate's key and the leaf is not about to expire |
| `UserSecrets.EnsuredLeaf` | crates/krabka-operator/src/controller/user_tls.rs:212-272 | a user keeps its leaf exactly when that is signed by the checked key and outside the renewal window, and otherwise gets one for the whole validity; either way it is outside the window |
| `UserSecrets.BatchConverges` | crates/krabka-operator/src/controller/user_tls.rs:274-294 | a finished batch leaves every live TLS user on the signing key and the current bundle |
| `UserSecrets.BatchCounts` | crates/krabka-operator/src/controller/user_tls.rs:274-294 | the reported count is the number of users that lacked a good leaf before the batch |
| `UserSecrets.BatchFrame` | crates/krabka-operator/src/controller/user_tls.rs:274-294 | Secrets of users that are not named, are being deleted or use no TLS stay as they are |
| `UserSecrets.UserSecretStore.Ensure` | crates/krabka-operator/src/controller/user_tls.rs:212-272 | reuses, refreshes the trust of, or reissues one Secret; a refused patch changes nothing |
| `UserSecrets.UserSecretStore.Reissue` | crates/krabka-operator/src/controller/user_tls.rs:274-294 | success means the whole batch and its count; an error leaves exactly a prefix of it done |
| `ClientsTrust.ReportedTransition` | crates/krabka-operator/src/controller/kafka.rs:1122-1144 | the reissue and user-sync decisions of the system are those a finished pass reports to its caller |
| `ClientsTrustProof.UserTrustContinuity` | crates/krabka-operator/src/controller/kafka.rs:1122-1144 | at every moment of every run in which no pass ends at a harmful point, every live user's certificate is signed by a key that every running broker trusts |
| `ClientsTrustProof.PruneOnlyWhenReissued` | crates/krabka-operator/src/controller/cluster_ca.rs:303-311 | the patch that leaves the promoted view keeps the active key and finds every live user on it |
| `ClientsTrustProof.PruneGate` | crates/krabka-operator/src/controller/cluster_ca.rs:735-740 | in every run, wherever passes crash, the old clients anchor is dropped only when every live user's certificate is signed by the active key |
| `ClientsTrustProof.StepKeepsMark` | crates/krabka-operator/src/controller/cluster_ca.rs:917-935 | every step, crashes included, keeps the marker at or below the key generation and equal to it in a promoted CA only after all users were reissued |
| `Lease.ExpiryIsNeverEarly` | crates/krabka-operator/src/leader_election.rs:330-342 | a lease judged expired has really outlived its duration, despite truncation to seconds |
| `Lease.ExpiryIsLateByUnderOneSecond` | crates/krabka-operator/src/leader_election.rs:330-342 | one second after the duration the check is always positive |
| `Lease.ExpiryIsSeenWithinOneStep` | crates/krabka-operator/src/leader_election.rs:114-178 | a standby that polls at a bounded interval sees the expiry less than one second and one interval late |
| `Lease.Released` | crates/krabka-operator/src/leader_election.rs:222-233 | only the holder releases, and the result is vacant with the transition count kept |
| `Lease.ReleasedExpiresSoon` | crates/krabka-operator/src/leader_election.rs:222-233 | even for a reader that looked past the empty holder a released Lease is expired two seconds later |
| `Lease.Tenure` | crates/krabka-operator/src/leader_election.rs:235-246 | a claim starts a tenure and a renewal continues it |
| `LeaderElection.MutualExclusion` | crates/krabka-operator/src/leader_election.rs:114-214 | of all replicas running controllers at most one has an unexpired last stored renewal, and it is the stored holder, through lost replies, late writes, races and hand-over |
| `LeaderElection.RenewalIsStamped` | crates/krabka-operator/src/leader_election.rs:281-305 | a stored claim or renewal bears the time at which it was sent |
| `LeaderElection.RecentIsCurrent` | crates/krabka-operator/src/leader_election.rs:330-342 | a replica whose last stored write was sent no longer ago than its duration is current |
| `LeaderElection.RenewingLeaderIsSafe` | crates/krabka-operator/src/leader_election.rs:248-305 | a leader that keeps renewing keeps its Lease: no step replaces it |
| `LeaderElection.RenewingLeadersAreOne` | crates/krabka-operator/src/leader_election.rs:248-305 | two replicas that run controllers on recently stored writes are one |
| `LeaderElection.TakeoverSafety` | crates/krabka-operator/src/leader_election.rs:152-173 | a stored claim over another holder replaced exactly the version its sender read, and more than the stored duration had passed at the check |
| `LeaderElection.DisplacedOnlyWhenExpired` | crates/krabka-operator/src/leader_election.rs:152-173 | a stored Lease of a replica gives way only to its own release after it stopped, or to a claim after it expired |
| `LeaderElection.TransitionsCountHolderChanges` | crates/krabka-operator/src/leader_election.rs:235-246 | in every run the stored transition count is the initial one plus the number of holder changes, saturating |
| `LeaderElection.ExpiredLeaderIsOvertaken` | crates/krabka-operator/src/leader_election.rs:152-173 | in every reachable state a leader that runs past the duration of its stored renewal can be overtaken by any standby, and both run controllers |
| `LeaderElection.ReleaseHandsOver` | crates/krabka-operator/src/leader_election.rs:197-233 | a released Lease is taken at once by any standby |
| `LeaderElection.OverlapWithoutRenewal` | crates/krabka-operator/src/leader_election.rs:152-173 | a run in which this happens, from every start without a Lease |
| `RenewLoop.Renewals` | crates/krabka-operator/src/leader_election.rs:248-279 | the loop gives up at a lost lease or at the first failed attempt past the deadline since the last success |
| `RenewLoop.LeadsIff` | crates/krabka-operator/src/leader_election.rs:248-279 | a leader leads on exactly until an attempt finds the Lease lost or fails once the duration has passed since the last stored renewal |
| `RenewLoop.StampIsRecent` | crates/krabka-operator/src/leader_election.rs:281-305 | the stored renewal is never older than the last success by more than the attempt that stored it, or before the first renewal the claim and its confirmation |
| `RenewLoop.GivesUpInTime` | crates/krabka-operator/src/leader_election.rs:248-279 | a leader stops at most one retry and one attempt after its deadline, and leads on only before it |
| `RenewLoop.OverrunIsBounded` | crates/krabka-operator/src/leader_election.rs:248-305 | for attempts of bounded length a running leader's stored renewal is at most the duration, one retry and two attempts old, and before its first renewal one retry and one attempt more, a claim with a lost reply included |
| `LeaderElection.ReleaseAfterStop` | crates/krabka-operator/src/run.rs:72-121 | a replica whose release was stored runs no controllers any more |
| `Rebalance.RebalanceObject.Reconcile` | crates/krabka-operator/src/controller/rebalance.rs:619-786 | one pass issues the call of the decided action and leaves the resource the pass function names, on every early exit |
| `Rebalance.WrittenStateReadsBack` | crates/krabka-operator/src/controller/rebalance.rs:797-863 | the next pass reads back the state this pass decided |
| `Rebalance.ChangeMovesTransitionTime` | crates/krabka-operator/src/controller/rebalance.rs:841-863 | a change of state moves the transition time of the condition |
| `RebalanceRuns.CallsThatAreDue` | crates/krabka-operator/src/controller/rebalance.rs:114-156 | which call a pass sends, for every state and command: refresh creates, approve executes an offer, stop cancels an execution, and without a command New creates and Rebalancing polls |
| `RebalanceRuns.FollowUpsNeedNoCredential` | crates/krabka-operator/src/controller/rebalance.rs:690-704 | polls and cancels are sent without a credential |
| `RebalanceRuns.ExecutionReplyDecides` | crates/krabka-operator/src/controller/rebalance.rs:213-252 | after an execution or a poll the state is Ready, Stopped, Rebalancing or NotReady exactly as the reply says, and nothing else of the status moves |
| `RebalanceRuns.CreationReplyDecides` | crates/krabka-operator/src/controller/rebalance.rs:177-211 | after a creation the state, the session, the observed generation and the result are those of the reply |
| `RebalanceRuns.CancellationStops` | crates/krabka-operator/src/controller/rebalance.rs:254-262 | an answered cancellation ends in Stopped |
| `RebalanceRuns.RefusalDecides` | crates/krabka-operator/src/controller/rebalance.rs:272-293 | a refused call leaves New exactly for a creation with one of the retryable codes, and NotReady otherwise |
| `RebalanceRuns.TransportFailureChangesNothing` | crates/krabka-operator/src/controller/rebalance.rs:757-767 | a transport failure changes nothing |
| `RebalanceRuns.NothingIsCalledBlindly` | crates/krabka-operator/src/controller/rebalance.rs:619-704 | without an endpoint or a needed credential nothing is called, the command stays, and the state is NotReady |
| `Rebalance.RewriteIsIdentical` | crates/krabka-operator/src/controller/rebalance.rs:797-863 | writing the same transient outcome again changes nothing at any later time |
| `RebalanceRuns.SessionIsLatestIff` | crates/krabka-operator/src/controller/rebalance.rs:177-306 | ProposalReady and Rebalancing carry the id of the latest proposal throughout a run if and only if no offer is lost while another one is on offer or under execution |
| `RebalanceRuns.OfferIsComputedIff` | crates/krabka-operator/src/controller/rebalance.rs:177-211 | what is on offer was computed, if and only if no other reply is lost over an offer |
| `RebalanceRuns.ExecutionWasSentIff` | crates/krabka-operator/src/controller/rebalance.rs:213-252 | what is under execution was sent for it, if and only if no offer is lost during an execution |
| `RebalanceRuns.ApproveIsTimelyIff` | crates/krabka-operator/src/controller/rebalance.rs:619-786 | an approve always postdates the latest proposal, if and only if none is set while one is being created and left in place by the pass |
| `RebalanceRuns.ApprovedBeforeExecuted` | crates/krabka-operator/src/controller/rebalance.rs:114-156 | every ExecuteProposal comes from ProposalReady on an approve; up to the first step that breaks it, with the id of the latest proposal, which was computed, and on an approve set after it came back |
| `RebalanceRuns.ApproveIsSpent` | crates/krabka-operator/src/controller/rebalance.rs:619-786 | an execution that reached the rebalancer consumes the approve and ends the offer |
| `RebalanceRuns.FollowsAnExecution` | crates/krabka-operator/src/controller/rebalance.rs:114-156 | every poll and cancel names the latest proposal, after ExecuteProposal was sent for it, up to the first harmful loss |
| `RebalanceRuns.CreateRetriesExactlyWhenRetryable` | crates/krabka-operator/src/controller/rebalance.rs:272-293 | a refused CreateProposal is sent again by the next undisturbed pass exactly when its error is retryable |
| `RebalanceRuns.StrayApproveIsConsumed` | crates/krabka-operator/src/controller/rebalance.rs:114-156 | an approve in any other state is removed without a call and without a status change |
| `RebalanceRuns.LostOfferExecutesOldProposal` | crates/krabka-operator/src/controller/rebalance.rs:797-834 | from every state with an offer, losing a newer one makes the next approve execute the superseded proposal |
| `RebalanceRuns.LostStatusExecutesOldProposal` | crates/krabka-operator/src/controller/rebalance.rs:797-834 | a run from an empty status that loses an offer and executes the superseded proposal |
| `RebalanceRuns.EarlyApproveExecutes` | crates/krabka-operator/src/controller/rebalance.rs:619-786 | an approve set while the first CreateProposal is in flight survives the pass, and the next one executes a proposal it predates |
| `KafkaVersion.ParseShort` | crates/krabka-operator/src/version.rs:32-83 | the canonical rendering of every version parses back to its metadata key |
| `KafkaVersion.ParseFull` | crates/krabka-operator/src/version.rs:32-66 | the full rendering parses back to the version, with or without any feature suffix |
| `KafkaVersion.ParseOfComponents` | crates/krabka-operator/src/version.rs:39-66 | a dotted text is a version exactly when it has one to three components that are u32 numbers; missing ones are zero |
| `KafkaVersion.SuffixIsDropped` | crates/krabka-operator/src/version.rs:32-66 | any feature suffix on a dotted version is ignored |
| `KafkaVersion.EvaluateIff` | crates/krabka-operator/src/version.rs:128-208 | exactly when an evaluation is valid, and when it is refused as invalid or too high |
| `KafkaVersion.ValidMeans` | crates/krabka-operator/src/version.rs:128-208 | a valid outcome is canonical, supported, not newer than the binary, and not below the online floor when it is a downgrade |
| `MetadataVersion.Finalizer.Reconcile` | crates/krabka-operator/src/controller/kafka.rs:1989-2047 | one pass sends the decided request, the brokers' level follows an applied one, and the status changes as decided unless the pass stops first |
| `MetadataVersion.NeverAboveAnyBinary` | crates/krabka-operator/src/controller/kafka.rs:1860-1862 | while every edit declares a version that can run them, the finalized and the recorded level are supported by every binary any pool runs or may start |
| `MetadataVersion.BoundHoldsIff` | crates/krabka-operator/src/controller/kafka.rs:1860-1862 | the bound holds throughout a run if and only if every edit declares a version that can run what is finalized and recorded at that moment |
| `MetadataVersion.NonDecreasingIsSafe` | crates/krabka-operator/src/controller/kafka.rs:1860-1862 | with non-decreasing versions no finalized or recorded level ever exceeds what a binary of any pool supports |
| `MetadataVersion.OnlyWhenRolled` | crates/krabka-operator/src/controller/kafka.rs:1989-2047 | in every run the recorded level changes only with all pools rolled, from unset or after an acknowledged update; a downgrade is asked for only at or above the online floor |
| `MetadataVersion.GateMeansRolled` | crates/krabka-operator/src/controller/kafka.rs:2507-2522 | a positive gate on truthful counts and revisions means that every pod runs the declared version and nothing else can be started |
| `MetadataVersion.RolledIsListed` | crates/krabka-operator/src/controller/kafka.rs:2507-2522 | and a cluster that is rolled in this sense has a listing on which the gate is positive |
| `MetadataVersion.FinalisesInOnePass` | crates/krabka-operator/src/controller/kafka.rs:1989-2047 | with the gate open, a valid version and an acknowledging broker one pass records that version, and from another level sends the request for it, as upgrade or safe downgrade |
| `MetadataVersion.RolledReachesResolved` | crates/krabka-operator/src/controller/kafka.rs:1989-2047 | so a rolled cluster is on its resolved version after one pass |
| `MetadataVersion.WaitsForTheRoll` | crates/krabka-operator/src/controller/kafka.rs:2028-2032 | while a pool is not rolled neither level changes |
| `MetadataVersion.DecreaseBreaks` | crates/krabka-operator/src/controller/kafka.rs:1989-2047 | from every cluster with a pool, declaring a version that lacks a finalized level puts a binary below that level |
| `Pem.SplitPemCerts` | crates/krabka-operator/src/controller/cluster_ca.rs:118-131 | the scanning loop yields the certificate blocks of the text in order |
| `Pem.SplitIsCanonical` | crates/krabka-operator/src/controller/cluster_ca.rs:118-131 | every block starts with the begin marker and ends with its first end marker and one newline |
| `Pem.SplitJoin` | crates/krabka-operator/src/controller/cluster_ca.rs:118-135 | splitting joined blocks gives the blocks back |
| `Pem.StoredBundleReadsBack` | crates/krabka-operator/src/controller/cluster_ca.rs:118-135 | for every text, its blocks survive being joined, stored and split |
| `Pem.SplitSkips` | crates/krabka-operator/src/controller/cluster_ca.rs:118-131 | surrounding text without a begin marker is ignored |
| `Pem.NormalizeCanonical` | crates/krabka-operator/src/controller/cluster_ca.rs:772-777 | normalising a stored block is the identity, so comparing blocks bytewise is sound |
| `SecretCodec.PhaseReadsBack` | crates/krabka-operator/src/controller/cluster_ca.rs:189-196 | the phase printer is inverted by its parser |
| `SecretCodec.StateReadsBack` | crates/krabka-operator/src/controller/cluster_ca.rs:470-480 | the next pass reads exactly the CA state this pass wrote into the two Secrets |
| `SecretCodec.CreatedReadsIdle` | crates/krabka-operator/src/controller/cluster_ca.rs:520-537 | a created pair reads as an idle CA of generation zero whose bundle is the blocks of the stored text |
| `SecretCodec.ReadIsStable` | crates/krabka-operator/src/controller/cluster_ca.rs:893-946 | whatever the Secrets hold, the state read from them can be written and read again unchanged |
| `ConfigHash.FillBuffer` | crates/krabka-operator/src/controller/common.rs:1004-1074 | the pushes produce the seven separated segments, or the bare config in the collapsed form |
| `ConfigHash.PreimageLayout` | crates/krabka-operator/src/controller/common.rs:1004-1074 | the order of the seven segments and the collapsed form, written out |
| `ConfigHash.PreimageInjective` | crates/krabka-operator/src/controller/common.rs:1004-1074 | equal hash inputs mean equal segments, also across the collapsed form, when no segment contains the separator |
| `ConfigHash.CaTrustInjective` | crates/krabka-operator/src/controller/kafka.rs:1200-1212 | equal CA segments mean equal cluster bundle, clients bundle and phase form |
| `ConfigHash.RolloutHashDetermines` | crates/krabka-operator/src/controller/common.rs:959-961 | equal rollout hashes mean equal configuration, CA and leaf content for a digest that does not collide on them |
| `Order.SortDedupCorrect` | crates/krabka-operator/src/controller/cluster_ca.rs:1140-1147 | sorting and removing duplicates gives a strictly sorted listing of the same elements |
| `Order.SortedUnique` | crates/krabka-operator/src/controller/cluster_ca.rs:1140-1147 | a set has only one such listing |
| `San.ComputeDigestInput` | crates/krabka-operator/src/controller/cluster_ca.rs:1140-1166 | the updates feed the digest the canonical text of the names |
| `San.DigestInputOfSet` | crates/krabka-operator/src/controller/cluster_ca.rs:1140-1166 | the text depends only on the union of base and extra names |
| `San.DigestInputDeterminesNames` | crates/krabka-operator/src/controller/cluster_ca.rs:1140-1166 | the digest of parsed names equals the requested one exactly when the sets of names are equal |
| `Keystore.EnsureBrokerKeystore` | crates/krabka-operator/src/controller/cluster_ca.rs:1005-1090 | the loop, the retain and the fold produce the map, id lists and leaf material of the round-by-round specification, with its first error |
| `Keystore.LeafMaterial` | crates/krabka-operator/src/controller/cluster_ca.rs:1083-1090 | the fold yields the certificates of the map in key order |
| `Keystore.MaterialUnique` | crates/krabka-operator/src/controller/common.rs:959-961 | equal maps have equal leaf material, so the rollout hash does not move |
| `Keystore.MaterialDeterminesLeaves` | crates/krabka-operator/src/controller/cluster_ca.rs:1083-1090 | equal material means the same served certificates in the same key order, and conversely |
| `KeystoreLaws.KeystoreLoop` | crates/krabka-operator/src/controller/cluster_ca.rs:1016-1082 | every request ends with certificate, key and its digest, good ones untouched; no other key starts with a broker id; foreign keys stay |
| `KeystoreLaws.NewLeafWhenDue` | crates/krabka-operator/src/controller/cluster_ca.rs:1032-1056 | a request has a new leaf exactly when forced, incomplete, of another digest, undecodable or within the renewal window, and otherwise what it had |
| `KeystoreLaws.ServedIsFresh` | crates/krabka-operator/src/controller/cluster_ca.rs:1027-1056 | when issued leaves outlive the renewal window, every served certificate is outside it |
| `KeystoreLaws.PrunedIds` | crates/krabka-operator/src/controller/cluster_ca.rs:1058-1082 | the reported pruned ids are those of the broker keys that were removed |
| `KeystoreLaws.LoopPartition` | crates/krabka-operator/src/controller/cluster_ca.rs:1013-1056 | issued and reused ids are exactly the requests that need a leaf and those that do not, each once |
| `KeystoreLaws.LoopFailure` | crates/krabka-operator/src/controller/cluster_ca.rs:1027-1053 | the call fails exactly when some request's stored certificate does not parse or its issue fails |
| `KeystoreLaws.ServedSigners` | crates/krabka-operator/src/controller/cluster_ca.rs:1032-1056 | every broker is served a leaf of the signing key or, unforced only, the leaf it had |
| `KeystoreLaws.QuietIff` | crates/krabka-operator/src/controller/cluster_ca.rs:1032-1082 | a call issues and prunes nothing and writes the map back unchanged exactly when it is unforced, every request is settled and no key is stray |
| `KeystoreLaws.SecondCallQuietIff` | crates/krabka-operator/src/controller/cluster_ca.rs:1005-1090 | a second unforced call, at any time, issues and prunes nothing exactly when every certificate the first left is still outside its renewal window |
| `KeystoreLaws.SecondCallIsQuiet` | crates/krabka-operator/src/controller/cluster_ca.rs:1005-1090 | when leaves outlive the renewal window, an immediate unforced second call issues and prunes nothing and keeps the leaf material |
| `KeystoreRenewal.RenewEach` | crates/krabka-operator/src/controller/cluster_ca.rs:1496-1545 | the loop renews the visited entries one after another, with the first error ending it |
| `KeystoreRenewal.RenewBrokerLeafs` | crates/krabka-operator/src/controller/cluster_ca.rs:1485-1545 | the renewal visits exactly the keys with the certificate extension, in key order |
| `KeystoreRenewal.UpperCaseCounts` | crates/krabka-operator/src/controller/cluster_ca.rs:1485-1495 | the certificate extension counts in any case |
| `KeystoreRenewal.RenewedLeavesAreKept` | crates/krabka-operator/src/controller/cluster_ca.rs:1509-1532 | after a renewal from the parsed names, an unforced reconcile issues nothing, prunes nothing and writes the map back unchanged |
| `Quantity.QuantityIsExact` | crates/krabka-operator/src/controller/common.rs:1168-1248 | a text is accepted exactly when it is a legal spelling that fits, and yields the denoted number rounded down |
| `Quantity.SuffixTable` | crates/krabka-operator/src/controller/common.rs:1173-1201 | the thirteen multipliers, and that no other letter is a suffix |
| `Quantity.LessThanOneByte` | crates/krabka-operator/src/controller/common.rs:1238-1248 | the result is zero exactly for accepted quantities of less than one byte |
| `Quantity.ParseOfSpelling` | crates/krabka-operator/src/controller/common.rs:1208-1248 | every legal spelling is answered with its value, with Zero or with Overflow, decided by the final bounds alone |
| `Quantity.ParseOfMalformed` | crates/krabka-operator/src/controller/common.rs:1169-1225 | every other text is refused with one of the format errors |
| `Quantity.RefusalKinds` | crates/krabka-operator/src/controller/common.rs:1169-1216 | nothing at all, a suffix alone, a minus sign and an exponent are each refused by name |
| `Quantity.QuantityIsMonotone` | crates/krabka-operator/src/controller/common.rs:1168-1248 | accepted quantities compare as the rationals they denote, and equal rationals give equal results |
| `Quantity.TrailingZero` | crates/krabka-operator/src/controller/common.rs:1226-1248 | a trailing zero after the point never changes an accepted value |
| `Quantity.PrintedQuantity` | crates/krabka-operator/src/controller/common.rs:1168-1248 | printing a positive integer with a suffix is undone whenever the product fits |

## Left out

- Kubernetes, HTTP and Kafka admin calls, watches, events, tracing and metrics: only object versions, refused patches, lost replies and crashes are kept, as inputs or events.
- X.509, signatures and key generation: a certificate is its serial, key and expiry, a leaf its signer; new keys, the reading of `notAfter` and of names, and the clock are inputs.
- SHA-256: represented by its input, or by a function that does not collide on the inputs at hand.
- Passes of two controllers over one CA at the same time, which the code does not guard, and one identity reused by two leader processes.
- Expiry of a CA certificate in the middle of a key replacement, beyond what `CaViews.OldSignerLive` allows.
- The endless loop `acquire` and the process handling of `run`: modelled as a step relation over values, so the sleep pattern is not captured and stopping is allowed at any time; `claim` and the renewal update the Lease as values, not in place.
- Attempt lengths in `LeaderElection`: there a write may take any time, exclusion is stated for leaders with a recently stored write, and `RenewLoop` bounds for attempts of bounded length how far a leader can be from that.
- u64 wrap-around of the generation counters in memory: they are unbounded there and bounded only in the round trip through text.
- Names of Secret data keys and annotations: enumeration values in `SecretCodec`, since only their distinctness matters; broker-keystore keys are kept as text.
- Paths with slashes in `renew_broker_leafs`: Secret data keys cannot contain them, so the extension is that of a plain file name.
- `ensure_operator_cert_secret`: only its choice between keeping and reissuing the operator leaf takes part, in `ClusterTrust`; the checks on its name and private key do not.
- The messages and requeue intervals of the rebalance outcomes, `validate_endpoint` and the credential lookup: whether they fail is an input.
- The table behind metadata feature levels: an arbitrary function with the stated monotonicity.
- Renderers of Deployments, Services, ConfigMaps, policies and monitors, the field validators, `diff_configs`, `derive_status` and status rollups: record building without state or branching that spans operations.
- `kafka_node_pool.rs`, `listeners.rs` and `user.rs`: the pool controller appears as an environment that moves a set toward its pool's label.
