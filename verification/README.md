# A verified model of the outposts operator

The operator keeps one reconcile loop per pool: it lists a session queue, claims
sessions, runs each in a worker pod, renews the claims, and gives sessions back
when they are suspended, over or cannot be run. This project models that loop
and the protocols around it, and proves what they promise over every input,
every interleaving of failures and every run.

| file | what it models |
|---|---|
| `Pods.dfy`, `Planner.dfy`, `PlannerLaws.dfy` | pod classifiers, the image part of building a pod, and the pure plan of a pass |
| `Cluster.dfy` | the queue server and the cluster objects: the effect and the answer of each call, and what others may do in between |
| `Jobs.dfy` | what the executor does for each action, as the next call given the answers so far; `Exec` runs a job against a script of outcomes and may stop after any call |
| `Passes.dfy`, `Operator.dfy` | one pass as a function of the script, and the class `PoolSync` whose methods make the calls one at a time and are proved to make exactly those of the jobs |
| `Lifecycle.dfy`, `Retries.dfy`, `Cleanup.dfy` | runs of any jobs in any order, cut short anywhere: policy lifetime, recycles, teardown order, what is left behind and who finds it |
| `JobLaws.dfy` | what the answers of a job and of a pass amount to: the verdict, the requeue, the pods the pass then knows |
| `Subjects.dfy`, `Suspends.dfy` | jobs keep to their own session; whether a suspended one keeps its pod until its snapshot is ready |
| `Outcomes.dfy` | what a completed job has achieved |
| `Concurrency.dfy`, `Flapping.dfy` | the concurrency limit and ended sessions, over runs of passes |
| `Convergence.dfy`, `Quiescence.dfy` | passes over sessions left alone: a measure that never grows, and the plan that is left |
| `Renewal.dfy` | requeue times and claim deadlines |
| `Elector.dfy` | leader election among any number of processes, as a timed state machine |
| `Listing.dfy`, `Sse.dfy` | paging through a queue that changes meanwhile; decoding the watch stream |
| `QueueModels.dfy` | the queue of `Cluster.dfy` and the server of `Listing.dfy` deal with a claim alike |
| `NetworkPolicy.dfy` | allow lists, Cilium and GKE policies, and what each admits |
| `GkeSnapshots.dfy`, `Volumes.dfy`, `Seeding.dfy` | suspending through GKE snapshots, retained volumes with a time-to-live, seeding a home |
| `StatusWrites.dfy` | when the pool's status is written, and what a merge patch leaves stored |

A failing call is one of three: it never reached the server, it took effect but
its answer was lost, or the server refused it. A script shorter than a job is a
process that ended there.

## What the code does not do as one might expect

* **Stale leadership.** Lease expiry compares instants cut to milliseconds, so a leader
  whose last renewal was lost can stay up to 999 microseconds past `RENEW_INTERVAL`
  plus twice the longest attempt. It stays within that bound if and only if two
  attempts fit into what the lease leaves beside two intervals, less a
  millisecond: up to 2.4995 seconds each, the beat of renewals leaves no room for
  the truncation. With instants at whole milliseconds the bound always holds
  (`Elector.StaleLeadershipBounded`, `Elector.LeavesInTimeExactlyWhen`).
* **Renew time** never goes back if and only if attempts, or the reads in them, take
  at most the lease duration less 999 microseconds: a read of just under the
  lease duration is already too long (`Elector.RenewTimeAdvancesExactlyWhen`).
* **Suspending.** While a snapshot is in progress the pod stays known to the pass, and
  the recycle loop at its end does not look at the session's status. A suspended
  session whose running pod did not restore from its pin, with no mark on its
  secret yet, has its pod deleted there, and the next pass suspends it without a
  snapshot. It happens exactly then, and at most once
  (`Suspends.RecycleLosesHeldPod`, `Suspends.DeletedBeforeReady`,
  `Suspends.HeldPodLostAtMostOnce`).
* **The concurrency limit** is exceeded by at most the give-ups that the worst single
  pass so far failed to release. A pass misses the bound of its own give-ups only
  if more sessions than the limit count as active when it lists them, which an
  earlier pass's overshoot can bring about
  (`Concurrency.MeetsItsBoundExactlyWhen`, `Concurrency.OvershootOutlivesItsPass`).
* **Terminating** releases the claim first and deletes the token secret before the
  artifacts. If the secret's deletion takes effect and that of the artifacts does
  not, nothing finds them again, and that is the only way to lose them
  (`Cleanup.TerminateLeaksExactlyWhen`). If it stops right after the release, the
  running pod, the secret and the artifacts all stay, and no plan acts on them
  while the row is listed (`Cleanup.TerminateLeavesBehind`,
  `Cleanup.LeakedRowIsIgnored`). The measure of `Convergence` counts such a session
  as settled: it says what a plan would still act on, not what is left. The
  acknowledged startup failure and the vanished session do keep the handle, and
  every later pass that can list the secrets comes back to it
  (`Cleanup.FailedCleanupKeepsItsHandle`, `Cleanup.LaterPassFinishes`).
* **Listing** returns if and only if fewer rows than fit on a page share an update time.
  Claims that run out together are all freed at one instant, so a page full of
  them keeps the listing from returning until something changes
  (`Listing.ReturnsUnlessCrowded`, `Listing.MassExpiryBlocks`).
* **The volume time-to-live** is read as a signed number. From 2^63 seconds on it is
  negative and a volume just suspended is collected (`Volumes.WaitsExactlyWhenSigned`).
* **Seeding** is once per volume if and only if all the image settings that starts use
  agree on whether the session has an image of its own (named by the session, or
  the pool's build image): changing one such image for another is safe, changing
  between having one and not is not (`Seeding.SeededOnceExactlyWhen`).
* **Status writes** settle after one patch exactly when the new status leaves out no
  option that was stored before, since a merge patch cannot remove one by
  omission (`StatusWrites.WritesSettle`).

## Model

| member | source | states |
|---|---|---|
| Elector.RunKeepsInv | src/elector.rs:91-142 | in every reachable state of any number of processes, with lost, late and refused writes, who leads, what each has written and when it lost the lease stay within the bounds the results below rest on |
| Elector.StaleLeadershipBounded | src/elector.rs:66-142 | no process still acts as leader one renew interval and two attempt limits (and the truncation slack) after the lease left it |
| Elector.StaleLeadershipWithin | src/elector.rs:66-142 | with attempts of at most 2.4995 seconds the truncation slack is not needed, over any run |
| Elector.LeavesInTimeExactlyWhen | src/elector.rs:66-142 | over all runs no process leads without the lease for one renew interval and two attempt limits, if and only if twice the limit is at most the lease less two intervals and a millisecond |
| Elector.TruncationDelaysDeparture | src/elector.rs:108-111 | for every larger limit, a run in which a leader stays past that bound |
| Elector.TransitionsCountHolderChanges | src/elector.rs:116-120 | the transition count of the stored lease is the number of times it changed hands, over any run |
| Elector.LeaseChangesHands | src/elector.rs:91-128 | a step changes the stored lease only by creating it, by its holder's renewal, which keeps the acquire time, or by a takeover once expired, which sets it; both set the renew time to the start of the attempt |
| Elector.RenewTimeNeverGoesBack | src/elector.rs:91-128 | a step turns the stored renew time back only by accepting a takeover whose read, from its timestamp to its expiry check, took longer than the lease duration less 999 microseconds |
| Elector.RenewTimeAdvancesExactlyWhen | src/elector.rs:91-128 | over all runs with given bounds on attempts and on reads the renew time never goes back, if and only if one of the two bounds is at most that |
| Elector.SlowReadTurnsRenewTimeBack | src/elector.rs:91-93 | for every pair of larger bounds, a run within them in which it does go back |
| Elector.Hold | src/elector.rs:66-86 | the renewal loop leaves exactly at the first turn that finds another holder, or fails a full lease duration after the last success |
| Elector.LeavesExactlyWhen | src/elector.rs:66-86 | a turn of that loop ends it if and only if it finds another holder, or fails a lease duration after the last turn that confirmed it |
| Elector.UnconfirmedLeaderLeaves | src/elector.rs:66-86 | a leader whose attempts all fail leaves at the first turn a lease duration after its start, less than one renew interval and that turn's attempt late, and by the third turn at the latest |
| Pods.PodStartupFailure | src/controller/plan.rs:115-190 | the loops over containers, waiting states and conditions compute the classification whose cases the next two rows state |
| Pods.ReportedExactlyWhenStuck | src/controller/plan.rs:104-190 | a startup failure is reported if and only if the worker never ran and an image is fatal, or the timeout passed on a pull or on scheduling |
| Pods.FailureSaysWhy | src/controller/plan.rs:104-190 | what is reported: an image error only for a fatal reason, an image timeout only for a retried one past the timeout, each with the words and the image of the first such container; a scheduling timeout with the words of the condition and no image |
| Pods.RestartsAddUp | src/controller/plan.rs:93-101 | every container of the pod adds its restarts, negative counts and init containers add none |
| Pods.ColdStartedExactlyWhen | src/snapshot/gke.rs:276-298 | a pod with a pin counts as restored if and only if a true PodRestored condition mentions that snapshot |
| Pods.PlaceWorker | src/controller/pod.rs:592-618 | the named container, found or added, gets the image and no other container changes |
| Pods.WorkerKeepsItsImage | src/controller/pod.rs:592-618 | whatever the template holds, the container later found by name is the one whose image was set |
| Planner.SortedIsOldestFirst | src/controller/plan.rs:335-338 | the claim queue holds every pending session once, those of unknown creation time first, then by time and, at equal times, by ID |
| Planner.PlanOwn | src/controller/plan.rs:237-303 | the branches for one session of ours, and whether it holds a slot |
| Planner.Plan | src/controller/plan.rs:229-354 | the imperative plan equals its specification, of which the rows below say what is planned when: own sessions, stale pods, the oldest pending sessions for the free slots, orphans |
| PlannerLaws.EveryActionHasAReason | src/controller/plan.rs:229-354 | every action is planned for a listed session that calls for it, or names an orphan pod |
| PlannerLaws.PlannedExactlyWhen | src/controller/plan.rs:237-278 | a session of ours is terminated, suspended, started, its succeeded pod replaced or its failure reported, if and only if its status and its pod say so |
| PlannerLaws.GivenUpExactlyWhen | src/controller/plan.rs:258-284 | it is given up, with its count of restarts, if and only if that is past the limit and its pod is neither done nor stuck |
| PlannerLaws.DriftReplacedExactlyWhen | src/controller/plan.rs:201-226 | its pod is replaced as drifted if and only if, within the restart limit, a container crash-loops and the worker image is not the one it would get now |
| PlannerLaws.TerminalNeverClaimed | src/controller/plan.rs:241-251 | no claim, start or renewal is planned for a session listed as suspended or terminated |
| PlannerLaws.LimitRespected | src/controller/plan.rs:339-342 | claims are planned for the chosen sessions, fill the free slots, never more, and leave none free while a pending session that has not ended waits |
| PlannerLaws.OldestClaimedFirst | src/controller/plan.rs:324-342 | of a claimed session and a claimable one left waiting, the claimed one was created no later (an unknown time being the earliest) and, if at the same time, has the smaller ID |
| PlannerLaws.RenewedWhenDue | src/controller/plan.rs:260-300 | on the branches that keep the claim, a renewal is planned if and only if the deadline is within the margin or unknown |
| PlannerLaws.BuiltPodNeverDrifts | src/controller/plan.rs:285-293 | a pod built with the session's own image, or the build image it asks for, or the pool's, is never planned for replacement as drifted; crash-looping on it, a session is renewed, or given up past the restart limit, and otherwise only reported if the worker never ran or replaced if its pod succeeded |
| Jobs.ExecAnswersPossible | src/controller/reconcile.rs:399-628 | every answer a job holds is one to a call it made at that point |
| Operator.PoolSync.Teardown | src/controller/reconcile.rs:697-702 | pod, then secret, stopping at the first failure; the pod is forgotten only after both |
| Operator.PoolSync.RecycleUnrestoredPod | src/controller/reconcile.rs:653-683 | read, mark, delete; whether it recycled follows from the answers |
| Operator.PoolSync.StartWorker | src/controller/reconcile.rs:524-628 | claim, state, token, policy, pod, policy again: exactly the calls of the job, with its verdict; what the pod carries is `Lifecycle.CreatedPodCarries` |
| Operator.PoolSync.PlacePod | src/controller/reconcile.rs:567-627 | the second half of a start, from the answers of the first, which decide what the pod carries |
| Lifecycle.CreatedPodCarries | src/controller/reconcile.rs:537-614 | a pod is created only with claim, token, state and secret in hand; it carries the pin its provider prepared, unless the secret is marked for an unpinned start, runs the session's own image, the build image it asks for or the pool's, and is labelled for the policy found |
| Operator.PoolSync.ExecuteSuspend | src/controller/reconcile.rs:410-424 | snapshot if there is a pod, teardown, release: the calls, the verdict and the pass's own state |
| Operator.PoolSync.ExecuteTerminate | src/controller/reconcile.rs:425-429 | release, teardown, artifacts |
| Operator.PoolSync.ExecuteGiveUp | src/controller/reconcile.rs:430-463 | one unpinned retry for a cold-started pod, else release and teardown |
| Operator.PoolSync.ExecuteStartupFailed | src/controller/reconcile.rs:464-504 | report first; what follows depends on the answer |
| Operator.PoolSync.Execute | src/controller/reconcile.rs:399-518 | any planned action makes exactly the calls of its job, on every script of outcomes |
| Operator.PoolSync.DeleteSessionArtifacts | src/controller/reconcile.rs:686-694 | artifacts before the secret that finds them |
| Operator.PoolSync.RunOnce | src/controller/reconcile.rs:262-347 | the actions, the cold-start recycles and the cleanups, none stopped by an earlier failure, equal the specification of a pass; failing to list the secrets ends it in an error |
| JobLaws.SuspendReleasesLast | src/controller/reconcile.rs:410-424 | the pod of a suspended session goes once its snapshot is ready, the secret after it, and the claim is released last |
| JobLaws.BreaksExactlyWhen | src/controller/reconcile.rs:399-694 | a job fails its pass if and only if a call failed, its row, report or secret is gone, or a start lacks a token, a builder or the address its policy needs; a refused claim is only a lost race |
| JobLaws.HurriesExactlyWhen | src/controller/reconcile.rs:653-683 | the next pass is brought forward if and only if a snapshot is in progress or a marked pod was deleted |
| JobLaws.ForgottenWasDeleted | src/controller/reconcile.rs:696-702 | a pass forgets a pod only after its deletion was answered, and every one a completed job deleted, save those a later pass replaces |
| JobLaws.StartedIsCreated | src/controller/reconcile.rs:612-616 | a started pod is known from then on as it was created |
| JobLaws.PoliciesHandedOver | src/controller/reconcile.rs:606-627 | a completed start that created its pod has made that very pod the owner of every policy object |
| JobLaws.RecycledExactlyWhen | src/controller/reconcile.rs:300-320 | recycled are exactly the known pods that run, are not being deleted and did not restore from their pin |
| JobLaws.PassFailsExactlyWhen | src/controller/reconcile.rs:262-347 | every planned action, recycle and cleanup is made whatever became of the others, and the pass fails if and only if one of them broke or the secrets could not be listed |
| Lifecycle.StepKeepsPolicies | src/controller/reconcile.rs:588-627 | every call of every job, and every outside change, keeps each labelled pod's policy objects in place |
| Lifecycle.PolicyOutlivesItsPod | src/controller/reconcile.rs:588-627 | in every reachable state a labelled worker pod has its policy objects, owned by the pool or by that very pod |
| Retries.AtMostOneRecycle | src/controller/reconcile.rs:653-683 | between two deletions of its token secret a session is marked for a recycle at most once, over any run |
| Retries.RecycleMarksFirst | src/controller/reconcile.rs:653-683 | a recycle, the pass's own or a give-up's, deletes the pod only once its mark is on the secret; a give-up otherwise only after its release was answered |
| Retries.UnpinnedRetryStartsUnpinned | src/controller/reconcile.rs:537-547 | over any run, the pod created after an unpinned retry carries no pin and does not count as cold-started |
| Retries.MarkedGiveUpReleases | src/controller/reconcile.rs:430-463 | once the secret is marked or gone, giving up goes straight to the release |
| Cleanup.ReportComesFirst | src/controller/reconcile.rs:464-504 | nothing is touched before the report is acknowledged or refused, the claim is never released, and the secret goes last |
| Cleanup.FailedCleanupKeepsItsHandle | src/controller/reconcile.rs:686-694 | wherever an acknowledged startup failure or a vanished session's cleanup fails, left artifacts keep their secret |
| Cleanup.LaterPassFinishes | src/controller/reconcile.rs:323-347 | every pass that can list the secrets cleans up after a session no longer queued while its secret is there, and completing that leaves neither artifacts nor secret |
| Cleanup.TerminateLeaksExactlyWhen | src/controller/reconcile.rs:425-429 | over every script of outcomes, termination leaves artifacts without their secret if and only if there are some, nobody drops them meanwhile, the secret's deletion takes effect and theirs does not |
| Cleanup.TerminateLeavesBehind | src/controller/reconcile.rs:425-429 | which of claim, pod, secret and artifacts are left, by how many of the calls took effect |
| Cleanup.TerminateCanLeakArtifacts | src/controller/reconcile.rs:425-429 | a concrete failure after which artifacts are left without their secret |
| Cleanup.LeakedRowIsIgnored | src/controller/plan.rs:237-342 | no plan acts on a released session that has ended, nor on its pod, while its row is listed |
| Suspends.RecycleLosesHeldPod | src/controller/reconcile.rs:300-320 | a round as the results below speak of, in which a suspended session's snapshot is in progress and the same pass deletes its pod; the next pass releases it without a snapshot |
| Suspends.RecycleDeletes | src/controller/reconcile.rs:653-683 | a recycle comes to deleting the pod if and only if the secret is there unmarked and its first two calls are answered |
| Suspends.DeletedBeforeReady | src/controller/reconcile.rs:262-347 | in any pass over a session listed as ours and suspended whose snapshot does not answer Ready, its pod is deleted if and only if it needs a recycle, the secret is unmarked and the recycle's calls get through |
| Suspends.HeldPodLostAtMostOnce | src/controller/reconcile.rs:300-320 | the same in every pass of any run, and in at most one of them |
| Outcomes.CompletedMeansDone | src/controller/reconcile.rs:399-694 | in a world nothing else touches, each completed job has done what it is for: session held with state, token, policy and pod; or let go with pod and token gone, and artifacts too where the session is over |
| Outcomes.StartOutcome | src/controller/reconcile.rs:524-628 | a completed start leaves the claim, the state, the token, the pod and every policy object |
| Outcomes.TerminateOutcome | src/controller/reconcile.rs:425-429 | a completed termination leaves no claim, pod, token or artifacts |
| Concurrency.ExecBoundsLive | src/controller/reconcile.rs:399-628 | a job adds to the live claims at most the session it claims, and claims no other |
| Concurrency.GiveUpLetsGo | src/controller/reconcile.rs:430-463 | a give-up whose release was answered leaves its session out of what is held |
| Concurrency.PassBoundsLive | src/controller/reconcile.rs:262-298 | what is held after a pass was counted active, chosen, or a give-up not released |
| Concurrency.LiveClaimsBounded | src/controller/plan.rs:237-342 | live claims after a pass are at most the limit and its unreleased give-ups, or what was held before |
| Concurrency.LimitOverRuns | src/controller/plan.rs:237-342 | over any run from within the limit, live claims exceed it by at most the give-ups the worst single pass failed to release |
| Concurrency.MeetsItsBoundExactlyWhen | src/controller/plan.rs:237-342 | whatever happens in a pass, it ends within the limit and its own unreleased give-ups, if and only if no more sessions than the limit count as active at its listing |
| Concurrency.OvershootOutlivesItsPass | src/controller/plan.rs:279-284 | a two-pass run, limit one, whose second pass plans no give-up and ends with two claims |
| Flapping.NeverAskedForAgain | src/controller/plan.rs:318-342 | from the first pass that lists a session as ended, none of the following claims, starts or renews it while it stays so, whatever fails |
| Convergence.CallHelps | src/controller/reconcile.rs:399-628 | one call of an action that suits its session, answered or lost, brings no session further from settled |
| Convergence.ExecHelps | src/controller/reconcile.rs:399-628 | nor does an execution, from any point on, with any calls failing |
| Convergence.CompletedIsSettling | src/controller/reconcile.rs:399-628 | a completed action other than a renewal has settled its session |
| Convergence.HealthyPlanSuits | src/controller/plan.rs:229-354 | every action planned over healthy pods suits its session, and all but renewals are about an unsettled one |
| Convergence.PassHelps | src/controller/reconcile.rs:262-347 | a whole pass brings no session further from settled |
| Convergence.FinishedInPass | src/controller/reconcile.rs:262-298 | an action that went through settles a session that was not, and it stays settled to the end of the pass |
| Quiescence.PassMakesProgress | src/controller/reconcile.rs:262-347 | the measure over all sessions and pods does not grow in a pass, and drops if anything but a renewal went through |
| Quiescence.WorkRunsOut | src/controller/reconcile.rs:262-347 | over any run, with pods reporting and leftovers being collected at any time and however often calls fail, the passes that do more than renew are at most the measure at its start |
| Quiescence.SlotsFullWhenWaiting | src/controller/plan.rs:339-342 | a session is left waiting only when the sessions active or chosen fill the limit |
| Quiescence.UnsettledIsPlanned | src/controller/plan.rs:229-354 | every session or pod that is not settled is planned for, unless it waits while the limit is reached |
| Quiescence.OnlyRenewalsLeft | src/controller/plan.rs:229-354 | after one pass in which nothing failed, and any such changes since, the next plan holds only renewals |
| Renewal.NextClaimDeadline | src/controller/plan.rs:358-368 | no live claim of ours has an earlier deadline, and one has this one |
| Renewal.RequeueBounds | src/controller/reconcile.rs:386-396 | the requeue after a pass is the least of the interval, ten seconds if something is pending, and what each claim has left beyond the margin, taken as five seconds at least; after a failure it is 30 seconds |
| Renewal.NextPassInTime | src/controller/reconcile.rs:386-396 | a pass that ends before a claim's deadline is followed by one that does, across the interval, the five-second floor and the error requeue |
| Renewal.RenewedInTime | src/controller/reconcile.rs:99-106 | over any run, from the pass that claimed it on, a session's claim is renewed before its deadline |
| Listing.Queue.Edit | tests/mock_server/mod.rs:430-525 | claims, renewals, releases, status changes and tombstones as the server makes them, each stamped past everything before |
| Listing.HolderAfterEdit | tests/mock_server/mod.rs:425-518 | a row is held by someone after an edit if and only if their claim found it free, theirs or lapsed, or it was theirs and neither released by them nor taken over lapsed; nothing else changes hands, deadline or status |
| QueueModels.ClaimsAgree | tests/mock_server/mod.rs:425-478 | the queue that the runs act on grants and refuses a claim, and changes its row, exactly as the server that the listing reads |
| QueueModels.ReleasesAgree | tests/mock_server/mod.rs:480-518 | and so for a release |
| QueueModels.ExpiryAgrees | tests/mock_server/mod.rs:233-248 | and so for a claim whose deadline is past |
| Listing.Queue.ExpireStaleClaims | tests/mock_server/mod.rs:233-248 | exactly the claims past their deadline whose session is not running are freed |
| Listing.Queue.List | tests/mock_server/mod.rs:276-330 | the first page of the pool's live rows from the cursor on, by update time and arrival |
| Listing.InOrderIsRight | tests/mock_server/mod.rs:291-309 | that order holds exactly the pool's live rows at or past the cursor, each before those updated later or that arrived later |
| Listing.PageCatchesUp | src/api/client.rs:132-156 | merging a page moves the listing on to its last row, or completes it, and fabricates nothing |
| Listing.ListAll | src/api/client.rs:132-156 | whatever changes between pages, a listing that returns holds every live row of the pool once and as it now is, and nothing but rows or earlier versions of them; if no row changed it returns exactly when predicted |
| Listing.ReturnsUnlessCrowded | src/api/client.rs:132-156 | on an unchanging queue the listing returns if and only if fewer rows than fit on a page share any update time |
| Listing.MassExpiryBlocks | tests/mock_server/mod.rs:233-248 | a page full of claims expiring together keeps every listing from returning |
| Sse.Lines.Next | src/api/client.rs:310-328 | each poll yields the next line or error of what is still to come |
| Sse.DataLines | src/api/client.rs:307-337 | the decoder yields the payloads and errors of the byte-by-byte meaning |
| Sse.PayloadMeans | src/api/client.rs:309-333 | a line has a payload if and only if it begins with `data:`, and it is what follows the white space after that; a final carriage return is no part of it |
| Sse.ChunksDoNotMatter | src/api/client.rs:302-337 | for every split into chunks that meaning is: split the whole stream at newlines and keep the data lines |
| Sse.ErrorsCostNothing | src/api/client.rs:321-336 | errors of the connection all come through in order, and the payloads are those of the bytes received, wherever the errors fall between them |
| Sse.SplitLosesNothing | src/api/client.rs:313-320 | the lines, their newlines and the unterminated tail make up the stream |
| Sse.SplitIsUnique | src/api/client.rs:313-320 | and there is no other way to cut it into lines and a tail |
| Sse.DecodesWhatWasPrinted | tests/mock_server/mod.rs:399-408 | printed messages and keepalives, in any chunks and cut off anywhere in a further one, decode to the payloads in order, the last one's once its line has ended |
| NetworkPolicy.NewEgress | src/network_policy/mod.rs:126-152 | the loop keeps exactly the globs and ranges that can be enforced |
| NetworkPolicy.KeptExactlyWhen | src/network_policy/mod.rs:154-165 | a hostname is enforced, in lower case and without its final dot, if and only if it consists of the permitted characters with single dots between them |
| NetworkPolicy.RangeMeans | src/network_policy/mod.rs:167-174 | a range stands for the addresses that agree with it up to its prefix length, one without a prefix for a single address, and one with too long a prefix for none |
| NetworkPolicy.CiliumManifests | src/network_policy/cilium.rs:18-50 | there is a rule for names exactly if there are names, one for ranges exactly if there are ranges, and none lists nothing |
| NetworkPolicy.GkeManifests | src/network_policy/gke.rs:22-54 | no IP ranges is no rule at all, no names is no second object, and no rule lists nothing |
| NetworkPolicy.NoOpenRule | src/network_policy/gke.rs:22-54 | no emitted rule lists nothing, which would admit everything |
| NetworkPolicy.BlockMeansEntry | src/network_policy/mod.rs:167-174 | an emitted block admits the addresses its entry admits, of its family only |
| NetworkPolicy.CiliumNeverWider | src/network_policy/cilium.rs:18-62 | for every allow list the Cilium policy admits only what an entry admits and cluster DNS; addresses exactly |
| NetworkPolicy.GkeNeverWider | src/network_policy/gke.rs:22-54 | the same for the GKE policies |
| NetworkPolicy.CiliumExact | src/network_policy/cilium.rs:52-62 | plain names and `*.parent` without further stars admit every name they should |
| NetworkPolicy.GkeExact | src/network_policy/gke.rs:37-47 | so do plain names with GKE |
| NetworkPolicy.GkeStarIsOneLevel | src/network_policy/gke.rs:7-9 | of the names `*.parent` allows, for every star-free parent, the GKE rule admits exactly those one level below it |
| GkeSnapshots.SnapshotProvider.OnSuspend | src/snapshot/gke.rs:300-421 | with its calls working it answers, and Ready if there is a good snapshot; with one it changes no trigger and does not ask to wait, whichever calls fail; for a running pod it answers Ready only with one or when its trigger is 30 minutes old |
| GkeSnapshots.AnswersWhenCallsWork | src/snapshot/gke.rs:300-421 | with its calls working it answers Ready if and only if a snapshot of this cycle is ready, nothing can be checkpointed any more, or the trigger is 30 minutes old; otherwise it fires the missing trigger or deletes the failed one |
| GkeSnapshots.ReadySnapshotIsLabelled | src/snapshot/gke.rs:357-381 | Ready with a snapshot of this cycle leaves a ready snapshot under the session's label, and no call changes anything else about a snapshot |
| GkeSnapshots.GoodSnapshotIsKept | src/snapshot/gke.rs:301-315 | with a ready snapshot of this pod's cycle no trigger is fired or deleted, whichever calls fail |
| GkeSnapshots.NoTriggerAfterGood | src/snapshot/gke.rs:301-380 | nor by any later call, while the snapshot is left alone |
| GkeSnapshots.RunningPodIsGivenTime | src/snapshot/gke.rs:382-421 | a running pod without a ready snapshot is given up only when its trigger is 30 minutes old |
| GkeSnapshots.HoldIsBounded | src/snapshot/gke.rs:300-421 | with k triggers deleted for having failed and m failed calls, calls that do not answer Ready span at most (k+1) times 30 minutes and two pass gaps, and m gaps |
| Volumes.FilesystemProvider.Prepare | src/snapshot/filesystem.rs:61-86 | an answered prepare leaves the volume present and unmarked and says whether it may need seeding; an existing one keeps its origin, a new one is empty for an image of the session's own and else cloned, and no other changes; with its calls working only a missing data source keeps it from answering |
| Volumes.FilesystemProvider.OnSuspend | src/snapshot/filesystem.rs:89-109 | Ready means the volume is there, marked now and out of the collector's reach; no volume comes or goes |
| Volumes.FilesystemProvider.OnTerminate | src/snapshot/filesystem.rs:111-122 | success means the volume is gone; no other changes |
| Volumes.FilesystemProvider.Gc | src/snapshot/filesystem.rs:124-157 | the collecting loop, stopping at the first failing deletion; when it ends without an error, every expired volume it visited is gone |
| Volumes.MarkIsLastWrite | src/snapshot/filesystem.rs:61-109 | over any run a volume's mark is what the last step whose own write touched it left: a suspend's time, or none after a prepare's unmarking or creation |
| Volumes.CollectsOnlyOldSuspended | src/snapshot/filesystem.rs:124-157 | the collector deletes a volume only if its mark was last written by a suspend at least the time-to-live ago |
| Volumes.PreparedIsSpared | src/snapshot/filesystem.rs:61-86 | a collection after a successful prepare leaves the volume as it is |
| Volumes.WaitsExactlyWhenSigned | src/snapshot/filesystem.rs:140-142 | it waits out the time-to-live if and only if that fits 63 bits |
| Volumes.CollectsAllExpired | src/snapshot/filesystem.rs:124-157 | with every call working every expired volume visited goes |
| Volumes.CollectsOldEnough | src/snapshot/filesystem.rs:140-157 | so does, for any time-to-live within 63 bits, every volume marked that long ago |
| Seeding.ClonedIsNeverSeeded | src/controller/pod.rs:712-719 | whatever the settings of each start, no pod on a cloned volume seeds it |
| Seeding.SeededOnce | src/controller/pod.rs:376-410 | while all starts agree on whether the session has its own image, no home is copied onto a volume the worker has run on |
| Seeding.SeededOnceExactlyWhen | src/controller/pod.rs:324-345 | over every set of settings that may come and go, that holds of all runs if and only if all of them, or none, give the session an image of its own |
| Seeding.ChangedSettingsCopyOver | src/controller/pod.rs:712-719 | for any two settings that do not, a run that copies over a home in use |
| StatusWrites.PrepareStatusPatch | src/controller/reconcile.rs:775-808 | whatever a pass found out differently is written; conditions keep their time while their state stays |
| StatusWrites.WrittenExactlyWhen | src/controller/reconcile.rs:775-808 | with no condition stored twice, a patch is due if and only if a finding differs, or only `lastSynced` does and what is stored is missing, unreadable or a refresh interval old; what is stored then are the new findings, unless something was left out |
| StatusWrites.WritesSettle | src/controller/reconcile.rs:775-828 | after a stored patch the same findings give no further one, if and only if nothing stored was left out and `lastSynced` is equal or fresh |
| StatusWrites.TransitionTimeKept | src/controller/reconcile.rs:781-791 | a condition in a state it was already in keeps its transition time |

## Left out

* HTTP, Kubernetes and registry transport, authentication, JSON, metrics, tracing, the Helm chart and the CRD: plumbing around the cores.
* `src/image_push.rs`: registry and file access around one appended layer.
* `src/controller/queue_watch.rs`: it only wakes the loop, which does not depend on it.
* `src/controller/context.rs`: the acceptor ID is a constant and the policy provider an answer of the world.
* Pool deletion (`cleanup`), and deletion of the lease or of the pool by others.
* Collisions of the hashed object names: objects are keyed by session, and the snapshot trigger by session and pod UID.
* The order of the hosts in a manifest, and `worker_infrastructure`'s URL parsing: its entries are part of the allow list the policy lemmas quantify over.
* Resources, environment, security contexts and the other fields of pods, secrets and volumes.
* Graceful termination is a pod that lingers, still blocks its name and goes at a later moment; nothing is said about how long.
* The restart count is not wrapped at 32 bits.
* In `Cluster` time passes only as what others do (a claim expires, a pod's age is in the plan's input); deadlines in time are in `Renewal`.
* Claim deadlines past which the session still runs: the server then keeps the claim, and `Cluster` does the same.
* Retry, backoff and the watch's reconnection.
* Token secrets without a session label, which a pass deletes without looking for artifacts.
- Convergence.PassHelps: takes rows and the presence of pods to change only by the operator's own calls, the provider to answer Ready and deleted pods to be gone at once, since a pod that lingers holds its name beyond any number of passes.
- Renewal.RenewedInTime: takes each pass to reach its actions and the renewal of this session to be handled, since nothing bounds a server that refuses.
- GkeSnapshots.SnapshotProvider.OnSuspend: a trigger is taken to be created at the instant the call reads its clock.
- Listing.ListAll: the loop is given what happens before each page, and answers None where the source would go on asking for pages.
- Sse.DecodesWhatWasPrinted: UTF-8 is a parameter, of which only what it promises about the printed texts is used.
- NetworkPolicy.CiliumNeverWider: parsing of addresses is a parameter, with no text an address of both families; the policies' own meaning is that of the module comments.
- Seeding.SeededOnceExactlyWhen: the marker is left in place by the worker.
