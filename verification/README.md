# Kubewarden: a model and its proofs

Kubewarden lets policies, compiled to WebAssembly, decide about requests to a Kubernetes cluster. A
controller (Go) keeps policy servers, their configuration, their certificates and the webhooks that
route requests to them; a policy server (Rust) evaluates policies and groups of policies; `kwctl`
(Rust) runs policies on a workstation. This project models the parts of the system whose correctness
depends on order, time or interleaving, and proves what they promise for every run and every input.

`dafny verify dfyconfig.toml` checks everything.

| files | what they are about |
|---|---|
| `ClusterState`, `ClusterRollout`, `ClusterSafety`, `ClusterExactness`, `ClusterRaces`, `ClusterLiveness`, `ClusterController` | the protocol between the policy server controller, the policy controller, Kubernetes and users: rollout of configurations, creation and removal of webhooks, deletion of servers |
| `CertRotation`, `CertTrust`, `CertExactness`, `CertRaces`, `CertMargin`, `CertFailures`, `CertController` | rotation of the CA and of the server certificates |
| `PolicyGroup` | evaluation of policy groups and the explanation of their rejections |
| `RecordReplay` | recording a policy's host calls and replaying them |
| `ConfigEntries`, `ConfigDecoding` | the configuration as written by the controller and read by both sides |
| `TlsReload`, `ResourceRules`, `Downloader`, `PolicyIds`, `PolicyNames`, `StoreCleanup` | smaller algorithms, each with its law |

## Main results

- **Rollout.** `ClusterRollout.UniquelyReachableMeansServed`: looking at stamps and hash labels only, the
  controller never takes a policy for served when some pod of its server does not serve it.
- **Webhooks.** `ClusterSafety.WebhooksAreBacked`: no webhook without policy, server and pods that serve
  it. This is not true of every run. Four actions break it: bringing back a policy name, switching the
  mutating flag, editing the ConfigMap, and a failed list call, each only in circumstances that `Orderly`
  spells out. `ClusterExactness.UnsafeIffDisorderly` shows that these circumstances are exact: in every
  state that orderly steps lead to, any step can be followed by an unbacked webhook if and only if it is one
  of those. `ClusterRaces` has a run from the empty cluster for each of the four.
- **Deletion.** `ClusterLiveness.DeletionCompletes`: in every fair infinite execution a server marked for
  deletion disappears, by the ranks of the work in progress and the shrinking set of bound policies.
- **Rotation.** `CertTrust.AlwaysTrusted`: between any two reads or writes of a rotation and of the other
  controllers every webhook accepts every valid certificate in use. This is not true of every run. Four steps
  can break it: a policy reconcile that writes a CA it read before a rotation, a policy server reconcile
  that signs with one, the deletion of a webhook that the running tick has listed, and a tick that gives
  up. `CertExactness.UntrustedIffDisorderly` shows that the circumstances `Orderly` spells out for them are
  exact, `CertRaces` has a run for each of the first three, and `CertFailures` shows what a failed patch leads
  to and that a tick repairs it if and only if it finds a CA due.
- **Expiry.** `CertMargin.AlwaysFarFromExpiry` bounds how close to expiry anything can come, certificates
  issued between ticks included, unless one is signed with a CA read before a rotation;
  `SigningFallsShortIffLate` is the exact condition.
- **A tick.** `CertController.CertReconciler.Reconcile` shows all of it of the code of a tick, whichever API
  call fails and however much time goes by, together with idempotence.
- **Groups.** `PolicyGroup.GroupEvaluator.Validate` ties the effectful run to the boolean meaning of the
  expression, and `CausesExplainIffMonotone` shows that the reported causes are a sufficient explanation
  of every rejection if and only if the expression is monotone, as it is without negation.
- **Replay.** `RecordReplay.RecordedSessionReplays` is a simulation between a recorded session and its
  replay, for any deterministic policy and any host; `ReplaysIffRequestsRoundTrip` shows that nothing less
  than the round trip of requests would do.

## How the model is built

State that the source updates in place is a class (`Cluster`, `CertReconciler`, `GroupEvaluator`,
`Recorder`, `Replayer`), and its methods follow the source's loops and branches. Each method of the first
two, with the API call that fails as a parameter, is proved to be a sequence of atomic steps of a state
machine (`ClusterState`, `CertRotation`), in which a reconcile is cut at its API writes so that everybody
else can act in between. Invariants, safety and liveness are proved of the state machine, hence of the code.

Assumptions about the surroundings:

- Resource versions strictly increase, and a patch that changes nothing leaves the version alone.
- A replica set carries the stamp its deployment had when it was made; a pod loads the ConfigMap that is
  current when it starts (or restarts) and is not ready before; template hashes of living pods are not reused.
- Objects carry their finalizer from creation on; controller-runtime runs one reconcile per object at a time.
- Objects are keyed by unique name. `PolicyNames` gives the exact condition for a policy to share its name.
- A list call that fails is read as an empty list, as the guards at lines 315, 321, 328 and 335 of
  `kubewarden-controller/internal/controller/policyserver_controller.go` do with every error but NotFound;
  the model lets any set of policies be missed.
- The server of a policy cannot be changed (`validatePolicyServerField` forbids it); its mutating flag can.
- The reads of one reachability check happen at one moment; between the check and the webhook write
  anything may happen.
- In the certificate model the other controllers read the CA and use it in separate steps, so that a cached
  read is an early read; a certificate is signed and stored in one step.
- The controller's own certificate may be deleted but is not made again; no tick gets past it then.
- A server secret deleted after it was listed is not looked at any more, whether its listed copy was due, and
  the tick gives up, or not, and it is passed over.
- A server keeps presenting its previous certificate (`inUse`) until it reloads, for as long as it likes.
- UTF-8 and YAML are a codec whose laws are stated where they are needed; a policy is a function of the
  replies it has had, and a host an arbitrary function of the requests.

Where code and documentation differ, the code is followed: members of a group are downloaded under
`group/#member`, not `group/member` as the comment above `policies_to_download` says; the list
`["pods", "*"]` is accepted by `validate_resources`, although its message says that `*` excludes other
entries without subresources; the names of the two wildcard sets there are the wrong way round in their
comments.

## Model

| member | source | states |
|---|---|---|
| `ClusterRollout.StepKeepsRollout` | kubewarden-controller/internal/controller/policyserver_controller_deployment.go:47-67 | whoever acts (users, hand edits of the ConfigMap, Kubernetes, both controllers), no stamp runs ahead of its ConfigMap, stamps only grow, no pod has read something older than the stamp of its replica set, and a pod that has read the present version has read the present contents |
| `ClusterRollout.RunKeepsRollout` | kubewarden-controller/internal/controller/policyserver_controller_deployment.go:289-303 | the rollout invariant holds in every state of every finite run from the empty cluster |
| `ClusterRollout.LatestHashComesFromASet` | kubewarden-controller/internal/controller/policy_subreconciler.go:257-260 | a non-empty hash found is that of a listed replica set of the present revision stamped with the present version |
| `ClusterRollout.ReachableIsServedByAll` | kubewarden-controller/internal/controller/policy_subreconciler.go:213-272 | under the rollout invariant, the check of stamps and hash labels implies that every pod of the server has loaded exactly the present configuration |
| `ClusterRollout.ReachableIsLive` | kubewarden-controller/internal/controller/policy_subreconciler.go:213-260 | and that the deployment is stamped with the present version of a readable configuration |
| `ClusterRollout.NewVersionIsNotLive` | kubewarden-controller/internal/controller/policyserver_controller_configmap.go:119-167 | after any change of the data the deployment is not stamped with the present version, until the server reconcile stamps it |
| `ClusterRollout.UniquelyReachableMeansServed` | kubewarden-controller/internal/controller/policy_subreconciler.go:213-260 | in every run, whenever the reachability check says yes the server has a pod, and all of its pods are ready and have loaded the present configuration, which holds the policy |
| `ClusterRollout.ReachableIff` | kubewarden-controller/internal/controller/policy_subreconciler.go:213-272 | the check in plain terms, both ways: readable configuration with the policy, the first listed replica set of the server with the revision of the deployment and the version of the configuration, and all pods of that server ready and of that set |
| `ClusterRollout.ReachabilityIsLocal` | kubewarden-controller/internal/controller/policy_subreconciler.go:228-253 | two clusters that agree on the deployment, configuration, replica sets and pods of a server give the same answer, whatever goes on at other servers |
| `ClusterSafety.StepKeepsSafety` | kubewarden-controller/internal/controller/policyserver_controller.go:356-398 | every orderly step keeps: webhooks and decisions to write one belong to an existing policy and server; no server reconcile acts on a list that lacks a policy which has a webhook or can still get one; an active policy has its webhook |
| `ClusterSafety.StepKeepsSupplied` | kubewarden-controller/internal/controller/policy_subreconciler.go:72-168 | every orderly step keeps: what pods of a server have loaded, or could still load, includes every policy with a webhook or about to get one |
| `ClusterSafety.PathKeepsInv` | kubewarden-controller/internal/controller/policyserver_controller.go:83-167 | all invariants hold in every state of every orderly path from a state in which they hold |
| `ClusterSafety.WebhooksAreBacked` | kubewarden-controller/internal/controller/policy_subreconciler.go:72-168 | in every orderly interleaving a webhook has its policy and its policy server, routes to that server, and every pod that has read a configuration serves the policy; an active policy that is not being deleted has its webhook |
| `ClusterExactness.LostGoesUnbacked` | kubewarden-controller/internal/controller/policyserver_controller_deployment.go:47-67 | from any state in which a policy with a webhook is missing from its server configuration and something can still read that, orderly steps lead to a pod that turns the policy away |
| `ClusterExactness.OverlookedGoesUnbacked` | kubewarden-controller/internal/controller/policyserver_controller.go:356-378 | from any state in which the server reconcile has overlooked a policy with a webhook, orderly steps lead to an unbacked webhook |
| `ClusterExactness.ActivatableCanExist` | kubewarden-controller/internal/controller/policy_subreconciler.go:72-145 | a policy in a live configuration can get its webhook before the server reconcile does anything more, from any state |
| `ClusterExactness.ServedPolicyActivates` | kubewarden-controller/internal/controller/policy_subreconciler.go:72-145 | a policy that all pods of its server serve gets its webhook in two steps, with other servers and pods where they are, and nothing else changes |
| `ClusterExactness.ReusedNameGoesUnbacked` | kubewarden-controller/internal/controller/policyserver_controller.go:356-378 | from any state satisfying the invariants: bringing back a name that the live configuration holds and the server reconcile has overlooked can be followed by an unbacked webhook |
| `ClusterExactness.SwitchGoesUnbacked` | kubewarden-controller/api/policies/v1/policy_validation.go:86-99 | the same for switching the mutating flag of a policy that has a webhook or is about to get one, which updates do not check |
| `ClusterExactness.LosingEditGoesUnbacked` | kubewarden-controller/internal/controller/policyserver_controller_configmap.go:141-167 | the same for a hand edit of the ConfigMap that loses such a policy while a pod can still read it |
| `ClusterExactness.MissedPolicyGoesUnbacked` | kubewarden-controller/internal/controller/policyserver_controller.go:312-335 | the same for a failed list call, read as an empty list, that hides such a policy from a reconcile which then writes the configuration or lets the server go |
| `ClusterExactness.UnsafeIffDisorderly` | kubewarden-controller/internal/controller/policyserver_controller.go:83-167 | in every state that orderly steps lead to and for every step of anyone: an unbacked webhook can follow by orderly steps if and only if that step is one of these four |
| `ClusterRaces.SwitchedFlagOrphansWebhook` | kubewarden-controller/internal/controller/policy_subreconciler.go:147-158 | a run in which the mutating flag is switched and the policy deleted, after which the validating webhook is still there and its policy is not |
| `ClusterRaces.ReusedNameOrphansWebhook` | kubewarden-controller/internal/controller/policyserver_controller.go:356-378 | a run in which a policy name is brought back between the last look of a deleted server and its removal, after which a webhook routes to a server that is gone |
| `ClusterRaces.EditedOutIsTurnedAway` | kubewarden-controller/internal/controller/policyserver_controller_configmap.go:141-167 | a run in which a policy is edited out of the ConfigMap by hand, after which its webhook routes to a pod that does not serve it |
| `ClusterRaces.MissedPolicyOrphansWebhook` | kubewarden-controller/internal/controller/policyserver_controller.go:312-335 | a run in which a list call fails while a server is being deleted, after which a webhook routes to a server that is gone |
| `ClusterLiveness.EventuallyLists` | kubewarden-controller/internal/controller/policyserver_controller.go:83-99 | in a fair execution a server marked for deletion is gone or lists its policies again, whatever it was in the middle of |
| `ClusterLiveness.EventuallyAllDeleting` | kubewarden-controller/internal/controller/policyserver_controller.go:380-398 | every policy still bound to the server is eventually marked for deletion |
| `ClusterLiveness.EventuallyUnbound` | kubewarden-controller/internal/controller/policy_subreconciler.go:147-168 | every bound policy marked for deletion is eventually gone |
| `ClusterLiveness.EventuallyEmpty` | kubewarden-controller/internal/controller/policyserver_controller.go:356-378 | the set of bound policies eventually becomes empty |
| `ClusterLiveness.QuietDeletionCompletes` | kubewarden-controller/internal/controller/policyserver_controller.go:356-398 | a fair execution in which a marked server gets no new policies and its removal meets no failures reaches a state without that server |
| `ClusterLiveness.DeletionCompletes` | kubewarden-controller/internal/controller/policyserver_controller.go:83-99 | the same when failures and new policies merely come to an end at some point: every fair execution reaches a state without the server |
| `ClusterLiveness.DeletionLeavesNoWebhook` | kubewarden-controller/internal/controller/policyserver_controller.go:312-398 | and, the execution being orderly, no webhook routes to the server in that state |
| `ClusterController.ReconcileSettles` | kubewarden-controller/internal/controller/policyserver_controller.go:83-167 | after an undisturbed reconcile the configuration holds exactly the bound policies, the deployment carries its version, and reconciling again changes nothing, so there is no needless rollout |
| `ClusterController.Cluster.ListPods` | kubewarden-controller/internal/controller/policy_subreconciler.go:242-248 | lists exactly the pods of the server |
| `ClusterController.Cluster.FindLatestHash` | kubewarden-controller/internal/controller/policy_subreconciler.go:228-241 | finds the hash of the first latest replica set, empty without one |
| `ClusterController.Cluster.IsPolicyInConfigMap` | kubewarden-controller/internal/controller/policy_subreconciler.go:262-272 | true exactly when every entry can be read and the policy is among them |
| `ClusterController.Cluster.IsPolicyUniquelyReachable` | kubewarden-controller/internal/controller/policy_subreconciler.go:213-255 | decides the reachability predicate, including missing ConfigMap, missing replica set and no pods |
| `ClusterController.Cluster.ReconcileBound` | kubewarden-controller/internal/controller/policy_subreconciler.go:94-145 | the part from the deployment on, for a policy whose server was found: its steps, requeue and failure |
| `ClusterController.Cluster.ReconcilePolicy` | kubewarden-controller/internal/controller/policy_subreconciler.go:72-145 | whichever API call fails, the whole new cluster state is that of the atomic steps Check and then CreateWebhook or AbortPolicy; status and webhook are those of each case of the source; requeue and failure are characterised exactly, including the calls whose failure is read as a missing server or an unreachable policy |
| `ClusterController.Cluster.ReconcilePolicyDeletion` | kubewarden-controller/internal/controller/policy_subreconciler.go:147-168 | the new state is that of DeleteWebhook then RemovePolicy, or of the part before the call that failed; the policy never goes before its webhook |
| `ClusterController.Cluster.GetPolicies` | kubewarden-controller/internal/controller/policyserver_controller.go:312-354 | fails on NotFound; otherwise lists exactly the policies bound to the server but for those whose list call failed, which it does not notice |
| `ClusterController.Cluster.BuildPoliciesMap` | kubewarden-controller/internal/controller/policyserver_controller_configmap.go:200-224 | one entry per listed policy, with its specification |
| `ClusterController.Cluster.DeletePoliciesAndRequeue` | kubewarden-controller/internal/controller/policyserver_controller.go:380-398 | marks exactly the listed policies whose delete call succeeds, keeps going after a failure, and reports one if a policy that was not yet marked could not be |
| `ClusterController.Cluster.CreateOrPatchConfigMap` | kubewarden-controller/internal/controller/policyserver_controller_configmap.go:119-167 | the version moves exactly when the data does |
| `ClusterController.Cluster.ReconcileDeployment` | kubewarden-controller/internal/controller/policyserver_controller_deployment.go:47-67 | the deployment is stamped with the version read from the ConfigMap and keeps its revision, unless one of the two calls fails |
| `ClusterController.Cluster.ReconcileDeletion` | kubewarden-controller/internal/controller/policyserver_controller.go:356-378 | policies seen are marked and the server kept, or, with none seen, the server is let go unless the update fails; a conflict is not reported, any other failure is |
| `ClusterController.Cluster.Refresh` | kubewarden-controller/internal/controller/policyserver_controller.go:101-167 | the new state is that of List, Write, Read and Stamp in this order, cut short by AbortServer at the call that fails |
| `ClusterController.Cluster.Reconcile` | kubewarden-controller/internal/controller/policyserver_controller.go:83-167 | whatever fails, the whole reconcile is a sequence of atomic steps of the state machine, so the theorems over interleavings apply to it; requeue and failure are characterised exactly |
| `CertTrust.EnvKeepsTrust` | kubewarden-controller/internal/controller/policy_subreconciler_webhook.go:59-66 | time, reloads and the other two controllers, which read the CA at one moment and use it at another, keep the trust invariant when orderly |
| `CertTrust.CertKeepsRecent` | kubewarden-controller/internal/controller/cert_controller.go:90-154 | replacing the CA or dropping the old one leaves only the current and the previous CA valid: the CA before last has expired by the time of a rotation |
| `CertTrust.CertKeepsSheltered` | kubewarden-controller/internal/controller/cert_controller.go:68-276 | no step of a tick leaves a webhook without the current CA that some certificate is going to need before the webhook gets it |
| `CertTrust.PatchKeepsTrusted` | kubewarden-controller/internal/controller/cert_controller.go:159-203 | overwriting one bundle, in the middle of either loop, leaves every valid certificate accepted |
| `CertTrust.CheckKeepsTrusted` | kubewarden-controller/internal/controller/cert_controller.go:240-276 | so does re-issuing one server certificate: every webhook has the new CA by then |
| `CertTrust.IssuedFor` | kubewarden-controller/internal/constants/constants.go:74-76 | a CA is made for ten years, and a certificate, on either issuing path, for one year and for the name by which the server is called |
| `CertTrust.AlwaysTrusted` | kubewarden-controller/internal/controller/cert_controller.go:68-276 | at every moment of every orderly run, between any two reads or writes of anyone, each webhook accepts each certificate a server presents or may switch to next that is still valid: its CA is in the bundle and it is made out to the name called |
| `CertExactness.HookWriteTrustedIff` | kubewarden-controller/internal/controller/policy_subreconciler_webhook.go:59-66 | writing the CA that was read alone into a bundle keeps trust for the moment if and only if no valid certificate is from another CA |
| `CertExactness.ServerWriteTrustedIff` | kubewarden-controller/internal/controller/policyserver_controller_cert_secret.go:47-74 | signing with the CA that was read keeps trust for the moment if and only if that CA has expired or every webhook has it |
| `CertExactness.UnsparedLosesTrust` | kubewarden-controller/internal/controller/cert_controller.go:68-276 | from any world, in any phase of a tick: a webhook that lacks the current CA and is not spared comes to refuse a valid certificate by orderly steps |
| `CertExactness.HookDeletionLosesTrust` | kubewarden-controller/internal/controller/cert_controller.go:173-178 | deleting a webhook that the loop has listed makes the patch fail and the tick give up, and can be followed by a loss of trust unless the others are spared |
| `CertExactness.AbortLosesTrust` | kubewarden-controller/internal/controller/cert_controller.go:106-115 | giving up can be followed by a loss of trust if some webhook lacks the current CA, the controller has its own certificate, and the next tick has no reason to patch the webhooks |
| `CertExactness.UntrustedIffDisorderly` | kubewarden-controller/internal/controller/cert_controller.go:68-276 | in every world that orderly steps lead to and for every step of anyone: a loss of trust can follow by orderly steps if and only if that step is not orderly |
| `CertRaces.StaleBundleRefuses` | kubewarden-controller/internal/controller/policy_subreconciler.go:128-139 | a run in which a policy reconcile reads the CA before a rotation and writes it after, and the webhook then refuses the certificate in use |
| `CertRaces.StaleSignatureIsRefused` | kubewarden-controller/internal/controller/policyserver_controller_cert_secret.go:25-66 | a run in which a policy server reconcile reads the CA before a rotation and signs with it after, and a webhook refuses that certificate |
| `CertRaces.DeletedHookStopsTheTick` | kubewarden-controller/internal/controller/cert_controller.go:173-199 | a run in which a listed webhook is deleted before it is patched, after which another webhook comes to refuse a valid certificate |
| `CertMargin.AlwaysFarFromExpiry` | kubewarden-controller/internal/controller/cert_controller.go:21-51 | with ticks at most 12 h apart that succeed, at every instant the CA and every server chain have at least 60 days minus 12 h left, less the time one reconcile may take, unless a server certificate is signed with a CA that expires too early |
| `CertMargin.SigningFallsShortIffLate` | kubewarden-controller/internal/controller/policyserver_controller_cert_secret.go:25-66 | signing with the CA that was read can be followed by a certificate too close to expiry, by punctual steps, if and only if that CA does not last the lookahead from the last tick that vouched for it all |
| `CertMargin.CurrentIsNeverLate` | kubewarden-controller/internal/controller/policyserver_controller_cert_secret.go:47-74 | signing with the current CA never is |
| `CertMargin.EnvKeepsMargin` | kubewarden-controller/internal/controller/policyserver_controller_cert_secret.go:47-74 | certificates issued between ticks keep the margin |
| `CertMargin.CertKeepsMargin` | kubewarden-controller/internal/constants/constants.go:74-76 | every step of a tick keeps the margin, given the lookahead and the two lifetimes |
| `CertController.SigningKeepsSettledIffCurrent` | kubewarden-controller/internal/controller/policyserver_controller_cert_secret.go:47-74 | a certificate from the other issuing path passes the check of a tick at the same clock if and only if it was signed with the current CA |
| `CertController.DueIffFails` | kubewarden-controller/internal/certs/certs.go:195-240 | the check of a server certificate in plain terms: from the current CA, for the name called, and valid, with the CA, sixty days from now |
| `CertController.RecordedIsTrusted` | kubewarden-controller/internal/controller/cert_controller.go:68-85 | every state recorded while the code runs satisfies the trust invariant |
| `CertController.RenewedVerify` | kubewarden-controller/internal/controller/cert_controller.go:206-276 | after all servers have been checked, with no time gone by, every certificate verifies against the current CA at the lookahead |
| `CertController.AllInOrder` | kubewarden-controller/internal/controller/cert_controller.go:68-85 | the tick as a whole from its parts: what lasts, what is settled, and what is left alone |
| `CertController.CertReconciler.PatchListed` | kubewarden-controller/internal/controller/cert_controller.go:168-178 | the listed webhooks get the bundle one by one, the others keep theirs, up to the first failing call |
| `CertController.CertReconciler.ReconcileKind` | kubewarden-controller/internal/controller/cert_controller.go:160-179 | lists one kind of webhooks and gives all of them the bundle |
| `CertController.CertReconciler.ReconcileWebhookConfigurations` | kubewarden-controller/internal/controller/cert_controller.go:159-203 | first the validating and then the mutating webhooks end with the given bundle |
| `CertController.CertReconciler.RotateCARoot` | kubewarden-controller/internal/controller/cert_controller.go:96-115 | the new CA and the old one are in the secret, and then both in every webhook, unless a call fails |
| `CertController.CertReconciler.ReconcileCARoot` | kubewarden-controller/internal/controller/cert_controller.go:90-121 | on success the CA verifies at the lookahead; it is replaced exactly when it did not, the old one is kept, and every webhook holds both |
| `CertController.CertReconciler.DropOldCARoot` | kubewarden-controller/internal/controller/cert_controller.go:131-150 | the old CA leaves the secret and then every webhook, unless a call fails |
| `CertController.CertReconciler.ReconcileOldCARoot` | kubewarden-controller/internal/controller/cert_controller.go:125-154 | the old CA is dropped exactly when it no longer verifies now, and then every webhook holds the current one alone |
| `CertController.CertReconciler.ReconcileServerCert` | kubewarden-controller/internal/controller/cert_controller.go:240-276 | a certificate is replaced, by one from the current CA for the right name and one year, exactly when it fails its check; without that nothing is written |
| `CertController.CertReconciler.ReconcileOwnCert` | kubewarden-controller/internal/controller/cert_controller.go:206-215 | the own certificate of the controller comes first, and without it the tick gives up |
| `CertController.CertReconciler.RenewListed` | kubewarden-controller/internal/controller/cert_controller.go:230-235 | each listed certificate is kept or renewed on its own merits, up to the first failing call |
| `CertController.CertReconciler.ReconcileServerCerts` | kubewarden-controller/internal/controller/cert_controller.go:206-237 | every certificate is from the current CA and lasts the lookahead from the start of the tick; if none was due and no time went by, nothing is written |
| `CertController.CertReconciler.ReconcileAll` | kubewarden-controller/internal/controller/cert_controller.go:68-85 | on success everything lasts the lookahead from the start, and nothing is due if no time went by; if nothing was due nothing is written |
| `CertController.CertReconciler.Reconcile` | kubewarden-controller/internal/controller/cert_controller.go:68-276 | one tick in which any API call may fail and any time may go by after each: all worlds gone through are trusted; on success everything lasts and is made out to the service name, and nothing is due if no time went by; on failure trust can be lost later exactly when giving up there was not orderly; no write when nothing was due and no time went by |
| `CertFailures.MissedPatchIsNotRetried` | kubewarden-controller/internal/controller/cert_controller.go:96-115 | over any number of ticks, failures, other steps and any time: a webhook that missed the new CA goes on lacking it until a check finds a CA due or a policy reconcile writes it |
| `CertFailures.TickRepairsIffDue` | kubewarden-controller/internal/controller/cert_controller.go:68-154 | a whole tick, with others acting meanwhile, repairs such a webhook if and only if it finds the CA or the old CA due; otherwise the webhook then refuses every valid server certificate |
| `PolicyGroup.RunMeansTruth` | policy-evaluator/src/policy_group_evaluator/evaluator.rs:113-236 | a run that reaches a value reaches the plain boolean meaning, in which a member counts as allowing if it allows and does not mutate, and records exactly the members reached, each denial with its reason |
| `PolicyGroup.MutationDenies` | policy-evaluator/src/policy_group_evaluator/evaluator.rs:147-160 | a member that allows the request but wants to change it denies it, with the text the source gives |
| `PolicyGroup.Texts` | policy-evaluator/src/policy_group_evaluator/evaluator.rs:180-196 | the texts of a rejection |
| `PolicyGroup.RunFailsIffReachesFailure` | policy-evaluator/src/policy_group_evaluator/evaluator.rs:242-267 | a run fails if and only if it reaches a member that is unknown or cannot answer |
| `PolicyGroup.DecisiveDecides` | policy-evaluator/src/policy_group_evaluator/evaluator.rs:113-236 | for any expression, a subset of the members reached forces its value whatever the others say |
| `PolicyGroup.CausesExplainIffMonotone` | policy-evaluator/src/policy_group_evaluator/evaluator.rs:186-236 | the causes listed explain every rejection of an expression, whatever else could have been answered, if and only if the expression is monotone |
| `PolicyGroup.NegationFreeIsMonotone` | policy-evaluator/src/policy_group_evaluator/evaluator.rs:113-184 | an expression without negation is monotone |
| `PolicyGroup.CausesExplainRejection` | policy-evaluator/src/policy_group_evaluator/evaluator.rs:186-225 | without negation, as long as the listed causes deny, no other answers make the expression true |
| `PolicyGroup.NegationEscapesExplanation` | policy-evaluator/src/policy_group_evaluator/evaluator.rs:186-236 | with negation a rejection can list nothing although another answer would pass |
| `PolicyGroup.AddCause` | policy-evaluator/src/policy_group_evaluator/evaluator.rs:186-203 | appending the cause of a denied member keeps the list free of duplicates and exact |
| `PolicyGroup.AcceptedIffReachedAreRegistered` | policy-evaluator/src/policy_group_evaluator/evaluator.rs:273-317 | the settings check accepts an expression if and only if, with everybody saying yes, it reaches registered members only |
| `PolicyGroup.AcceptedCanFail` | policy-evaluator/src/policy_group_evaluator/evaluator.rs:273-317 | an accepted expression that fails on a later request |
| `PolicyGroup.NeverFailsIffReachedAreRegistered` | policy-evaluator/src/policy_group_evaluator/evaluator.rs:113-184 | an expression has a value whatever its members answer if and only if under no answers it reaches a member that is not registered |
| `PolicyGroup.MentionedRegisteredNeverFails` | policy-evaluator/src/policy_group_evaluator/evaluator.rs:113-184 | registering every member mentioned is enough for that |
| `PolicyGroup.MentionedAreReached` | policy-evaluator/src/policy_group_evaluator/evaluator.rs:113-236 | an expression never reaches a member it does not mention |
| `PolicyGroup.ValidateSettings` | policy-evaluator/src/policy_group_evaluator/evaluator.rs:273-317 | an error per member with bad settings and one for a bad expression, each under its own key, and none otherwise |
| `PolicyGroup.GroupEvaluator.Evaluate` | policy-evaluator/src/policy_group_evaluator/evaluator.rs:113-184 | the walk with its side effects refines the run as a value |
| `PolicyGroup.GroupEvaluator.CollectCauses` | policy-evaluator/src/policy_group_evaluator/evaluator.rs:186-203 | each recorded denial is listed exactly once with its message, in any iteration order |
| `PolicyGroup.GroupEvaluator.Validate` | policy-evaluator/src/policy_group_evaluator/evaluator.rs:113-236 | 500 exactly on a reached failure; otherwise the plain meaning, and a rejection lists every reached denial exactly once and nothing else |
| `RecordReplay.InstantsDoNotKeep` | policy-evaluator/src/callback_requests.rs:225-250 | a point in time keeps its age; a request reads back as itself if and only if it carries none or no time went by |
| `RecordReplay.KeptIs` | kwctl/src/callback_handler/proxy.rs:81-127 | an exchange is kept exactly if its request can be written and its payload, if any, is text, and then with both |
| `RecordReplay.LiveIsTheSession` | kwctl/src/callback_handler/proxy.rs:231-329 | each request is the one the policy makes after the replies before it, each reply is what the host says to that request, and the session ends early only if the policy has no more requests |
| `RecordReplay.PlayBackAsks` | kwctl/src/callback_handler/proxy.rs:165-201 | in a replay too each request is the one the policy makes after the replies before it |
| `RecordReplay.ReadableReplayGoesThrough` | kwctl/src/callback_handler/proxy.rs:203-228 | a replay breaks off only over a recorded request that cannot be read |
| `RecordReplay.Recorder.RecordExchange` | kwctl/src/callback_handler/proxy.rs:81-127 | appends the exchange, or a gap when request or payload cannot be converted |
| `RecordReplay.Recorder.DumpRecords` | kwctl/src/callback_handler/proxy.rs:132-155 | the session is written whole, in order, or not at all |
| `RecordReplay.Replayer.ProduceRecordedResponse` | kwctl/src/callback_handler/proxy.rs:203-228 | consumes one exchange while there is one and answers from it alone |
| `RecordReplay.RecordSession` | kwctl/src/callback_handler/proxy.rs:231-329 | drives any policy against any host; what it saves is a recording of that session, and it saves nothing only if some exchange could not be kept |
| `RecordReplay.ReplayOne` | kwctl/src/callback_handler/proxy.rs:176-198 | one request and its reply extend the replayed session by one |
| `RecordReplay.ReplaySession` | kwctl/src/callback_handler/proxy.rs:165-201 | drives any policy against a recording; what is left over is the tail after the requests made |
| `RecordReplay.RecordedSessionReplays` | kwctl/src/callback_handler/proxy.rs:81-329 | replaying a recorded session gives the same requests, payloads and error messages, and uses up the recording, when every request round trips |
| `RecordReplay.ReplaysIffRequestsRoundTrip` | kwctl/src/callback_handler/proxy.rs:203-228 | the replay is the session again if and only if every request round trips, or the host had replied with the very complaint the replay makes |
| `RecordReplay.ReplaysIffNoInstants` | policy-evaluator/src/callback_requests.rs:225-250 | whatever the clocks at each exchange: the replay is the session again if and only if no request carries a point in time, but for those read at the moment they were written and for that complaint |
| `RecordReplay.ReplayIsPositional` | kwctl/src/callback_handler/proxy.rs:165-228 | against any policy: request i succeeds if and only if it equals recorded request i and that one succeeded, with the recorded payload; a recorded error is repeated, another request gets the complaint quoting both, and past the end all fail |
| `RecordReplay.Complaints` | kwctl/src/callback_handler/proxy.rs:207-225 | the texts of the two complaints |
| `TlsReload.Watch` | policy-server/src/certs.rs:86-161 | the loop refines the state machine for every sequence of events and load outcomes, and what it serves was built from one load |
| `TlsReload.ServesOneLoad` | policy-server/src/certs.rs:86-161 | the certificate and key served come from one load and a successful build |
| `TlsReload.FailureKeepsServing` | policy-server/src/certs.rs:118-159 | what is served changes only to what is then held and builds; a failed read or build changes nothing |
| `TlsReload.ServesWhatItHolds` | policy-server/src/certs.rs:92-160 | at the loop head what is served is what is held, if that builds, when client CA watches are apart from the others |
| `TlsReload.HoldsWhatWasRead` | policy-server/src/certs.rs:86-161 | over any sequence of events, with client CA watches apart: the client CAs held are those last read on a change of theirs, the pair held is the one last read when both certificate and key had changed since the time before, and it was read exactly then |
| `TlsReload.CaChangeIsServed` | policy-server/src/certs.rs:117-159 | a change of the client CAs alone is served as soon as they are read, if they build |
| `TlsReload.ServesWhatWasRead` | policy-server/src/certs.rs:86-161 | so at every moment the newest files read are served, if they build together |
| `TlsReload.SharedWatchServesStale` | policy-server/src/certs.rs:110-149 | for any watches that are not apart, if anything else with client CAs builds, there is a sequence of events after which a held, buildable configuration is not served |
| `TlsReload.NothingElseToServe` | policy-server/src/certs.rs:86-161 | if nothing else with client CAs builds, what is held and builds is served whatever is watched |
| `TlsReload.ServesWhatItHoldsIffWatchedApart` | policy-server/src/certs.rs:86-161 | for every builder: what is held and builds is always served if and only if the watches are apart or there is nothing else to serve |
| `TlsReload.AttemptsArePaidFor` | policy-server/src/certs.rs:135-150 | reloads of the server pair never exceed the certificate events nor the key events |
| `ResourceRules.SplitJoins` | policy-evaluator/src/policy_metadata.rs:104-111 | splitting at the first slash loses nothing |
| `ResourceRules.ScanEntry` | policy-evaluator/src/policy_metadata.rs:93-127 | one entry: refused with the reason the source gives first, or added to the two sets and three flags |
| `ResourceRules.ValidateResources` | policy-evaluator/src/policy_metadata.rs:79-139 | accepts exactly the lists without empty entry, without later entry under an earlier slash wildcard, without `*/*` beside others and without `*` whose last slash-less entry differs; otherwise reports the first bad entry or the clash |
| `ResourceRules.EndsPlainIff` | policy-evaluator/src/policy_metadata.rs:105-108 | the flag for slash-less entries: some entry without a slash, other than `*`, has only entries with a slash after it |
| `ResourceRules.ShadowsIffCovers` | policy-evaluator/src/policy_metadata.rs:113-127 | the pairwise refusal coincides with inclusion of the sets of resources matched, except that `*/*` refuses only wildcards this way |
| `ResourceRules.AcceptedHasNoCovered` | policy-evaluator/src/policy_metadata.rs:79-139 | in an accepted list no wildcard covers a later entry with a slash |
| `ResourceRules.OrderDecides` | policy-evaluator/src/policy_metadata.rs:79-139 | lists refused one way round and accepted the other |
| `ConfigEntries.ResourcesReadBack` | kubewarden-controller/internal/controller/policyserver_controller_configmap.go:64-106 | context-aware resources read back in order |
| `ConfigEntries.UnmarshalAfterMarshal` | kubewarden-controller/internal/controller/policyserver_controller_configmap.go:49-106 | reading back gives the entry without the fields its shape omits, and fails exactly on an entry with neither module nor members |
| `ConfigEntries.MapReadsBack` | kubewarden-controller/internal/controller/policyserver_controller_configmap.go:49-106 | one such entry makes the whole map unreadable; otherwise all names and entries come back |
| `ConfigEntries.UnmarshalIff` | kubewarden-controller/internal/controller/policyserver_controller_configmap.go:49-62 | any JSON is accepted exactly if its fields can be read and it has a module or members, not both |
| `ConfigEntries.ReadsWellTyped` | kubewarden-controller/internal/controller/policyserver_controller_configmap.go:29-41 | its fields can be read exactly if each is missing, null or of its own type |
| `ConfigEntries.ModuleAlone` | kubewarden-controller/internal/controller/policyserver_controller_configmap.go:29-41 | everything left out is empty |
| `ConfigEntries.BuildPoliciesMap` | kubewarden-controller/internal/controller/policyserver_controller_configmap.go:200-224 | every entry carries what a policy of that name says of itself, field by field, and with distinct names every policy has its own |
| `ConfigDecoding.DecodesAsMeant` | policy-server/src/config.rs:321-356 | the policy server decodes an entry, as the same kind with the same modules, mode, settings, expression and message, exactly when its mode is known and its settings are objects; otherwise it refuses it |
| `ConfigDecoding.BothSidesAgree` | policy-server/src/config.rs:300-356 | which entries each side accepts, and that they agree on kind and module where both do |
| `ConfigDecoding.PolicyArrives` | policy-server/src/config.rs:321-356 | what the policy server makes of a policy object, through entry and text |
| `ConfigDecoding.GroupArrives` | policy-server/src/config.rs:300-356 | and of a group with members |
| `ConfigDecoding.ModeDefaults` | policy-server/src/config.rs:327-330 | the mode is protect unless given, monitor or protect if given, and anything else is refused |
| `ConfigDecoding.MemberIff` | policy-server/src/config.rs:300-310 | a member has a module, settings and resources and nothing else |
| `ConfigDecoding.PolicyComesFirst` | policy-server/src/config.rs:321-356 | for any fields: what looks like a policy is one even if it looks like a group too, what looks like a group only is a group, and anything else is refused |
| `Downloader.ValidatePolicies` | policy-server/src/config.rs:239-260 | accepts exactly the configurations without a slash in any name |
| `Downloader.LabelsDiffer` | policy-server/src/policy_downloader.rs:234-256 | in a validated configuration flat names do not collide |
| `Downloader.PoliciesToDownload` | policy-server/src/policy_downloader.rs:234-256 | nothing made up, and in a validated configuration nothing lost |
| `Downloader.SlashLosesAModule` | policy-server/src/policy_downloader.rs:234-256 | a configuration with a slash in a name where two modules share a flat name |
| `Downloader.StoredMeansChecked` | policy-server/src/policy_downloader.rs:99-213 | stored, at the path fetched, exactly when fetched and, with a verifier, verified and of the right checksum |
| `Downloader.FailureIsTheFirst` | policy-server/src/policy_downloader.rs:106-176 | otherwise the first thing that went wrong is reported, on behalf of the policy |
| `Downloader.DownloadQueue` | policy-server/src/policy_downloader.rs:53-216 | every URL asked for is tried exactly once, for the first policy in line, and its outcome kept |
| `Downloader.DownloadPolicies` | policy-server/src/policy_downloader.rs:53-256 | for a validated configuration exactly one outcome per distinct module URL, each tried once on behalf of a policy that needs it |
| `Downloader.OrderMattersForNamesOnly` | policy-server/src/policy_downloader.rs:88-213 | permuting the queue changes at most the name quoted in an error |
| `PolicyIds.JoinAfterSplit` | policy-evaluator/src/admission_response_handler/policy_id.rs:32-47 | splitting at slashes loses nothing |
| `PolicyIds.SplitAfterJoin` | policy-evaluator/src/admission_response_handler/policy_id.rs:32-47 | joining slash-free pieces and splitting gives the pieces |
| `PolicyIds.PrintAfterParse` | policy-evaluator/src/admission_response_handler/policy_id.rs:20-47 | whatever parses prints back as written |
| `PolicyIds.ParseAfterPrint` | policy-evaluator/src/admission_response_handler/policy_id.rs:20-47 | an identifier reads back as itself if and only if its names have no slash and a single name is not empty |
| `PolicyIds.PrintIsInjective` | policy-server/src/config.rs:239-260 | in a validated configuration different identifiers print differently |
| `PolicyNames.NamespaceDashCollides` | kubewarden-controller/api/policies/v1/admissionpolicy_types.go:152-154 | every namespaced policy with a dash in its namespace shares its unique name with another one |
| `PolicyNames.NameDashCollides` | kubewarden-controller/api/policies/v1/admissionpolicy_types.go:152-154 | so does every one with a dash in its name |
| `PolicyNames.GroupCollides` | kubewarden-controller/api/policies/v1/admissionpolicygroup_types.go:176-178 | every namespaced group shares its unique name with a policy |
| `PolicyNames.ClusterwideGroupCollides` | kubewarden-controller/api/policies/v1/clusteradmissionpolicygroup_types.go:217-219 | every cluster-wide group shares its unique name with a policy |
| `PolicyNames.CollidesIffAmbiguous` | kubewarden-controller/api/policies/v1/clusteradmissionpolicy_types.go:203-205 | over all strings: some other policy can have the unique name of this one if and only if it is of one of these families or its cluster-wide name starts with `group-` |
| `PolicyNames.AcceptedCollidesIff` | kubewarden-controller/api/policies/v1/admissionpolicy_types.go:152-154 | over the names Kubernetes accepts, RFC 1123 labels and subdomains, lengths aside: if and only if namespace or name can be cut at a lone dash (before the first dot of the name), or it is a group, or it looks like one |
| `PolicyNames.DisciplinedNamesAreUnique` | kubewarden-controller/api/policies/v1/admissionpolicy_types.go:152-154 | no two policies collide in a cluster that keeps dashes out of namespaces, the namespace `group` to groups and the prefix `group-` to cluster-wide groups |
| `StoreCleanup.Rm` | kwctl/src/rm.rs:7-50 | missing policy, undeletable file or removal; on removal the directories tried are the parents down to the length of the root, innermost first |
| `StoreCleanup.SweepIsModest` | kwctl/src/rm.rs:31-46 | sweeping removes no file, no directory it does not try, and none that still holds something |
| `StoreCleanup.SweepLeavesNoEmpty` | kwctl/src/rm.rs:31-46 | sweeping from the inside out leaves no tried directory empty |
| `StoreCleanup.RemovalIsExact` | kwctl/src/rm.rs:16-47 | exactly one file goes; only directories between the root of the store and the file are removed, none of them with anything left in it; none of them is left empty when removal is permitted |

## Left out

- `validateRulesField`, match conditions and the other admission checks on policies: they do not interact with the protocol.
- Status conditions, PodDisruptionBudget, Service, metrics, tracing, volumes, mounts and security contexts: constant data or reporting.
- The fields of a webhook other than its server and its CA bundle: copied from the policy.
- The wake-up of policies by ConfigMap and pod events: the liveness results assume that the work queue is fair instead.
- Cryptography, PEM and X.509 encoding, matching of private keys: a certificate is its issuer, name and validity window.
- ClusterRollout.UniquelyReachableMeansServed: the reads inside one reachability check are taken at one moment; a check spread over several moments is not modelled.
- ClusterLiveness.DeletionCompletes: failing list calls, deletes and finalizer updates of the server and its policies, and new policies for it, have to stop at some point; nothing is said of executions in which they never do.
- CertMargin.AlwaysFarFromExpiry: the bound is lowered by the longest duration of one reconcile, since a certificate is not renewed at the instant its reconcile starts; for an instantaneous reconcile it is 60 days minus 12 hours. Signing with a CA that expires too early is excluded by `Punctual`, and that condition is exact.
- PolicyNames.AcceptedCollidesIff: the limits on the length of names are not modelled.
- RecordReplay.RecordedSessionReplays: requests that carry a point in time are excluded by the round trip hypothesis, and shown not to round trip.
- ClusterController.Cluster.ReconcilePolicy: a failed update of the policy's own status after the reconcile is not modelled; the status is taken as written.
- Rhai beyond literals, calls, negation, conjunction and disjunction.
- StoreCleanup.Rm: the lookup of a policy by URI or by digest prefix is the presence of its path in the store.
- Downloader.DownloadPolicies: registries, signatures and checksums are functions of the URL; retries and time are not modelled.
- The HTTP servers, the OCI client, sigstore, wasmtime, inotify, the TTL caches of the callback handler, and the command line of `kwctl`.
- `AdmissionResponseHandler`, manifest scaffolding, ArtifactHub and policy-fetcher URLs: they would add only easy members.
