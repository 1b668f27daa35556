/**
  The cluster as the controllers see it, and every atomic action that can change it.

  A reconcile is not one action here: it is cut at each API write, so that other controllers,
  users and Kubernetes itself can act between what a reconcile read and what it then writes.
  The only scheduling guarantee kept is the one controller-runtime gives: one reconcile at a time
  for one object (`serverWork`, `policyWork` hold what that reconcile is in the middle of).
 */
module ClusterState {
  import opened Wrappers

  type Name = string

  /** What a policy contributes to its server's configuration. An entry is well formed when it has
      a module or members; one entry that is not makes the whole configuration unreadable. */
  datatype Spec = Spec(content: int, wellFormed: bool)

  datatype ConfigMap = ConfigMap(version: nat, entries: map<Name, Spec>)

  datatype PolicyStatus = Unset | Unscheduled | Scheduled | Pending | Active

  datatype Policy = Policy(server: Name, mutating: bool, spec: Spec, deleting: bool, status: PolicyStatus)

  datatype PolicyServer = PolicyServer(deleting: bool)

  datatype Deployment = Deployment(stamp: nat, revision: nat)

  datatype ReplicaSet = ReplicaSet(server: Name, revision: nat, stamp: nat, hash: string)

  datatype Pod = Pod(server: Name, hash: string, ready: bool, loaded: Option<ConfigMap>)

  /** Validating and mutating webhook configurations are different objects under one name. */
  datatype WebhookKey = WebhookKey(name: Name, mutating: bool)

  /** What the reconcile of a policy server has read and not yet acted on. */
  datatype ServerWork =
    | ServerIdle
    | Writing(snapshot: map<Name, Spec>)
    | Reading
    | Stamping(version: nat)
    | Deleting(targets: set<Name>)
    | Removing

  /** What the reconcile of a policy has decided and not yet done. */
  datatype PolicyWork = PolicyIdle | Creating(server: Name, mutating: bool) | Finalizing

  datatype State = State(
    clock: nat,
    servers: map<Name, PolicyServer>,
    policies: map<Name, Policy>,
    webhooks: map<WebhookKey, Name>,
    configMaps: map<Name, ConfigMap>,
    deployments: map<Name, Deployment>,
    replicaSets: seq<ReplicaSet>,
    pods: seq<Pod>,
    serverWork: map<Name, ServerWork>,
    policyWork: map<Name, PolicyWork>
  )

  datatype UserStep =
    | CreateServer(s: Name)
    | DeleteServer(s: Name)
    | CreatePolicy(n: Name, server: Name, mutating: bool, spec: Spec)
    | UpdateSpec(n: Name, spec: Spec)
    | SetMutating(n: Name, mutating: bool)
    | DeletePolicy(n: Name)
    | EditConfigMap(s: Name, entries: map<Name, Spec>)

  datatype KubeStep =
    | DropConfigMap(s: Name)
    | DropDeployment(s: Name)
    | Rollout(s: Name, hash: string)
    | DropReplicaSet(i: nat)
    | CreatePod(i: nat)
    | StartPod(i: nat)
    | SetReady(i: nat, ready: bool)
    | DropPod(i: nat)

  /** The parts of a policy server reconcile, in order. `List` goes on without the policies in `missed`,
      because a list call that fails is read as an empty list; `AbortServer` is an error at any other point. */
  datatype ServerStep =
    | List(missed: set<Name>)
    | Write
    | Read
    | Stamp
    | DeletePolicies(done: set<Name>)
    | RemoveServer
    | AbortServer

  /** The parts of a policy reconcile, in order; a server that cannot be read is taken for missing. */
  datatype PolicyStep = Check(readable: bool) | CreateWebhook | DeleteWebhook | RemovePolicy | AbortPolicy

  datatype Step = User(u: UserStep) | Kube(k: KubeStep) | Server(s: Name, a: ServerStep) | Own(n: Name, p: PolicyStep)

  const EMPTY := State(0, map[], map[], map[], map[], map[], [], [], map[], map[])

  function WorkOf(st: State, s: Name): ServerWork {
    if s in st.serverWork then st.serverWork[s] else ServerIdle
  }

  function PolicyWorkOf(st: State, n: Name): PolicyWork {
    if n in st.policyWork then st.policyWork[n] else PolicyIdle
  }

  predicate Bound(st: State, n: Name, s: Name) {
    n in st.policies && st.policies[n].server == s
  }

  function BoundNames(st: State, s: Name): set<Name> {
    set n | n in st.policies && st.policies[n].server == s
  }

  /** The configuration of a server: one entry for each policy bound to it, deleting or not. */
  function BoundEntries(st: State, s: Name): map<Name, Spec> {
    map n | n in st.policies && st.policies[n].server == s :: st.policies[n].spec
  }

  predicate Parses(entries: map<Name, Spec>) {
    forall n :: n in entries ==> entries[n].wellFormed
  }

  predicate InConfigMap(cm: ConfigMap, n: Name) {
    Parses(cm.entries) && n in cm.entries
  }

  predicate IsLatest(rs: ReplicaSet, s: Name, revision: nat, version: nat) {
    rs.server == s && rs.revision == revision && rs.stamp == version
  }

  /** The hash label of the first listed replica set that is the latest one, or "" without one. */
  function LatestHash(sets: seq<ReplicaSet>, s: Name, revision: nat, version: nat): string {
    if sets == [] then ""
    else if IsLatest(sets[0], s, revision, version) then sets[0].hash
    else LatestHash(sets[1..], s, revision, version)
  }

  predicate UniquelyReachable(st: State, s: Name, n: Name) {
    && s in st.deployments
    && s in st.configMaps
    && InConfigMap(st.configMaps[s], n)
    && var hash := LatestHash(st.replicaSets, s, st.deployments[s].revision, st.configMaps[s].version);
    && hash != ""
    && (exists pod :: pod in st.pods && pod.server == s)
    && forall pod :: pod in st.pods && pod.server == s ==> pod.hash == hash && pod.ready
  }

  function RemoveAt<T>(s: seq<T>, i: nat): seq<T>
    requires i < |s|
  {
    s[..i] + s[i + 1..]
  }

  predicate UserEnabled(st: State, u: UserStep) {
    match u
    case CreateServer(s) => s != "" && s !in st.servers
    case DeleteServer(s) => s in st.servers
    case CreatePolicy(n, _, _, _) => n !in st.policies
    case UpdateSpec(n, _) => n in st.policies
    case SetMutating(n, _) => n in st.policies
    case DeletePolicy(n) => n in st.policies
    case EditConfigMap(s, _) => s in st.configMaps
  }

  predicate KubeEnabled(st: State, k: KubeStep) {
    match k
    case DropConfigMap(s) => s in st.configMaps
    case DropDeployment(s) => s in st.deployments
    case Rollout(s, hash) =>
      s in st.deployments && hash != "" && forall pod :: pod in st.pods && pod.server == s ==> pod.hash != hash
    case DropReplicaSet(i) => i < |st.replicaSets|
    case CreatePod(i) => i < |st.replicaSets|
    case StartPod(i) => i < |st.pods| && st.pods[i].server in st.configMaps
    case SetReady(i, ready) => i < |st.pods| && (ready ==> st.pods[i].loaded.Some?)
    case DropPod(i) => i < |st.pods|
  }

  predicate ServerEnabled(st: State, s: Name, a: ServerStep) {
    s in st.servers &&
    match a
    case List(_) => WorkOf(st, s).ServerIdle?
    case Write => WorkOf(st, s).Writing?
    case Read => WorkOf(st, s).Reading? && s in st.configMaps
    case Stamp => WorkOf(st, s).Stamping?
    case DeletePolicies(done) => WorkOf(st, s).Deleting? && done <= WorkOf(st, s).targets
    case RemoveServer => WorkOf(st, s).Removing?
    case AbortServer => !WorkOf(st, s).ServerIdle?
  }

  predicate PolicyEnabled(st: State, n: Name, p: PolicyStep) {
    n in st.policies &&
    match p
    case Check(_) => !st.policies[n].deleting && PolicyWorkOf(st, n).PolicyIdle?
    case CreateWebhook => PolicyWorkOf(st, n).Creating?
    case DeleteWebhook => st.policies[n].deleting && PolicyWorkOf(st, n).PolicyIdle?
    case RemovePolicy => PolicyWorkOf(st, n).Finalizing?
    case AbortPolicy => !PolicyWorkOf(st, n).PolicyIdle?
  }

  predicate Enabled(st: State, step: Step) {
    match step
    case User(u) => UserEnabled(st, u)
    case Kube(k) => KubeEnabled(st, k)
    case Server(s, a) => ServerEnabled(st, s, a)
    case Own(n, p) => PolicyEnabled(st, n, p)
  }

  /** What the reconcile of a server goes on to do with the policies it saw. */
  function AfterList(st: State, s: Name, missed: set<Name>): ServerWork
    requires s in st.servers
  {
    if !st.servers[s].deleting then Writing(BoundEntries(st, s) - missed)
    else if BoundNames(st, s) - missed != {} then Deleting(BoundNames(st, s) - missed)
    else Removing
  }

  /** A create-or-patch: the version moves only when the data does. */
  function Written(st: State, s: Name, entries: map<Name, Spec>): State {
    if s in st.configMaps && st.configMaps[s].entries == entries then st
    else st.(clock := st.clock + 1, configMaps := st.configMaps[s := ConfigMap(st.clock + 1, entries)])
  }

  function MarkDeleting(policies: map<Name, Policy>, names: set<Name>): map<Name, Policy> {
    map n | n in policies :: if n in names then policies[n].(deleting := true) else policies[n]
  }

  /** The status a policy reconcile reports before it looks at the deployment. */
  function CheckedStatus(st: State, p: Policy, readable: bool): PolicyStatus {
    if p.server == "" then Unscheduled
    else if p.server !in st.servers || !readable then Scheduled
    else if p.status.Active? then Active
    else Pending
  }

  /** Whether a policy reconcile gets as far as writing the webhook. */
  predicate Activates(st: State, n: Name)
    requires n in st.policies
  {
    var s := st.policies[n].server;
    s != "" && s in st.servers && UniquelyReachable(st, s, n)
  }

  function Checked(st: State, n: Name, readable: bool): State
    requires n in st.policies
  {
    var p := st.policies[n];
    st.(policies := st.policies[n := p.(status := CheckedStatus(st, p, readable))],
        policyWork :=
          if readable && Activates(st, n) then st.policyWork[n := Creating(p.server, p.mutating)] else st.policyWork)
  }

  function UserNext(st: State, u: UserStep): State
    requires UserEnabled(st, u)
  {
    match u
    case CreateServer(s) => st.(servers := st.servers[s := PolicyServer(false)])
    case DeleteServer(s) => st.(servers := st.servers[s := PolicyServer(true)])
    case CreatePolicy(n, server, mutating, spec) =>
      st.(policies := st.policies[n := Policy(server, mutating, spec, false, Unset)])
    case UpdateSpec(n, spec) => st.(policies := st.policies[n := st.policies[n].(spec := spec)])
    case SetMutating(n, mutating) => st.(policies := st.policies[n := st.policies[n].(mutating := mutating)])
    case DeletePolicy(n) => st.(policies := MarkDeleting(st.policies, {n}))
    case EditConfigMap(s, entries) => Written(st, s, entries)
  }

  function KubeNext(st: State, k: KubeStep): State
    requires KubeEnabled(st, k)
  {
    match k
    case DropConfigMap(s) => st.(configMaps := st.configMaps - {s})
    case DropDeployment(s) => st.(deployments := st.deployments - {s})
    case Rollout(s, hash) =>
      var d := st.deployments[s];
      st.(replicaSets := st.replicaSets + [ReplicaSet(s, d.revision + 1, d.stamp, hash)],
          deployments := st.deployments[s := d.(revision := d.revision + 1)])
    case DropReplicaSet(i) => st.(replicaSets := RemoveAt(st.replicaSets, i))
    case CreatePod(i) =>
      st.(pods := st.pods + [Pod(st.replicaSets[i].server, st.replicaSets[i].hash, false, None)])
    case StartPod(i) =>
      var pod := st.pods[i];
      st.(pods := st.pods[i := pod.(ready := false, loaded := Some(st.configMaps[pod.server]))])
    case SetReady(i, ready) => st.(pods := st.pods[i := st.pods[i].(ready := ready)])
    case DropPod(i) => st.(pods := RemoveAt(st.pods, i))
  }

  function ServerNext(st: State, s: Name, a: ServerStep): State
    requires ServerEnabled(st, s, a)
  {
    match a
    case List(missed) => st.(serverWork := st.serverWork[s := AfterList(st, s, missed)])
    case Write => Written(st, s, WorkOf(st, s).snapshot).(serverWork := st.serverWork[s := Reading])
    case Read => st.(serverWork := st.serverWork[s := Stamping(st.configMaps[s].version)])
    case Stamp =>
      var revision := if s in st.deployments then st.deployments[s].revision else 0;
      st.(deployments := st.deployments[s := Deployment(WorkOf(st, s).version, revision)],
          serverWork := st.serverWork[s := ServerIdle])
    case DeletePolicies(done) =>
      st.(policies := MarkDeleting(st.policies, done), serverWork := st.serverWork[s := ServerIdle])
    case RemoveServer => st.(servers := st.servers - {s}, serverWork := st.serverWork - {s})
    case AbortServer => st.(serverWork := st.serverWork[s := ServerIdle])
  }

  function PolicyNext(st: State, n: Name, p: PolicyStep): State
    requires PolicyEnabled(st, n, p)
  {
    match p
    case Check(readable) => Checked(st, n, readable)
    case CreateWebhook =>
      var w := PolicyWorkOf(st, n);
      st.(webhooks := st.webhooks[WebhookKey(n, w.mutating) := w.server],
          policies := st.policies[n := st.policies[n].(status := Active)],
          policyWork := st.policyWork[n := PolicyIdle])
    case DeleteWebhook =>
      st.(webhooks := st.webhooks - {WebhookKey(n, st.policies[n].mutating)},
          policyWork := st.policyWork[n := Finalizing])
    case RemovePolicy => st.(policies := st.policies - {n}, policyWork := st.policyWork - {n})
    case AbortPolicy => st.(policyWork := st.policyWork[n := PolicyIdle])
  }

  function Next(st: State, step: Step): State
    requires Enabled(st, step)
  {
    match step
    case User(u) => UserNext(st, u)
    case Kube(k) => KubeNext(st, k)
    case Server(s, a) => ServerNext(st, s, a)
    case Own(n, p) => PolicyNext(st, n, p)
  }

  /** Consecutive states: `states[i]` becomes `states[i + 1]` by `steps[i]`. */
  ghost predicate IsPath(states: seq<State>, steps: seq<Step>) {
    && |states| == |steps| + 1
    && forall i :: 0 <= i < |steps| ==> Enabled(states[i], steps[i]) && states[i + 1] == Next(states[i], steps[i])
  }

  /** A finite run from the empty cluster. */
  ghost predicate IsRun(states: seq<State>, steps: seq<Step>) {
    IsPath(states, steps) && states[0] == EMPTY
  }

  ghost predicate Reached(st: State) {
    exists states, steps :: IsRun(states, steps) && states[|steps|] == st
  }

  lemma NothingIsReached()
    ensures Reached(EMPTY)
  {
    assert IsRun([EMPTY], []);
  }

  lemma Reaches(st: State, step: Step) returns (st': State)
    requires Reached(st) && Enabled(st, step)
    ensures st' == Next(st, step) && Reached(st')
  {
    var states, steps :| IsRun(states, steps) && states[|steps|] == st;
    st' := Next(st, step);
    assert IsRun(states + [st'], steps + [step]);
  }
}
