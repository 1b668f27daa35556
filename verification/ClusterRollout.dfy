/**
  Rollouts. Kubernetes moves pods from one replica set to the next on its own, and a pod keeps the
  configuration it read when it started. The policy controller sees only stamps and hash labels.
  This module proves that what it sees is enough, in every run.
 */
module ClusterRollout {
  import opened Wrappers
  import opened ClusterState

  type ConfigMaps = map<Name, ConfigMap>

  /** A version is no newer than the cluster, nor than the server's present configuration. */
  predicate NotAhead(clock: nat, cms: ConfigMaps, s: Name, version: nat) {
    version <= clock && (s in cms ==> version <= cms[s].version)
  }

  predicate LoadedConsistent(clock: nat, cms: ConfigMaps, pod: Pod) {
    && (pod.ready ==> pod.loaded.Some?)
    && (pod.loaded.Some? ==>
          && NotAhead(clock, cms, pod.server, pod.loaded.value.version)
          && (pod.server in cms && pod.loaded.value.version == cms[pod.server].version ==>
                pod.loaded.value == cms[pod.server]))
  }

  /** A pod started after the stamp of its replica set was written, so it read that version or newer. */
  predicate NotBehind(pod: Pod, rs: ReplicaSet) {
    pod.server == rs.server && pod.hash == rs.hash && pod.loaded.Some? ==> rs.stamp <= pod.loaded.value.version
  }

  ghost predicate StampsInv(clock: nat, cms: ConfigMaps, deployments: map<Name, Deployment>,
                            work: map<Name, ServerWork>) {
    && (forall s :: s in cms ==> cms[s].version <= clock)
    && (forall s :: s in deployments ==> NotAhead(clock, cms, s, deployments[s].stamp))
    && (forall s :: s in work && work[s].Stamping? ==> NotAhead(clock, cms, s, work[s].version))
  }

  ghost predicate PodsInv(clock: nat, cms: ConfigMaps, sets: seq<ReplicaSet>, pods: seq<Pod>) {
    && (forall rs :: rs in sets ==> NotAhead(clock, cms, rs.server, rs.stamp))
    && (forall pod :: pod in pods ==> LoadedConsistent(clock, cms, pod))
    && (forall pod, rs :: pod in pods && rs in sets ==> NotBehind(pod, rs))
  }

  /** The stamp of a server's deployment, and the one about to be written on it, only ever grow: no
      replica set has seen a later one, even if the deployment was dropped and made again. */
  ghost predicate StampsGrow(deployments: map<Name, Deployment>, sets: seq<ReplicaSet>, work: map<Name, ServerWork>) {
    && (forall rs :: rs in sets && rs.server in deployments ==> rs.stamp <= deployments[rs.server].stamp)
    && (forall rs :: rs in sets && rs.server in work && work[rs.server].Stamping? ==>
          rs.stamp <= work[rs.server].version)
    && (forall s :: s in deployments && s in work && work[s].Stamping? ==> deployments[s].stamp <= work[s].version)
  }

  ghost predicate RolloutInv(st: State) {
    && StampsInv(st.clock, st.configMaps, st.deployments, st.serverWork)
    && StampsGrow(st.deployments, st.replicaSets, st.serverWork)
    && PodsInv(st.clock, st.configMaps, st.replicaSets, st.pods)
  }

  lemma ReplacePod(clock: nat, cms: ConfigMaps, sets: seq<ReplicaSet>, pods: seq<Pod>, i: nat, pod: Pod)
    requires PodsInv(clock, cms, sets, pods) && i < |pods|
    requires LoadedConsistent(clock, cms, pod) && forall rs :: rs in sets ==> NotBehind(pod, rs)
    ensures PodsInv(clock, cms, sets, pods[i := pod])
  {
    assert forall x :: x in pods[i := pod] ==> x in pods || x == pod;
  }

  lemma AddPod(clock: nat, cms: ConfigMaps, sets: seq<ReplicaSet>, pods: seq<Pod>, pod: Pod)
    requires PodsInv(clock, cms, sets, pods) && !pod.ready && pod.loaded.None?
    ensures PodsInv(clock, cms, sets, pods + [pod])
  {
    assert forall x :: x in pods + [pod] ==> x in pods || x == pod;
  }

  lemma AddSet(clock: nat, cms: ConfigMaps, sets: seq<ReplicaSet>, pods: seq<Pod>, rs: ReplicaSet)
    requires PodsInv(clock, cms, sets, pods) && NotAhead(clock, cms, rs.server, rs.stamp)
    requires forall pod :: pod in pods && pod.server == rs.server ==> pod.hash != rs.hash
    ensures PodsInv(clock, cms, sets + [rs], pods)
  {
    assert forall x :: x in sets + [rs] ==> x in sets || x == rs;
  }

  lemma Fewer(clock: nat, cms: ConfigMaps, sets: seq<ReplicaSet>, pods: seq<Pod>,
              sets': seq<ReplicaSet>, pods': seq<Pod>)
    requires PodsInv(clock, cms, sets, pods)
    requires (forall rs :: rs in sets' ==> rs in sets) && (forall pod :: pod in pods' ==> pod in pods)
    ensures PodsInv(clock, cms, sets', pods')
  {
  }

  lemma LaterStamps(clock: nat, cms: ConfigMaps, deployments: map<Name, Deployment>, work: map<Name, ServerWork>,
                    s: Name, entries: map<Name, Spec>)
    requires StampsInv(clock, cms, deployments, work)
    ensures StampsInv(clock + 1, cms[s := ConfigMap(clock + 1, entries)], deployments, work)
  {
  }

  lemma LaterPods(clock: nat, cms: ConfigMaps, sets: seq<ReplicaSet>, pods: seq<Pod>,
                  s: Name, entries: map<Name, Spec>)
    requires PodsInv(clock, cms, sets, pods)
    ensures PodsInv(clock + 1, cms[s := ConfigMap(clock + 1, entries)], sets, pods)
  {
    var cms' := cms[s := ConfigMap(clock + 1, entries)];
    forall pod | pod in pods ensures LoadedConsistent(clock + 1, cms', pod) {
      assert LoadedConsistent(clock, cms, pod);
    }
    forall rs | rs in sets ensures NotAhead(clock + 1, cms', rs.server, rs.stamp) {
      assert NotAhead(clock, cms, rs.server, rs.stamp);
    }
  }

  lemma NewVersion(st: State, s: Name, entries: map<Name, Spec>)
    requires RolloutInv(st)
    ensures RolloutInv(Written(st, s, entries))
  {
    if Written(st, s, entries) != st {
      LaterStamps(st.clock, st.configMaps, st.deployments, st.serverWork, s, entries);
      LaterPods(st.clock, st.configMaps, st.replicaSets, st.pods, s, entries);
    }
  }

  lemma KubeKeepsRollout(st: State, k: KubeStep)
    requires RolloutInv(st) && KubeEnabled(st, k)
    ensures RolloutInv(KubeNext(st, k))
  {
    var clock, cms, sets, pods := st.clock, st.configMaps, st.replicaSets, st.pods;
    KubeKeepsStampsGrow(st, k);
    match k {
      case StartPod(i) =>
        var started := pods[i].(ready := false, loaded := Some(cms[pods[i].server]));
        forall rs | rs in sets ensures NotBehind(started, rs) {
          assert NotAhead(clock, cms, rs.server, rs.stamp);
        }
        ReplacePod(clock, cms, sets, pods, i, started);
      case SetReady(i, ready) =>
        var marked := pods[i].(ready := ready);
        assert pods[i] in pods;
        forall rs | rs in sets ensures NotBehind(marked, rs) {
          assert NotBehind(pods[i], rs);
        }
        ReplacePod(clock, cms, sets, pods, i, marked);
      case CreatePod(i) => AddPod(clock, cms, sets, pods, Pod(sets[i].server, sets[i].hash, false, None));
      case Rollout(s, hash) =>
        var d := st.deployments[s];
        AddSet(clock, cms, sets, pods, ReplicaSet(s, d.revision + 1, d.stamp, hash));
      case DropPod(i) => Fewer(clock, cms, sets, pods, sets, RemoveAt(pods, i));
      case DropReplicaSet(i) => Fewer(clock, cms, sets, pods, RemoveAt(sets, i), pods);
      case _ =>
    }
  }

  lemma KubeKeepsStampsGrow(st: State, k: KubeStep)
    requires StampsGrow(st.deployments, st.replicaSets, st.serverWork) && KubeEnabled(st, k)
    ensures var st' := KubeNext(st, k); StampsGrow(st'.deployments, st'.replicaSets, st'.serverWork)
  {
    var st' := KubeNext(st, k);
    if k.Rollout? {
      assert forall rs :: rs in st'.replicaSets ==> rs in st.replicaSets || rs.stamp == st.deployments[k.s].stamp;
    } else {
      assert forall rs :: rs in st'.replicaSets ==> rs in st.replicaSets;
    }
  }

  lemma ServerKeepsStampsGrow(st: State, s: Name, a: ServerStep)
    requires RolloutInv(st) && ServerEnabled(st, s, a)
    ensures var st' := ServerNext(st, s, a); StampsGrow(st'.deployments, st'.replicaSets, st'.serverWork)
  {
    forall rs | rs in st.replicaSets ensures NotAhead(st.clock, st.configMaps, rs.server, rs.stamp) {
    }
  }

  lemma ServerKeepsRollout(st: State, s: Name, a: ServerStep)
    requires RolloutInv(st) && ServerEnabled(st, s, a)
    ensures RolloutInv(ServerNext(st, s, a))
  {
    ServerKeepsStampsGrow(st, s, a);
    if a.Write? {
      NewVersion(st, s, WorkOf(st, s).snapshot);
    }
  }

  lemma UserKeepsRollout(st: State, u: UserStep)
    requires RolloutInv(st) && UserEnabled(st, u)
    ensures RolloutInv(UserNext(st, u))
  {
    if u.EditConfigMap? {
      NewVersion(st, u.s, u.entries);
    }
  }

  lemma PolicyKeepsRollout(st: State, n: Name, p: PolicyStep)
    requires RolloutInv(st) && PolicyEnabled(st, n, p)
    ensures RolloutInv(PolicyNext(st, n, p))
  {
  }

  /** Every step of anyone, hand edits of the ConfigMap included, keeps the rollout invariant. */
  lemma StepKeepsRollout(st: State, step: Step)
    requires RolloutInv(st) && Enabled(st, step)
    ensures RolloutInv(Next(st, step))
  {
    match step
    case User(u) => UserKeepsRollout(st, u);
    case Kube(k) => KubeKeepsRollout(st, k);
    case Server(s, a) => ServerKeepsRollout(st, s, a);
    case Own(n, p) => PolicyKeepsRollout(st, n, p);
  }

  lemma {:induction false} RunKeepsRollout(states: seq<State>, steps: seq<Step>, i: nat)
    requires IsRun(states, steps) && i < |states|
    ensures RolloutInv(states[i])
  {
    if i > 0 {
      RunKeepsRollout(states, steps, i - 1);
      StepKeepsRollout(states[i - 1], steps[i - 1]);
    }
  }

  lemma {:induction false} LatestHashComesFromASet(sets: seq<ReplicaSet>, s: Name, revision: nat, version: nat)
    returns (rs: ReplicaSet)
    requires LatestHash(sets, s, revision, version) != ""
    ensures rs in sets && IsLatest(rs, s, revision, version) && rs.hash == LatestHash(sets, s, revision, version)
  {
    if IsLatest(sets[0], s, revision, version) {
      rs := sets[0];
    } else {
      rs := LatestHashComesFromASet(sets[1..], s, revision, version);
    }
  }

  lemma ReachableIsServedByAll(st: State, s: Name, n: Name)
    requires RolloutInv(st) && UniquelyReachable(st, s, n)
    ensures forall pod :: pod in st.pods && pod.server == s ==> pod.loaded == Some(st.configMaps[s])
    ensures InConfigMap(st.configMaps[s], n)
  {
    var rs := LatestHashComesFromASet(st.replicaSets, s, st.deployments[s].revision, st.configMaps[s].version);
    forall pod | pod in st.pods && pod.server == s ensures pod.loaded == Some(st.configMaps[s]) {
      assert LoadedConsistent(st.clock, st.configMaps, pod) && NotBehind(pod, rs);
    }
  }

  /** The deployment is stamped with the present version of a readable configuration. Without this no
      policy of the server can become reachable before the server's own next stamp. */
  predicate Live(st: State, s: Name) {
    && s in st.configMaps && Parses(st.configMaps[s].entries)
    && s in st.deployments && st.deployments[s].stamp == st.configMaps[s].version
  }

  lemma ReachableIsLive(st: State, s: Name, n: Name)
    requires RolloutInv(st) && UniquelyReachable(st, s, n)
    ensures Live(st, s)
  {
    var rs := LatestHashComesFromASet(st.replicaSets, s, st.deployments[s].revision, st.configMaps[s].version);
    assert NotAhead(st.clock, st.configMaps, s, st.deployments[s].stamp);
  }

  /** A new version of the configuration is not live. */
  lemma NewVersionIsNotLive(st: State, s: Name, entries: map<Name, Spec>)
    requires RolloutInv(st)
    ensures Written(st, s, entries) == st || !Live(Written(st, s, entries), s)
  {
    assert s in st.deployments ==> NotAhead(st.clock, st.configMaps, s, st.deployments[s].stamp);
  }

  /** In every run, whenever a policy looks uniquely reachable there is a pod of its server, and each
      one has loaded exactly the present configuration, which holds the policy. */
  lemma UniquelyReachableMeansServed(states: seq<State>, steps: seq<Step>, i: nat, s: Name, n: Name)
    requires IsRun(states, steps) && i < |states|
    requires UniquelyReachable(states[i], s, n)
    ensures exists pod :: pod in states[i].pods && pod.server == s
    ensures forall pod :: pod in states[i].pods && pod.server == s ==>
              && pod.ready
              && pod.loaded == Some(states[i].configMaps[s])
              && n in pod.loaded.value.entries
  {
    RunKeepsRollout(states, steps, i);
    ReachableIsServedByAll(states[i], s, n);
  }

  // ---------------------------------------------------------------- what the check looks at

  /** The first listed replica set of the server that has the deployment's revision and the configuration's
      version. */
  predicate FirstLatest(sets: seq<ReplicaSet>, i: nat, s: Name, revision: nat, version: nat) {
    && i < |sets| && sets[i].server == s && sets[i].revision == revision && sets[i].stamp == version
    && forall j :: 0 <= j < i ==> !(sets[j].server == s && sets[j].revision == revision && sets[j].stamp == version)
  }

  lemma {:induction false} FirstIsFound(sets: seq<ReplicaSet>, i: nat, s: Name, revision: nat, version: nat)
    requires FirstLatest(sets, i, s, revision, version)
    ensures LatestHash(sets, s, revision, version) == sets[i].hash
  {
    if i > 0 {
      assert forall j :: 0 <= j < |sets| - 1 ==> sets[1..][j] == sets[j + 1];
      FirstIsFound(sets[1..], i - 1, s, revision, version);
    }
  }

  lemma {:induction false} FoundIsFirst(sets: seq<ReplicaSet>, s: Name, revision: nat, version: nat) returns (i: nat)
    requires LatestHash(sets, s, revision, version) != ""
    ensures FirstLatest(sets, i, s, revision, version) && sets[i].hash == LatestHash(sets, s, revision, version)
  {
    i := 0;
    if !(sets[0].server == s && sets[0].revision == revision && sets[0].stamp == version) {
      i := FoundIsFirst(sets[1..], s, revision, version);
      assert forall j :: 0 < j < |sets| ==> sets[j] == sets[1..][j - 1];
      i := i + 1;
    }
  }

  /** All pods of the server, and there is one, are ready and carry this hash. */
  predicate AllServe(st: State, s: Name, hash: string) {
    && (exists pod :: pod in st.pods && pod.server == s)
    && forall pod :: pod in st.pods && pod.server == s ==> pod.hash == hash && pod.ready
  }

  /** The check in plain terms, both ways: the policy is in a readable configuration, the deployment's
      latest replica set for that configuration is the only one with pods, and all of these are ready. */
  lemma ReachableIff(st: State, s: Name, n: Name)
    ensures UniquelyReachable(st, s, n) <==>
            && s in st.deployments && s in st.configMaps
            && n in st.configMaps[s].entries
            && (forall m :: m in st.configMaps[s].entries ==> st.configMaps[s].entries[m].wellFormed)
            && exists i: nat ::
                 && FirstLatest(st.replicaSets, i, s, st.deployments[s].revision, st.configMaps[s].version)
                 && st.replicaSets[i].hash != "" && AllServe(st, s, st.replicaSets[i].hash)
  {
    if s in st.deployments && s in st.configMaps {
      var revision, version := st.deployments[s].revision, st.configMaps[s].version;
      if UniquelyReachable(st, s, n) {
        var i := FoundIsFirst(st.replicaSets, s, revision, version);
        assert AllServe(st, s, st.replicaSets[i].hash);
      } else {
        forall i: nat | FirstLatest(st.replicaSets, i, s, revision, version)
          ensures st.replicaSets[i].hash == LatestHash(st.replicaSets, s, revision, version)
        {
          FirstIsFound(st.replicaSets, i, s, revision, version);
        }
      }
    }
  }

  function SetsOf(sets: seq<ReplicaSet>, s: Name): seq<ReplicaSet> {
    if sets == [] then [] else (if sets[0].server == s then [sets[0]] else []) + SetsOf(sets[1..], s)
  }

  lemma {:induction false} LatestHashIsLocal(sets: seq<ReplicaSet>, s: Name, revision: nat, version: nat)
    ensures LatestHash(sets, s, revision, version) == LatestHash(SetsOf(sets, s), s, revision, version)
  {
    if sets != [] {
      LatestHashIsLocal(sets[1..], s, revision, version);
      if sets[0].server == s {
        assert SetsOf(sets, s)[1..] == SetsOf(sets[1..], s);
      } else {
        assert SetsOf(sets, s) == SetsOf(sets[1..], s);
      }
    }
  }

  /** The two clusters agree on one server: its deployment, configuration, replica sets and pods. */
  ghost predicate SameFor(st: State, st': State, s: Name) {
    && (s in st.deployments <==> s in st'.deployments) && (s in st.configMaps <==> s in st'.configMaps)
    && (s in st.deployments ==> st.deployments[s] == st'.deployments[s])
    && (s in st.configMaps ==> st.configMaps[s] == st'.configMaps[s])
    && SetsOf(st.replicaSets, s) == SetsOf(st'.replicaSets, s)
    && forall pod: Pod :: pod.server == s ==> (pod in st.pods <==> pod in st'.pods)
  }

  /** What goes on at other servers has no bearing on the check. */
  lemma ReachabilityIsLocal(st: State, st': State, s: Name, n: Name)
    requires SameFor(st, st', s)
    ensures UniquelyReachable(st, s, n) <==> UniquelyReachable(st', s, n)
  {
    if s in st.deployments && s in st.configMaps {
      LatestHashIsLocal(st.replicaSets, s, st.deployments[s].revision, st.configMaps[s].version);
      LatestHashIsLocal(st'.replicaSets, s, st.deployments[s].revision, st.configMaps[s].version);
      assert forall pod :: pod in st.pods && pod.server == s ==> pod in st'.pods;
      assert forall pod :: pod in st'.pods && pod.server == s ==> pod in st.pods;
    }
  }
}
