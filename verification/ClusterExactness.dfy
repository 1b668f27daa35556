/**
  How much order is needed: exactly as much as `Orderly` asks for. Whatever step is taken in a state that
  orderly steps led to, orderly steps can go on from there to a webhook that is not backed if and only if
  that one step was not orderly.
 */
module ClusterExactness {
  import opened Wrappers
  import opened ClusterState
  import opened ClusterRollout
  import opened ClusterSafety

  /** Orderly steps lead from one state to the other. */
  ghost predicate Leads(a: State, b: State) {
    exists states, steps :: IsOrderlyPath(states, steps) && states[0] == a && states[|steps|] == b
  }

  ghost predicate CanLoseBacking(st: State) {
    exists bad :: Leads(st, bad) && Unbacked(bad)
  }

  lemma Stay(a: State)
    ensures Leads(a, a)
  {
    assert IsOrderlyPath([a], []);
  }

  lemma Extend(states: seq<State>, steps: seq<Step>, step: Step, c: State)
    requires IsOrderlyPath(states, steps) && Enabled(states[|steps|], step) && Orderly(states[|steps|], step)
    requires c == Next(states[|steps|], step)
    ensures IsOrderlyPath(states + [c], steps + [step])
  {
    var states', steps' := states + [c], steps + [step];
    forall i | 0 <= i < |steps'|
      ensures Enabled(states'[i], steps'[i]) && states'[i + 1] == Next(states'[i], steps'[i])
      ensures Orderly(states'[i], steps'[i])
    {
      assert states'[i] == states[i] && steps'[i] == if i < |steps| then steps[i] else step;
    }
  }

  lemma Go(a: State, b: State, step: Step) returns (c: State)
    requires Leads(a, b) && Enabled(b, step) && Orderly(b, step)
    ensures c == Next(b, step) && Leads(a, c)
  {
    var states, steps :| IsOrderlyPath(states, steps) && states[0] == a && states[|steps|] == b;
    c := Next(b, step);
    Extend(states, steps, step, c);
  }

  lemma ByKube(a: State, b: State, k: KubeStep) returns (c: State)
    requires Leads(a, b) && KubeEnabled(b, k)
    ensures c == KubeNext(b, k) && Leads(a, c)
  {
    c := Go(a, b, Kube(k));
  }

  lemma ByServer(a: State, b: State, s: Name, act: ServerStep) returns (c: State)
    requires Leads(a, b) && ServerEnabled(b, s, act) && !act.List?
    ensures c == ServerNext(b, s, act) && Leads(a, c)
  {
    c := Go(a, b, Server(s, act));
  }

  lemma ByPolicy(a: State, b: State, n: Name, p: PolicyStep) returns (c: State)
    requires Leads(a, b) && PolicyEnabled(b, n, p)
    ensures c == PolicyNext(b, n, p) && Leads(a, c)
  {
    c := Go(a, b, Own(n, p));
  }

  // ---------------------------------------------------------------- a pod that loads too little

  function Longest(pods: seq<Pod>): nat {
    if pods == [] then 0
    else if |pods[0].hash| > Longest(pods[1..]) then |pods[0].hash| else Longest(pods[1..])
  }

  lemma {:induction false} LongestBounds(pods: seq<Pod>)
    ensures forall pod :: pod in pods ==> |pod.hash| <= Longest(pods)
  {
    if pods != [] {
      LongestBounds(pods[1..]);
      assert forall pod :: pod in pods ==> pod == pods[0] || pod in pods[1..];
    }
  }

  /** There is always a hash that no pod has. */
  lemma NewHash(pods: seq<Pod>) returns (hash: string)
    ensures hash != "" && forall pod :: pod in pods ==> pod.hash != hash
  {
    LongestBounds(pods);
    hash := seq(Longest(pods) + 1, i => 'x');
  }

  /** A webhook for a policy that the server's present configuration has lost. */
  predicate Lost(st: State, k: WebhookKey, s: Name) {
    && k in st.webhooks && st.webhooks[k] == s
    && s in st.configMaps && k.name !in st.configMaps[s].entries
  }

  lemma PodLoadsTooLittle(a: State, st: State, k: WebhookKey, s: Name, i: nat)
    requires Leads(a, st) && Lost(st, k, s) && i < |st.pods| && st.pods[i].server == s
    ensures CanLoseBacking(a)
  {
    var bad := ByKube(a, st, StartPod(i));
    assert bad.pods[i] in bad.pods;
    assert !Backed(bad, k);
  }

  lemma SetLoadsTooLittle(a: State, st: State, k: WebhookKey, s: Name, i: nat)
    requires Leads(a, st) && Lost(st, k, s) && i < |st.replicaSets| && st.replicaSets[i].server == s
    ensures CanLoseBacking(a)
  {
    var st' := ByKube(a, st, CreatePod(i));
    PodLoadsTooLittle(a, st', k, s, |st.pods|);
  }

  lemma DeploymentLoadsTooLittle(a: State, st: State, k: WebhookKey, s: Name)
    requires Leads(a, st) && Lost(st, k, s) && s in st.deployments
    ensures CanLoseBacking(a)
  {
    var hash := NewHash(st.pods);
    var st' := ByKube(a, st, Rollout(s, hash));
    SetLoadsTooLittle(a, st', k, s, |st.replicaSets|);
  }

  /** A policy that its server's configuration has lost is turned away as soon as a pod restarts, or is
      made, or once the deployment is stamped. */
  lemma LostGoesUnbacked(a: State, st: State, k: WebhookKey, s: Name)
    requires Leads(a, st) && Lost(st, k, s) && Loadable(st, s) && s in st.servers
    ensures CanLoseBacking(a)
  {
    if s in st.deployments {
      DeploymentLoadsTooLittle(a, st, k, s);
    } else if exists pod :: pod in st.pods && pod.server == s {
      var i: nat :| i < |st.pods| && st.pods[i].server == s;
      PodLoadsTooLittle(a, st, k, s, i);
    } else if exists rs :: rs in st.replicaSets && rs.server == s {
      var i: nat :| i < |st.replicaSets| && st.replicaSets[i].server == s;
      SetLoadsTooLittle(a, st, k, s, i);
    } else {
      var read := st;
      if WorkOf(st, s).Reading? {
        read := ByServer(a, st, s, Read);
      }
      var stamped := ByServer(a, read, s, Stamp);
      DeploymentLoadsTooLittle(a, stamped, k, s);
    }
  }

  /** A webhook whose policy the server's reconcile has overlooked. */
  lemma OverlookedGoesUnbacked(a: State, st: State, k: WebhookKey, s: Name)
    requires Leads(a, st) && k in st.webhooks && st.webhooks[k] == s
    requires s in st.servers && Overlooked(st, s, k.name)
    ensures CanLoseBacking(a)
  {
    if WorkOf(st, s).Removing? {
      var bad := ByServer(a, st, s, RemoveServer);
      assert !Backed(bad, k);
    } else {
      var written := ByServer(a, st, s, Write);
      LostGoesUnbacked(a, written, k, s);
    }
  }

  // ---------------------------------------------------------------- getting the webhook first

  /** The same cluster but for policies, their reconciles and webhooks. */
  predicate SameElsewhere(st: State, st': State) {
    && st'.servers == st.servers && st'.serverWork == st.serverWork && st'.configMaps == st.configMaps
    && st'.deployments == st.deployments && st'.replicaSets == st.replicaSets && st'.pods == st.pods
  }

  /** A webhook that is wanted can come to exist without anything else happening. */
  lemma WantedCanExist(a: State, st: State, k: WebhookKey, s: Name) returns (st': State)
    requires Leads(a, st) && Wanted(st, k, s) && k.name in st.policies
    ensures Leads(a, st') && SameElsewhere(st, st') && k in st'.webhooks && st'.webhooks[k] == s
  {
    st' := st;
    if k !in st.webhooks || st.webhooks[k] != s {
      st' := ByPolicy(a, st, k.name, CreateWebhook);
    }
  }

  lemma {:induction false} DropSets(a: State, st: State) returns (st': State)
    requires Leads(a, st)
    ensures Leads(a, st') && st' == st.(replicaSets := [])
    decreases |st.replicaSets|
  {
    st' := st;
    if st.replicaSets != [] {
      st' := ByKube(a, st, DropReplicaSet(0));
      st' := DropSets(a, st');
    }
  }

  lemma {:induction false} DropPods(a: State, st: State) returns (st': State)
    requires Leads(a, st)
    ensures Leads(a, st') && st' == st.(pods := [])
    decreases |st.pods|
  {
    st' := st;
    if st.pods != [] {
      st' := ByKube(a, st, DropPod(0));
      st' := DropPods(a, st');
    }
  }

  function RolledOut(st: State, s: Name, hash: string): State
    requires Live(st, s)
  {
    var d := st.deployments[s];
    st.(deployments := st.deployments[s := Deployment(d.stamp, d.revision + 1)],
        replicaSets := [ReplicaSet(s, d.revision + 1, d.stamp, hash)],
        pods := [Pod(s, hash, true, Some(st.configMaps[s]))])
  }

  lemma CanClear(a: State, st: State)
    requires Leads(a, st)
    ensures Leads(a, st.(replicaSets := [], pods := []))
  {
    var st' := DropSets(a, st);
    st' := DropPods(a, st');
  }

  lemma CanMakeSet(a: State, st: State, s: Name)
    requires Leads(a, st) && Live(st, s) && st.replicaSets == [] && st.pods == []
    ensures Leads(a, RolledOut(st, s, "h").(pods := []))
  {
    var st' := ByKube(a, st, Rollout(s, "h"));
    assert st' == RolledOut(st, s, "h").(pods := []);
  }

  lemma CanMakePod(a: State, st: State, rs: ReplicaSet, cm: ConfigMap)
    requires Leads(a, st) && st.replicaSets == [rs] && st.pods == []
    requires rs.server in st.configMaps && cm == st.configMaps[rs.server]
    ensures Leads(a, st.(pods := [Pod(rs.server, rs.hash, true, Some(cm))]))
  {
    var st' := ByKube(a, st, CreatePod(0));
    assert st'.pods == [Pod(rs.server, rs.hash, false, None)];
    st' := ByKube(a, st', StartPod(0));
    st' := ByKube(a, st', SetReady(0, true));
    assert st'.pods == [Pod(rs.server, rs.hash, true, Some(cm))];
  }

  /** A live configuration can be rolled out before the server's reconcile does anything more. */
  lemma CanRollOut(a: State, st: State, s: Name)
    requires Leads(a, st) && Live(st, s)
    ensures Leads(a, RolledOut(st, s, "h"))
  {
    CanClear(a, st);
    var cleared := st.(replicaSets := [], pods := []);
    CanMakeSet(a, cleared, s);
    var rolled := RolledOut(cleared, s, "h").(pods := []);
    CanMakePod(a, rolled, rolled.replicaSets[0], st.configMaps[s]);
    assert rolled.(pods := RolledOut(st, s, "h").pods) == RolledOut(st, s, "h");
  }

  lemma RolledOutIsReachable(st: State, s: Name, n: Name)
    requires Live(st, s) && Configured(st, s, n)
    ensures UniquelyReachable(RolledOut(st, s, "h"), s, n)
  {
    var st' := RolledOut(st, s, "h");
    assert st'.pods[0] in st'.pods;
  }

  /** An activatable policy can get its webhook before the server's reconcile does anything more. */
  lemma ActivatableCanExist(a: State, st: State, s: Name, n: Name) returns (st': State)
    requires Leads(a, st) && Activatable(st, s, n) && PolicyWorkOf(st, n) == PolicyIdle && s != "" && s in st.servers
    ensures Leads(a, st') && st'.servers == st.servers && st'.serverWork == st.serverWork
    ensures var k := WebhookKey(n, st.policies[n].mutating); k in st'.webhooks && st'.webhooks[k] == s
  {
    CanRollOut(a, st, s);
    RolledOutIsReachable(st, s, n);
    st' := ByPolicy(a, RolledOut(st, s, "h"), n, Check(true));
    st' := ByPolicy(a, st', n, CreateWebhook);
  }

  /** A policy that is served gets its webhook in two steps, whatever other servers, and further pods of its
      own, are there: nothing has to go first, and nothing else changes. */
  lemma ServedPolicyActivates(st: State, s: Name, n: Name, i: nat)
    requires Bound(st, n, s) && !st.policies[n].deleting && PolicyWorkOf(st, n) == PolicyIdle
    requires s != "" && s in st.servers && s in st.deployments
    requires Configured(st, s, n)
    requires forall m :: m in st.configMaps[s].entries ==> st.configMaps[s].entries[m].wellFormed
    requires FirstLatest(st.replicaSets, i, s, st.deployments[s].revision, st.configMaps[s].version)
    requires st.replicaSets[i].hash != "" && AllServe(st, s, st.replicaSets[i].hash)
    ensures PolicyEnabled(st, n, Check(true)) && PolicyEnabled(PolicyNext(st, n, Check(true)), n, CreateWebhook)
    ensures var st' := PolicyNext(PolicyNext(st, n, Check(true)), n, CreateWebhook);
            && SameElsewhere(st, st')
            && st'.webhooks == st.webhooks[WebhookKey(n, st.policies[n].mutating) := s]
            && st'.policies == st.policies[n := st.policies[n].(status := Active)]
  {
    ReachableIff(st, s, n);
    var checked := PolicyNext(st, n, Check(true));
    assert checked.policyWork[n] == Creating(s, st.policies[n].mutating);
    assert checked.policies[n := checked.policies[n].(status := Active)]
        == st.policies[n := st.policies[n].(status := Active)];
  }

  // ---------------------------------------------------------------- the four disorderly steps

  lemma WantsKey(st: State, s: Name, n: Name) returns (k: WebhookKey)
    requires Wants(st, s, n)
    ensures Wanted(st, k, s) && k.name == n
  {
    k := WebhookKey(n, Wanted(st, WebhookKey(n, true), s));
  }

  lemma ExposedGoesUnbacked(a: State, st: State, s: Name, n: Name)
    requires Leads(a, st) && n in st.policies && s in st.servers && s != "" && Overlooked(st, s, n)
    requires Wants(st, s, n) || (Activatable(st, s, n) && PolicyWorkOf(st, n) == PolicyIdle)
    ensures CanLoseBacking(a)
  {
    if Wants(st, s, n) {
      var k := WantsKey(st, s, n);
      var st' := WantedCanExist(a, st, k, s);
      OverlookedGoesUnbacked(a, st', k, s);
    } else {
      var st' := ActivatableCanExist(a, st, s, n);
      OverlookedGoesUnbacked(a, st', WebhookKey(n, st.policies[n].mutating), s);
    }
  }

  /** Bringing back a name the live configuration still holds, while it is overlooked. */
  lemma ReusedNameGoesUnbacked(st: State, n: Name, s: Name, mutating: bool, spec: Spec)
    requires Inv(st) && UserEnabled(st, CreatePolicy(n, s, mutating, spec))
    requires Configured(st, s, n) && Live(st, s) && Overlooked(st, s, n)
    ensures CanLoseBacking(UserNext(st, CreatePolicy(n, s, mutating, spec)))
  {
    var st' := UserNext(st, CreatePolicy(n, s, mutating, spec));
    Stay(st');
    assert s in st.serverWork && n !in st.policyWork;
    ExposedGoesUnbacked(st', st', s, n);
  }

  /** Not seeing an exposed policy, and then writing the configuration or letting the server go. */
  lemma MissedPolicyGoesUnbacked(st: State, s: Name, missed: set<Name>, n: Name)
    requires Inv(st) && ServerEnabled(st, s, List(missed)) && !AfterList(st, s, missed).Deleting?
    requires n in missed && Exposed(st, s, n)
    ensures CanLoseBacking(ServerNext(st, s, List(missed)))
  {
    var st' := ServerNext(st, s, List(missed));
    Stay(st');
    if Wants(st, s, n) {
      WantsIsOwned(st, s, n);
      assert Wants(st', s, n);
    } else {
      var w := PolicyWorkOf(st, n);
      if w.Creating? {
        assert Wanted(st, WebhookKey(n, w.mutating), w.server);
      }
      assert PolicyWorkOf(st', n) == PolicyIdle && Activatable(st', s, n);
    }
    ExposedGoesUnbacked(st', st', s, n);
  }

  lemma SwitchedFlagGoesUnbacked(a: State, st: State, k: WebhookKey)
    requires Leads(a, st) && k in st.webhooks && k.name in st.policies && st.policies[k.name].mutating != k.mutating
    requires PolicyWorkOf(st, k.name) == PolicyIdle
    ensures CanLoseBacking(a)
  {
    var n := k.name;
    var st' := Go(a, st, User(DeletePolicy(n)));
    st' := ByPolicy(a, st', n, DeleteWebhook);
    st' := ByPolicy(a, st', n, RemovePolicy);
    assert !Backed(st', k);
  }

  /** Switching the flag of a policy with a webhook, or about to get one: deleting the policy then leaves it. */
  lemma SwitchGoesUnbacked(st: State, n: Name, mutating: bool)
    requires Inv(st) && n in st.policies && st.policies[n].mutating != mutating
    requires WebhookKey(n, st.policies[n].mutating) in st.webhooks || PolicyWorkOf(st, n).Creating?
    ensures CanLoseBacking(UserNext(st, SetMutating(n, mutating)))
  {
    var st' := UserNext(st, SetMutating(n, mutating));
    var k := WebhookKey(n, st.policies[n].mutating);
    Stay(st');
    if PolicyWorkOf(st, n).Creating? {
      assert Wanted(st, WebhookKey(n, st.policyWork[n].mutating), st.policyWork[n].server);
      var created := ByPolicy(st', st', n, CreateWebhook);
      SwitchedFlagGoesUnbacked(st', created, k);
    } else {
      SwitchedFlagGoesUnbacked(st', st', k);
    }
  }

  lemma EditedOutGoesUnbacked(a: State, st: State, s: Name, n: Name)
    requires Leads(a, st) && Wants(st, s, n) && n in st.policies && s in st.servers && Loadable(st, s)
    requires s in st.configMaps && n !in st.configMaps[s].entries
    ensures CanLoseBacking(a)
  {
    var k := WantsKey(st, s, n);
    var st' := WantedCanExist(a, st, k, s);
    assert Loadable(st', s);
    LostGoesUnbacked(a, st', k, s);
  }

  /** Editing a policy with a webhook out of a configuration that can still be read. */
  lemma LosingEditGoesUnbacked(st: State, s: Name, entries: map<Name, Spec>, n: Name)
    requires Inv(st) && s in st.configMaps && Loadable(st, s) && Wants(st, s, n) && n !in entries
    ensures CanLoseBacking(UserNext(st, EditConfigMap(s, entries)))
  {
    var st' := UserNext(st, EditConfigMap(s, entries));
    Stay(st');
    WantsIsOwned(st, s, n);
    UserFrame(st, EditConfigMap(s, entries));
    assert st'.configMaps[s].entries == entries;
    assert Wants(st', s, n) && Loadable(st', s);
    EditedOutGoesUnbacked(st', st', s, n);
  }

  // ---------------------------------------------------------------- the condition is exact

  lemma DisorderGoesUnbacked(st: State, step: Step)
    requires Inv(st) && Enabled(st, step) && !Orderly(st, step)
    ensures CanLoseBacking(Next(st, step))
  {
    match step
    case User(CreatePolicy(n, s, mutating, spec)) => ReusedNameGoesUnbacked(st, n, s, mutating, spec);
    case User(SetMutating(n, mutating)) => SwitchGoesUnbacked(st, n, mutating);
    case User(EditConfigMap(s, entries)) =>
      var n :| Wants(st, s, n) && n !in entries;
      LosingEditGoesUnbacked(st, s, entries, n);
    case Server(s, List(missed)) =>
      var n :| n in missed && Exposed(st, s, n);
      MissedPolicyGoesUnbacked(st, s, missed, n);
  }

  lemma InvNeverLosesBacking(st: State)
    requires Inv(st)
    ensures !CanLoseBacking(st)
  {
    forall bad | Leads(st, bad) ensures !Unbacked(bad) {
      var states, steps :| IsOrderlyPath(states, steps) && states[0] == st && states[|steps|] == bad;
      PathKeepsInv(states, steps, |steps|);
      InvMeansBacked(bad);
    }
  }

  lemma OrderlyReachedIsSafe(st: State)
    requires Leads(EMPTY, st)
    ensures Inv(st)
  {
    var states, steps :| IsOrderlyPath(states, steps) && states[0] == EMPTY && states[|steps|] == st;
    NothingIsSafe();
    PathKeepsInv(states, steps, |steps|);
  }

  /** Take any state that orderly steps lead to and any step of anyone in it. An unbacked webhook can then
      follow by orderly steps if and only if that step was not orderly. */
  lemma UnsafeIffDisorderly(st: State, step: Step)
    requires Leads(EMPTY, st) && Enabled(st, step)
    ensures CanLoseBacking(Next(st, step)) <==> !Orderly(st, step)
  {
    OrderlyReachedIsSafe(st);
    if Orderly(st, step) {
      StepKeepsInv(st, step);
      InvNeverLosesBacking(Next(st, step));
    } else {
      DisorderGoesUnbacked(st, step);
    }
  }
}
