/**
  Webhooks. A webhook sends every matching API request to a policy server, so one that outlives its
  policy or its server, or that runs ahead of the pods, blocks the cluster. Nothing but the order of
  the reconcile steps and the finalizers prevents that.
 */
module ClusterSafety {
  import opened ClusterState
  import opened ClusterRollout

  // ---------------------------------------------------------------- what is to be avoided

  /** The policy and the server a webhook stands for both exist, and no pod of that server that has read
      a configuration would turn its requests away. */
  ghost predicate Backed(st: State, k: WebhookKey)
    requires k in st.webhooks
  {
    var s := st.webhooks[k];
    && Bound(st, k.name, s) && s in st.servers
    && forall pod :: pod in st.pods && pod.server == s && pod.loaded.Some? ==> k.name in pod.loaded.value.entries
  }

  ghost predicate Unbacked(st: State) {
    exists k :: k in st.webhooks && !Backed(st, k)
  }

  // ---------------------------------------------------------------- what must not be done

  /** The reconcile of this server has already listed the policies, did not see this one, and has not
      acted on its list yet. */
  predicate Overlooked(st: State, s: Name, n: Name) {
    match WorkOf(st, s)
    case Writing(snapshot) => n !in snapshot
    case Removing => true
    case _ => false
  }

  predicate Configured(st: State, s: Name, n: Name) {
    s in st.configMaps && n in st.configMaps[s].entries
  }

  /** The webhook exists, or a reconcile has decided to write it. */
  predicate Wanted(st: State, k: WebhookKey, s: Name) {
    (k in st.webhooks && st.webhooks[k] == s) || PolicyWorkOf(st, k.name) == Creating(s, k.mutating)
  }

  predicate Wants(st: State, s: Name, n: Name) {
    Wanted(st, WebhookKey(n, true), s) || Wanted(st, WebhookKey(n, false), s)
  }

  /** The policy can get a webhook before its server's reconcile does anything more. */
  predicate Activatable(st: State, s: Name, n: Name) {
    Bound(st, n, s) && !st.policies[n].deleting && Configured(st, s, n) && Live(st, s)
  }

  predicate Exposed(st: State, s: Name, n: Name) {
    Wants(st, s, n) || Activatable(st, s, n)
  }

  /** Some pod of the server can still read the present configuration before the server's reconcile lists
      its policies again. */
  ghost predicate Loadable(st: State, s: Name) {
    || s in st.deployments || WorkOf(st, s).Reading? || WorkOf(st, s).Stamping?
    || (exists rs :: rs in st.replicaSets && rs.server == s)
    || (exists pod :: pod in st.pods && pod.server == s)
  }

  /** The four actions the reconcilers do not defend themselves against are ruled out:
      - bringing back a policy name that the server's live configuration still holds, while a reconcile of
        that server has overlooked it;
      - switching the mutating flag of a policy that has, or is about to have, a webhook;
      - editing the ConfigMap by hand so that it loses such a policy, while a pod can still read it;
      - a failed list call that hides such a policy, or one that could become one, from a server reconcile
        that then writes its configuration or lets the server go. */
  ghost predicate Orderly(st: State, step: Step) {
    match step
    case User(CreatePolicy(n, s, _, _)) => Configured(st, s, n) && Live(st, s) ==> !Overlooked(st, s, n)
    case User(SetMutating(n, mutating)) =>
      n in st.policies && st.policies[n].mutating != mutating ==>
        WebhookKey(n, st.policies[n].mutating) !in st.webhooks && !PolicyWorkOf(st, n).Creating?
    case User(EditConfigMap(s, entries)) => Loadable(st, s) ==> forall n :: Wants(st, s, n) ==> n in entries
    case Server(s, List(missed)) =>
      s in st.servers && !AfterList(st, s, missed).Deleting? ==> forall n :: n in missed ==> !Exposed(st, s, n)
    case _ => true
  }

  ghost predicate IsOrderlyPath(states: seq<State>, steps: seq<Step>) {
    IsPath(states, steps) && forall i :: 0 <= i < |steps| ==> Orderly(states[i], steps[i])
  }

  ghost predicate IsOrderlyRun(states: seq<State>, steps: seq<Step>) {
    IsOrderlyPath(states, steps) && states[0] == EMPTY
  }

  // ---------------------------------------------------------------- ownership

  /** The policy and the server a webhook, or the decision to write one, stands for both exist. */
  predicate Owned(st: State, k: WebhookKey, s: Name) {
    Bound(st, k.name, s) && st.policies[k.name].mutating == k.mutating && s in st.servers
  }

  ghost predicate WantedOwned(st: State) {
    forall k, s :: Wanted(st, k, s) ==> Owned(st, k, s)
  }

  /** No reconcile of a server acts on a list that lacks a policy with a webhook, or one that can get one. */
  ghost predicate NoneOverlooked(st: State) {
    forall s, n :: Exposed(st, s, n) ==> !Overlooked(st, s, n)
  }

  ghost predicate WorkConsistent(st: State) {
    && "" !in st.servers
    && (forall s :: s in st.serverWork ==> s in st.servers)
    && (forall n :: n in st.policyWork ==> n in st.policies)
    && (forall n :: PolicyWorkOf(st, n).Finalizing? ==>
          n in st.policies && st.policies[n].deleting && forall m :: WebhookKey(n, m) !in st.webhooks)
  }

  /** A policy reported as active, and not being deleted, has its webhook. */
  ghost predicate ActiveHasWebhook(st: State) {
    forall n :: n in st.policies && st.policies[n].status.Active? && !st.policies[n].deleting ==>
      WebhookKey(n, st.policies[n].mutating) in st.webhooks
  }

  /** Nothing that runs, or could still be read by what runs, leaves `n` out. */
  ghost predicate Supplied(st: State, s: Name, n: Name) {
    && (s in st.configMaps && Loadable(st, s) ==> n in st.configMaps[s].entries)
    && forall pod :: pod in st.pods && pod.server == s && pod.loaded.Some? ==> n in pod.loaded.value.entries
  }

  ghost predicate WantedSupplied(st: State) {
    forall k, s :: Wanted(st, k, s) ==> Supplied(st, s, k.name)
  }

  ghost predicate SafetyInv(st: State) {
    WantedOwned(st) && NoneOverlooked(st) && WorkConsistent(st) && ActiveHasWebhook(st)
  }

  ghost predicate Inv(st: State) {
    RolloutInv(st) && SafetyInv(st) && WantedSupplied(st)
  }

  lemma WantsIsOwned(st: State, s: Name, n: Name)
    requires WantedOwned(st) && Wants(st, s, n)
    ensures Bound(st, n, s) && s in st.servers
  {
    assert Owned(st, WebhookKey(n, true), s) || Owned(st, WebhookKey(n, false), s);
  }

  lemma InvMeansBacked(st: State)
    requires Inv(st)
    ensures !Unbacked(st)
  {
    forall k | k in st.webhooks ensures Backed(st, k) {
      assert Wanted(st, k, st.webhooks[k]);
      assert Owned(st, k, st.webhooks[k]) && Supplied(st, st.webhooks[k], k.name);
    }
  }

  // ---------------------------------------------------------------- Kubernetes

  lemma KubeFrame(st: State, k: KubeStep)
    requires KubeEnabled(st, k)
    ensures var st' := KubeNext(st, k);
            && st'.servers == st.servers && st'.policies == st.policies && st'.webhooks == st.webhooks
            && st'.serverWork == st.serverWork && st'.policyWork == st.policyWork
            && (forall s :: s in st'.configMaps ==> s in st.configMaps && st'.configMaps[s] == st.configMaps[s])
            && (forall s :: s in st'.deployments ==>
                  s in st.deployments && st'.deployments[s].stamp == st.deployments[s].stamp)
  {
  }

  lemma KubeKeepsSafety(st: State, k: KubeStep)
    requires SafetyInv(st) && KubeEnabled(st, k)
    ensures SafetyInv(KubeNext(st, k))
  {
    var st' := KubeNext(st, k);
    KubeFrame(st, k);
    forall s, n | Exposed(st', s, n) ensures !Overlooked(st', s, n) {
      assert Exposed(st, s, n) by {
        assert Wants(st', s, n) ==> Wants(st, s, n);
        assert Activatable(st', s, n) ==> Activatable(st, s, n);
      }
    }
    forall w, s | Wanted(st', w, s) ensures Owned(st', w, s) {
      assert Wanted(st, w, s);
    }
    assert forall n :: PolicyWorkOf(st', n) == PolicyWorkOf(st, n);
  }

  lemma KubeKeepsLoadable(st: State, k: KubeStep, s: Name)
    requires KubeEnabled(st, k) && Loadable(KubeNext(st, k), s)
    ensures Loadable(st, s)
  {
    var st' := KubeNext(st, k);
    KubeFrame(st, k);
    if rs :| rs in st'.replicaSets && rs.server == s {
      assert rs in st.replicaSets || s in st.deployments;
    }
    if pod :| pod in st'.pods && pod.server == s {
      if pod !in st.pods {
        assert k.StartPod? || k.SetReady? ==> st.pods[k.i] in st.pods;
        assert k.CreatePod? ==> st.replicaSets[k.i] in st.replicaSets;
      }
    }
  }

  lemma KubeKeepsSupplied(st: State, k: KubeStep, s: Name, n: Name)
    requires Supplied(st, s, n) && KubeEnabled(st, k)
    ensures Supplied(KubeNext(st, k), s, n)
  {
    var st' := KubeNext(st, k);
    KubeFrame(st, k);
    if Loadable(st', s) {
      KubeKeepsLoadable(st, k, s);
    }
    forall pod | pod in st'.pods && pod.server == s && pod.loaded.Some? ensures n in pod.loaded.value.entries {
      if pod !in st.pods {
        assert (k.StartPod? || k.SetReady?) && st.pods[k.i] in st.pods;
        assert k.StartPod? ==> Loadable(st, s);
      }
    }
  }

  lemma KubeKeepsWantedSupplied(st: State, k: KubeStep)
    requires WantedSupplied(st) && KubeEnabled(st, k)
    ensures WantedSupplied(KubeNext(st, k))
  {
    KubeFrame(st, k);
    forall w, s | Wanted(KubeNext(st, k), w, s) ensures Supplied(KubeNext(st, k), s, w.name) {
      assert Wanted(st, w, s);
      KubeKeepsSupplied(st, k, s, w.name);
    }
  }

  // ---------------------------------------------------------------- users

  lemma UserFrame(st: State, u: UserStep)
    requires UserEnabled(st, u)
    ensures var st' := UserNext(st, u);
            && st'.webhooks == st.webhooks && st'.serverWork == st.serverWork && st'.policyWork == st.policyWork
            && st'.deployments == st.deployments && st'.replicaSets == st.replicaSets && st'.pods == st.pods
            && st.servers.Keys <= st'.servers.Keys && (forall s :: s in st'.servers ==> s in st.servers || s != "")
            && (u.EditConfigMap? || st'.configMaps == st.configMaps)
  {
  }

  lemma UserKeepsWantedOwned(st: State, u: UserStep)
    requires SafetyInv(st) && UserEnabled(st, u) && Orderly(st, User(u))
    ensures WantedOwned(UserNext(st, u))
  {
    var st' := UserNext(st, u);
    forall k, s | Wanted(st', k, s) ensures Owned(st', k, s) {
      assert Wanted(st, k, s) && Owned(st, k, s);
    }
  }

  lemma UserKeepsWork(st: State, u: UserStep)
    requires SafetyInv(st) && UserEnabled(st, u) && Orderly(st, User(u))
    ensures WorkConsistent(UserNext(st, u)) && ActiveHasWebhook(UserNext(st, u))
  {
    var st' := UserNext(st, u);
    UserFrame(st, u);
    assert forall n :: PolicyWorkOf(st', n) == PolicyWorkOf(st, n);
  }

  /** Nothing a user does makes a configuration live. */
  lemma UserMakesNothingLive(st: State, u: UserStep, s: Name)
    requires RolloutInv(st) && UserEnabled(st, u) && Live(UserNext(st, u), s)
    ensures Live(st, s) && UserNext(st, u).configMaps[s] == st.configMaps[s]
  {
    if u.EditConfigMap? {
      NewVersionIsNotLive(st, u.s, u.entries);
    }
  }

  lemma UserExposes(st: State, u: UserStep, s: Name, n: Name)
    requires RolloutInv(st) && UserEnabled(st, u) && Exposed(UserNext(st, u), s, n) && !Exposed(st, s, n)
    ensures u == CreatePolicy(n, s, u.mutating, u.spec) && Configured(st, s, n) && Live(st, s)
  {
    UserFrame(st, u);
    assert Wants(UserNext(st, u), s, n) ==> Wants(st, s, n);
    UserMakesNothingLive(st, u, s);
  }

  lemma UserKeepsNoneOverlooked(st: State, u: UserStep)
    requires RolloutInv(st) && SafetyInv(st) && UserEnabled(st, u) && Orderly(st, User(u))
    ensures NoneOverlooked(UserNext(st, u))
  {
    var st' := UserNext(st, u);
    UserFrame(st, u);
    forall s, n | Exposed(st', s, n) ensures !Overlooked(st', s, n) {
      if !Exposed(st, s, n) {
        UserExposes(st, u, s, n);
      }
      assert WorkOf(st', s) == WorkOf(st, s);
    }
  }

  lemma UserKeepsSafety(st: State, u: UserStep)
    requires RolloutInv(st) && SafetyInv(st) && UserEnabled(st, u) && Orderly(st, User(u))
    ensures SafetyInv(UserNext(st, u))
  {
    UserKeepsWantedOwned(st, u);
    UserKeepsWork(st, u);
    UserKeepsNoneOverlooked(st, u);
  }

  lemma UserKeepsWantedSupplied(st: State, u: UserStep)
    requires WantedSupplied(st) && UserEnabled(st, u) && Orderly(st, User(u))
    ensures WantedSupplied(UserNext(st, u))
  {
    var st' := UserNext(st, u);
    UserFrame(st, u);
    forall k, s | Wanted(st', k, s) ensures Supplied(st', s, k.name) {
      assert Wanted(st, k, s) && Supplied(st, s, k.name);
      assert Wants(st, s, k.name);
      assert Loadable(st', s) == Loadable(st, s);
    }
  }

  // ---------------------------------------------------------------- the policy server controller

  lemma ServerKeepsExposed(st: State, r: Name, a: ServerStep, s: Name, n: Name)
    requires ServerEnabled(st, r, a) && !a.Stamp? && Exposed(ServerNext(st, r, a), s, n)
    requires r == s ==> !a.Write?
    ensures Exposed(st, s, n)
  {
    assert Wants(ServerNext(st, r, a), s, n) ==> Wants(st, s, n);
  }

  /** A list sees all exposed policies, or all that matter. */
  lemma ListOverlooksNone(st: State, s: Name, missed: set<Name>, n: Name)
    requires SafetyInv(st) && ServerEnabled(st, s, List(missed)) && Orderly(st, Server(s, List(missed)))
    requires Exposed(st, s, n)
    ensures !Overlooked(ServerNext(st, s, List(missed)), s, n)
  {
    if Wants(st, s, n) {
      WantsIsOwned(st, s, n);
    }
    assert n in BoundNames(st, s) && n in BoundEntries(st, s);
    if n in missed {
      assert AfterList(st, s, missed).Deleting?;
    } else {
      assert n in BoundNames(st, s) - missed && n in BoundEntries(st, s) - missed;
    }
  }

  lemma ServerKeepsNoneOverlooked(st: State, r: Name, a: ServerStep)
    requires SafetyInv(st) && ServerEnabled(st, r, a) && Orderly(st, Server(r, a))
    ensures NoneOverlooked(ServerNext(st, r, a))
  {
    var st' := ServerNext(st, r, a);
    forall s, n | Exposed(st', s, n) ensures !Overlooked(st', s, n) {
      if s == r && a.List? {
        ServerKeepsExposed(st, r, a, s, n);
        ListOverlooksNone(st, s, a.missed, n);
      } else if s != r {
        assert Wants(st', s, n) ==> Wants(st, s, n);
        assert Exposed(st, s, n);
        assert WorkOf(st', s) == WorkOf(st, s);
      }
    }
  }

  lemma ServerKeepsOwners(st: State, r: Name, a: ServerStep)
    requires SafetyInv(st) && ServerEnabled(st, r, a)
    ensures WantedOwned(ServerNext(st, r, a))
  {
    var st' := ServerNext(st, r, a);
    forall k, s | Wanted(st', k, s) ensures Owned(st', k, s) {
      assert Wanted(st, k, s) && Owned(st, k, s);
      assert Wants(st, s, k.name);
      assert Exposed(st, s, k.name);
    }
  }

  lemma ServerKeepsSafety(st: State, r: Name, a: ServerStep)
    requires SafetyInv(st) && ServerEnabled(st, r, a) && Orderly(st, Server(r, a))
    ensures SafetyInv(ServerNext(st, r, a))
  {
    ServerKeepsOwners(st, r, a);
    ServerKeepsNoneOverlooked(st, r, a);
    assert forall n :: PolicyWorkOf(ServerNext(st, r, a), n) == PolicyWorkOf(st, n);
  }

  lemma ServerKeepsSupplied(st: State, r: Name, a: ServerStep, s: Name, n: Name)
    requires Supplied(st, s, n) && !Overlooked(st, s, n) && ServerEnabled(st, r, a)
    ensures Supplied(ServerNext(st, r, a), s, n)
  {
    var st' := ServerNext(st, r, a);
    assert st'.pods == st.pods && st'.replicaSets == st.replicaSets;
    assert (r == s && a.Write?) || (Loadable(st', s) ==> Loadable(st, s));
  }

  lemma ServerKeepsWantedSupplied(st: State, r: Name, a: ServerStep)
    requires SafetyInv(st) && WantedSupplied(st) && ServerEnabled(st, r, a)
    ensures WantedSupplied(ServerNext(st, r, a))
  {
    var st' := ServerNext(st, r, a);
    forall k, s | Wanted(st', k, s) ensures Supplied(st', s, k.name) {
      assert Wanted(st, k, s);
      assert Wants(st, s, k.name);
      assert Exposed(st, s, k.name);
      ServerKeepsSupplied(st, r, a, s, k.name);
    }
  }

  // ---------------------------------------------------------------- the policy controller

  lemma ActivatingIsSafe(st: State, n: Name)
    requires Inv(st) && n in st.policies && !st.policies[n].deleting && Activates(st, n)
    ensures !Overlooked(st, st.policies[n].server, n) && Supplied(st, st.policies[n].server, n)
  {
    var s := st.policies[n].server;
    ReachableIsLive(st, s, n);
    ReachableIsServedByAll(st, s, n);
    assert Activatable(st, s, n);
    assert Exposed(st, s, n);
  }

  /** A policy reconcile adds at most one wish for a webhook, and only on finding the policy reachable. */
  lemma PolicyWishes(st: State, n: Name, p: PolicyStep, k: WebhookKey, s: Name)
    requires PolicyEnabled(st, n, p) && Wanted(PolicyNext(st, n, p), k, s)
    ensures Wanted(st, k, s)
            || (k == WebhookKey(n, st.policies[n].mutating) && s == st.policies[n].server
                && !st.policies[n].deleting && Activates(st, n))
  {
  }

  lemma PolicyKeepsOwners(st: State, n: Name, p: PolicyStep)
    requires Inv(st) && PolicyEnabled(st, n, p)
    ensures WantedOwned(PolicyNext(st, n, p))
  {
    var st' := PolicyNext(st, n, p);
    forall k, s | Wanted(st', k, s) ensures Owned(st', k, s) {
      PolicyWishes(st, n, p, k, s);
      assert Owned(st, k, s);
      assert p.RemovePolicy? ==> PolicyWorkOf(st, n).Finalizing?;
      assert p.RemovePolicy? && k.name == n ==> k == WebhookKey(n, k.mutating);
    }
  }

  lemma PolicyKeepsNoneOverlooked(st: State, n: Name, p: PolicyStep)
    requires Inv(st) && PolicyEnabled(st, n, p)
    ensures NoneOverlooked(PolicyNext(st, n, p))
  {
    var st' := PolicyNext(st, n, p);
    forall s, m | Exposed(st', s, m) ensures !Overlooked(st', s, m) {
      if !Exposed(st, s, m) {
        forall flag | Wanted(st', WebhookKey(m, flag), s)
          ensures m == n && s == st.policies[n].server && Activates(st, n)
        {
          PolicyWishes(st, n, p, WebhookKey(m, flag), s);
        }
        ActivatingIsSafe(st, n);
      }
    }
  }

  lemma PolicyKeepsSafety(st: State, n: Name, p: PolicyStep)
    requires Inv(st) && PolicyEnabled(st, n, p)
    ensures SafetyInv(PolicyNext(st, n, p))
  {
    PolicyKeepsOwners(st, n, p);
    PolicyKeepsNoneOverlooked(st, n, p);
    PolicyKeepsWork(st, n, p);
  }

  lemma PolicyKeepsWork(st: State, n: Name, p: PolicyStep)
    requires SafetyInv(st) && PolicyEnabled(st, n, p)
    ensures WorkConsistent(PolicyNext(st, n, p)) && ActiveHasWebhook(PolicyNext(st, n, p))
  {
    var st' := PolicyNext(st, n, p);
    assert forall m :: m != n ==> PolicyWorkOf(st', m) == PolicyWorkOf(st, m);
    if p.CreateWebhook? {
      assert Wanted(st, WebhookKey(n, st.policyWork[n].mutating), st.policyWork[n].server);
    }
    if p.DeleteWebhook? {
      forall m | WebhookKey(n, m) in st.webhooks ensures m == st.policies[n].mutating {
        assert Wanted(st, WebhookKey(n, m), st.webhooks[WebhookKey(n, m)]);
      }
    }
  }

  lemma PolicyKeepsWantedSupplied(st: State, n: Name, p: PolicyStep)
    requires Inv(st) && PolicyEnabled(st, n, p)
    ensures WantedSupplied(PolicyNext(st, n, p))
  {
    var st' := PolicyNext(st, n, p);
    forall k, s | Wanted(st', k, s) ensures Supplied(st', s, k.name) {
      PolicyWishes(st, n, p, k, s);
      if !Wanted(st, k, s) {
        ActivatingIsSafe(st, n);
      }
      assert Supplied(st, s, k.name);
      assert Loadable(st', s) == Loadable(st, s);
    }
  }

  // ---------------------------------------------------------------- every step, every run

  lemma StepKeepsSafety(st: State, step: Step)
    requires Inv(st) && Enabled(st, step) && Orderly(st, step)
    ensures SafetyInv(Next(st, step))
  {
    match step
    case User(u) => UserKeepsSafety(st, u);
    case Kube(k) => KubeKeepsSafety(st, k);
    case Server(s, a) => ServerKeepsSafety(st, s, a);
    case Own(n, p) => PolicyKeepsSafety(st, n, p);
  }

  lemma StepKeepsSupplied(st: State, step: Step)
    requires Inv(st) && Enabled(st, step) && Orderly(st, step)
    ensures WantedSupplied(Next(st, step))
  {
    match step
    case User(u) => UserKeepsWantedSupplied(st, u);
    case Kube(k) => KubeKeepsWantedSupplied(st, k);
    case Server(s, a) => ServerKeepsWantedSupplied(st, s, a);
    case Own(n, p) => PolicyKeepsWantedSupplied(st, n, p);
  }

  lemma StepKeepsInv(st: State, step: Step)
    requires Inv(st) && Enabled(st, step) && Orderly(st, step)
    ensures Inv(Next(st, step))
  {
    StepKeepsRollout(st, step);
    StepKeepsSafety(st, step);
    StepKeepsSupplied(st, step);
  }

  lemma {:induction false} PathKeepsInv(states: seq<State>, steps: seq<Step>, i: nat)
    requires IsOrderlyPath(states, steps) && i < |states| && Inv(states[0])
    ensures Inv(states[i])
  {
    if i > 0 {
      PathKeepsInv(states, steps, i - 1);
      StepKeepsInv(states[i - 1], steps[i - 1]);
    }
  }

  lemma NothingIsSafe()
    ensures Inv(EMPTY)
  {
  }

  /** In every orderly interleaving, at every moment: a webhook has its policy and its policy server,
      routes to that server, and every pod of that server that has read a configuration serves the
      policy. Conversely a policy reported as active and not being deleted has its webhook. */
  lemma WebhooksAreBacked(states: seq<State>, steps: seq<Step>, i: nat)
    requires IsOrderlyRun(states, steps) && i < |states|
    ensures forall k :: k in states[i].webhooks ==>
              && k.name in states[i].policies
              && states[i].webhooks[k] == states[i].policies[k.name].server
              && states[i].webhooks[k] in states[i].servers
              && forall pod :: pod in states[i].pods && pod.server == states[i].webhooks[k] && pod.loaded.Some? ==>
                   k.name in pod.loaded.value.entries
    ensures var policies := states[i].policies;
            forall n :: n in policies && policies[n].status.Active? && !policies[n].deleting ==>
              WebhookKey(n, policies[n].mutating) in states[i].webhooks
  {
    NothingIsSafe();
    PathKeepsInv(states, steps, i);
    InvMeansBacked(states[i]);
    assert forall k :: k in states[i].webhooks ==> Backed(states[i], k);
  }
}
