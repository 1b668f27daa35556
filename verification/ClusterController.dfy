/**
  The two controllers as they are written: methods that read and update the cluster step by step.
  Each whole reconcile is shown to be a sequence of the atomic steps of `ClusterState`, so what is
  proved about every interleaving of those steps holds of this code.
 */
module ClusterController {
  import opened ClusterState

  /** The API call of a policy reconcile that fails, if any. */
  datatype PolicyFault =
    | NoPolicyFault
    | ServerUnread
    | DeploymentUnread
    | PodsUnread
    | SecretUnread
    | WebhookUnwritten

  /** The API call that fails when a policy is taken down, if any. */
  datatype RemovalFault = NoRemovalFault | WebhookKept | FinalizerKept

  /** The API call of a policy server reconcile that fails, if any; list calls that fail other than with
      NotFound, and the deletion of policies, fail on their own account. A conflict on the last update is not
      reported. */
  datatype ServerFault =
    | NoServerFault
    | PoliciesNotFound
    | ConfigMapUnwritten
    | VersionUnread
    | DeploymentUnwritten
    | StatusUnwritten
    | ServerKept(conflict: bool)

  predicate ServerExists(st: State, n: Name) {
    n in st.policies && st.policies[n].server != "" && st.policies[n].server in st.servers
  }

  /** A reconcile of a live policy that nobody interrupts. */
  function PolicyReconciled(st: State, n: Name, fault: PolicyFault): State
    requires PolicyEnabled(st, n, Check(true))
  {
    var checked := PolicyNext(st, n, Check(!fault.ServerUnread?));
    if fault.ServerUnread? || !Activates(st, n) then checked
    else if fault.NoPolicyFault? then PolicyNext(checked, n, CreateWebhook)
    else PolicyNext(checked, n, AbortPolicy)
  }

  /** The same written out, for a policy whose server was found. */
  lemma PolicyReconciledIs(st: State, n: Name, fault: PolicyFault)
    requires PolicyEnabled(st, n, Check(true)) && !fault.ServerUnread? && ServerExists(st, n)
    ensures var p, active := st.policies[n], Activates(st, n) && fault.NoPolicyFault?;
            PolicyReconciled(st, n, fault) ==
            st.(policies := st.policies[n := p.(status := if active || p.status.Active? then Active else Pending)],
                webhooks := if active then st.webhooks[WebhookKey(n, p.mutating) := p.server] else st.webhooks,
                policyWork := if Activates(st, n) then st.policyWork[n := PolicyIdle] else st.policyWork)
  {
    var p := st.policies[n];
    assert st.policyWork[n := Creating(p.server, p.mutating)][n := PolicyIdle] == st.policyWork[n := PolicyIdle];
    var checked := p.(status := CheckedStatus(st, p, true));
    assert st.policies[n := checked][n := checked.(status := Active)] == st.policies[n := p.(status := Active)];
  }

  /** What becomes of the policy and its webhook: unscheduled without a server, scheduled while the server is
      missing or cannot be read, active with its webhook written if it is served and nothing fails, and otherwise
      pending, or still active. Nothing else about the policy changes. */
  predicate Outcome(st: State, n: Name, fault: PolicyFault, st': State) {
    n in st.policies && n in st'.policies &&
    var p, status := st.policies[n], st'.policies[n].status;
    && st'.policies == st.policies[n := p.(status := status)]
    && (p.server == "" ==> status == Unscheduled && st'.webhooks == st.webhooks)
    && (p.server != "" && (fault.ServerUnread? || p.server !in st.servers) ==>
          status == Scheduled && st'.webhooks == st.webhooks)
    && (ServerExists(st, n) && !fault.ServerUnread? ==>
          if UniquelyReachable(st, p.server, n) && fault.NoPolicyFault? then
            status == Active && st'.webhooks == st.webhooks[WebhookKey(n, p.mutating) := p.server]
          else
            status == (if p.status == Active then Active else Pending) && st'.webhooks == st.webhooks)
  }

  lemma ReconciledOutcome(st: State, n: Name, fault: PolicyFault)
    requires PolicyEnabled(st, n, Check(true))
    ensures Outcome(st, n, fault, PolicyReconciled(st, n, fault))
  {
    if ServerExists(st, n) && !fault.ServerUnread? {
      PolicyReconciledIs(st, n, fault);
    }
  }

  /** A reconcile of a policy being deleted that nobody interrupts. */
  function PolicyFinalized(st: State, n: Name, fault: RemovalFault): State
    requires PolicyEnabled(st, n, DeleteWebhook)
  {
    if fault.WebhookKept? then st
    else PolicyNext(PolicyNext(st, n, DeleteWebhook), n, if fault.FinalizerKept? then AbortPolicy else RemovePolicy)
  }

  function ToSet(names: seq<Name>): set<Name> {
    set n | n in names
  }

  /** A reconcile of a live policy server that nobody interrupts. */
  function ServerRefreshed(st: State, s: Name, missed: set<Name>, fault: ServerFault): State
    requires ServerEnabled(st, s, List(missed)) && !st.servers[s].deleting
  {
    var listed := ServerNext(st, s, List(missed));
    Wrote(st, s, missed);
    if fault.ConfigMapUnwritten? then ServerNext(listed, s, AbortServer)
    else
      var written := ServerNext(listed, s, Write);
      if fault.VersionUnread? then ServerNext(written, s, AbortServer)
      else
        var read := ServerNext(written, s, Read);
        ServerNext(read, s, if fault.DeploymentUnwritten? then AbortServer else Stamp)
  }

  /** A reconcile of a policy server being deleted; deleting the policies in `failing` fails. */
  function ServerDismantled(st: State, s: Name, missed: set<Name>, failing: set<Name>, fault: ServerFault): State
    requires ServerEnabled(st, s, List(missed)) && st.servers[s].deleting
  {
    var listed := ServerNext(st, s, List(missed));
    var seen := BoundNames(st, s) - missed;
    if seen != {} then ServerNext(listed, s, DeletePolicies(seen - failing))
    else ServerNext(listed, s, if fault.ServerKept? then AbortServer else RemoveServer)
  }

  function ServerReconciled(st: State, s: Name, missed: set<Name>, failing: set<Name>, fault: ServerFault): State
    requires ServerEnabled(st, s, List(missed))
  {
    if fault.PoliciesNotFound? then st
    else if st.servers[s].deleting then ServerDismantled(st, s, missed, failing, fault)
    else ServerRefreshed(st, s, missed, fault)
  }

  function Revision(st: State, s: Name): nat {
    if s in st.deployments then st.deployments[s].revision else 0
  }

  lemma Wrote(st: State, s: Name, missed: set<Name>)
    requires ServerEnabled(st, s, List(missed)) && !st.servers[s].deleting
    ensures var listed := ServerNext(st, s, List(missed));
            && ServerEnabled(listed, s, Write)
            && ServerNext(listed, s, Write) ==
                 Written(st, s, BoundEntries(st, s) - missed).(serverWork := st.serverWork[s := Reading])
            && ServerEnabled(ServerNext(listed, s, Write), s, Read)
  {
    assert st.serverWork[s := AfterList(st, s, missed)][s := Reading] == st.serverWork[s := Reading];
  }

  lemma Stamped(st: State, s: Name)
    requires ServerEnabled(st, s, Read)
    ensures ServerNext(ServerNext(st, s, Read), s, Stamp) ==
            st.(deployments := st.deployments[s := Deployment(st.configMaps[s].version, Revision(st, s))],
                serverWork := st.serverWork[s := ServerIdle])
  {
    assert st.serverWork[s := Stamping(st.configMaps[s].version)][s := ServerIdle] == st.serverWork[s := ServerIdle];
  }

  /** The same, written out. */
  function Refreshed(st: State, s: Name): State {
    var written := Written(st, s, BoundEntries(st, s));
    written.(deployments := st.deployments[s := Deployment(written.configMaps[s].version, Revision(st, s))],
             serverWork := st.serverWork[s := ServerIdle])
  }

  lemma LiveReconcile(st: State, s: Name)
    requires ServerEnabled(st, s, List({})) && !st.servers[s].deleting
    ensures ServerRefreshed(st, s, {}, NoServerFault) == Refreshed(st, s)
  {
    assert BoundEntries(st, s) - {} == BoundEntries(st, s);
    Wrote(st, s, {});
    var written := ServerNext(ServerNext(st, s, List({})), s, Write);
    Stamped(written, s);
    assert ServerRefreshed(st, s, {}, NoServerFault) == ServerNext(ServerNext(written, s, Read), s, Stamp);
    assert st.serverWork[s := Reading][s := ServerIdle] == st.serverWork[s := ServerIdle];
  }

  lemma RefreshedSettles(st: State, s: Name)
    ensures Refreshed(Refreshed(st, s), s) == Refreshed(st, s)
    ensures var st' := Refreshed(st, s);
            && st'.configMaps[s].entries == BoundEntries(st, s)
            && st'.deployments[s].stamp == st'.configMaps[s].version
  {
    var st' := Refreshed(st, s);
    assert BoundEntries(st', s) == BoundEntries(st, s);
    assert st'.deployments == st'.deployments[s := Deployment(st'.configMaps[s].version, Revision(st', s))];
    assert st'.serverWork == st'.serverWork[s := ServerIdle];
  }

  /** After an undisturbed reconcile the configuration holds exactly the bound policies and the deployment
      is stamped with its version, and reconciling again changes nothing: no needless rollout. */
  lemma ReconcileSettles(st: State, s: Name)
    requires ServerEnabled(st, s, List({})) && !st.servers[s].deleting
    ensures var st' := ServerReconciled(st, s, {}, {}, NoServerFault);
            && s in st'.configMaps && st'.configMaps[s].entries == BoundEntries(st, s)
            && s in st'.deployments && st'.deployments[s].stamp == st'.configMaps[s].version
            && ServerEnabled(st', s, List({})) && ServerReconciled(st', s, {}, {}, NoServerFault) == st'
  {
    LiveReconcile(st, s);
    RefreshedSettles(st, s);
    LiveReconcile(Refreshed(st, s), s);
  }

  class Cluster {
    var clock: nat
    var servers: map<Name, PolicyServer>
    var policies: map<Name, Policy>
    var webhooks: map<WebhookKey, Name>
    var configMaps: map<Name, ConfigMap>
    var deployments: map<Name, Deployment>
    var replicaSets: seq<ReplicaSet>
    var pods: seq<Pod>
    ghost var serverWork: map<Name, ServerWork>
    ghost var policyWork: map<Name, PolicyWork>

    ghost function View(): State
      reads this
    {
      State(clock, servers, policies, webhooks, configMaps, deployments, replicaSets, pods, serverWork, policyWork)
    }

    method ListPods(s: Name) returns (items: seq<Pod>)
      ensures forall pod :: pod in items <==> pod in pods && pod.server == s
    {
      items := [];
      for i := 0 to |pods|
        invariant forall pod :: pod in items <==> pod in pods[..i] && pod.server == s
      {
        assert pods[..i + 1] == pods[..i] + [pods[i]];
        if pods[i].server == s {
          items := items + [pods[i]];
        }
      }
      assert pods[..|pods|] == pods;
    }

    method FindLatestHash(s: Name, revision: nat, version: nat) returns (hash: string)
      ensures hash == LatestHash(replicaSets, s, revision, version)
    {
      hash := "";
      var index := 0;
      while index < |replicaSets|
        invariant index <= |replicaSets|
        invariant LatestHash(replicaSets, s, revision, version) ==
                  LatestHash(replicaSets[index..], s, revision, version)
      {
        if IsLatest(replicaSets[index], s, revision, version) {
          return replicaSets[index].hash;
        }
        assert replicaSets[index..][1..] == replicaSets[index + 1..];
        index := index + 1;
      }
    }

    method IsPolicyInConfigMap(cm: ConfigMap, n: Name) returns (found: bool)
      ensures found == InConfigMap(cm, n)
    {
      var left := cm.entries.Keys;
      while left != {}
        invariant left <= cm.entries.Keys
        invariant forall m :: m in cm.entries && m !in left ==> cm.entries[m].wellFormed
        decreases left
      {
        var m :| m in left;
        if !cm.entries[m].wellFormed {
          return false;
        }
        left := left - {m};
      }
      found := n in cm.entries;
    }

    method IsPolicyUniquelyReachable(s: Name, n: Name) returns (reachable: bool)
      requires s in deployments
      ensures reachable == UniquelyReachable(View(), s, n)
    {
      if s !in configMaps {
        return false;
      }
      var found := IsPolicyInConfigMap(configMaps[s], n);
      if !found {
        return false;
      }
      var hash := FindLatestHash(s, deployments[s].revision, configMaps[s].version);
      if hash == "" {
        return false;
      }
      var items := ListPods(s);
      if |items| == 0 {
        return false;
      }
      assert items[0] in items;
      for i := 0 to |items|
        invariant forall j :: 0 <= j < i ==> items[j].hash == hash && items[j].ready
      {
        assert items[i] in items;
        if items[i].hash != hash || !items[i].ready {
          return false;
        }
      }
      reachable := true;
    }

    /** A policy whose server was found. */
    method ReconcileBound(n: Name, fault: PolicyFault) returns (requeue: bool, failed: bool)
      requires PolicyEnabled(View(), n, Check(true)) && ServerExists(View(), n) && !fault.ServerUnread?
      modifies this
      ensures View() == PolicyReconciled(old(View()), n, fault)
      ensures var reachable := UniquelyReachable(old(View()), old(policies)[n].server, n);
              && (requeue <==> !fault.DeploymentUnread? && (!reachable || fault.PodsUnread?))
              && (failed <==>
                    || fault.DeploymentUnread?
                    || (reachable && (fault.SecretUnread? || fault.WebhookUnwritten?)))
    {
      var p := policies[n];
      ghost var st := View();
      PolicyReconciledIs(st, n, fault);
      if !p.status.Active? {
        policies := policies[n := p.(status := Pending)];
      } else {
        assert policies == policies[n := p];
      }
      policyWork := if Activates(st, n) then policyWork[n := PolicyIdle] else policyWork;
      if fault.DeploymentUnread? {
        return false, true;
      }
      var reachable := false;
      if p.server in deployments {
        reachable := IsPolicyUniquelyReachable(p.server, n);
        assert reachable == UniquelyReachable(st, p.server, n);
      }
      if !reachable || fault.PodsUnread? {
        return true, false;
      }
      if fault.SecretUnread? || fault.WebhookUnwritten? {
        return false, true;
      }
      webhooks := webhooks[WebhookKey(n, p.mutating) := p.server];
      policies := policies[n := policies[n].(status := Active)];
      requeue, failed := false, false;
    }

    method ReconcilePolicy(n: Name, fault: PolicyFault) returns (requeue: bool, failed: bool)
      requires PolicyEnabled(View(), n, Check(true))
      modifies this
      ensures View() == PolicyReconciled(old(View()), n, fault)
      ensures Outcome(old(View()), n, fault, View())
      ensures ServerExists(old(View()), n) && !fault.ServerUnread? ==>
                var reachable := UniquelyReachable(old(View()), old(policies)[n].server, n);
                && (requeue <==> !fault.DeploymentUnread? && (!reachable || fault.PodsUnread?))
                && (failed <==>
                      || fault.DeploymentUnread?
                      || (reachable && (fault.SecretUnread? || fault.WebhookUnwritten?)))
      ensures !ServerExists(old(View()), n) || fault.ServerUnread? ==> !requeue && !failed
    {
      ReconciledOutcome(View(), n, fault);
      requeue, failed := false, false;
      var p := policies[n];
      if p.server == "" {
        policies := policies[n := p.(status := Unscheduled)];
      } else if fault.ServerUnread? || p.server !in servers {
        policies := policies[n := p.(status := Scheduled)];
      } else {
        requeue, failed := ReconcileBound(n, fault);
      }
    }

    method ReconcilePolicyDeletion(n: Name, fault: RemovalFault) returns (failed: bool)
      requires PolicyEnabled(View(), n, DeleteWebhook)
      modifies this
      ensures View() == PolicyFinalized(old(View()), n, fault)
      ensures failed <==> !fault.NoRemovalFault?
      ensures !failed ==> n !in policies && WebhookKey(n, old(policies)[n].mutating) !in webhooks
      ensures n !in policies ==> WebhookKey(n, old(policies)[n].mutating) !in webhooks
    {
      var k := WebhookKey(n, policies[n].mutating);
      if fault.WebhookKept? {
        return true;
      }
      if k in webhooks {
        webhooks := webhooks - {k};
      }
      assert webhooks == old(webhooks) - {k};
      policyWork := policyWork[n := Finalizing];
      if fault.FinalizerKept? {
        policyWork := policyWork[n := PolicyIdle];
        return true;
      }
      policies := policies - {n};
      policyWork := policyWork - {n};
      failed := false;
    }

    /** The four kinds of policies are listed one after the other; here they share one map, and `missed`
        holds those of the kinds whose list call failed, which goes unnoticed unless it was NotFound. */
    method GetPolicies(s: Name, missed: set<Name>, notFound: bool) returns (names: seq<Name>, failed: bool)
      ensures failed == notFound
      ensures !failed ==> forall n :: n in names <==> Bound(View(), n, s) && n !in missed
    {
      names, failed := [], notFound;
      if failed {
        return;
      }
      var left := policies.Keys;
      while left != {}
        invariant left <= policies.Keys
        invariant forall n :: n in names <==> Bound(View(), n, s) && n !in missed && n !in left
        decreases left
      {
        var n :| n in left;
        if policies[n].server == s && n !in missed {
          names := names + [n];
        }
        left := left - {n};
      }
    }

    method BuildPoliciesMap(names: seq<Name>) returns (entries: map<Name, Spec>)
      requires forall n :: n in names ==> n in policies
      ensures entries.Keys == ToSet(names) && forall n :: n in names ==> entries[n] == policies[n].spec
    {
      entries := map[];
      for i := 0 to |names|
        invariant forall n :: n in entries <==> n in names[..i]
        invariant forall n :: n in entries ==> entries[n] == policies[n].spec
      {
        assert names[..i + 1] == names[..i] + [names[i]];
        entries := entries[names[i] := policies[names[i]].spec];
      }
      assert names[..|names|] == names;
    }

    method DeletePoliciesAndRequeue(names: seq<Name>, failing: set<Name>) returns (failed: bool)
      requires forall n :: n in names ==> n in policies
      modifies this`policies
      ensures policies == MarkDeleting(old(policies), ToSet(names) - failing)
      ensures policies.Keys == old(policies).Keys
      ensures forall n :: n in policies ==>
                policies[n] ==
                  if n in names && n !in failing then old(policies)[n].(deleting := true) else old(policies)[n]
      ensures failed <==> exists n :: n in names && n in failing && !old(policies)[n].deleting
    {
      failed := false;
      for i := 0 to |names|
        invariant policies == MarkDeleting(old(policies), ToSet(names[..i]) - failing)
        invariant failed <==> exists n :: n in names[..i] && n in failing && !old(policies)[n].deleting
      {
        var n := names[i];
        assert names[..i + 1] == names[..i] + [n];
        if !policies[n].deleting {
          if n in failing {
            failed := true;
          } else {
            policies := policies[n := policies[n].(deleting := true)];
          }
        }
        assert policies == MarkDeleting(old(policies), ToSet(names[..i + 1]) - failing);
      }
      assert names[..|names|] == names;
    }

    method CreateOrPatchConfigMap(s: Name, entries: map<Name, Spec>)
      modifies this`clock, this`configMaps
      ensures View() == Written(old(View()), s, entries)
    {
      if s !in configMaps || configMaps[s].entries != entries {
        clock := clock + 1;
        configMaps := configMaps[s := ConfigMap(clock, entries)];
      }
    }

    method ReconcileDeployment(s: Name, fault: ServerFault) returns (failed: bool)
      requires ServerEnabled(View(), s, Read)
      modifies this`deployments, this`serverWork
      ensures View() ==
              if fault.VersionUnread? then ServerNext(old(View()), s, AbortServer)
              else ServerNext(ServerNext(old(View()), s, Read), s,
                              if fault.DeploymentUnwritten? then AbortServer else Stamp)
      ensures failed <==> fault.VersionUnread? || fault.DeploymentUnwritten?
    {
      failed := true;
      if fault.VersionUnread? {
        serverWork := serverWork[s := ServerIdle];
        return;
      }
      var version := configMaps[s].version;
      serverWork := serverWork[s := Stamping(version)];
      if !fault.DeploymentUnwritten? {
        var revision := if s in deployments then deployments[s].revision else 0;
        deployments := deployments[s := Deployment(version, revision)];
        failed := false;
      }
      serverWork := serverWork[s := ServerIdle];
    }

    method ReconcileDeletion(s: Name, ghost missed: set<Name>, names: seq<Name>, failing: set<Name>, fault: ServerFault)
      returns (requeue: bool, failed: bool)
      requires ServerEnabled(View(), s, List(missed)) && servers[s].deleting
      requires ToSet(names) == BoundNames(View(), s) - missed
      modifies this`servers, this`policies, this`serverWork
      ensures View() == ServerDismantled(old(View()), s, missed, failing, fault)
      ensures names != [] ==>
                (failed <==> exists n :: n in failing && n in names && old(n in policies && !policies[n].deleting))
      ensures names == [] ==> (failed <==> fault == ServerKept(false))
      ensures requeue <==> !failed && names != []
    {
      ghost var st := View();
      requeue, failed := false, false;
      if |names| != 0 {
        assert names[0] in ToSet(names);
        forall n | n in names ensures n in policies { assert n in ToSet(names) && n in BoundNames(st, s); }
        failed := DeletePoliciesAndRequeue(names, failing);
        serverWork := serverWork[s := AfterList(st, s, missed)];
        serverWork := serverWork[s := ServerIdle];
        requeue := !failed;
      } else {
        serverWork := serverWork[s := AfterList(st, s, missed)];
        if fault.ServerKept? {
          serverWork := serverWork[s := ServerIdle];
          failed := !fault.conflict;
        } else {
          servers := servers - {s};
          serverWork := serverWork - {s};
        }
      }
    }

    method Refresh(s: Name, ghost missed: set<Name>, names: seq<Name>, fault: ServerFault) returns (failed: bool)
      requires ServerEnabled(View(), s, List(missed)) && !servers[s].deleting && !fault.PoliciesNotFound?
      requires ToSet(names) == BoundNames(View(), s) - missed
      modifies this`clock, this`configMaps, this`deployments, this`serverWork
      ensures View() == ServerRefreshed(old(View()), s, missed, fault)
      ensures failed <==> !fault.NoServerFault? && !fault.ServerKept?
    {
      ghost var st := View();
      forall n | n in names ensures n in policies { assert n in ToSet(names) && n in BoundNames(st, s); }
      serverWork := serverWork[s := AfterList(st, s, missed)];
      if fault.ConfigMapUnwritten? {
        serverWork := serverWork[s := ServerIdle];
        return true;
      }
      var entries := BuildPoliciesMap(names);
      assert entries == BoundEntries(st, s) - missed;
      CreateOrPatchConfigMap(s, entries);
      serverWork := serverWork[s := Reading];
      Wrote(st, s, missed);
      failed := ReconcileDeployment(s, fault);
      failed := failed || fault.StatusUnwritten?;
    }

    method Reconcile(s: Name, missed: set<Name>, failing: set<Name>, fault: ServerFault)
      returns (requeue: bool, failed: bool)
      requires ServerEnabled(View(), s, List(missed))
      modifies this
      ensures View() == ServerReconciled(old(View()), s, missed, failing, fault)
      ensures requeue <==> !failed && old(s in servers && servers[s].deleting && BoundNames(View(), s) - missed != {})
      ensures old(s in servers && !servers[s].deleting) ==> (failed <==> !fault.NoServerFault? && !fault.ServerKept?)
      ensures fault.PoliciesNotFound? ==> failed
      ensures old(s in servers && servers[s].deleting && BoundNames(View(), s) - missed == {}) ==>
                (failed <==> fault == ServerKept(false) || fault.PoliciesNotFound?)
      ensures old(s in servers && servers[s].deleting && BoundNames(View(), s) - missed != {}) ==>
                (failed <==>
                   || fault.PoliciesNotFound?
                   || exists n :: n in failing && n !in missed && old(Bound(View(), n, s) && !policies[n].deleting))
    {
      var names;
      names, failed := GetPolicies(s, missed, fault.PoliciesNotFound?);
      if failed {
        return false, true;
      }
      ghost var seen := BoundNames(View(), s) - missed;
      assert ToSet(names) == seen;
      if servers[s].deleting {
        assert names != [] ==> names[0] in ToSet(names);
        requeue, failed := ReconcileDeletion(s, missed, names, failing, fault);
      } else {
        failed := Refresh(s, missed, names, fault);
        requeue := false;
      }
    }
  }
}
