/**
  Why runs have to be orderly: four runs, each with a single action that is not, after which a webhook has
  lost its policy, its server, or the pods that serve it.
 */
module ClusterRaces {
  import opened Wrappers
  import opened ClusterState

  const SPEC := Spec(0, true)
  const CONFIG := ConfigMap(1, map["p" := SPEC])
  const SERVING := Pod("s", "h", true, Some(CONFIG))

  function Steady(webhooks: map<WebhookKey, Name>): State {
    State(1, map["s" := PolicyServer(false)], map["p" := Policy("s", false, SPEC, false, PolicyStatus.Active)],
          webhooks, map["s" := CONFIG], map["s" := Deployment(1, 1)], [ReplicaSet("s", 1, 1, "h")], [SERVING],
          map["s" := ServerIdle], map["p" := PolicyIdle])
  }

  lemma ByUser(st: State, u: UserStep) returns (st': State)
    requires Reached(st) && UserEnabled(st, u)
    ensures Reached(st') && st' == UserNext(st, u)
  {
    st' := Reaches(st, User(u));
  }

  lemma ByKube(st: State, k: KubeStep) returns (st': State)
    requires Reached(st) && KubeEnabled(st, k)
    ensures Reached(st') && st' == KubeNext(st, k)
  {
    st' := Reaches(st, Kube(k));
  }

  lemma ByServer(st: State, s: Name, a: ServerStep) returns (st': State)
    requires Reached(st) && ServerEnabled(st, s, a)
    ensures Reached(st') && st' == ServerNext(st, s, a)
  {
    st' := Reaches(st, Server(s, a));
  }

  lemma ByPolicy(st: State, n: Name, p: PolicyStep) returns (st': State)
    requires Reached(st) && PolicyEnabled(st, n, p)
    ensures Reached(st') && st' == PolicyNext(st, n, p)
  {
    st' := Reaches(st, Own(n, p));
  }

  const UNSET := Policy("s", false, SPEC, false, Unset)

  lemma PoliciesListed() returns (st: State)
    ensures Reached(st)
    ensures st == State(0, map["s" := PolicyServer(false)], map["p" := UNSET], map[], map[], map[], [], [],
                        map["s" := Writing(map["p" := SPEC])], map[])
  {
    NothingIsReached();
    st := ByUser(EMPTY, CreateServer("s"));
    st := ByUser(st, CreatePolicy("p", "s", false, SPEC));
    assert st == State(0, map["s" := PolicyServer(false)], map["p" := UNSET], map[], map[], map[], [], [],
                       map[], map[]);
    ListOne(st);
    st := ByServer(st, "s", List({}));
  }

  lemma ListOne(st: State)
    requires st.servers == map["s" := PolicyServer(false)] && st.policies == map["p" := UNSET]
    ensures AfterList(st, "s", {}) == Writing(map["p" := SPEC])
  {
    assert BoundEntries(st, "s") - {} == map["p" := SPEC];
  }

  lemma ServerConfigured() returns (st: State)
    ensures Reached(st)
    ensures st == State(1, map["s" := PolicyServer(false)], map["p" := UNSET], map[],
                        map["s" := CONFIG], map["s" := Deployment(1, 0)], [], [], map["s" := ServerIdle], map[])
  {
    st := PoliciesListed();
    st := ByServer(st, "s", Write);
    st := ByServer(st, "s", Read);
    st := ByServer(st, "s", Stamp);
  }

  lemma PodCreated() returns (st: State)
    ensures Reached(st)
    ensures st == Steady(map[]).(policies := map["p" := UNSET], pods := [Pod("s", "h", false, None)],
                                 policyWork := map[])
  {
    st := ServerConfigured();
    st := ByKube(st, Rollout("s", "h"));
    st := ByKube(st, CreatePod(0));
  }

  lemma PodServing() returns (st: State)
    ensures Reached(st)
    ensures st == Steady(map[]).(policies := map["p" := UNSET], policyWork := map[])
  {
    st := PodCreated();
    st := ByKube(st, StartPod(0));
    st := ByKube(st, SetReady(0, true));
  }

  lemma SteadyIsReachable(st: State)
    requires st.deployments == map["s" := Deployment(1, 1)] && st.configMaps == map["s" := CONFIG]
    requires st.replicaSets == [ReplicaSet("s", 1, 1, "h")] && st.pods == [SERVING]
    ensures UniquelyReachable(st, "s", "p")
  {
    assert SERVING in st.pods;
  }

  /** The ordinary life of a policy: configured, rolled out, active. */
  lemma PolicyActivated() returns (st: State)
    ensures Reached(st)
    ensures st == Steady(map[WebhookKey("p", false) := "s"])
  {
    st := PodServing();
    SteadyIsReachable(st);
    st := ByPolicy(st, "p", Check(true));
    st := ByPolicy(st, "p", CreateWebhook);
  }

  /** Switching a policy from validating to mutating and then deleting it leaves the validating webhook. */
  lemma SwitchedFlagOrphansWebhook() returns (st: State)
    ensures Reached(st)
    ensures st.webhooks == map[WebhookKey("p", false) := "s"]
    ensures "p" !in st.policies
  {
    st := PolicyActivated();
    st := ByUser(st, SetMutating("p", true));
    st := ByUser(st, DeletePolicy("p"));
    st := ByPolicy(st, "p", DeleteWebhook);
    st := ByPolicy(st, "p", RemovePolicy);
  }

  lemma PolicyDeleted() returns (st: State)
    ensures Reached(st)
    ensures st == Steady(map[]).(policies := map[], policyWork := map[])
  {
    st := PolicyActivated();
    st := ByUser(st, DeletePolicy("p"));
    st := ByPolicy(st, "p", DeleteWebhook);
    st := ByPolicy(st, "p", RemovePolicy);
  }

  lemma ServerEmptied() returns (st: State)
    ensures Reached(st)
    ensures st == Steady(map[]).(servers := map["s" := PolicyServer(true)], policies := map[],
                                 serverWork := map["s" := Removing], policyWork := map[])
  {
    st := PolicyDeleted();
    st := ByUser(st, DeleteServer("s"));
    assert BoundNames(st, "s") - {} == {};
    st := ByServer(st, "s", List({}));
  }

  /** A policy name brought back between the server's last look and its removal gets a webhook that
      routes to a server that no longer exists. */
  lemma ReusedNameOrphansWebhook() returns (st: State)
    ensures Reached(st)
    ensures st.webhooks == map[WebhookKey("p", false) := "s"]
    ensures "s" !in st.servers
  {
    st := ServerEmptied();
    st := ByUser(st, CreatePolicy("p", "s", false, SPEC));
    SteadyIsReachable(st);
    st := ByPolicy(st, "p", Check(true));
    st := ByServer(st, "s", RemoveServer);
    st := ByPolicy(st, "p", CreateWebhook);
  }

  lemma PolicyEditedOut() returns (st: State)
    ensures Reached(st)
    ensures st == Steady(map[WebhookKey("p", false) := "s"]).(clock := 2, configMaps := map["s" := ConfigMap(2, map[])])
  {
    st := PolicyActivated();
    assert "p" in st.configMaps["s"].entries;
    st := ByUser(st, EditConfigMap("s", map[]));
  }

  /** A policy edited out of its server's ConfigMap by hand keeps its webhook, and a restarted pod no longer
      serves it. */
  lemma EditedOutIsTurnedAway() returns (st: State)
    ensures Reached(st)
    ensures st.webhooks == map[WebhookKey("p", false) := "s"]
    ensures st.pods == [Pod("s", "h", false, Some(ConfigMap(2, map[])))]
  {
    st := PolicyEditedOut();
    st := ByKube(st, StartPod(0));
  }

  /** A failed list call that hides the only policy of a server being deleted lets the server go, and the
      webhook routes to a server that no longer exists. */
  lemma MissedPolicyOrphansWebhook() returns (st: State)
    ensures Reached(st)
    ensures st.webhooks == map[WebhookKey("p", false) := "s"]
    ensures "s" !in st.servers
  {
    st := PolicyActivated();
    st := ByUser(st, DeleteServer("s"));
    assert BoundNames(st, "s") - {"p"} == {};
    st := ByServer(st, "s", List({"p"}));
    st := ByServer(st, "s", RemoveServer);
  }
}
