/**
  Deletion. Once a policy server is marked for deletion nothing removes it but reconciles: its own,
  which mark the bound policies and finally let the server go, and those of the bound policies, which
  take the webhooks down first. This module proves that every fair execution gets there.
 */
module ClusterLiveness {
  import opened ClusterState
  import opened ClusterSafety

  /** An endless execution: `states(i)` becomes `states(i + 1)` by `acts(i)`. */
  datatype Execution = Execution(states: nat -> State, acts: nat -> Step)

  ghost predicate Follows(e: Execution, i: nat) {
    Enabled(e.states(i), e.acts(i)) && e.states(i + 1) == Next(e.states(i), e.acts(i))
  }

  ghost predicate IsExecution(e: Execution) {
    forall i: nat :: Follows(e, i)
  }

  /** Not bringing new work: no policy is bound to `s`, no list call for `s` fails, and no other API call
      fails while `s` or one of its policies is being taken down. */
  predicate Quiet(st: State, step: Step, s: Name) {
    match step
    case User(CreatePolicy(_, server, _, _)) => server != s
    case Server(r, List(missed)) => r == s ==> missed == {}
    case Server(r, DeletePolicies(done)) => r == s && WorkOf(st, s).Deleting? ==> done == WorkOf(st, s).targets
    case Server(r, AbortServer) => r == s ==> !WorkOf(st, s).Deleting? && !WorkOf(st, s).Removing?
    case Own(n, AbortPolicy) => Bound(st, n, s) ==> !PolicyWorkOf(st, n).Finalizing?
    case _ => true
  }

  ghost predicate QuietAt(e: Execution, i: nat, s: Name) {
    Quiet(e.states(i), e.acts(i), s)
  }

  /** The work queue serves every key again and again, for as long as the object is there. */
  ghost predicate Fair(e: Execution, s: Name) {
    && (forall i: nat :: s in e.states(i).servers ==> exists j: nat :: i <= j && ActsOn(e, j, s))
    && (forall i: nat, n: Name :: Bound(e.states(i), n, s) && e.states(i).policies[n].deleting ==>
          exists j: nat :: i <= j && (ActsOnPolicy(e, j, n) || !Bound(e.states(j), n, s)))
  }

  predicate ActsOn(e: Execution, j: nat, s: Name) {
    e.acts(j).Server? && e.acts(j).s == s
  }

  predicate ActsOnPolicy(e: Execution, j: nat, n: Name) {
    e.acts(j).Own? && e.acts(j).n == n
  }

  ghost predicate IsDeletion(e: Execution, s: Name) {
    && IsExecution(e)
    && (forall i: nat :: QuietAt(e, i, s))
    && Fair(e, s)
    && s in e.states(0).servers && e.states(0).servers[s].deleting
  }

  ghost function Left(e: Execution, s: Name, i: nat): set<Name> {
    BoundNames(e.states(i), s)
  }

  // ---------------------------------------------------------------- what one step can change

  ghost predicate Shrunk(policies: map<Name, Policy>, policies': map<Name, Policy>, s: Name) {
    forall n :: n in policies' && policies'[n].server == s ==>
      && n in policies && policies[n].server == s
      && (policies[n].deleting ==> policies'[n].deleting)
  }

  lemma UserShrinks(st: State, u: UserStep, s: Name)
    requires UserEnabled(st, u) && Quiet(st, User(u), s)
    ensures Shrunk(st.policies, UserNext(st, u).policies, s)
  {
  }

  lemma ServerShrinks(st: State, r: Name, a: ServerStep, s: Name)
    requires ServerEnabled(st, r, a)
    ensures Shrunk(st.policies, ServerNext(st, r, a).policies, s)
  {
  }

  lemma PolicyShrinks(st: State, n: Name, p: PolicyStep, s: Name)
    requires PolicyEnabled(st, n, p)
    ensures Shrunk(st.policies, PolicyNext(st, n, p).policies, s)
  {
  }

  lemma KubeShrinks(st: State, k: KubeStep, s: Name)
    requires KubeEnabled(st, k)
    ensures Shrunk(st.policies, KubeNext(st, k).policies, s)
  {
  }

  lemma StepShrinks(st: State, step: Step, s: Name)
    requires Enabled(st, step) && Quiet(st, step, s)
    ensures Shrunk(st.policies, Next(st, step).policies, s)
  {
    match step
    case User(u) => UserShrinks(st, u, s);
    case Kube(k) => KubeShrinks(st, k, s);
    case Server(r, a) => ServerShrinks(st, r, a, s);
    case Own(n, p) => PolicyShrinks(st, n, p, s);
  }

  ghost predicate SameServer(st: State, st': State, s: Name) {
    && s in st'.servers
    && WorkOf(st', s) == WorkOf(st, s)
    && (s in st.servers && st.servers[s].deleting ==> st'.servers[s].deleting)
  }

  lemma UserLeaves(st: State, u: UserStep, s: Name)
    requires UserEnabled(st, u) && s in st.servers
    ensures SameServer(st, UserNext(st, u), s) && UserNext(st, u).policyWork == st.policyWork
  {
  }

  lemma KubeLeaves(st: State, k: KubeStep)
    requires KubeEnabled(st, k)
    ensures var st' := KubeNext(st, k);
            st'.servers == st.servers && st'.serverWork == st.serverWork && st'.policyWork == st.policyWork
  {
  }

  lemma ServerLeaves(st: State, r: Name, a: ServerStep, s: Name)
    requires ServerEnabled(st, r, a) && s in st.servers
    ensures r != s ==> SameServer(st, ServerNext(st, r, a), s)
    ensures ServerNext(st, r, a).policyWork == st.policyWork
  {
  }

  lemma PolicyLeaves(st: State, n: Name, p: PolicyStep)
    requires PolicyEnabled(st, n, p)
    ensures var st' := PolicyNext(st, n, p);
            && st'.servers == st.servers && st'.serverWork == st.serverWork
            && forall m :: m != n ==> PolicyWorkOf(st', m) == PolicyWorkOf(st, m)
  {
  }

  lemma OthersLeaveServer(st: State, step: Step, s: Name)
    requires Enabled(st, step) && s in st.servers && !(step.Server? && step.s == s)
    ensures SameServer(st, Next(st, step), s)
  {
    match step
    case User(u) => UserLeaves(st, u, s);
    case Kube(k) => KubeLeaves(st, k);
    case Server(r, a) => ServerLeaves(st, r, a, s);
    case Own(n, p) => PolicyLeaves(st, n, p);
  }

  lemma UserLeavesPolicyWork(st: State, u: UserStep)
    requires UserEnabled(st, u)
    ensures UserNext(st, u).policyWork == st.policyWork
  {
  }

  lemma OthersLeavePolicyWork(st: State, step: Step, n: Name)
    requires Enabled(st, step) && !(step.Own? && step.n == n)
    ensures PolicyWorkOf(Next(st, step), n) == PolicyWorkOf(st, n)
  {
    match step
    case User(u) => UserLeavesPolicyWork(st, u);
    case Kube(k) => KubeLeaves(st, k);
    case Server(r, a) => ServerLeaves(st, r, a, r);
    case Own(m, p) => PolicyLeaves(st, m, p);
  }

  // ---------------------------------------------------------------- over a stretch of the execution

  lemma {:induction false} Shrinks(e: Execution, s: Name, i: nat, j: nat)
    requires IsDeletion(e, s) && i <= j
    ensures Shrunk(e.states(i).policies, e.states(j).policies, s)
    ensures Left(e, s, j) <= Left(e, s, i)
  {
    if i < j {
      Shrinks(e, s, i, j - 1);
      assert Follows(e, j - 1) && QuietAt(e, j - 1, s);
      StepShrinks(e.states(j - 1), e.acts(j - 1), s);
    }
  }

  /** The next reconcile step of the server, and the server as that step finds it. */
  lemma {:induction false} NextServerStep(e: Execution, s: Name, i: nat) returns (k: nat)
    requires IsDeletion(e, s) && s in e.states(i).servers && e.states(i).servers[s].deleting
    ensures i <= k && ActsOn(e, k, s)
    ensures s in e.states(k).servers && e.states(k).servers[s].deleting
    ensures WorkOf(e.states(k), s) == WorkOf(e.states(i), s)
  {
    var j: nat :| i <= j && ActsOn(e, j, s);
    k := i;
    while !ActsOn(e, k, s)
      invariant i <= k <= j
      invariant s in e.states(k).servers && e.states(k).servers[s].deleting
      invariant WorkOf(e.states(k), s) == WorkOf(e.states(i), s)
      decreases j - k
    {
      assert Follows(e, k);
      OthersLeaveServer(e.states(k), e.acts(k), s);
      k := k + 1;
    }
  }

  /** The next reconcile step of a policy that is being deleted, unless it is gone before. */
  lemma {:induction false} NextPolicyStep(e: Execution, s: Name, n: Name, i: nat) returns (k: nat)
    requires IsDeletion(e, s) && Bound(e.states(i), n, s) && e.states(i).policies[n].deleting
    ensures i <= k && (ActsOnPolicy(e, k, n) || !Bound(e.states(k), n, s))
    ensures Bound(e.states(k), n, s) ==>
              e.states(k).policies[n].deleting && PolicyWorkOf(e.states(k), n) == PolicyWorkOf(e.states(i), n)
  {
    var j: nat :| i <= j && (ActsOnPolicy(e, j, n) || !Bound(e.states(j), n, s));
    k := i;
    while !ActsOnPolicy(e, k, n) && Bound(e.states(k), n, s)
      invariant i <= k <= j
      invariant Bound(e.states(k), n, s) ==>
                  e.states(k).policies[n].deleting && PolicyWorkOf(e.states(k), n) == PolicyWorkOf(e.states(i), n)
      decreases j - k
    {
      assert Follows(e, k);
      OthersLeavePolicyWork(e.states(k), e.acts(k), n);
      Shrinks(e, s, k, k + 1);
      k := k + 1;
    }
  }

  // ---------------------------------------------------------------- progress

  function ServerRank(w: ServerWork): nat {
    match w
    case Writing(_) => 4
    case Reading => 3
    case Stamping(_) => 2
    case Deleting(_) => 2
    case Removing => 2
    case ServerIdle => 1
  }

  /** A server step finishes what is in progress, lists, or lets the server go. */
  lemma ServerStepRanks(st: State, s: Name, a: ServerStep)
    requires ServerEnabled(st, s, a) && !a.List?
    ensures s !in ServerNext(st, s, a).servers
            || (ServerRank(WorkOf(ServerNext(st, s, a), s)) < ServerRank(WorkOf(st, s))
                && ServerNext(st, s, a).servers == st.servers)
  {
  }

  /** The server is gone, or its reconcile lists the bound policies anew. */
  lemma {:induction false} EventuallyLists(e: Execution, s: Name, i: nat) returns (k: nat)
    requires IsDeletion(e, s) && s in e.states(i).servers && e.states(i).servers[s].deleting
    ensures i <= k
    ensures s !in e.states(k).servers || (e.acts(k) == Server(s, List({})) && e.states(k).servers[s].deleting)
    decreases ServerRank(WorkOf(e.states(i), s))
  {
    k := NextServerStep(e, s, i);
    assert Follows(e, k) && QuietAt(e, k, s);
    if e.acts(k) != Server(s, List({})) {
      ServerStepRanks(e.states(k), s, e.acts(k).a);
      if s in e.states(k + 1).servers {
        k := EventuallyLists(e, s, k + 1);
      } else {
        k := k + 1;
      }
    }
  }

  ghost predicate AllDeleting(st: State, s: Name) {
    forall n :: Bound(st, n, s) ==> st.policies[n].deleting
  }

  /** First, every policy still bound is marked. */
  lemma EventuallyAllDeleting(e: Execution, s: Name) returns (j: nat)
    requires IsDeletion(e, s)
    ensures s !in e.states(j).servers || AllDeleting(e.states(j), s)
  {
    var k := EventuallyLists(e, s, 0);
    j := k;
    if s in e.states(k).servers {
      ListedStep(e, s, k);
      if Left(e, s, k) == {} {
        assert forall n :: Bound(e.states(k), n, s) ==> n in Left(e, s, k);
      } else {
        var m := NextServerStep(e, s, k + 1);
        Shrinks(e, s, k, m);
        MarkingStep(e, s, m, Left(e, s, k));
        j := m + 1;
      }
    }
  }

  lemma ListedStep(e: Execution, s: Name, k: nat)
    requires IsDeletion(e, s) && e.acts(k) == Server(s, List({}))
    requires s in e.states(k).servers && e.states(k).servers[s].deleting
    ensures e.states(k + 1).servers == e.states(k).servers
    ensures WorkOf(e.states(k + 1), s) == if Left(e, s, k) != {} then Deleting(Left(e, s, k)) else Removing
  {
    assert Follows(e, k);
    assert e.states(k + 1) == ServerNext(e.states(k), s, List({}));
    assert Left(e, s, k) - {} == Left(e, s, k);
  }

  lemma MarkingStep(e: Execution, s: Name, m: nat, targets: set<Name>)
    requires IsDeletion(e, s) && ActsOn(e, m, s)
    requires WorkOf(e.states(m), s) == Deleting(targets) && Left(e, s, m) <= targets
    ensures AllDeleting(e.states(m + 1), s)
  {
    assert Follows(e, m) && QuietAt(e, m, s);
    var st, st' := e.states(m), e.states(m + 1);
    assert st' == ServerNext(st, s, DeletePolicies(targets));
    forall n | Bound(st', n, s) ensures st'.policies[n].deleting {
      assert n in BoundNames(st, s);
    }
  }

  lemma RemovalStep(e: Execution, s: Name, m: nat)
    requires IsDeletion(e, s) && ActsOn(e, m, s) && WorkOf(e.states(m), s) == Removing
    ensures s !in e.states(m + 1).servers
  {
    assert Follows(e, m) && QuietAt(e, m, s);
    assert e.states(m + 1) == ServerNext(e.states(m), s, RemoveServer);
  }

  function PolicyRank(w: PolicyWork): nat {
    match w
    case Creating(_, _) => 3
    case PolicyIdle => 2
    case Finalizing => 1
  }

  lemma PolicyStepRanks(st: State, n: Name, p: PolicyStep, s: Name)
    requires PolicyEnabled(st, n, p) && Bound(st, n, s) && st.policies[n].deleting && Quiet(st, Own(n, p), s)
    ensures !Bound(PolicyNext(st, n, p), n, s)
            || (PolicyRank(PolicyWorkOf(PolicyNext(st, n, p), n)) < PolicyRank(PolicyWorkOf(st, n))
                && PolicyNext(st, n, p).policies[n].deleting)
  {
  }

  /** Then each marked policy goes, its webhook before it. */
  lemma {:induction false} EventuallyUnbound(e: Execution, s: Name, n: Name, i: nat) returns (j: nat)
    requires IsDeletion(e, s) && Bound(e.states(i), n, s) && e.states(i).policies[n].deleting
    ensures i <= j && !Bound(e.states(j), n, s)
    decreases PolicyRank(PolicyWorkOf(e.states(i), n))
  {
    j := NextPolicyStep(e, s, n, i);
    if Bound(e.states(j), n, s) {
      assert Follows(e, j) && QuietAt(e, j, s);
      PolicyStepRanks(e.states(j), n, e.acts(j).p, s);
      if Bound(e.states(j + 1), n, s) {
        j := EventuallyUnbound(e, s, n, j + 1);
      } else {
        j := j + 1;
      }
    }
  }

  lemma {:induction false} EventuallyEmpty(e: Execution, s: Name, i: nat) returns (j: nat)
    requires IsDeletion(e, s) && AllDeleting(e.states(i), s)
    ensures i <= j && Left(e, s, j) == {}
    decreases Left(e, s, i)
  {
    j := i;
    if Left(e, s, i) != {} {
      var n :| n in Left(e, s, i);
      j := EventuallyUnbound(e, s, n, i);
      Shrinks(e, s, i, j);
      assert n !in Left(e, s, j);
      assert AllDeleting(e.states(j), s) by {
        assert forall m :: Bound(e.states(j), m, s) ==> m in Left(e, s, j);
      }
      j := EventuallyEmpty(e, s, j);
    }
  }

  lemma OwnStepKeepsMark(st: State, s: Name, a: ServerStep)
    requires ServerEnabled(st, s, a)
    ensures s !in ServerNext(st, s, a).servers || ServerNext(st, s, a).servers == st.servers
  {
  }

  /** While the server is there, it is marked for deletion. */
  lemma {:induction false} StaysMarked(e: Execution, s: Name, i: nat) returns (j: nat)
    requires IsExecution(e) && s in e.states(0).servers && e.states(0).servers[s].deleting
    ensures j <= i && (s !in e.states(j).servers || (j == i && e.states(i).servers[s].deleting))
  {
    j := 0;
    while j < i && s in e.states(j).servers
      invariant j <= i && (s in e.states(j).servers ==> e.states(j).servers[s].deleting)
    {
      assert Follows(e, j);
      if ActsOn(e, j, s) {
        OwnStepKeepsMark(e.states(j), s, e.acts(j).a);
      } else {
        OthersLeaveServer(e.states(j), e.acts(j), s);
      }
      j := j + 1;
    }
  }

  /** Without failures and new policies from the start, a policy server marked for deletion is removed. */
  lemma QuietDeletionCompletes(e: Execution, s: Name)
    requires IsDeletion(e, s)
    ensures exists j: nat :: s !in e.states(j).servers
  {
    var i := EventuallyAllDeleting(e, s);
    if s in e.states(i).servers {
      var m := EventuallyEmpty(e, s, i);
      var j := StaysMarked(e, s, m);
      if s in e.states(j).servers {
        var k := EventuallyLists(e, s, m);
        if s in e.states(k).servers {
          Shrinks(e, s, m, k);
          ListedStep(e, s, k);
          var r := NextServerStep(e, s, k + 1);
          RemovalStep(e, s, r);
        }
      }
    }
  }

  /** An execution from its `k`-th state on. */
  function Suffix(e: Execution, k: nat): Execution {
    Execution((i: nat) => e.states(i + k), (i: nat) => e.acts(i + k))
  }

  /** The deletion is fair, and from the `k`-th step on it is not disturbed any more. */
  ghost predicate EventuallyQuiet(e: Execution, s: Name, k: nat) {
    && IsExecution(e) && Fair(e, s)
    && (forall i: nat :: k <= i ==> QuietAt(e, i, s))
    && s in e.states(0).servers && e.states(0).servers[s].deleting
  }

  lemma SuffixIsFair(e: Execution, s: Name, k: nat)
    requires Fair(e, s)
    ensures Fair(Suffix(e, k), s)
  {
    var f := Suffix(e, k);
    forall i: nat | s in f.states(i).servers ensures exists j: nat :: i <= j && ActsOn(f, j, s) {
      assert s in e.states(i + k).servers;
      var j: nat :| i + k <= j && ActsOn(e, j, s);
      assert ActsOn(f, j - k, s);
    }
    forall i: nat, n: Name | Bound(f.states(i), n, s) && f.states(i).policies[n].deleting
      ensures exists j: nat :: i <= j && (ActsOnPolicy(f, j, n) || !Bound(f.states(j), n, s))
    {
      assert Bound(e.states(i + k), n, s);
      var j: nat :| i + k <= j && (ActsOnPolicy(e, j, n) || !Bound(e.states(j), n, s));
      assert ActsOnPolicy(f, j - k, n) || !Bound(f.states(j - k), n, s);
    }
  }

  lemma SuffixIsDeletion(e: Execution, s: Name, k: nat)
    requires EventuallyQuiet(e, s, k) && s in e.states(k).servers && e.states(k).servers[s].deleting
    ensures IsDeletion(Suffix(e, k), s)
  {
    var f := Suffix(e, k);
    forall i: nat ensures Follows(f, i) && QuietAt(f, i, s) {
      assert Follows(e, i + k) && QuietAt(e, i + k, s);
      assert i + 1 + k == i + k + 1;
    }
    SuffixIsFair(e, s, k);
  }

  /** In every fair execution a policy server marked for deletion is removed, however long API calls kept
      failing and policies kept being bound to it before that stopped. */
  lemma DeletionCompletes(e: Execution, s: Name, k: nat)
    requires EventuallyQuiet(e, s, k)
    ensures exists j: nat :: s !in e.states(j).servers
  {
    var i := StaysMarked(e, s, k);
    if s in e.states(i).servers {
      SuffixIsDeletion(e, s, k);
      QuietDeletionCompletes(Suffix(e, k), s);
      var j: nat :| s !in Suffix(e, k).states(j).servers;
      assert s !in e.states(j + k).servers;
    }
  }

  lemma {:induction false} SafeThroughout(e: Execution, i: nat)
    requires IsExecution(e) && Inv(e.states(0)) && forall k: nat :: Orderly(e.states(k), e.acts(k))
    ensures Inv(e.states(i))
  {
    if i > 0 {
      SafeThroughout(e, i - 1);
      assert Follows(e, i - 1);
      StepKeepsInv(e.states(i - 1), e.acts(i - 1));
    }
  }

  /** And when it is gone, no webhook routes to it. */
  lemma DeletionLeavesNoWebhook(e: Execution, s: Name, k: nat) returns (j: nat)
    requires EventuallyQuiet(e, s, k) && Inv(e.states(0)) && forall i: nat :: Orderly(e.states(i), e.acts(i))
    ensures s !in e.states(j).servers
    ensures forall w :: w in e.states(j).webhooks ==> e.states(j).webhooks[w] != s
  {
    DeletionCompletes(e, s, k);
    j :| s !in e.states(j).servers;
    SafeThroughout(e, j);
    InvMeansBacked(e.states(j));
    assert forall w :: w in e.states(j).webhooks ==> Backed(e.states(j), w);
  }
}
