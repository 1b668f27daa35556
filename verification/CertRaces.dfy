/**
  Why others have to be orderly while certificates are rotated: three runs from a world in which all is well
  and the CA is due, each with a single step that is not orderly, its last.
 */
module CertRaces {
  import opened Wrappers
  import opened CertRotation
  import opened CertTrust
  import opened CertExactness

  ghost predicate OrderlyReached(w: World) {
    exists worlds, steps :: IsOrderlyRun(worlds, steps) && Fresh(worlds[0]) && worlds[|steps|] == w
  }

  lemma Go(w: World, step: Step) returns (w': World)
    requires OrderlyReached(w) && Enabled(w, step) && Orderly(w, step)
    ensures w' == Next(w, step) && OrderlyReached(w')
  {
    var worlds, steps :| IsOrderlyRun(worlds, steps) && Fresh(worlds[0]) && worlds[|steps|] == w;
    w' := Next(w, step);
    var worlds', steps' := worlds + [w'], steps + [step];
    Append(worlds, steps, step, w');
    forall i | 0 <= i < |steps'| ensures Orderly(worlds'[i], steps'[i]) {
      assert worlds'[i] == worlds[i] && steps'[i] == if i < |steps| then steps[i] else step;
    }
    assert IsOrderlyRun(worlds', steps');
  }

  lemma Tick(w: World, c: CertStep) returns (w': World)
    requires OrderlyReached(w) && CertEnabled(w, c) && !c.Abort?
    ensures w' == CertNext(w, c) && OrderlyReached(w')
  {
    w' := Go(w, Cert(c));
  }

  const A := Hook("a", false)
  const B := Hook("b", false)
  const OWN := "own"
  const CFG := Config("ns", "svc", OWN)
  const OLD := Ca(0, 0, 30 * DAY)
  const NEW := GenerateCA(1, 0)

  function OwnLeaf(ca: Ca): Leaf {
    GenerateCert(ca, 0, DnsOf(CFG, OWN))
  }

  /** All is well, but the CA has only 30 days to go. */
  function Before(hooks: map<Hook, seq<Ca>>): World {
    World(CFG, 0, 1, OLD, None, hooks, map[OWN := OwnLeaf(OLD)], map[OWN := OwnLeaf(OLD)], Idle, 0, map[], map[])
  }

  lemma BeforeIsReached(hooks: map<Hook, seq<Ca>>)
    requires forall h :: h in hooks ==> OLD in hooks[h]
    ensures OrderlyReached(Before(hooks))
  {
    NamesAgree(CFG, OWN);
    assert Fresh(Before(hooks)) && IsOrderlyRun([Before(hooks)], []);
  }

  /** The CA has been replaced, in the secret only. */
  lemma Rotated(w: World) returns (w': World)
    requires OrderlyReached(w) && w == Before(w.webhooks).(hookReads := w.hookReads, serverReads := w.serverReads)
    ensures OrderlyReached(w')
    ensures w' == w.(current := NEW, nextId := 2, previous := Some(OLD), phase := AddingNew(0, map[]))
  {
    w' := Tick(w, Begin);
    w' := Tick(w', CheckCa);
  }

  lemma PatchOfOne(w: World)
    requires w.phase == AddingNew(1, map[A := [OLD]]) && w.webhooks.Keys == {A}
    requires w.current == NEW && w.previous == Some(OLD)
    ensures CertEnabled(w, Patch(A))
    ensures CertNext(w, Patch(A)) == w.(webhooks := map[A := [NEW, OLD]], phase := AddingNew(1, map[]))
  {
    assert Bundle(w) == [NEW, OLD] && [OLD] != [NEW, OLD] && map[A := [OLD]] - {A} == map[];
    assert w.webhooks[A := [NEW, OLD]] == map[A := [NEW, OLD]];
  }

  lemma FirstKindPatched(w: World) returns (w': World)
    requires OrderlyReached(w) && w.phase == AddingNew(0, map[]) && w.webhooks == map[A := [OLD]]
    requires w.current == NEW && w.previous == Some(OLD)
    ensures OrderlyReached(w') && w' == w.(webhooks := map[A := [NEW, OLD]], phase := AddingNew(1, map[]))
  {
    assert OfKind(w, false) == map[A := [OLD]];
    w' := Tick(w, ListHooks);
    PatchOfOne(w');
    w' := Tick(w', Patch(A));
  }

  lemma SecondKindPatched(w: World) returns (w': World)
    requires OrderlyReached(w) && w.phase == AddingNew(1, map[]) && w.webhooks.Keys == {A}
    ensures OrderlyReached(w') && w' == w.(phase := AtOld)
  {
    assert OfKind(w, true) == map[];
    w' := Tick(w, ListHooks);
    w' := Tick(w', HooksPatched);
  }

  /** The one webhook has been patched. */
  lemma Patched(w: World) returns (w': World)
    requires OrderlyReached(w) && w.phase == AddingNew(0, map[]) && w.webhooks == map[A := [OLD]]
    requires w.current == NEW && w.previous == Some(OLD)
    ensures OrderlyReached(w') && w' == w.(webhooks := map[A := [NEW, OLD]], phase := AtOld)
  {
    w' := FirstKindPatched(w);
    w' := SecondKindPatched(w');
  }

  lemma OwnReissued(w: World) returns (w': World)
    requires OrderlyReached(w) && w.phase.AtOld? && w.current == NEW && w.previous == Some(OLD)
    requires w.cfg == CFG && w.now == 0 && w.servers == map[OWN := OwnLeaf(OLD)]
    ensures OrderlyReached(w') && w' == w.(servers := map[OWN := OwnLeaf(NEW)], phase := Listing)
  {
    w' := Tick(w, CheckOld);
    w' := Tick(w', CheckOwn);
    assert w'.servers == map[OWN := OwnLeaf(NEW)];
  }

  lemma TickEnds(w: World) returns (w': World)
    requires OrderlyReached(w) && w.phase.Listing? && w.servers.Keys == {OWN} && w.cfg == CFG
    ensures OrderlyReached(w') && w' == w.(phase := Idle)
  {
    assert w.servers.Keys - {OWN} == {};
    w' := Tick(w, ListServers);
    w' := Tick(w', Finish);
  }

  lemma OwnReloaded(w: World) returns (w': World)
    requires OrderlyReached(w) && w.servers.Keys == {OWN} && w.inUse.Keys == {OWN}
    ensures OrderlyReached(w') && w' == w.(inUse := w.servers)
  {
    assert w.inUse[OWN := w.servers[OWN]] == w.servers;
    w' := Go(w, Env(Reload(OWN)));
  }

  /** And the controller's own certificate is from the new CA. */
  lemma Reissued(w: World) returns (w': World)
    requires OrderlyReached(w) && w.phase.AtOld? && w.current == NEW && w.previous == Some(OLD)
    requires w.cfg == CFG && w.now == 0 && w.servers == map[OWN := OwnLeaf(OLD)] && w.inUse == w.servers
    ensures OrderlyReached(w')
    ensures w' == w.(servers := map[OWN := OwnLeaf(NEW)], inUse := map[OWN := OwnLeaf(NEW)], phase := Idle)
  {
    w' := OwnReissued(w);
    w' := TickEnds(w');
    w' := OwnReloaded(w');
  }

  function After(hookReads: map<Hook, Ca>, serverReads: map<string, Ca>): World {
    Before(map[A := [NEW, OLD]]).(current := NEW, nextId := 2, previous := Some(OLD),
                                  servers := map[OWN := OwnLeaf(NEW)], inUse := map[OWN := OwnLeaf(NEW)],
                                  hookReads := hookReads, serverReads := serverReads)
  }

  /** A whole tick, whatever has been read before it. */
  lemma WholeTick(w: World) returns (w': World)
    requires OrderlyReached(w)
    requires w == Before(map[A := [OLD]]).(hookReads := w.hookReads, serverReads := w.serverReads)
    ensures OrderlyReached(w') && w' == After(w.hookReads, w.serverReads)
  {
    w' := Rotated(w);
    w' := Patched(w');
    w' := Reissued(w');
  }

  lemma OldBundleRefuses()
    ensures var w := After(map[A := OLD], map[]);
            EnvEnabled(w, WriteHook(A)) && !Trusted(EnvNext(w, WriteHook(A)))
  {
    var w' := EnvNext(After(map[A := OLD], map[]), WriteHook(A));
    assert w'.webhooks[A] == [OLD] && w'.servers[OWN] == OwnLeaf(NEW);
    assert !Covers(w'.webhooks[A], w'.servers[OWN], w'.now, Dialled(CFG, OWN));
  }

  lemma ReadBefore() returns (w: World)
    ensures OrderlyReached(w) && w == Before(map[A := [OLD]]).(hookReads := map[A := OLD])
  {
    BeforeIsReached(map[A := [OLD]]);
    w := Go(Before(map[A := [OLD]]), Env(ReadForHook(A)));
  }

  /** A policy reconcile reads the CA, a whole tick rotates it, and the bundle that the reconcile then writes
      does not hold the CA of the certificate in use. */
  lemma StaleBundleRefuses() returns (w: World)
    ensures OrderlyReached(w) && EnvEnabled(w, WriteHook(A)) && !Trusted(EnvNext(w, WriteHook(A)))
  {
    w := ReadBefore();
    w := WholeTick(w);
    OldBundleRefuses();
  }

  /** A policy reconcile that reads the CA after the rotation writes it alone, as it should. */
  lemma Rewritten(w: World) returns (w': World)
    requires OrderlyReached(w) && w.webhooks.Keys == {A} && w.hookReads == map[] && OnlyFrom(w, w.current)
    ensures OrderlyReached(w') && w' == w.(webhooks := map[A := [w.current]])
  {
    w' := Go(w, Env(ReadForHook(A)));
    var next := EnvNext(w', WriteHook(A));
    assert next.webhooks == map[A := [w.current]] && next.hookReads == map[];
    assert OnlyFrom(w', w.current) && Sheltered(next);
    w' := Go(w', Env(WriteHook(A)));
  }

  lemma AfterIsOnlyNew(serverReads: map<string, Ca>)
    ensures OnlyFrom(After(map[], serverReads), NEW)
  {
  }

  lemma OldSignatureIsRefused()
    ensures var w := After(map[], map["s" := OLD]).(webhooks := map[A := [NEW]]);
            EnvEnabled(w, WriteServer("s")) && !Trusted(EnvNext(w, WriteServer("s")))
  {
    var w' := EnvNext(After(map[], map["s" := OLD]).(webhooks := map[A := [NEW]]), WriteServer("s"));
    assert w'.webhooks[A] == [NEW] && w'.servers["s"].issuer == OLD;
    assert !Covers(w'.webhooks[A], w'.servers["s"], w'.now, Dialled(CFG, "s"));
  }

  lemma ReadForServerBefore() returns (w: World)
    ensures OrderlyReached(w) && w == Before(map[A := [OLD]]).(serverReads := map["s" := OLD])
  {
    BeforeIsReached(map[A := [OLD]]);
    w := Go(Before(map[A := [OLD]]), Env(ReadForServer("s")));
  }

  /** A policy server reconcile reads the CA, a whole tick rotates it, a policy reconcile writes the new one
      alone, and the certificate that the first then signs is refused. */
  lemma StaleSignatureIsRefused() returns (w: World)
    ensures OrderlyReached(w) && EnvEnabled(w, WriteServer("s")) && !Trusted(EnvNext(w, WriteServer("s")))
  {
    w := ReadForServerBefore();
    w := WholeTick(w);
    AfterIsOnlyNew(w.serverReads);
    w := Rewritten(w);
    OldSignatureIsRefused();
  }

  const BOTH := map[A := [OLD], B := [OLD]]

  function Listed(): World {
    Before(BOTH).(current := NEW, nextId := 2, previous := Some(OLD), phase := AddingNew(1, BOTH))
  }

  lemma BothListed()
    ensures OrderlyReached(Listed())
  {
    BeforeIsReached(BOTH);
    var w := Rotated(Before(BOTH));
    assert OfKind(w, false) == BOTH;
    w := Tick(w, ListHooks);
  }

  lemma DeletionIsDisorderly()
    ensures A in Listed().webhooks && !Orderly(Listed(), Env(DeleteHook(A)))
  {
    var w := EnvNext(Listed(), DeleteHook(A));
    assert A in w.phase.todo && A !in w.webhooks && B in w.webhooks;
    assert Stuck(w) && w.webhooks[B] == [OLD] && !Spared(w, B);
  }

  /** One of two listed webhooks is deleted before it is patched: the tick gives up, the next one does not
      come back to the other webhook, and that one comes to refuse a valid certificate. */
  lemma DeletedHookStopsTheTick() returns (w: World)
    ensures OrderlyReached(w) && A in w.webhooks && CanLoseTrust(EnvNext(w, DeleteHook(A)))
  {
    w := Listed();
    BothListed();
    DeletionIsDisorderly();
    IsSane(w);
    HookDeletionLosesTrust(w, A);
  }

  lemma IsSane(w: World)
    requires OrderlyReached(w)
    ensures TrustInv(w)
  {
    var worlds, steps :| IsOrderlyRun(worlds, steps) && Fresh(worlds[0]) && worlds[|steps|] == w;
    RunKeepsTrust(worlds, steps, |steps|);
  }
}
