/**
  No request is refused because of a rotation: whatever certificate a server presents, as long as it
  is within its validity every webhook's bundle holds the CA that signed it.
 */
module CertTrust {
  import opened Wrappers
  import opened CertRotation

  /** The name by which the API server calls the server whose certificate is in the secret `s`: the service
      of the same name, but for the controller's own. */
  function Dialled(cfg: Config, s: string): string {
    (if s == cfg.webhookSecret then cfg.webhookService else s) + "." + cfg.namespace + ".svc"
  }

  /** A certificate that is valid is accepted: its CA is in the bundle, and it is made out to the name called. */
  predicate Covers(bundle: seq<Ca>, leaf: Leaf, now: int, name: string) {
    ChainValid(leaf, now) ==> leaf.issuer in bundle && leaf.dns == name
  }

  /** Both the certificate a server presents and the one it may switch to next are accepted. */
  ghost predicate Trusted(w: World) {
    && (forall h, s :: h in w.webhooks && s in w.servers ==>
          Covers(w.webhooks[h], w.servers[s], w.now, Dialled(w.cfg, s)))
    && (forall h, s :: h in w.webhooks && s in w.inUse ==>
          Covers(w.webhooks[h], w.inUse[s], w.now, Dialled(w.cfg, s)))
  }

  /** A CA is made to last ten years from now, and a certificate, made out to the name its server is called by,
      one year. */
  lemma IssuedFor(w: World, id: nat, s: string, ca: Ca)
    ensures GenerateCA(id, w.now) == Ca(id, w.now, w.now + 10 * 365 * 24 * 60 * 60)
    ensures GenerateCert(ca, w.now, DnsOf(w.cfg, s)) == Leaf(ca, Dialled(w.cfg, s), w.now, w.now + 365 * 24 * 60 * 60)
    ensures s in w.serverReads ==>
              Signed(w, s) == Leaf(w.serverReads[s], Dialled(w.cfg, s), w.now, w.now + 365 * 24 * 60 * 60)
  {
  }

  // ---------------------------------------------------------------- webhooks without the current CA

  predicate Knows(w: World, h: Hook)
    requires h in w.webhooks
  {
    w.current in w.webhooks[h]
  }

  predicate Expired(ca: Option<Ca>, at: int) {
    ca.Some? && !VerifyCA(ca.value, at)
  }

  /** A tick that started now would patch all webhooks. */
  predicate Due(w: World) {
    !VerifyCA(w.current, w.now + CERT_LOOKAHEAD) || Expired(w.previous, w.now)
  }

  /** The controller's own certificate is there. Without it no tick gets to the policy servers. */
  predicate HasOwn(w: World) {
    w.cfg.webhookSecret in w.servers
  }

  /** The running tick has nothing left but to give up. */
  predicate Stuck(w: World) {
    || (Patching(w.phase) && exists h :: h in w.phase.todo && h !in w.webhooks)
    || (w.phase.AtOwn? && !HasOwn(w))
  }

  /** The running loop has yet to write the webhook, from this list or from the next. */
  predicate YetToPatch(w: World, h: Hook) {
    && Patching(w.phase)
    && ((h in w.phase.todo && w.phase.todo[h] != Bundle(w)) || w.phase.listed <= if h.mutating then 1 else 0)
  }

  /** Before anything more is signed, a tick starts from its first check. */
  predicate Settling(w: World) {
    || w.phase.Idle? || w.phase.AtCa? || Stuck(w)
    || (w.phase.Listing? && w.servers.Keys <= {w.cfg.webhookSecret})
    || w.phase == AtServers({})
  }

  /** A webhook that lacks the current CA will get it before any server presents a certificate from that CA:
      nothing the CA signs is valid any more; or the running loop has yet to reach the webhook; or the
      next tick is going to patch all webhooks, or to give up; or so is the running one. */
  predicate Spared(w: World, h: Hook) {
    || !VerifyCA(w.current, w.now)
    || (!Stuck(w) && YetToPatch(w, h))
    || (Settling(w) && (Due(w) || !HasOwn(w)))
    || ((Patching(w.phase) || w.phase.AtOld?) && !HasOwn(w))
    || ((w.phase.AddingNew? || w.phase.AtOld?) && Expired(w.previous, w.now))
  }

  ghost predicate Sheltered(w: World) {
    forall h :: h in w.webhooks ==> Knows(w, h) || Spared(w, h)
  }

  // ---------------------------------------------------------------- what must not be done

  /** No valid certificate is from another CA. */
  ghost predicate OnlyFrom(w: World, ca: Ca) {
    && (forall s :: s in w.servers && ChainValid(w.servers[s], w.now) ==> w.servers[s].issuer == ca)
    && (forall s :: s in w.inUse && ChainValid(w.inUse[s], w.now) ==> w.inUse[s].issuer == ca)
  }

  /** What other parties must not do, and the one API failure that is not made up for:
      - a policy reconcile puts one CA, the one it has read, into the bundle, so no valid certificate may be
        from another one;
      - a policy server reconcile signs with the CA it has read, so while that is valid every webhook must
        have it already;
      - neither of them, nor the deletion of a webhook that the running loop has listed, may leave a webhook
        without the current CA that is not spared;
      - a tick must not give up before every webhook has the current CA, unless it is stuck, or the next
        one is going to patch all webhooks or to give up. */
  ghost predicate Orderly(w: World, step: Step) {
    match step
    case Env(WriteHook(h)) => h in w.hookReads ==> OnlyFrom(w, w.hookReads[h]) && Sheltered(EnvNext(w, WriteHook(h)))
    case Env(WriteServer(s)) =>
      EnvEnabled(w, WriteServer(s)) && s !in w.servers ==>
        && (VerifyCA(w.serverReads[s], w.now) ==> forall h :: h in w.webhooks ==> w.serverReads[s] in w.webhooks[h])
        && Sheltered(EnvNext(w, WriteServer(s)))
    case Env(DeleteHook(h)) => h in w.webhooks ==> Sheltered(EnvNext(w, DeleteHook(h)))
    case Cert(Abort) => Stuck(w) || Due(w) || !HasOwn(w) || forall h :: h in w.webhooks ==> Knows(w, h)
    case _ => true
  }

  // ---------------------------------------------------------------- the invariant

  /** Only the current CA and the one before it are still valid. */
  predicate Recent(w: World, ca: Ca) {
    ca.notBefore <= w.now && (VerifyCA(ca, w.now) ==> ca == w.current || w.previous == Some(ca))
  }

  ghost predicate LeavesRecent(w: World) {
    && (forall s :: s in w.servers ==> w.servers[s].notBefore <= w.now && Recent(w, w.servers[s].issuer))
    && (forall s :: s in w.inUse ==> w.inUse[s].notBefore <= w.now && Recent(w, w.inUse[s].issuer))
  }

  ghost predicate ReadsRecent(w: World) {
    && (forall h :: h in w.hookReads ==> Recent(w, w.hookReads[h]))
    && (forall s :: s in w.serverReads ==> Recent(w, w.serverReads[s]))
  }

  /** The previous CA runs out well before the current one has to be replaced. */
  predicate CasStaggered(w: World) {
    && w.current.notBefore <= w.now
    && (w.previous.Some? ==> w.previous.value.notBefore <= w.now)
    && (w.previous.Some? ==> w.previous.value.notAfter + CERT_LOOKAHEAD < w.current.notAfter)
    && (w.phase.DroppingOld? ==> w.previous.None?)
  }

  predicate PhaseConsistent(w: World) {
    && (Patching(w.phase) ==> w.phase.listed <= 2)
    && (w.phase.AtServers? ==> w.phase.left <= w.servers.Keys)
  }

  /** Every certificate is made out to the name its server is called by. */
  ghost predicate Named(w: World) {
    && (forall s :: s in w.servers ==> w.servers[s].dns == Dialled(w.cfg, s))
    && (forall s :: s in w.inUse ==> w.inUse[s].dns == Dialled(w.cfg, s))
  }

  lemma NamesAgree(cfg: Config, s: string)
    ensures DnsOf(cfg, s) == Dialled(cfg, s)
  {
  }

  ghost predicate Sane(w: World) {
    LeavesRecent(w) && ReadsRecent(w) && CasStaggered(w) && PhaseConsistent(w) && Named(w)
  }

  ghost predicate TrustInv(w: World) {
    Trusted(w) && Sheltered(w) && Sane(w)
  }

  // ---------------------------------------------------------------- every step keeps it

  lemma EnvKeepsLeaves(w: World, e: EnvStep)
    requires LeavesRecent(w) && ReadsRecent(w) && Named(w) && EnvEnabled(w, e)
    ensures LeavesRecent(EnvNext(w, e)) && Named(EnvNext(w, e))
  {
    var w' := EnvNext(w, e);
    assert forall ca: Ca :: Recent(w, ca) ==> Recent(w', ca);
    if e.WriteServer? {
      NamesAgree(w.cfg, e.s);
    }
  }

  lemma EnvKeepsReads(w: World, e: EnvStep)
    requires ReadsRecent(w) && CasStaggered(w) && PhaseConsistent(w) && EnvEnabled(w, e)
    ensures ReadsRecent(EnvNext(w, e)) && CasStaggered(EnvNext(w, e)) && PhaseConsistent(EnvNext(w, e))
  {
    assert forall ca: Ca :: Recent(w, ca) ==> Recent(EnvNext(w, e), ca);
  }

  lemma EnvKeepsSane(w: World, e: EnvStep)
    requires Sane(w) && EnvEnabled(w, e)
    ensures Sane(EnvNext(w, e))
  {
    EnvKeepsLeaves(w, e);
    EnvKeepsReads(w, e);
  }

  lemma EnvKeepsTrusted(w: World, e: EnvStep)
    requires TrustInv(w) && EnvEnabled(w, e) && Orderly(w, Env(e))
    ensures Trusted(EnvNext(w, e))
  {
    var w' := EnvNext(w, e);
    if e.Pass? {
      forall s | s in w.servers ensures ChainValid(w.servers[s], w'.now) ==> ChainValid(w.servers[s], w.now) {
        assert Recent(w, w.servers[s].issuer);
      }
      forall s | s in w.inUse ensures ChainValid(w.inUse[s], w'.now) ==> ChainValid(w.inUse[s], w.now) {
        assert Recent(w, w.inUse[s].issuer);
      }
    }
  }

  lemma EnvKeepsSheltered(w: World, e: EnvStep)
    requires TrustInv(w) && EnvEnabled(w, e) && Orderly(w, Env(e))
    ensures Sheltered(EnvNext(w, e))
  {
    var w' := EnvNext(w, e);
    forall h | h in w'.webhooks ensures Knows(w', h) || Spared(w', h) {
      assert h in w.webhooks ==> Knows(w, h) || Spared(w, h);
    }
  }

  lemma EnvKeepsTrust(w: World, e: EnvStep)
    requires TrustInv(w) && EnvEnabled(w, e) && Orderly(w, Env(e))
    ensures TrustInv(EnvNext(w, e))
  {
    EnvKeepsSane(w, e);
    EnvKeepsTrusted(w, e);
    EnvKeepsSheltered(w, e);
  }

  /** Rotating: the CA that is about to expire becomes the old one, and the one before it has expired.
      Dropping: the old CA is no longer valid. */
  lemma CertKeepsRecent(w: World, c: CertStep, ca: Ca)
    requires CasStaggered(w) && CertEnabled(w, c) && Recent(w, ca)
    ensures Recent(CertNext(w, c), ca)
  {
  }

  lemma CertKeepsStaggered(w: World, c: CertStep)
    requires CasStaggered(w) && PhaseConsistent(w) && CertEnabled(w, c)
    ensures CasStaggered(CertNext(w, c))
    ensures PhaseConsistent(CertNext(w, c))
  {
    match c
    case Begin =>
    case CheckCa =>
    case ListHooks =>
    case Patch(_) =>
    case HooksPatched =>
    case CheckOld =>
    case _ =>
  }

  lemma CertKeepsServers(w: World, c: CertStep)
    requires Sane(w) && CertEnabled(w, c)
    ensures var w' := CertNext(w, c);
            forall s :: s in w'.servers ==>
              && w'.servers[s].notBefore <= w'.now && Recent(w', w'.servers[s].issuer)
              && w'.servers[s].dns == Dialled(w.cfg, s)
  {
    var w' := CertNext(w, c);
    forall s | s in w'.servers
      ensures w'.servers[s].notBefore <= w'.now && Recent(w', w'.servers[s].issuer)
      ensures w'.servers[s].dns == Dialled(w.cfg, s)
    {
      CertChecksOne(w, c, s);
      CertKeepsRecent(w, c, w.servers[s].issuer);
      CertKeepsRecent(w, c, w.current);
    }
  }

  lemma CertLeavesReads(w: World, c: CertStep)
    requires CertEnabled(w, c)
    ensures CertNext(w, c).now == w.now
    ensures CertNext(w, c).cfg == w.cfg
    ensures CertNext(w, c).inUse == w.inUse
    ensures CertNext(w, c).hookReads == w.hookReads
    ensures CertNext(w, c).serverReads == w.serverReads
  {
    match c
    case Begin =>
    case CheckCa =>
    case ListHooks =>
    case Patch(_) =>
    case HooksPatched =>
    case _ =>
  }

  lemma CertKeepsSane(w: World, c: CertStep)
    requires Sane(w) && CertEnabled(w, c)
    ensures Sane(CertNext(w, c))
  {
    var w' := CertNext(w, c);
    CertKeepsStaggered(w, c);
    CertKeepsServers(w, c);
    CertLeavesReads(w, c);
    forall ca | Recent(w, ca) ensures Recent(w', ca) { CertKeepsRecent(w, c, ca); }
  }

  lemma CertChecksOne(w: World, c: CertStep, s: string)
    requires CertEnabled(w, c) && s in CertNext(w, c).servers
    ensures s in w.servers
    ensures var leaf := CertNext(w, c).servers[s];
            || leaf == w.servers[s]
            || (leaf.notBefore == w.now && leaf.issuer == w.current && leaf.dns == Dialled(w.cfg, s))
  {
    NamesAgree(w.cfg, s);
  }

  /** Re-issuing: the current CA is in every bundle, or nothing it signs is valid. */
  lemma CheckKeepsTrusted(w: World, s: string)
    requires TrustInv(w) && s in w.servers
    requires (w.phase.AtOwn? && s == w.cfg.webhookSecret) || (w.phase.AtServers? && s in w.phase.left)
    ensures Trusted(w.(servers := Rechecked(w, s)))
  {
    NamesAgree(w.cfg, s);
    forall h | h in w.webhooks ensures Knows(w, h) || !VerifyCA(w.current, w.now) {
      assert Knows(w, h) || Spared(w, h);
    }
  }

  /** Patching: the bundle being written accepts whatever is still valid. */
  lemma PatchKeepsTrusted(w: World, h: Hook)
    requires TrustInv(w) && CertEnabled(w, Patch(h))
    ensures Trusted(CertNext(w, Patch(h)))
  {
    assert w.current in Bundle(w);
    forall s | s in w.servers ensures Covers(Bundle(w), w.servers[s], w.now, Dialled(w.cfg, s)) {
      assert Recent(w, w.servers[s].issuer);
    }
    forall s | s in w.inUse ensures Covers(Bundle(w), w.inUse[s], w.now, Dialled(w.cfg, s)) {
      assert Recent(w, w.inUse[s].issuer);
    }
  }

  lemma CertKeepsTrusted(w: World, c: CertStep)
    requires TrustInv(w) && CertEnabled(w, c)
    ensures Trusted(CertNext(w, c))
  {
    match c
    case Patch(h) => PatchKeepsTrusted(w, h);
    case CheckOwn => CheckKeepsTrusted(w, w.cfg.webhookSecret);
    case CheckServer(s) => CheckKeepsTrusted(w, s);
    case _ =>
  }

  lemma PatchKeepsSheltered(w: World, x: Hook)
    requires Sheltered(w) && CertEnabled(w, Patch(x))
    ensures Sheltered(CertNext(w, Patch(x)))
  {
    var w' := CertNext(w, Patch(x));
    assert w.current in Bundle(w);
    assert Stuck(w') ==> Stuck(w);
    assert Stuck(w) ==> Stuck(w') by {
      if h :| h in w.phase.todo && h !in w.webhooks {
        assert h in w'.phase.todo && h !in w'.webhooks;
      }
    }
    forall h | h in w'.webhooks ensures Knows(w', h) || Spared(w', h) {
      assert h in w.webhooks && (Knows(w, h) || Spared(w, h));
    }
  }

  lemma ListKeepsSheltered(w: World)
    requires Sheltered(w) && CertEnabled(w, ListHooks)
    ensures Sheltered(CertNext(w, ListHooks))
  {
    var w' := CertNext(w, ListHooks);
    assert !Stuck(w) && !Stuck(w');
    forall h | h in w'.webhooks ensures Knows(w', h) || Spared(w', h) {
      assert Knows(w, h) || Spared(w, h);
    }
  }

  /** From the start of a tick to the end of the loops. */
  lemma EarlyKeepsSpared(w: World, c: CertStep, h: Hook)
    requires CasStaggered(w) && CertEnabled(w, c) && (c.Begin? || c.CheckCa? || c.CheckOld? || c.HooksPatched?)
    requires h in w.webhooks && (Knows(w, h) || Spared(w, h))
    ensures Knows(CertNext(w, c), h) || Spared(CertNext(w, c), h)
  {
  }

  /** From the first certificate to the end of a tick. */
  lemma LateKeepsSpared(w: World, c: CertStep, h: Hook)
    requires CasStaggered(w) && CertEnabled(w, c) && (c.CheckOwn? || c.ListServers? || c.CheckServer? || c.Finish?)
    requires h in w.webhooks && (Knows(w, h) || Spared(w, h))
    ensures Knows(CertNext(w, c), h) || Spared(CertNext(w, c), h)
  {
    assert CertNext(w, c).servers.Keys == w.servers.Keys;
  }

  lemma AbortKeepsSpared(w: World, h: Hook)
    requires CasStaggered(w) && CertEnabled(w, Abort) && Orderly(w, Cert(Abort))
    requires h in w.webhooks && (Knows(w, h) || Spared(w, h))
    ensures Knows(CertNext(w, Abort), h) || Spared(CertNext(w, Abort), h)
  {
  }

  lemma CertKeepsSheltered(w: World, c: CertStep)
    requires Sheltered(w) && CasStaggered(w) && CertEnabled(w, c) && Orderly(w, Cert(c))
    ensures Sheltered(CertNext(w, c))
  {
    var w' := CertNext(w, c);
    if c.Patch? {
      PatchKeepsSheltered(w, c.h);
    } else if c.ListHooks? {
      ListKeepsSheltered(w);
    } else {
      forall h | h in w'.webhooks ensures Knows(w', h) || Spared(w', h) {
        assert h in w.webhooks && (Knows(w, h) || Spared(w, h));
        if c.Abort? {
          AbortKeepsSpared(w, h);
        } else if c.Begin? || c.CheckCa? || c.CheckOld? || c.HooksPatched? {
          EarlyKeepsSpared(w, c, h);
        } else {
          LateKeepsSpared(w, c, h);
        }
      }
    }
  }

  lemma StepKeepsTrust(w: World, step: Step)
    requires TrustInv(w) && Enabled(w, step) && Orderly(w, step)
    ensures TrustInv(Next(w, step))
  {
    match step
    case Env(e) => EnvKeepsTrust(w, e);
    case Cert(c) =>
      CertKeepsSane(w, c);
      CertKeepsTrusted(w, c);
      CertKeepsSheltered(w, c);
  }

  ghost predicate IsOrderlyRun(worlds: seq<World>, steps: seq<Step>) {
    IsRun(worlds, steps) && forall i :: 0 <= i < |steps| ==> Orderly(worlds[i], steps[i])
  }

  lemma {:induction false} RunKeepsTrust(worlds: seq<World>, steps: seq<Step>, i: nat)
    requires IsOrderlyRun(worlds, steps) && i < |worlds| && TrustInv(worlds[0])
    ensures TrustInv(worlds[i])
  {
    if i > 0 {
      RunKeepsTrust(worlds, steps, i - 1);
      StepKeepsTrust(worlds[i - 1], steps[i - 1]);
    }
  }

  /** Nothing is being rotated, all certificates are signed by the one CA and made out to the right names, and
      every webhook has that CA. */
  ghost predicate Fresh(w: World) {
    && w.phase.Idle? && w.previous.None? && w.current.notBefore <= w.now
    && w.hookReads == map[] && w.serverReads == map[]
    && (forall h :: h in w.webhooks ==> Knows(w, h))
    && (forall s :: s in w.servers ==> w.servers[s].issuer == w.current && w.servers[s].notBefore <= w.now)
    && (forall s :: s in w.inUse ==> w.inUse[s].issuer == w.current && w.inUse[s].notBefore <= w.now)
    && Named(w)
  }

  /** At every moment of every orderly run from such a world, between any two writes of a rotation,
      every webhook accepts every certificate that a server presents or could switch to and that is
      still valid; nothing still valid depends on a CA other than the current and the previous one. */
  lemma AlwaysTrusted(worlds: seq<World>, steps: seq<Step>, i: nat)
    requires IsOrderlyRun(worlds, steps) && i < |worlds| && Fresh(worlds[0])
    ensures Trusted(worlds[i]) && LeavesRecent(worlds[i])
  {
    RunKeepsTrust(worlds, steps, i);
  }
}
