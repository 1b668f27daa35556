/**
  How much order the rotation needs: exactly as much as `Orderly` asks for. Whatever step is taken in a
  world that orderly steps led to, orderly steps can go on from there to a webhook that refuses a valid
  certificate if and only if that one step was not orderly.
 */
module CertExactness {
  import opened CertRotation
  import opened CertTrust

  /** Orderly steps can lead from here to a webhook that refuses a valid certificate. */
  ghost predicate CanLoseTrust(w: World) {
    exists worlds, steps :: IsOrderlyRun(worlds, steps) && worlds[0] == w && !Trusted(worlds[|steps|])
  }

  lemma NowIsLost(w: World)
    requires !Trusted(w)
    ensures CanLoseTrust(w)
  {
    assert IsOrderlyRun([w], []);
  }

  lemma PrependOrderly(w: World, step: Step, worlds: seq<World>, steps: seq<Step>)
    requires IsOrderlyRun(worlds, steps) && Enabled(w, step) && Orderly(w, step) && worlds[0] == Next(w, step)
    ensures IsOrderlyRun([w] + worlds, [step] + steps)
  {
    var worlds', steps' := [w] + worlds, [step] + steps;
    Prepend(w, step, worlds, steps);
    forall i | 0 <= i < |steps'| ensures Orderly(worlds'[i], steps'[i]) {
      if i > 0 {
        assert worlds'[i] == worlds[i - 1] && steps'[i] == steps[i - 1];
        assert Orderly(worlds[i - 1], steps[i - 1]);
      }
    }
  }

  lemma Earlier(w: World, step: Step)
    requires Enabled(w, step) && Orderly(w, step) && CanLoseTrust(Next(w, step))
    ensures CanLoseTrust(w)
  {
    var worlds, steps :| IsOrderlyRun(worlds, steps) && worlds[0] == Next(w, step) && !Trusted(worlds[|steps|]);
    PrependOrderly(w, step, worlds, steps);
    assert ([w] + worlds)[|steps| + 1] == worlds[|steps|];
  }

  lemma EarlierInTick(w: World, c: CertStep)
    requires CertEnabled(w, c) && Orderly(w, Cert(c)) && CanLoseTrust(CertNext(w, c))
    ensures CanLoseTrust(w)
  {
    Earlier(w, Cert(c));
  }

  lemma InvNeverLosesTrust(w: World)
    requires TrustInv(w)
    ensures !CanLoseTrust(w)
  {
    forall worlds, steps | IsOrderlyRun(worlds, steps) && worlds[0] == w ensures Trusted(worlds[|steps|]) {
      RunKeepsTrust(worlds, steps, |steps|);
    }
  }

  // ---------------------------------------------------------------- a tick that signs too early

  /** A webhook that lacks the current CA while that CA is valid. */
  ghost predicate Lacks(w: World, h: Hook) {
    Sane(w) && h in w.webhooks && !Knows(w, h) && VerifyCA(w.current, w.now)
  }

  lemma CheckRefused(w: World, h: Hook, s: string)
    requires Lacks(w, h) && s in w.servers
    ensures !Trusted(w.(servers := Rechecked(w, s)))
  {
    var leaf := Rechecked(w, s)[s];
    assert Recent(w, w.servers[s].issuer);
    assert leaf.issuer == w.current && ChainValid(leaf, w.now);
    assert !Covers(w.webhooks[h], leaf, w.now, Dialled(w.cfg, s));
  }

  lemma AtOwnLosesTrust(w: World, h: Hook)
    requires Lacks(w, h) && w.phase.AtOwn? && HasOwn(w)
    ensures CanLoseTrust(w)
  {
    CheckRefused(w, h, w.cfg.webhookSecret);
    NowIsLost(CertNext(w, CheckOwn));
    EarlierInTick(w, CheckOwn);
  }

  lemma AtOldLosesTrust(w: World, h: Hook)
    requires Lacks(w, h) && w.phase.AtOld? && HasOwn(w) && !Expired(w.previous, w.now)
    ensures CanLoseTrust(w)
  {
    CertKeepsSane(w, CheckOld);
    AtOwnLosesTrust(CertNext(w, CheckOld), h);
    EarlierInTick(w, CheckOld);
  }

  lemma AtCaLosesTrust(w: World, h: Hook)
    requires Lacks(w, h) && w.phase.AtCa? && HasOwn(w) && !Due(w)
    ensures CanLoseTrust(w)
  {
    CertKeepsSane(w, CheckCa);
    AtOldLosesTrust(CertNext(w, CheckCa), h);
    EarlierInTick(w, CheckCa);
  }

  /** The next tick finds both CAs in order, leaves the webhooks alone, and signs the first certificate it
      looks at with a CA that some webhook does not have. */
  lemma IdleLosesTrust(w: World, h: Hook)
    requires Lacks(w, h) && w.phase.Idle? && HasOwn(w) && !Due(w)
    ensures CanLoseTrust(w)
  {
    CertKeepsSane(w, Begin);
    AtCaLosesTrust(CertNext(w, Begin), h);
    EarlierInTick(w, Begin);
  }

  lemma StuckLosesTrust(w: World, h: Hook)
    requires Lacks(w, h) && Stuck(w) && HasOwn(w) && !Due(w)
    ensures CanLoseTrust(w)
  {
    CertKeepsSane(w, Abort);
    IdleLosesTrust(CertNext(w, Abort), h);
    EarlierInTick(w, Abort);
  }

  lemma AtServersLosesTrust(w: World, h: Hook, s: string)
    requires Lacks(w, h) && w.phase.AtServers? && s in w.phase.left && s in w.servers
    ensures CanLoseTrust(w)
  {
    CheckRefused(w, h, s);
    NowIsLost(CertNext(w, CheckServer(s)));
    EarlierInTick(w, CheckServer(s));
  }

  lemma FinishingLosesTrust(w: World, h: Hook)
    requires Lacks(w, h) && w.phase == AtServers({}) && HasOwn(w) && !Due(w)
    ensures CanLoseTrust(w)
  {
    CertKeepsSane(w, Finish);
    IdleLosesTrust(CertNext(w, Finish), h);
    EarlierInTick(w, Finish);
  }

  lemma ListingLosesTrust(w: World, h: Hook)
    requires Lacks(w, h) && w.phase.Listing?
    requires !(w.servers.Keys <= {w.cfg.webhookSecret}) || (HasOwn(w) && !Due(w))
    ensures CanLoseTrust(w)
  {
    var w' := CertNext(w, ListServers);
    CertKeepsSane(w, ListServers);
    if w'.phase.left == {} {
      FinishingLosesTrust(w', h);
    } else {
      var s :| s in w'.phase.left;
      AtServersLosesTrust(w', h, s);
    }
    EarlierInTick(w, ListServers);
  }

  lemma PatchedLosesTrust(w: World, h: Hook)
    requires Lacks(w, h) && CertEnabled(w, HooksPatched) && HasOwn(w)
    requires w.phase.AddingNew? ==> !Expired(w.previous, w.now)
    ensures CanLoseTrust(w)
  {
    CertKeepsSane(w, HooksPatched);
    if w.phase.AddingNew? {
      AtOldLosesTrust(CertNext(w, HooksPatched), h);
    } else {
      AtOwnLosesTrust(CertNext(w, HooksPatched), h);
    }
    EarlierInTick(w, HooksPatched);
  }

  /** The loop goes on to its end without reaching the webhook. */
  lemma {:induction false} PatchingLosesTrust(w: World, h: Hook)
    requires Lacks(w, h) && Patching(w.phase) && !Stuck(w) && !YetToPatch(w, h) && HasOwn(w)
    requires w.phase.AddingNew? ==> !Expired(w.previous, w.now)
    ensures CanLoseTrust(w)
    decreases 2 - w.phase.listed, w.phase.todo.Keys
  {
    if w.phase.todo != map[] {
      var x :| x in w.phase.todo;
      var w' := CertNext(w, Patch(x));
      CertKeepsSane(w, Patch(x));
      assert !Stuck(w') && w'.phase.todo.Keys == w.phase.todo.Keys - {x};
      PatchingLosesTrust(w', h);
      EarlierInTick(w, Patch(x));
    } else if w.phase.listed < 2 {
      CertKeepsSane(w, ListHooks);
      PatchingLosesTrust(CertNext(w, ListHooks), h);
      EarlierInTick(w, ListHooks);
    } else {
      PatchedLosesTrust(w, h);
    }
  }

  /** A webhook that lacks the current CA and is not spared comes to refuse a valid certificate. */
  lemma UnsparedLosesTrust(w: World, h: Hook)
    requires Sane(w) && h in w.webhooks && !Knows(w, h) && !Spared(w, h)
    ensures CanLoseTrust(w)
  {
    if Stuck(w) {
      StuckLosesTrust(w, h);
    } else if Patching(w.phase) {
      PatchingLosesTrust(w, h);
    } else {
      match w.phase
      case Idle => IdleLosesTrust(w, h);
      case AtCa => AtCaLosesTrust(w, h);
      case AtOld => AtOldLosesTrust(w, h);
      case AtOwn => AtOwnLosesTrust(w, h);
      case Listing => ListingLosesTrust(w, h);
      case AtServers(left) =>
        if s :| s in left && s in w.servers {
          AtServersLosesTrust(w, h, s);
        } else {
          FinishingLosesTrust(w, h);
        }
    }
  }

  // ---------------------------------------------------------------- the disorderly steps

  lemma UnshelteredLosesTrust(w: World)
    requires Sane(w) && !Sheltered(w)
    ensures CanLoseTrust(w)
  {
    var h :| h in w.webhooks && !Knows(w, h) && !Spared(w, h);
    UnsparedLosesTrust(w, h);
  }

  /** Writing one CA into a bundle loses trust at once exactly if a valid certificate is from another CA. */
  lemma HookWriteTrustedIff(w: World, h: Hook)
    requires TrustInv(w) && h in w.hookReads
    ensures Trusted(EnvNext(w, WriteHook(h))) <==> OnlyFrom(w, w.hookReads[h])
  {
    var w' := EnvNext(w, WriteHook(h));
    if !OnlyFrom(w, w.hookReads[h]) {
      if s :| s in w.servers && ChainValid(w.servers[s], w.now) && w.servers[s].issuer != w.hookReads[h] {
        assert !Covers(w'.webhooks[h], w'.servers[s], w'.now, Dialled(w'.cfg, s));
      } else {
        var s :| s in w.inUse && ChainValid(w.inUse[s], w.now) && w.inUse[s].issuer != w.hookReads[h];
        assert !Covers(w'.webhooks[h], w'.inUse[s], w'.now, Dialled(w'.cfg, s));
      }
    }
  }

  /** Signing a certificate loses trust at once exactly if the CA is valid and some webhook lacks it. */
  lemma ServerWriteTrustedIff(w: World, s: string)
    requires TrustInv(w) && EnvEnabled(w, WriteServer(s)) && s !in w.servers
    ensures Trusted(EnvNext(w, WriteServer(s))) <==>
            (VerifyCA(w.serverReads[s], w.now) ==> forall h :: h in w.webhooks ==> w.serverReads[s] in w.webhooks[h])
  {
    var w' := EnvNext(w, WriteServer(s));
    NamesAgree(w.cfg, s);
    if h :| VerifyCA(w.serverReads[s], w.now) && h in w.webhooks && w.serverReads[s] !in w.webhooks[h] {
      assert !Covers(w'.webhooks[h], w'.servers[s], w'.now, Dialled(w'.cfg, s));
    }
  }

  lemma HookWriteLosesTrust(w: World, h: Hook)
    requires TrustInv(w) && h in w.hookReads && !Orderly(w, Env(WriteHook(h)))
    ensures CanLoseTrust(EnvNext(w, WriteHook(h)))
  {
    HookWriteTrustedIff(w, h);
    if OnlyFrom(w, w.hookReads[h]) {
      EnvKeepsSane(w, WriteHook(h));
      UnshelteredLosesTrust(EnvNext(w, WriteHook(h)));
    } else {
      NowIsLost(EnvNext(w, WriteHook(h)));
    }
  }

  lemma ServerWriteLosesTrust(w: World, s: string)
    requires TrustInv(w) && EnvEnabled(w, WriteServer(s)) && !Orderly(w, Env(WriteServer(s)))
    ensures CanLoseTrust(EnvNext(w, WriteServer(s)))
  {
    ServerWriteTrustedIff(w, s);
    if Trusted(EnvNext(w, WriteServer(s))) {
      EnvKeepsSane(w, WriteServer(s));
      UnshelteredLosesTrust(EnvNext(w, WriteServer(s)));
    } else {
      NowIsLost(EnvNext(w, WriteServer(s)));
    }
  }

  /** Deleting a webhook the running loop has listed leaves it nothing but to give up. */
  lemma HookDeletionLosesTrust(w: World, h: Hook)
    requires TrustInv(w) && h in w.webhooks && !Orderly(w, Env(DeleteHook(h)))
    ensures CanLoseTrust(EnvNext(w, DeleteHook(h)))
  {
    EnvKeepsSane(w, DeleteHook(h));
    UnshelteredLosesTrust(EnvNext(w, DeleteHook(h)));
  }

  lemma AbortLosesTrust(w: World)
    requires TrustInv(w) && CertEnabled(w, Abort) && !Orderly(w, Cert(Abort))
    ensures CanLoseTrust(CertNext(w, Abort))
  {
    var h :| h in w.webhooks && !Knows(w, h);
    CertKeepsSane(w, Abort);
    IdleLosesTrust(CertNext(w, Abort), h);
  }

  lemma DisorderLosesTrust(w: World, step: Step)
    requires TrustInv(w) && Enabled(w, step) && !Orderly(w, step)
    ensures CanLoseTrust(Next(w, step))
  {
    match step
    case Env(WriteHook(h)) => HookWriteLosesTrust(w, h);
    case Env(WriteServer(s)) => ServerWriteLosesTrust(w, s);
    case Env(DeleteHook(h)) => HookDeletionLosesTrust(w, h);
    case Cert(Abort) => AbortLosesTrust(w);
  }

  /** In any world with the invariant: a step can be followed by a loss of trust exactly if it is not orderly. */
  lemma StepUnsafeIffDisorderly(w: World, step: Step)
    requires TrustInv(w) && Enabled(w, step)
    ensures CanLoseTrust(Next(w, step)) <==> !Orderly(w, step)
  {
    if Orderly(w, step) {
      StepKeepsTrust(w, step);
      InvNeverLosesTrust(Next(w, step));
    } else {
      DisorderLosesTrust(w, step);
    }
  }

  /** Take any world that orderly steps lead to and any step of anyone in it. A webhook that refuses a valid
      certificate can then follow by orderly steps if and only if that step was not orderly. */
  lemma UntrustedIffDisorderly(worlds: seq<World>, steps: seq<Step>, step: Step)
    requires IsOrderlyRun(worlds, steps) && Fresh(worlds[0]) && Enabled(worlds[|steps|], step)
    ensures CanLoseTrust(Next(worlds[|steps|], step)) <==> !Orderly(worlds[|steps|], step)
  {
    RunKeepsTrust(worlds, steps, |steps|);
    StepUnsafeIffDisorderly(worlds[|steps|], step);
  }
}
