/**
  The cert reconcile as it is written. Every check and write it makes is a step of `CertRotation`, so every
  world it passes through is one in which all webhooks accept all servers.
 */
module CertController {
  import opened Wrappers
  import opened CertRotation
  import opened CertTrust
  import opened CertExactness
  import opened CertMargin

  /** A server certificate that its check would replace. */
  predicate DueCert(w: World, s: string)
    requires s in w.servers
  {
    !VerifyCert(w.servers[s], [w.current], DnsOf(w.cfg, s), w.now + CERT_LOOKAHEAD)
  }

  /** A CA is valid at a given time. */
  predicate ValidAt(ca: Ca, t: int) {
    ca.notBefore <= t && t <= ca.notAfter
  }

  /** The check in plain terms: from the current CA, made out to the name called, and sixty days from now both
      it and the CA are still valid. */
  predicate Passes(w: World, s: string)
    requires s in w.servers
  {
    var leaf, t := w.servers[s], w.now + 60 * 24 * 60 * 60;
    && leaf.issuer == w.current && leaf.dns == Dialled(w.cfg, s)
    && leaf.notBefore <= t <= leaf.notAfter && ValidAt(w.current, t)
  }

  lemma DueIffFails(w: World, s: string)
    requires s in w.servers
    ensures DueCert(w, s) <==> !Passes(w, s)
  {
    NamesAgree(w.cfg, s);
  }

  ghost predicate NoneDue(w: World) {
    forall s :: s in w.servers ==> !DueCert(w, s)
  }

  /** Nothing is due: a reconcile at this very moment would find every check passing. */
  ghost predicate Settled(w: World) {
    !Due(w) && NoneDue(w)
  }

  /** A certificate from the other issuing path, a policy server reconcile, is not due either, exactly if it
      was signed with the current CA. */
  lemma SigningKeepsSettledIffCurrent(w: World, s: string)
    requires Settled(w) && w.current.notBefore <= w.now && EnvEnabled(w, WriteServer(s)) && s !in w.servers
    ensures Settled(EnvNext(w, WriteServer(s))) <==> w.serverReads[s] == w.current
  {
    var w' := EnvNext(w, WriteServer(s));
    assert forall r :: r in w.servers ==> DueCert(w', r) == DueCert(w, r);
    assert DueCert(w', s) <==> w.serverReads[s] != w.current;
  }

  /** The certificate a check leaves in the secret of `s`. */
  function Renewed(w: World, s: string): Leaf
    requires s in w.servers
  {
    if DueCert(w, s) then GenerateCert(w.current, w.now, DnsOf(w.cfg, s)) else w.servers[s]
  }

  /** A certificate that was not due at some time since `since`. */
  predicate Good(w: World, s: string, since: int)
    requires s in w.servers
  {
    var leaf := w.servers[s];
    leaf.issuer == w.current && leaf.dns == Dialled(w.cfg, s) && HoldsUntil(leaf, since + CERT_LOOKAHEAD)
  }

  /** Some certificates have been checked: they are good, and if no time went by they are those that were not
      due, or new ones. */
  ghost predicate PartlyRenewed(w: World, w': World, left: set<string>, since: int) {
    && w'.servers.Keys == w.servers.Keys
    && w' == w.(servers := w'.servers, phase := w'.phase, now := w'.now) && since <= w.now <= w'.now
    && (forall s :: s in w.servers ==> if s in left then w'.servers[s] == w.servers[s] else Good(w', s, since))
    && (w'.now == w.now ==> forall s :: s in w.servers && s !in left ==> w'.servers[s] == Renewed(w, s))
  }

  lemma RenewOne(w: World, w': World, left: set<string>, since: int, s: string, w'': World)
    requires PartlyRenewed(w, w', left, since) && s in left && s in w.servers
    requires since + CERT_LOOKAHEAD <= w.current.notAfter
    requires w'' == w'.(servers := w'.servers[s := Renewed(w', s)], phase := w''.phase, now := w''.now)
    requires w'.now <= w''.now
    ensures PartlyRenewed(w, w'', left - {s}, since)
    ensures NoneDue(w) && w'.now == w.now ==> !DueCert(w', s)
  {
    NamesAgree(w.cfg, s);
    assert NoneDue(w) ==> !DueCert(w, s);
    assert w''.servers[s] == Renewed(w', s);
    forall x | x in w.servers
      ensures if x in left - {s} then w''.servers[x] == w.servers[x] else Good(w'', x, since)
    {
      assert x in left ==> w'.servers[x] == w.servers[x];
    }
  }

  /** When nothing was due and no time went by, everything is as it was. */
  lemma NothingToRenew(w: World, w': World, left: set<string>, since: int)
    requires PartlyRenewed(w, w', left, since) && NoneDue(w) && w'.now == w.now
    ensures w'.servers == w.servers
  {
    forall s | s in w.servers ensures w'.servers[s] == w.servers[s] {
      assert !DueCert(w, s);
    }
  }

  /** Checking all servers leaves certificates that pass. */
  lemma RenewedVerify(w: World, w': World, since: int)
    requires PartlyRenewed(w, w', {}, since) && VerifyCA(w.current, w.now + CERT_LOOKAHEAD) && w'.now == w.now
    ensures NoneDue(w')
  {
    forall s | s in w'.servers ensures !DueCert(w', s) {
      assert w'.servers[s] == Renewed(w, s);
    }
  }

  /** Some of the listed webhooks have been patched. */
  ghost predicate PartlyPatched(w: World, w': World, left: map<Hook, seq<Ca>>, bundle: seq<Ca>) {
    && Patching(w.phase) && w.now <= w'.now && w'.webhooks.Keys == w.webhooks.Keys
    && w' == w.(webhooks := w'.webhooks, now := w'.now, phase := At(w.phase, w.phase.listed, left))
    && forall h :: h in w.webhooks ==>
         w'.webhooks[h] == if h in w.phase.todo && h !in left then bundle else w.webhooks[h]
  }

  predicate Part(left: map<Hook, seq<Ca>>, todo: map<Hook, seq<Ca>>) {
    forall h :: h in left ==> h in todo && left[h] == todo[h]
  }

  /** The list is as the webhooks are. */
  ghost predicate ListIsFresh(w: World) {
    Patching(w.phase) && forall h :: h in w.phase.todo ==> h in w.webhooks && w.phase.todo[h] == w.webhooks[h]
  }

  lemma PatchOne(w: World, w': World, left: map<Hook, seq<Ca>>, bundle: seq<Ca>, h: Hook, w'': World)
    requires PartlyPatched(w, w', left, bundle) && bundle == Bundle(w) && ListIsFresh(w) && Part(left, w.phase.todo)
    requires h in left && w'.now <= w''.now
    requires CertEnabled(w', Patch(h)) && w'' == CertNext(w', Patch(h)).(now := w''.now)
    ensures PartlyPatched(w, w'', left - {h}, bundle)
  {
    assert w'.webhooks[h] == w.webhooks[h] == left[h] && Bundle(w') == bundle;
    assert w''.webhooks == w'.webhooks[h := bundle];
  }

  /** The CA and all certificates last the lookahead from a given time. */
  ghost predicate Lasting(w: World, since: int) {
    since + CERT_LOOKAHEAD <= w.current.notAfter && forall s :: s in w.servers ==> Good(w, s, since)
  }

  lemma PhaseDoesNotMatter(w: World, w': World, since: int)
    requires w' == w.(phase := w'.phase, now := w'.now)
    ensures Lasting(w, since) ==> Lasting(w', since)
    ensures w'.now == w.now && Settled(w) ==> Settled(w')
  {
    assert forall s :: s in w.servers ==> Good(w', s, since) == Good(w, s, since);
    assert w'.now == w.now ==> forall s :: s in w.servers ==> DueCert(w', s) == DueCert(w, s);
  }

  lemma NamedAsDialled(w: World, since: int)
    requires Lasting(w, since)
    ensures forall s :: s in w.servers ==>
              var service := if s == w.cfg.webhookSecret then w.cfg.webhookService else s;
              w.servers[s].dns == service + "." + w.cfg.namespace + ".svc"
  {
    forall s | s in w.servers ensures w.servers[s].dns == Dialled(w.cfg, s) {
      assert Good(w, s, since);
    }
  }

  lemma LastsFromBefore(w: World, earlier: int, since: int)
    requires Lasting(w, since) && earlier <= since
    ensures Lasting(w, earlier)
  {
    forall s | s in w.servers ensures Good(w, s, earlier) {
      assert Good(w, s, since);
    }
  }

  lemma StartDoesNotMatter(w: World, w': World)
    requires w' == w.(phase := w'.phase, start := w'.start, now := w'.now)
    ensures w'.now == w.now ==> Settled(w') == Settled(w)
  {
    assert w'.now == w.now ==> forall s :: s in w.servers ==> DueCert(w', s) == DueCert(w, s);
  }

  /** The tick as a whole, from its parts: what the checks of the CAs left, and what those of the servers did
      with it. */
  lemma AllInOrder(w0: World, rotated: World, before: World, w: World, ok: bool)
    requires w0.now <= rotated.now <= before.now && VerifyCA(rotated.current, w0.now + CERT_LOOKAHEAD)
    requires before == rotated.(previous := before.previous, webhooks := before.webhooks, now := before.now,
                                phase := AtOwn)
    requires !Expired(rotated.previous, rotated.now) ==> before == rotated.(now := before.now, phase := AtOwn)
    requires Expired(rotated.previous, rotated.now) ==> before.previous == None
    requires VerifyCA(w0.current, w0.now + CERT_LOOKAHEAD) ==> rotated == w0.(phase := AtOld, now := rotated.now)
    requires exists left :: PartlyRenewed(before, w, left, w0.now)
    requires ok ==> PartlyRenewed(before, w, {}, w0.now)
    ensures ok ==> Lasting(w, w0.now)
    ensures ok && w.now == w0.now ==> Settled(w)
    ensures Settled(w0) && w.now == w0.now ==> w == w0.(phase := w.phase)
    ensures Settled(w0) && w.now == w0.now ==> NoneDue(before)
  {
    if ok && w.now == w0.now {
      RenewedVerify(before, w, w0.now);
    }
    if Settled(w0) && w.now == w0.now {
      assert before == w0.(phase := AtOwn);
      assert forall s :: s in before.servers ==> DueCert(before, s) == DueCert(w0, s);
      var left :| PartlyRenewed(before, w, left, w0.now);
      NothingToRenew(before, w, left, w0.now);
    }
  }

  // ---------------------------------------------------------------- what the code goes through

  /** A step of the tick, or time going by. */
  predicate Own(step: Step) {
    (step.Cert? && !step.c.Abort?) || (step.Env? && step.e.Pass?)
  }

  ghost predicate Stepped(w: World, w': World) {
    exists step :: Own(step) && Enabled(w, step) && w' == Next(w, step)
  }

  lemma TickSteps(w: World, c: CertStep)
    requires CertEnabled(w, c) && !c.Abort?
    ensures Stepped(w, CertNext(w, c))
  {
    assert Own(Cert(c)) && Next(w, Cert(c)) == CertNext(w, c);
  }

  lemma TimeSteps(w: World, seconds: nat)
    ensures Stepped(w, w.(now := w.now + seconds))
  {
    assert Own(Env(Pass(seconds))) && Next(w, Env(Pass(seconds))) == w.(now := w.now + seconds);
  }

  /** A record of consecutive worlds that ends in `w`, each one step after the one before. */
  ghost predicate Recorded(trace: seq<World>, w: World) {
    && trace != [] && trace[|trace| - 1] == w
    && forall i :: 0 < i < |trace| ==> Stepped(trace[i - 1], trace[i])
  }

  /** One step of the tick and then some time. */
  lemma Record(trace: seq<World>, w: World, c: CertStep, seconds: nat, next: World, later: World)
    requires Recorded(trace, w) && CertEnabled(w, c) && !c.Abort? && next == CertNext(w, c)
    requires later == next.(now := next.now + seconds)
    ensures Recorded(trace + [next, later], later)
  {
    TickSteps(w, c);
    TimeSteps(next, seconds);
    RecordTwo(trace, w, next, later);
  }

  lemma RecordTwo(trace: seq<World>, w: World, next: World, later: World)
    requires Recorded(trace, w) && Stepped(w, next) && Stepped(next, later)
    ensures Recorded(trace + [next, later], later)
  {
    var longer := trace + [next, later];
    forall i | 0 < i < |longer| ensures Stepped(longer[i - 1], longer[i]) {
      assert i < |trace| ==> longer[i - 1] == trace[i - 1] && longer[i] == trace[i];
      assert i == |trace| ==> longer[i - 1] == w && longer[i] == next;
    }
  }

  lemma {:induction false} RecordedIsTrusted(trace: seq<World>, w: World, i: nat)
    requires Recorded(trace, w) && i < |trace| && TrustInv(trace[0])
    ensures TrustInv(trace[i])
  {
    if i > 0 {
      RecordedIsTrusted(trace, w, i - 1);
      assert Stepped(trace[i - 1], trace[i]);
      var step :| Own(step) && Enabled(trace[i - 1], step) && trace[i] == Next(trace[i - 1], step);
      assert Orderly(trace[i - 1], step);
      StepKeepsTrust(trace[i - 1], step);
    }
  }

  lemma AllTrusted(trace: seq<World>, w: World)
    requires Recorded(trace, w) && TrustInv(trace[0])
    ensures TrustInv(w) && forall x :: x in trace ==> TrustInv(x)
  {
    RecordedIsTrusted(trace, w, |trace| - 1);
    forall x | x in trace ensures TrustInv(x) {
      var i :| 0 <= i < |trace| && trace[i] == x;
      RecordedIsTrusted(trace, w, i);
    }
  }

  lemma GivingUp(w: World)
    requires TrustInv(w) && !w.phase.Idle?
    ensures Trusted(CertNext(w, Abort))
    ensures CanLoseTrust(CertNext(w, Abort)) <==> !Orderly(w, Cert(Abort))
  {
    StepUnsafeIffDisorderly(w, Cert(Abort));
  }

  /** All webhooks have the bundle, or all of one kind. */
  ghost predicate HaveBundle(webhooks: map<Hook, seq<Ca>>, bundle: seq<Ca>) {
    forall h :: h in webhooks ==> webhooks[h] == bundle
  }

  ghost predicate KindHasBundle(webhooks: map<Hook, seq<Ca>>, mutating: bool, bundle: seq<Ca>) {
    forall h :: h in webhooks && h.mutating == mutating ==> webhooks[h] == bundle
  }

  /** What the API server holds is one value here, replaced by each call that changes it. Time may go by
      after each call. */
  class CertReconciler {
    var world: World

    /** How many more API calls succeed before one fails. */
    var budget: nat

    /** API calls that changed something, and the worlds gone through. */
    var writes: nat
    ghost var trace: seq<World>

    ghost predicate Valid()
      reads this
    {
      Recorded(trace, world)
    }

    /** One API call. */
    method Call() returns (ok: bool)
      modifies this`budget
      ensures ok <==> old(budget) > 0
      ensures !ok ==> budget == 0
    {
      ok := budget > 0;
      if ok {
        budget := budget - 1;
      }
    }

    /** Takes one step of the state machine, and then some time. */
    method Take(c: CertStep, next: World)
      requires Valid() && CertEnabled(world, c) && !c.Abort? && next == CertNext(world, c)
      modifies this`world, this`trace
      ensures Valid() && old(trace) <= trace
      ensures world == next.(now := world.now) && next.now <= world.now
    {
      var seconds: nat :| seconds >= 0;
      var later := next.(now := next.now + seconds);
      Record(trace, world, c, seconds, next, later);
      trace := trace + [next, later];
      world := later;
    }

    /** Patches one webhook of the list. */
    method PatchHook(ghost before: World, ghost left: map<Hook, seq<Ca>>, ghost bundle: seq<Ca>, h: Hook)
      returns (ok: bool)
      requires Valid() && PartlyPatched(before, world, left, bundle) && Part(left, before.phase.todo) && h in left
      requires bundle == Bundle(before) && ListIsFresh(before)
      modifies this
      ensures Valid() && old(trace) <= trace
      ensures ok || (budget == 0 && world == old(world))
      ensures ok ==> PartlyPatched(before, world, left - {h}, bundle)
    {
      ok := Call();
      if ok {
        ghost var w := world;
        var next := CertNext(world, Patch(h));
        writes := if next.webhooks != world.webhooks then writes + 1 else writes;
        Take(Patch(h), next);
        PatchOne(before, w, left, bundle, h, world);
      }
    }

    /** Patches what has been listed, one webhook after the other. */
    method PatchListed(bundle: seq<Ca>) returns (ok: bool)
      requires Valid() && ListIsFresh(world) && bundle == Bundle(world)
      modifies this
      ensures Valid() && old(trace) <= trace && !world.phase.Idle? && old(world).now <= world.now
      ensures ok || budget == 0
      ensures ok ==> PartlyPatched(old(world), world, map[], bundle)
    {
      var left := world.phase.todo;
      ghost var before := world;
      assert world.phase == At(world.phase, world.phase.listed, left);
      while left != map[]
        invariant Valid() && old(trace) <= trace && Part(left, before.phase.todo)
        invariant PartlyPatched(before, world, left, bundle)
        decreases left.Keys
      {
        var h :| h in left;
        ok := PatchHook(before, left, bundle, h);
        if !ok {
          return;
        }
        left := left - {h};
      }
      ok := true;
    }

    /** Lists the webhooks of one kind and patches them. */
    method ReconcileKind(bundle: seq<Ca>) returns (ok: bool)
      requires Valid() && CertEnabled(world, ListHooks) && bundle == Bundle(world)
      modifies this
      ensures Valid() && old(trace) <= trace && !world.phase.Idle? && old(world).now <= world.now
      ensures ok || budget == 0
      ensures ok ==>
                && world == old(world).(webhooks := world.webhooks, now := world.now,
                                        phase := At(old(world).phase, old(world).phase.listed + 1, map[]))
                && world.webhooks.Keys == old(world).webhooks.Keys
                && KindHasBundle(world.webhooks, old(world).phase.listed == 1, bundle)
                && forall h :: h in world.webhooks && h.mutating != (old(world).phase.listed == 1) ==>
                     world.webhooks[h] == old(world).webhooks[h]
    {
      ok := Call();
      if ok {
        Take(ListHooks, CertNext(world, ListHooks));
        ok := PatchListed(bundle);
      }
    }

    /** Every webhook gets the bundle: first the validating ones, then the mutating ones. */
    method ReconcileWebhookConfigurations(bundle: seq<Ca>) returns (ok: bool)
      requires Valid() && bundle == Bundle(world) && Patching(world.phase) && world.phase == At(world.phase, 0, map[])
      modifies this
      ensures Valid() && old(trace) <= trace && !world.phase.Idle? && old(world).now <= world.now
      ensures ok || budget == 0
      ensures ok ==>
                && world == old(world).(webhooks := world.webhooks, now := world.now,
                                        phase := At(old(world).phase, 2, map[]))
                && world.webhooks.Keys == old(world).webhooks.Keys
                && HaveBundle(world.webhooks, bundle)
    {
      ok := ReconcileKind(bundle);
      if ok {
        ok := ReconcileKind(bundle);
      }
    }

    /** Replaces the CA in the secret, keeping the old one beside it. */
    method ReplaceCARoot() returns (ok: bool)
      requires Valid() && world.phase.AtCa? && !VerifyCA(world.current, world.now + CERT_LOOKAHEAD)
      modifies this
      ensures Valid() && old(trace) <= trace && old(world).now <= world.now
      ensures ok || (budget == 0 && world == old(world))
      ensures ok ==> world == old(world).(current := GenerateCA(old(world).nextId, old(world).now),
                                          nextId := old(world).nextId + 1,
                                          previous := Some(old(world).current),
                                          now := world.now,
                                          phase := AddingNew(0, map[]))
    {
      ok := Call();
      if ok {
        Take(CheckCa, world.(current := GenerateCA(world.nextId, world.now), nextId := world.nextId + 1,
                             previous := Some(world.current), phase := AddingNew(0, map[])));
        writes := writes + 1;
      }
    }

    /** Replaces the CA in the secret, keeping the old one beside it, and then adds it to every webhook. */
    method RotateCARoot() returns (ok: bool)
      requires Valid() && world.phase.AtCa? && !VerifyCA(world.current, world.now + CERT_LOOKAHEAD)
      modifies this
      ensures Valid() && old(trace) <= trace && !world.phase.Idle? && old(world).now <= world.now
      ensures ok || budget == 0
      ensures ok ==>
                && world == old(world).(current := GenerateCA(old(world).nextId, old(world).now),
                                        nextId := old(world).nextId + 1,
                                        previous := Some(old(world).current),
                                        webhooks := world.webhooks,
                                        now := world.now,
                                        phase := AtOld)
                && world.webhooks.Keys == old(world).webhooks.Keys
                && HaveBundle(world.webhooks, [world.current, old(world).current])
    {
      var oldCa := world.current;
      ok := ReplaceCARoot();
      if !ok {
        return;
      }
      ok := ReconcileWebhookConfigurations([world.current] + [oldCa]);
      if ok {
        Take(HooksPatched, world.(phase := AtOld));
      }
    }

    method ReconcileCARoot() returns (ok: bool)
      requires Valid() && world.phase.AtCa?
      modifies this
      ensures Valid() && old(trace) <= trace && !world.phase.Idle? && old(world).now <= world.now
      ensures ok || budget == 0
      ensures ok ==>
                && world.phase.AtOld? && VerifyCA(world.current, old(world).now + CERT_LOOKAHEAD)
                && world.servers == old(world).servers && world.cfg == old(world).cfg
      ensures ValidAt(old(world).current, old(world).now + 60 * 24 * 60 * 60) ==>
                ok && world == old(world).(phase := AtOld, now := world.now) && writes == old(writes)
      ensures ok && !ValidAt(old(world).current, old(world).now + 60 * 24 * 60 * 60) ==>
                && world.current == Ca(old(world).nextId, old(world).now, old(world).now + 10 * 365 * 24 * 60 * 60)
                && world.previous == Some(old(world).current)
                && world.webhooks.Keys == old(world).webhooks.Keys
                && HaveBundle(world.webhooks, [world.current, old(world).current])
    {
      if !VerifyCA(world.current, world.now + CERT_LOOKAHEAD) {
        ok := RotateCARoot();
      } else {
        Take(CheckCa, world.(phase := AtOld));
        ok := true;
      }
    }

    /** Takes the old CA out of the secret and then out of every webhook. */
    method DropOldCARoot() returns (ok: bool)
      requires Valid() && world.phase.AtOld? && Expired(world.previous, world.now)
      modifies this
      ensures Valid() && old(trace) <= trace && !world.phase.Idle? && old(world).now <= world.now
      ensures ok || budget == 0
      ensures ok ==>
                && world == old(world).(previous := None, webhooks := world.webhooks, now := world.now, phase := AtOwn)
                && world.webhooks.Keys == old(world).webhooks.Keys
                && HaveBundle(world.webhooks, [world.current])
    {
      ok := Call();
      if !ok {
        return;
      }
      Take(CheckOld, world.(previous := None, phase := DroppingOld(0, map[])));
      writes := writes + 1;
      ok := ReconcileWebhookConfigurations([world.current]);
      if ok {
        Take(HooksPatched, world.(phase := AtOwn));
      }
    }

    method ReconcileOldCARoot() returns (ok: bool)
      requires Valid() && world.phase.AtOld?
      modifies this
      ensures Valid() && old(trace) <= trace && !world.phase.Idle? && old(world).now <= world.now
      ensures ok || budget == 0
      ensures ok ==> world == old(world).(previous := world.previous, webhooks := world.webhooks, now := world.now,
                                          phase := AtOwn)
      ensures old(world).previous.None? || ValidAt(old(world).previous.value, old(world).now) ==>
                ok && world == old(world).(now := world.now, phase := AtOwn) && writes == old(writes)
      ensures ok && old(world).previous.Some? && !ValidAt(old(world).previous.value, old(world).now) ==>
                && world.previous == None
                && world.webhooks.Keys == old(world).webhooks.Keys
                && HaveBundle(world.webhooks, [world.current])
    {
      if world.previous.Some? && !VerifyCA(world.previous.value, world.now) {
        ok := DropOldCARoot();
      } else {
        Take(CheckOld, world.(phase := AtOwn));
        ok := true;
      }
    }

    /** Renews one certificate if it is due. */
    method ReconcileServerCert(s: string, c: CertStep, phase: Phase) returns (ok: bool)
      requires Valid() && CertEnabled(world, c) && s in world.servers
      requires (c.CheckOwn? && s == world.cfg.webhookSecret) || c == CheckServer(s)
      requires phase == CertNext(world, c).phase
      modifies this
      ensures Valid() && old(trace) <= trace && old(world).now <= world.now
      ensures ok || (budget == 0 && world == old(world) && writes == old(writes))
      ensures ok ==> world == old(world).(servers := old(world).servers[s := Renewed(old(world), s)],
                                          phase := phase, now := world.now)
      ensures !DueCert(old(world), s) ==> ok && writes == old(writes)
      ensures ok ==> (writes == old(writes) <==> Passes(old(world), s))
      ensures ok && !Passes(old(world), s) ==>
                world.servers[s] == Leaf(world.current, Dialled(world.cfg, s), old(world).now,
                                         old(world).now + 365 * 24 * 60 * 60)
    {
      DueIffFails(world, s);
      IssuedFor(world, 0, s, world.current);
      ok := true;
      var servers := world.servers;
      if !VerifyCert(servers[s], [world.current], DnsOf(world.cfg, s), world.now + CERT_LOOKAHEAD) {
        ok := Call();
        if !ok {
          return;
        }
        servers := servers[s := GenerateCert(world.current, world.now, DnsOf(world.cfg, s))];
        writes := writes + 1;
      }
      assert servers == world.servers[s := Renewed(world, s)];
      Take(c, world.(servers := servers, phase := phase));
    }

    /** Renews the controller's own certificate, if there is one and it is due. */
    method ReconcileOwnCert(ghost since: int) returns (ok: bool)
      requires Valid() && world.phase.AtOwn? && since <= world.now && since + CERT_LOOKAHEAD <= world.current.notAfter
      modifies this
      ensures Valid() && old(trace) <= trace && !world.phase.Idle?
      ensures ok || budget == 0 || !HasOwn(old(world))
      ensures ok ==> world.phase.Listing?
      ensures ok ==> PartlyRenewed(old(world), world, world.servers.Keys - {world.cfg.webhookSecret}, since)
      ensures !ok ==> world == old(world)
      ensures NoneDue(old(world)) ==> writes == old(writes)
    {
      ok := Call();
      if !ok {
        return;
      }
      ghost var before := world;
      var own := world.cfg.webhookSecret;
      if own !in world.servers {
        return false;
      }
      assert PartlyRenewed(before, before, before.servers.Keys, since);
      ok := ReconcileServerCert(own, CheckOwn, Listing);
      if ok {
        RenewOne(before, before, before.servers.Keys, since, own, world);
      }
    }

    /** Renews the certificates of the listed policy servers that are due. */
    method RenewListed(ghost before: World, ghost since: int) returns (ok: bool)
      requires Valid() && world.phase.AtServers? && world.phase.left <= world.servers.Keys
      requires since + CERT_LOOKAHEAD <= before.current.notAfter
      requires PartlyRenewed(before, world, world.phase.left, since)
      modifies this
      ensures Valid() && old(trace) <= trace && world.phase.AtServers?
      ensures ok || budget == 0
      ensures PartlyRenewed(before, world, world.phase.left, since)
      ensures ok ==> world.phase.left == {}
      ensures NoneDue(before) && world.now == before.now ==> writes == old(writes)
    {
      var left := world.phase.left;
      while left != {}
        invariant Valid() && old(trace) <= trace && world.phase == AtServers(left) && left <= world.servers.Keys
        invariant PartlyRenewed(before, world, left, since)
        invariant NoneDue(before) && world.now == before.now ==> writes == old(writes)
        decreases left
      {
        var s :| s in left;
        ghost var w := world;
        ok := ReconcileServerCert(s, CheckServer(s), AtServers(left - {s}));
        if !ok {
          return;
        }
        RenewOne(before, w, left, since, s, world);
        left := left - {s};
      }
      ok := true;
    }

    /** Renews every certificate that is due. */
    method ReconcileServerCerts(ghost since: int) returns (ok: bool)
      requires Valid() && world.phase.AtOwn? && since <= world.now && since + CERT_LOOKAHEAD <= world.current.notAfter
      modifies this
      ensures Valid() && old(trace) <= trace && !world.phase.Idle?
      ensures ok || budget == 0 || !HasOwn(old(world))
      ensures exists left :: PartlyRenewed(old(world), world, left, since)
      ensures ok ==> world.phase == AtServers({}) && PartlyRenewed(old(world), world, {}, since)
      ensures NoneDue(old(world)) && world.now == old(world).now ==> writes == old(writes)
    {
      ghost var before := world;
      assert PartlyRenewed(before, before, before.servers.Keys, since);
      ok := ReconcileOwnCert(since);
      if !ok {
        return;
      }
      ok := Call();
      if !ok {
        return;
      }
      Take(ListServers, CertNext(world, ListServers));
      assert PartlyRenewed(before, world, world.phase.left, since);
      ok := RenewListed(before, since);
    }

    /** The body of a tick, up to its last certificate or its first failure. */
    method ReconcileAll() returns (ok: bool)
      requires Valid() && world.phase.AtCa?
      modifies this
      ensures Valid() && old(trace) <= trace && !world.phase.Idle? && old(world).now <= world.now
      ensures ok || budget == 0 || !HasOwn(old(world))
      ensures ok ==> world.phase == AtServers({}) && Lasting(world, old(world).now)
      ensures ok && world.now == old(world).now ==> Settled(world)
      ensures Settled(old(world)) && world.now == old(world).now ==>
                world == old(world).(phase := world.phase) && writes == old(writes)
    {
      ok := Call();
      if !ok {
        return;
      }
      ok := ReconcileCARoot();
      if !ok {
        return;
      }
      ghost var rotated := world;
      ok := ReconcileOldCARoot();
      if !ok {
        return;
      }
      ghost var before := world;
      ok := ReconcileServerCerts(old(world).now);
      AllInOrder(old(world), rotated, before, world, ok);
    }

    /** A tick but for its end. */
    method BeginAndReconcile() returns (ok: bool)
      requires world.phase.Idle?
      modifies this
      ensures Valid() && trace[0] == old(world) && !world.phase.Idle? && old(world).now <= world.now
      ensures ok || budget == 0 || !HasOwn(old(world))
      ensures ok ==> world.phase == AtServers({}) && Lasting(world, old(world).now)
      ensures ok && world.now == old(world).now ==> Settled(world)
      ensures Settled(old(world)) && world.now == old(world).now ==>
                world == old(world).(phase := world.phase, start := world.start) && writes == old(writes)
    {
      trace := [world];
      Take(Begin, world.(phase := AtCa, start := world.now));
      StartDoesNotMatter(old(world), world);
      ghost var before := world;
      ok := ReconcileAll();
      if ok {
        LastsFromBefore(world, old(world).now, before.now);
      }
    }

    /** One tick, in which any API call may fail and any time may go by after each. The record holds every
        world it led through, and every webhook accepts every valid server certificate in each of them and
        afterwards. A tick that succeeds leaves a CA and certificates that last the lookahead from its
        start, and nothing due if no time went by; one that fails can be followed by a loss of trust
        exactly when giving up at that point was not orderly; and when nothing was due before and no time
        went by, nothing is written. */
    method Reconcile() returns (ok: bool)
      requires TrustInv(world) && world.phase.Idle?
      modifies this
      ensures trace != [] && trace[0] == old(world) && forall w :: w in trace ==> TrustInv(w)
      ensures world.phase.Idle? && Trusted(world) && old(world).now <= world.now
      ensures ok ==> Valid() && Lasting(world, old(world).now)
      ensures ok ==>
                forall s :: s in world.servers ==>
                  var service := if s == world.cfg.webhookSecret then world.cfg.webhookService else s;
                  world.servers[s].dns == service + "." + world.cfg.namespace + ".svc"
      ensures ok && world.now == old(world).now ==> Settled(world)
      ensures !ok ==>
                && (budget == 0 || !HasOwn(old(world)))
                && CertEnabled(trace[|trace| - 1], Abort) && world == CertNext(trace[|trace| - 1], Abort)
                && (CanLoseTrust(world) <==> !Orderly(trace[|trace| - 1], Cert(Abort)))
      ensures Settled(old(world)) && world.now == old(world).now ==>
                world == old(world).(start := world.start) && writes == old(writes)
    {
      ok := BeginAndReconcile();
      ghost var before := world;
      if ok {
        Take(Finish, world.(phase := Idle));
        PhaseDoesNotMatter(before, world, old(world).now);
        NamedAsDialled(world, old(world).now);
        AllTrusted(trace, world);
      } else {
        AllTrusted(trace, world);
        GivingUp(world);
        world := world.(phase := Idle);
      }
    }
  }
}
