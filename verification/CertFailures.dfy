/**
  The one failure a later tick does not make up for: a webhook that missed the new CA, because the
  patch failed after the secret had been updated, is not patched again until one of the two CAs comes
  due. Until then every tick finds them in order, looks no further at the webhooks, and signs every
  server certificate with the CA that the webhook does not have.
 */
module CertFailures {
  import opened CertRotation
  import opened CertTrust

  /** A check that finds a CA due, and so goes on to patch all webhooks. */
  predicate FindsDue(w: World, step: Step) {
    || (step == Cert(CheckCa) && !VerifyCA(w.current, w.now + CERT_LOOKAHEAD))
    || (step == Cert(CheckOld) && Expired(w.previous, w.now))
  }

  /** Nobody else writes the webhook `h`. */
  ghost predicate LeftAlone(worlds: seq<World>, steps: seq<Step>, h: Hook) {
    && (forall i :: 0 <= i < |worlds| ==> h in worlds[i].webhooks)
    && (forall i :: 0 <= i < |steps| ==> steps[i] != Env(WriteHook(h)))
  }

  ghost predicate FoundDue(worlds: seq<World>, steps: seq<Step>, n: nat) {
    exists i :: 0 <= i < n && i < |steps| && i < |worlds| && FindsDue(worlds[i], steps[i])
  }

  /** As it was, between or inside ticks that patch nothing. */
  predicate Unrepaired(w0: World, w: World, h: Hook) {
    && w.current == w0.current && h in w.webhooks && h in w0.webhooks && w.webhooks[h] == w0.webhooks[h]
    && !Patching(w.phase)
  }

  lemma EnvLeavesHook(w: World, e: EnvStep, h: Hook)
    requires EnvEnabled(w, e) && e != WriteHook(h) && h in w.webhooks && h in EnvNext(w, e).webhooks
    ensures var w' := EnvNext(w, e);
            && w'.current == w.current && w'.webhooks[h] == w.webhooks[h]
            && (w'.phase == w.phase || (w.phase.AtServers? && w'.phase.AtServers?))
  {
  }

  lemma CertLeavesHook(w: World, c: CertStep, h: Hook)
    requires CertEnabled(w, c) && !FindsDue(w, Cert(c)) && h in w.webhooks && !Patching(w.phase)
    ensures var w' := CertNext(w, c);
            w'.current == w.current && w'.webhooks == w.webhooks && !Patching(w'.phase)
  {
  }

  lemma StepLeavesUnrepaired(w0: World, w: World, step: Step, h: Hook)
    requires Unrepaired(w0, w, h) && Enabled(w, step) && !FindsDue(w, step)
    requires step != Env(WriteHook(h)) && h in Next(w, step).webhooks
    ensures Unrepaired(w0, Next(w, step), h)
  {
    match step
    case Env(e) => EnvLeavesHook(w, e, h);
    case Cert(c) => CertLeavesHook(w, c, h);
  }

  /** Whatever else happens, over however many ticks and however much time: as long as nobody else writes
      it and no check finds a CA due, a webhook that lacks the current CA goes on lacking it. */
  lemma {:induction false} MissedPatchIsNotRetried(worlds: seq<World>, steps: seq<Step>, i: nat, h: Hook)
    requires IsRun(worlds, steps) && i < |worlds| && LeftAlone(worlds, steps, h)
    requires worlds[0].phase.Idle? && !Knows(worlds[0], h) && !FoundDue(worlds, steps, i)
    ensures Unrepaired(worlds[0], worlds[i], h) && !Knows(worlds[i], h)
  {
    if i > 0 {
      MissedPatchIsNotRetried(worlds, steps, i - 1, h);
      RunStep(worlds, steps, i);
      StepLeavesUnrepaired(worlds[0], worlds[i - 1], steps[i - 1], h);
    }
  }

  // ---------------------------------------------------------------- one tick

  /** A whole tick, with whatever others do meanwhile. */
  ghost predicate IsTick(worlds: seq<World>, steps: seq<Step>) {
    && IsRun(worlds, steps) && |steps| >= 2
    && steps[0] == Cert(Begin) && steps[|steps| - 1] == Cert(Finish)
    && forall i :: 0 <= i < |steps| - 1 ==> steps[i] != Cert(Finish) && steps[i] != Cert(Abort)
  }

  /** The webhook has been patched, or is still to be patched. */
  predicate Repairing(w: World, h: Hook) {
    h in w.webhooks && !w.phase.Idle? && !w.phase.AtCa? && (Knows(w, h) || YetToPatch(w, h))
  }

  lemma CertKeepsRepairing(w: World, c: CertStep, h: Hook)
    requires CertEnabled(w, c) && c != Finish && c != Abort && h in w.webhooks
    requires Repairing(w, h) || FindsDue(w, Cert(c))
    ensures Repairing(CertNext(w, c), h)
  {
    assert w.current in Bundle(w);
  }

  lemma StepKeepsRepairing(w: World, step: Step, h: Hook)
    requires Enabled(w, step) && step != Cert(Finish) && step != Cert(Abort)
    requires step != Env(WriteHook(h)) && h in w.webhooks && h in Next(w, step).webhooks
    requires Repairing(w, h) || FindsDue(w, step)
    ensures Repairing(Next(w, step), h)
  {
    match step
    case Env(e) => EnvLeavesHook(w, e, h);
    case Cert(c) => CertKeepsRepairing(w, c, h);
  }

  /** Inside a tick: being repaired if a check has found a CA due, and otherwise as it was. */
  predicate Tracked(w0: World, w: World, h: Hook, found: bool) {
    !w.phase.Idle? && if found then Repairing(w, h) else Unrepaired(w0, w, h)
  }

  lemma EnvStaysBusy(w: World, e: EnvStep)
    requires EnvEnabled(w, e) && !w.phase.Idle?
    ensures !EnvNext(w, e).phase.Idle?
  {
  }

  lemma CertStaysBusy(w: World, c: CertStep)
    requires CertEnabled(w, c) && c != Finish && c != Abort
    ensures !CertNext(w, c).phase.Idle?
  {
    match c
    case Begin =>
    case CheckCa =>
    case ListHooks =>
    case Patch(_) =>
    case HooksPatched =>
    case CheckOld =>
    case CheckOwn =>
    case ListServers =>
    case CheckServer(_) =>
  }

  lemma OnlyEndsMakeIdle(w: World, step: Step)
    requires Enabled(w, step) && step != Cert(Finish) && step != Cert(Abort) && !w.phase.Idle?
    ensures !Next(w, step).phase.Idle?
  {
    match step
    case Env(e) => EnvStaysBusy(w, e);
    case Cert(c) => CertStaysBusy(w, c);
  }

  lemma StepIsTracked(w0: World, w: World, step: Step, h: Hook, found: bool)
    requires Enabled(w, step) && step != Cert(Finish) && step != Cert(Abort) && step != Env(WriteHook(h))
    requires Tracked(w0, w, h, found) && h in w.webhooks && h in Next(w, step).webhooks
    ensures Tracked(w0, Next(w, step), h, found || FindsDue(w, step))
  {
    OnlyEndsMakeIdle(w, step);
    if found || FindsDue(w, step) {
      StepKeepsRepairing(w, step, h);
    } else {
      StepLeavesUnrepaired(w0, w, step, h);
    }
  }

  lemma FoundGrows(worlds: seq<World>, steps: seq<Step>, i: nat)
    requires 0 < i <= |steps| && i <= |worlds|
    ensures FoundDue(worlds, steps, i) <==> FoundDue(worlds, steps, i - 1) || FindsDue(worlds[i - 1], steps[i - 1])
  {
  }

  lemma RunStep(worlds: seq<World>, steps: seq<Step>, i: nat)
    requires IsRun(worlds, steps) && 0 < i <= |steps|
    ensures Enabled(worlds[i - 1], steps[i - 1]) && worlds[i] == Next(worlds[i - 1], steps[i - 1])
  {
  }

  /** Before the end of a tick the webhook is being repaired exactly if a check has found a CA due. */
  lemma {:induction false} TickSoFar(worlds: seq<World>, steps: seq<Step>, i: nat, h: Hook)
    requires IsTick(worlds, steps) && 0 < i < |steps| && LeftAlone(worlds, steps, h) && !Knows(worlds[0], h)
    ensures Tracked(worlds[0], worlds[i], h, FoundDue(worlds, steps, i))
  {
    RunStep(worlds, steps, i);
    FoundGrows(worlds, steps, i);
    if i == 1 {
      assert !FoundDue(worlds, steps, 0) && steps[0] == Cert(Begin);
    } else {
      TickSoFar(worlds, steps, i - 1, h);
      StepIsTracked(worlds[0], worlds[i - 1], steps[i - 1], h, FoundDue(worlds, steps, i - 1));
    }
  }

  /** What the tick has looked at so far is from the current CA. */
  ghost predicate Reissued(w: World) {
    match w.phase
    case Listing => HasOwn(w) ==> w.servers[w.cfg.webhookSecret].issuer == w.current
    case AtServers(left) => forall s :: s in w.servers && s !in left ==> w.servers[s].issuer == w.current
    case _ => true
  }

  /** No policy server reconcile signs with a CA that is not current any more. */
  predicate NotStale(w: World, step: Step) {
    step.Env? && step.e.WriteServer? && step.e.s in w.serverReads ==> w.serverReads[step.e.s] == w.current
  }

  lemma EnvKeepsReissued(w: World, e: EnvStep)
    requires Reissued(w) && EnvEnabled(w, e) && NotStale(w, Env(e))
    ensures Reissued(EnvNext(w, e))
  {
  }

  lemma CertKeepsReissued(w: World, c: CertStep)
    requires Reissued(w) && CertEnabled(w, c)
    ensures Reissued(CertNext(w, c))
  {
  }

  lemma StepKeepsReissued(w: World, step: Step)
    requires Reissued(w) && Enabled(w, step) && NotStale(w, step)
    ensures Reissued(Next(w, step))
  {
    match step
    case Env(e) => EnvKeepsReissued(w, e);
    case Cert(c) => CertKeepsReissued(w, c);
  }

  lemma {:induction false} TickReissues(worlds: seq<World>, steps: seq<Step>, i: nat)
    requires IsTick(worlds, steps) && i < |steps| && forall k :: 0 <= k < |steps| ==> NotStale(worlds[k], steps[k])
    ensures Reissued(worlds[i])
  {
    if i == 0 {
      assert CertEnabled(worlds[0], Begin);
    } else {
      TickReissues(worlds, steps, i - 1);
      RunStep(worlds, steps, i);
      StepKeepsReissued(worlds[i - 1], steps[i - 1]);
    }
  }

  lemma LastStep(worlds: seq<World>, steps: seq<Step>)
    requires IsTick(worlds, steps)
    ensures var w := worlds[|steps| - 1]; w.phase == AtServers({}) && worlds[|steps|] == w.(phase := Idle)
  {
    RunStep(worlds, steps, |steps|);
  }

  /** A tick repairs a webhook that missed the current CA if and only if it finds the CA or the previous one
      due. If it does not, and nobody signed with an older CA meanwhile, the webhook refuses every valid
      server certificate afterwards. */
  lemma TickRepairsIffDue(worlds: seq<World>, steps: seq<Step>, h: Hook)
    requires IsTick(worlds, steps) && LeftAlone(worlds, steps, h) && !Knows(worlds[0], h)
    ensures Knows(worlds[|steps|], h) <==> FoundDue(worlds, steps, |steps|)
    ensures var w := worlds[|steps|];
            !Knows(w, h) && (forall k :: 0 <= k < |steps| ==> NotStale(worlds[k], steps[k])) ==>
              forall s :: s in w.servers ==>
                (Covers(w.webhooks[h], w.servers[s], w.now, Dialled(w.cfg, s)) <==> !ChainValid(w.servers[s], w.now))
  {
    var last := |steps| - 1;
    LastStep(worlds, steps);
    TickSoFar(worlds, steps, last, h);
    FoundGrows(worlds, steps, |steps|);
    if forall k :: 0 <= k < |steps| ==> NotStale(worlds[k], steps[k]) {
      TickReissues(worlds, steps, last);
    }
  }
}
