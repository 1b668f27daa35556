/**
  No certificate comes close to expiring: with a reconcile at least every 12 hours, everything in the
  secrets keeps almost the whole 60 days of lookahead ahead of it. What can spoil it is a policy server
  reconcile that signs with a CA it has read before a rotation.
 */
module CertMargin {
  import opened CertRotation

  predicate HoldsUntil(leaf: Leaf, t: int) {
    t <= leaf.notAfter && t <= leaf.issuer.notAfter
  }

  /** The last tick has vouched for the certificate of `s`, or would have if it had been there. */
  predicate Vouched(w: World, s: string) {
    match w.phase
    case Idle => true
    case Listing => s == w.cfg.webhookSecret
    case AtServers(left) => s !in left
    case _ => false
  }

  /** The time from which the certificate of `s` has to last the lookahead: the start of the last tick that
      vouched for it, or the earliest time at which the tick before can have started. */
  function Since(w: World, s: string): int {
    if Vouched(w, s) then w.start else w.start - TICKER_DURATION
  }

  /** Ticks start on time, take at most `maxRun` seconds and succeed, and no certificate is signed with a CA
      that is going to expire too early. */
  predicate Punctual(w: World, step: Step, maxRun: nat) {
    match step
    case Env(Pass(seconds)) => w.now + seconds <= w.start + if w.phase.Idle? then TICKER_DURATION else maxRun
    case Env(WriteServer(s)) =>
      s in w.serverReads && s !in w.servers ==> Since(w, s) + CERT_LOOKAHEAD <= w.serverReads[s].notAfter
    case Cert(Abort) => false
    case _ => true
  }

  predicate OnTime(w: World, maxRun: nat) {
    && w.start <= w.now <= w.start + (if w.phase.Idle? then TICKER_DURATION else maxRun)
    && (w.phase.AtServers? ==> w.phase.left <= w.servers.Keys)
  }

  ghost predicate MarginInv(w: World, maxRun: nat) {
    && OnTime(w, maxRun)
    && (if w.phase.AtCa? then w.start - TICKER_DURATION else w.start) + CERT_LOOKAHEAD <= w.current.notAfter
    && forall s :: s in w.servers ==> HoldsUntil(w.servers[s], Since(w, s) + CERT_LOOKAHEAD)
  }

  /** The CA and every server's chain have at least 60 days minus 12 hours left, less the time one tick may
      take. */
  ghost predicate FarFromExpiry(w: World, maxRun: nat) {
    var t := w.now + (60 * 24 - 12) * 60 * 60 - maxRun;
    t <= w.current.notAfter && forall s :: s in w.servers ==> HoldsUntil(w.servers[s], t)
  }

  lemma EnvKeepsMargin(w: World, e: EnvStep, maxRun: nat)
    requires MarginInv(w, maxRun) && EnvEnabled(w, e) && Punctual(w, Env(e), maxRun)
    ensures MarginInv(EnvNext(w, e), maxRun)
  {
    var w' := EnvNext(w, e);
    forall s | s in w'.servers ensures HoldsUntil(w'.servers[s], Since(w', s) + CERT_LOOKAHEAD) {
      assert s in w.servers ==> HoldsUntil(w.servers[s], Since(w, s) + CERT_LOOKAHEAD);
    }
  }

  /** A check vouches for a certificate, or replaces it by one from the current CA. */
  lemma CheckVouches(w: World, maxRun: nat, r: string, s: string)
    requires MarginInv(w, maxRun) && r in w.servers && s in w.servers && !w.phase.AtCa?
    ensures s in Rechecked(w, r)
    ensures HoldsUntil(Rechecked(w, r)[s], (if s == r then w.start else Since(w, s)) + CERT_LOOKAHEAD)
  {
    assert HoldsUntil(w.servers[s], Since(w, s) + CERT_LOOKAHEAD);
  }

  predicate ChecksOne(c: CertStep) {
    c.CheckOwn? || c.CheckServer?
  }

  lemma CheckKeepsServers(w: World, c: CertStep, maxRun: nat)
    requires MarginInv(w, maxRun) && CertEnabled(w, c) && ChecksOne(c)
    ensures var w' := CertNext(w, c);
            forall s :: s in w'.servers ==> HoldsUntil(w'.servers[s], Since(w', s) + CERT_LOOKAHEAD)
  {
    var w', r := CertNext(w, c), if c.CheckOwn? then w.cfg.webhookSecret else c.s;
    assert w'.servers == Rechecked(w, r);
    forall s | s in w'.servers ensures HoldsUntil(w'.servers[s], Since(w', s) + CERT_LOOKAHEAD) {
      CheckVouches(w, maxRun, r, s);
    }
  }

  lemma OthersKeepServers(w: World, c: CertStep)
    requires CertEnabled(w, c) && !ChecksOne(c)
    ensures CertNext(w, c).servers == w.servers
  {
  }

  /** No other step vouches for anything. */
  lemma OthersDoNotVouch(w: World, c: CertStep, maxRun: nat, s: string)
    requires OnTime(w, maxRun) && CertEnabled(w, c) && s in w.servers && !ChecksOne(c) && !c.Abort?
    ensures Since(CertNext(w, c), s) <= Since(w, s)
  {
    if c.Begin? {
      assert CertNext(w, c).start <= w.start + TICKER_DURATION;
    } else {
      assert CertNext(w, c).start == w.start;
      assert Vouched(CertNext(w, c), s) ==> Vouched(w, s);
    }
  }

  lemma CertKeepsServers(w: World, c: CertStep, maxRun: nat)
    requires MarginInv(w, maxRun) && CertEnabled(w, c) && !c.Abort?
    ensures var w' := CertNext(w, c);
            forall s :: s in w'.servers ==> HoldsUntil(w'.servers[s], Since(w', s) + CERT_LOOKAHEAD)
  {
    if ChecksOne(c) {
      CheckKeepsServers(w, c, maxRun);
    } else {
      OthersKeepServers(w, c);
      forall s | s in w.servers ensures HoldsUntil(w.servers[s], Since(CertNext(w, c), s) + CERT_LOOKAHEAD) {
        OthersDoNotVouch(w, c, maxRun, s);
      }
    }
  }

  lemma CertLeavesClock(w: World, c: CertStep)
    requires CertEnabled(w, c)
    ensures CertNext(w, c).now == w.now
    ensures CertNext(w, c).start == if c.Begin? then w.now else w.start
  {
  }

  lemma CertKeepsTime(w: World, c: CertStep, maxRun: nat)
    requires OnTime(w, maxRun) && CertEnabled(w, c) && !c.Abort? && maxRun <= TICKER_DURATION
    ensures OnTime(CertNext(w, c), maxRun)
  {
    CertLeavesClock(w, c);
  }

  lemma CertKeepsCa(w: World, c: CertStep, maxRun: nat)
    requires MarginInv(w, maxRun) && CertEnabled(w, c) && !c.Abort?
    ensures var w' := CertNext(w, c);
            (if w'.phase.AtCa? then w'.start - TICKER_DURATION else w'.start) + CERT_LOOKAHEAD <= w'.current.notAfter
  {
    CertLeavesClock(w, c);
    assert c.CheckCa? || CertNext(w, c).current == w.current;
  }

  lemma CertKeepsMargin(w: World, c: CertStep, maxRun: nat)
    requires MarginInv(w, maxRun) && CertEnabled(w, c) && !c.Abort? && maxRun <= TICKER_DURATION
    ensures MarginInv(CertNext(w, c), maxRun)
  {
    CertKeepsTime(w, c, maxRun);
    CertKeepsCa(w, c, maxRun);
    CertKeepsServers(w, c, maxRun);
  }

  ghost predicate IsPunctualRun(worlds: seq<World>, steps: seq<Step>, maxRun: nat) {
    IsRun(worlds, steps) && forall i :: 0 <= i < |steps| ==> Punctual(worlds[i], steps[i], maxRun)
  }

  lemma {:induction false} RunKeepsMargin(worlds: seq<World>, steps: seq<Step>, i: nat, maxRun: nat)
    requires IsPunctualRun(worlds, steps, maxRun) && i < |worlds| && maxRun <= TICKER_DURATION
    requires MarginInv(worlds[0], maxRun)
    ensures MarginInv(worlds[i], maxRun)
  {
    if i > 0 {
      RunKeepsMargin(worlds, steps, i - 1, maxRun);
      match steps[i - 1]
      case Env(e) => EnvKeepsMargin(worlds[i - 1], e, maxRun);
      case Cert(c) => CertKeepsMargin(worlds[i - 1], c, maxRun);
    }
  }

  lemma MarginIsFar(w: World, maxRun: nat)
    requires MarginInv(w, maxRun)
    ensures FarFromExpiry(w, maxRun)
  {
    forall s | s in w.servers
      ensures HoldsUntil(w.servers[s], w.now + (60 * 24 - 12) * 60 * 60 - maxRun)
    {
      assert HoldsUntil(w.servers[s], Since(w, s) + CERT_LOOKAHEAD);
    }
  }

  /** At every instant of every punctual run that starts with everything valid past the lookahead, the CA
      and every server's chain, certificates issued between ticks included, are far from expiry. */
  lemma AlwaysFarFromExpiry(worlds: seq<World>, steps: seq<Step>, i: nat, maxRun: nat)
    requires IsPunctualRun(worlds, steps, maxRun) && i < |worlds| && maxRun <= TICKER_DURATION
    requires worlds[0].phase.Idle? && worlds[0].start == worlds[0].now
    requires worlds[0].now + CERT_LOOKAHEAD <= worlds[0].current.notAfter
    requires forall s :: s in worlds[0].servers ==> HoldsUntil(worlds[0].servers[s], worlds[0].now + CERT_LOOKAHEAD)
    ensures FarFromExpiry(worlds[i], maxRun)
  {
    RunKeepsMargin(worlds, steps, i, maxRun);
    MarginIsFar(worlds[i], maxRun);
  }

  // ---------------------------------------------------------------- the condition on signing is exact

  /** Punctual steps can lead from here to a certificate too close to expiry. */
  ghost predicate CanFallShort(w: World, maxRun: nat) {
    exists worlds, steps ::
      IsPunctualRun(worlds, steps, maxRun) && worlds[0] == w && !FarFromExpiry(worlds[|steps|], maxRun)
  }

  lemma NowShort(w: World, maxRun: nat)
    requires !FarFromExpiry(w, maxRun)
    ensures CanFallShort(w, maxRun)
  {
    assert IsPunctualRun([w], [], maxRun);
  }

  lemma PrependPunctual(w: World, step: Step, worlds: seq<World>, steps: seq<Step>, maxRun: nat)
    requires IsPunctualRun(worlds, steps, maxRun) && Enabled(w, step) && Punctual(w, step, maxRun)
    requires worlds[0] == Next(w, step)
    ensures IsPunctualRun([w] + worlds, [step] + steps, maxRun)
  {
    var worlds', steps' := [w] + worlds, [step] + steps;
    Prepend(w, step, worlds, steps);
    forall i | 0 <= i < |steps'| ensures Punctual(worlds'[i], steps'[i], maxRun) {
      if i > 0 {
        assert worlds'[i] == worlds[i - 1] && steps'[i] == steps[i - 1];
        assert Punctual(worlds[i - 1], steps[i - 1], maxRun);
      }
    }
  }

  lemma Earlier(w: World, step: Step, maxRun: nat)
    requires Enabled(w, step) && Punctual(w, step, maxRun) && CanFallShort(Next(w, step), maxRun)
    ensures CanFallShort(w, maxRun)
  {
    var worlds, steps :|
      IsPunctualRun(worlds, steps, maxRun) && worlds[0] == Next(w, step) && !FarFromExpiry(worlds[|steps|], maxRun);
    PrependPunctual(w, step, worlds, steps, maxRun);
    assert ([w] + worlds)[|steps| + 1] == worlds[|steps|];
  }

  /** The certificate of `s` is from a CA that does not last. */
  predicate Late(w: World, s: string, maxRun: nat) {
    && OnTime(w, maxRun) && s in w.servers
    && w.servers[s].issuer.notAfter < Since(w, s) + CERT_LOOKAHEAD
  }

  /** The longest wait, if the tick has yet to vouch for it. */
  lemma UnvouchedFallsShort(w: World, s: string, maxRun: nat)
    requires Late(w, s, maxRun) && !Vouched(w, s)
    ensures CanFallShort(w, maxRun)
  {
    var pass := Env(Pass(w.start + maxRun - w.now));
    assert !HoldsUntil(Next(w, pass).servers[s], w.start + CERT_LOOKAHEAD - TICKER_DURATION);
    NowShort(Next(w, pass), maxRun);
    Earlier(w, pass, maxRun);
  }

  lemma BeginningFallsShort(w: World, s: string, maxRun: nat)
    requires Late(w, s, maxRun) && w.phase.Idle? && w.now == w.start + TICKER_DURATION
    ensures CanFallShort(w, maxRun)
  {
    UnvouchedFallsShort(Next(w, Cert(Begin)), s, maxRun);
    Earlier(w, Cert(Begin), maxRun);
  }

  lemma IdleFallsShort(w: World, s: string, maxRun: nat)
    requires Late(w, s, maxRun) && w.phase.Idle?
    ensures CanFallShort(w, maxRun)
  {
    var pass := Env(Pass(w.start + TICKER_DURATION - w.now));
    BeginningFallsShort(Next(w, pass), s, maxRun);
    Earlier(w, pass, maxRun);
  }

  /** A tick that is past it goes on to its end and does not come back to it. */
  lemma {:induction false} PassedOverFallsShort(w: World, s: string, maxRun: nat)
    requires Late(w, s, maxRun) && w.phase.AtServers? && s !in w.phase.left && maxRun <= TICKER_DURATION
    ensures CanFallShort(w, maxRun)
    decreases w.phase.left
  {
    if w.phase.left == {} {
      IdleFallsShort(Next(w, Cert(Finish)), s, maxRun);
      Earlier(w, Cert(Finish), maxRun);
    } else {
      var x :| x in w.phase.left;
      PassedOverFallsShort(Next(w, Cert(CheckServer(x))), s, maxRun);
      Earlier(w, Cert(CheckServer(x)), maxRun);
    }
  }

  /** Signing with the CA that was read can be followed by a certificate too close to expiry if and only if
      that CA does not last the lookahead from the time the last tick vouched for it all. */
  lemma SigningFallsShortIffLate(w: World, s: string, maxRun: nat)
    requires MarginInv(w, maxRun) && EnvEnabled(w, WriteServer(s)) && s !in w.servers && maxRun <= TICKER_DURATION
    ensures CanFallShort(EnvNext(w, WriteServer(s)), maxRun) <==>
            w.serverReads[s].notAfter < Since(w, s) + CERT_LOOKAHEAD
  {
    var w' := EnvNext(w, WriteServer(s));
    if w.serverReads[s].notAfter < Since(w, s) + CERT_LOOKAHEAD {
      assert Late(w', s, maxRun);
      if !Vouched(w', s) {
        UnvouchedFallsShort(w', s, maxRun);
      } else if w'.phase.Idle? {
        IdleFallsShort(w', s, maxRun);
      } else {
        PassedOverFallsShort(w', s, maxRun);
      }
    } else {
      EnvKeepsMargin(w, WriteServer(s), maxRun);
      forall worlds, steps | IsPunctualRun(worlds, steps, maxRun) && worlds[0] == w'
        ensures FarFromExpiry(worlds[|steps|], maxRun)
      {
        RunKeepsMargin(worlds, steps, |steps|, maxRun);
        MarginIsFar(worlds[|steps|], maxRun);
      }
    }
  }

  /** With the current CA there is never anything to fear. */
  lemma CurrentIsNeverLate(w: World, s: string, maxRun: nat)
    requires MarginInv(w, maxRun) && s != w.cfg.webhookSecret && s in w.serverReads && w.serverReads[s] == w.current
    ensures Punctual(w, Env(WriteServer(s)), maxRun)
  {
  }
}
