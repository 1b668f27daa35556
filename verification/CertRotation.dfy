/**
  Certificates. One CA signs the certificates of all servers; every webhook carries a bundle of the
  CAs the API server is to accept. A periodic reconcile replaces what is about to expire, one API
  write at a time, while servers pick up new certificates and other controllers write webhooks and
  secrets whenever they like. Each write is one step here.

  A certificate is reduced to its issuer, name and validity window (section 4.1.2.5 of RFC 5280);
  time is in seconds.
 */
module CertRotation {
  import opened Wrappers

  const HOUR := 60 * 60
  const DAY := 24 * HOUR
  const TICKER_DURATION := 12 * HOUR
  const CERT_LOOKAHEAD := 60 * DAY
  const CA_CERT_EXPIRATION := 10 * 365 * DAY
  const SERVER_CERT_EXPIRATION := 365 * DAY

  datatype Ca = Ca(id: nat, notBefore: int, notAfter: int)

  datatype Leaf = Leaf(issuer: Ca, dns: string, notBefore: int, notAfter: int)

  function GenerateCA(id: nat, now: int): Ca {
    Ca(id, now, now + CA_CERT_EXPIRATION)
  }

  function GenerateCert(ca: Ca, now: int, dns: string): Leaf {
    Leaf(ca, dns, now, now + SERVER_CERT_EXPIRATION)
  }

  predicate VerifyCA(ca: Ca, at: int) {
    ca.notBefore <= at <= ca.notAfter
  }

  /** Both ends of the chain have to be valid at the time asked about. */
  predicate ChainValid(leaf: Leaf, at: int) {
    leaf.notBefore <= at <= leaf.notAfter && VerifyCA(leaf.issuer, at)
  }

  predicate VerifyCert(leaf: Leaf, pool: seq<Ca>, dns: string, at: int) {
    leaf.issuer in pool && leaf.dns == dns && ChainValid(leaf, at)
  }

  /** The secrets are named after the service they are for, except the controller's own. */
  datatype Config = Config(namespace: string, webhookService: string, webhookSecret: string)

  function DnsName(service: string, namespace: string): string {
    service + "." + namespace + ".svc"
  }

  function DnsOf(cfg: Config, secret: string): string {
    DnsName(if secret == cfg.webhookSecret then cfg.webhookService else secret, cfg.namespace)
  }

  /** Validating and mutating webhook configurations are listed, and patched, one kind after the other. */
  datatype Hook = Hook(name: string, mutating: bool)

  /** How far the running cert reconcile has got. While it patches webhooks, `listed` kinds have been listed
      and `todo` is what is left of the last list, with the bundles as they were then; while it checks policy
      servers, `left` is what is left of theirs. */
  datatype Phase =
    | Idle
    | AtCa
    | AddingNew(listed: nat, todo: map<Hook, seq<Ca>>)
    | AtOld
    | DroppingOld(listed: nat, todo: map<Hook, seq<Ca>>)
    | AtOwn
    | Listing
    | AtServers(left: set<string>)

  /** The last two maps hold the CA that a reconcile of a policy or of a policy server has read and not yet
      put to use. */
  datatype World = World(
    cfg: Config,
    now: int,
    nextId: nat,
    current: Ca,
    previous: Option<Ca>,
    webhooks: map<Hook, seq<Ca>>,
    servers: map<string, Leaf>,
    inUse: map<string, Leaf>,
    phase: Phase,
    start: int,
    hookReads: map<Hook, Ca>,
    serverReads: map<string, Ca>
  )

  /** Everyone else: time, the servers, and the policy and policy server controllers. */
  datatype EnvStep =
    | Pass(seconds: nat)
    | Reload(s: string)
    | ReadForHook(h: Hook)
    | WriteHook(h: Hook)
    | DeleteHook(h: Hook)
    | ReadForServer(s: string)
    | WriteServer(s: string)
    | DeleteServer(s: string)

  /** The cert reconcile; `Abort` is giving up, because an API call failed or an object is missing. */
  datatype CertStep =
    | Begin
    | CheckCa
    | ListHooks
    | Patch(h: Hook)
    | HooksPatched
    | CheckOld
    | CheckOwn
    | ListServers
    | CheckServer(s: string)
    | Finish
    | Abort

  datatype Step = Env(e: EnvStep) | Cert(c: CertStep)

  predicate EnvEnabled(w: World, e: EnvStep) {
    match e
    case Pass(_) => true
    case Reload(s) => s in w.servers
    case ReadForHook(_) => true
    case WriteHook(h) => h in w.hookReads
    case DeleteHook(h) => h in w.webhooks
    case ReadForServer(s) => s != w.cfg.webhookSecret
    case WriteServer(s) => s in w.serverReads && s != w.cfg.webhookSecret
    case DeleteServer(s) => s in w.servers
  }

  /** A list of server secrets that still holds `s` can no longer do anything with it. */
  function Forgets(phase: Phase, s: string): Phase {
    if phase.AtServers? then AtServers(phase.left - {s}) else phase
  }

  /** A policy reconcile writes the CA it has read, alone; a policy server reconcile signs with the one it has
      read, unless there is a certificate already. */
  function EnvNext(w: World, e: EnvStep): World
    requires EnvEnabled(w, e)
  {
    match e
    case Pass(seconds) => w.(now := w.now + seconds)
    case Reload(s) => w.(inUse := w.inUse[s := w.servers[s]])
    case ReadForHook(h) => w.(hookReads := w.hookReads[h := w.current])
    case WriteHook(h) => w.(webhooks := w.webhooks[h := [w.hookReads[h]]], hookReads := w.hookReads - {h})
    case DeleteHook(h) => w.(webhooks := w.webhooks - {h})
    case ReadForServer(s) => w.(serverReads := w.serverReads[s := w.current])
    case WriteServer(s) =>
      w.(serverReads := w.serverReads - {s},
         servers := if s in w.servers then w.servers else w.servers[s := Signed(w, s)])
    case DeleteServer(s) =>
      w.(servers := w.servers - {s}, inUse := w.inUse - {s}, phase := Forgets(w.phase, s))
  }

  /** The certificate a policy server reconcile issues. */
  function Signed(w: World, s: string): Leaf
    requires s in w.serverReads
  {
    GenerateCert(w.serverReads[s], w.now, DnsOf(w.cfg, s))
  }

  predicate Patching(phase: Phase) {
    phase.AddingNew? || phase.DroppingOld?
  }

  function At(phase: Phase, listed: nat, todo: map<Hook, seq<Ca>>): Phase {
    if phase.AddingNew? then AddingNew(listed, todo) else DroppingOld(listed, todo)
  }

  /** What the running loop writes into each webhook. */
  function Bundle(w: World): seq<Ca> {
    [w.current] + if w.phase.AddingNew? && w.previous.Some? then [w.previous.value] else []
  }

  /** A webhook deleted since it was listed cannot be patched, nor can the controller's own certificate be
      checked once it is gone: that leaves nothing but giving up. */
  predicate CertEnabled(w: World, c: CertStep) {
    match c
    case Begin => w.phase.Idle?
    case CheckCa => w.phase.AtCa?
    case ListHooks => Patching(w.phase) && w.phase.todo == map[] && w.phase.listed < 2
    case Patch(h) => Patching(w.phase) && h in w.phase.todo && h in w.webhooks
    case HooksPatched => Patching(w.phase) && w.phase.todo == map[] && w.phase.listed == 2
    case CheckOld => w.phase.AtOld?
    case CheckOwn => w.phase.AtOwn? && w.cfg.webhookSecret in w.servers
    case ListServers => w.phase.Listing?
    case CheckServer(s) => w.phase.AtServers? && s in w.phase.left && s in w.servers
    case Finish => w.phase == AtServers({})
    case Abort => !w.phase.Idle?
  }

  function OfKind(w: World, mutating: bool): map<Hook, seq<Ca>> {
    map h | h in w.webhooks && h.mutating == mutating :: w.webhooks[h]
  }

  /** A patch is the difference to the listed copy: there is none if that had the bundle already. */
  function Patched(w: World, h: Hook): map<Hook, seq<Ca>>
    requires Patching(w.phase) && h in w.phase.todo
  {
    if w.phase.todo[h] == Bundle(w) then w.webhooks else w.webhooks[h := Bundle(w)]
  }

  function Rechecked(w: World, s: string): map<string, Leaf>
    requires s in w.servers
  {
    if VerifyCert(w.servers[s], [w.current], DnsOf(w.cfg, s), w.now + CERT_LOOKAHEAD) then w.servers
    else w.servers[s := GenerateCert(w.current, w.now, DnsOf(w.cfg, s))]
  }

  function CertNext(w: World, c: CertStep): World
    requires CertEnabled(w, c)
  {
    match c
    case Begin => w.(phase := AtCa, start := w.now)
    case CheckCa =>
      if VerifyCA(w.current, w.now + CERT_LOOKAHEAD) then w.(phase := AtOld)
      else w.(current := GenerateCA(w.nextId, w.now), nextId := w.nextId + 1, previous := Some(w.current),
              phase := AddingNew(0, map[]))
    case ListHooks => w.(phase := At(w.phase, w.phase.listed + 1, OfKind(w, w.phase.listed == 1)))
    case Patch(h) =>
      w.(webhooks := Patched(w, h), phase := At(w.phase, w.phase.listed, w.phase.todo - {h}))
    case HooksPatched => w.(phase := if w.phase.AddingNew? then AtOld else AtOwn)
    case CheckOld =>
      if w.previous.Some? && !VerifyCA(w.previous.value, w.now) then
        w.(previous := None, phase := DroppingOld(0, map[]))
      else w.(phase := AtOwn)
    case CheckOwn => w.(servers := Rechecked(w, w.cfg.webhookSecret), phase := Listing)
    case ListServers => w.(phase := AtServers(w.servers.Keys - {w.cfg.webhookSecret}))
    case CheckServer(s) => w.(servers := Rechecked(w, s), phase := AtServers(w.phase.left - {s}))
    case Finish => w.(phase := Idle)
    case Abort => w.(phase := Idle)
  }

  predicate Enabled(w: World, step: Step) {
    match step
    case Env(e) => EnvEnabled(w, e)
    case Cert(c) => CertEnabled(w, c)
  }

  function Next(w: World, step: Step): World
    requires Enabled(w, step)
  {
    match step
    case Env(e) => EnvNext(w, e)
    case Cert(c) => CertNext(w, c)
  }

  ghost predicate IsRun(worlds: seq<World>, steps: seq<Step>) {
    && |worlds| == |steps| + 1
    && forall i :: 0 <= i < |steps| ==> Enabled(worlds[i], steps[i]) && worlds[i + 1] == Next(worlds[i], steps[i])
  }

  lemma Prepend(w: World, step: Step, worlds: seq<World>, steps: seq<Step>)
    requires IsRun(worlds, steps) && Enabled(w, step) && worlds[0] == Next(w, step)
    ensures IsRun([w] + worlds, [step] + steps)
  {
    var worlds', steps' := [w] + worlds, [step] + steps;
    forall i | 0 <= i < |steps'|
      ensures Enabled(worlds'[i], steps'[i]) && worlds'[i + 1] == Next(worlds'[i], steps'[i])
    {
      assert i > 0 ==> worlds'[i] == worlds[i - 1] && steps'[i] == steps[i - 1];
    }
  }

  lemma Append(worlds: seq<World>, steps: seq<Step>, step: Step, w: World)
    requires IsRun(worlds, steps) && Enabled(worlds[|steps|], step) && w == Next(worlds[|steps|], step)
    ensures IsRun(worlds + [w], steps + [step])
  {
    var worlds', steps' := worlds + [w], steps + [step];
    forall i | 0 <= i < |steps'|
      ensures Enabled(worlds'[i], steps'[i]) && worlds'[i + 1] == Next(worlds'[i], steps'[i])
    {
      assert worlds'[i] == worlds[i] && steps'[i] == if i < |steps| then steps[i] else step;
    }
  }
}
