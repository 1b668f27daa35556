/**
  Hot reload of the TLS configuration. The policy server watches its certificate, key and client CA
  files and swaps the configuration it serves with when they change. Files change one at a time and
  may be broken when they are read; the server must never present a key that does not go with its
  certificate, nor lose a working configuration to a broken file.
 */
module TlsReload {
  import opened Wrappers

  type Certificate = string
  type Key = string
  type Verifier = string

  datatype Pair = Pair(cert: Certificate, key: Key)

  datatype Config = Config(cert: Certificate, key: Key, verifier: Option<Verifier>)

  /** inotify hands out one descriptor per watched file. */
  datatype Watches = Watches(cert: int, key: int, clientCas: seq<int>)

  datatype Event = Unreadable | Changed(wd: int)

  /** An event, and what the files hold should they be loaded because of it. */
  datatype Input = Input(event: Event, clientCa: Option<Verifier>, server: Option<Pair>)

  /** The watcher at the head of its loop, the configuration being served, and the pairs loaded so far. */
  datatype State = State(
    certChanged: bool,
    keyChanged: bool,
    cert: Certificate,
    key: Key,
    verifier: Option<Verifier>,
    served: Config,
    attempts: nat,
    loaded: seq<Pair>
  )

  type Builder = Config -> bool

  function Held(st: State): Config {
    Config(st.cert, st.key, st.verifier)
  }

  function Initial(pair: Pair, verifier: Option<Verifier>): State {
    State(false, false, pair.cert, pair.key, verifier, Config(pair.cert, pair.key, verifier), 0, [pair])
  }

  predicate IsCaEvent(w: Watches, event: Event) {
    event.Changed? && event.wd in w.clientCas
  }

  /** The flags once the event has been looked at. */
  function Noticed(st: State, w: Watches, event: Event): State {
    st.(certChanged := st.certChanged || event == Changed(w.cert),
        keyChanged := st.keyChanged || event == Changed(w.key))
  }

  function Rebuilt(st: State, builds: Builder): State {
    if builds(Held(st)) then st.(served := Held(st)) else st
  }

  function ServerReloaded(st: State, input: Input, builds: Builder): State {
    if st.certChanged && st.keyChanged then
      var cleared := st.(certChanged := false, keyChanged := false, attempts := st.attempts + 1);
      match input.server
      case None => cleared
      case Some(pair) => Rebuilt(cleared.(cert := pair.cert, key := pair.key, loaded := st.loaded + [pair]), builds)
    else Rebuilt(st, builds)
  }

  function Step(st: State, w: Watches, input: Input, builds: Builder): State {
    if input.event.Unreadable? then st
    else
      var noticed := Noticed(st, w, input.event);
      if !IsCaEvent(w, input.event) then ServerReloaded(noticed, input, builds)
      else match input.clientCa
        case None => noticed
        case Some(verifier) => ServerReloaded(noticed.(verifier := Some(verifier)), input, builds)
  }

  function After(st: State, w: Watches, inputs: seq<Input>, builds: Builder): State {
    if inputs == [] then st
    else Step(After(st, w, inputs[..|inputs| - 1], builds), w, inputs[|inputs| - 1], builds)
  }

  /** The event loop. */
  method Watch(w: Watches, pair: Pair, initialVerifier: Option<Verifier>, inputs: seq<Input>, builds: Builder)
    returns (served: Config)
    requires builds(Config(pair.cert, pair.key, initialVerifier))
    ensures var last := After(Initial(pair, initialVerifier), w, inputs, builds);
            served == last.served && builds(served) && Pair(served.cert, served.key) in last.loaded
  {
    var certChanged, keyChanged, clientCaChanged := false, false, false;
    var cert, key, verifier := pair.cert, pair.key, initialVerifier;
    served := Config(cert, key, verifier);
    ghost var start := Initial(pair, initialVerifier);
    ghost var last := start;
    var i := 0;
    while i < |inputs|
      invariant i <= |inputs| && !clientCaChanged
      invariant last == After(start, w, inputs[..i], builds)
      invariant last.certChanged == certChanged && last.keyChanged == keyChanged
      invariant Held(last) == Config(cert, key, verifier) && last.served == served
    {
      var input := inputs[i];
      i := i + 1;
      assert inputs[..i][..|inputs[..i]| - 1] == inputs[..i - 1];
      last := Step(last, w, input, builds);
      if input.event.Unreadable? {
        continue;
      }
      var wd := input.event.wd;
      if wd == w.cert {
        certChanged := true;
      }
      if wd == w.key {
        keyChanged := true;
      }
      for j := 0 to |w.clientCas|
        invariant clientCaChanged <==> wd in w.clientCas[..j]
      {
        if wd == w.clientCas[j] {
          clientCaChanged := true;
        }
      }
      assert w.clientCas[..|w.clientCas|] == w.clientCas;
      if clientCaChanged {
        clientCaChanged := false;
        if input.clientCa.None? {
          continue;
        }
        verifier := input.clientCa;
      }
      if keyChanged && certChanged {
        certChanged, keyChanged := false, false;
        if input.server.None? {
          continue;
        }
        cert, key := input.server.value.cert, input.server.value.key;
      }
      if builds(Config(cert, key, verifier)) {
        served := Config(cert, key, verifier);
      }
    }
    assert inputs[..i] == inputs;
    ServesOneLoad(pair, initialVerifier, w, inputs, builds);
  }

  // ---------------------------------------------------------------- one load, one build

  predicate FromOneLoad(st: State, cert: Certificate, key: Key) {
    Pair(cert, key) in st.loaded
  }

  ghost predicate Sound(st: State, builds: Builder) {
    FromOneLoad(st, st.cert, st.key) && FromOneLoad(st, st.served.cert, st.served.key) && builds(st.served)
  }

  lemma StepKeepsSound(st: State, w: Watches, input: Input, builds: Builder)
    requires Sound(st, builds)
    ensures Sound(Step(st, w, input, builds), builds)
  {
  }

  /** What is served was built successfully from a certificate and a key that were read together. */
  lemma {:induction false} ServesOneLoad(pair: Pair, verifier: Option<Verifier>, w: Watches, inputs: seq<Input>,
                                         builds: Builder)
    requires builds(Config(pair.cert, pair.key, verifier))
    ensures Sound(After(Initial(pair, verifier), w, inputs, builds), builds)
  {
    if inputs != [] {
      var last := |inputs| - 1;
      ServesOneLoad(pair, verifier, w, inputs[..last], builds);
      StepKeepsSound(After(Initial(pair, verifier), w, inputs[..last], builds), w, inputs[last], builds);
    }
  }

  /** A step changes what is served only to what is then held and can be built: a failed read of the
      event, of the client CAs or of the server pair, and a failed build, change nothing. */
  lemma FailureKeepsServing(st: State, w: Watches, input: Input, builds: Builder)
    ensures var st' := Step(st, w, input, builds);
            && (st'.served != st.served ==> st'.served == Held(st') && builds(st'.served))
            && (input.event.Unreadable? ==> st' == st)
            && (IsCaEvent(w, input.event) && input.clientCa.None? ==> st'.served == st.served && Held(st') == Held(st))
            && (st'.attempts > st.attempts && input.server.None? ==>
                  st'.served == st.served && st'.cert == st.cert && st'.key == st.key)
            && (!builds(Held(st')) ==> st'.served == st.served)
  {
  }

  // ---------------------------------------------------------------- nothing stale

  /** The client CA files are watched separately from the certificate and the key. */
  predicate CasWatchedApart(w: Watches) {
    w.cert !in w.clientCas && w.key !in w.clientCas
  }

  predicate UpToDate(st: State, builds: Builder) {
    builds(Held(st)) ==> st.served == Held(st)
  }

  /** Whenever the loop waits for the next event, it serves the newest files it holds, if they build, and
      has no reload left to do. */
  lemma {:induction false} ServesWhatItHolds(pair: Pair, verifier: Option<Verifier>, w: Watches, inputs: seq<Input>,
                                             builds: Builder)
    requires CasWatchedApart(w)
    ensures var last := After(Initial(pair, verifier), w, inputs, builds);
            UpToDate(last, builds) && !(last.certChanged && last.keyChanged)
  {
    if inputs != [] {
      ServesWhatItHolds(pair, verifier, w, inputs[..|inputs| - 1], builds);
    }
  }

  // ---------------------------------------------------------------- what is held comes from the files

  /** The client CAs read at the last change of theirs at which they could be read. */
  function LastCas(initial: Option<Verifier>, w: Watches, inputs: seq<Input>): Option<Verifier> {
    if inputs == [] then initial
    else
      var last := inputs[|inputs| - 1];
      if last.event.Changed? && last.event.wd in w.clientCas && last.clientCa.Some? then last.clientCa
      else LastCas(initial, w, inputs[..|inputs| - 1])
  }

  /** The file has changed from that position on. */
  predicate SawSince(inputs: seq<Input>, from: nat, wd: int) {
    exists i :: from <= i < |inputs| && inputs[i].event == Changed(wd)
  }

  /** The position after the last event by which both certificate and key had changed since the one before. */
  function LastAttempt(w: Watches, inputs: seq<Input>): (n: nat)
    ensures n <= |inputs|
  {
    if inputs == [] then 0
    else
      var before := LastAttempt(w, inputs[..|inputs| - 1]);
      if SawSince(inputs, before, w.cert) && SawSince(inputs, before, w.key) then |inputs| else before
  }

  /** The pair read at the last such event at which it could be read. */
  function LastPair(pair: Pair, w: Watches, inputs: seq<Input>): Pair {
    if inputs == [] then pair
    else if LastAttempt(w, inputs) == |inputs| && inputs[|inputs| - 1].server.Some? then
      inputs[|inputs| - 1].server.value
    else LastPair(pair, w, inputs[..|inputs| - 1])
  }

  /** How often the pair has been due. */
  function Attempts(w: Watches, inputs: seq<Input>): nat {
    if inputs == [] then 0
    else Attempts(w, inputs[..|inputs| - 1]) + if LastAttempt(w, inputs) == |inputs| then 1 else 0
  }

  lemma SawSinceGrows(inputs: seq<Input>, from: nat, wd: int)
    requires inputs != [] && from < |inputs|
    ensures var n := |inputs| - 1;
            SawSince(inputs, from, wd) <==> SawSince(inputs[..n], from, wd) || inputs[n].event == Changed(wd)
  {
    var shorter := inputs[..|inputs| - 1];
    assert forall i :: 0 <= i < |shorter| ==> shorter[i] == inputs[i];
    if i :| from <= i < |shorter| && shorter[i].event == Changed(wd) {
      assert inputs[i].event == Changed(wd);
    }
  }

  lemma NothingSince(inputs: seq<Input>, wd: int)
    ensures !SawSince(inputs, |inputs|, wd)
  {
  }

  /** With client CA files watched apart: what is held is what was read last, the pair was read whenever it was
      due, and the flags say what has changed since then. */
  lemma {:induction false} HoldsWhatWasRead(pair: Pair, verifier: Option<Verifier>, w: Watches, inputs: seq<Input>,
                                            builds: Builder)
    requires CasWatchedApart(w)
    ensures var last := After(Initial(pair, verifier), w, inputs, builds);
            && last.verifier == LastCas(verifier, w, inputs)
            && Pair(last.cert, last.key) == LastPair(pair, w, inputs) && last.attempts == Attempts(w, inputs)
            && (last.certChanged <==> SawSince(inputs, LastAttempt(w, inputs), w.cert))
            && (last.keyChanged <==> SawSince(inputs, LastAttempt(w, inputs), w.key))
  {
    if inputs != [] {
      var shorter := inputs[..|inputs| - 1];
      var before := LastAttempt(w, shorter);
      HoldsWhatWasRead(pair, verifier, w, shorter, builds);
      ServesWhatItHolds(pair, verifier, w, shorter, builds);
      SawSinceGrows(inputs, before, w.cert);
      SawSinceGrows(inputs, before, w.key);
      NothingSince(inputs, w.cert);
      NothingSince(inputs, w.key);
    }
  }

  /** So a change of the client CAs alone is served as soon as they are read, if they build with the pair. */
  lemma CaChangeIsServed(st: State, w: Watches, input: Input, builds: Builder)
    requires CasWatchedApart(w) && !(st.certChanged && st.keyChanged)
    requires IsCaEvent(w, input.event) && input.clientCa.Some?
    ensures var st' := Step(st, w, input, builds);
            && Held(st') == Config(st.cert, st.key, input.clientCa)
            && (builds(Held(st')) ==> st'.served == Config(st.cert, st.key, input.clientCa))
  {
  }

  /** Altogether: at every moment the server presents the certificate, the key and the client CAs that were read
      last, if they build together. */
  lemma ServesWhatWasRead(pair: Pair, verifier: Option<Verifier>, w: Watches, inputs: seq<Input>, builds: Builder)
    requires CasWatchedApart(w)
    ensures var newest := LastPair(pair, w, inputs);
            var config := Config(newest.cert, newest.key, LastCas(verifier, w, inputs));
            builds(config) ==> After(Initial(pair, verifier), w, inputs, builds).served == config
  {
    HoldsWhatWasRead(pair, verifier, w, inputs, builds);
    ServesWhatItHolds(pair, verifier, w, inputs, builds);
  }

  /** Some configuration with client CAs builds, other than the one at the start. */
  ghost predicate OtherBuilds(pair: Pair, verifier: Option<Verifier>, builds: Builder) {
    exists c: Config :: builds(c) && c.verifier.Some? && c != Config(pair.cert, pair.key, verifier)
  }

  lemma AfterTwo(st: State, w: Watches, inputs: seq<Input>, a: Input, b: Input, builds: Builder)
    ensures After(st, w, inputs + [a, b], builds) ==
            Step(Step(After(st, w, inputs, builds), w, a, builds), w, b, builds)
  {
    var longer := inputs + [a, b];
    assert longer[..|longer| - 1] == inputs + [a] && (inputs + [a])[..|inputs|] == inputs;
    assert After(st, w, inputs + [a], builds) == Step(After(st, w, inputs, builds), w, a, builds);
  }

  /** A change of the file not shared, and then one of the shared file: the client CAs are read and, with both
      flags up, so is the pair. */
  lemma SharedChange(st: State, w: Watches, first: int, shared: int, ca: Verifier, server: Option<Pair>,
                     builds: Builder)
    requires shared in w.clientCas && ((first == w.cert && shared == w.key) || (first == w.key && shared == w.cert))
    requires UpToDate(st, builds) && !st.certChanged && !st.keyChanged
    ensures var st' := Step(Step(st, w, Input(Changed(first), None, None), builds),
                            w, Input(Changed(shared), Some(ca), server), builds);
            var pair := if server.Some? then server.value else Pair(st.cert, st.key);
            && Held(st') == Config(pair.cert, pair.key, Some(ca)) && !st'.certChanged && !st'.keyChanged
            && (server.None? ==> st'.served == st.served)
            && (server.Some? ==> st'.served == if builds(Held(st')) then Held(st') else st.served)
  {
  }

  /** A file watched in both roles breaks this: the new client CA is held, could be served, and is not. */
  lemma SharedWatchServesStale(pair: Pair, verifier: Option<Verifier>, w: Watches, builds: Builder)
    returns (inputs: seq<Input>)
    requires !CasWatchedApart(w) && OtherBuilds(pair, verifier, builds)
    ensures !UpToDate(After(Initial(pair, verifier), w, inputs, builds), builds)
  {
    var c: Config :| builds(c) && c.verifier.Some? && c != Config(pair.cert, pair.key, verifier);
    var start := Initial(pair, verifier);
    var (first, shared) := if w.key in w.clientCas then (w.cert, w.key) else (w.key, w.cert);
    var other := c.verifier.value + "x";
    var a := Input(Changed(first), None, None);
    var b := Input(Changed(shared), Some(other), Some(Pair(c.cert, c.key)));
    var d := Input(Changed(shared), c.verifier, None);
    AfterTwo(start, w, [], a, b, builds);
    AfterTwo(start, w, [] + [a, b], a, d, builds);
    SharedChange(start, w, first, shared, other, b.server, builds);
    var middle := After(start, w, [] + [a, b], builds);
    assert middle.served != c && UpToDate(middle, builds);
    SharedChange(middle, w, first, shared, c.verifier.value, None, builds);
    inputs := [] + [a, b] + [a, d];
  }

  ghost predicate NeverOther(verifier: Option<Verifier>, st: State, builds: Builder) {
    && builds(st.served)
    && (verifier.Some? ==> st.verifier.Some? && st.served.verifier.Some?)
    && (st.verifier.None? ==> UpToDate(st, builds))
  }

  lemma {:induction false} NothingElseToServe(pair: Pair, verifier: Option<Verifier>, w: Watches, inputs: seq<Input>,
                                              builds: Builder)
    requires builds(Config(pair.cert, pair.key, verifier)) && !OtherBuilds(pair, verifier, builds)
    ensures NeverOther(verifier, After(Initial(pair, verifier), w, inputs, builds), builds)
    ensures UpToDate(After(Initial(pair, verifier), w, inputs, builds), builds)
  {
    if inputs != [] {
      NothingElseToServe(pair, verifier, w, inputs[..|inputs| - 1], builds);
    }
  }

  /** The loop always serves what it holds if and only if the client CA files are watched apart from the
      certificate and the key, or there is nothing else it could ever serve. */
  lemma ServesWhatItHoldsIffWatchedApart(pair: Pair, verifier: Option<Verifier>, w: Watches, builds: Builder)
    requires builds(Config(pair.cert, pair.key, verifier))
    ensures (forall inputs :: UpToDate(After(Initial(pair, verifier), w, inputs, builds), builds)) <==>
            CasWatchedApart(w) || !OtherBuilds(pair, verifier, builds)
  {
    if CasWatchedApart(w) || !OtherBuilds(pair, verifier, builds) {
      forall inputs ensures UpToDate(After(Initial(pair, verifier), w, inputs, builds), builds) {
        if CasWatchedApart(w) {
          ServesWhatItHolds(pair, verifier, w, inputs, builds);
        } else {
          NothingElseToServe(pair, verifier, w, inputs, builds);
        }
      }
    } else {
      var inputs := SharedWatchServesStale(pair, verifier, w, builds);
    }
  }

  // ---------------------------------------------------------------- how often

  function Count(wd: int, inputs: seq<Input>): nat {
    if inputs == [] then 0
    else Count(wd, inputs[..|inputs| - 1]) + if inputs[|inputs| - 1].event == Changed(wd) then 1 else 0
  }

  /** The server pair is read again at most once per change of the certificate, and per change of the key. */
  lemma {:induction false} AttemptsArePaidFor(st: State, w: Watches, inputs: seq<Input>, builds: Builder)
    requires !st.certChanged && !st.keyChanged
    ensures var last := After(st, w, inputs, builds);
            && last.attempts + (if last.certChanged then 1 else 0) <= st.attempts + Count(w.cert, inputs)
            && last.attempts + (if last.keyChanged then 1 else 0) <= st.attempts + Count(w.key, inputs)
  {
    if inputs != [] {
      AttemptsArePaidFor(st, w, inputs[..|inputs| - 1], builds);
    }
  }
}
