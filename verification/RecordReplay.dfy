/**
  Recording the exchanges between a policy and its host, and playing them back without the host.

  A policy is any deterministic program: what it asks next depends only on the replies it has had so
  far. The host is an arbitrary oracle.
 */
module RecordReplay {
  import opened Wrappers

  type Bytes = seq<bv8>

  /** A request may carry a point in time, which is written relative to the clock of the moment. */
  datatype Request = Plain(call: string, body: string) | Since(call: string, body: string, instant: int)

  datatype Reply = Ok(payload: Bytes) | Err(message: string)

  datatype Response = Success(payload: string) | Error(message: string)

  datatype Exchange = Exchange(request: string, response: Response)

  type Policy = seq<Reply> -> Option<Request>

  type Host = seq<Request> -> Reply

  /** YAML for requests and UTF-8 for payloads, each of which may fail, and the form in which error messages
      quote a request. What YAML makes of a request may depend on when it is written or read, so both
      directions are told the position of the exchange in the session. */
  datatype Codec = Codec(
    toYaml: (nat, Request) -> Option<string>,
    fromYaml: (nat, string) -> Option<Request>,
    fromUtf8: Bytes -> Option<string>,
    intoBytes: string -> Bytes,
    show: Request -> string
  )

  ghost predicate Utf8Lawful(c: Codec) {
    forall b: Bytes :: c.fromUtf8(b).Some? ==> c.intoBytes(c.fromUtf8(b).value) == b
  }

  predicate RoundTrips(c: Codec, i: nat, r: Request) {
    c.toYaml(i, r).Some? && c.fromYaml(i, c.toYaml(i, r).value) == Some(r)
  }

  /** A point in time is written as its distance from the clock and read back against a later clock. */
  function Reread(r: Request, written: int, read: int): Request {
    match r
    case Plain(_, _) => r
    case Since(call, body, instant) => Since(call, body, read - (written - instant))
  }

  /** So a request with a point in time keeps its age, and reads back as itself only if no time went by. */
  lemma InstantsDoNotKeep(r: Request, written: int, read: int)
    ensures Reread(r, written, read) == r <==> r.Plain? || read == written
    ensures r.Since? ==> Reread(r, written, read) == Since(r.call, r.body, r.instant + (read - written))
    ensures r.Since? ==> read - Reread(r, written, read).instant == written - r.instant
  {
  }

  // ---------------------------------------------------------------- recording

  /** What is kept of one exchange, or nothing when it cannot be written down. */
  function KeptText(c: Codec, request: Option<string>, reply: Reply): Option<Exchange> {
    if request.None? then None
    else match reply
      case Err(message) => Some(Exchange(request.value, Error(message)))
      case Ok(payload) =>
        if c.fromUtf8(payload).None? then None
        else Some(Exchange(request.value, Success(c.fromUtf8(payload).value)))
  }

  function Kept(c: Codec, i: nat, request: Request, reply: Reply): Option<Exchange> {
    KeptText(c, c.toYaml(i, request), reply)
  }

  /** An exchange is kept exactly if its request can be written and its payload, if any, is text; and then with
      both. */
  lemma KeptIs(c: Codec, i: nat, request: Request, reply: Reply)
    ensures Kept(c, i, request, reply).Some? <==>
            c.toYaml(i, request).Some? && (reply.Ok? ==> c.fromUtf8(reply.payload).Some?)
    ensures var kept := Kept(c, i, request, reply);
            kept.Some? ==>
              && Some(kept.value.request) == c.toYaml(i, request)
              && (reply.Err? ==> kept.value.response == Error(reply.message))
              && (reply.Ok? ==> kept.value.response.Success?)
              && (reply.Ok? ==> Some(kept.value.response.payload) == c.fromUtf8(reply.payload))
  {
  }

  class Recorder {
    const codec: Codec
    var recorded: seq<Option<Exchange>>

    constructor (codec: Codec)
      ensures this.codec == codec && recorded == []
    {
      this.codec := codec;
      recorded := [];
    }

    method RecordExchange(request: Option<string>, reply: Reply)
      modifies this`recorded
      ensures recorded == old(recorded) + [KeptText(codec, request, reply)]
    {
      var exchange: Option<Exchange> := None;
      if request.Some? {
        match reply {
          case Err(message) => exchange := Some(Exchange(request.value, Error(message)));
          case Ok(payload) =>
            var text := codec.fromUtf8(payload);
            if text.Some? {
              exchange := Some(Exchange(request.value, Success(text.value)));
            }
        }
      }
      recorded := recorded + [exchange];
    }

    /** A session is saved whole or not at all. */
    method DumpRecords() returns (file: Option<seq<Exchange>>)
      ensures file.Some? <==> forall i :: 0 <= i < |recorded| ==> recorded[i].Some?
      ensures file.Some? ==>
                && |file.value| == |recorded|
                && forall i :: 0 <= i < |recorded| ==> recorded[i] == Some(file.value[i])
    {
      var exchanges: seq<Exchange> := [];
      for i := 0 to |recorded|
        invariant |exchanges| == i
        invariant forall j :: 0 <= j < i ==> recorded[j] == Some(exchanges[j])
      {
        if recorded[i].None? {
          return None;
        }
        exchanges := exchanges + [recorded[i].value];
      }
      file := Some(exchanges);
    }
  }

  // ---------------------------------------------------------------- replaying

  const EMPTY_MESSAGE := "the list of recorded responses is empty"

  const EXPECTING := "Replay error: unexpected request. Was expecting "
  const GOT := ", got "
  const INSTEAD := " instead"

  function UnexpectedMessage(c: Codec, expected: Request, got: Request): string {
    EXPECTING + c.show(expected) + GOT + c.show(got) + INSTEAD
  }

  /** The texts that users see. */
  lemma Complaints(c: Codec, expected: Request, got: Request)
    ensures EMPTY_MESSAGE == "the list of recorded responses is empty"
    ensures UnexpectedMessage(c, expected, got) ==
            "Replay error: unexpected request. Was expecting " + c.show(expected) + ", got " + c.show(got) + " instead"
  {
  }

  /** The reply to a request when `exchange` is the next one in line. Nothing stands for a panic: the
      recorded request cannot be read. */
  function Played(c: Codec, i: nat, exchange: Exchange, request: Request): Option<Reply> {
    match c.fromYaml(i, exchange.request)
    case None => None
    case Some(expected) =>
      if expected != request then Some(Err(UnexpectedMessage(c, expected, request)))
      else match exchange.response
        case Success(payload) => Some(Ok(c.intoBytes(payload)))
        case Error(message) => Some(Err(message))
  }

  /** Replay is positional: the reply to request number `i` depends on exchange number `i` alone. */
  function PlayedAt(c: Codec, file: seq<Exchange>, i: nat, request: Request): Option<Reply> {
    if i < |file| then Played(c, i, file[i], request) else Some(Err(EMPTY_MESSAGE))
  }

  class Replayer {
    const codec: Codec
    var exchanges: seq<Exchange>
    var played: nat

    constructor (codec: Codec, file: seq<Exchange>)
      ensures this.codec == codec && exchanges == file && played == 0
    {
      this.codec := codec;
      exchanges := file;
      played := 0;
    }

    method ProduceRecordedResponse(request: Request) returns (reply: Option<Reply>)
      modifies this`exchanges, this`played
      ensures old(exchanges) == [] ==> reply == Some(Err(EMPTY_MESSAGE)) && exchanges == []
      ensures old(exchanges) != [] ==>
                reply == Played(codec, old(played), old(exchanges)[0], request) && exchanges == old(exchanges)[1..]
      ensures played == old(played) + 1
    {
      var position := played;
      played := played + 1;
      if exchanges == [] {
        return Some(Err(EMPTY_MESSAGE));
      }
      var exchange := exchanges[0];
      exchanges := exchanges[1..];
      var expected := codec.fromYaml(position, exchange.request);
      if expected.None? {
        return None;
      }
      if expected.value == request {
        match exchange.response {
          case Success(payload) => reply := Some(Ok(codec.intoBytes(payload)));
          case Error(message) => reply := Some(Err(message));
        }
      } else {
        reply := Some(Err(UnexpectedMessage(codec, expected.value, request)));
      }
    }
  }

  // ---------------------------------------------------------------- sessions

  datatype Session = Session(requests: seq<Request>, replies: seq<Reply>)

  function Said(s: Session, request: Request, reply: Reply): Session {
    Session(s.requests + [request], s.replies + [reply])
  }

  /** Up to `n` exchanges of a policy with its host. */
  function Live(policy: Policy, host: Host, n: nat): (s: Session)
    ensures |s.requests| == |s.replies| <= n
  {
    if n == 0 then Session([], [])
    else
      var s := Live(policy, host, n - 1);
      match policy(s.replies)
      case None => s
      case Some(request) => Said(s, request, host(s.requests + [request]))
  }

  /** What a session is: each request is the one the policy makes after the replies before it, the reply to
      it is what the host says to that request, coming after those before it, and the session ends early only
      if the policy has no more requests. */
  lemma {:induction false} LiveIsTheSession(policy: Policy, host: Host, n: nat)
    ensures var s := Live(policy, host, n);
            && (forall i :: 0 <= i < |s.requests| ==> policy(s.replies[..i]) == Some(s.requests[i]))
            && (forall i :: 0 <= i < |s.requests| ==> s.replies[i] == host(s.requests[..i + 1]))
            && (|s.requests| < n ==> policy(s.replies).None?)
  {
    if n > 0 {
      LiveIsTheSession(policy, host, n - 1);
      var before, s := Live(policy, host, n - 1), Live(policy, host, n);
      var last := |before.requests|;
      assert before.replies[..last] == before.replies;
      if policy(before.replies).Some? {
        forall i | 0 <= i < |s.requests|
          ensures policy(s.replies[..i]) == Some(s.requests[i]) && s.replies[i] == host(s.requests[..i + 1])
        {
          assert i < last ==> s.replies[..i] == before.replies[..i] && s.requests[..i + 1] == before.requests[..i + 1];
          assert i == last ==> s.replies[..i] == before.replies && s.requests[..i + 1] == s.requests;
        }
      }
    }
  }

  /** Up to `n` exchanges of a policy with a recording; nothing when the replay panics. */
  function PlayBack(policy: Policy, c: Codec, file: seq<Exchange>, n: nat): (r: Option<Session>)
    ensures r.Some? ==> |r.value.requests| == |r.value.replies| <= n
  {
    if n == 0 then Some(Session([], []))
    else
      match PlayBack(policy, c, file, n - 1)
      case None => None
      case Some(s) =>
        match policy(s.replies)
        case None => Some(s)
        case Some(request) =>
          match PlayedAt(c, file, |s.requests|, request)
          case None => None
          case Some(reply) => Some(Said(s, request, reply))
  }

  /** What a recording of a session keeps of it. */
  ghost predicate IsRecordingOf(c: Codec, file: seq<Exchange>, s: Session)
    requires |s.requests| == |s.replies|
  {
    |file| == |s.requests| && forall i :: 0 <= i < |file| ==> Kept(c, i, s.requests[i], s.replies[i]) == Some(file[i])
  }

  method RecordSession(policy: Policy, host: Host, c: Codec, n: nat) returns (s: Session, file: Option<seq<Exchange>>)
    ensures s == Live(policy, host, n)
    ensures file.Some? ==> IsRecordingOf(c, file.value, s)
    ensures file.None? ==> exists i :: 0 <= i < |s.requests| && Kept(c, i, s.requests[i], s.replies[i]).None?
  {
    var recorder := new Recorder(c);
    s := Session([], []);
    for k := 0 to n
      invariant s == Live(policy, host, k) && recorder.codec == c
      invariant |recorder.recorded| == |s.requests|
      invariant forall i :: 0 <= i < |s.requests| ==> recorder.recorded[i] == Kept(c, i, s.requests[i], s.replies[i])
    {
      var next := policy(s.replies);
      if next.Some? {
        var request := next.value;
        var reply := host(s.requests + [request]);
        recorder.RecordExchange(c.toYaml(|s.requests|, request), reply);
        s := Said(s, request, reply);
      }
    }
    file := recorder.DumpRecords();
  }

  /** What is left of a recording after so many requests. */
  function After(file: seq<Exchange>, requests: nat): seq<Exchange> {
    if requests < |file| then file[requests..] else []
  }

  lemma NextPlayed(c: Codec, file: seq<Exchange>, i: nat, request: Request)
    ensures PlayedAt(c, file, i, request) ==
            if After(file, i) == [] then Some(Err(EMPTY_MESSAGE)) else Played(c, i, After(file, i)[0], request)
    ensures After(file, i + 1) == if After(file, i) == [] then [] else After(file, i)[1..]
  {
  }

  lemma PlayBackNext(policy: Policy, c: Codec, file: seq<Exchange>, k: nat, s: Session, request: Request)
    requires PlayBack(policy, c, file, k) == Some(s) && policy(s.replies) == Some(request)
    ensures var reply := PlayedAt(c, file, |s.requests|, request);
            PlayBack(policy, c, file, k + 1) == if reply.None? then None else Some(Said(s, request, reply.value))
  {
  }

  /** One more request of the policy, if it has any, and the reply to it. */
  method ReplayOne(policy: Policy, replayer: Replayer, session: Session, ghost file: seq<Exchange>, ghost k: nat)
    returns (longer: Option<Session>)
    requires PlayBack(policy, replayer.codec, file, k) == Some(session)
    requires replayer.exchanges == After(file, |session.requests|) && replayer.played == |session.requests|
    modifies replayer`exchanges, replayer`played
    ensures longer == PlayBack(policy, replayer.codec, file, k + 1)
    ensures longer.Some? ==>
              replayer.exchanges == After(file, |longer.value.requests|) && replayer.played == |longer.value.requests|
  {
    var next := policy(session.replies);
    if next.None? {
      return Some(session);
    }
    NextPlayed(replayer.codec, file, |session.requests|, next.value);
    PlayBackNext(policy, replayer.codec, file, k, session, next.value);
    var reply := replayer.ProduceRecordedResponse(next.value);
    longer := if reply.None? then None else Some(Said(session, next.value, reply.value));
  }

  /** Each request uses up one exchange while there are any; what is left over is the tail. */
  method ReplaySession(policy: Policy, c: Codec, file: seq<Exchange>, n: nat)
    returns (s: Option<Session>, leftovers: seq<Exchange>)
    ensures s == PlayBack(policy, c, file, n)
    ensures s.Some? ==> leftovers == After(file, |s.value.requests|)
  {
    var replayer := new Replayer(c, file);
    s := Some(Session([], []));
    for k := 0 to n
      invariant s == PlayBack(policy, c, file, k) && s.Some? && replayer.codec == c
      invariant replayer.exchanges == After(file, |s.value.requests|) && replayer.played == |s.value.requests|
    {
      s := ReplayOne(policy, replayer, s.value, file, k);
      if s.None? {
        PanicLasts(policy, c, file, k + 1, n);
        return None, [];
      }
    }
    leftovers := replayer.exchanges;
  }

  lemma {:induction false} PanicLasts(policy: Policy, c: Codec, file: seq<Exchange>, k: nat, n: nat)
    requires k <= n && PlayBack(policy, c, file, k).None?
    ensures PlayBack(policy, c, file, n).None?
  {
    if k < n {
      PanicLasts(policy, c, file, k, n - 1);
    }
  }

  // ---------------------------------------------------------------- a replay is the session again

  /** The host itself replied with just the complaint that the replay is going to make. */
  predicate Masked(c: Codec, i: nat, request: Request, reply: Reply) {
    c.toYaml(i, request).Some? &&
    var expected := c.fromYaml(i, c.toYaml(i, request).value);
    expected.Some? && expected.value != request && reply == Err(UnexpectedMessage(c, expected.value, request))
  }

  predicate Repeats(c: Codec, i: nat, request: Request, reply: Reply) {
    RoundTrips(c, i, request) || Masked(c, i, request, reply)
  }

  lemma KeptPlaysBack(c: Codec, i: nat, request: Request, reply: Reply)
    requires Utf8Lawful(c) && Repeats(c, i, request, reply) && Kept(c, i, request, reply).Some?
    ensures Played(c, i, Kept(c, i, request, reply).value, request) == Some(reply)
  {
  }

  lemma {:induction false} LiveGrows(policy: Policy, host: Host, k: nat, n: nat)
    requires k <= n
    ensures Live(policy, host, k).requests <= Live(policy, host, n).requests
    ensures Live(policy, host, k).replies <= Live(policy, host, n).replies
  {
    if k < n {
      LiveGrows(policy, host, k, n - 1);
    }
  }

  lemma {:induction false} ReplayFollows(policy: Policy, host: Host, c: Codec, file: seq<Exchange>, k: nat, n: nat)
    requires k <= n && Utf8Lawful(c) && IsRecordingOf(c, file, Live(policy, host, n))
    requires var s := Live(policy, host, n);
             forall i :: 0 <= i < |s.requests| ==> Repeats(c, i, s.requests[i], s.replies[i])
    ensures PlayBack(policy, c, file, k) == Some(Live(policy, host, k))
  {
    if k > 0 {
      ReplayFollows(policy, host, c, file, k - 1, n);
      var s := Live(policy, host, k - 1);
      if policy(s.replies).Some? {
        var i, whole := |s.requests|, Live(policy, host, n);
        LiveGrows(policy, host, k, n);
        assert whole.requests[i] == policy(s.replies).value && whole.replies[i] == Live(policy, host, k).replies[i];
        KeptPlaysBack(c, i, whole.requests[i], whole.replies[i]);
      }
    }
  }

  /** Replaying a recorded session of any policy with any host gives the same requests, the same payloads
      and the same error messages, and uses up the recording. */
  lemma RecordedSessionReplays(policy: Policy, host: Host, c: Codec, file: seq<Exchange>, n: nat)
    requires Utf8Lawful(c) && IsRecordingOf(c, file, Live(policy, host, n))
    requires var requests := Live(policy, host, n).requests;
             forall i :: 0 <= i < |requests| ==> RoundTrips(c, i, requests[i])
    ensures PlayBack(policy, c, file, n) == Some(Live(policy, host, n))
    ensures |PlayBack(policy, c, file, n).value.requests| == |file|
  {
    ReplayFollows(policy, host, c, file, n, n);
  }

  /** A replay breaks off only over a recorded request that cannot be read. */
  lemma {:induction false} ReadableReplayGoesThrough(policy: Policy, c: Codec, file: seq<Exchange>, n: nat)
    requires forall i :: 0 <= i < |file| ==> c.fromYaml(i, file[i].request).Some?
    ensures PlayBack(policy, c, file, n).Some?
  {
    if n > 0 {
      ReadableReplayGoesThrough(policy, c, file, n - 1);
    }
  }

  /** In a replay too, each request is the one the policy makes after the replies before it, and the replay
      ends early only if the policy has no more requests. */
  lemma {:induction false} PlayBackAsks(policy: Policy, c: Codec, file: seq<Exchange>, n: nat)
    requires PlayBack(policy, c, file, n).Some?
    ensures var s := PlayBack(policy, c, file, n).value;
            && (forall i :: 0 <= i < |s.requests| ==> policy(s.replies[..i]) == Some(s.requests[i]))
            && (|s.requests| < n ==> policy(s.replies).None?)
  {
    if n > 0 {
      PlayBackAsks(policy, c, file, n - 1);
      var before, s := PlayBack(policy, c, file, n - 1).value, PlayBack(policy, c, file, n).value;
      var last := |before.requests|;
      assert before.replies[..last] == before.replies;
      if policy(before.replies).Some? {
        forall i | 0 <= i < |s.requests| ensures policy(s.replies[..i]) == Some(s.requests[i]) {
          assert i < last ==> s.replies[..i] == before.replies[..i];
          assert i == last ==> s.replies[..i] == before.replies;
        }
      }
    }
  }

  lemma {:induction false} PlayBackAt(policy: Policy, c: Codec, file: seq<Exchange>, n: nat, i: nat)
    requires PlayBack(policy, c, file, n).Some? && i < |PlayBack(policy, c, file, n).value.requests|
    ensures var s := PlayBack(policy, c, file, n).value; PlayedAt(c, file, i, s.requests[i]) == Some(s.replies[i])
  {
    if PlayBack(policy, c, file, n - 1).value.requests != PlayBack(policy, c, file, n).value.requests
       && i == |PlayBack(policy, c, file, n - 1).value.requests| {
    } else {
      PlayBackAt(policy, c, file, n - 1, i);
    }
  }

  /** The replay is the session again if and only if every request reads back from its recording as itself,
      or the host had replied with the complaint the replay makes when it does not. */
  lemma ReplaysIffRequestsRoundTrip(policy: Policy, host: Host, c: Codec, file: seq<Exchange>, n: nat)
    requires Utf8Lawful(c) && IsRecordingOf(c, file, Live(policy, host, n))
    ensures var s := Live(policy, host, n);
            PlayBack(policy, c, file, n) == Some(s) <==>
            forall i :: 0 <= i < |s.requests| ==>
              RoundTrips(c, i, s.requests[i]) || Masked(c, i, s.requests[i], s.replies[i])
  {
    var s := Live(policy, host, n);
    if forall i :: 0 <= i < |s.requests| ==> Repeats(c, i, s.requests[i], s.replies[i]) {
      ReplayFollows(policy, host, c, file, n, n);
    } else if PlayBack(policy, c, file, n) == Some(s) {
      forall i | 0 <= i < |s.requests| ensures Repeats(c, i, s.requests[i], s.replies[i]) {
        PlayBackAt(policy, c, file, n, i);
      }
      assert false;
    }
  }

  /** Each exchange is written at one time and read at another, and its request is otherwise kept. */
  ghost predicate Clocked(c: Codec, written: nat -> int, read: nat -> int) {
    forall i: nat, r ::
      c.toYaml(i, r).Some? && c.fromYaml(i, c.toYaml(i, r).value) == Some(Reread(r, written(i), read(i)))
  }

  /** The replay is the session again if and only if no request carries a point in time, but for those read
      at the very moment they were written and those whose reply was the complaint. */
  lemma ReplaysIffNoInstants(policy: Policy, host: Host, c: Codec, file: seq<Exchange>, n: nat,
                             written: nat -> int, read: nat -> int)
    requires Utf8Lawful(c) && IsRecordingOf(c, file, Live(policy, host, n)) && Clocked(c, written, read)
    ensures var s := Live(policy, host, n);
            PlayBack(policy, c, file, n) == Some(s) <==>
            forall i :: 0 <= i < |s.requests| ==>
              s.requests[i].Plain? || written(i) == read(i) || Masked(c, i, s.requests[i], s.replies[i])
  {
    ReplaysIffRequestsRoundTrip(policy, host, c, file, n);
    forall i: nat, r: Request ensures RoundTrips(c, i, r) <==> r.Plain? || written(i) == read(i) {
      InstantsDoNotKeep(r, written(i), read(i));
    }
  }

  // ---------------------------------------------------------------- replay against any policy

  /** Whatever policy is run against a recording: request number `i` gets a success if and only if it is
      the recorded request number `i` and that one had succeeded, and then with the recorded payload;
      once the recording is used up every request fails. */
  lemma ReplayIsPositional(policy: Policy, c: Codec, file: seq<Exchange>, n: nat, i: nat)
    requires PlayBack(policy, c, file, n).Some? && i < |PlayBack(policy, c, file, n).value.requests|
    ensures var s := PlayBack(policy, c, file, n).value;
            && (s.replies[i].Ok? <==>
                  i < |file| && c.fromYaml(i, file[i].request) == Some(s.requests[i]) && file[i].response.Success?)
            && (s.replies[i].Ok? ==> s.replies[i].payload == c.intoBytes(file[i].response.payload))
            && (i >= |file| ==> s.replies[i] == Err(EMPTY_MESSAGE))
            && (i < |file| ==>
                  var expected := c.fromYaml(i, file[i].request);
                  && expected.Some?
                  && (expected.value != s.requests[i] ==>
                        s.replies[i] == Err(UnexpectedMessage(c, expected.value, s.requests[i])))
                  && (expected.value == s.requests[i] && file[i].response.Error? ==>
                        s.replies[i] == Err(file[i].response.message)))
  {
    PlayBackAt(policy, c, file, n, i);
  }
}
