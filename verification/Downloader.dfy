/**
  Downloading policies. Groups are flattened into one list of named modules, and every module URL is
  verified, fetched and checked once, however many policies refer to it and in whatever order they come.
 */
module Downloader {

  datatype Result<+T> = Ok(value: T) | Err(error: string)

  type Url = string

  datatype Source = Single(url: Url) | Group(members: map<string, Url>)

  type Config = map<string, Source>

  // ---------------------------------------------------------------- flattening

  predicate ValidEntry(name: string, source: Source) {
    '/' !in name && (source.Group? ==> forall m :: m in source.members ==> '/' !in m)
  }

  predicate Validated(config: Config) {
    forall name :: name in config ==> ValidEntry(name, config[name])
  }

  /** No slash in the name of a policy, of a group, or of a member of a group. */
  lemma ValidatedIff(config: Config)
    ensures Validated(config) <==>
            && (forall name :: name in config ==> '/' !in name)
            && (forall name, m :: name in config && config[name].Group? && m in config[name].members ==> '/' !in m)
  {
    if Validated(config) {
      forall name | name in config
        ensures '/' !in name && (config[name].Group? ==> forall m :: m in config[name].members ==> '/' !in m)
      {
        assert ValidEntry(name, config[name]);
      }
    } else {
      var name :| name in config && !ValidEntry(name, config[name]);
    }
  }

  method ValidatePolicies(config: Config) returns (valid: bool)
    ensures valid <==> Validated(config)
    ensures valid <==>
            && (forall name :: name in config ==> '/' !in name)
            && (forall name, m :: name in config && config[name].Group? && m in config[name].members ==> '/' !in m)
  {
    ValidatedIff(config);
    var left := config.Keys;
    while left != {}
      invariant left <= config.Keys
      invariant forall name :: name in config && name !in left ==> ValidEntry(name, config[name])
      decreases left
    {
      var name :| name in left;
      if '/' in name {
        return false;
      }
      if config[name].Group? {
        var members := config[name].members.Keys;
        while members != {}
          invariant members <= config[name].members.Keys
          invariant forall m :: m in config[name].members && m !in members ==> '/' !in m
          decreases members
        {
          var m :| m in members;
          if '/' in m {
            return false;
          }
          members := members - {m};
        }
      }
      left := left - {name};
    }
    valid := true;
  }

  /** A policy, or a member of a group: what gets a name of its own in the flat list. */
  datatype Item = Alone(name: string) | Inside(group: string, member: string)

  function Label(item: Item): string {
    match item
    case Alone(name) => name
    case Inside(group, member) => group + "/#" + member
  }

  predicate InConfig(config: Config, item: Item) {
    match item
    case Alone(name) => name in config && config[name].Single?
    case Inside(group, member) => group in config && config[group].Group? && member in config[group].members
  }

  function UrlOf(config: Config, item: Item): Url
    requires InConfig(config, item)
  {
    match item
    case Alone(name) => config[name].url
    case Inside(group, member) => config[group].members[member]
  }

  /** Without slashes in names, labels do not collide. */
  lemma LabelsDiffer(config: Config, a: Item, b: Item)
    requires Validated(config) && InConfig(config, a) && InConfig(config, b) && Label(a) == Label(b)
    ensures a == b
  {
    LabelSplits(config, a);
    LabelSplits(config, b);
    match (a, b) {
      case (Inside(g, m), Inside(h, k)) =>
        assert g == Label(a)[..|g|] && h == Label(b)[..|h|];
        assert m == Label(a)[|g| + 2..] && k == Label(b)[|h| + 2..];
      case _ =>
    }
  }

  /** The first slash of a label, if any, ends the group's name. */
  lemma LabelSplits(config: Config, item: Item)
    requires Validated(config) && InConfig(config, item)
    ensures item.Alone? ==> '/' !in Label(item)
    ensures item.Inside? ==> |item.group| < |Label(item)| && Label(item)[|item.group|] == '/'
    ensures item.Inside? ==> forall i :: 0 <= i < |item.group| ==> Label(item)[i] != '/'
  {
    if item.Inside? {
      assert ValidEntry(item.group, config[item.group]);
    } else {
      assert ValidEntry(item.name, config[item.name]);
    }
  }

  /** `key` is listed for `item`, with its URL. */
  predicate Lists(config: Config, flat: map<string, Url>, key: string, item: Item)
    requires key in flat
  {
    InConfig(config, item) && Label(item) == key && flat[key] == UrlOf(config, item)
  }

  /** The flat list of what has been dealt with: nothing in it is made up, and nothing is lost as long as
      names have no slashes. */
  ghost predicate Flattens(config: Config, flat: map<string, Url>, dealt: iset<Item>) {
    && (forall key :: key in flat ==>
          exists item :: item in dealt && Lists(config, flat, key, item))
    && (forall item :: item in dealt && InConfig(config, item) ==> Label(item) in flat)
    && (Validated(config) ==>
          forall item :: item in dealt && InConfig(config, item) ==> flat[Label(item)] == UrlOf(config, item))
  }

  lemma FlattenOne(config: Config, flat: map<string, Url>, dealt: iset<Item>, item: Item)
    requires Flattens(config, flat, dealt) && InConfig(config, item)
    ensures Flattens(config, flat[Label(item) := UrlOf(config, item)], dealt + iset{item})
  {
    var flat' := flat[Label(item) := UrlOf(config, item)];
    forall key | key in flat'
      ensures exists i :: i in dealt + iset{item} && Lists(config, flat', key, i)
    {
      if key == Label(item) {
        assert item in dealt + iset{item};
      } else {
        var i :| i in dealt && Lists(config, flat, key, i);
        assert i in dealt + iset{item};
      }
    }
    if Validated(config) {
      forall other | other in dealt && InConfig(config, other) && Label(other) == Label(item) ensures other == item {
        LabelsDiffer(config, other, item);
      }
    }
  }

  function EntryOf(item: Item): string {
    match item
    case Alone(name) => name
    case Inside(group, _) => group
  }

  method FlattenGroup(config: Config, group: string, flat: map<string, Url>, ghost dealt: iset<Item>)
    returns (flat': map<string, Url>, ghost dealt': iset<Item>)
    requires group in config && config[group].Group? && Flattens(config, flat, dealt)
    ensures Flattens(config, flat', dealt') && dealt <= dealt'
    ensures forall m :: m in config[group].members ==> Inside(group, m) in dealt'
  {
    var members := config[group].members;
    var todo := members.Keys;
    flat', dealt' := flat, dealt;
    while todo != {}
      invariant todo <= members.Keys && dealt <= dealt'
      invariant Flattens(config, flat', dealt')
      invariant forall m :: m in members && m !in todo ==> Inside(group, m) in dealt'
      decreases todo
    {
      var m :| m in todo;
      FlattenOne(config, flat', dealt', Inside(group, m));
      flat' := flat'[group + "/#" + m := members[m]];
      dealt' := dealt' + iset{Inside(group, m)};
      todo := todo - {m};
    }
  }

  method FlattenEntry(config: Config, name: string, flat: map<string, Url>, ghost dealt: iset<Item>)
    returns (flat': map<string, Url>, ghost dealt': iset<Item>)
    requires name in config && Flattens(config, flat, dealt)
    ensures Flattens(config, flat', dealt') && dealt <= dealt'
    ensures forall item :: InConfig(config, item) && EntryOf(item) == name ==> item in dealt'
  {
    if config[name].Single? {
      FlattenOne(config, flat, dealt, Alone(name));
      flat' := flat[name := config[name].url];
      dealt' := dealt + iset{Alone(name)};
      assert forall item :: InConfig(config, item) && EntryOf(item) == name ==> item == Alone(name);
    } else {
      flat', dealt' := FlattenGroup(config, name, flat, dealt);
      assert forall item :: InConfig(config, item) && EntryOf(item) == name ==> item == Inside(name, item.member);
    }
  }

  /** Whatever is listed belongs to a policy or a group member, with its URL; and in a validated
      configuration every one of them is listed. */
  method PoliciesToDownload(config: Config) returns (flat: map<string, Url>)
    ensures forall key :: key in flat ==>
              exists item :: Lists(config, flat, key, item)
    ensures Validated(config) ==>
              forall item :: InConfig(config, item) ==> Label(item) in flat && flat[Label(item)] == UrlOf(config, item)
  {
    flat := map[];
    var left := config.Keys;
    ghost var dealt: iset<Item> := iset{};
    while left != {}
      invariant left <= config.Keys
      invariant Flattens(config, flat, dealt)
      invariant forall item :: InConfig(config, item) && EntryOf(item) !in left ==> item in dealt
      decreases left
    {
      var name :| name in left;
      flat, dealt := FlattenEntry(config, name, flat, dealt);
      left := left - {name};
    }
  }

  /** With a slash in a name they can, and one of two modules is lost. */
  lemma SlashLosesAModule()
    ensures var config: Config := map["g/#m" := Single("a"), "g" := Group(map["m" := "b"])];
            && !Validated(config)
            && InConfig(config, Alone("g/#m")) && InConfig(config, Inside("g", "m"))
            && Label(Alone("g/#m")) == Label(Inside("g", "m"))
            && UrlOf(config, Alone("g/#m")) != UrlOf(config, Inside("g", "m"))
  {
    var config: Config := map["g/#m" := Single("a"), "g" := Group(map["m" := "b"])];
    assert "g/#m" in config && "g" != "g/#m" && "g/#m"[1] == '/';
    assert "g" + "/#" + "m" == "g/#m";
    assert !ValidEntry("g/#m", config["g/#m"]);
  }

  // ---------------------------------------------------------------- downloading

  datatype Failure =
    | NotVerified(policy: string, error: string)
    | NotFetched(policy: string, error: string)
    | ChecksumMismatch(policy: string, error: string)

  datatype Fetched = Stored(path: string) | Failed(failure: Failure)

  /** The verifier, when there is one, and the network. */
  datatype Services = Services(
    verifying: bool,
    verify: Url -> Result<string>,
    fetch: Url -> Result<string>,
    checksum: (string, string) -> Result<()>
  )

  /** What becomes of one URL when it is tried on behalf of a policy. */
  function Attempt(s: Services, policy: string, url: Url): Fetched {
    if s.verifying && s.verify(url).Err? then Failed(NotVerified(policy, s.verify(url).error))
    else if s.fetch(url).Err? then Failed(NotFetched(policy, s.fetch(url).error))
    else if s.verifying && s.checksum(s.fetch(url).value, s.verify(url).value).Err? then
      Failed(ChecksumMismatch(policy, s.checksum(s.fetch(url).value, s.verify(url).value).error))
    else Stored(s.fetch(url).value)
  }

  /** A module is stored only if it was fetched and, with a verifier, both its signature and its contents
      passed. */
  lemma StoredMeansChecked(s: Services, policy: string, url: Url)
    ensures Attempt(s, policy, url).Stored? <==>
            && s.fetch(url).Ok?
            && (s.verifying ==> s.verify(url).Ok? && s.checksum(s.fetch(url).value, s.verify(url).value).Ok?)
    ensures Attempt(s, policy, url).Stored? ==> Attempt(s, policy, url).path == s.fetch(url).value
  {
  }

  /** Otherwise the first thing that went wrong is reported, on behalf of the policy: the signature before the
      download, and the download before the contents. */
  lemma FailureIsTheFirst(s: Services, policy: string, url: Url)
    requires Attempt(s, policy, url).Failed?
    ensures var failure := Attempt(s, policy, url).failure;
            match failure
            case NotVerified(p, e) => p == policy && s.verifying && s.verify(url) == Err(e)
            case NotFetched(p, e) => p == policy && (s.verifying ==> s.verify(url).Ok?) && s.fetch(url) == Err(e)
            case ChecksumMismatch(p, e) =>
              && p == policy && s.verifying && s.verify(url).Ok? && s.fetch(url).Ok?
              && s.checksum(s.fetch(url).value, s.verify(url).value) == Err(e)
  {
  }

  type Queue = seq<(string, Url)>

  predicate Asked(queue: Queue, url: Url) {
    exists i :: 0 <= i < |queue| && queue[i].1 == url
  }

  /** The first policy in line for a URL. */
  function Asker(queue: Queue, url: Url): string
    requires Asked(queue, url)
  {
    if queue[0].1 == url then queue[0].0 else Asker(queue[1..], url)
  }

  lemma {:induction false} AskerAsks(queue: Queue, url: Url)
    requires Asked(queue, url)
    ensures (Asker(queue, url), url) in queue
  {
    if queue[0].1 != url {
      assert forall i :: 0 < i < |queue| ==> queue[1..][i - 1] == queue[i];
      AskerAsks(queue[1..], url);
    }
  }

  lemma {:induction false} AskerIsFirst(queue: Queue, i: nat)
    requires i < |queue| && forall j :: 0 <= j < i ==> queue[j].1 != queue[i].1
    ensures Asked(queue, queue[i].1) && Asker(queue, queue[i].1) == queue[i].0
  {
    if i > 0 {
      assert forall j :: 0 < j < |queue| ==> queue[1..][j - 1] == queue[j];
      AskerIsFirst(queue[1..], i - 1);
    }
  }

  /** The queue is the flat list in whatever order its entries are iterated. Every URL asked for is tried
      exactly once, for the first policy in line, and its outcome is kept. */
  method DownloadQueue(queue: Queue, s: Services) returns (fetched: map<Url, Fetched>, tried: seq<Url>)
    ensures forall url :: url in fetched <==> Asked(queue, url)
    ensures forall url :: url in fetched ==> fetched[url] == Attempt(s, Asker(queue, url), url)
    ensures forall i, j :: 0 <= i < j < |tried| ==> tried[i] != tried[j]
    ensures forall url :: url in tried <==> url in fetched
  {
    var processed: set<Url> := {};
    fetched, tried := map[], [];
    for i := 0 to |queue|
      invariant forall url :: url in processed <==> exists j :: 0 <= j < i && queue[j].1 == url
      invariant fetched.Keys == processed && forall url :: url in tried <==> url in processed
      invariant forall j, k :: 0 <= j < k < |tried| ==> tried[j] != tried[k]
      invariant forall url :: url in fetched ==> Asked(queue, url) && fetched[url] == Attempt(s, Asker(queue, url), url)
    {
      var (name, url) := queue[i];
      if url in processed {
        continue;
      }
      AskerIsFirst(queue, i);
      processed := processed + {url};
      tried := tried + [url];
      var digest := "";
      if s.verifying {
        match s.verify(url) {
          case Ok(d) => digest := d;
          case Err(e) =>
            fetched := fetched[url := Failed(NotVerified(name, e))];
            continue;
        }
      }
      match s.fetch(url) {
        case Err(e) => fetched := fetched[url := Failed(NotFetched(name, e))];
        case Ok(path) =>
          var outcome := Stored(path);
          if s.verifying && s.checksum(path, digest).Err? {
            outcome := Failed(ChecksumMismatch(name, s.checksum(path, digest).error));
          }
          fetched := fetched[url := outcome];
      }
    }
  }

  ghost predicate Needed(config: Config, url: Url) {
    exists item :: InConfig(config, item) && UrlOf(config, item) == url
  }

  /** For every validated configuration there is exactly one outcome for each distinct module URL of any
      policy or group member, each tried once on behalf of a policy that needs it. */
  method DownloadPolicies(config: Config, s: Services) returns (fetched: map<Url, Fetched>, tried: seq<Url>)
    ensures forall url :: url in fetched ==> Needed(config, url)
    ensures Validated(config) ==> forall url :: Needed(config, url) ==> url in fetched
    ensures forall url :: url in fetched ==>
              exists item ::
                InConfig(config, item) && UrlOf(config, item) == url && fetched[url] == Attempt(s, Label(item), url)
    ensures forall i, j :: 0 <= i < j < |tried| ==> tried[i] != tried[j]
    ensures forall url :: url in tried <==> url in fetched
  {
    var flat := PoliciesToDownload(config);
    var queue: Queue := [];
    var left := flat.Keys;
    while left != {}
      invariant left <= flat.Keys
      invariant forall q :: q in queue <==> q.0 in flat && q.0 !in left && flat[q.0] == q.1
      decreases left
    {
      var name :| name in left;
      queue := queue + [(name, flat[name])];
      left := left - {name};
    }
    fetched, tried := DownloadQueue(queue, s);
    forall url | url in fetched
      ensures exists item ::
                InConfig(config, item) && UrlOf(config, item) == url && fetched[url] == Attempt(s, Label(item), url)
    {
      AskerAsks(queue, url);
      var item :| Lists(config, flat, Asker(queue, url), item);
    }
    forall url | Validated(config) && Needed(config, url) ensures url in fetched {
      var item :| InConfig(config, item) && UrlOf(config, item) == url;
      assert (Label(item), url) in queue;
    }
  }

  /** An outcome without the name it quotes. */
  function Anonymous(f: Fetched): Fetched {
    match f
    case Stored(_) => f
    case Failed(NotVerified(_, e)) => Failed(NotVerified("", e))
    case Failed(NotFetched(_, e)) => Failed(NotFetched("", e))
    case Failed(ChecksumMismatch(_, e)) => Failed(ChecksumMismatch("", e))
  }

  /** Iteration order decides nothing but the name quoted in an error, and that name belongs to a policy
      that asked for the module. */
  lemma OrderMattersForNamesOnly(queue: Queue, shuffled: Queue, s: Services, url: Url)
    requires multiset(queue) == multiset(shuffled) && Asked(queue, url)
    ensures Asked(shuffled, url)
    ensures Anonymous(Attempt(s, Asker(queue, url), url)) == Anonymous(Attempt(s, Asker(shuffled, url), url))
    ensures (Asker(shuffled, url), url) in queue
  {
    AskerAsks(queue, url);
    var item := (Asker(queue, url), url);
    assert item in multiset(queue);
    assert item in shuffled;
    AskerAsks(shuffled, url);
    assert (Asker(shuffled, url), url) in multiset(shuffled);
  }
}
