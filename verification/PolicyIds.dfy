/**
  Policy identifiers: the name of a policy, or the name of a group and the name of a member joined by a
  slash. They are printed into metrics and paths and parsed back from them.
 */
module PolicyIds {
  import opened Wrappers

  datatype PolicyId = Policy(name: string) | GroupMember(group: string, member: string)

  function Print(id: PolicyId): string {
    match id
    case Policy(name) => name
    case GroupMember(group, member) => group + "/" + member
  }

  /** The pieces between slashes; always at least one. */
  function SplitSlashes(s: string): (parts: seq<string>)
    ensures parts != []
  {
    if s == [] then [[]]
    else
      var rest := SplitSlashes(s[1..]);
      if s[0] == '/' then [[]] + rest else [[s[0]] + rest[0]] + rest[1..]
  }

  function Parse(s: string): Option<PolicyId> {
    if s == "" then None
    else
      var parts := SplitSlashes(s);
      if |parts| == 1 then Some(Policy(s))
      else if |parts| == 2 then Some(GroupMember(parts[0], parts[1]))
      else None
  }

  function Join(parts: seq<string>): string
    requires parts != []
  {
    if |parts| == 1 then parts[0] else parts[0] + "/" + Join(parts[1..])
  }

  /** Splitting loses nothing, and no piece has a slash. */
  lemma {:induction false} JoinAfterSplit(s: string)
    ensures Join(SplitSlashes(s)) == s
    ensures forall p :: p in SplitSlashes(s) ==> '/' !in p
  {
    if s != [] {
      JoinAfterSplit(s[1..]);
      var rest, parts := SplitSlashes(s[1..]), SplitSlashes(s);
      if s[0] == '/' {
        assert parts[1..] == rest;
      } else {
        assert parts[1..] == rest[1..];
        assert forall p :: p in parts ==> p == [s[0]] + rest[0] || p in rest;
        assert rest[0] in rest;
      }
    }
  }

  lemma {:induction false} SplitAfterJoin(parts: seq<string>)
    requires parts != [] && forall p :: p in parts ==> '/' !in p
    ensures SplitSlashes(Join(parts)) == parts
    decreases |Join(parts)|
  {
    var s, head := Join(parts), parts[0];
    if head != [] {
      var shorter := [head[1..]] + parts[1..];
      assert head in parts && forall c :: c in head[1..] ==> c in head;
      assert forall p :: p in shorter ==> p == head[1..] || p in parts;
      assert shorter[1..] == parts[1..];
      assert s[1..] == Join(shorter);
      SplitAfterJoin(shorter);
      assert [head[0]] + head[1..] == head;
    } else if |parts| > 1 {
      assert s[1..] == Join(parts[1..]);
      SplitAfterJoin(parts[1..]);
      assert [[]] + parts[1..] == parts;
    }
  }

  /** Whatever parses prints back as it was written. */
  lemma PrintAfterParse(s: string)
    requires Parse(s).Some?
    ensures Print(Parse(s).value) == s
  {
    JoinAfterSplit(s);
    var parts := SplitSlashes(s);
    if |parts| == 2 {
      assert Join(parts[1..]) == parts[1];
    }
  }

  /** What the parser can tell apart: names without slashes, and a policy needs one that is not empty. */
  predicate Printable(id: PolicyId) {
    match id
    case Policy(name) => name != "" && '/' !in name
    case GroupMember(group, member) => '/' !in group && '/' !in member
  }

  /** An identifier is read back as itself if and only if it is printable. */
  lemma ParseAfterPrint(id: PolicyId)
    ensures Parse(Print(id)) == Some(id) <==> Printable(id)
  {
    match id {
      case Policy(name) =>
        if '/' !in name {
          SplitAfterJoin([name]);
        } else {
          JoinAfterSplit(name);
        }
      case GroupMember(group, member) =>
        var parts := [group, member];
        assert parts[1..] == [member];
        assert Join(parts) == Print(id);
        JoinAfterSplit(Print(id));
        if '/' !in group && '/' !in member {
          SplitAfterJoin(parts);
        }
    }
  }

  /** Only what was accepted as a configuration: no name with a slash. */
  predicate Validated(config: map<string, set<string>>) {
    forall name :: name in config ==> '/' !in name && forall member :: member in config[name] ==> '/' !in member
  }

  predicate Identifies(config: map<string, set<string>>, id: PolicyId) {
    match id
    case Policy(name) => name in config && name != ""
    case GroupMember(group, member) => group in config && member in config[group]
  }

  /** In a validated configuration different identifiers print differently. */
  lemma PrintIsInjective(config: map<string, set<string>>, a: PolicyId, b: PolicyId)
    requires Validated(config) && Identifies(config, a) && Identifies(config, b)
    requires Print(a) == Print(b)
    ensures a == b
  {
    ParseAfterPrint(a);
    ParseAfterPrint(b);
  }
}
