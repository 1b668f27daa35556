/**
  The configuration handed from the controller to the policy server. The controller (in Go) marshals
  one entry per policy, leaving out different fields for policies and for groups, and reads the same
  text back to find out which policies are configured; the policy server (in Rust) reads it a third
  way, by trying the shape of a policy first and that of a group second.
 */
module ConfigEntries {
  import opened Wrappers

  /** The field names of the format; in the text each is the JSON key of the same name. */
  datatype FieldName =
    | NamespacedName | Namespace | Name
    | Module | PolicyMode | AllowedToMutate | ContextAwareResources | Settings | Message
    | Policies | Expression
    | ApiVersion | Kind

  /** JSON, with objects told apart by their keys: the format's own fields, or names chosen by users. */
  datatype Json =
    | Null
    | Bool(b: bool)
    | Text(s: string)
    | Array(items: seq<Json>)
    | Object(fields: map<FieldName, Json>)
    | Dict(entries: map<string, Json>)

  datatype Resource = Resource(apiVersion: string, kind: string)

  /** `settings` is whatever JSON the user wrote, `Null` when there is none. */
  datatype Member = Member(url: string, settings: Json, resources: seq<Resource>)

  datatype Entry = Entry(
    namespace: string,
    name: string,
    url: string,
    mode: string,
    allowedToMutate: bool,
    resources: seq<Resource>,
    settings: Json,
    message: string,
    members: map<string, Member>,
    expression: string
  )

  // ---------------------------------------------------------------- writing

  function ResourceJson(r: Resource): Json {
    Object(map[ApiVersion := Text(r.apiVersion), Kind := Text(r.kind)])
  }

  function ResourcesJson(rs: seq<Resource>): seq<Json> {
    seq(|rs|, i requires 0 <= i < |rs| => ResourceJson(rs[i]))
  }

  /** A field that is left out when the list is empty. */
  function ResourcesField(rs: seq<Resource>): map<FieldName, Json> {
    if rs == [] then map[] else map[ContextAwareResources := Array(ResourcesJson(rs))]
  }

  function MemberJson(m: Member): Json {
    Object(map[Module := Text(m.url), Settings := m.settings] + ResourcesField(m.resources))
  }

  function MembersJson(members: map<string, Member>): map<string, Json> {
    map n | n in members :: MemberJson(members[n])
  }

  function NameJson(e: Entry): Json {
    Object(map[Namespace := Text(e.namespace), Name := Text(e.name)])
  }

  predicate IsGroup(e: Entry) {
    |e.members| > 0
  }

  function GroupJson(e: Entry): map<FieldName, Json> {
    map[NamespacedName := NameJson(e), PolicyMode := Text(e.mode),
        Policies := Dict(MembersJson(e.members)),
        Expression := Text(e.expression), Message := Text(e.message)]
  }

  function PlainJson(e: Entry): map<FieldName, Json> {
    map[NamespacedName := NameJson(e), Module := Text(e.url), PolicyMode := Text(e.mode),
        AllowedToMutate := Bool(e.allowedToMutate), Settings := e.settings]
  }

  /** A field that is left out when the message is empty. */
  function MessageField(message: string): map<FieldName, Json> {
    if message == "" then map[] else map[Message := Text(message)]
  }

  function PolicyJson(e: Entry): map<FieldName, Json> {
    PlainJson(e) + ResourcesField(e.resources) + MessageField(e.message)
  }

  function Marshal(e: Entry): Json {
    Object(if IsGroup(e) then GroupJson(e) else PolicyJson(e))
  }

  // ---------------------------------------------------------------- reading back, in Go

  function Field(fields: map<FieldName, Json>, key: FieldName): Json {
    if key in fields then fields[key] else Null
  }

  /** A missing or null field leaves the zero value; a field of the wrong type is an error. */
  function ReadText(j: Json): Option<string> {
    match j
    case Null => Some("")
    case Text(s) => Some(s)
    case _ => None
  }

  function ReadBool(j: Json): Option<bool> {
    match j
    case Null => Some(false)
    case Bool(b) => Some(b)
    case _ => None
  }

  function ReadResource(j: Json): Option<Resource> {
    match j
    case Null => Some(Resource("", ""))
    case Object(fields) =>
      var apiVersion, kind := ReadText(Field(fields, ApiVersion)), ReadText(Field(fields, Kind));
      if apiVersion.Some? && kind.Some? then Some(Resource(apiVersion.value, kind.value)) else None
    case _ => None
  }

  function ReadAll(items: seq<Json>): Option<seq<Resource>> {
    if items == [] then Some([])
    else
      var first, rest := ReadResource(items[0]), ReadAll(items[1..]);
      if first.Some? && rest.Some? then Some([first.value] + rest.value) else None
  }

  function ReadResources(j: Json): Option<seq<Resource>> {
    match j
    case Null => Some([])
    case Array(items) => ReadAll(items)
    case _ => None
  }

  function ReadMember(j: Json): Option<Member> {
    match j
    case Null => Some(Member("", Null, []))
    case Object(fields) =>
      var url, resources := ReadText(Field(fields, Module)), ReadResources(Field(fields, ContextAwareResources));
      if url.Some? && resources.Some? then Some(Member(url.value, Field(fields, Settings), resources.value)) else None
    case _ => None
  }

  function ReadMembers(j: Json): Option<map<string, Member>> {
    match j
    case Null => Some(map[])
    case Dict(fields) =>
      if forall n :: n in fields ==> ReadMember(fields[n]).Some? then
        Some(map n | n in fields :: ReadMember(fields[n]).value)
      else None
    case _ => None
  }

  function ReadName(j: Json): Option<(string, string)> {
    match j
    case Null => Some(("", ""))
    case Object(fields) =>
      var namespace, name := ReadText(Field(fields, Namespace)), ReadText(Field(fields, Name));
      if namespace.Some? && name.Some? then Some((namespace.value, name.value)) else None
    case _ => None
  }

  function ReadEntry(f: map<FieldName, Json>): Option<Entry> {
    var name := ReadName(Field(f, NamespacedName));
    var url, mode := ReadText(Field(f, Module)), ReadText(Field(f, PolicyMode));
    var mutate, resources := ReadBool(Field(f, AllowedToMutate)), ReadResources(Field(f, ContextAwareResources));
    var message, expression := ReadText(Field(f, Message)), ReadText(Field(f, Expression));
    var members := ReadMembers(Field(f, Policies));
    if && name.Some? && url.Some? && mode.Some? && mutate.Some?
       && resources.Some? && message.Some? && expression.Some? && members.Some? then
      Some(Entry(name.value.0, name.value.1, url.value, mode.value, mutate.value, resources.value,
                 Field(f, Settings), message.value, members.value, expression.value))
    else None
  }

  /** An entry is one policy or one group, never both and never neither. */
  function Unmarshal(j: Json): Option<Entry> {
    match j
    case Object(fields) =>
      (match ReadEntry(fields)
       case None => None
       case Some(e) =>
         if |e.members| == 0 && e.url == "" then None
         else if |e.members| != 0 && e.url != "" then None
         else Some(e))
    case _ => None
  }

  /** For any JSON: accepted exactly if its fields can be read and it has a module or members, not both. */
  lemma UnmarshalIff(j: Json)
    ensures Unmarshal(j).Some? <==>
            && j.Object? && ReadEntry(j.fields).Some?
            && var e := ReadEntry(j.fields).value;
               (e.url != "" && e.members == map[]) || (e.url == "" && e.members != map[])
    ensures Unmarshal(j).Some? ==> Unmarshal(j) == ReadEntry(j.fields)
  {
  }

  predicate TextOrEmpty(f: map<FieldName, Json>, key: FieldName) {
    key in f ==> f[key].Null? || f[key].Text?
  }

  /** Every field is missing, null, or of its own type. */
  predicate WellTyped(f: map<FieldName, Json>) {
    && TextOrEmpty(f, Module) && TextOrEmpty(f, PolicyMode) && TextOrEmpty(f, Message) && TextOrEmpty(f, Expression)
    && (AllowedToMutate in f ==> f[AllowedToMutate].Null? || f[AllowedToMutate].Bool?)
    && (NamespacedName in f ==>
          || f[NamespacedName].Null?
          || (f[NamespacedName].Object? && TextOrEmpty(f[NamespacedName].fields, Namespace)
              && TextOrEmpty(f[NamespacedName].fields, Name)))
    && (ContextAwareResources in f ==>
          || f[ContextAwareResources].Null?
          || (f[ContextAwareResources].Array? && ReadAll(f[ContextAwareResources].items).Some?))
    && (Policies in f ==>
          || f[Policies].Null?
          || (f[Policies].Dict? && forall n :: n in f[Policies].entries ==> ReadMember(f[Policies].entries[n]).Some?))
  }

  /** Nothing else is refused. */
  lemma ReadsWellTyped(f: map<FieldName, Json>)
    ensures ReadEntry(f).Some? <==> WellTyped(f)
  {
    assert ReadName(Field(f, NamespacedName)).Some? <==>
           (NamespacedName in f ==>
              || f[NamespacedName].Null?
              || (f[NamespacedName].Object? && TextOrEmpty(f[NamespacedName].fields, Namespace)
                  && TextOrEmpty(f[NamespacedName].fields, Name)));
  }

  /** A list of resources is read whole, in order, or not at all. */
  lemma {:induction false} ReadAllIff(items: seq<Json>)
    ensures ReadAll(items).Some? <==> forall i :: 0 <= i < |items| ==> ReadResource(items[i]).Some?
    ensures ReadAll(items).Some? ==>
              && |ReadAll(items).value| == |items|
              && forall i :: 0 <= i < |items| ==> ReadResource(items[i]) == Some(ReadAll(items).value[i])
  {
    if items != [] {
      ReadAllIff(items[1..]);
      assert forall i :: 0 < i < |items| ==> items[i] == items[1..][i - 1];
    }
  }

  /** Everything left out is empty. */
  lemma ModuleAlone(url: string)
    requires url != ""
    ensures Unmarshal(Object(map[Module := Text(url)])) == Some(Entry("", "", url, "", false, [], Null, "", map[], ""))
  {
  }

  // ---------------------------------------------------------------- the round trip

  /** What is left of an entry once it has been written down. */
  function Written(e: Entry): Entry {
    if IsGroup(e) then e.(url := "", allowedToMutate := false, resources := [], settings := Null)
    else e.(expression := "")
  }

  lemma {:induction false} ResourcesReadBack(rs: seq<Resource>)
    ensures ReadAll(ResourcesJson(rs)) == Some(rs)
  {
    if rs != [] {
      ResourcesReadBack(rs[1..]);
      assert ResourcesJson(rs)[1..] == ResourcesJson(rs[1..]);
      assert ReadResource(ResourcesJson(rs)[0]) == Some(rs[0]);
      assert [rs[0]] + rs[1..] == rs;
    }
  }

  lemma ResourcesFieldReadsBack(fields: map<FieldName, Json>, rs: seq<Resource>)
    requires ContextAwareResources !in fields
    ensures ReadResources(Field(fields + ResourcesField(rs), ContextAwareResources)) == Some(rs)
  {
    ResourcesReadBack(rs);
  }

  lemma MemberReadsBack(m: Member)
    ensures ReadMember(MemberJson(m)) == Some(m)
  {
    var fields := map[Module := Text(m.url), Settings := m.settings];
    ResourcesFieldReadsBack(fields, m.resources);
  }

  /** Members are read one by one. */
  lemma MembersFromFields(fields: map<string, Json>, members: map<string, Member>)
    requires fields.Keys == members.Keys && forall n :: n in fields ==> ReadMember(fields[n]) == Some(members[n])
    ensures ReadMembers(Dict(fields)) == Some(members)
  {
    assert members == map n | n in fields :: ReadMember(fields[n]).value;
  }

  lemma MembersReadBack(members: map<string, Member>)
    ensures ReadMembers(Dict(MembersJson(members))) == Some(members)
  {
    var fields := MembersJson(members);
    forall n | n in fields ensures ReadMember(fields[n]) == Some(members[n]) { MemberReadsBack(members[n]); }
    MembersFromFields(fields, members);
  }

  lemma EntryFromFields(f: map<FieldName, Json>, e: Entry)
    requires ReadName(Field(f, NamespacedName)) == Some((e.namespace, e.name))
    requires ReadText(Field(f, Module)) == Some(e.url) && ReadText(Field(f, PolicyMode)) == Some(e.mode)
    requires ReadBool(Field(f, AllowedToMutate)) == Some(e.allowedToMutate)
    requires ReadResources(Field(f, ContextAwareResources)) == Some(e.resources)
    requires ReadText(Field(f, Message)) == Some(e.message) && ReadText(Field(f, Expression)) == Some(e.expression)
    requires ReadMembers(Field(f, Policies)) == Some(e.members) && Field(f, Settings) == e.settings
    ensures ReadEntry(f) == Some(e)
  {
  }

  lemma GroupFields(e: Entry)
    ensures var f := GroupJson(e);
            && Field(f, NamespacedName) == Object(map[Namespace := Text(e.namespace), Name := Text(e.name)])
            && Field(f, PolicyMode) == Text(e.mode)
            && Field(f, Policies) == Dict(MembersJson(e.members))
            && Field(f, Expression) == Text(e.expression) && Field(f, Message) == Text(e.message)
            && Module !in f && Settings !in f && AllowedToMutate !in f && ContextAwareResources !in f
  {
  }

  ghost predicate HasPolicyFields(f: map<FieldName, Json>, e: Entry) {
    && Field(f, NamespacedName) == Object(map[Namespace := Text(e.namespace), Name := Text(e.name)])
    && Field(f, PolicyMode) == Text(e.mode)
    && Module in f && f[Module] == Text(e.url) && Field(f, AllowedToMutate) == Bool(e.allowedToMutate)
    && Field(f, Settings) == e.settings && Policies !in f && Expression !in f
    && Field(f, Message) == (if e.message == "" then Null else Text(e.message))
    && (e.resources == [] <==> ContextAwareResources !in f)
    && (e.resources != [] ==> f[ContextAwareResources] == Array(ResourcesJson(e.resources)))
  }

  lemma PlainFields(e: Entry)
    ensures var f := PlainJson(e);
            && Field(f, NamespacedName) == NameJson(e) && Field(f, PolicyMode) == Text(e.mode)
            && Field(f, Module) == Text(e.url) && Field(f, AllowedToMutate) == Bool(e.allowedToMutate)
            && Field(f, Settings) == e.settings
            && f.Keys == {NamespacedName, Module, PolicyMode, AllowedToMutate, Settings}
  {
  }

  lemma PolicyFields(e: Entry)
    ensures HasPolicyFields(PolicyJson(e), e)
  {
    PlainFields(e);
  }

  lemma NameReadsBack(e: Entry)
    ensures ReadName(NameJson(e)) == Some((e.namespace, e.name))
  {
  }

  lemma GroupReadsBack(e: Entry)
    requires IsGroup(e)
    ensures ReadEntry(GroupJson(e)) == Some(Written(e))
  {
    GroupFields(e);
    NameReadsBack(e);
    MembersReadBack(e.members);
    EntryFromFields(GroupJson(e), Written(e));
  }

  lemma PolicyFieldsReadBack(f: map<FieldName, Json>, e: Entry)
    requires !IsGroup(e) && HasPolicyFields(f, e)
    ensures ReadEntry(f) == Some(Written(e))
  {
    NameReadsBack(e);
    ResourcesReadBack(e.resources);
    assert e.members == map[];
    EntryFromFields(f, Written(e));
  }

  lemma PolicyReadsBack(e: Entry)
    requires !IsGroup(e)
    ensures ReadEntry(PolicyJson(e)) == Some(Written(e))
  {
    PolicyFields(e);
    PolicyFieldsReadBack(PolicyJson(e), e);
  }

  /** Reading back what was written gives the entry again, but for what its shape leaves out; it fails
      exactly when there is neither a module nor a member. */
  lemma UnmarshalAfterMarshal(e: Entry)
    ensures Unmarshal(Marshal(e)) == if |e.members| == 0 && e.url == "" then None else Some(Written(e))
  {
    if IsGroup(e) {
      GroupReadsBack(e);
    } else {
      PolicyReadsBack(e);
    }
  }

  type Entries = map<string, Entry>

  function MarshalMap(entries: Entries): Json {
    Dict(map n | n in entries :: Marshal(entries[n]))
  }

  function UnmarshalMap(j: Json): Option<Entries> {
    match j
    case Null => Some(map[])
    case Dict(fields) =>
      if forall n :: n in fields ==> Unmarshal(fields[n]).Some? then
        Some(map n | n in fields :: Unmarshal(fields[n]).value)
      else None
    case _ => None
  }

  predicate Vacant(e: Entry) {
    |e.members| == 0 && e.url == ""
  }

  /** Reading back is entry by entry. */
  lemma MapFromEntries(fields: map<string, Json>, entries: Entries)
    requires fields.Keys == entries.Keys
    requires forall n :: n in entries ==>
               Unmarshal(fields[n]) == if Vacant(entries[n]) then None else Some(Written(entries[n]))
    ensures UnmarshalMap(Dict(fields)).None? <==> exists n :: n in entries && Vacant(entries[n])
    ensures UnmarshalMap(Dict(fields)).Some? ==>
              UnmarshalMap(Dict(fields)).value == map n | n in entries :: Written(entries[n])
  {
    if UnmarshalMap(Dict(fields)).None? {
      var n :| n in fields && Unmarshal(fields[n]).None?;
    }
  }

  /** The whole map: one entry with neither module nor members makes all of it unreadable, so that no
      policy of that server counts as configured; otherwise the same names come back. */
  lemma MapReadsBack(entries: Entries)
    ensures UnmarshalMap(MarshalMap(entries)).None? <==> exists n :: n in entries && Vacant(entries[n])
    ensures UnmarshalMap(MarshalMap(entries)).Some? ==>
              UnmarshalMap(MarshalMap(entries)).value == map n | n in entries :: Written(entries[n])
  {
    forall n | n in entries
      ensures Unmarshal(Marshal(entries[n])) == if Vacant(entries[n]) then None else Some(Written(entries[n]))
    {
      UnmarshalAfterMarshal(entries[n]);
    }
    MapFromEntries(MarshalMap(entries).entries, entries);
  }

  // ---------------------------------------------------------------- building the map

  datatype Policy =
    | Single(namespace: string, name: string, url: string, mode: string, mutating: bool, resources: seq<Resource>,
             settings: Json, message: string)
    | Group(namespace: string, name: string, mode: string, message: string, members: map<string, Member>,
            expression: string)

  function EntryOf(p: Policy): Entry {
    match p
    case Single(ns, n, url, mode, mutating, resources, settings, message) =>
      Entry(ns, n, url, mode, mutating, resources, settings, message, map[], "")
    case Group(ns, n, mode, message, members, expression) =>
      Entry(ns, n, "", mode, false, [], Null, message, members, expression)
  }

  /** The entry says of the policy what the policy says of itself. */
  predicate Carries(e: Entry, p: Policy) {
    && e.namespace == p.namespace && e.name == p.name && e.mode == p.mode && e.message == p.message
    && (p.Single? ==>
          && e.url == p.url && e.allowedToMutate == p.mutating && e.resources == p.resources && e.settings == p.settings
          && e.members == map[] && e.expression == "")
    && (p.Group? ==>
          && e.members == p.members && e.expression == p.expression
          && e.url == "" && !e.allowedToMutate && e.resources == [] && e.settings == Null)
  }

  /** With distinct unique names, every policy has its entry under its name. */
  method BuildPoliciesMap(policies: seq<Policy>, uniqueName: Policy -> string) returns (entries: Entries)
    ensures entries.Keys == set i | 0 <= i < |policies| :: uniqueName(policies[i])
    ensures forall n :: n in entries ==>
              exists i :: 0 <= i < |policies| && n == uniqueName(policies[i]) && Carries(entries[n], policies[i])
    ensures (forall i, j :: 0 <= i < j < |policies| ==> uniqueName(policies[i]) != uniqueName(policies[j])) ==>
              forall i :: 0 <= i < |policies| ==> Carries(entries[uniqueName(policies[i])], policies[i])
  {
    entries := map[];
    for k := 0 to |policies|
      invariant forall i :: 0 <= i < k ==> uniqueName(policies[i]) in entries
      invariant forall n :: n in entries ==>
                  exists i :: 0 <= i < k && n == uniqueName(policies[i]) && Carries(entries[n], policies[i])
      invariant (forall i, j :: 0 <= i < j < |policies| ==> uniqueName(policies[i]) != uniqueName(policies[j])) ==>
                  forall i :: 0 <= i < k ==> Carries(entries[uniqueName(policies[i])], policies[i])
    {
      entries := entries[uniqueName(policies[k]) := EntryOf(policies[k])];
    }
  }
}
