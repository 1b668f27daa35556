/**
  The policy server's reading of the configuration: the shape of a policy is tried first, that of a
  group second, and unknown fields are ignored except inside group members.
 */
module ConfigDecoding {
  import opened Wrappers
  import opened ConfigEntries

  datatype Mode = Monitor | Protect

  datatype GroupMember = GroupMember(url: string, settings: Option<Json>, resources: set<Resource>)

  datatype PolicyOrGroup =
    | PolicyConfig(url: string, mode: Mode, allowedToMutate: Option<bool>, settings: Option<Json>,
                   resources: set<Resource>, message: Option<string>)
    | GroupConfig(mode: Mode, members: map<string, GroupMember>, expression: string, rejection: string)

  type Fields = map<FieldName, Json>

  /** `Some(x)` for a field read as `x`; `None` when it cannot be read. */
  function DecodeMode(f: Fields): Option<Mode> {
    if PolicyMode !in f then Some(Protect)
    else if f[PolicyMode] == Text("monitor") then Some(Monitor)
    else if f[PolicyMode] == Text("protect") then Some(Protect)
    else None
  }

  function DecodeText(f: Fields, key: FieldName): Option<string> {
    if key in f && f[key].Text? then Some(f[key].s) else None
  }

  function DecodeOptionalText(f: Fields, key: FieldName): Option<Option<string>> {
    match Field(f, key)
    case Null => Some(None)
    case Text(s) => Some(Some(s))
    case _ => None
  }

  function DecodeOptionalBool(f: Fields, key: FieldName): Option<Option<bool>> {
    match Field(f, key)
    case Null => Some(None)
    case Bool(b) => Some(Some(b))
    case _ => None
  }

  function DecodeSettings(f: Fields): Option<Option<Json>> {
    match Field(f, Settings)
    case Null => Some(None)
    case Dict(_) => Some(Some(f[Settings]))
    case _ => None
  }

  function DecodeResource(j: Json): Option<Resource> {
    if j.Object? && DecodeText(j.fields, ApiVersion).Some? && DecodeText(j.fields, Kind).Some? then
      Some(Resource(DecodeText(j.fields, ApiVersion).value, DecodeText(j.fields, Kind).value))
    else None
  }

  function DecodeAll(items: seq<Json>): Option<set<Resource>> {
    if items == [] then Some({})
    else
      var first, rest := DecodeResource(items[0]), DecodeAll(items[1..]);
      if first.Some? && rest.Some? then Some({first.value} + rest.value) else None
  }

  function DecodeResources(f: Fields): Option<set<Resource>> {
    if ContextAwareResources !in f then Some({})
    else if f[ContextAwareResources].Array? then DecodeAll(f[ContextAwareResources].items)
    else None
  }

  function DecodeMember(j: Json): Option<GroupMember> {
    if !j.Object? || !(j.fields.Keys <= {Module, Settings, ContextAwareResources}) then None
    else
      var url, settings, resources := DecodeText(j.fields, Module), DecodeSettings(j.fields), DecodeResources(j.fields);
      if url.Some? && settings.Some? && resources.Some? then
        Some(GroupMember(url.value, settings.value, resources.value))
      else None
  }

  function DecodeEach(entries: map<string, Json>): Option<map<string, GroupMember>> {
    if forall n :: n in entries ==> DecodeMember(entries[n]).Some? then
      Some(map n | n in entries :: DecodeMember(entries[n]).value)
    else None
  }

  function DecodeMembers(f: Fields): Option<map<string, GroupMember>> {
    if Policies in f && f[Policies].Dict? then DecodeEach(f[Policies].entries) else None
  }

  function DecodePolicy(f: Fields): Option<PolicyOrGroup> {
    var url, mode, mutate := DecodeText(f, Module), DecodeMode(f), DecodeOptionalBool(f, AllowedToMutate);
    var settings, resources, message := DecodeSettings(f), DecodeResources(f), DecodeOptionalText(f, Message);
    if url.Some? && mode.Some? && mutate.Some? && settings.Some? && resources.Some? && message.Some? then
      Some(PolicyConfig(url.value, mode.value, mutate.value, settings.value, resources.value, message.value))
    else None
  }

  function DecodeGroup(f: Fields): Option<PolicyOrGroup> {
    var mode, members := DecodeMode(f), DecodeMembers(f);
    var expression, message := DecodeText(f, Expression), DecodeText(f, Message);
    if mode.Some? && members.Some? && expression.Some? && message.Some? then
      Some(GroupConfig(mode.value, members.value, expression.value, message.value))
    else None
  }

  function Decode(j: Json): Option<PolicyOrGroup> {
    if !j.Object? then None
    else if DecodePolicy(j.fields).Some? then DecodePolicy(j.fields)
    else DecodeGroup(j.fields)
  }

  // ---------------------------------------------------------------- both sides agree

  predicate SettingsUsable(j: Json) {
    j.Null? || j.Dict?
  }

  function ModeOf(mode: string): Mode {
    if mode == "monitor" then Monitor else Protect
  }

  /** A known mode, and settings that are an object or left out. */
  predicate Readable(e: Entry) {
    && (e.mode == "monitor" || e.mode == "protect")
    && (IsGroup(e) || SettingsUsable(e.settings))
    && forall n :: n in e.members ==> SettingsUsable(e.members[n].settings)
  }

  function SettingsOf(j: Json): Option<Json> {
    if j.Null? then None else Some(j)
  }

  function ToSet(rs: seq<Resource>): set<Resource> {
    set r | r in rs
  }

  function MembersOf(members: map<string, Member>): map<string, GroupMember> {
    map n | n in members :: MemberOf(members[n])
  }

  function MemberOf(m: Member): GroupMember {
    GroupMember(m.url, SettingsOf(m.settings), ToSet(m.resources))
  }

  /** The same policy or group, in the policy server's terms. */
  function Meant(e: Entry): PolicyOrGroup {
    if IsGroup(e) then
      GroupConfig(ModeOf(e.mode), MembersOf(e.members), e.expression, e.message)
    else
      PolicyConfig(e.url, ModeOf(e.mode), Some(e.allowedToMutate), SettingsOf(e.settings), ToSet(e.resources),
                   if e.message == "" then None else Some(e.message))
  }

  lemma {:induction false} AllDecode(rs: seq<Resource>)
    ensures DecodeAll(ResourcesJson(rs)) == Some(ToSet(rs))
  {
    if rs != [] {
      AllDecode(rs[1..]);
      assert ResourcesJson(rs)[1..] == ResourcesJson(rs[1..]);
      assert DecodeResource(ResourcesJson(rs)[0]) == Some(rs[0]);
      assert ToSet(rs) == {rs[0]} + ToSet(rs[1..]);
    } else {
      assert ToSet(rs) == {};
    }
  }

  lemma ResourcesDecode(f: Fields, rs: seq<Resource>)
    requires rs == [] <==> ContextAwareResources !in f
    requires rs != [] ==> f[ContextAwareResources] == Array(ResourcesJson(rs))
    ensures DecodeResources(f) == Some(ToSet(rs))
  {
    AllDecode(rs);
  }

  lemma MemberDecodes(m: Member)
    ensures DecodeMember(MemberJson(m)) == if SettingsUsable(m.settings) then Some(MemberOf(m)) else None
  {
    ResourcesDecode(MemberJson(m).fields, m.resources);
  }

  lemma EachDecodes(entries: map<string, Json>, members: map<string, Member>)
    requires entries.Keys == members.Keys
    requires forall n :: n in members ==> DecodeMember(entries[n]) == Some(MemberOf(members[n]))
    ensures DecodeEach(entries) == Some(MembersOf(members))
  {
    assert MembersOf(members) == map n | n in entries :: DecodeMember(entries[n]).value;
  }

  lemma MembersDecode(members: map<string, Member>)
    ensures if forall n :: n in members ==> SettingsUsable(members[n].settings)
            then DecodeEach(MembersJson(members)) == Some(MembersOf(members))
            else DecodeEach(MembersJson(members)) == None
  {
    var entries := MembersJson(members);
    forall n | n in members
      ensures DecodeMember(entries[n]) ==
              if SettingsUsable(members[n].settings) then Some(MemberOf(members[n])) else None
    {
      MemberDecodes(members[n]);
    }
    if forall n :: n in members ==> SettingsUsable(members[n].settings) {
      EachDecodes(entries, members);
    } else {
      var n :| n in members && !SettingsUsable(members[n].settings);
      assert n in entries && DecodeMember(entries[n]) == None;
    }
  }

  lemma GroupDecodes(e: Entry)
    requires IsGroup(e)
    ensures DecodePolicy(GroupJson(e)).None?
    ensures DecodeGroup(GroupJson(e)) == if Readable(e) then Some(Meant(e)) else None
  {
    GroupFields(e);
    MembersDecode(e.members);
    var f := GroupJson(e);
    assert DecodeText(f, Module).None?;
    assert PolicyMode in f && DecodeMembers(f) == DecodeEach(MembersJson(e.members));
  }

  lemma PolicyFromFields(f: Fields, e: Entry)
    requires !IsGroup(e) && DecodeResources(f) == Some(ToSet(e.resources)) && e.members == map[]
    requires Module in f && f[Module] == Text(e.url) && Field(f, PolicyMode) == Text(e.mode)
    requires Field(f, AllowedToMutate) == Bool(e.allowedToMutate) && Field(f, Settings) == e.settings
    requires Field(f, Message) == if e.message == "" then Null else Text(e.message)
    ensures DecodePolicy(f) == if Readable(e) then Some(Meant(e)) else None
  {
  }

  lemma PolicyDecodes(e: Entry)
    requires !IsGroup(e)
    ensures DecodePolicy(PolicyJson(e)) == if Readable(e) then Some(Meant(e)) else None
    ensures DecodeGroup(PolicyJson(e)) == None
  {
    PolicyFields(e);
    assert e.members == map[];
    ResourcesDecode(PolicyJson(e), e.resources);
    PolicyFromFields(PolicyJson(e), e);
  }

  /** Every readable entry is decoded as what it was: a policy as a policy and a group as a group, with the
      same modules, mode, settings, expression and message; any other is refused. */
  lemma DecodesAsMeant(e: Entry)
    ensures Decode(Marshal(e)) == if Readable(e) then Some(Meant(e)) else None
  {
    if IsGroup(e) {
      GroupDecodes(e);
    } else {
      PolicyDecodes(e);
    }
  }

  /** The controller, reading the same text back, refuses other entries: those with neither a module nor
      members. What both accept is of the same kind with the same module. */
  lemma BothSidesAgree(e: Entry)
    ensures Decode(Marshal(e)).Some? <==> Readable(e)
    ensures Unmarshal(Marshal(e)).Some? <==> !Vacant(e)
    ensures Readable(e) && !Vacant(e) ==>
              var here, there := Unmarshal(Marshal(e)).value, Decode(Marshal(e)).value;
              (there.GroupConfig? <==> IsGroup(here)) && (there.PolicyConfig? ==> there.url == here.url)
  {
    DecodesAsMeant(e);
    UnmarshalAfterMarshal(e);
  }

  // ---------------------------------------------------------------- from the policy object to the policy server

  /** What the policy server makes of a policy object, through the entry and the text. */
  lemma PolicyArrives(p: Policy)
    requires p.Single? && (p.mode == "monitor" || p.mode == "protect") && SettingsUsable(p.settings)
    ensures Decode(Marshal(EntryOf(p))) ==
            Some(PolicyConfig(p.url, if p.mode == "monitor" then Monitor else Protect, Some(p.mutating),
                              if p.settings.Null? then None else Some(p.settings), ToSet(p.resources),
                              if p.message == "" then None else Some(p.message)))
  {
    DecodesAsMeant(EntryOf(p));
  }

  /** And of a group with members. */
  lemma GroupArrives(p: Policy)
    requires p.Group? && |p.members| > 0 && (p.mode == "monitor" || p.mode == "protect")
    requires forall n :: n in p.members ==> SettingsUsable(p.members[n].settings)
    ensures Decode(Marshal(EntryOf(p))) ==
            Some(GroupConfig(if p.mode == "monitor" then Monitor else Protect, MembersOf(p.members), p.expression,
                             p.message))
    ensures MembersOf(p.members).Keys == p.members.Keys
    ensures forall n :: n in p.members ==>
              var m := p.members[n];
              MembersOf(p.members)[n] ==
                GroupMember(m.url, if m.settings.Null? then None else Some(m.settings), ToSet(m.resources))
  {
    DecodesAsMeant(EntryOf(p));
  }

  // ---------------------------------------------------------------- any configuration

  /** A mode is monitor, or protect, or missing and then protect; anything else is refused. */
  lemma ModeDefaults(f: Fields)
    ensures DecodeMode(f) == Some(Monitor) <==> PolicyMode in f && f[PolicyMode] == Text("monitor")
    ensures DecodeMode(f) == Some(Protect) <==> (PolicyMode in f ==> f[PolicyMode] == Text("protect"))
  {
  }

  /** What makes fields a member: nothing but a module, settings and resources. */
  predicate LooksLikeMember(j: Json) {
    && j.Object? && (forall key :: key in j.fields ==> key in {Module, Settings, ContextAwareResources})
    && Module in j.fields && j.fields[Module].Text?
    && (Settings in j.fields ==> j.fields[Settings].Null? || j.fields[Settings].Dict?)
    && (ContextAwareResources in j.fields ==>
          j.fields[ContextAwareResources].Array? && DecodeAll(j.fields[ContextAwareResources].items).Some?)
  }

  lemma MemberIff(j: Json)
    ensures DecodeMember(j).Some? <==> LooksLikeMember(j)
    ensures DecodeMember(j).Some? ==> DecodeMember(j).value.url == j.fields[Module].s
  {
  }

  /** A list of resources is read whole, or not at all; each needs both of its texts. */
  lemma {:induction false} DecodeAllIff(items: seq<Json>)
    ensures DecodeAll(items).Some? <==> forall i :: 0 <= i < |items| ==> NamesResource(items[i])
    ensures DecodeAll(items).Some? ==>
              DecodeAll(items).value ==
                set i | 0 <= i < |items| && NamesResource(items[i])
                  :: Resource(items[i].fields[ApiVersion].s, items[i].fields[Kind].s)
  {
    if items != [] {
      DecodeAllIff(items[1..]);
      assert forall i :: 0 < i < |items| ==> items[i] == items[1..][i - 1];
    }
  }

  predicate NamesResource(j: Json) {
    && j.Object? && ApiVersion in j.fields && j.fields[ApiVersion].Text?
    && Kind in j.fields && j.fields[Kind].Text?
  }

  /** What makes fields a policy. */
  predicate LooksLikePolicy(f: Fields) {
    && Module in f && f[Module].Text?
    && (PolicyMode in f ==> f[PolicyMode] in {Text("monitor"), Text("protect")})
    && (AllowedToMutate in f ==> f[AllowedToMutate].Null? || f[AllowedToMutate].Bool?)
    && (Settings in f ==> f[Settings].Null? || f[Settings].Dict?)
    && (Message in f ==> f[Message].Null? || f[Message].Text?)
    && (ContextAwareResources in f ==>
          f[ContextAwareResources].Array? && DecodeAll(f[ContextAwareResources].items).Some?)
  }

  /** What makes fields a group. */
  predicate LooksLikeGroup(f: Fields) {
    && Policies in f && f[Policies].Dict?
    && (forall n :: n in f[Policies].entries ==> LooksLikeMember(f[Policies].entries[n]))
    && Expression in f && f[Expression].Text? && Message in f && f[Message].Text?
    && (PolicyMode in f ==> f[PolicyMode] in {Text("monitor"), Text("protect")})
  }

  /** For any fields: what looks like a policy is one, even if it looks like a group too; only what does not can
      be a group; and anything else is refused. */
  lemma PolicyComesFirst(f: Fields)
    ensures Decode(Object(f)).Some? <==> LooksLikePolicy(f) || LooksLikeGroup(f)
    ensures Decode(Object(f)).Some? ==> (Decode(Object(f)).value.PolicyConfig? <==> LooksLikePolicy(f))
    ensures LooksLikePolicy(f) ==> Decode(Object(f)).value.url == f[Module].s
    ensures !LooksLikePolicy(f) && LooksLikeGroup(f) ==>
              Decode(Object(f)).value.expression == f[Expression].s && Decode(Object(f)).value.rejection == f[Message].s
  {
    ModeDefaults(f);
    if Policies in f && f[Policies].Dict? {
      forall n | n in f[Policies].entries
        ensures DecodeMember(f[Policies].entries[n]).Some? <==> LooksLikeMember(f[Policies].entries[n])
      {
        MemberIff(f[Policies].entries[n]);
      }
    }
    assert DecodePolicy(f).Some? <==> LooksLikePolicy(f);
    assert DecodeGroup(f).Some? <==> LooksLikeGroup(f);
  }
}
