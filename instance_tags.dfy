/**
 * The instance card: the parser of VRChat instance strings
 * (`<id>~private(usr)~canRequestInvite~region(jp)~...`) and the access level
 * it derives, the status colour of a friend, and the launch link.
 */
module InstanceTags {
  import opened Basics
  import opened Strings

  /** The access levels an instance string can describe. */
  datatype AccessType =
    | Public | FriendsPlus | Friends | InvitePlus | Invite
    | GroupPublic | GroupPlus | Group | Private

  /** The parse result; a field the string does not set is `None`. */
  datatype InstanceData = InstanceData(
    instanceId: string, accessType: AccessType, instanceOwnerId: Option<string>,
    region: Option<string>, nonce: Option<string>, groupId: Option<string>)

  /** The characters of `[a-zA-Z0-9_-]`. */
  predicate IsIdChar(c: char)
  {
    ('a' <= c <= 'z') || ('A' <= c <= 'Z') || ('0' <= c <= '9') || c == '_' || c == '-'
  }

  const IdPrefix: string := "instanceId="

  /** What `^instanceId=([a-zA-Z0-9_-]+)$` captures from the first part. */
  function InstanceIdOf(part: string): (r: Option<string>)
    ensures r.Some? <==>
              IdPrefix <= part && |part| > |IdPrefix|
              && forall k :: |IdPrefix| <= k < |part| ==> IsIdChar(part[k])
    ensures r.Some? ==> part == IdPrefix + r.value
  {
    if IdPrefix <= part && |part| > |IdPrefix| && forall k :: |IdPrefix| <= k < |part| ==> IsIdChar(part[k]) then
      Some(part[|IdPrefix|..])
    else None
  }

  /** The inner text of a tag argument: at least one character, none a line terminator (`.+`). */
  predicate IsArg(v: string)
  {
    |v| > 0 && forall k :: 0 <= k < |v| ==> !IsLineTerminator(v[k])
  }

  /** What `^name\((.+)\)$` captures from a part. */
  function Arg(part: string, name: string): (r: Option<string>)
    ensures r.Some? ==> part == name + "(" + r.value + ")" && IsArg(r.value)
  {
    var open := name + "(";
    if open <= part && |part| >= |open| + 2 && part[|part| - 1] == ')' then
      var v := part[|open|..|part| - 1];
      assert part == open + v + ")";
      if IsArg(v) then Some(v) else None
    else None
  }

  /** `Arg` captures every argument of the right shape. */
  lemma ArgComplete(name: string, v: string)
    requires IsArg(v)
    ensures Arg(name + "(" + v + ")", name) == Some(v)
  {
    var part := name + "(" + v + ")";
    var open := name + "(";
    assert part == open + v + ")";
    assert open <= part;
    assert part[|open|..|part| - 1] == v;
  }

  /** Which of the three owner tags a part is. */
  datatype OwnerKind = PrivateOwner | FriendsOwner | HiddenOwner

  /** What a `~`-separated part says. */
  datatype Tag =
    | Owner(kind: OwnerKind, ownerId: string)
    | CanRequestInvite
    | Region(region: string)
    | Nonce(nonce: string)
    | GroupTag(groupId: string)
    | GroupAccess(groupType: string)
    | Ignored

  /** The first pattern of the parser's chain that a part matches. */
  function Classify(part: string): Tag
  {
    if Arg(part, "private").Some? then Owner(PrivateOwner, Arg(part, "private").value)
    else if Arg(part, "friends").Some? then Owner(FriendsOwner, Arg(part, "friends").value)
    else if Arg(part, "hidden").Some? then Owner(HiddenOwner, Arg(part, "hidden").value)
    else if part == "canRequestInvite" then CanRequestInvite
    else if Arg(part, "region").Some? then Region(Arg(part, "region").value)
    else if Arg(part, "nonce").Some? then Nonce(Arg(part, "nonce").value)
    else if Arg(part, "group").Some? then GroupTag(Arg(part, "group").value)
    else if Arg(part, "groupAccessType").Some? then GroupAccess(Arg(part, "groupAccessType").value)
    else Ignored
  }

  /** The flags and fields the parser's loop accumulates. */
  datatype Scan = Scan(
    hasPrivate: bool, hasCanRequestInvite: bool, hasFriends: bool, hasHidden: bool, hasGroup: bool,
    groupType: Option<string>, owner: Option<string>, region: Option<string>, nonce: Option<string>,
    groupId: Option<string>)

  const Start: Scan := Scan(false, false, false, false, false, None, None, None, None, None)

  /** The effect of one part on the accumulated state. */
  function Step(s: Scan, t: Tag): Scan
  {
    match t
    case Owner(kind, id) =>
      s.(hasPrivate := s.hasPrivate || kind == PrivateOwner,
         hasFriends := s.hasFriends || kind == FriendsOwner,
         hasHidden := s.hasHidden || kind == HiddenOwner,
         owner := Some(id))
    case CanRequestInvite => s.(hasCanRequestInvite := true)
    case Region(r) => s.(region := Some(r))
    case Nonce(n) => s.(nonce := Some(n))
    case GroupTag(g) => s.(hasGroup := true, groupId := Some(g))
    case GroupAccess(g) => s.(groupType := Some(g))
    case Ignored => s
  }

  /** Each part classified. */
  function Tags(ps: seq<string>): (ts: seq<Tag>)
    ensures |ts| == |ps|
    ensures forall k :: 0 <= k < |ps| ==> ts[k] == Classify(ps[k])
  {
    seq(|ps|, k requires 0 <= k < |ps| => Classify(ps[k]))
  }

  /** The state after the tags `ts`, in order. */
  function ScanTags(ts: seq<Tag>): Scan
    decreases |ts|
  {
    if ts == [] then Start else Step(ScanTags(ts[..|ts| - 1]), ts[|ts| - 1])
  }

  /** Scanning one more tag is one more step. */
  lemma ScanTagsSnoc(ts: seq<Tag>, i: nat)
    requires i < |ts|
    ensures ScanTags(ts[..i + 1]) == Step(ScanTags(ts[..i]), ts[i])
  {
    assert ts[..i + 1][..i] == ts[..i];
  }

  /** The access-level decision after the loop; an unknown group type keeps the default `Public`. */
  function AccessOf(s: Scan, input: string): AccessType
  {
    if s.hasGroup then
      if s.groupType == Some("public") then GroupPublic
      else if s.groupType == Some("plus") then GroupPlus
      else if s.groupType == Some("members") then Group
      else Public
    else if s.hasHidden then FriendsPlus
    else if s.hasFriends then Friends
    else if s.hasPrivate then (if s.hasCanRequestInvite then InvitePlus else Invite)
    else if Lower(input) == "private" || Lower(input) == "offline" || Lower(input) == "traveling" then Private
    else Public
  }

  /** The parts after the first. */
  function TagParts(input: string): seq<string>
  {
    Split(input, '~')[1..]
  }

  /** The result of `parseInstanceString`. */
  function Parse(input: string): InstanceData
  {
    var s := ScanTags(Tags(TagParts(input)));
    InstanceData(InstanceIdOf(Split(input, '~')[0]).GetOr(""), AccessOf(s, input),
                 s.owner, s.region, s.nonce, s.groupId)
  }

  /** The body of the `forEach` callback: one part updates the flags and fields it matches. */
  method ApplyPart(s: Scan, part: string) returns (r: Scan)
    ensures r == Step(s, Classify(part))
  {
    r := s;
    match Classify(part) {
      case Owner(kind, id) =>
        if kind == PrivateOwner { r := r.(hasPrivate := true); }
        if kind == FriendsOwner { r := r.(hasFriends := true); }
        if kind == HiddenOwner { r := r.(hasHidden := true); }
        r := r.(owner := Some(id));
      case CanRequestInvite =>
        r := r.(hasCanRequestInvite := true);
      case Region(region) =>
        r := r.(region := Some(region));
      case Nonce(nonce) =>
        r := r.(nonce := Some(nonce));
      case GroupTag(g) =>
        r := r.(hasGroup := true, groupId := Some(g));
      case GroupAccess(g) =>
        r := r.(groupType := Some(g));
      case Ignored =>
    }
  }

  /** The `if`/`else` chain after the loop, on the flags it has accumulated. */
  method AccessLevel(s: Scan, input: string) returns (accessType: AccessType)
    ensures accessType == AccessOf(s, input)
  {
    accessType := Public;
    if s.hasGroup {
      if s.groupType == Some("public") {
        accessType := GroupPublic;
      } else if s.groupType == Some("plus") {
        accessType := GroupPlus;
      } else if s.groupType == Some("members") {
        accessType := Group;
      }
    } else if s.hasHidden {
      accessType := FriendsPlus;
    } else if s.hasFriends {
      accessType := Friends;
    } else if s.hasPrivate {
      accessType := if s.hasCanRequestInvite then InvitePlus else Invite;
    } else if Lower(input) == "private" || Lower(input) == "offline" || Lower(input) == "traveling" {
      accessType := Private;
    }
  }

  /**
   * `parseInstanceString`: the `forEach` over the tag parts updating the flags
   * and fields, here held together in `scan`, then the access-level decision.
   */
  method ParseInstanceString(input: string) returns (data: InstanceData)
    ensures data == Parse(input)
  {
    var parts := Split(input, '~');
    var instanceId := "";
    var firstPartMatch := InstanceIdOf(parts[0]);
    if firstPartMatch.Some? {
      instanceId := firstPartMatch.value;
    }
    var scan := Start;
    var rest := parts[1..];
    ghost var ts := Tags(rest);
    var i := 0;
    while i < |rest|
      invariant 0 <= i <= |rest|
      invariant scan == ScanTags(ts[..i])
    {
      ScanTagsSnoc(ts, i);
      scan := ApplyPart(scan, rest[i]);
      i := i + 1;
    }
    assert ts[..|rest|] == ts;

    var accessType := AccessLevel(scan, input);
    data := InstanceData(instanceId, accessType, scan.owner, scan.region, scan.nonce, scan.groupId);
  }

  // ----- What the accumulated state says about the parts -----

  /** The flags the parser sets. */
  datatype Flag = PrivateFlag | FriendsFlag | HiddenFlag | InviteFlag | GroupFlag

  /** Whether a part of kind `t` sets flag `f`. */
  predicate SetsFlag(t: Tag, f: Flag)
  {
    match f
    case PrivateFlag => t.Owner? && t.kind == PrivateOwner
    case FriendsFlag => t.Owner? && t.kind == FriendsOwner
    case HiddenFlag => t.Owner? && t.kind == HiddenOwner
    case InviteFlag => t == CanRequestInvite
    case GroupFlag => t.GroupTag?
  }

  function FlagIn(s: Scan, f: Flag): bool
  {
    match f
    case PrivateFlag => s.hasPrivate
    case FriendsFlag => s.hasFriends
    case HiddenFlag => s.hasHidden
    case InviteFlag => s.hasCanRequestInvite
    case GroupFlag => s.hasGroup
  }

  /** Some tag sets flag `f`. */
  predicate Present(ts: seq<Tag>, f: Flag)
  {
    exists k :: 0 <= k < |ts| && SetsFlag(ts[k], f)
  }

  /** The fields the parser records; a later part overwrites an earlier one. */
  datatype Field = OwnerField | RegionField | NonceField | GroupIdField | GroupTypeField

  /** The value a part of kind `t` gives field `f`, if any. */
  function ValueOf(t: Tag, f: Field): Option<string>
  {
    match f
    case OwnerField => if t.Owner? then Some(t.ownerId) else None
    case RegionField => if t.Region? then Some(t.region) else None
    case NonceField => if t.Nonce? then Some(t.nonce) else None
    case GroupIdField => if t.GroupTag? then Some(t.groupId) else None
    case GroupTypeField => if t.GroupAccess? then Some(t.groupType) else None
  }

  function FieldIn(s: Scan, f: Field): Option<string>
  {
    match f
    case OwnerField => s.owner
    case RegionField => s.region
    case NonceField => s.nonce
    case GroupIdField => s.groupId
    case GroupTypeField => s.groupType
  }

  /** The last tag that gives field `f` a value gives it `v`. */
  predicate LastIs(ts: seq<Tag>, f: Field, v: string)
  {
    exists k :: 0 <= k < |ts| && ValueOf(ts[k], f) == Some(v)
                && forall j :: k < j < |ts| ==> ValueOf(ts[j], f).None?
  }

  /** One tag sets a flag or leaves it as it was. */
  lemma StepFlag(s: Scan, t: Tag, f: Flag)
    ensures FlagIn(Step(s, t), f) == (FlagIn(s, f) || SetsFlag(t, f))
  {
  }

  /** A flag is set exactly when some tag sets it. */
  lemma {:induction false} FlagPresent(ts: seq<Tag>, f: Flag)
    ensures FlagIn(ScanTags(ts), f) <==> Present(ts, f)
    decreases |ts|
  {
    if ts != [] {
      var p := ts[..|ts| - 1];
      FlagPresent(p, f);
      StepFlag(ScanTags(p), ts[|ts| - 1], f);
      if Present(p, f) {
        var k :| 0 <= k < |p| && SetsFlag(p[k], f);
        assert ts[k] == p[k];
      }
      if Present(ts, f) && !SetsFlag(ts[|ts| - 1], f) {
        var k :| 0 <= k < |ts| && SetsFlag(ts[k], f);
        assert p[k] == ts[k];
      }
    }
  }

  /** One tag overwrites a field exactly when it gives it a value. */
  lemma StepField(s: Scan, t: Tag, f: Field)
    ensures FieldIn(Step(s, t), f) == if ValueOf(t, f).Some? then ValueOf(t, f) else FieldIn(s, f)
  {
  }

  /** A field holds `v` exactly when the last tag giving it a value gives `v`. */
  lemma {:induction false} FieldLast(ts: seq<Tag>, f: Field, v: string)
    ensures FieldIn(ScanTags(ts), f) == Some(v) <==> LastIs(ts, f, v)
    decreases |ts|
  {
    if ts != [] {
      var p := ts[..|ts| - 1];
      FieldLast(p, f, v);
      StepField(ScanTags(p), ts[|ts| - 1], f);
      LastIsSnoc(ts, f, v);
    }
  }

  /** The last tag decides `LastIs` when it gives the field a value; otherwise the tags before it do. */
  lemma LastIsSnoc(ts: seq<Tag>, f: Field, v: string)
    requires ts != []
    ensures var x := ValueOf(ts[|ts| - 1], f);
            LastIs(ts, f, v) <==> if x.Some? then x == Some(v) else LastIs(ts[..|ts| - 1], f, v)
  {
    var p := ts[..|ts| - 1];
    var x := ValueOf(ts[|ts| - 1], f);
    if x.Some? {
      if LastIs(ts, f, v) {
        var k :| 0 <= k < |ts| && ValueOf(ts[k], f) == Some(v)
                 && forall j :: k < j < |ts| ==> ValueOf(ts[j], f).None?;
        assert k == |ts| - 1;
      }
    } else {
      if LastIs(p, f, v) {
        var k :| 0 <= k < |p| && ValueOf(p[k], f) == Some(v)
                 && forall j :: k < j < |p| ==> ValueOf(p[j], f).None?;
        assert ts[k] == p[k];
        forall j | k < j < |ts| ensures ValueOf(ts[j], f).None? {
          if j < |p| { assert ts[j] == p[j]; }
        }
      }
      if LastIs(ts, f, v) {
        var k :| 0 <= k < |ts| && ValueOf(ts[k], f) == Some(v)
                 && forall j :: k < j < |ts| ==> ValueOf(ts[j], f).None?;
        assert p[k] == ts[k];
        assert forall j :: k < j < |p| ==> ts[j] == p[j];
      }
    }
  }

  // ----- Properties of the parser -----

  /** `instanceId` is the identifier after `instanceId=` in the first part, or `""` when that part has another shape. */
  lemma InstanceIdRule(input: string)
    ensures var first := Split(input, '~')[0];
            var id := Parse(input).instanceId;
            && (id != "" <==> IdPrefix <= first && |first| > |IdPrefix|
                              && forall k :: |IdPrefix| <= k < |first| ==> IsIdChar(first[k]))
            && (id != "" ==> first == IdPrefix + id)
  {
  }

  /** The access level of a parse is the decision on the scan of its tag parts. */
  lemma ParseAccess(input: string)
    ensures Parse(input).accessType == AccessOf(ScanTags(Tags(TagParts(input))), input)
  {
  }

  /** With a group tag the level follows the last group type; any other value leaves `Public`. */
  lemma GroupLevelsOf(ts: seq<Tag>, input: string)
    requires Present(ts, GroupFlag)
    ensures var a := AccessOf(ScanTags(ts), input);
            && (a == GroupPublic <==> LastIs(ts, GroupTypeField, "public"))
            && (a == GroupPlus <==> LastIs(ts, GroupTypeField, "plus"))
            && (a == Group <==> LastIs(ts, GroupTypeField, "members"))
            && (a == Public <==> !LastIs(ts, GroupTypeField, "public") && !LastIs(ts, GroupTypeField, "plus")
                                 && !LastIs(ts, GroupTypeField, "members"))
  {
    FlagPresent(ts, GroupFlag);
    FieldLast(ts, GroupTypeField, "public");
    FieldLast(ts, GroupTypeField, "plus");
    FieldLast(ts, GroupTypeField, "members");
  }

  /** Without a group tag: `hidden`, then `friends`, then `private` (with or without `canRequestInvite`), then the sentinel words. */
  lemma NonGroupLevelsOf(ts: seq<Tag>, input: string)
    requires !Present(ts, GroupFlag)
    ensures AccessOf(ScanTags(ts), input)
            == if Present(ts, HiddenFlag) then FriendsPlus
               else if Present(ts, FriendsFlag) then Friends
               else if Present(ts, PrivateFlag) then (if Present(ts, InviteFlag) then InvitePlus else Invite)
               else if Lower(input) in {"private", "offline", "traveling"} then Private
               else Public
  {
    FlagPresent(ts, GroupFlag);
    FlagPresent(ts, HiddenFlag);
    FlagPresent(ts, FriendsFlag);
    FlagPresent(ts, PrivateFlag);
    FlagPresent(ts, InviteFlag);
  }

  /** With a `group(..)` part the level follows the last `groupAccessType(..)`; any other value leaves `Public`. */
  lemma GroupLevels(input: string)
    requires Present(Tags(TagParts(input)), GroupFlag)
    ensures var ts := Tags(TagParts(input));
            var a := Parse(input).accessType;
            && (a == GroupPublic <==> LastIs(ts, GroupTypeField, "public"))
            && (a == GroupPlus <==> LastIs(ts, GroupTypeField, "plus"))
            && (a == Group <==> LastIs(ts, GroupTypeField, "members"))
            && (a == Public <==> !LastIs(ts, GroupTypeField, "public") && !LastIs(ts, GroupTypeField, "plus")
                                 && !LastIs(ts, GroupTypeField, "members"))
  {
    ParseAccess(input);
    GroupLevelsOf(Tags(TagParts(input)), input);
  }

  /** Without a `group(..)` part: `hidden`, then `friends`, then `private`, then the sentinel words. */
  lemma NonGroupLevels(input: string)
    requires !Present(Tags(TagParts(input)), GroupFlag)
    ensures var ts := Tags(TagParts(input));
            Parse(input).accessType
            == if Present(ts, HiddenFlag) then FriendsPlus
               else if Present(ts, FriendsFlag) then Friends
               else if Present(ts, PrivateFlag) then (if Present(ts, InviteFlag) then InvitePlus else Invite)
               else if Lower(input) in {"private", "offline", "traveling"} then Private
               else Public
  {
    ParseAccess(input);
    NonGroupLevelsOf(Tags(TagParts(input)), input);
  }

  /** The owner, region, nonce and group id come from the last part that carries each. */
  lemma FieldsFromLastPart(input: string, v: string)
    ensures var ps := Tags(TagParts(input));
            var d := Parse(input);
            && (d.instanceOwnerId == Some(v) <==> LastIs(ps, OwnerField, v))
            && (d.region == Some(v) <==> LastIs(ps, RegionField, v))
            && (d.nonce == Some(v) <==> LastIs(ps, NonceField, v))
            && (d.groupId == Some(v) <==> LastIs(ps, GroupIdField, v))
  {
    var ps := Tags(TagParts(input));
    var sc := ScanTags(ps);
    assert Parse(input).instanceOwnerId == sc.owner && Parse(input).region == sc.region
           && Parse(input).nonce == sc.nonce && Parse(input).groupId == sc.groupId;
    FieldLast(ps, OwnerField, v);
    FieldLast(ps, RegionField, v);
    FieldLast(ps, NonceField, v);
    FieldLast(ps, GroupIdField, v);
  }

  /** A part matching no pattern changes nothing. */
  lemma IgnoredPartsChangeNothing(ps: seq<string>, part: string)
    requires Classify(part) == Ignored
    ensures ScanTags(Tags(ps + [part])) == ScanTags(Tags(ps))
  {
    var ts := Tags(ps + [part]);
    assert ts[..|ps|] == Tags(ps);
    assert ts[|ps|] == Ignored;
    assert ScanTags(ts) == Step(ScanTags(ts[..|ps|]), Ignored);
  }

  /** The instance card parses `"instanceId=" + id`, which can never be classified `Private`. */
  lemma CallerNeverPrivate(id: string)
    ensures Parse(IdPrefix + id).accessType != Private
  {
    var input := IdPrefix + id;
    LongInputNeverPrivate(ScanTags(Tags(TagParts(input))), input);
  }

  /** Only an input as short as one of the three sentinel words can be classified `Private`. */
  lemma LongInputNeverPrivate(s: Scan, input: string)
    requires |input| > |"traveling"|
    ensures AccessOf(s, input) != Private
  {
    assert |Lower(input)| == |input|;
  }

  // ----- Status colour and launch link -----

  /** `getStatusColor`: the text colour class of a friend's status. */
  function StatusColor(status: string): (c: string)
    ensures c == "text-blue-500" <==> status == "join me"
    ensures c == "text-green-500" <==> status == "active"
    ensures c == "text-orange-500" <==> status == "ask me"
    ensures c == "text-red-500" <==> status == "busy"
    ensures c == "text-black-500" <==> status !in {"join me", "active", "ask me", "busy"}
  {
    if status == "join me" then "text-blue-500"
    else if status == "active" then "text-green-500"
    else if status == "ask me" then "text-orange-500"
    else if status == "busy" then "text-red-500"
    else "text-black-500"
  }

  const LaunchPrefix: string := "https://vrchat.com/home/launch?worldId="
  const InstanceParam: string := "&instanceId="

  /** The launch link of a world instance. */
  function InstanceLink(worldId: string, instanceId: string): (link: string)
    ensures LaunchPrefix <= link
  {
    LaunchPrefix + worldId + InstanceParam + instanceId
  }

  /** Reads a launch link back into its world id (up to the first `&`) and instance id. */
  function ReadLink(link: string): Option<(string, string)>
  {
    if LaunchPrefix <= link then
      var rest := link[|LaunchPrefix|..];
      var i := IndexOf(rest, '&');
      if InstanceParam <= rest[i..] then Some((rest[..i], rest[i + |InstanceParam|..])) else None
    else None
  }

  /** A world id without `&` and any instance id can be read back from the link. */
  lemma LinkRoundTrip(worldId: string, instanceId: string)
    requires '&' !in worldId
    ensures ReadLink(InstanceLink(worldId, instanceId)) == Some((worldId, instanceId))
  {
    var link := InstanceLink(worldId, instanceId);
    var tail := InstanceParam + instanceId;
    var rest := worldId + tail;
    assert link == LaunchPrefix + rest;
    assert link[|LaunchPrefix|..] == rest;
    var i := IndexOf(rest, '&');
    assert rest[|worldId|] == tail[0] == '&';
    assert rest[..|worldId|] == worldId;
    assert i == |worldId|;
    assert rest[i..] == tail;
    assert tail[|InstanceParam|..] == instanceId;
  }
}
