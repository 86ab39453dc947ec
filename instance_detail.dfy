/**
 * The instance-detail dialog: which user is shown as the instance owner, the
 * owner's name once it is looked up, and the badge label of the instance type.
 */
module InstanceDetail {
  import opened Basics

  /** The fields of the instance record the dialog decides on; an absent owner field is `""`. */
  datatype InstanceDetailData = InstanceDetailData(
    instanceType: string, groupAccessType: string,
    hidden: string, friends: string, private: string, worldAuthorId: string)

  /** The first non-empty candidate, or `fallback` when all are empty. */
  function FirstNonEmpty(candidates: seq<string>, fallback: string): (r: string)
    ensures r in candidates || r == fallback
    ensures r == fallback <== forall k :: 0 <= k < |candidates| ==> candidates[k] == ""
    ensures forall i :: 0 <= i < |candidates| && candidates[i] != "" && (forall k :: 0 <= k < i ==> candidates[k] == "")
              ==> r == candidates[i]
  {
    if candidates == [] then fallback
    else if candidates[0] != "" then candidates[0]
    else
      var rest := candidates[1..];
      assert forall i :: 1 <= i < |candidates| ==> candidates[i] == rest[i - 1];
      FirstNonEmpty(rest, fallback)
  }

  /** The user whose name is looked up: `hidden`, else `friends`, else `private`, else the world's author. */
  method OwnerUserId(instance: InstanceDetailData) returns (userid: string)
    ensures userid == FirstNonEmpty([instance.hidden, instance.friends, instance.private], instance.worldAuthorId)
    ensures instance.hidden != "" ==> userid == instance.hidden
    ensures instance.hidden == "" && instance.friends != "" ==> userid == instance.friends
    ensures instance.hidden == "" && instance.friends == "" && instance.private != "" ==> userid == instance.private
    ensures instance.hidden == "" && instance.friends == "" && instance.private == "" ==> userid == instance.worldAuthorId
  {
    var candidates := [instance.hidden, instance.friends, instance.private];
    assert candidates[1..] == [instance.friends, instance.private];
    assert candidates[1..][1..] == [instance.private];
    assert candidates[1..][1..][1..] == [];
    var w := instance.worldAuthorId;
    assert FirstNonEmpty(candidates[1..][1..], w) == if instance.private != "" then instance.private else w;
    assert FirstNonEmpty(candidates[1..], w)
        == if instance.friends != "" then instance.friends else FirstNonEmpty(candidates[1..][1..], w);
    userid := "";
    if instance.hidden != "" {
      userid := instance.hidden;
    } else if instance.friends != "" {
      userid := instance.friends;
    } else if instance.private != "" {
      userid := instance.private;
    } else {
      userid := instance.worldAuthorId;
    }
  }

  /** The name shown for the owner lookup's outcome. */
  function OwnerName(res: Result<string>): (name: string)
    ensures res.Ok? ==> name == res.value
    ensures res.Err? ==> name == "Unknown"
  {
    match res
    case Ok(displayName) => displayName
    case Err(_) => "Unknown"
  }

  /** The badge label: a nested table over the type and, for groups, the group access type. */
  function TypeLabel(instanceType: string, groupAccessType: string): (badge: string)
    ensures badge != ""
  {
    match instanceType
    case "hidden" => "Friends+"
    case "friends" => "Friends"
    case "private" => "Private"
    case "group" =>
      (match groupAccessType
       case "public" => "Group Public"
       case "plus" => "Group+"
       case "members" => "Group"
       case _ => "Unknown")
    case "public" => "Public"
    case _ => "Unknown"
  }

  /** The known combinations. */
  predicate KnownType(instanceType: string, groupAccessType: string)
  {
    || instanceType in {"hidden", "friends", "private", "public"}
    || (instanceType == "group" && groupAccessType in {"public", "plus", "members"})
  }

  /** The label is `Unknown` exactly for the combinations the table does not know. */
  lemma UnknownIffNotKnown(instanceType: string, groupAccessType: string)
    ensures TypeLabel(instanceType, groupAccessType) == "Unknown" <==> !KnownType(instanceType, groupAccessType)
  {
  }

  /** A known label tells the type back, and for a group the access type too. */
  lemma LabelDeterminesType(t1: string, g1: string, t2: string, g2: string)
    requires KnownType(t1, g1) && KnownType(t2, g2)
    requires TypeLabel(t1, g1) == TypeLabel(t2, g2)
    ensures t1 == t2
    ensures t1 == "group" ==> g1 == g2
  {
    var l := TypeLabel(t1, g1);
    assert l == "Friends+" || l == "Friends" || l == "Private" || l == "Public"
        || l == "Group Public" || l == "Group+" || l == "Group";
    assert "Friends+" != "Friends" && "Group Public" != "Group+" && "Group+" != "Group" && "Group Public" != "Group";
    assert "Public" != "Private" && "Public" != "Group Public" && "Friends" != "Group";
  }

  /** The group access type only matters for groups. */
  lemma GroupAccessIgnoredOutsideGroups(instanceType: string, g1: string, g2: string)
    requires instanceType != "group"
    ensures TypeLabel(instanceType, g1) == TypeLabel(instanceType, g2)
  {
  }

  /** The dialog's owner-name state. */
  class InstanceDetailDialog {
    const instance: InstanceDetailData
    var instanceOwnerName: string

    constructor(instance: InstanceDetailData)
      ensures this.instance == instance && instanceOwnerName == "Loading..."
    {
      this.instance := instance;
      instanceOwnerName := "Loading...";
    }

    /**
     * `getInstanceOwnerDetail`, with the user lookup as `users`: the owner is
     * chosen by priority and its looked-up name, or `Unknown`, is shown.
     */
    method GetInstanceOwnerDetail(users: string -> Result<string>)
      modifies this
      ensures instanceOwnerName
              == OwnerName(users(FirstNonEmpty([instance.hidden, instance.friends, instance.private], instance.worldAuthorId)))
    {
      var userid := OwnerUserId(instance);
      var res := users(userid);
      if res.Ok? {
        instanceOwnerName := res.value;
      } else {
        instanceOwnerName := "Unknown";
      }
    }
  }
}
