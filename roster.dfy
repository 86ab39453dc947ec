/**
 * The friend roster of the main screen: each friend record returned by the
 * friend-list command is placed in a group ("instance") derived from its
 * `location`, and each page of records is merged into the list of groups.
 * Group ids stay unique, friend ids stay unique inside a group, and groups and
 * members that are already there are never removed or reordered.
 */
module Roster {
  import opened Basics
  import opened Strings

  /** A friend record as the friend-list command returns it, already decoded. */
  datatype FriendRecord = FriendRecord(
    id: string, displayName: string, imageUrl: string, status: string, location: string,
    bio: string, statusDescription: string, platform: string, bioLinks: seq<string>)

  /** A friend as the roster keeps it. */
  datatype Friend = Friend(
    id: string, name: string, avatar: string, status: string, location: string,
    bio: string, statusDescription: string, platform: string, bioLinks: seq<string>)

  /** A group of friends sharing one location: `id` is the grouping key. */
  datatype Instance = Instance(
    id: string, worldId: string, instanceId: string, name: string, thumbnail: string,
    friends: seq<Friend>)

  /** The part of a world record the roster uses. */
  datatype WorldInfo = WorldInfo(name: string, thumbnailImageUrl: string)

  const WebOrMobile: string := "web_or_mobile"

  /** The world token: the text of `location` before its first `:`. */
  function WorldToken(location: string): (w: string)
    ensures w <= location
    ensures ':' !in w
    ensures |w| < |location| ==> location[|w|] == ':'
  {
    Split(location, ':')[0]
  }

  /** The instance token: the second `:`-separated segment of `location`, or `""`. */
  function InstanceDetail(location: string): (d: string)
    ensures ':' !in d
    ensures ':' !in location ==> d == ""
    ensures ':' in location ==>
              var rest := location[|WorldToken(location)| + 1..];
              d <= rest && (|d| < |rest| ==> rest[|d|] == ':')
  {
    var parts := Split(location, ':');
    if |parts| > 1 then
      assert ':' in location;
      SplitSecond(location, ':');
      parts[1]
    else
      assert ':' !in location by {
        if ':' in location { SplitSecond(location, ':'); }
      }
      ""
  }

  /** A friend who is active although the backend reports the bare location "offline". */
  predicate ReportsWebOrMobile(f: FriendRecord)
  {
    WorldToken(f.location) == "offline" && f.status != "offline"
  }

  function ToFriend(f: FriendRecord): Friend
  {
    Friend(f.id, f.displayName, f.imageUrl, f.status, f.location, f.bio,
           f.statusDescription, f.platform, f.bioLinks)
  }

  /** The one-friend group a friend record maps to, given the world lookup's answers. */
  function ResolveFriend(f: FriendRecord, lookup: string -> Result<WorldInfo>): (g: Instance)
    ensures g.friends == [ToFriend(f)]
    ensures g.instanceId == InstanceDetail(f.location)
    ensures ReportsWebOrMobile(f) ==> g.id == WebOrMobile && g.worldId == WebOrMobile
    ensures !ReportsWebOrMobile(f) ==> g.id == f.location && g.worldId == WorldToken(f.location)
    ensures lookup(g.worldId).Ok? ==>
              g.name == lookup(g.worldId).value.name
              && g.thumbnail == lookup(g.worldId).value.thumbnailImageUrl
    ensures lookup(g.worldId).Err? ==> g.name == g.worldId && g.thumbnail == ""
  {
    var worldId0 := WorldToken(f.location);
    var detail := InstanceDetail(f.location);
    var remap := worldId0 == "offline" && f.status != "offline";
    var id := if remap then WebOrMobile else f.location;
    var worldId := if remap then WebOrMobile else worldId0;
    var res := lookup(worldId);
    var name := if res.Ok? then res.value.name else worldId;
    var thumbnail := if res.Ok? then res.value.thumbnailImageUrl else "";
    Instance(id, worldId, detail, name, thumbnail, [ToFriend(f)])
  }

  /** Every record of a page resolved in order (the source resolves them concurrently). */
  function ResolvePage(page: seq<FriendRecord>, lookup: string -> Result<WorldInfo>): (r: seq<Instance>)
    ensures |r| == |page|
    ensures forall k :: 0 <= k < |page| ==> r[k] == ResolveFriend(page[k], lookup)
  {
    seq(|page|, k requires 0 <= k < |page| => ResolveFriend(page[k], lookup))
  }

  // ----- Merging a page into the groups -----

  predicate HasFriend(fs: seq<Friend>, id: string)
  {
    exists k :: 0 <= k < |fs| && fs[k].id == id
  }

  predicate UniqueFriendIds(fs: seq<Friend>)
  {
    forall i, j :: 0 <= i < j < |fs| ==> fs[i].id != fs[j].id
  }

  predicate UniqueGroupIds(gs: seq<Instance>)
  {
    forall i, j :: 0 <= i < j < |gs| ==> gs[i].id != gs[j].id
  }

  /** The roster's invariant: unique group ids, unique friend ids inside each group. */
  predicate WellFormed(gs: seq<Instance>)
  {
    UniqueGroupIds(gs) && forall k :: 0 <= k < |gs| ==> UniqueFriendIds(gs[k].friends)
  }

  /** `friends.push(f)` unless a member already has `f`'s id. */
  function AddFriend(fs: seq<Friend>, f: Friend): seq<Friend>
  {
    if HasFriend(fs, f.id) then fs else fs + [f]
  }

  /** `AddFriend` for each of `news`, in order. */
  function AddFriends(fs: seq<Friend>, news: seq<Friend>): seq<Friend>
    decreases |news|
  {
    if news == [] then fs
    else AddFriend(AddFriends(fs, news[..|news| - 1]), news[|news| - 1])
  }

  /** `groups.find(g => g.id === id)`, as an index; `|gs|` when there is none. */
  function FindGroup(gs: seq<Instance>, id: string): (k: nat)
    ensures k <= |gs|
    ensures k < |gs| ==> gs[k].id == id
    ensures forall j :: 0 <= j < k ==> gs[j].id != id
  {
    if gs == [] then 0
    else if gs[0].id == id then 0
    else 1 + FindGroup(gs[1..], id)
  }

  /** Merges one resolved group: its friends join the group with the same id, or it is appended. */
  function MergeOne(gs: seq<Instance>, n: Instance): seq<Instance>
  {
    var k := FindGroup(gs, n.id);
    if k < |gs| then gs[k := gs[k].(friends := AddFriends(gs[k].friends, n.friends))]
    else gs + [n]
  }

  /** Merges the resolved groups of a page, in page order. */
  function MergeAll(gs: seq<Instance>, news: seq<Instance>): seq<Instance>
    decreases |news|
  {
    if news == [] then gs
    else MergeOne(MergeAll(gs, news[..|news| - 1]), news[|news| - 1])
  }

  function Ids(gs: seq<Instance>): (r: seq<string>)
    ensures |r| == |gs|
    ensures forall k :: 0 <= k < |gs| ==> r[k] == gs[k].id
  {
    seq(|gs|, k requires 0 <= k < |gs| => gs[k].id)
  }

  /** The ids of `ids` not in `known`, each once, in order of first occurrence. */
  function NewIds(known: seq<string>, ids: seq<string>): seq<string>
    decreases |ids|
  {
    if ids == [] then []
    else
      var p := NewIds(known, ids[..|ids| - 1]);
      var x := ids[|ids| - 1];
      if x in known || x in p then p else p + [x]
  }

  /** `r` keeps every group of `gs` at its index, with the same fields and its old members as a prefix. */
  ghost predicate Extends(gs: seq<Instance>, r: seq<Instance>)
  {
    |gs| <= |r|
    && forall k :: 0 <= k < |gs| ==>
         r[k] == gs[k].(friends := r[k].friends) && gs[k].friends <= r[k].friends
  }

  /** Some group of `gs` has `n`'s id and a member with the id of each of `n`'s friends. */
  ghost predicate Covers(gs: seq<Instance>, n: Instance)
  {
    exists k :: 0 <= k < |gs| && gs[k].id == n.id
                && forall j :: 0 <= j < |n.friends| ==> HasFriend(gs[k].friends, n.friends[j].id)
  }

  // ----- Lemmas about adding friends -----

  lemma {:induction false} AddFriendsExtends(fs: seq<Friend>, news: seq<Friend>)
    ensures fs <= AddFriends(fs, news)
    decreases |news|
  {
    if news != [] {
      AddFriendsExtends(fs, news[..|news| - 1]);
    }
  }

  lemma {:induction false} AddFriendsUnique(fs: seq<Friend>, news: seq<Friend>)
    requires UniqueFriendIds(fs)
    ensures UniqueFriendIds(AddFriends(fs, news))
    decreases |news|
  {
    if news != [] {
      AddFriendsUnique(fs, news[..|news| - 1]);
    }
  }

  /** After adding `news`, every id of `news` has a member. */
  lemma {:induction false} AddFriendsHas(fs: seq<Friend>, news: seq<Friend>)
    ensures forall j :: 0 <= j < |news| ==> HasFriend(AddFriends(fs, news), news[j].id)
    decreases |news|
  {
    if news != [] {
      var prefix := news[..|news| - 1];
      var p := AddFriends(fs, prefix);
      var x := news[|news| - 1];
      var r := AddFriends(fs, news);
      AddFriendsHas(fs, prefix);
      assert r == AddFriend(p, x);
      assert p <= r;
      if !HasFriend(p, x.id) {
        assert r[|p|] == x;
      }
      forall j | 0 <= j < |news| ensures HasFriend(r, news[j].id) {
        if j < |news| - 1 {
          assert news[j] == prefix[j];
          var k :| 0 <= k < |p| && p[k].id == news[j].id;
          assert r[k] == p[k];
        }
      }
    }
  }

  // ----- Lemmas about merging one group -----

  lemma MergeOneExtends(gs: seq<Instance>, n: Instance)
    ensures Extends(gs, MergeOne(gs, n))
  {
    var k := FindGroup(gs, n.id);
    if k < |gs| {
      AddFriendsExtends(gs[k].friends, n.friends);
    }
  }

  lemma MergeOneWellFormed(gs: seq<Instance>, n: Instance)
    requires WellFormed(gs)
    requires UniqueFriendIds(n.friends)
    ensures WellFormed(MergeOne(gs, n))
  {
    var k := FindGroup(gs, n.id);
    if k < |gs| {
      AddFriendsUnique(gs[k].friends, n.friends);
    }
  }

  lemma MergeOneIds(gs: seq<Instance>, n: Instance)
    ensures Ids(MergeOne(gs, n)) == if n.id in Ids(gs) then Ids(gs) else Ids(gs) + [n.id]
  {
    var k := FindGroup(gs, n.id);
    if k == |gs| {
      assert n.id !in Ids(gs);
    } else {
      assert Ids(gs)[k] == n.id;
    }
  }

  lemma MergeOneCovers(gs: seq<Instance>, n: Instance)
    requires UniqueFriendIds(n.friends)
    ensures Covers(MergeOne(gs, n), n)
  {
    var k := FindGroup(gs, n.id);
    var r := MergeOne(gs, n);
    if k < |gs| {
      AddFriendsHas(gs[k].friends, n.friends);
      assert r[k].friends == AddFriends(gs[k].friends, n.friends);
    } else {
      assert r[|gs|] == n;
      forall j | 0 <= j < |n.friends| ensures HasFriend(n.friends, n.friends[j].id) {
        assert n.friends[j].id == n.friends[j].id;
      }
    }
  }

  lemma ExtendsKeepsCovers(gs: seq<Instance>, r: seq<Instance>, n: Instance)
    requires Extends(gs, r)
    requires Covers(gs, n)
    ensures Covers(r, n)
  {
    var k :| 0 <= k < |gs| && gs[k].id == n.id
             && forall j :: 0 <= j < |n.friends| ==> HasFriend(gs[k].friends, n.friends[j].id);
    assert r[k].id == n.id;
    forall j | 0 <= j < |n.friends| ensures HasFriend(r[k].friends, n.friends[j].id) {
      var m :| 0 <= m < |gs[k].friends| && gs[k].friends[m].id == n.friends[j].id;
      assert r[k].friends[m] == gs[k].friends[m];
    }
  }

  // ----- Lemmas about merging a whole page -----

  /** Merging never removes, reorders or alters a group, and only appends to a group's members. */
  lemma {:induction false} MergeAllExtends(gs: seq<Instance>, news: seq<Instance>)
    ensures Extends(gs, MergeAll(gs, news))
    decreases |news|
  {
    if news != [] {
      var prefix := news[..|news| - 1];
      MergeAllExtends(gs, prefix);
      MergeOneExtends(MergeAll(gs, prefix), news[|news| - 1]);
    }
  }

  /** Every group a page resolves to holds one friend, so its friend ids are unique. */
  lemma ResolvePageUnique(page: seq<FriendRecord>, lookup: string -> Result<WorldInfo>)
    ensures forall k :: 0 <= k < |page| ==> UniqueFriendIds(ResolvePage(page, lookup)[k].friends)
  {
    var r := ResolvePage(page, lookup);
    forall k | 0 <= k < |page| ensures UniqueFriendIds(r[k].friends) {
      assert |r[k].friends| == 1;
    }
  }

  /** Merging keeps group ids unique and friend ids unique inside each group. */
  lemma {:induction false} MergeAllWellFormed(gs: seq<Instance>, news: seq<Instance>)
    requires WellFormed(gs)
    requires forall k :: 0 <= k < |news| ==> UniqueFriendIds(news[k].friends)
    ensures WellFormed(MergeAll(gs, news))
    decreases |news|
  {
    if news != [] {
      var prefix := news[..|news| - 1];
      MergeAllWellFormed(gs, prefix);
      MergeOneWellFormed(MergeAll(gs, prefix), news[|news| - 1]);
    }
  }

  /** The merged group ids are the old ones followed by the page's unseen ids in page order. */
  lemma {:induction false} MergeAllIds(gs: seq<Instance>, news: seq<Instance>)
    ensures Ids(MergeAll(gs, news)) == Ids(gs) + NewIds(Ids(gs), Ids(news))
    decreases |news|
  {
    if news != [] {
      var prefix := news[..|news| - 1];
      var n := news[|news| - 1];
      var before := MergeAll(gs, prefix);
      MergeAllIds(gs, prefix);
      MergeOneIds(before, n);
      assert Ids(news)[..|news| - 1] == Ids(prefix);
      assert n.id in Ids(before) <==> n.id in Ids(gs) || n.id in NewIds(Ids(gs), Ids(prefix));
    }
  }

  /** After merging, every resolved group's friends are members of the group with its id. */
  lemma {:induction false} MergeAllCovers(gs: seq<Instance>, news: seq<Instance>)
    requires forall k :: 0 <= k < |news| ==> UniqueFriendIds(news[k].friends)
    ensures forall k :: 0 <= k < |news| ==> Covers(MergeAll(gs, news), news[k])
    decreases |news|
  {
    if news != [] {
      var prefix := news[..|news| - 1];
      var before := MergeAll(gs, prefix);
      var after := MergeAll(gs, news);
      MergeAllCovers(gs, prefix);
      MergeOneExtends(before, news[|news| - 1]);
      MergeOneCovers(before, news[|news| - 1]);
      forall k | 0 <= k < |news| - 1 ensures Covers(after, news[k]) {
        assert news[k] == prefix[k];
        ExtendsKeepsCovers(before, after, news[k]);
      }
    }
  }

  /** The group with id `groupId` has a member with id `id`. */
  predicate InGroup(gs: seq<Instance>, groupId: string, id: string)
  {
    exists a :: 0 <= a < |gs| && gs[a].id == groupId && HasFriend(gs[a].friends, id)
  }

  /**
   * Merging de-duplicates friends only inside a group: a friend id that the page
   * reports under two different group ids is a member of both merged groups
   * with those ids, which are two groups since their ids differ.
   */
  lemma SameFriendInTwoGroups(gs: seq<Instance>, news: seq<Instance>, i: nat, j: nat, id: string)
    requires forall k :: 0 <= k < |news| ==> UniqueFriendIds(news[k].friends)
    requires i < |news| && j < |news| && news[i].id != news[j].id
    requires HasFriend(news[i].friends, id) && HasFriend(news[j].friends, id)
    ensures InGroup(MergeAll(gs, news), news[i].id, id) && InGroup(MergeAll(gs, news), news[j].id, id)
  {
    var r := MergeAll(gs, news);
    MergeAllCovers(gs, news);
    assert Covers(r, news[i]) && Covers(r, news[j]);
    var a :| 0 <= a < |r| && r[a].id == news[i].id
             && forall p :: 0 <= p < |news[i].friends| ==> HasFriend(r[a].friends, news[i].friends[p].id);
    var b :| 0 <= b < |r| && r[b].id == news[j].id
             && forall p :: 0 <= p < |news[j].friends| ==> HasFriend(r[b].friends, news[j].friends[p].id);
    var p :| 0 <= p < |news[i].friends| && news[i].friends[p].id == id;
    var q :| 0 <= q < |news[j].friends| && news[j].friends[q].id == id;
    assert HasFriend(r[a].friends, id) && HasFriend(r[b].friends, id);
  }
}
