/**
 * The displayed roster: every group's friends filtered by the search term,
 * empty groups dropped, and the groups sorted with the sentinel groups
 * (`traveling`, `private`, `web_or_mobile`, `offline`) after all others and
 * the other groups by descending number of friends.
 */
module RosterView {
  import opened Strings
  import opened Roster
  import Seqs
  import Sorting

  /** `name.toLowerCase().includes(search.toLowerCase())`. */
  predicate MatchesTerm(name: string, search: string)
  {
    Contains(Lower(name), Lower(search))
  }

  /** A friend stays visible when its name or its group's name matches. */
  predicate Visible(g: Instance, f: Friend, search: string)
  {
    MatchesTerm(f.name, search) || MatchesTerm(g.name, search)
  }

  /** The group with only its visible friends, in their order. */
  function FilterFriends(g: Instance, search: string): (r: Instance)
    ensures r == g.(friends := r.friends)
    ensures forall k :: 0 <= k < |r.friends| ==> r.friends[k] in g.friends && Visible(g, r.friends[k], search)
    ensures forall k :: 0 <= k < |g.friends| && Visible(g, g.friends[k], search) ==> g.friends[k] in r.friends
  {
    g.(friends := Seqs.Filter(g.friends, f => Visible(g, f, search)))
  }

  /** Every group with only its visible friends (`instancesData.map(...)`). */
  function Shown(groups: seq<Instance>, search: string): (r: seq<Instance>)
    ensures |r| == |groups|
    ensures forall k :: 0 <= k < |groups| ==> r[k] == FilterFriends(groups[k], search)
  {
    seq(|groups|, k requires 0 <= k < |groups| => FilterFriends(groups[k], search))
  }

  /** The shown groups without those left empty, in roster order. */
  function Kept(groups: seq<Instance>, search: string): (r: seq<Instance>)
    ensures forall k :: 0 <= k < |r| ==>
              |r[k].friends| > 0 && exists i :: 0 <= i < |groups| && r[k] == FilterFriends(groups[i], search)
    ensures forall i :: 0 <= i < |groups| && |FilterFriends(groups[i], search).friends| > 0 ==>
              FilterFriends(groups[i], search) in r
  {
    var shown := Shown(groups, search);
    var r := Seqs.Filter(shown, (g: Instance) => |g.friends| > 0);
    assert forall k :: 0 <= k < |r| ==> r[k] in shown;
    r
  }

  /** 4 for `offline`, 3 for `web_or_mobile`, 2 for `private`, 1 for `traveling`, 0 otherwise. */
  function SentinelRank(g: Instance): nat
  {
    var id := Lower(g.id);
    if id == "offline" then 4
    else if id == "web_or_mobile" then 3
    else if id == "private" then 2
    else if id == "traveling" then 1
    else 0
  }

  /** The comparator handed to `sort`, checks in the source's order. */
  function Compare(a: Instance, b: Instance): int
  {
    if Lower(a.id) == "offline" then 1
    else if Lower(b.id) == "offline" then -1
    else if Lower(a.id) == "web_or_mobile" then 1
    else if Lower(b.id) == "web_or_mobile" then -1
    else if Lower(a.id) == "private" then 1
    else if Lower(b.id) == "private" then -1
    else if Lower(a.id) == "traveling" then 1
    else if Lower(b.id) == "traveling" then -1
    else |b.friends| - |a.friends|
  }

  /** `a` goes before `b`: the comparator answers negative. */
  function Before(a: Instance, b: Instance): bool
  {
    Compare(a, b) < 0
  }

  /** The order by sentinel rank, then by descending friend count among ordinary groups. */
  predicate KeyBefore(a: Instance, b: Instance)
  {
    SentinelRank(a) < SentinelRank(b)
    || (SentinelRank(a) == 0 && SentinelRank(b) == 0 && |a.friends| > |b.friends|)
  }

  /** A negative answer of the comparator is exactly the key order. */
  lemma BeforeIsKeyOrder(a: Instance, b: Instance)
    ensures Before(a, b) <==> KeyBefore(a, b)
  {
  }

  /**
   * For two groups that are not the same sentinel the comparator is antisymmetric;
   * for two groups of the same sentinel it answers "after" both ways.
   */
  lemma CompareConsistency(a: Instance, b: Instance)
    ensures SentinelRank(a) != SentinelRank(b) || SentinelRank(a) == 0 ==>
              (Compare(a, b) < 0 <==> Compare(b, a) > 0) && (Compare(a, b) == 0 <==> Compare(b, a) == 0)
    ensures SentinelRank(a) == SentinelRank(b) > 0 ==> Compare(a, b) == 1 && Compare(b, a) == 1
  {
  }

  lemma BeforeStrictOrder()
    ensures Sorting.StrictOrder(Before)
  {
    forall a, b, c | Before(a, b) && Before(b, c) ensures Before(a, c) {
      BeforeIsKeyOrder(a, b);
      BeforeIsKeyOrder(b, c);
      BeforeIsKeyOrder(a, c);
    }
  }

  /** The displayed list: kept groups sorted by the comparator. */
  function FilteredInstances(groups: seq<Instance>, search: string): (r: seq<Instance>)
    ensures multiset(r) == multiset(Kept(groups, search))
    ensures Sorting.Sorted(r, Before)
  {
    BeforeStrictOrder();
    Sorting.SortSorted(Kept(groups, search), Before);
    Sorting.Sort(Kept(groups, search), Before)
  }

  /** In the displayed list sentinel groups come last, ordinary groups by descending friend count. */
  lemma DisplayOrder(groups: seq<Instance>, search: string, i: int, j: int)
    requires 0 <= i < j < |FilteredInstances(groups, search)|
    ensures var r := FilteredInstances(groups, search);
            SentinelRank(r[i]) <= SentinelRank(r[j])
            && (SentinelRank(r[i]) == 0 && SentinelRank(r[j]) == 0 ==> |r[i].friends| >= |r[j].friends|)
  {
    var r := FilteredInstances(groups, search);
    assert !Before(r[j], r[i]);
    BeforeIsKeyOrder(r[j], r[i]);
  }

  /** With an empty search term every friend of every group stays. */
  lemma EmptySearchKeepsFriends(g: Instance)
    ensures FilterFriends(g, "") == g
  {
    forall k | 0 <= k < |g.friends| ensures Visible(g, g.friends[k], "") {
      assert Lower("") == "";
      ContainsEmpty(Lower(g.friends[k].name));
    }
    Seqs.FilterAll(g.friends, f => Visible(g, f, ""));
  }
}
