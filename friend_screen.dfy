/**
 * The main screen's loader: it clears the roster, then pages through the
 * friend list twice (online friends, then with offline friends included),
 * resolving and merging every page it receives. Page k of a pass is requested
 * at offset `pageSize * k` with limit `pageSize`; a pass stops after the first
 * page shorter than `pageSize` or at the first error. The online count is the
 * number of records the online pass returned.
 */
module FriendScreen {
  import opened Basics
  import opened Roster

  /** One call of the friend-list command: offset, limit and the offline flag. */
  datatype FriendsRequest = FriendsRequest(offset: int, n: int, offline: bool)

  /** The page size `load` uses: a missing or zero `fetch-friends-count` means 50. */
  function PageSize(stored: Option<int>): (size: int)
    ensures size != 0
    ensures stored.Some? && stored.value != 0 ==> size == stored.value
    ensures stored.None? || stored.value == 0 ==> size == 50
  {
    if stored.Some? && stored.value != 0 then stored.value else 50
  }

  /** The answer to request k of a pass. */
  function Page(fetch: (int, int, bool) -> Result<seq<FriendRecord>>, size: int, offline: bool, k: nat)
    : Result<seq<FriendRecord>>
  {
    fetch(size * k, size, offline)
  }

  /** Request k ends its pass: an error, or a page shorter than the page size. */
  predicate EndsPass(fetch: (int, int, bool) -> Result<seq<FriendRecord>>, size: int, offline: bool, k: nat)
  {
    var page := Page(fetch, size, offline, k);
    page.Err? || |page.value| < size
  }

  /** The first request at or after `from` that ends the pass, given one (`bound`) that does. */
  function FirstEnd(fetch: (int, int, bool) -> Result<seq<FriendRecord>>, size: int, offline: bool,
                    from: nat, bound: nat): (n: nat)
    requires from <= bound && EndsPass(fetch, size, offline, bound)
    ensures from <= n <= bound && EndsPass(fetch, size, offline, n)
    ensures forall j :: from <= j < n ==> !EndsPass(fetch, size, offline, j)
    decreases bound - from
  {
    if EndsPass(fetch, size, offline, from) then from
    else FirstEnd(fetch, size, offline, from + 1, bound)
  }

  /** Up to the first end, a request ends the pass exactly when it is the first end. */
  lemma FirstEndIsFirst(fetch: (int, int, bool) -> Result<seq<FriendRecord>>, size: int, offline: bool,
                        bound: nat, i: nat)
    requires EndsPass(fetch, size, offline, bound)
    requires i <= FirstEnd(fetch, size, offline, 0, bound)
    ensures EndsPass(fetch, size, offline, i) <==> i == FirstEnd(fetch, size, offline, 0, bound)
  {
  }

  /** The requests 0 .. n-1 of a pass. */
  function Requests(size: int, offline: bool, n: nat): (r: seq<FriendsRequest>)
    ensures |r| == n
    ensures forall k :: 0 <= k < n ==> r[k] == FriendsRequest(size * k, size, offline)
  {
    if n == 0 then [] else Requests(size, offline, n - 1) + [FriendsRequest(size * (n - 1), size, offline)]
  }

  /** The roster after requests 0 .. n-1 of a pass: each page that arrives is resolved and merged. */
  function Loaded(gs: seq<Instance>, fetch: (int, int, bool) -> Result<seq<FriendRecord>>, size: int,
                  offline: bool, lookup: string -> Result<WorldInfo>, n: nat): seq<Instance>
  {
    if n == 0 then gs
    else
      var page := Page(fetch, size, offline, n - 1);
      var before := Loaded(gs, fetch, size, offline, lookup, n - 1);
      if page.Ok? then MergeAll(before, ResolvePage(page.value, lookup)) else before
  }

  /** The number of records that requests 0 .. n-1 of a pass returned. */
  function Received(fetch: (int, int, bool) -> Result<seq<FriendRecord>>, size: int, offline: bool, n: nat): int
  {
    if n == 0 then 0
    else
      var page := Page(fetch, size, offline, n - 1);
      Received(fetch, size, offline, n - 1) + (if page.Ok? then |page.value| else 0)
  }

  /** What requests 0 .. n-1 of a pass add to the online count: only the online pass counts. */
  function OnlineCount(fetch: (int, int, bool) -> Result<seq<FriendRecord>>, size: int, offline: bool, n: nat): int
  {
    if offline then 0 else Received(fetch, size, offline, n)
  }

  /** Loading pages keeps the roster well formed. */
  lemma {:induction false} LoadedWellFormed(gs: seq<Instance>, fetch: (int, int, bool) -> Result<seq<FriendRecord>>,
                                            size: int, offline: bool, lookup: string -> Result<WorldInfo>, n: nat)
    requires WellFormed(gs)
    ensures WellFormed(Loaded(gs, fetch, size, offline, lookup, n))
  {
    if n > 0 {
      var page := Page(fetch, size, offline, n - 1);
      LoadedWellFormed(gs, fetch, size, offline, lookup, n - 1);
      if page.Ok? {
        ResolvePageUnique(page.value, lookup);
        MergeAllWellFormed(Loaded(gs, fetch, size, offline, lookup, n - 1), ResolvePage(page.value, lookup));
      }
    }
  }

  /** The roster after both passes of `load`, started from the empty roster, is well formed. */
  lemma BothPassesWellFormed(fetch: (int, int, bool) -> Result<seq<FriendRecord>>, size: int,
                             lookup: string -> Result<WorldInfo>, nOn: nat, nOff: nat)
    ensures WellFormed(Loaded(Loaded([], fetch, size, false, lookup, nOn), fetch, size, true, lookup, nOff))
  {
    LoadedWellFormed([], fetch, size, false, lookup, nOn);
    LoadedWellFormed(Loaded([], fetch, size, false, lookup, nOn), fetch, size, true, lookup, nOff);
  }

  /** Loading pages only extends the roster: no group or member is lost or moved. */
  lemma {:induction false} LoadedExtends(gs: seq<Instance>, fetch: (int, int, bool) -> Result<seq<FriendRecord>>,
                                         size: int, offline: bool, lookup: string -> Result<WorldInfo>, n: nat)
    ensures Extends(gs, Loaded(gs, fetch, size, offline, lookup, n))
  {
    if n > 0 {
      var page := Page(fetch, size, offline, n - 1);
      var before := Loaded(gs, fetch, size, offline, lookup, n - 1);
      LoadedExtends(gs, fetch, size, offline, lookup, n - 1);
      if page.Ok? {
        MergeAllExtends(before, ResolvePage(page.value, lookup));
      }
    }
  }

  class FriendScreenState {
    var instancesData: seq<Instance>
    var onlineUserCount: int
    var isLoading: bool
    /** The friend-list requests issued, in order. */
    ghost var requests: seq<FriendsRequest>

    constructor ()
      ensures instancesData == [] && onlineUserCount == 0 && !isLoading && requests == []
    {
      instancesData := [];
      onlineUserCount := 0;
      isLoading := false;
      requests := [];
    }

    /** The state updater of `loadInstances`: merges resolved groups into the roster in place. */
    method MergePage(newInstances: seq<Instance>)
      modifies this`instancesData
      ensures instancesData == MergeAll(old(instancesData), newInstances)
    {
      var updated := instancesData;
      var i := 0;
      while i < |newInstances|
        invariant 0 <= i <= |newInstances|
        invariant updated == MergeAll(old(instancesData), newInstances[..i])
      {
        var n := newInstances[i];
        var k := FindGroup(updated, n.id);
        if k < |updated| {
          ghost var base := updated;
          var j := 0;
          while j < |n.friends|
            invariant 0 <= j <= |n.friends|
            invariant updated == base[k := base[k].(friends := AddFriends(base[k].friends, n.friends[..j]))]
          {
            var f := n.friends[j];
            assert n.friends[..j + 1][..j] == n.friends[..j];
            if !HasFriend(updated[k].friends, f.id) {
              updated := updated[k := updated[k].(friends := updated[k].friends + [f])];
            }
            j := j + 1;
          }
          assert n.friends[..|n.friends|] == n.friends;
        } else {
          updated := updated + [n];
        }
        assert newInstances[..i + 1][..i] == newInstances[..i];
        i := i + 1;
      }
      assert newInstances[..|newInstances|] == newInstances;
      instancesData := updated;
    }

    /** `loadInstances`: resolves every record of a page and merges the result. */
    method LoadInstances(page: seq<FriendRecord>, lookup: string -> Result<WorldInfo>)
      modifies this`instancesData
      ensures instancesData == MergeAll(old(instancesData), ResolvePage(page, lookup))
    {
      var newInstances := ResolvePage(page, lookup);
      MergePage(newInstances);
    }

    /**
     * One iteration of `load`'s paging loop: request i of a pass, whose page,
     * when it arrives, is merged into the roster and, in the online pass, added
     * to the online count. `stop` says whether the loop breaks after it.
     */
    method Request(size: int, offline: bool, fetch: (int, int, bool) -> Result<seq<FriendRecord>>,
                   lookup: string -> Result<WorldInfo>, i: nat,
                   ghost base: seq<Instance>, ghost count0: int, ghost requests0: seq<FriendsRequest>)
      returns (stop: bool)
      requires instancesData == Loaded(base, fetch, size, offline, lookup, i)
      requires onlineUserCount == count0 + OnlineCount(fetch, size, offline, i)
      requires requests == requests0 + Requests(size, offline, i)
      modifies this`instancesData, this`onlineUserCount, this`requests
      ensures instancesData == Loaded(base, fetch, size, offline, lookup, i + 1)
      ensures onlineUserCount == count0 + OnlineCount(fetch, size, offline, i + 1)
      ensures requests == requests0 + Requests(size, offline, i + 1)
      ensures stop == EndsPass(fetch, size, offline, i)
    {
      requests := requests + [FriendsRequest(size * i, size, offline)];
      var friends := fetch(size * i, size, offline);
      if friends.Ok? {
        LoadInstances(friends.value, lookup);
        var friendNum := |friends.value|;
        if !offline {
          onlineUserCount := onlineUserCount + friendNum;
        }
        stop := friendNum < size;
      } else {
        stop := true;
      }
    }

    /** One pass of `load`'s paging loop: requests 0, 1, ... until a page is short or fails. */
    method Pass(size: int, offline: bool, fetch: (int, int, bool) -> Result<seq<FriendRecord>>,
                lookup: string -> Result<WorldInfo>, ghost bound: nat)
      requires EndsPass(fetch, size, offline, bound)
      modifies this`instancesData, this`onlineUserCount, this`requests
      ensures var n := FirstEnd(fetch, size, offline, 0, bound) + 1;
              && instancesData == Loaded(old(instancesData), fetch, size, offline, lookup, n)
              && onlineUserCount == old(onlineUserCount) + OnlineCount(fetch, size, offline, n)
              && requests == old(requests) + Requests(size, offline, n)
    {
      ghost var n := FirstEnd(fetch, size, offline, 0, bound);
      var i := 0;
      while true
        invariant 0 <= i <= n
        invariant instancesData == Loaded(old(instancesData), fetch, size, offline, lookup, i)
        invariant onlineUserCount == old(onlineUserCount) + OnlineCount(fetch, size, offline, i)
        invariant requests == old(requests) + Requests(size, offline, i)
        decreases n - i
      {
        var stop := Request(size, offline, fetch, lookup, i, old(instancesData), old(onlineUserCount), old(requests));
        FirstEndIsFirst(fetch, size, offline, bound, i);
        if stop {
          break;
        }
        i := i + 1;
      }
    }

    /**
     * `load`: clears the roster, then runs the online pass and the offline pass.
     * Each pass ends because some request (`onlineEnd`, `offlineEnd`) fails or
     * returns a short page.
     */
    method Load(stored: Option<int>, fetch: (int, int, bool) -> Result<seq<FriendRecord>>,
                lookup: string -> Result<WorldInfo>, ghost onlineEnd: nat, ghost offlineEnd: nat)
      requires EndsPass(fetch, PageSize(stored), false, onlineEnd)
      requires EndsPass(fetch, PageSize(stored), true, offlineEnd)
      modifies this
      ensures var size := PageSize(stored);
              var nOn := FirstEnd(fetch, size, false, 0, onlineEnd) + 1;
              var nOff := FirstEnd(fetch, size, true, 0, offlineEnd) + 1;
              && instancesData == Loaded(Loaded([], fetch, size, false, lookup, nOn), fetch, size, true, lookup, nOff)
              && onlineUserCount == Received(fetch, size, false, nOn)
              && requests == Requests(size, false, nOn) + Requests(size, true, nOff)
              && !isLoading
      ensures WellFormed(instancesData)
    {
      instancesData := [];
      onlineUserCount := 0;
      isLoading := true;
      requests := [];
      var getMaxCount := if stored.Some? then stored.value else 0;
      if getMaxCount == 0 {
        getMaxCount := 50;
      }
      assert getMaxCount == PageSize(stored);
      ghost var nOn := FirstEnd(fetch, getMaxCount, false, 0, onlineEnd) + 1;
      ghost var nOff := FirstEnd(fetch, getMaxCount, true, 0, offlineEnd) + 1;

      Pass(getMaxCount, false, fetch, lookup, onlineEnd);
      ghost var afterOnline := instancesData;
      assert afterOnline == Loaded([], fetch, getMaxCount, false, lookup, nOn);
      assert onlineUserCount == Received(fetch, getMaxCount, false, nOn);
      assert requests == Requests(getMaxCount, false, nOn);

      Pass(getMaxCount, true, fetch, lookup, offlineEnd);
      assert instancesData == Loaded(afterOnline, fetch, getMaxCount, true, lookup, nOff);
      BothPassesWellFormed(fetch, getMaxCount, lookup, nOn, nOff);
      isLoading := false;
    }
  }
}
