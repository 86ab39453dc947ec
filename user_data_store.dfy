/**
 * The front end's persistent settings and saved-account store. The backing
 * key-value file is a map field; every getter that finds no usable value writes
 * its default into the map, every setter writes its own key, and the saved
 * accounts live under one key as a list kept unique by account id.
 */
module UserStore {
  import opened Basics
  import Seqs

  /** A saved account; `lastLogin` is the login time as a number. */
  datatype UserData = UserData(id: string, displayName: string, lastLogin: int, userData: string)

  /** A stored value, already decoded (the user list is kept as its decoded records). */
  datatype Value = Text(text: string) | Number(number: int) | Flag(flag: bool) | Users(users: seq<UserData>)

  /** JavaScript truthiness; the user list is stored as a JSON string, which is never empty. */
  predicate Truthy(v: Value)
  {
    match v
    case Text(t) => t != ""
    case Number(n) => n != 0
    case Flag(b) => b
    case Users(_) => true
  }

  const ThemeKey: string := "data-theme"
  const FetchCountKey: string := "fetch-friends-count"
  const AutoCheckKey: string := "auto-check-updates"
  const LanguageKey: string := "lang"
  const InstancesKey: string := "instances-data"
  const UsersKey: string := "users"
  const CurrentUserKey: string := "current-user-id"

  // ----- The account list -----

  /** No two accounts share an id. */
  predicate UniqueIds(users: seq<UserData>)
  {
    forall i, j :: 0 <= i < j < |users| ==> users[i].id != users[j].id
  }

  /** How many accounts have `id`. */
  function CountId(users: seq<UserData>, id: string): (n: nat)
    ensures n <= |users|
    ensures n == 0 <==> forall k :: 0 <= k < |users| ==> users[k].id != id
  {
    if users == [] then 0
    else CountId(users[..|users| - 1], id) + (if users[|users| - 1].id == id then 1 else 0)
  }

  /** `users.filter(user => user.id !== id)`. */
  function Without(users: seq<UserData>, id: string): (r: seq<UserData>)
    ensures forall k :: 0 <= k < |r| ==> r[k].id != id && r[k] in users
    ensures forall k :: 0 <= k < |users| && users[k].id != id ==> users[k] in r
  {
    Seqs.Filter(users, (u: UserData) => u.id != id)
  }

  /** The list `addOrUpdateUser` writes: the others, then the new record last. */
  function WithUser(users: seq<UserData>, u: UserData): (r: seq<UserData>)
    ensures |r| > 0 && r[|r| - 1] == u
    ensures CountId(r, u.id) == 1
    ensures r[..|r| - 1] == Without(users, u.id)
  {
    var rest := Without(users, u.id);
    var r := rest + [u];
    assert r[..|r| - 1] == rest;
    r
  }

  /** `users.find(user => user.id === id)`: the first account with `id`. */
  function FindUser(users: seq<UserData>, id: string): (r: Option<UserData>)
    ensures r.None? <==> forall k :: 0 <= k < |users| ==> users[k].id != id
    ensures r.Some? ==> exists k :: 0 <= k < |users| && users[k] == r.value && r.value.id == id
                                     && forall j :: 0 <= j < k ==> users[j].id != id
  {
    if users == [] then None
    else if users[0].id == id then Some(users[0])
    else
      var r := FindUser(users[1..], id);
      assert r.Some? ==> exists k :: 1 <= k < |users| && users[k] == r.value && r.value.id == id
                                      && forall j :: 0 <= j < k ==> users[j].id != id by {
        if r.Some? {
          var k :| 0 <= k < |users[1..]| && users[1..][k] == r.value && r.value.id == id
                   && forall j :: 0 <= j < k ==> users[1..][j].id != id;
          assert users[k + 1] == r.value;
          forall j | 0 <= j < k + 1
            ensures users[j].id != id
          {
            if j > 0 {
              assert users[j] == users[1..][j - 1];
            }
          }
        }
      }
      r
  }

  /** The decoded list under `users`; no usable value reads as the empty list. */
  function StoredUsers(store: map<string, Value>): seq<UserData>
  {
    if UsersKey in store && store[UsersKey].Users? then store[UsersKey].users else []
  }

  /** `get("current-user-id") || null`. */
  function CurrentUserId(store: map<string, Value>): (r: Option<string>)
    ensures r.Some? ==> r.value != ""
  {
    if CurrentUserKey in store && store[CurrentUserKey].Text? && store[CurrentUserKey].text != ""
    then Some(store[CurrentUserKey].text)
    else None
  }

  // ----- Properties of the account list -----

  /** Removing an id keeps the list unique. */
  lemma {:induction false} WithoutUnique(users: seq<UserData>, id: string)
    requires UniqueIds(users)
    ensures UniqueIds(Without(users, id))
    decreases |users|
  {
    if users != [] {
      var keep := (u: UserData) => u.id != id;
      assert users == [users[0]] + users[1..];
      Seqs.FilterAppend([users[0]], users[1..], keep);
      WithoutUnique(users[1..], id);
      var tail := Without(users[1..], id);
      forall k | 0 <= k < |tail|
        ensures tail[k].id != users[0].id
      {
        assert tail[k] in users[1..];
      }
    }
  }

  /** Adding or updating an account keeps the list unique by id. */
  lemma WithUserUnique(users: seq<UserData>, u: UserData)
    requires UniqueIds(users)
    ensures UniqueIds(WithUser(users, u))
  {
    WithoutUnique(users, u.id);
  }

  /** After removing an id, no account has it. */
  lemma WithoutRemoves(users: seq<UserData>, id: string)
    ensures CountId(Without(users, id), id) == 0
    ensures FindUser(Without(users, id), id).None?
  {
  }

  /** Removing an id nobody has changes nothing. */
  lemma WithoutAbsent(users: seq<UserData>, id: string)
    requires CountId(users, id) == 0
    ensures Without(users, id) == users
  {
    Seqs.FilterAll(users, (u: UserData) => u.id != id);
  }

  /** Removing one id does not change which account another id finds. */
  lemma {:induction false} WithoutKeepsOthers(users: seq<UserData>, id: string, other: string)
    requires other != id
    ensures FindUser(Without(users, id), other) == FindUser(users, other)
    decreases |users|
  {
    if users != [] {
      var keep := (u: UserData) => u.id != id;
      assert users == [users[0]] + users[1..];
      Seqs.FilterAppend([users[0]], users[1..], keep);
      WithoutKeepsOthers(users[1..], id, other);
      if users[0].id == id {
        assert Without(users, id) == Without(users[1..], id);
      } else {
        assert Without(users, id) == [users[0]] + Without(users[1..], id);
      }
    }
  }

  /** After adding or updating, the account is found by its id. */
  lemma FindAfterWithUser(users: seq<UserData>, u: UserData)
    ensures FindUser(WithUser(users, u), u.id) == Some(u)
  {
    var r := WithUser(users, u);
    FindLast(r, u.id);
  }

  /** An id held only by the last account finds that account. */
  lemma FindLast(users: seq<UserData>, id: string)
    requires |users| > 0 && users[|users| - 1].id == id
    requires forall k :: 0 <= k < |users| - 1 ==> users[k].id != id
    ensures FindUser(users, id) == Some(users[|users| - 1])
  {
  }

  // ----- The store -----

  /** The settings store over its key-value map. */
  class UserDataStore {
    var store: map<string, Value>

    /** A store over the contents `persisted` of `store.json`, as the file holds them when opened. */
    constructor(persisted: map<string, Value>)
      ensures store == persisted
    {
      store := persisted;
    }

    /** `getTheme`: a truthy stored theme, else `"light"`, which is then stored. */
    method GetTheme() returns (theme: Value)
      modifies this
      ensures ThemeKey in old(store) && Truthy(old(store)[ThemeKey]) ==> theme == old(store)[ThemeKey] && store == old(store)
      ensures !(ThemeKey in old(store) && Truthy(old(store)[ThemeKey])) ==>
                theme == Text("light") && store == old(store)[ThemeKey := Text("light")]
    {
      if ThemeKey in store && Truthy(store[ThemeKey]) {
        theme := store[ThemeKey];
      } else {
        store := store[ThemeKey := Text("light")];
        theme := Text("light");
      }
    }

    /** `getFetchFriendsCount`: any stored value, 0 included, else 50, which is then stored. */
    method GetFetchFriendsCount() returns (count: Value)
      modifies this
      ensures FetchCountKey in old(store) ==> count == old(store)[FetchCountKey] && store == old(store)
      ensures FetchCountKey !in old(store) ==> count == Number(50) && store == old(store)[FetchCountKey := Number(50)]
    {
      if FetchCountKey in store {
        count := store[FetchCountKey];
      } else {
        store := store[FetchCountKey := Number(50)];
        count := Number(50);
      }
    }

    /** `getAutoCheckUpdates`: any stored value, `false` included, else `true`, which is then stored. */
    method GetAutoCheckUpdates() returns (autoCheck: Value)
      modifies this
      ensures AutoCheckKey in old(store) ==> autoCheck == old(store)[AutoCheckKey] && store == old(store)
      ensures AutoCheckKey !in old(store) ==> autoCheck == Flag(true) && store == old(store)[AutoCheckKey := Flag(true)]
    {
      if AutoCheckKey in store {
        autoCheck := store[AutoCheckKey];
      } else {
        store := store[AutoCheckKey := Flag(true)];
        autoCheck := Flag(true);
      }
    }

    /** `getLanguage`: a truthy stored language, else `"ja"`, which is then stored. */
    method GetLanguage() returns (language: Value)
      modifies this
      ensures LanguageKey in old(store) && Truthy(old(store)[LanguageKey]) ==> language == old(store)[LanguageKey] && store == old(store)
      ensures !(LanguageKey in old(store) && Truthy(old(store)[LanguageKey])) ==>
                language == Text("ja") && store == old(store)[LanguageKey := Text("ja")]
    {
      if LanguageKey in store && Truthy(store[LanguageKey]) {
        language := store[LanguageKey];
      } else {
        store := store[LanguageKey := Text("ja")];
        language := Text("ja");
      }
    }

    /** `getInstancesData`: truthy stored data, else `"[]"`, which is then stored. */
    method GetInstancesData() returns (data: Value)
      modifies this
      ensures InstancesKey in old(store) && Truthy(old(store)[InstancesKey]) ==> data == old(store)[InstancesKey] && store == old(store)
      ensures !(InstancesKey in old(store) && Truthy(old(store)[InstancesKey])) ==>
                data == Text("[]") && store == old(store)[InstancesKey := Text("[]")]
    {
      if InstancesKey in store && Truthy(store[InstancesKey]) {
        data := store[InstancesKey];
      } else {
        store := store[InstancesKey := Text("[]")];
        data := Text("[]");
      }
    }

    /** `getUsers`: the saved accounts, or none when nothing usable is stored. */
    method GetUsers() returns (users: seq<UserData>)
      ensures UsersKey in store && store[UsersKey].Users? ==> users == store[UsersKey].users
      ensures !(UsersKey in store && store[UsersKey].Users?) ==> users == []
    {
      if UsersKey in store && store[UsersKey].Users? {
        users := store[UsersKey].users;
      } else {
        users := [];
      }
    }

    /** `getCurrentUserId`: the stored id when it is a non-empty string. */
    method GetCurrentUserId() returns (id: Option<string>)
      ensures id.Some? <==> CurrentUserKey in store && store[CurrentUserKey].Text? && store[CurrentUserKey].text != ""
      ensures id.Some? ==> id.value == store[CurrentUserKey].text
    {
      id := CurrentUserId(store);
    }

    method SetTheme(theme: string)
      modifies this
      ensures store == old(store)[ThemeKey := Text(theme)]
    {
      store := store[ThemeKey := Text(theme)];
    }

    method SetFetchFriendsCount(count: int)
      modifies this
      ensures store == old(store)[FetchCountKey := Number(count)]
    {
      store := store[FetchCountKey := Number(count)];
    }

    method SetAutoCheckUpdates(autoCheck: bool)
      modifies this
      ensures store == old(store)[AutoCheckKey := Flag(autoCheck)]
    {
      store := store[AutoCheckKey := Flag(autoCheck)];
    }

    method SetLanguage(language: string)
      modifies this
      ensures store == old(store)[LanguageKey := Text(language)]
    {
      store := store[LanguageKey := Text(language)];
    }

    method SetInstancesData(data: string)
      modifies this
      ensures store == old(store)[InstancesKey := Text(data)]
    {
      store := store[InstancesKey := Text(data)];
    }

    method SetCurrentUser(userId: string)
      modifies this
      ensures store == old(store)[CurrentUserKey := Text(userId)]
    {
      store := store[CurrentUserKey := Text(userId)];
    }

    /**
     * `addOrUpdateUser`, with the login time `now` as a parameter: afterwards exactly
     * one account has `id`, it is the last one, and the others keep their order.
     */
    method AddOrUpdateUser(id: string, displayName: string, userData: string, now: int)
      modifies this
      ensures store == old(store)[UsersKey := Users(WithUser(StoredUsers(old(store)), UserData(id, displayName, now, userData)))]
      ensures var users := StoredUsers(store);
              CountId(users, id) == 1 && users[|users| - 1] == UserData(id, displayName, now, userData)
              && users[..|users| - 1] == Without(StoredUsers(old(store)), id)
      ensures UniqueIds(StoredUsers(old(store))) ==> UniqueIds(StoredUsers(store))
    {
      var users := GetUsers();
      var updatedUsers := Without(users, id);
      var newUser := UserData(id, displayName, now, userData);
      updatedUsers := updatedUsers + [newUser];
      assert updatedUsers == WithUser(users, newUser);
      store := store[UsersKey := Users(updatedUsers)];
      assert StoredUsers(store) == WithUser(users, newUser);
      if UniqueIds(users) {
        WithUserUnique(users, newUser);
      }
    }

    /** `removeUser`: afterwards no account has `userId`; the others are kept in order. */
    method RemoveUser(userId: string)
      modifies this
      ensures store == old(store)[UsersKey := Users(Without(StoredUsers(old(store)), userId))]
      ensures CountId(StoredUsers(store), userId) == 0
      ensures UniqueIds(StoredUsers(old(store))) ==> UniqueIds(StoredUsers(store))
    {
      var users := GetUsers();
      var updatedUsers := Without(users, userId);
      store := store[UsersKey := Users(updatedUsers)];
      WithoutRemoves(users, userId);
      if UniqueIds(users) {
        WithoutUnique(users, userId);
      }
    }

    /** `getCurrentUser`: no account without a current id, else the first account with that id. */
    method GetCurrentUser() returns (user: Option<UserData>)
      ensures CurrentUserId(store).None? ==> user.None?
      ensures CurrentUserId(store).Some? ==> user == FindUser(StoredUsers(store), CurrentUserId(store).value)
    {
      var currentId := GetCurrentUserId();
      if currentId.None? {
        return None;
      }
      var users := GetUsers();
      user := FindUser(users, currentId.value);
    }
  }
}
