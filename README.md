# VRC Social Manager: verified model of its core logic

VRC Social Manager is a desktop client for VRChat. It shows the user's friends grouped by
the instance (world session) they are in. It also keeps settings and saved accounts in a
local store, lists third-party licences, and talks to the VRChat API through a Rust
backend. A release script maintains a Keep a Changelog 1.x `CHANGELOG.md`.

This project models the sequential logic inside that application and proves its properties
in Dafny:

- **Friend roster** (`roster.dfy`, `roster_view.dfy`, `friend_screen.dfy`).
  - A friend's `location` becomes a group id, a world id and an instance token. The
    "offline but active" quirk is remapped to `web_or_mobile`.
  - Each page of friends is merged into the grouped list in place, without duplicates.
  - The screen shows a filtered, sorted view of the list.
  - `load` pages through the online friends and then the offline friends.
- **Instance card** (`instance_tags.dfy`).
  - The `~`-separated instance-string parser and its access-level decision.
  - The status colour table and the launch link.
- **Release script** (`changelog.dfy`, `git_log.dfy`).
  - Collecting the Unreleased bullets and writing the version entry.
  - Rewriting the changelog and generating the release body.
  - The optional Conventional Commits 1.0.0 classification of `git log` subjects.
- **Settings store** (`user_data_store.dfy`). A class over a key-value map. Getters write
  their defaults. The saved-account list is kept unique by id.
- **Licence dialog** (`licenses.dfy`). npm and cargo entries are normalised, filtered and
  sorted. A single entry can be expanded at a time.
- **Instance-detail dialog** (`instance_detail.dfy`). The owner priority chain and the
  type label table.
- **Backend** (`commands.rs` → `commands.dfy`).
  - The placeholder-world table and the world cache.
  - Login and one-time-password classification.
  - The session flag.
  - The debug console's method dispatch.

Shared helpers: `basics.dfy` (Option, Result), `strings.dfy` (split, join, includes,
ASCII case, JavaScript white space), `seqs.dfy` (filter) and `sorting.dfy`.
`sorting.dfy` models `Array.prototype.sort` as a stable insertion sort; under a strict order
its result is proved sorted and a permutation of its input.

Network, store and file access are parameters of the model:
- the friend-list, world and user lookups are functions passed in;
- an HTTP answer is a status, a text and the JSON value that text decodes to;
- the current time and the `git log` output are arguments.

`load` requests offset `pageSize * i` with limit `pageSize`, stops a pass after the first
short page or error, and has no cancellation; the model pages the same way.

## Model

| member | source | states |
|---|---|---|
| Roster.WorldToken | src/screens/friendScreen.tsx:158-160 | the world id is the prefix of `location` before its first `:` (all of it when there is none) |
| Roster.InstanceDetail | src/screens/friendScreen.tsx:159-161 | the instance token is the second `:`-segment, or `""` when `location` has no `:` |
| Roster.ResolveFriend | src/screens/friendScreen.tsx:158-195 | group id is the location, world id its world token. An active friend reported at `offline` gets `web_or_mobile` for both. A failed world lookup leaves name = world id and thumbnail `""`; otherwise name and thumbnail come from the lookup. The group holds exactly that friend |
| Roster.ResolvePage | src/screens/friendScreen.tsx:155-196 | one resolved group per friend record, in page order |
| Roster.FindGroup | src/screens/friendScreen.tsx:202 | the index of the first group with the id, or the length when there is none |
| Roster.AddFriendsExtends | src/screens/friendScreen.tsx:205-209 | adding friends keeps the old members as a prefix |
| Roster.AddFriendsUnique | src/screens/friendScreen.tsx:205-209 | adding friends by the `some(f => f.id === ..)` test keeps member ids unique |
| Roster.AddFriendsHas | src/screens/friendScreen.tsx:205-209 | after adding, every added friend's id has a member |
| Roster.MergeOneExtends | src/screens/friendScreen.tsx:201-213 | merging one group never removes, reorders or alters a group; members are only appended |
| Roster.MergeOneWellFormed | src/screens/friendScreen.tsx:201-213 | merging one group keeps group ids unique and member ids unique in each group |
| Roster.MergeOneIds | src/screens/friendScreen.tsx:202-212 | a known id leaves the group ids unchanged; an unseen id is appended |
| Roster.MergeOneCovers | src/screens/friendScreen.tsx:201-213 | after merging, the group with the new group's id has a member for each of its friends |
| Roster.ExtendsKeepsCovers | src/screens/friendScreen.tsx:198-216 | later merges keep earlier friends in their groups |
| Roster.MergeAllExtends | src/screens/friendScreen.tsx:198-216 | merging a page only extends the roster |
| Roster.ResolvePageUnique | src/screens/friendScreen.tsx:184-194 | every resolved group has unique member ids (it has one member) |
| Roster.MergeAllWellFormed | src/screens/friendScreen.tsx:198-216 | merging a page keeps group ids unique and member ids unique within each group |
| Roster.MergeAllIds | src/screens/friendScreen.tsx:198-216 | the group ids afterwards are the old ids followed by the page's unseen ids, in first-occurrence order; a repeated id in a page merges into the earlier group |
| Roster.MergeAllCovers | src/screens/friendScreen.tsx:198-216 | every friend of the page ends up as a member of the group with its group id |
| Roster.SameFriendInTwoGroups | src/screens/friendScreen.tsx:205-211 | de-duplication is per group: for any roster and page, a friend id that the page reports under two different group ids is a member of both merged groups |
| RosterView.FilterFriends | src/screens/friendScreen.tsx:91-96 | keeps exactly the friends whose name or whose group's name contains the search term, ignoring ASCII case; other fields unchanged |
| RosterView.Shown | src/screens/friendScreen.tsx:91-96 | the filter is applied to every group, in order |
| RosterView.Kept | src/screens/friendScreen.tsx:97 | exactly the filtered groups with at least one friend remain |
| RosterView.BeforeIsKeyOrder | src/screens/friendScreen.tsx:98-113 | the comparator's "negative" answer is the key order: ordinary groups by descending friend count, then `traveling`, `private`, `web_or_mobile`, `offline` |
| RosterView.CompareConsistency | src/screens/friendScreen.tsx:98-113 | the comparator is antisymmetric unless both groups have the same placeholder id |
| RosterView.BeforeStrictOrder | src/screens/friendScreen.tsx:98-113 | the comparator's "before" relation is a strict order |
| RosterView.FilteredInstances | src/screens/friendScreen.tsx:90-113 | the view is a permutation of the kept groups and is sorted by the comparator |
| RosterView.DisplayOrder | src/screens/friendScreen.tsx:98-113 | in the view, no group comes before another that the comparator puts strictly before it |
| RosterView.EmptySearchKeepsFriends | src/screens/friendScreen.tsx:93-96 | with an empty search every friend is kept |
| FriendScreen.PageSize | src/screens/friendScreen.tsx:120-123 | a missing or zero stored page size means 50; any other value is used as it is |
| FriendScreen.FirstEnd | src/screens/friendScreen.tsx:124-136 | the first request of a pass that fails or returns a short page |
| FriendScreen.FirstEndIsFirst | src/screens/friendScreen.tsx:124-136 | before the first end, no request ends the pass |
| FriendScreen.Requests | src/screens/friendScreen.tsx:124-139 | request k of a pass asks for offset `pageSize * k`, limit `pageSize` and the pass's offline flag |
| FriendScreen.LoadedWellFormed | src/screens/friendScreen.tsx:124-149 | loading any number of pages keeps the roster well formed |
| FriendScreen.LoadedExtends | src/screens/friendScreen.tsx:124-149 | loading pages only extends the roster |
| FriendScreen.FriendScreenState.constructor | src/screens/friendScreen.tsx:19-25 | empty roster, zero online count, not loading |
| FriendScreen.FriendScreenState.MergePage | src/screens/friendScreen.tsx:198-216 | the in-place merge loop yields the merge of the old roster with the page |
| FriendScreen.FriendScreenState.LoadInstances | src/screens/friendScreen.tsx:154-217 | the roster becomes the old roster merged with the page's resolved groups |
| FriendScreen.FriendScreenState.Request | src/screens/friendScreen.tsx:125-135 | one iteration: one request is issued; an answered page is merged; the online count grows by its length in the online pass only; it says whether the pass ends |
| FriendScreen.FriendScreenState.Pass | src/screens/friendScreen.tsx:124-149 | a pass issues requests 0 .. first end and merges every answered page |
| FriendScreen.FriendScreenState.Load | src/screens/friendScreen.tsx:116-152 | `load` clears the roster and count, then runs the online and offline passes. The count is the number of online records received; the offline pass leaves it unchanged. The roster is well formed |
| InstanceTags.InstanceIdOf | src/components/ui/instance.tsx:29-32 | the first part yields an id exactly when it is `instanceId=` followed by one or more `[A-Za-z0-9_-]` |
| InstanceTags.Arg | src/components/ui/instance.tsx:44-59 | `name(v)` with a non-empty `v` without line terminators yields `v` |
| InstanceTags.ArgComplete | src/components/ui/instance.tsx:44-59 | every such `name(v)` part is recognised |
| InstanceTags.ParseInstanceString | src/components/ui/instance.tsx:25-84 | the `forEach` loop with its flags computes the parse result |
| InstanceTags.ApplyPart | src/components/ui/instance.tsx:42-60 | the callback applied to one part makes exactly that part's step on the flags and fields |
| InstanceTags.AccessLevel | src/components/ui/instance.tsx:63-81 | the `if`/`else` chain computes the access decision on the accumulated flags |
| InstanceTags.StepFlag | src/components/ui/instance.tsx:44-59 | one part sets a flag or leaves it as it was; no part clears one |
| InstanceTags.StepField | src/components/ui/instance.tsx:44-59 | one part overwrites a field when it carries it and otherwise leaves it |
| InstanceTags.FlagPresent | src/components/ui/instance.tsx:41-61 | a flag is set after the loop exactly when some part sets it |
| InstanceTags.FieldLast | src/components/ui/instance.tsx:41-61 | owner, region, nonce, group id and group type come from the last part that sets them |
| InstanceTags.InstanceIdRule | src/components/ui/instance.tsx:26-32 | `instanceId` is the captured id, or `""` |
| InstanceTags.ParseAccess | src/components/ui/instance.tsx:63-81 | the access level is decided from the flags after the loop |
| InstanceTags.GroupLevelsOf | src/components/ui/instance.tsx:63-70 | with a group part: public, plus and members exactly for the last group type, in that order |
| InstanceTags.NonGroupLevelsOf | src/components/ui/instance.tsx:71-81 | without a group part the level follows the hidden, friends, private and bare-word priority |
| InstanceTags.GroupLevels | src/components/ui/instance.tsx:63-70 | with a group part the level follows the last group type: public, plus, members; any other or no type leaves `Public` |
| InstanceTags.NonGroupLevels | src/components/ui/instance.tsx:71-81 | without a group: hidden, then friends, then private (Invite+ with canRequestInvite, else Invite), then `Private` for the bare words private/offline/traveling, else `Public` |
| InstanceTags.FieldsFromLastPart | src/components/ui/instance.tsx:44-60 | each field of the result is the argument of the last part that sets it |
| InstanceTags.IgnoredPartsChangeNothing | src/components/ui/instance.tsx:41-61 | a part matching no pattern changes nothing |
| InstanceTags.CallerNeverPrivate | src/components/ui/instance.tsx:77-103 | the card always prefixes `instanceId=`, so `Private` never results |
| InstanceTags.LongInputNeverPrivate | src/components/ui/instance.tsx:77-78 | an input longer than `traveling` is never `Private` |
| InstanceTags.StatusColor | src/components/ui/instance.tsx:87-100 | each of the four statuses maps to its colour, and only it; everything else is black |
| InstanceTags.InstanceLink | src/components/ui/instance.tsx:102 | the launch link starts with the fixed launch prefix |
| InstanceTags.LinkRoundTrip | src/components/ui/instance.tsx:102 | the world id and instance id can be read back from the link when the world id has no `&` |
| Changelog.ExtractUnreleasedChanges | scripts/generate-changelog.js:41-87 | the line loop computes the extraction |
| Changelog.ExtractIsWellFormed | scripts/generate-changelog.js:55-83 | every collected line is a `- ` bullet, and `hasChanges` holds exactly when a bullet was collected |
| Changelog.BeforeUnreleasedIgnored | scripts/generate-changelog.js:55-66 | lines before `## [Unreleased]` collect nothing |
| Changelog.StopsAtNextVersion | scripts/generate-changelog.js:61-64 | nothing after the next `## [` heading is read |
| Changelog.UnknownHeadingKeepsSection | scripts/generate-changelog.js:67-82 | an unrecognised line does not change the current section |
| Changelog.BulletBeforeHeadingIgnored | scripts/generate-changelog.js:79-82 | inside Unreleased, a `- ` line read while no known `###` heading has been seen leaves the reader unchanged |
| Changelog.BulletsBeforeHeadingIgnored | scripts/generate-changelog.js:79-82 | a whole run of such bullet lines leaves the reader unchanged |
| Changelog.UnsectionedBulletsIgnored | scripts/generate-changelog.js:55-82 | `## [Unreleased]` followed only by bullets, with no `###` heading, yields no changes and `hasChanges` false |
| Changelog.ReadBlock | scripts/generate-changelog.js:67-82 | inside Unreleased, a section heading followed by bullets selects that section and appends the bullets to it |
| Changelog.HasChangesIffBucket | scripts/generate-changelog.js:79-81 | in a well-formed extraction `hasChanges` holds exactly when some section has a bullet |
| Changelog.CreateVersionEntry | scripts/generate-changelog.js:92-121 | the entry is the version heading, a blank line, then each non-empty section as heading, bullets and a blank line, in the order Added, Changed, Deprecated, Removed, Fixed, Security |
| Changelog.PushSection | scripts/generate-changelog.js:96-118 | an empty section adds nothing; otherwise the heading, the items and one blank line are appended |
| Changelog.EntryReadBack | scripts/generate-changelog.js:41-121 | reading a version entry back as an Unreleased section gives the changes it was written from |
| Changelog.EntryBullets | scripts/generate-changelog.js:92-121 | the entry's bullets are all the changes, section by section, in input order |
| Changelog.UpdateChangelog | scripts/generate-changelog.js:126-170 | the line loop computes the rewrite |
| Changelog.UpdateLayout | scripts/generate-changelog.js:134-155 | the Unreleased heading is followed by the empty six-heading skeleton; the old body is dropped; the entry is inserted right before the next `## [` heading; other lines are copied |
| Changelog.InsideDropped | scripts/generate-changelog.js:143-155 | inside Unreleased, lines before the next `## [` heading are not written |
| Changelog.OutsideCopied | scripts/generate-changelog.js:157-164 | once Unreleased is left, the remaining lines are copied, with only the link line rewritten |
| Changelog.FirstReleaseLosesEntry | scripts/generate-changelog.js:143-155 | with no `## [` heading after Unreleased, the entry and every later line are not written |
| Changelog.CopyPlainLines | scripts/generate-changelog.js:157-164 | outside Unreleased, every line that is not a link line is copied unchanged, in order |
| Changelog.LinkLineReplaced | scripts/generate-changelog.js:158-161 | the `[Unreleased]:` line becomes the compare link to `v<version>...HEAD` and the release-tag link |
| Changelog.StarBullet | scripts/generate-changelog.js:179-199 | replacing the first `- ` with `* ` turns a bullet into a star item and back |
| Changelog.GenerateReleaseBody | scripts/generate-changelog.js:175-207 | the pushes compute the release body |
| Changelog.PushReleaseSection | scripts/generate-changelog.js:179-199 | an empty section adds nothing; otherwise the heading, the starred items and a blank line are appended |
| Changelog.ReleaseBlockItems | scripts/generate-changelog.js:179-199 | the starred items of one release section are its bullets with `- ` replaced by `* ` |
| Changelog.ReleaseBodyItems | scripts/generate-changelog.js:178-200 | the body's items are the bullets starred, in the order Added, Changed, Fixed, Deprecated, Removed, Security |
| GitLog.TypeMatch | scripts/generate-changelog.js:225-230 | a match of `^word(\(.+\))?:` covers the word and ends at a `:` |
| GitLog.Strip | scripts/generate-changelog.js:226-230 | stripping removes the prefix and the white space after it; the rest is a suffix of the line that starts with a non-space |
| GitLog.ScopeEnd | scripts/generate-changelog.js:225-230 | for `word(scope): d`, with no `)` in `d`, the match ends right after `):` |
| GitLog.StripOneSpace | scripts/generate-changelog.js:226-230 | one space after the prefix is removed, and the description is kept |
| GitLog.Commits | scripts/generate-changelog.js:215 | the commits are the non-blank lines of the log |
| GitLog.GenerateFromGitLog | scripts/generate-changelog.js:212-241 | a failing `git log` gives no result; otherwise the `forEach` loop classifies every commit |
| GitLog.ClassifyCommit | scripts/generate-changelog.js:224-234 | the callback's `if`/`else` chain puts each commit under Added, Fixed or Changed as the classification says |
| GitLog.EveryCommitOnce | scripts/generate-changelog.js:224-234 | every commit lands in exactly one section |
| GitLog.BulletsAreBullets | scripts/generate-changelog.js:226-232 | every classified line is a `- ` bullet |
| GitLog.HasChangesIffAny | scripts/generate-changelog.js:221 | `hasChanges` holds exactly when a bullet was produced |
| GitLog.FeatureWithScope | scripts/generate-changelog.js:225-226 | `feat(scope): d` becomes `- d` under Added |
| GitLog.FixWithoutScope | scripts/generate-changelog.js:227-228 | `fix: d` becomes `- d` under Fixed |
| GitLog.RefactorWithScope | scripts/generate-changelog.js:229-230 | `refactor(scope): d` becomes `- d` under Changed |
| GitLog.OtherVerbatim | scripts/generate-changelog.js:231-232 | a line with no known type word is kept verbatim under Changed |
| GitLog.NotAPrefix | scripts/generate-changelog.js:225-232 | a line starting with `feature` (such as `feature: x`) has no `feat` prefix and is kept verbatim |
| UserStore.Without | src/libs/userDataStore.ts:139-144 | the filter keeps exactly the accounts with other ids |
| UserStore.WithUser | src/libs/userDataStore.ts:118-132 | the new record is last, exactly one account has its id, and the others keep their order |
| UserStore.FindUser | src/libs/userDataStore.ts:151 | the first account with the id, or none when there is none |
| UserStore.CurrentUserId | src/libs/userDataStore.ts:89-91 | a current id exists only when a non-empty one is stored |
| UserStore.WithoutUnique | src/libs/userDataStore.ts:139-144 | removing an id keeps the list unique |
| UserStore.WithUserUnique | src/libs/userDataStore.ts:118-132 | adding or updating keeps the list unique |
| UserStore.WithoutRemoves | src/libs/userDataStore.ts:139-144 | after removal no account has the id |
| UserStore.WithoutAbsent | src/libs/userDataStore.ts:139-144 | removing an absent id changes nothing |
| UserStore.WithoutKeepsOthers | src/libs/userDataStore.ts:139-152 | removing one id does not change which account another id finds |
| UserStore.FindAfterWithUser | src/libs/userDataStore.ts:118-152 | after adding or updating, the account is found by its id |
| UserStore.FindLast | src/libs/userDataStore.ts:151 | an account whose id appears only last is found |
| UserStore.UserDataStore.constructor | src/libs/userDataStore.ts:13-15 | the store opens over the persisted `store.json` contents, which the getters then read |
| UserStore.UserDataStore.GetTheme | src/libs/userDataStore.ts:17-27 | a truthy stored theme is returned; otherwise `light` is stored and returned |
| UserStore.UserDataStore.GetFetchFriendsCount | src/libs/userDataStore.ts:29-39 | any stored value, 0 included, is returned; only a missing one becomes 50 and is stored |
| UserStore.UserDataStore.GetAutoCheckUpdates | src/libs/userDataStore.ts:41-51 | a stored `false` is returned; only a missing value becomes `true` and is stored |
| UserStore.UserDataStore.GetLanguage | src/libs/userDataStore.ts:53-63 | a truthy stored language is returned; otherwise `ja` is stored and returned |
| UserStore.UserDataStore.GetInstancesData | src/libs/userDataStore.ts:65-75 | truthy stored data is returned; otherwise `[]` is stored and returned |
| UserStore.UserDataStore.GetUsers | src/libs/userDataStore.ts:77-87 | the stored account list, or the empty list |
| UserStore.UserDataStore.GetCurrentUserId | src/libs/userDataStore.ts:89-91 | the stored id when it is a non-empty string, else none |
| UserStore.UserDataStore.SetTheme | src/libs/userDataStore.ts:93-96 | only the theme key is written |
| UserStore.UserDataStore.SetFetchFriendsCount | src/libs/userDataStore.ts:98-101 | only the page-size key is written |
| UserStore.UserDataStore.SetAutoCheckUpdates | src/libs/userDataStore.ts:103-106 | only the auto-check key is written |
| UserStore.UserDataStore.SetLanguage | src/libs/userDataStore.ts:108-111 | only the language key is written |
| UserStore.UserDataStore.SetInstancesData | src/libs/userDataStore.ts:113-116 | only the instances key is written |
| UserStore.UserDataStore.SetCurrentUser | src/libs/userDataStore.ts:134-137 | only the current-user key is written |
| UserStore.UserDataStore.AddOrUpdateUser | src/libs/userDataStore.ts:118-132 | exactly one account has the id and it is last; the others keep their order; uniqueness is kept |
| UserStore.UserDataStore.RemoveUser | src/libs/userDataStore.ts:139-144 | no account has the id afterwards; the others are kept in order; uniqueness is kept |
| UserStore.UserDataStore.GetCurrentUser | src/libs/userDataStore.ts:146-152 | none without a current id, else the first account with that id |
| Licenses.FromNpm | src/components/ui/dialogs/license.tsx:69-74 | name and version are copied; a falsy licence becomes `Unknown` and a falsy text the default text |
| Licenses.FromCargo | src/components/ui/dialogs/license.tsx:79-84 | name and version are copied; a falsy licence becomes `Unknown`; the text is the file texts joined by newlines, or the default when that is empty |
| Licenses.NameBeforeTotal | src/components/ui/dialogs/license.tsx:90-94 | the name order ranks any two different names |
| Licenses.ByNameStrictOrder | src/components/ui/dialogs/license.tsx:90-94 | the name comparator is a strict order |
| Licenses.Arranged | src/components/ui/dialogs/license.tsx:88-94 | each list is sorted by name and is a permutation of the rows with a name and a version; every row has a licence and a text |
| Licenses.ArrangedKeeps | src/components/ui/dialogs/license.tsx:88-94 | a row appears as often as it was reported with a name and a version, otherwise never |
| Licenses.NpmRows | src/components/ui/dialogs/license.tsx:69-90 | the npm list is sorted by name and has only listed rows |
| Licenses.CargoWithoutText | src/components/ui/dialogs/license.tsx:83 | a library without licence text shows the default text |
| Licenses.CargoJoinedText | src/components/ui/dialogs/license.tsx:83 | several licence files are joined with newlines |
| Licenses.Normalise | src/components/ui/dialogs/license.tsx:66-99 | both lists are built from the decoded report |
| Licenses.Toggle | src/components/ui/dialogs/license.tsx:143-144 | the entry opens exactly when it was not the open one |
| Licenses.ToggleTwice | src/components/ui/dialogs/license.tsx:143-144 | toggling the same entry twice closes it, unless it was the open one |
| Licenses.LicenseDialog.constructor | src/components/ui/dialogs/license.tsx:54-56 | empty lists, nothing expanded, loading |
| Licenses.LicenseDialog.FetchLicenses | src/components/ui/dialogs/license.tsx:61-111 | success normalises both lists; a thrown call or an undecodable report empties them; a non-ok result keeps them; loading ends in every case |
| Licenses.LicenseDialog.ToggleLicense | src/components/ui/dialogs/license.tsx:144 | only the expanded entry changes |
| InstanceDetail.FirstNonEmpty | src/components/ui/dialogs/instanceDetail.tsx:20-29 | the first non-empty candidate, or the fallback |
| InstanceDetail.OwnerUserId | src/components/ui/dialogs/instanceDetail.tsx:19-29 | the owner is `hidden`, else `friends`, else `private`, else the world author |
| InstanceDetail.OwnerName | src/components/ui/dialogs/instanceDetail.tsx:31-35 | the looked-up name on success, `Unknown` on failure |
| InstanceDetail.TypeLabel | src/components/ui/dialogs/instanceDetail.tsx:41-65 | the label table; no label is empty |
| InstanceDetail.UnknownIffNotKnown | src/components/ui/dialogs/instanceDetail.tsx:41-65 | the label is `Unknown` exactly for the combinations the table does not list |
| InstanceDetail.LabelDeterminesType | src/components/ui/dialogs/instanceDetail.tsx:41-65 | a known label determines the type, and for a group the access type |
| InstanceDetail.GroupAccessIgnoredOutsideGroups | src/components/ui/dialogs/instanceDetail.tsx:41-65 | the group access type matters only for groups |
| InstanceDetail.InstanceDetailDialog.constructor | src/components/ui/dialogs/instanceDetail.tsx:16 | the owner name starts as `Loading...` |
| InstanceDetail.InstanceDetailDialog.GetInstanceOwnerDetail | src/components/ui/dialogs/instanceDetail.tsx:18-36 | the owner name becomes the lookup result for the prioritised owner id |
| Commands.Login | src-tauri/src/commands.rs:158-184 | an OK JSON answer whose `requiresTwoFactorAuth` array lists `emailOtp` gives `emailOtp`, an array without it gives `totp`, and an answer with no such array returns its raw body text. 401 is `errors.loginFail`; another status is a status error; a non-JSON OK body panics |
| Commands.LoginSecondFactor | src-tauri/src/commands.rs:162-171 | a factor list always yields `emailOtp` or `totp`, and `totp` exactly when `emailOtp` is absent |
| Commands.OtpVerifiedCheck | src-tauri/src/commands.rs:223-260 | 401 and 400 are `errors.2faFail`; other non-OK statuses are status errors; `verified` other than `true` gives `false`; `true` results only from a verified code |
| Commands.OtpFollowUpFails | src-tauri/src/commands.rs:230-241 | a verified code whose user request fails is `errors.2faFail` |
| Commands.OtpSavesSession | src-tauri/src/commands.rs:230-236 | a verified code with a user id succeeds exactly when the session is saved |
| Commands.VerifyOutcome | src-tauri/src/commands.rs:274-294 | the answer is `true` exactly for an OK body with `ok == true`; other OK JSON bodies give `false`; 401 is `errors.unauthorized` |
| Commands.WorldOf | src-tauri/src/commands.rs:434 | a world decodes from an object with the three string fields, or an array of them |
| Commands.SentinelWorld | src-tauri/src/commands.rs:373-405 | exactly `private`, `web_or_mobile`, `offline` and `traveling` have fixed records, each with its own id and a name |
| Commands.WorldLookup | src-tauri/src/commands.rs:370-461 | placeholders and cache hits answer without a request and leave the cache alone; the API is asked exactly on a miss; the cache grows only by the requested id |
| Commands.FailedFetchKeepsCache | src-tauri/src/commands.rs:450-457 | a non-OK answer is `Failed...` and keeps the cache |
| Commands.OkFetchReturnsText | src-tauri/src/commands.rs:428-448 | an OK answer returns its text; only a decodable world is cached |
| Commands.FetchedOnce | src-tauri/src/commands.rs:408-448 | after a successful fetch the next lookup is a cache hit that asks nothing |
| Commands.LookupKeepsOtherEntries | src-tauri/src/commands.rs:370-461 | a lookup never changes another id's cache entry |
| Commands.MethodOf | src-tauri/src/commands.rs:573-580 | the upper-cased name selects GET, POST, PUT, DELETE or PATCH; anything else selects none |
| Commands.BuildRequest | src-tauri/src/commands.rs:573-587 | an unknown method is `Unsupported HTTP method`; the URL is the API base plus the endpoint; a body is sent exactly when data was given |
| Commands.DebugApiRequest | src-tauri/src/commands.rs:570-607 | a request that cannot be built fails with its message; a send error fails with that error; an OK answer returns `ok` with the answer's text; only a built request can answer `ok`, and the status is always `ok` or `error` |
| Commands.MethodCaseInsensitive | src-tauri/src/commands.rs:573 | the method is matched regardless of ASCII case |
| Commands.MethodRoundTrip | src-tauri/src/commands.rs:573-578 | each method's name, upper or lower case, selects that method |
| Commands.RejectedBeforeSending | src-tauri/src/commands.rs:579-585 | an unknown method or invalid JSON data fails without using the network |
| Commands.DebugNonOk | src-tauri/src/commands.rs:602-605 | a non-OK answer is still a successful command with status `error` |
| Commands.AppState.constructor | src-tauri/src/structs.rs:17-21 | not logged in, empty cache |
| Commands.AppState.InsertWorld | src-tauri/src/commands.rs:92-95 | the cache maps the id to the world; nothing else changes |
| Commands.AppState.GetWorld | src-tauri/src/commands.rs:97-100 | the cached world for the id, or none |
| Commands.AppState.GetWorldById | src-tauri/src/commands.rs:370-461 | the command computes the lookup's answer and cache, and logs a request exactly when the API is asked |
| Commands.AppState.VerifyAuthToken | src-tauri/src/commands.rs:264-295 | the login flag is set exactly when the answer is `true`, and never cleared |

## Left out

- Network, IPC and persistence. This covers the reqwest calls, the Tauri command plumbing,
  the generated front-end bindings, cookie storage, `store.save()`, and file and process
  access in the release script. Their results are parameters of the model.
- Concurrency and timing: the `Promise.all` fan-out (the model resolves a page sequentially),
  the one-second pause between pages, the `RwLock` around the backend state, React's state
  batching and effect scheduling.
- JSON parsing and serialisation. Bodies are already-decoded values. The text
  `get_world_by_id` serialises itself is represented by the record it serialises.
- FriendScreen.FriendScreenState.Load: each pass is assumed to end at some request (an error
  or a short page). The model takes that request as a ghost argument; an endless run of
  full pages is not modelled.
- RosterView.FilterFriends: `toLowerCase` is modelled on ASCII letters only.
- Commands.MethodOf: upper-casing is modelled on ASCII letters only. Rust's Unicode upper-casing
  also maps a few other characters (for example `ſ` and the `ﬆ` ligature) to ASCII letters.
- Commands.StatusText: a status is displayed as its code; the reason phrase Rust appends is
  not modelled.
- Licenses.NameBefore: `localeCompare` is modelled as code-point lexicographic order.
- Licenses.LicenseDialog.FetchLicenses: a `TypeError` thrown while normalising a malformed
  report is not modelled; the report is assumed to have the documented shape.
- UserStore.UserDataStore.GetUsers: a `users` value that is not a valid JSON list would throw.
  The model reads it as no accounts. The `Date` reconstruction of `lastLogin` is not modelled.
- Commands.Login: a failure while reading the body of an OK answer is not modelled.
  The same applies to the other commands.
- The release script's own entry point (argument handling, `process.exit`, console output)
  and the writing of the files it produces.
- The rendering of every screen and dialog, and the screens, dialogs and scripts outside
  the modelled logic.
