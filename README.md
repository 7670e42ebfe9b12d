# Keycloak identity managers for Activiti, modelled in Dafny

The repository plugs a Keycloak realm into the Activiti workflow engine as a
read-only identity store. Two managers answer the engine's identity queries:

- the **group manager** (`KeycloakGroupManager`) turns every realm role into an
  engine group of type `"assignment"` and answers group queries by filtering
  the whole role list in memory: exact id, exact name, name substring (with
  every `%` removed from the pattern), membership of a user (the ids of the
  user's realm-level roles) and type, combined by AND, collected through a
  `HashSet` so that no group is listed twice;
- the **user manager** (`KeycloakUserManager`) maps Keycloak user records to
  engine users, answers a query with an id by a single lookup, and answers any
  other query with the first 100 users of an unfiltered directory search.

Every write, every native query and every query shape the managers do not
implement throws an `ActivitiException`; password checks always fail and no
user has a picture.

Layout:

- `engine.dfy` (module `Engine`): the engine's values (`Group`, `User`,
  `Picture`, `IdentityInfo`), the query criteria (`GroupQuery`, `UserQuery`,
  unset criteria as `None`), `ActivitiException`, and `Result`/`Outcome` for
  entry points that return or throw.
- `keycloak.dfy` (module `Keycloak`): the admin client's role and user records
  and the two resources as abstract inputs: the role list, the user lookup,
  the user search (bounded by its `max` argument) and each user's realm-level
  role list.
- `strings.dfy` (module `Strings`): `String.replace("%", "")` and
  `String.contains`, with a second, recursive definition of `contains` proved
  equal to the first.
- `seqs.dfy` (module `Seqs`): lists without repeats and the copy of a
  `HashSet` into an `ArrayList`.
- `group_manager.dfy` (module `KeycloakGroups`): class `GroupManager` and the
  functions that specify its queries (`AllGroups`, `RoleIds`, `Matches`,
  `Membership`, `Selected`, `Answer`), with lemmas about them.
- `user_manager.dfy` (module `KeycloakUsers`): class `UserManager`.

The managers are classes whose resource fields are `const`, as the Java
fields are `final`; the loops of `getAllGroups`, `filterGroupsByQuery`,
`getUserRoles` and `findUserByQueryCriteria` are `while` loops with their
invariants. Since the `HashSet`-to-`ArrayList` copy leaves the order open, the
group queries are specified by the SET of groups they list (`Answer`) and by
the absence of repeats, never by an order.

## Model

| member | source | states |
|---|---|---|
| `KeycloakGroups.GroupManager.constructor` | src/main/java/org/activiti/keycloak/KeycloakGroupManager.java:48-51 | the manager keeps the roles resource and the users resource it is given |
| `KeycloakGroups.Matches` | src/main/java/org/activiti/keycloak/KeycloakGroupManager.java:98-102 | the keep test: id, name, wildcard-stripped name substring, membership and type, each imposing nothing when unset, so a query with no criterion and no member set keeps every group |
| `KeycloakGroups.MembershipOnlyNarrows` | src/main/java/org/activiti/keycloak/KeycloakGroupManager.java:101 | a group kept under a member criterion is also kept without it: membership only narrows the result |
| `KeycloakGroups.Membership` | src/main/java/org/activiti/keycloak/KeycloakGroupManager.java:95 | the role-id set is absent exactly when the member criterion is unset; otherwise an id is in it iff one of the user's realm-level roles has that id |
| `Engine.MemberQuery` | src/main/java/org/activiti/keycloak/KeycloakGroupManager.java:125 | the query built by `groupMember(userId)` has the member criterion set to the user and every other criterion unset |
| `KeycloakGroups.AllGroups` | src/main/java/org/activiti/keycloak/KeycloakGroupManager.java:81-91 | one group per role, in list order; each copies the role's id and name and has type "assignment" |
| `KeycloakGroups.GroupManager.GetAllGroups` | src/main/java/org/activiti/keycloak/KeycloakGroupManager.java:81-91 | the loop over `rolesResource.list()` builds exactly `AllGroups` of the directory's roles |
| `KeycloakGroups.RoleIds` | src/main/java/org/activiti/keycloak/KeycloakGroupManager.java:110-122 | an id is in the set iff some role of the list has that id |
| `KeycloakGroups.GroupManager.GetUserRoles` | src/main/java/org/activiti/keycloak/KeycloakGroupManager.java:110-122 | the loop collects exactly the ids of the user's realm-level roles |
| `KeycloakGroups.GroupManager.FilterGroupsByQuery` | src/main/java/org/activiti/keycloak/KeycloakGroupManager.java:93-108 | the result lists no group twice, and a group is in it iff it is in the input and meets every set criterion, the member criterion being tested against the user's realm-level role ids and imposing nothing when unset |
| `KeycloakGroups.GroupManager.FindGroupByQueryCriteria` | src/main/java/org/activiti/keycloak/KeycloakGroupManager.java:73-75 | lists every group of the query's answer exactly once, so its length is the answer's size; the page is ignored |
| `KeycloakGroups.GroupManager.FindGroupCountByQueryCriteria` | src/main/java/org/activiti/keycloak/KeycloakGroupManager.java:77-79 | the count is the size of the answer, which is the length of the list the query returns |
| `KeycloakGroups.GroupManager.FindGroupsByUser` | src/main/java/org/activiti/keycloak/KeycloakGroupManager.java:124-126 | the answer of the query with only the member criterion set: the groups whose id is a realm-level role id of the user, each once |
| `KeycloakGroups.MemberQueryAnswer` | src/main/java/org/activiti/keycloak/KeycloakGroupManager.java:95-103 | with only the member criterion set, a group is kept iff it is a directory group whose id the user holds as a realm-level role |
| `KeycloakGroups.GroupListed` | src/main/java/org/activiti/keycloak/KeycloakGroupManager.java:81-91 | a role's group is among the groups of a role list iff the role is in the list |
| `KeycloakGroups.DistinctGroupsPerRole` | src/main/java/org/activiti/keycloak/KeycloakGroupManager.java:81-91 | the number of distinct groups equals the number of distinct roles |
| `KeycloakGroups.UnfilteredQueryKeepsEveryRole` | src/main/java/org/activiti/keycloak/KeycloakGroupManager.java:93-108 | a query with no criterion keeps every group, one per distinct role |
| `KeycloakGroups.UnknownIdSelectsNothing` | src/main/java/org/activiti/keycloak/KeycloakGroupManager.java:98 | an id criterion that names no role answers nothing |
| `KeycloakGroups.AnswerWithinDirectory` | src/main/java/org/activiti/keycloak/KeycloakGroupManager.java:81-106 | every group answered has type "assignment" and the id and name of some directory role |
| `KeycloakGroups.WildcardsIgnored` | src/main/java/org/activiti/keycloak/KeycloakGroupManager.java:100 | a name-like pattern answers the same as the pattern with its `%` removed |
| `KeycloakGroups.OnlyWildcardsFilterNothing` | src/main/java/org/activiti/keycloak/KeycloakGroupManager.java:100 | a pattern made only of `%` answers the same as no name-like criterion |
| `KeycloakGroups.PrefixPatternMatchesAdmin` | src/main/java/org/activiti/keycloak/KeycloakGroupManager.java:100 | the pattern "Ad%" selects a group named "Admin" |
| `KeycloakGroups.CriteriaConjoin` | src/main/java/org/activiti/keycloak/KeycloakGroupManager.java:98-102 | the answer of a query is the intersection of the answers of its criteria set one at a time (AND semantics) |
| `KeycloakGroups.TypeCriterion` | src/main/java/org/activiti/keycloak/KeycloakGroupManager.java:87 | a type criterion "assignment" filters nothing out; any other type answers nothing |
| `KeycloakGroups.DistinctRoleIdsGiveDistinctGroupIds` | src/main/java/org/activiti/keycloak/KeycloakGroupManager.java:94-106 | when role ids are distinct, no two answered groups share an id |
| `KeycloakGroups.SingleRoleMemberScenario` | src/main/java/org/activiti/keycloak/KeycloakGroupManager.java:124-126 | role r1 "Admin" held by u1: the groups of u1 are listed as exactly `[r1, "Admin", "assignment"]` |
| `KeycloakGroups.TwoOfThreeRolesScenario` | src/main/java/org/activiti/keycloak/KeycloakGroupManager.java:97-103 | roles A, B, C with the user holding A and B: the member query answers {A, B}; adding C's name answers nothing |
| `KeycloakGroups.MissingNameScenario` | src/main/java/org/activiti/keycloak/KeycloakGroupManager.java:99 | a name no role carries answers nothing |
| `KeycloakGroups.GroupManager.CreateNewGroup` | src/main/java/org/activiti/keycloak/KeycloakGroupManager.java:53-55 | always fails with the group manager's write-unsupported exception |
| `KeycloakGroups.GroupManager.InsertGroup` | src/main/java/org/activiti/keycloak/KeycloakGroupManager.java:57-59 | always fails with the group manager's write-unsupported exception |
| `KeycloakGroups.GroupManager.UpdateGroup` | src/main/java/org/activiti/keycloak/KeycloakGroupManager.java:61-63 | always fails with the group manager's write-unsupported exception |
| `KeycloakGroups.GroupManager.DeleteGroup` | src/main/java/org/activiti/keycloak/KeycloakGroupManager.java:65-67 | always fails with the group manager's write-unsupported exception |
| `KeycloakGroups.GroupManager.FindGroupsByNativeQuery` | src/main/java/org/activiti/keycloak/KeycloakGroupManager.java:128-130 | always fails with the group manager's native-query exception |
| `KeycloakGroups.GroupManager.FindGroupCountByNativeQuery` | src/main/java/org/activiti/keycloak/KeycloakGroupManager.java:132-134 | always fails with the group manager's native-query exception |
| `KeycloakGroups.GroupManager.IsNewGroup` | src/main/java/org/activiti/keycloak/KeycloakGroupManager.java:136-138 | always fails with the group manager's write-unsupported exception |
| `Strings.StripWildcards` | src/main/java/org/activiti/keycloak/KeycloakGroupManager.java:100 | the stripped pattern has no `%`, holds the same other characters as the pattern, and a pattern without `%` is unchanged |
| `Strings.StripWildcardsAppend` | src/main/java/org/activiti/keycloak/KeycloakGroupManager.java:100 | stripping distributes over concatenation, so the kept characters stay in order |
| `Strings.StripWildcardsChar` | src/main/java/org/activiti/keycloak/KeycloakGroupManager.java:100 | on one character, stripping drops `%` and keeps any other character |
| `Strings.StripWildcardsCounts` | src/main/java/org/activiti/keycloak/KeycloakGroupManager.java:100 | every character other than `%` is kept as many times as it occurs |
| `Strings.StripWildcardsIdempotent` | src/main/java/org/activiti/keycloak/KeycloakGroupManager.java:100 | stripping a stripped pattern changes nothing |
| `Strings.Contains` | src/main/java/org/activiti/keycloak/KeycloakGroupManager.java:100 | `contains`: the pattern occurs as a contiguous block of the name; the empty pattern occurs in every name |
| `Strings.OnlyWildcardsStripToEmpty` | src/main/java/org/activiti/keycloak/KeycloakGroupManager.java:100 | a pattern of only `%` strips to the empty string |
| `Strings.ContainsAgrees` | src/main/java/org/activiti/keycloak/KeycloakGroupManager.java:100 | the substring test equals its recursive reference definition (starts here or occurs in the tail) |
| `Strings.ContainsEmpty` | src/main/java/org/activiti/keycloak/KeycloakGroupManager.java:100 | every name contains the empty pattern |
| `Seqs.ListOf` | src/main/java/org/activiti/keycloak/KeycloakGroupManager.java:106 | copying the set into a list lists each element exactly once and nothing else |
| `Seqs.DistinctLength` | src/main/java/org/activiti/keycloak/KeycloakGroupManager.java:77-79 | a list without repeats is as long as its set of elements is large |
| `KeycloakUsers.UserManager.constructor` | src/main/java/org/activiti/keycloak/KeycloakUserManager.java:49-51 | the manager keeps the users resource it is given |
| `KeycloakUsers.ToUser` | src/main/java/org/activiti/keycloak/KeycloakUserManager.java:70-79 | null record gives null user; otherwise id, email, first and last name are the record's |
| `KeycloakUsers.ToUserInjective` | src/main/java/org/activiti/keycloak/KeycloakUserManager.java:70-79 | the four copied fields determine the user: equal users come from records with the same id, email and names |
| `KeycloakUsers.UserManager.FindUserById` | src/main/java/org/activiti/keycloak/KeycloakUserManager.java:65-68 | absent exactly when the directory has no such record; otherwise carries the record's fields |
| `KeycloakUsers.UserManager.FindUserByQueryCriteria` | src/main/java/org/activiti/keycloak/KeycloakUserManager.java:85-99 | with an id: at most one user, empty iff the lookup is absent, and that user; without: one mapped user per record of `search("", 0, 100)`, in order, at most 100, no other criterion consulted |
| `KeycloakUsers.UserManager.FindUserCountByQueryCriteria` | src/main/java/org/activiti/keycloak/KeycloakUserManager.java:101-103 | the length of the same query's list: 1 or 0 with an id, the search's record count otherwise, never above 100 |
| `KeycloakUsers.UserManager.CheckPassword` | src/main/java/org/activiti/keycloak/KeycloakUserManager.java:121-124 | false for every user id and password |
| `KeycloakUsers.UserManager.GetUserPicture` | src/main/java/org/activiti/keycloak/KeycloakUserManager.java:142-144 | always absent |
| `KeycloakUsers.UserManager.CreateNewUser` | src/main/java/org/activiti/keycloak/KeycloakUserManager.java:53-55 | always fails with the user manager's write-unsupported exception |
| `KeycloakUsers.UserManager.InsertUser` | src/main/java/org/activiti/keycloak/KeycloakUserManager.java:57-59 | always fails with the user manager's write-unsupported exception |
| `KeycloakUsers.UserManager.UpdateUser` | src/main/java/org/activiti/keycloak/KeycloakUserManager.java:61-63 | always fails with the user manager's write-unsupported exception |
| `KeycloakUsers.UserManager.DeleteUser` | src/main/java/org/activiti/keycloak/KeycloakUserManager.java:81-83 | always fails with the user manager's write-unsupported exception |
| `KeycloakUsers.UserManager.FindGroupsByUser` | src/main/java/org/activiti/keycloak/KeycloakUserManager.java:105-107 | always fails with the user manager's unsupported-query exception |
| `KeycloakUsers.UserManager.FindUserInfoByUserIdAndKey` | src/main/java/org/activiti/keycloak/KeycloakUserManager.java:113-115 | always fails with the user manager's unsupported-query exception |
| `KeycloakUsers.UserManager.FindUserInfoKeysByUserIdAndType` | src/main/java/org/activiti/keycloak/KeycloakUserManager.java:117-119 | always fails with the user manager's unsupported-query exception |
| `KeycloakUsers.UserManager.FindPotentialStarterUsers` | src/main/java/org/activiti/keycloak/KeycloakUserManager.java:126-128 | always fails with the user manager's unsupported-query exception |
| `KeycloakUsers.UserManager.FindUsersByNativeQuery` | src/main/java/org/activiti/keycloak/KeycloakUserManager.java:130-132 | always fails with the user manager's native-query exception |
| `KeycloakUsers.UserManager.FindUserCountByNativeQuery` | src/main/java/org/activiti/keycloak/KeycloakUserManager.java:134-136 | always fails with the user manager's native-query exception |
| `KeycloakUsers.UserManager.IsNewUser` | src/main/java/org/activiti/keycloak/KeycloakUserManager.java:138-140 | always fails with the user manager's write-unsupported exception |
| `KeycloakUsers.UserManager.SetUserPicture` | src/main/java/org/activiti/keycloak/KeycloakUserManager.java:146-148 | always fails with the user manager's write-unsupported exception |

## Left out

- The Keycloak REST transport (`RolesResource.list`, `UsersResource.get`, `search`, `roles().realmLevel().listAll()`): modelled as abstract inputs; a transport failure, which the managers let propagate unchanged, is not modelled. In particular a lookup of an unknown user is modelled as an absent record, not as the client's HTTP error.
- `KeycloakConfigurator`, `KeycloakGroupManagerFactory` and `KeycloakUserManagerFactory`: configuration, lazy client caching and session-factory registration are wiring around the admin client and the engine, not query logic.
- `createNewGroupQuery` and `createNewUserQuery`: they only build an engine query object from the engine's command context.
- The `Page` argument of both `find...ByQueryCriteria` methods is dropped: the source ignores it.
- The warnings logged by `findUserByQueryCriteria` and `checkPassword` are not modelled.
- Group identity: the Java filter deduplicates through `GroupEntity`'s `equals`/`hashCode`, which are not part of this model; the model's groups are values, deduplicated by value. Two roles with the same id and name therefore give one group here; distinct Keycloak roles have distinct ids, and `DistinctRoleIdsGiveDistinctGroupIds` covers that case.
- Null fields: role and user records and query criteria are strings that are never null; a null role id or name, on which the Java filter would throw, is not modelled. A null element in the search result list is not modelled either.
- `findGroupsByUser(null)` in the group manager (the engine's `groupMember(null)` throws) is not modelled: user ids are never null here.
- The native-query parameter maps are typed `map<string, V>` for any `V`, standing for `Map<String, Object>`.
- The exceptions are `ActivitiException` values carrying the source's message; the messages tell unsupported writes, unsupported queries and unsupported native queries apart.
- The user record has only the four fields the mapping copies; Keycloak's record also carries a username, enabled flag, attributes and more, which the mapping drops, so `ToUserInjective` holds for the modelled record only.
- Java strings are sequences of UTF-16 code units, Dafny's `char` is a Unicode scalar value: strings with unpaired surrogates cannot be represented; on well-formed strings `equals`, `contains` and `replace` agree with the model.
