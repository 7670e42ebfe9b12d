/** The Keycloak group manager: every realm role is an engine group of type
    "assignment"; group queries are answered by filtering all roles in memory. */
module KeycloakGroups {
  import opened Engine
  import opened Keycloak
  import opened Strings
  import opened Seqs

  const WriteUnsupported: string := "Write operations are not supported by Keycloak group manager"
  const NativeUnsupported: string := "Native queries are not supported by Keycloak group manager"

  /** The group a role becomes. */
  function ToGroup(role: RoleRepresentation): Group
  {
    Group(role.id, role.name, AssignmentType)
  }

  /** All groups, one per role of `roles`, in list order. */
  function AllGroups(roles: seq<RoleRepresentation>): (gs: seq<Group>)
    ensures |gs| == |roles|
    ensures forall k :: 0 <= k < |roles| ==>
      gs[k].id == roles[k].id && gs[k].name == roles[k].name && gs[k].groupType == AssignmentType
  {
    if roles == [] then [] else [ToGroup(roles[0])] + AllGroups(roles[1..])
  }

  /** The ids of a list of roles, as a set. */
  function RoleIds(roles: seq<RoleRepresentation>): (ids: set<string>)
    ensures forall id :: id in ids <==> exists k :: 0 <= k < |roles| && roles[k].id == id
  {
    if roles == [] then {}
    else
      var rest := RoleIds(roles[1..]);
      assert forall k :: 0 < k < |roles| ==> roles[k] == roles[1..][k - 1];
      {roles[0].id} + rest
  }

  /** The keep-test of the filter. `members` is the role-id set of the member
      criterion's user, `None` when that criterion is unset. */
  predicate Matches(g: Group, q: GroupQuery, members: Option<set<string>>)
    ensures q == EmptyGroupQuery && members.None? ==> Matches(g, q, members)
  {
    (q.id.None? || g.id == q.id.value) &&
    (q.name.None? || g.name == q.name.value) &&
    (q.nameLike.None? || Contains(g.name, StripWildcards(q.nameLike.value))) &&
    (members.None? || g.id in members.value) &&
    (q.groupType.None? || g.groupType == q.groupType.value)
  }

  /** The role-id set the member criterion allows: looked up only when it is set. */
  function Membership(users: UsersResource, q: GroupQuery): (members: Option<set<string>>)
    ensures members.None? <==> q.userId.None?
    ensures members.Some? ==> forall id :: id in members.value <==>
      exists k :: 0 <= k < |users.realmRoles(q.userId.value)| && users.realmRoles(q.userId.value)[k].id == id
  {
    if q.userId.None? then None else Some(RoleIds(users.realmRoles(q.userId.value)))
  }

  /** The groups of `groups` that the filter keeps. */
  function Selected(groups: seq<Group>, q: GroupQuery, members: Option<set<string>>): set<Group>
  {
    set g | g in groups && Matches(g, q, members)
  }

  /** Dropping the member criterion never loses a group: the role-id set only narrows. */
  lemma MembershipOnlyNarrows(g: Group, q: GroupQuery, members: Option<set<string>>)
    requires Matches(g, q, members)
    ensures Matches(g, q, None)
  {
  }

  /** The set of groups a query answers, against the directory's current roles. */
  function Answer(roles: RolesResource, users: UsersResource, q: GroupQuery): set<Group>
  {
    Selected(AllGroups(roles.list), q, Membership(users, q))
  }

  class GroupManager {
    const rolesResource: RolesResource
    const usersResource: UsersResource

    constructor (rolesResource: RolesResource, usersResource: UsersResource)
      ensures this.rolesResource == rolesResource && this.usersResource == usersResource
    {
      this.rolesResource := rolesResource;
      this.usersResource := usersResource;
    }

    method CreateNewGroup(groupId: string) returns (r: Result<Group>)
      ensures r == Failure(ActivitiException(WriteUnsupported))
    {
      r := Failure(ActivitiException(WriteUnsupported));
    }

    method InsertGroup(group: Group) returns (o: Outcome)
      ensures o == Fail(ActivitiException(WriteUnsupported))
    {
      o := Fail(ActivitiException(WriteUnsupported));
    }

    method UpdateGroup(updatedGroup: Group) returns (o: Outcome)
      ensures o == Fail(ActivitiException(WriteUnsupported))
    {
      o := Fail(ActivitiException(WriteUnsupported));
    }

    method DeleteGroup(groupId: string) returns (o: Outcome)
      ensures o == Fail(ActivitiException(WriteUnsupported))
    {
      o := Fail(ActivitiException(WriteUnsupported));
    }

    /** The groups a query selects, each listed once; the page is not honoured. */
    method FindGroupByQueryCriteria(q: GroupQuery) returns (r: seq<Group>)
      ensures NoDuplicates(r)
      ensures Elems(r) == Answer(rolesResource, usersResource, q)
      ensures |r| == |Answer(rolesResource, usersResource, q)|
    {
      var all := GetAllGroups();
      r := FilterGroupsByQuery(all, q);
      DistinctLength(r);
    }

    /** The number of groups a query selects. */
    method FindGroupCountByQueryCriteria(q: GroupQuery) returns (n: nat)
      ensures n == |Answer(rolesResource, usersResource, q)|
    {
      var all := GetAllGroups();
      var r := FilterGroupsByQuery(all, q);
      DistinctLength(r);
      n := |r|;
    }

    /** One group per role the directory lists, in the directory's order. */
    method GetAllGroups() returns (gs: seq<Group>)
      ensures gs == AllGroups(rolesResource.list)
    {
      var roles := rolesResource.list;
      gs := [];
      var i := 0;
      while i < |roles|
        invariant 0 <= i <= |roles|
        invariant |gs| == i
        invariant forall k :: 0 <= k < i ==> gs[k] == ToGroup(roles[k])
      {
        var g := Group(roles[i].id, roles[i].name, AssignmentType);
        gs := gs + [g];
        i := i + 1;
      }
    }

    /** The groups of `groups` that meet every criterion of `q`, each once. */
    method FilterGroupsByQuery(groups: seq<Group>, q: GroupQuery) returns (r: seq<Group>)
      ensures NoDuplicates(r)
      ensures Elems(r) == Selected(groups, q, Membership(usersResource, q))
    {
      var members: Option<set<string>> := None;
      if q.userId.Some? {
        var ids := GetUserRoles(q.userId.value);
        members := Some(ids);
      }
      var kept: set<Group> := {};
      var i := 0;
      while i < |groups|
        invariant 0 <= i <= |groups|
        invariant kept == Selected(groups[..i], q, members)
      {
        assert groups[..i + 1] == groups[..i] + [groups[i]];
        if Matches(groups[i], q, members) {
          kept := kept + {groups[i]};
        }
        i := i + 1;
      }
      assert groups[..i] == groups;
      r := ListOf(kept);
    }

    /** The ids of the user's realm-level roles. */
    method GetUserRoles(userId: string) returns (ids: set<string>)
      ensures ids == RoleIds(usersResource.realmRoles(userId))
    {
      var roles := usersResource.realmRoles(userId);
      ids := {};
      var i := 0;
      while i < |roles|
        invariant 0 <= i <= |roles|
        invariant ids == RoleIds(roles[..i])
      {
        assert roles[..i + 1][..i] == roles[..i];
        ids := ids + {roles[i].id};
        i := i + 1;
      }
      assert roles[..i] == roles;
    }

    /** The groups whose id is among the user's realm-level role ids, each once. */
    method FindGroupsByUser(userId: string) returns (r: seq<Group>)
      ensures NoDuplicates(r)
      ensures Elems(r) == Answer(rolesResource, usersResource, MemberQuery(userId))
      ensures forall g :: g in r <==>
        g in AllGroups(rolesResource.list) && g.id in RoleIds(usersResource.realmRoles(userId))
    {
      var all := GetAllGroups();
      r := FilterGroupsByQuery(all, MemberQuery(userId));
      MemberQueryAnswer(rolesResource, usersResource, userId);
    }

    method FindGroupsByNativeQuery<V>(parameterMap: map<string, V>, firstResult: int, maxResults: int)
      returns (r: Result<seq<Group>>)
      ensures r == Failure(ActivitiException(NativeUnsupported))
    {
      r := Failure(ActivitiException(NativeUnsupported));
    }

    method FindGroupCountByNativeQuery<V>(parameterMap: map<string, V>) returns (r: Result<int>)
      ensures r == Failure(ActivitiException(NativeUnsupported))
    {
      r := Failure(ActivitiException(NativeUnsupported));
    }

    method IsNewGroup(group: Group) returns (r: Result<bool>)
      ensures r == Failure(ActivitiException(WriteUnsupported))
    {
      r := Failure(ActivitiException(WriteUnsupported));
    }
  }

  /** The member-only query keeps exactly the groups whose id the user holds
      as a realm-level role. */
  lemma MemberQueryAnswer(roles: RolesResource, users: UsersResource, userId: string)
    ensures forall g :: g in Answer(roles, users, MemberQuery(userId)) <==>
      g in AllGroups(roles.list) && g.id in RoleIds(users.realmRoles(userId))
  {
  }

  /** A role's group is listed among the groups of a role list exactly when
      the role is in that list. */
  lemma GroupListed(role: RoleRepresentation, roles: seq<RoleRepresentation>)
    ensures ToGroup(role) in AllGroups(roles) <==> role in roles
  {
  }

  /** Groups of distinct roles are distinct: the group count of a role list is
      its number of distinct roles. */
  lemma {:induction false} DistinctGroupsPerRole(roles: seq<RoleRepresentation>)
    ensures |Elems(AllGroups(roles))| == |Elems(roles)|
  {
    if roles != [] {
      var first, rest := roles[0], roles[1..];
      DistinctGroupsPerRole(rest);
      var gs, restGroups := AllGroups(roles), AllGroups(rest);
      assert gs == [ToGroup(first)] + restGroups;
      assert roles == [first] + rest;
      GroupListed(first, rest);
      if first in rest {
        assert Elems(roles) == Elems(rest);
        assert Elems(gs) == Elems(restGroups);
      } else {
        assert Elems(roles) == Elems(rest) + {first};
        assert Elems(gs) == Elems(restGroups) + {ToGroup(first)};
      }
    }
  }

  /** A query with no criterion set answers one group per distinct role. */
  lemma UnfilteredQueryKeepsEveryRole(roles: RolesResource, users: UsersResource)
    ensures Answer(roles, users, EmptyGroupQuery) == Elems(AllGroups(roles.list))
    ensures |Answer(roles, users, EmptyGroupQuery)| == |Elems(roles.list)|
  {
    assert Answer(roles, users, EmptyGroupQuery) == Elems(AllGroups(roles.list));
    DistinctGroupsPerRole(roles.list);
  }

  /** An id criterion that names no role answers nothing. */
  lemma UnknownIdSelectsNothing(roles: RolesResource, users: UsersResource, q: GroupQuery)
    requires q.id.Some?
    requires forall k :: 0 <= k < |roles.list| ==> roles.list[k].id != q.id.value
    ensures Answer(roles, users, q) == {}
  {
  }

  /** Every group the filter keeps comes from the directory's role list. */
  lemma AnswerWithinDirectory(roles: RolesResource, users: UsersResource, q: GroupQuery)
    ensures forall g :: g in Answer(roles, users, q) ==>
      g.groupType == AssignmentType &&
      exists k :: 0 <= k < |roles.list| && g.id == roles.list[k].id && g.name == roles.list[k].name
  {
  }

  /** The wildcard markers of a name-like pattern play no part in the match. */
  lemma WildcardsIgnored(roles: RolesResource, users: UsersResource, q: GroupQuery, pattern: string)
    ensures Answer(roles, users, q.(nameLike := Some(pattern)))
         == Answer(roles, users, q.(nameLike := Some(StripWildcards(pattern))))
  {
    StripWildcardsIdempotent(pattern);
  }

  /** A name-like pattern made only of wildcard markers filters nothing out. */
  lemma OnlyWildcardsFilterNothing(roles: RolesResource, users: UsersResource, q: GroupQuery, pattern: string)
    requires forall k :: 0 <= k < |pattern| ==> pattern[k] == Wildcard
    ensures Answer(roles, users, q.(nameLike := Some(pattern)))
         == Answer(roles, users, q.(nameLike := None))
  {
    OnlyWildcardsStripToEmpty(pattern);
    forall g: Group ensures Contains(g.name, []) {
      ContainsEmpty(g.name);
    }
  }

  /** The pattern "Ad%" selects a group named "Admin". */
  lemma PrefixPatternMatchesAdmin(id: string)
    ensures Matches(Group(id, "Admin", AssignmentType), EmptyGroupQuery.(nameLike := Some("Ad%")), None)
  {
    assert StripWildcards("Ad%") == "Ad";
    ContainsPrefix("Admin", "Ad");
  }

  /** The criteria combine by AND: a query answers the groups that each of its
      criteria, set alone, answers. */
  lemma CriteriaConjoin(roles: RolesResource, users: UsersResource, q: GroupQuery)
    ensures Answer(roles, users, q)
         == Answer(roles, users, EmptyGroupQuery.(id := q.id))
          * Answer(roles, users, EmptyGroupQuery.(name := q.name))
          * Answer(roles, users, EmptyGroupQuery.(nameLike := q.nameLike))
          * Answer(roles, users, EmptyGroupQuery.(groupType := q.groupType))
          * Answer(roles, users, EmptyGroupQuery.(userId := q.userId))
  {
  }

  /** Every group is an assignment group: a type criterion "assignment" filters
      nothing out, and any other type answers nothing. */
  lemma TypeCriterion(roles: RolesResource, users: UsersResource, q: GroupQuery)
    requires q.groupType.Some?
    ensures q.groupType.value == AssignmentType ==>
      Answer(roles, users, q) == Answer(roles, users, q.(groupType := None))
    ensures q.groupType.value != AssignmentType ==> Answer(roles, users, q) == {}
  {
  }

  /** When the directory's role ids are distinct, no two groups of an answer
      share an id. */
  lemma DistinctRoleIdsGiveDistinctGroupIds(roles: RolesResource, users: UsersResource, q: GroupQuery)
    requires forall i, j :: 0 <= i < j < |roles.list| ==> roles.list[i].id != roles.list[j].id
    ensures forall g1, g2 :: g1 in Answer(roles, users, q) && g2 in Answer(roles, users, q) && g1.id == g2.id ==> g1 == g2
  {
  }

  /** A directory with the single role r1 "Admin" held by user u1: the groups
      of u1 are listed as exactly that one assignment group. */
  lemma SingleRoleMemberScenario(roles: RolesResource, users: UsersResource, r: seq<Group>)
    requires roles.list == [RoleRepresentation("r1", "Admin")]
    requires users.realmRoles("u1") == [RoleRepresentation("r1", "Admin")]
    requires NoDuplicates(r) && Elems(r) == Answer(roles, users, MemberQuery("u1"))
    ensures r == [Group("r1", "Admin", AssignmentType)]
  {
    var g := Group("r1", "Admin", AssignmentType);
    assert AllGroups(roles.list) == [g];
    assert Answer(roles, users, MemberQuery("u1")) == {g};
    SingletonList(r, g);
  }

  /** A directory with roles A, B and C, of which the user holds A and B:
      the member query answers A and B, and adding C's name answers nothing. */
  lemma TwoOfThreeRolesScenario(roles: RolesResource, users: UsersResource, u: string,
                                a: RoleRepresentation, b: RoleRepresentation, c: RoleRepresentation)
    requires roles.list == [a, b, c]
    requires users.realmRoles(u) == [a, b]
    requires c.id != a.id && c.id != b.id && c.name != a.name && c.name != b.name
    ensures Answer(roles, users, MemberQuery(u)) == {ToGroup(a), ToGroup(b)}
    ensures Answer(roles, users, MemberQuery(u).(name := Some(c.name))) == {}
  {
    assert AllGroups(roles.list) == [ToGroup(a), ToGroup(b), ToGroup(c)];
    assert RoleIds(users.realmRoles(u)) == {a.id, b.id};
  }

  /** A name criterion that no role carries answers nothing. */
  lemma MissingNameScenario(roles: RolesResource, users: UsersResource, id: string)
    requires roles.list == [RoleRepresentation(id, "Admin")]
    ensures Answer(roles, users, EmptyGroupQuery.(name := Some("Missing"))) == {}
  {
  }
}
