/** The Keycloak user manager: looks users up by id or lists the first users of
    the directory; every other query, every write and password checking are
    refused or answered with a constant. */
module KeycloakUsers {
  import opened Engine
  import opened Keycloak

  const WriteUnsupported: string := "Write operations are not supported by Keycloak user manager"
  const QueryUnsupported: string := "Query unsupported by Keycloak user manager"
  const NativeUnsupported: string := "Native queries are not supported by Keycloak user manager"

  /** The fixed bound of the directory-wide user search. */
  const SearchLimit: nat := 100

  /** `u` carries exactly the id, email and names of the directory record `rec`. */
  predicate Mirrors(u: User, rec: UserRepresentation)
  {
    u.id == rec.id && u.email == rec.email && u.firstName == rec.firstName && u.lastName == rec.lastName
  }

  /** Maps a directory record to an engine user; no record gives no user. */
  function ToUser(rec: Option<UserRepresentation>): (u: Option<User>)
    ensures u.None? <==> rec.None?
    ensures u.Some? ==> Mirrors(u.value, rec.value)
  {
    match rec
    case None => None
    case Some(r) => Some(User(r.id, r.email, r.firstName, r.lastName))
  }

  /** The mapping loses nothing: distinct records give distinct users. */
  lemma ToUserInjective(a: Option<UserRepresentation>, b: Option<UserRepresentation>)
    requires ToUser(a) == ToUser(b)
    ensures a == b
  {
  }

  class UserManager {
    const usersResource: UsersResource

    constructor (usersResource: UsersResource)
      ensures this.usersResource == usersResource
    {
      this.usersResource := usersResource;
    }

    method CreateNewUser(userId: string) returns (r: Result<User>)
      ensures r == Failure(ActivitiException(WriteUnsupported))
    {
      r := Failure(ActivitiException(WriteUnsupported));
    }

    method InsertUser(user: User) returns (o: Outcome)
      ensures o == Fail(ActivitiException(WriteUnsupported))
    {
      o := Fail(ActivitiException(WriteUnsupported));
    }

    method UpdateUser(updatedUser: User) returns (o: Outcome)
      ensures o == Fail(ActivitiException(WriteUnsupported))
    {
      o := Fail(ActivitiException(WriteUnsupported));
    }

    /** The user with this id, absent exactly when the directory has no such record. */
    function FindUserById(userId: string): (u: Option<User>)
      ensures u.None? <==> usersResource.get(userId).None?
      ensures u.Some? ==> Mirrors(u.value, usersResource.get(userId).value)
    {
      ToUser(usersResource.get(userId))
    }

    method DeleteUser(userId: string) returns (o: Outcome)
      ensures o == Fail(ActivitiException(WriteUnsupported))
    {
      o := Fail(ActivitiException(WriteUnsupported));
    }

    /** With an id criterion: the user with that id, if any. Otherwise: the
        first users of an unfiltered directory search, whatever the other
        criteria say. The page is not honoured. */
    method FindUserByQueryCriteria(q: UserQuery) returns (r: seq<User>)
      ensures q.id.Some? ==> |r| <= 1
      ensures q.id.Some? ==>
        (r == [] <==> FindUserById(q.id.value).None?) &&
        (forall u :: u in r ==> Some(u) == FindUserById(q.id.value))
      ensures q.id.None? ==>
        var found := usersResource.search("", 0, SearchLimit);
        |r| == |found| <= SearchLimit &&
        forall k :: 0 <= k < |r| ==> Mirrors(r[k], found[k])
    {
      r := [];
      if q.id.Some? {
        var byId := FindUserById(q.id.value);
        if byId.Some? {
          r := r + [byId.value];
        }
      } else {
        var users := usersResource.search("", 0, SearchLimit);
        var i := 0;
        while i < |users|
          invariant 0 <= i <= |users|
          invariant |r| == i
          invariant forall k :: 0 <= k < i ==> Mirrors(r[k], users[k])
        {
          r := r + [ToUser(Some(users[i])).value];
          i := i + 1;
        }
      }
    }

    /** The number of users the same query lists: at most one with an id
        criterion, at most the search bound otherwise. */
    method FindUserCountByQueryCriteria(q: UserQuery) returns (n: nat)
      ensures q.id.Some? ==> n == (if usersResource.get(q.id.value).Some? then 1 else 0)
      ensures q.id.None? ==> n == |usersResource.search("", 0, SearchLimit)|
      ensures n <= SearchLimit
    {
      var r := FindUserByQueryCriteria(q);
      n := |r|;
    }

    method FindGroupsByUser(userId: string) returns (r: Result<seq<Group>>)
      ensures r == Failure(ActivitiException(QueryUnsupported))
    {
      r := Failure(ActivitiException(QueryUnsupported));
    }

    method FindUserInfoByUserIdAndKey(userId: string, key: string) returns (r: Result<IdentityInfo>)
      ensures r == Failure(ActivitiException(QueryUnsupported))
    {
      r := Failure(ActivitiException(QueryUnsupported));
    }

    method FindUserInfoKeysByUserIdAndType(userId: string, infoType: string) returns (r: Result<seq<string>>)
      ensures r == Failure(ActivitiException(QueryUnsupported))
    {
      r := Failure(ActivitiException(QueryUnsupported));
    }

    /** Passwords are never confirmed. */
    function CheckPassword(userId: string, password: string): (ok: bool)
      ensures !ok
    {
      false
    }

    method FindPotentialStarterUsers(procDefId: string) returns (r: Result<seq<User>>)
      ensures r == Failure(ActivitiException(QueryUnsupported))
    {
      r := Failure(ActivitiException(QueryUnsupported));
    }

    method FindUsersByNativeQuery<V>(parameterMap: map<string, V>, firstResult: int, maxResults: int)
      returns (r: Result<seq<User>>)
      ensures r == Failure(ActivitiException(NativeUnsupported))
    {
      r := Failure(ActivitiException(NativeUnsupported));
    }

    method FindUserCountByNativeQuery<V>(parameterMap: map<string, V>) returns (r: Result<int>)
      ensures r == Failure(ActivitiException(NativeUnsupported))
    {
      r := Failure(ActivitiException(NativeUnsupported));
    }

    method IsNewUser(user: User) returns (r: Result<bool>)
      ensures r == Failure(ActivitiException(WriteUnsupported))
    {
      r := Failure(ActivitiException(WriteUnsupported));
    }

    /** No user has a picture. */
    function GetUserPicture(userId: string): (p: Option<Picture>)
      ensures p.None?
    {
      None
    }

    method SetUserPicture(userId: string, picture: Picture) returns (o: Outcome)
      ensures o == Fail(ActivitiException(WriteUnsupported))
    {
      o := Fail(ActivitiException(WriteUnsupported));
    }
  }
}
