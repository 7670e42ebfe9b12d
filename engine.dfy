/** The workflow engine's side of the identity interface: the values the two
    Keycloak managers hand back to the engine, the query criteria the engine
    passes in, and the engine's exception. */
module Engine {

  /** A Java reference that may be null: `None` stands for null. */
  datatype Option<+T> = None | Some(value: T)

  /** The engine's `ActivitiException`, carrying its human-readable message. */
  datatype ActivitiException = ActivitiException(message: string)

  /** The outcome of an entry point that returns a value or throws. */
  datatype Result<+T> = Success(value: T) | Failure(error: ActivitiException)

  /** The outcome of a `void` entry point: it returns normally or throws. */
  datatype Outcome = Pass | Fail(error: ActivitiException)

  /** The only group type this adapter ever produces. */
  const AssignmentType: string := "assignment"

  /** An engine group (`GroupEntity`): id, name and type. */
  datatype Group = Group(id: string, name: string, groupType: string)

  /** An engine user (`UserEntity`): the four fields the adapter fills in. */
  datatype User = User(id: string, email: string, firstName: string, lastName: string)

  /** A user picture: its bytes and MIME type. */
  datatype Picture = Picture(bytes: seq<bv8>, mimeType: string)

  /** An entry of a user's extra information (`IdentityInfoEntity`). */
  datatype IdentityInfo = IdentityInfo(userId: string, key: string, value: string)

  /** The criteria of a `GroupQueryImpl`; an unset criterion is `None`.
      `userId` is the group-member criterion. */
  datatype GroupQuery = GroupQuery(
    id: Option<string>,
    name: Option<string>,
    nameLike: Option<string>,
    groupType: Option<string>,
    userId: Option<string>)

  /** A group query with no criterion set. */
  const EmptyGroupQuery: GroupQuery := GroupQuery(None, None, None, None, None)

  /** `new GroupQueryImpl().groupMember(userId)`: only the member criterion set. */
  function MemberQuery(userId: string): (q: GroupQuery)
    ensures q.userId == Some(userId)
    ensures q.(userId := None) == EmptyGroupQuery
  {
    EmptyGroupQuery.(userId := Some(userId))
  }

  /** The criteria of a `UserQueryImpl`; an unset criterion is `None`. */
  datatype UserQuery = UserQuery(
    id: Option<string>,
    firstName: Option<string>,
    firstNameLike: Option<string>,
    lastName: Option<string>,
    lastNameLike: Option<string>,
    fullNameLike: Option<string>,
    email: Option<string>,
    emailLike: Option<string>,
    groupId: Option<string>,
    procDefId: Option<string>)
}
