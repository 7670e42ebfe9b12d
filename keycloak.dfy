/** The Keycloak admin client as the managers see it. The remote resources are
    abstract values: whatever the directory answers is an input of the model. */
module Keycloak {
  import opened Engine

  /** A realm role as the admin client returns it. */
  datatype RoleRepresentation = RoleRepresentation(id: string, name: string)

  /** A directory user record as the admin client returns it. */
  datatype UserRepresentation = UserRepresentation(
    id: string, email: string, firstName: string, lastName: string)

  /** `UsersResource.search(term, first, max)`: any answer the directory gives,
      provided it holds at most `max` records. */
  type UserSearch = f: (string, int, int) -> seq<UserRepresentation>
    | forall term, first, max :: 0 <= max ==> |f(term, first, max)| <= max
    witness (term: string, first: int, max: int) => []

  /** `RolesResource`: `list` is what `RolesResource.list()` answers. */
  datatype RolesResource = RolesResource(list: seq<RoleRepresentation>)

  /** `UsersResource`:
      - `get(id)` is `get(id).toRepresentation()`, `None` when there is no such user;
      - `search` is `search(term, first, max)`;
      - `realmRoles(id)` is `get(id).roles().realmLevel().listAll()`, the user's
        realm-level role assignments (client-level assignments are never consulted). */
  datatype UsersResource = UsersResource(
    get: string -> Option<UserRepresentation>,
    search: UserSearch,
    realmRoles: string -> seq<RoleRepresentation>)
}
