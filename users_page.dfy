// The users page: the shared list controller over `/users`, loading the users
// and the locations together.

module UsersPage {
  import opened Common
  import opened Crud

  const Resource := "/users"
  const SaveFailure := "Error al guardar el usuario: "
  const DeletePrompt := "¿Estás seguro de eliminar este usuario?"

  /** The users and the locations, replaced together by one load. */
  type Lists = (seq<User>, seq<Location>)

  type Page = CrudPage<User, Lists>

  /** The page as it mounts. */
  method NewPage() returns (p: Page)
    ensures fresh(p)
    ensures p.resource == Resource && p.loadPaths == [Resource, "/locations"]
    ensures forall x :: p.idOf(x) == x.id
    ensures p.saveFailurePrefix == SaveFailure && p.deletePrompt == DeletePrompt
    ensures p.data == ([], []) && p.loading && p.error == None
    ensures !p.isModalOpen && p.current == None
  {
    p := new CrudPage(Resource, [Resource, "/locations"], (x: User) => x.id, SaveFailure, DeletePrompt, ([], []));
  }

  /** Saving an edited user updates it in place on the server; saving a new one creates it. */
  lemma SaveRoutes(x: User)
    ensures SaveRequest(Resource, Some(x.id)).verb == Put
    ensures SaveRequest(Resource, Some(x.id)).path == "/users/" + NatToString(x.id)
    ensures SaveRequest(Resource, None) == ApiRequest(Post, "/users", [])
  {
  }
}
