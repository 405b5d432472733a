// The items page: the shared list controller over `/items`, loading the items
// and the locations together.

module ItemsPage {
  import opened Common
  import opened Crud

  const Resource := "/items"
  const SaveFailure := "Error al guardar el item: "
  const DeletePrompt := "¿Estás seguro de eliminar este item?"

  /** The items and the locations, replaced together by one load. */
  type Lists = (seq<Item>, seq<Location>)

  type Page = CrudPage<Item, Lists>

  /** The page as it mounts. */
  method NewPage() returns (p: Page)
    ensures fresh(p)
    ensures p.resource == Resource && p.loadPaths == [Resource, "/locations"]
    ensures forall x :: p.idOf(x) == x.id
    ensures p.saveFailurePrefix == SaveFailure && p.deletePrompt == DeletePrompt
    ensures p.data == ([], []) && p.loading && p.error == None
    ensures !p.isModalOpen && p.current == None
  {
    p := new CrudPage(Resource, [Resource, "/locations"], (x: Item) => x.id, SaveFailure, DeletePrompt, ([], []));
  }

  /** Saving an edited item updates it in place on the server; saving a new one creates it. */
  lemma SaveRoutes(x: Item)
    ensures SaveRequest(Resource, Some(x.id)).verb == Put
    ensures SaveRequest(Resource, Some(x.id)).path == "/items/" + NatToString(x.id)
    ensures SaveRequest(Resource, None) == ApiRequest(Post, "/items", [])
  {
  }
}
