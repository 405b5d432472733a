// The locations page: the shared list controller over `/locations`, whose one
// load brings back the locations alone.

module LocationsPage {
  import opened Common
  import opened Crud

  const Resource := "/locations"
  const SaveFailure := "Error al guardar la ubicación: "
  const DeletePrompt := "¿Estás seguro de eliminar esta ubicación?"

  type Page = CrudPage<Location, seq<Location>>

  /** The page as it mounts. */
  method NewPage() returns (p: Page)
    ensures fresh(p)
    ensures p.resource == Resource && p.loadPaths == [Resource]
    ensures forall x :: p.idOf(x) == x.id
    ensures p.saveFailurePrefix == SaveFailure && p.deletePrompt == DeletePrompt
    ensures p.data == [] && p.loading && p.error == None
    ensures !p.isModalOpen && p.current == None
  {
    p := new CrudPage(Resource, [Resource], (x: Location) => x.id, SaveFailure, DeletePrompt, []);
  }

  /** Saving an edited location updates it in place on the server; saving a new one creates it. */
  lemma SaveRoutes(x: Location)
    ensures SaveRequest(Resource, Some(x.id)).verb == Put
    ensures SaveRequest(Resource, Some(x.id)).path == "/locations/" + NatToString(x.id)
    ensures SaveRequest(Resource, None) == ApiRequest(Post, "/locations", [])
  {
  }
}
