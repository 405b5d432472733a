// The controller shared by the items, users and locations pages: load the
// lists, open and close the edit modal, route a save to PUT or POST, and send
// a delete only after the user confirms.

module Crud {
  import opened Common
  import opened Forms

  const LoadPrefix := "No se pudieron cargar los datos. "
  const NoConnection := "No se pudo conectar al servidor. Verifica que el backend esté corriendo en http://localhost:5000"
  const DeleteFailurePrefix := "Error al eliminar: "

  /**
   * The banner text after a failed load: the fixed prefix, then the server's
   * answer (its `error` field preferred over the status text), or the
   * no-connection text when no answer came, or the error's own message when
   * no request went out.
   */
  function LoadErrorMessage(err: ApiError): (msg: string)
    ensures |msg| >= |LoadPrefix| && msg[..|LoadPrefix|] == LoadPrefix
    ensures err.response.Some? ==>
      msg[|LoadPrefix|..] == "Error " + NatToString(err.response.value.status) + ": "
                             + OrElse(err.response.value.dataError, err.response.value.statusText)
    ensures err.response.None? && err.requestSent ==> msg[|LoadPrefix|..] == NoConnection
    ensures err.response.None? && !err.requestSent ==> msg[|LoadPrefix|..] == err.message
  {
    LoadPrefix +
      if err.response.Some? then
        "Error " + NatToString(err.response.value.status) + ": " + OrElse(err.response.value.dataError, err.response.value.statusText)
      else if err.requestSent then NoConnection
      else err.message
  }

  /** A server answer shows its own `error` text whenever it has one, whatever its status text. */
  lemma ServerErrorPreferred(status: nat, dataError: string, statusText: string, sent: bool, message: string)
    requires dataError != ""
    ensures LoadErrorMessage(ApiError(Some(ErrorResponse(status, Some(dataError), statusText)), sent, message))
         == LoadPrefix + "Error " + NatToString(status) + ": " + dataError
  {
  }

  /** Two server answers with different statuses never produce the same banner. */
  lemma {:induction false} StatusDistinguishable(a: ErrorResponse, b: ErrorResponse, sent: bool, message: string)
    requires OrElse(a.dataError, a.statusText) == OrElse(b.dataError, b.statusText)
    requires LoadErrorMessage(ApiError(Some(a), sent, message)) == LoadErrorMessage(ApiError(Some(b), sent, message))
    ensures a.status == b.status
  {
    var ma := LoadErrorMessage(ApiError(Some(a), sent, message));
    var mb := LoadErrorMessage(ApiError(Some(b), sent, message));
    var da, db := NatToString(a.status), NatToString(b.status);
    var tail := ": " + OrElse(a.dataError, a.statusText);
    var sa, sb := "Error " + da + tail, "Error " + db + tail;
    assert ma[|LoadPrefix|..] == sa && mb[|LoadPrefix|..] == sb;
    assert sa == sb;
    assert |da| == |db|;
    assert da == sa[6..6 + |da|];
    assert db == sb[6..6 + |db|];
    NatToStringInjective(a.status, b.status);
  }

  /** `err.response?.data?.error || err.message`, the detail of a save or delete alert. */
  function ActionErrorDetail(err: ApiError): (d: string)
    ensures err.response.Some? && err.response.value.dataError.Some? && err.response.value.dataError.value != ""
      ==> d == err.response.value.dataError.value
    ensures (err.response.None? || err.response.value.dataError.None? || err.response.value.dataError.value == "")
      ==> d == err.message
  {
    OrElse(if err.response.Some? then err.response.value.dataError else None, err.message)
  }

  /** The GET requests of one load, in order. */
  function LoadRequests(paths: seq<string>): (reqs: seq<ApiRequest>)
    ensures |reqs| == |paths|
    ensures forall i :: 0 <= i < |paths| ==> reqs[i] == ApiRequest(Get, paths[i], [])
  {
    seq(|paths|, i requires 0 <= i < |paths| => ApiRequest(Get, paths[i], []))
  }

  /** `resource/id`. */
  function RecordPath(resource: string, id: nat): string {
    resource + "/" + NatToString(id)
  }

  /** A save updates the record being edited (PUT on its path) or creates one (POST on the collection). */
  function SaveRequest(resource: string, editing: Option<nat>): (req: ApiRequest)
    ensures editing.Some? ==> req == ApiRequest(Put, RecordPath(resource, editing.value), [])
    ensures editing.None? ==> req == ApiRequest(Post, resource, [])
  {
    match editing
    case Some(id) => ApiRequest(Put, RecordPath(resource, id), [])
    case None => ApiRequest(Post, resource, [])
  }

  /** Different records are saved to different paths. */
  lemma {:induction false} RecordPathInjective(resource: string, a: nat, b: nat)
    requires RecordPath(resource, a) == RecordPath(resource, b)
    ensures a == b
  {
    var n := |resource| + 1;
    assert NatToString(a) == RecordPath(resource, a)[n..];
    assert NatToString(b) == RecordPath(resource, b)[n..];
    NatToStringInjective(a, b);
  }

  /**
   * One list page. `E` is the record the modal edits and `D` the lists one load
   * brings back together (for example the items and the locations).
   */
  class CrudPage<E, D> {
    const resource: string
    const loadPaths: seq<string>
    const idOf: E -> nat
    const saveFailurePrefix: string
    const deletePrompt: string
    var data: D
    var loading: bool
    var error: Option<string>
    var isModalOpen: bool
    var current: Option<E>

    /** The page as it mounts: empty lists, loading, no error, modal closed. */
    constructor(resource: string, loadPaths: seq<string>, idOf: E -> nat,
                saveFailurePrefix: string, deletePrompt: string, empty: D)
      ensures this.resource == resource && this.loadPaths == loadPaths && this.idOf == idOf
      ensures this.saveFailurePrefix == saveFailurePrefix && this.deletePrompt == deletePrompt
      ensures data == empty && loading && error == None
      ensures !isModalOpen && current == None
    {
      this.resource, this.loadPaths, this.idOf := resource, loadPaths, idOf;
      this.saveFailurePrefix, this.deletePrompt := saveFailurePrefix, deletePrompt;
      data := empty;
      loading, error := true, None;
      isModalOpen, current := false, None;
    }

    /** The id of the record being edited, if any. */
    function EditingId(): Option<nat>
      reads this
    {
      if current.Some? then Some(idOf(current.value)) else None
    }

    /** The first half of `fetchData`: raise `loading`, clear the error, issue the requests. */
    method BeginFetch() returns (reqs: seq<ApiRequest>)
      modifies this`loading, this`error
      ensures loading && error == None
      ensures reqs == LoadRequests(loadPaths)
    {
      loading := true;
      error := None;
      reqs := LoadRequests(loadPaths);
    }

    /** The second half: the lists are replaced together on success; a failure sets the banner. */
    method CompleteFetch(res: Result<D, ApiError>)
      modifies this`data, this`error, this`loading
      ensures res.Success? ==> data == res.value && error == old(error)
      ensures res.Failure? ==> data == old(data) && error == Some(LoadErrorMessage(res.error))
      ensures !loading
    {
      if res.Success? {
        data := res.value;
      } else {
        error := Some(LoadErrorMessage(res.error));
      }
      loading := false;
    }

    /** `handleOpenModal`: `None` opens the modal to create, `Some(record)` to edit it. */
    method OpenModal(record: Option<E>)
      modifies this`current, this`isModalOpen
      ensures current == record && isModalOpen
    {
      current := record;
      isModalOpen := true;
    }

    /** `handleCloseModal`: close and forget the record. */
    method CloseModal()
      modifies this`current, this`isModalOpen
      ensures current == None && !isModalOpen
    {
      isModalOpen := false;
      current := None;
    }

    /**
     * `handleSave` with the outcome of its PUT or POST: on success reload the
     * lists and close the modal; on failure alert and leave the modal open.
     */
    method HandleSave(form: Form, outcome: Result<(), ApiError>)
      returns (req: ApiRequest, body: Form, reload: seq<ApiRequest>, alert: Option<string>)
      modifies this`loading, this`error, this`current, this`isModalOpen
      ensures req == SaveRequest(resource, old(EditingId())) && body == form
      ensures outcome.Success? ==> reload == LoadRequests(loadPaths) && alert == None
      ensures outcome.Success? ==> loading && error == None && !isModalOpen && current == None
      ensures outcome.Failure? ==> reload == [] && alert == Some(saveFailurePrefix + ActionErrorDetail(outcome.error))
      ensures outcome.Failure? ==> loading == old(loading) && error == old(error)
      ensures outcome.Failure? ==> isModalOpen == old(isModalOpen) && current == old(current)
    {
      req := SaveRequest(resource, EditingId());
      body := form;
      if outcome.Success? {
        reload := BeginFetch();
        CloseModal();
        alert := None;
      } else {
        reload := [];
        alert := Some(saveFailurePrefix + ActionErrorDetail(outcome.error));
      }
    }

    /**
     * `handleDelete`: the user is asked `deletePrompt` first and nothing is sent
     * unless they confirm; a confirmed delete that succeeds reloads the lists,
     * one that fails alerts.
     */
    method HandleDelete(id: nat, confirmed: bool, outcome: Result<(), ApiError>)
      returns (question: string, req: Option<ApiRequest>, reload: seq<ApiRequest>, alert: Option<string>)
      modifies this`loading, this`error
      ensures question == deletePrompt
      ensures req.Some? <==> confirmed
      ensures confirmed ==> req == Some(ApiRequest(Delete, RecordPath(resource, id), []))
      ensures !confirmed ==> reload == [] && alert == None && loading == old(loading) && error == old(error)
      ensures confirmed && outcome.Success? ==> reload == LoadRequests(loadPaths) && alert == None && loading && error == None
      ensures confirmed && outcome.Failure? ==> reload == [] && alert == Some(DeleteFailurePrefix + ActionErrorDetail(outcome.error))
      ensures confirmed && outcome.Failure? ==> loading == old(loading) && error == old(error)
    {
      question := deletePrompt;
      if !confirmed {
        return question, None, [], None;
      }
      req := Some(ApiRequest(Delete, RecordPath(resource, id), []));
      if outcome.Success? {
        reload := BeginFetch();
        alert := None;
      } else {
        reload := [];
        alert := Some(DeleteFailurePrefix + ActionErrorDetail(outcome.error));
      }
    }
  }
}
