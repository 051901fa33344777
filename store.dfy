/**
 * The values that cross the boundary between the client adapter and the
 * remote note store, and the store itself.
 *
 * The remote store is not modelled: it is an oracle, a record of total
 * functions from the request to the answer (a value or a failure). Every
 * client operation is stated in terms of what that oracle answers.
 */
module Store {

  /** An optional value: a JavaScript field that may be absent (undefined). */
  datatype Option<+T> = None | Some(value: T) {
    /** The value, or `default` when absent (JavaScript's `??`). */
    function GetOr(default: T): T {
      match this
      case Some(v) => v
      case None => default
    }
  }

  /** JavaScript truthiness of an optional string: present and not empty. */
  predicate Truthy(s: Option<string>) {
    s.Some? && s.value != ""
  }

  /**
   * A failure thrown by the remote store. `message` is the `.message`
   * property of the thrown value, which may be absent; `details` stands for
   * everything else the thrown object carries (error code, parameter),
   * which the client never inspects.
   */
  datatype RemoteError = RemoteError(message: Option<string>, details: string)

  /** The outcome of a remote call: a value, or the failure it threw. */
  datatype Result<+T> = Ok(value: T) | Err(error: RemoteError)

  datatype Notebook = Notebook(guid: string, name: string)

  /** A full note as the store returns it from getNote, createNote and updateNote. */
  datatype Note = Note(guid: string, title: string, content: string, notebookGuid: Option<string>)

  /** One record of a metadata search; only guid and title are used by the client. */
  datatype NoteMetadata = NoteMetadata(
    guid: string,
    title: string,
    contentLength: Option<int>,
    created: Option<int>,
    updated: Option<int>,
    deleted: Option<int>,
    notebookGuid: Option<string>)

  /** The answer to a metadata search: one page of records. */
  datatype NotesMetadataList = NotesMetadataList(startIndex: int, totalNotes: int, notes: seq<NoteMetadata>)

  /** Which optional fields a metadata search should fill in. */
  datatype ResultSpec = ResultSpec(
    includeTitle: Option<bool>,
    includeContentLength: Option<bool>,
    includeCreated: Option<bool>,
    includeUpdated: Option<bool>,
    includeDeleted: Option<bool>,
    includeNotebookGuid: Option<bool>)

  /** The result spec the client always sends: titles only. */
  const TitleOnly: ResultSpec := ResultSpec(Some(true), None, None, None, None, None)

  /**
   * The tool input handed to the store as the search filter. Every field is
   * optional; the paging and trash fields are also read by the client.
   */
  datatype NoteFilter = NoteFilter(
    notebookGuid: Option<string>,
    order: Option<int>,
    ascending: Option<bool>,
    words: Option<string>,
    tagGuids: Option<seq<string>>,
    timeZone: Option<string>,
    inactive: Option<bool>,
    emphasized: Option<string>,
    includeAllReadableNotebooks: Option<bool>,
    offset: Option<int>,
    maxNotes: Option<int>,
    resultSpec: Option<ResultSpec>,
    withTrash: Option<bool>)

  /**
   * The note object the client sends to createNote or updateNote. A field
   * that is `None` is absent from the object, not sent as null.
   */
  datatype NoteRequest = NoteRequest(
    guid: Option<string>,
    title: Option<string>,
    content: Option<string>,
    notebookGuid: Option<string>)

  /**
   * The store's answer to a count query. Any of its parts may be absent.
   * Count maps are sequences of (key, count) pairs in the order the
   * object's entries are enumerated.
   */
  datatype RawCounts = RawCounts(
    notebookCounts: Option<seq<(string, int)>>,
    tagCounts: Option<seq<(string, int)>>,
    trashCount: Option<int>)

  /** The remote note store, one oracle function per remote operation used. */
  datatype NoteStore = NoteStore(
    listNotebooks: () -> Result<seq<Notebook>>,
    findNotesMetadata: (NoteFilter, int, int, ResultSpec) -> Result<NotesMetadataList>,
    getNote: string -> Result<Note>,
    createNote: NoteRequest -> Result<Note>,
    updateNote: NoteRequest -> Result<Note>,
    findNoteCounts: (NoteFilter, bool) -> Result<RawCounts>)
}
