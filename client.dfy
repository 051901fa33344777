/**
 * The client adapter: each operation forwards one call (or, for the batch
 * read, one call per guid) to the remote store and reshapes the answer.
 * Every operation but the batch read lets a remote failure through
 * unchanged and returns nothing else; the batch read records the failure
 * of one guid in that guid's entry and carries on.
 */
module Client {
  import opened Store

  /** The record returned by listNotes, createNote and updateNote. */
  datatype NoteSummary = NoteSummary(guid: string, title: string)

  /** One entry of a batch read: the content, or the failure's message. */
  datatype BatchEntry =
    | Read(guid: string, content: string)
    | Failed(guid: string, error: Option<string>)

  /** Counts with every missing part filled in. */
  datatype NoteCounts = NoteCounts(
    notebookCounts: seq<(string, int)>,
    tagCounts: seq<(string, int)>,
    trashCount: int)

  /** `r` is `call` with its value reshaped by `f`, or `call`'s failure unchanged. */
  predicate Forwards<A, B(==)>(call: Result<A>, r: Result<B>, f: A -> B) {
    && (r.Err? <==> call.Err?)
    && (r.Err? ==> r.error == call.error)
    && (r.Ok? ==> r.value == f(call.value))
  }

  /** JavaScript's `n || fallback` on an optional number: 0 and absent are falsy. */
  function OrNumber(n: Option<int>, fallback: int): int {
    if n.Some? && n.value != 0 then n.value else fallback
  }

  /** The paging offset sent by listNotes. */
  function PageOffset(filter: NoteFilter): (offset: int)
    // with fallback 0, `||` and `??` agree: an explicit 0 stays 0
    ensures offset == filter.offset.GetOr(0)
  {
    OrNumber(filter.offset, 0)
  }

  /** The page size sent by listNotes. */
  function PageSize(filter: NoteFilter): (size: int)
    ensures size != 0
    ensures filter.maxNotes.None? ==> size == 100
    ensures filter.maxNotes == Some(0) ==> size == 100
    ensures filter.maxNotes.Some? && filter.maxNotes.value != 0 ==> size == filter.maxNotes.value
  {
    OrNumber(filter.maxNotes, 100)
  }

  function ListNotebooks(store: NoteStore): (r: Result<seq<Notebook>>)
    ensures Forwards(store.listNotebooks(), r, (nbs: seq<Notebook>) => nbs)
  {
    store.listNotebooks()
  }

  /** The metadata search that listNotes issues for `filter`. */
  function NotesSearch(store: NoteStore, filter: NoteFilter): Result<NotesMetadataList> {
    store.findNotesMetadata(filter, PageOffset(filter), PageSize(filter), TitleOnly)
  }

  function Summary(note: NoteMetadata): NoteSummary {
    NoteSummary(note.guid, note.title)
  }

  function ListNotes(store: NoteStore, filter: NoteFilter): (r: Result<seq<NoteSummary>>)
    ensures NotesSearch(store, filter).Err? <==> r.Err?
    ensures r.Err? ==> r.error == NotesSearch(store, filter).error
    ensures r.Ok? ==>
      var notes := NotesSearch(store, filter).value.notes;
      && |r.value| == |notes|
      && forall i :: 0 <= i < |notes| ==> r.value[i] == NoteSummary(notes[i].guid, notes[i].title)
  {
    match NotesSearch(store, filter)
    case Err(e) => Err(e)
    case Ok(list) => Ok(seq(|list.notes|, i requires 0 <= i < |list.notes| => Summary(list.notes[i])))
  }

  function GetNoteContent(store: NoteStore, guid: string): (r: Result<string>)
    ensures Forwards(store.getNote(guid), r, (note: Note) => note.content)
  {
    match store.getNote(guid)
    case Err(e) => Err(e)
    case Ok(note) => Ok(note.content)
  }

  /**
   * Reads every guid in turn; a failure is recorded in that guid's entry
   * and the later guids are still read.
   */
  method ReadNoteContents(store: NoteStore, guids: seq<string>) returns (results: seq<BatchEntry>)
    ensures |results| == |guids|
    ensures forall i :: 0 <= i < |guids| ==> results[i].guid == guids[i]
    ensures forall i :: 0 <= i < |guids| ==>
      (results[i].Read? <==> GetNoteContent(store, guids[i]).Ok?)
    ensures forall i :: 0 <= i < |guids| && results[i].Read? ==>
      results[i].content == GetNoteContent(store, guids[i]).value
    ensures forall i :: 0 <= i < |guids| && results[i].Failed? ==>
      results[i].error == GetNoteContent(store, guids[i]).error.message
  {
    results := [];
    for k := 0 to |guids|
      invariant |results| == k
      invariant forall i :: 0 <= i < k ==> results[i].guid == guids[i]
      invariant forall i :: 0 <= i < k ==>
        (results[i].Read? <==> GetNoteContent(store, guids[i]).Ok?)
      invariant forall i :: 0 <= i < k && results[i].Read? ==>
        results[i].content == GetNoteContent(store, guids[i]).value
      invariant forall i :: 0 <= i < k && results[i].Failed? ==>
        results[i].error == GetNoteContent(store, guids[i]).error.message
    {
      var guid := guids[k];
      var answer := GetNoteContent(store, guid);
      match answer
      case Ok(content) =>
        results := results + [Read(guid, content)];
      case Err(e) =>
        results := results + [Failed(guid, e.message)];
    }
  }

  /**
   * A request field that is sent exactly when the argument is truthy, and
   * then carries the argument.
   */
  predicate SentIfTruthy(field: Option<string>, arg: Option<string>) {
    (field.Some? <==> Truthy(arg)) && (field.Some? ==> field == arg)
  }

  /** The note object createNote sends for these arguments. */
  predicate IsCreateRequest(note: NoteRequest, title: string, content: string, notebookGuid: Option<string>) {
    && note.guid.None?
    && note.title == Some(title)
    && note.content == Some(content)
    && SentIfTruthy(note.notebookGuid, notebookGuid)
  }

  /** The note object updateNote sends for these arguments. */
  predicate IsUpdateRequest(
    note: NoteRequest, guid: string,
    title: Option<string>, content: Option<string>, notebookGuid: Option<string>)
  {
    && note.guid == Some(guid)
    && SentIfTruthy(note.title, title)
    && SentIfTruthy(note.content, content)
    && SentIfTruthy(note.notebookGuid, notebookGuid)
  }

  method CreateRequest(title: string, content: string, notebookGuid: Option<string>) returns (note: NoteRequest)
    ensures IsCreateRequest(note, title, content, notebookGuid)
    ensures notebookGuid == Some("") ==> note.notebookGuid.None?
  {
    note := NoteRequest(None, Some(title), Some(content), None);
    if Truthy(notebookGuid) {
      note := note.(notebookGuid := notebookGuid);
    }
  }

  method UpdateRequest(guid: string, title: Option<string>, content: Option<string>, notebookGuid: Option<string>)
    returns (note: NoteRequest)
    ensures IsUpdateRequest(note, guid, title, content, notebookGuid)
    ensures title.None? && content.None? && notebookGuid.None? ==> note == NoteRequest(Some(guid), None, None, None)
    ensures title == Some("") ==> note.title.None?
    ensures content == Some("") ==> note.content.None?
  {
    note := NoteRequest(Some(guid), None, None, None);
    if Truthy(title) {
      note := note.(title := title);
    }
    if Truthy(content) {
      note := note.(content := content);
    }
    if Truthy(notebookGuid) {
      note := note.(notebookGuid := notebookGuid);
    }
  }

  /** Creates a note; `sent` is the note object handed to the store. */
  method CreateNote(store: NoteStore, title: string, content: string, notebookGuid: Option<string>)
    returns (r: Result<NoteSummary>, ghost sent: NoteRequest)
    ensures IsCreateRequest(sent, title, content, notebookGuid)
    ensures Forwards(store.createNote(sent), r, (n: Note) => NoteSummary(n.guid, n.title))
  {
    var note := CreateRequest(title, content, notebookGuid);
    sent := note;
    var created := store.createNote(note);
    match created
    case Err(e) => r := Err(e);
    case Ok(n) => r := Ok(NoteSummary(n.guid, n.title));
  }

  /** Updates a note; `sent` is the note object handed to the store. */
  method UpdateNote(
    store: NoteStore, guid: string,
    title: Option<string>, content: Option<string>, notebookGuid: Option<string>)
    returns (r: Result<NoteSummary>, ghost sent: NoteRequest)
    ensures IsUpdateRequest(sent, guid, title, content, notebookGuid)
    ensures Forwards(store.updateNote(sent), r, (n: Note) => NoteSummary(n.guid, n.title))
  {
    var note := UpdateRequest(guid, title, content, notebookGuid);
    sent := note;
    var updated := store.updateNote(note);
    match updated
    case Err(e) => r := Err(e);
    case Ok(n) => r := Ok(NoteSummary(n.guid, n.title));
  }

  /** The withTrash flag sent by countNotes: `filter.withTrash || false`. */
  function WithTrash(filter: NoteFilter): (b: bool)
    ensures b <==> filter.withTrash == Some(true)
  {
    filter.withTrash.GetOr(false)
  }

  /** The count query that countNotes issues for `filter`. */
  function CountsQuery(store: NoteStore, filter: NoteFilter): Result<RawCounts> {
    store.findNoteCounts(filter, WithTrash(filter))
  }

  function CountNotes(store: NoteStore, filter: NoteFilter): (r: Result<NoteCounts>)
    ensures CountsQuery(store, filter).Err? <==> r.Err?
    ensures r.Err? ==> r.error == CountsQuery(store, filter).error
    ensures r.Ok? ==>
      var raw := CountsQuery(store, filter).value;
      && (raw.notebookCounts.None? ==> r.value.notebookCounts == [])
      && (raw.notebookCounts.Some? ==> r.value.notebookCounts == raw.notebookCounts.value)
      && (raw.tagCounts.None? ==> r.value.tagCounts == [])
      && (raw.tagCounts.Some? ==> r.value.tagCounts == raw.tagCounts.value)
      && (raw.trashCount.None? ==> r.value.trashCount == 0)
      && (raw.trashCount.Some? ==> r.value.trashCount == raw.trashCount.value)
  {
    match CountsQuery(store, filter)
    case Err(e) => Err(e)
    case Ok(raw) =>
      Ok(NoteCounts(raw.notebookCounts.GetOr([]), raw.tagCounts.GetOr([]), raw.trashCount.GetOr(0)))
  }
}
