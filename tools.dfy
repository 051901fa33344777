/**
 * The tool handlers: each calls one client operation and renders its
 * result as an ordered list of text blocks. A client failure reaches the
 * host unchanged; no handler catches anything.
 */
module Tools {
  import opened Store
  import opened Client
  import opened Decimal

  /** One text block per item, in item order: the shape of each `.map` over results. */
  function Blocks<T>(items: seq<T>, render: T -> string): (blocks: seq<string>)
    ensures |blocks| == |items|
    ensures forall i :: 0 <= i < |items| ==> blocks[i] == render(items[i])
  {
    if items == [] then [] else [render(items[0])] + Blocks(items[1..], render)
  }

  // ---------------------------------------------------------------- listings

  function NotebookLine(notebook: Notebook): string {
    "title: " + notebook.name + ", guid: " + notebook.guid
  }

  function NoteLine(note: NoteSummary): string {
    "title: " + note.title + ", guid: " + note.guid
  }

  function ListNotebooksTool(store: NoteStore): (r: Result<seq<string>>)
    ensures store.listNotebooks().Err? <==> r.Err?
    ensures r.Err? ==> r.error == store.listNotebooks().error
    ensures r.Ok? ==>
      var notebooks := store.listNotebooks().value;
      && |r.value| == |notebooks|
      && forall i :: 0 <= i < |notebooks| ==>
           r.value[i] == "title: " + notebooks[i].name + ", guid: " + notebooks[i].guid
  {
    match ListNotebooks(store)
    case Err(e) => Err(e)
    case Ok(notebooks) => Ok(Blocks(notebooks, NotebookLine))
  }

  /** The listing shows, for each record the search returned, its title and guid, in order. */
  function ListNotesTool(store: NoteStore, filter: NoteFilter): (r: Result<seq<string>>)
    ensures NotesSearch(store, filter).Err? <==> r.Err?
    ensures r.Err? ==> r.error == NotesSearch(store, filter).error
    ensures r.Ok? ==>
      var found := NotesSearch(store, filter).value.notes;
      && |r.value| == |found|
      && forall i :: 0 <= i < |found| ==>
           r.value[i] == "title: " + found[i].title + ", guid: " + found[i].guid
  {
    match ListNotes(store, filter)
    case Err(e) => Err(e)
    case Ok(notes) => Ok(Blocks(notes, NoteLine))
  }

  // ------------------------------------------------------------ count summary

  const NotebookCountsHeader := "notebookCounts:"
  const TagCountsHeader := "tagCounts:"

  /** The count summary's lines, before they are rendered as text. */
  datatype CountLine =
    | Header(name: string)
    | Entry(key: string, count: int)
    | TrashLine(trash: int)
    | TotalLine(total: int)

  function CountText(line: CountLine): string {
    match line
    case Header(name) => name
    case Entry(key, count) => "- " + key + ": " + IntToString(count)
    case TrashLine(trash) => "trashCount: " + IntToString(trash)
    case TotalLine(total) => "totalNotes: " + IntToString(total)
  }

  /** The sum of the counts of `entries`. */
  function Sum(entries: seq<(string, int)>): int {
    if entries == [] then 0 else Sum(entries[..|entries| - 1]) + entries[|entries| - 1].1
  }

  /** One `- key: count` line per entry, in entry order. */
  function EntryLines(entries: seq<(string, int)>): (lines: seq<CountLine>)
    ensures |lines| == |entries|
    ensures forall j :: 0 <= j < |entries| ==> lines[j] == Entry(entries[j].0, entries[j].1)
  {
    if entries == [] then []
    else
      var last := entries[|entries| - 1];
      EntryLines(entries[..|entries| - 1]) + [Entry(last.0, last.1)]
  }

  /** A header followed by the entry lines, or nothing at all when there are no entries. */
  function Section(header: string, entries: seq<(string, int)>): seq<CountLine> {
    if |entries| == 0 then [] else [Header(header)] + EntryLines(entries)
  }

  function TrashPart(trash: int): seq<CountLine> {
    if trash > 0 then [TrashLine(trash)] else []
  }

  /** Every notebook count, every tag count, and the trash count when positive. */
  function CountedTotal(counts: NoteCounts): int {
    Sum(counts.notebookCounts) + Sum(counts.tagCounts) + (if counts.trashCount > 0 then counts.trashCount else 0)
  }

  /** The lines of the count summary, in order. */
  function CountSummary(counts: NoteCounts): seq<CountLine> {
    Section(NotebookCountsHeader, counts.notebookCounts)
      + Section(TagCountsHeader, counts.tagCounts)
      + TrashPart(counts.trashCount)
      + [TotalLine(CountedTotal(counts))]
  }

  /** The text of summary lines, line by line. */
  function Texts(lines: seq<CountLine>): seq<string> {
    if lines == [] then [] else Texts(lines[..|lines| - 1]) + [CountText(lines[|lines| - 1])]
  }

  lemma {:induction false} TextsAppend(a: seq<CountLine>, b: seq<CountLine>)
    ensures Texts(a + b) == Texts(a) + Texts(b)
  {
    if b == [] {
      assert a + b == a;
    } else {
      var init := b[..|b| - 1];
      TextsAppend(a, init);
      assert (a + b)[..|a + b| - 1] == a + init;
      assert (a + b)[|a + b| - 1] == b[|b| - 1];
    }
  }

  lemma {:induction false} TextsAt(lines: seq<CountLine>, j: nat)
    requires j < |lines|
    ensures |Texts(lines)| == |lines| && Texts(lines)[j] == CountText(lines[j])
  {
    var init := lines[..|lines| - 1];
    if j < |lines| - 1 {
      TextsAt(init, j);
    } else if j > 0 {
      TextsAt(init, j - 1);
    }
  }

  /**
   * Appends one section to `lines`, adding each count to the running
   * `total` as its line is emitted.
   */
  method AppendSection(lines: seq<string>, total: int, header: string, entries: seq<(string, int)>)
    returns (lines': seq<string>, total': int)
    ensures lines' == lines + Texts(Section(header, entries))
    ensures total' == total + Sum(entries)
  {
    lines', total' := lines, total;
    ghost var shown: seq<CountLine> := [];
    if |entries| > 0 {
      lines', shown := lines' + [CountText(Header(header))], [Header(header)];
      assert Texts(shown) == Texts([]) + [CountText(Header(header))];
      for i := 0 to |entries|
        invariant shown == [Header(header)] + EntryLines(entries[..i])
        invariant lines' == lines + Texts(shown)
        invariant total' == total + Sum(entries[..i])
      {
        var (key, count) := entries[i];
        ghost var next := shown + [Entry(key, count)];
        assert next[..|next| - 1] == shown;
        lines', shown := lines' + [CountText(Entry(key, count))], next;
        total' := total' + count;
        assert entries[..i + 1][..i] == entries[..i];
      }
      assert entries[..|entries|] == entries;
    }
    assert shown == Section(header, entries);
  }

  /** Renders the summary line by line, keeping a running total. */
  method RenderCountSummary(counts: NoteCounts) returns (lines: seq<string>)
    ensures lines == Texts(CountSummary(counts))
  {
    ghost var notebooks := Section(NotebookCountsHeader, counts.notebookCounts);
    ghost var tags := Section(TagCountsHeader, counts.tagCounts);
    ghost var trash := TrashPart(counts.trashCount);
    var total;
    lines, total := AppendSection([], 0, NotebookCountsHeader, counts.notebookCounts);
    lines, total := AppendSection(lines, total, TagCountsHeader, counts.tagCounts);
    TextsAppend(notebooks, tags);
    assert lines == Texts(notebooks + tags);
    if counts.trashCount > 0 {
      lines := lines + [CountText(TrashLine(counts.trashCount))];
      total := total + counts.trashCount;
      assert Texts(trash) == [CountText(TrashLine(counts.trashCount))];
    }
    TextsAppend(notebooks + tags, trash);
    assert lines == Texts(notebooks + tags + trash);
    assert total == CountedTotal(counts);
    ghost var last := [TotalLine(total)];
    assert Texts(last) == [CountText(TotalLine(total))];
    lines := lines + [CountText(TotalLine(total))];
    TextsAppend(notebooks + tags + trash, last);
  }

  method CountNotesTool(store: NoteStore, filter: NoteFilter) returns (r: Result<seq<string>>)
    ensures CountNotes(store, filter).Err? <==> r.Err?
    ensures r.Err? ==> r.error == CountNotes(store, filter).error
    ensures r.Ok? ==> r.value == Texts(CountSummary(CountNotes(store, filter).value))
    ensures r.Ok? ==> |r.value| == |CountSummary(CountNotes(store, filter).value)|
    ensures r.Ok? ==>
      && |r.value| > 0
      && r.value[|r.value| - 1] == "totalNotes: " + IntToString(CountedTotal(CountNotes(store, filter).value))
  {
    var counted := CountNotes(store, filter);
    match counted
    case Err(e) =>
      r := Err(e);
    case Ok(counts) =>
      var lines := RenderCountSummary(counts);
      var summary := CountSummary(counts);
      TextsAt(summary, |summary| - 1);
      r := Ok(lines);
  }

  /** The value a summary line adds to the total: its count, or nothing for a header or the total. */
  function Value(line: CountLine): int {
    match line
    case Entry(_, count) => count
    case TrashLine(trash) => trash
    case _ => 0
  }

  /** The sum of the values shown on `lines`. */
  function EmittedSum(lines: seq<CountLine>): int {
    if lines == [] then 0 else EmittedSum(lines[..|lines| - 1]) + Value(lines[|lines| - 1])
  }

  lemma {:induction false} EmittedSumAppend(a: seq<CountLine>, b: seq<CountLine>)
    ensures EmittedSum(a + b) == EmittedSum(a) + EmittedSum(b)
  {
    if b != [] {
      var init := b[..|b| - 1];
      EmittedSumAppend(a, init);
      assert (a + b)[..|a + b| - 1] == a + init;
      assert (a + b)[|a + b| - 1] == b[|b| - 1];
    } else {
      assert a + b == a;
    }
  }

  lemma {:induction false} EmittedSumEntries(entries: seq<(string, int)>)
    ensures EmittedSum(EntryLines(entries)) == Sum(entries)
  {
    if entries != [] {
      var init := entries[..|entries| - 1];
      EmittedSumEntries(init);
      var lines := EntryLines(entries);
      assert lines[..|lines| - 1] == EntryLines(init);
    }
  }

  lemma SectionSum(header: string, entries: seq<(string, int)>)
    ensures EmittedSum(Section(header, entries)) == Sum(entries)
  {
    if |entries| > 0 {
      EmittedSumAppend([Header(header)], EntryLines(entries));
      assert EmittedSum([Header(header)]) == EmittedSum([]) + Value(Header(header));
      EmittedSumEntries(entries);
    }
  }

  /** The last line is the total, and it is the sum of every value shown above it. */
  lemma TotalIsSumOfEmitted(counts: NoteCounts)
    ensures var summary := CountSummary(counts);
      |summary| > 0 && summary[|summary| - 1] == TotalLine(EmittedSum(summary[..|summary| - 1]))
  {
    var notebooks := Section(NotebookCountsHeader, counts.notebookCounts);
    var tags := Section(TagCountsHeader, counts.tagCounts);
    var trash := TrashPart(counts.trashCount);
    var summary := CountSummary(counts);
    assert summary[..|summary| - 1] == notebooks + tags + trash;
    EmittedSumAppend(notebooks, tags);
    EmittedSumAppend(notebooks + tags, trash);
    SectionSum(NotebookCountsHeader, counts.notebookCounts);
    SectionSum(TagCountsHeader, counts.tagCounts);
    if counts.trashCount > 0 {
      assert EmittedSum(trash) == EmittedSum([]) + Value(TrashLine(counts.trashCount));
    }
  }

  /** The number of lines of a section: a header and one line per entry, or none. */
  function SectionLength(entries: seq<(string, int)>): nat {
    if |entries| > 0 then 1 + |entries| else 0
  }

  lemma CountSummaryLength(counts: NoteCounts)
    ensures |CountSummary(counts)|
      == SectionLength(counts.notebookCounts) + SectionLength(counts.tagCounts)
       + (if counts.trashCount > 0 then 1 else 0) + 1
  {
  }

  /** No line of a section is a header other than its own, and none shows the trash or the total. */
  lemma SectionLines(header: string, entries: seq<(string, int)>)
    ensures forall line :: line in Section(header, entries) ==> line == Header(header) || line.Entry?
  {
    var lines := EntryLines(entries);
    forall line | line in lines ensures line.Entry? {
      var j :| 0 <= j < |lines| && lines[j] == line;
    }
  }

  /**
   * The notebook section comes first: its header is shown exactly when
   * there are notebook counts, followed by one line per count, in order.
   */
  lemma NotebookSectionLayout(counts: NoteCounts)
    ensures var summary := CountSummary(counts);
      var notebooks := counts.notebookCounts;
      && (Header(NotebookCountsHeader) in summary <==> |notebooks| > 0)
      && (|notebooks| > 0 ==> summary[0] == Header(NotebookCountsHeader))
      && (forall j :: 0 <= j < |notebooks| ==> summary[1 + j] == Entry(notebooks[j].0, notebooks[j].1))
  {
    var summary := CountSummary(counts);
    var notebooks := Section(NotebookCountsHeader, counts.notebookCounts);
    var rest := Section(TagCountsHeader, counts.tagCounts) + TrashPart(counts.trashCount) + [TotalLine(CountedTotal(counts))];
    assert summary == notebooks + rest;
    SectionLines(NotebookCountsHeader, counts.notebookCounts);
    SectionLines(TagCountsHeader, counts.tagCounts);
    if |counts.notebookCounts| > 0 {
      assert summary[0] == notebooks[0];
      forall j | 0 <= j < |counts.notebookCounts|
        ensures summary[1 + j] == Entry(counts.notebookCounts[j].0, counts.notebookCounts[j].1)
      {
        assert summary[1 + j] == notebooks[1 + j] == EntryLines(counts.notebookCounts)[j];
      }
    }
  }

  /**
   * The tag section follows the notebook section: its header is shown
   * exactly when there are tag counts, followed by one line per count.
   */
  lemma TagSectionLayout(counts: NoteCounts)
    ensures var summary := CountSummary(counts);
      var tags := counts.tagCounts;
      var start := SectionLength(counts.notebookCounts);
      && (Header(TagCountsHeader) in summary <==> |tags| > 0)
      && (|tags| > 0 ==> summary[start] == Header(TagCountsHeader))
      && (forall j :: 0 <= j < |tags| ==> summary[start + 1 + j] == Entry(tags[j].0, tags[j].1))
  {
    var summary := CountSummary(counts);
    var notebooks := Section(NotebookCountsHeader, counts.notebookCounts);
    var tags := Section(TagCountsHeader, counts.tagCounts);
    var rest := TrashPart(counts.trashCount) + [TotalLine(CountedTotal(counts))];
    var start := SectionLength(counts.notebookCounts);
    assert summary == notebooks + tags + rest;
    assert |notebooks| == start;
    SectionLines(NotebookCountsHeader, counts.notebookCounts);
    SectionLines(TagCountsHeader, counts.tagCounts);
    if |counts.tagCounts| > 0 {
      assert summary[start] == tags[0];
      forall j | 0 <= j < |counts.tagCounts|
        ensures summary[start + 1 + j] == Entry(counts.tagCounts[j].0, counts.tagCounts[j].1)
      {
        assert summary[start + 1 + j] == tags[1 + j] == EntryLines(counts.tagCounts)[j];
      }
    }
  }

  /** The trash line is shown exactly when the trash count is positive, just before the total. */
  lemma TrashLineLayout(counts: NoteCounts)
    ensures var summary := CountSummary(counts);
      && ((exists j :: 0 <= j < |summary| && summary[j].TrashLine?) <==> counts.trashCount > 0)
      && (counts.trashCount > 0 ==> |summary| >= 2 && summary[|summary| - 2] == TrashLine(counts.trashCount))
  {
    var summary := CountSummary(counts);
    var sections := Section(NotebookCountsHeader, counts.notebookCounts) + Section(TagCountsHeader, counts.tagCounts);
    SectionLines(NotebookCountsHeader, counts.notebookCounts);
    SectionLines(TagCountsHeader, counts.tagCounts);
    assert summary == sections + TrashPart(counts.trashCount) + [TotalLine(CountedTotal(counts))];
    if counts.trashCount <= 0 {
      forall j | 0 <= j < |summary| ensures !summary[j].TrashLine? {
        if j < |sections| {
          assert summary[j] == sections[j] && sections[j] in sections;
        }
      }
    } else {
      assert summary[|summary| - 2] == TrashLine(counts.trashCount);
    }
  }

  // ------------------------------------------------------------- note reads

  function ReadNoteTool(store: NoteStore, guid: string): (r: Result<seq<string>>)
    ensures store.getNote(guid).Err? <==> r.Err?
    ensures r.Err? ==> r.error == store.getNote(guid).error
    ensures r.Ok? ==> r.value == [store.getNote(guid).value.content]
  {
    match GetNoteContent(store, guid)
    case Err(e) => Err(e)
    case Ok(content) => Ok([content])
  }

  /**
   * The batch-read line: the error form when the entry carries a truthy
   * error message, otherwise the content form, which shows `undefined` for
   * a failed entry whose message is absent or empty.
   */
  function BatchLine(entry: BatchEntry): string {
    if entry.Failed? && Truthy(entry.error) then
      "guid: " + entry.guid + ", error: " + entry.error.value
    else
      "guid: " + entry.guid + ", content: " + (if entry.Read? then entry.content else "undefined")
  }

  predicate StartsWith(s: string, prefix: string) {
    |prefix| <= |s| && s[..|prefix|] == prefix
  }

  /** A batch line takes the error form if and only if its entry failed with a non-empty message. */
  lemma BatchLineForm(entry: BatchEntry)
    ensures StartsWith(BatchLine(entry), "guid: " + entry.guid + ", error: ")
        <==> entry.Failed? && Truthy(entry.error)
    ensures StartsWith(BatchLine(entry), "guid: " + entry.guid + ", content: ")
        <==> !(entry.Failed? && Truthy(entry.error))
  {
    var lead := "guid: " + entry.guid + ", ";
    var line := BatchLine(entry);
    var errorForm := lead + "error: ";
    var contentForm := lead + "content: ";
    if entry.Failed? && Truthy(entry.error) {
      assert line == errorForm + entry.error.value;
      assert line[..|errorForm|] == errorForm;
      assert contentForm[|lead|] == 'c' != 'e' == line[|lead|];
    } else {
      var shown := if entry.Read? then entry.content else "undefined";
      assert line == contentForm + shown;
      assert line[..|contentForm|] == contentForm;
      assert errorForm[|lead|] == 'e' != 'c' == line[|lead|];
    }
  }

  method ReadNotesTool(store: NoteStore, guids: seq<string>) returns (blocks: seq<string>)
    ensures |blocks| == |guids|
    ensures forall i :: 0 <= i < |guids| && GetNoteContent(store, guids[i]).Ok? ==>
      blocks[i] == "guid: " + guids[i] + ", content: " + GetNoteContent(store, guids[i]).value
    ensures forall i :: (0 <= i < |guids| && GetNoteContent(store, guids[i]).Err?
        && Truthy(GetNoteContent(store, guids[i]).error.message)) ==>
      blocks[i] == "guid: " + guids[i] + ", error: " + GetNoteContent(store, guids[i]).error.message.value
    ensures forall i :: (0 <= i < |guids| && GetNoteContent(store, guids[i]).Err?
        && !Truthy(GetNoteContent(store, guids[i]).error.message)) ==>
      blocks[i] == "guid: " + guids[i] + ", content: undefined"
  {
    var results := ReadNoteContents(store, guids);
    blocks := Blocks(results, BatchLine);
  }

  // ------------------------------------------------------- create and update

  method CreateNoteTool(store: NoteStore, title: string, content: string, notebookGuid: Option<string>)
    returns (r: Result<seq<string>>, ghost sent: NoteRequest)
    ensures IsCreateRequest(sent, title, content, notebookGuid)
    ensures store.createNote(sent).Err? <==> r.Err?
    ensures r.Err? ==> r.error == store.createNote(sent).error
    ensures r.Ok? ==>
      var created := store.createNote(sent).value;
      r.value == ["Created note: title: " + created.title + ", guid: " + created.guid]
  {
    var note;
    note, sent := CreateNote(store, title, content, notebookGuid);
    match note
    case Err(e) =>
      r := Err(e);
    case Ok(summary) =>
      r := Ok(["Created note: title: " + summary.title + ", guid: " + summary.guid]);
  }

  method UpdateNoteTool(
    store: NoteStore, guid: string,
    title: Option<string>, content: Option<string>, notebookGuid: Option<string>)
    returns (r: Result<seq<string>>, ghost sent: NoteRequest)
    ensures IsUpdateRequest(sent, guid, title, content, notebookGuid)
    ensures store.updateNote(sent).Err? <==> r.Err?
    ensures r.Err? ==> r.error == store.updateNote(sent).error
    ensures r.Ok? ==>
      var updated := store.updateNote(sent).value;
      r.value == ["Updated note: title: " + updated.title + ", guid: " + updated.guid]
  {
    var note;
    note, sent := UpdateNote(store, guid, title, content, notebookGuid);
    match note
    case Err(e) =>
      r := Err(e);
    case Ok(summary) =>
      r := Ok(["Updated note: title: " + summary.title + ", guid: " + summary.guid]);
  }
}
