# Evernote tool server: a Dafny model of the client adapter and the tool renderers

This project models the deterministic logic of a small server that exposes
Evernote note operations as host-invocable tools. It covers listing
notebooks, listing and counting notes, reading one or many notes, and
creating and updating notes. The code has two layers:

- the **client adapter** (`src/client.mjs`) forwards each operation to the
  remote note store and reshapes the answer;
- the **tool handlers** (`src/index.mjs`) call the adapter and render its
  result as an ordered list of text blocks.

The remote note store is an oracle (`Store.NoteStore`): a record of total
functions, one per remote operation, each answering a value or a thrown
failure (`Store.Result`). Every contract is stated against what that oracle
answers.

Modules:

- `Store` (store.dfy): the values that cross the remote boundary (notebooks,
  notes, metadata records, filters, note requests, raw counts, failures) and
  the store oracle. A JavaScript field that may be absent is an `Option`.
  `Truthy` is JavaScript truthiness of an optional string.
- `Client` (client.dfy): the adapter. It covers the paging defaults of
  `listNotes`, where `|| 0` and `|| 100` treat an explicit 0 as absent. It
  covers the batch read loop, which records a per-guid failure in that
  guid's entry and carries on. It covers the request objects of
  `createNote`/`updateNote`, built by conditional field assignment, where a
  falsy field (absent or the empty string) is left out. It covers the `??`
  normalisation of `countNotes`. Every other operation passes a remote
  failure through unchanged and returns nothing else (`Forwards`).
- `Tools` (tools.dfy): the handlers. The count summary is specified
  line by line by `CountSummary`, a sequence of structured lines (`CountLine`)
  rendered by `CountText`. `RenderCountSummary` produces that text with the
  source's running total and two section loops. The lemmas prove the layout
  and prove that the total line equals the sum of every value shown above it.
- `Decimal` (decimal.dfy): how a template literal shows an integral count,
  with a parser that reads it back.

The batch-read renderer tests the truthiness of an entry's error message. A
fetch can fail with a thrown value whose message is absent or empty. That
entry is then rendered in the content form, as `guid: <g>, content:
undefined`. The model keeps this behaviour, and `Tools.ReadNotesTool` and
`Tools.BatchLineForm` state it.

Two paging and request details of the code:

- `notebookGuid` is omitted from a created note whenever it is falsy, so an
  empty string is omitted like an absent one (src/client.mjs:61).
- An explicit `maxNotes` of 0 is replaced by 100, like an absent one
  (src/client.mjs:23).

## Model

| member | source | states |
|---|---|---|
| `Client.PageOffset` | src/client.mjs:22 | the offset sent is the given offset when present and 0 when absent; an explicit 0 stays 0 |
| `Client.PageSize` | src/client.mjs:23 | the page size sent is never 0; an absent or 0 `maxNotes` becomes 100, and any other value is sent as given |
| `Client.ListNotebooks` | src/client.mjs:11-18 | returns the store's notebooks unchanged and in the store's order, or the store's failure unchanged |
| `Client.ListNotes` | src/client.mjs:20-30 | issues one metadata search with the defaulted paging and a titles-only result spec; on success, returns exactly one `{guid, title}` per returned record, in the same order, with every other field dropped; on failure, returns the failure unchanged |
| `Client.GetNoteContent` | src/client.mjs:32-40 | returns the fetched note's content, or the fetch failure unchanged |
| `Client.ReadNoteContents` | src/client.mjs:42-53 | every guid is fetched, in input order, whatever failed before it; the result has one entry per guid and entry i carries `guids[i]`; entry i holds content if and only if that guid's fetch succeeded, and then it holds the fetched content; otherwise it holds that failure's message |
| `Client.CreateRequest` | src/client.mjs:57-63 | the note object always carries `title` and `content`, never a guid, and carries `notebookGuid` exactly when it is a non-empty string |
| `Client.UpdateRequest` | src/client.mjs:74-77 | the note object always carries `guid`; `title`, `content` and `notebookGuid` are each sent exactly when non-empty; with only a guid it is exactly `{guid}` |
| `Client.CreateNote` | src/client.mjs:55-70 | sends a create request as above; returns the created note's `{guid, title}`, or the store's failure unchanged |
| `Client.UpdateNote` | src/client.mjs:72-84 | sends an update request as above; returns the updated note's `{guid, title}`, or the store's failure unchanged |
| `Client.WithTrash` | src/client.mjs:88 | the trash flag sent is true exactly when the filter's `withTrash` is true, and false when it is absent or false |
| `Client.CountNotes` | src/client.mjs:86-99 | a missing notebook or tag count map becomes empty and a missing trash count becomes 0; counts that are present are kept as they are; a failure is returned unchanged |
| `Decimal.IntToStringRoundTrip` | src/index.mjs:104 | a count shown in a line reads back as the same integer, so the text loses nothing |
| `Tools.Blocks` | src/index.mjs:24-27 | a result list renders as one text block per item, in item order |
| `Tools.ListNotebooksTool` | src/index.mjs:21-29 | one `title: <name>, guid: <guid>` block per notebook, in order; no notebooks, no blocks; a failure reaches the host unchanged |
| `Tools.ListNotesTool` | src/index.mjs:70-78 | one `title: <title>, guid: <guid>` block per record that the search returned, in order; a failure reaches the host unchanged |
| `Tools.AppendSection` | src/index.mjs:101-107 | a section is appended after the existing lines, which stay unchanged; it is a header followed by one line per entry in entry order, or nothing when there are no entries; each count is added to the running total |
| `Tools.RenderCountSummary` | src/index.mjs:99-121 | the lines emitted are exactly the count summary's lines, in order |
| `Tools.CountNotesTool` | src/index.mjs:97-123 | on success, the blocks are the summary of the normalised counts, one block per summary line, and the last block is `totalNotes: <total>` with total = every notebook count + every tag count + the trash count when positive; a failure reaches the host unchanged |
| `Tools.TotalIsSumOfEmitted` | src/index.mjs:100-119 | the summary ends with the total line, and its total equals the sum of the values on every line above it |
| `Tools.CountSummaryLength` | src/index.mjs:99-121 | the summary has (notebook counts non-empty ? 1 + their number : 0) + (tag counts non-empty ? 1 + their number : 0) + (trash > 0 ? 1 : 0) + 1 lines |
| `Tools.NotebookSectionLayout` | src/index.mjs:101-107 | the `notebookCounts:` header appears if and only if there are notebook counts; it comes first, followed by one `- k: v` line per entry in entry order |
| `Tools.TagSectionLayout` | src/index.mjs:108-114 | the `tagCounts:` header appears if and only if there are tag counts; it comes right after the notebook section, followed by one line per entry in entry order |
| `Tools.TrashLineLayout` | src/index.mjs:115-118 | a trash line appears if and only if the trash count is positive, and then it is the line just before the total |
| `Tools.ReadNoteTool` | src/index.mjs:134-142 | exactly one block, the note's raw content; a failure reaches the host unchanged |
| `Tools.BatchLineForm` | src/index.mjs:156-159 | a batch line takes the `error:` form if and only if its entry failed with a non-empty message, and the `content:` form otherwise |
| `Tools.ReadNotesTool` | src/index.mjs:153-161 | one block per guid, in input order. It is `guid: g, content: c` when the fetch succeeded and `guid: g, error: m` when it failed with a non-empty message m. It is `guid: g, content: undefined` when the failure has no message or an empty one |
| `Tools.CreateNoteTool` | src/index.mjs:176-184 | exactly one block `Created note: title: <t>, guid: <g>` with the created note's title and guid; a failure reaches the host unchanged |
| `Tools.UpdateNoteTool` | src/index.mjs:200-208 | exactly one block `Updated note: title: <t>, guid: <g>` with the updated note's title and guid; a failure reaches the host unchanged |

## Left out

- Tool registration with the host library, the input schemas, the description strings and the stdio transport (src/index.mjs:3-20, 211-212). They are host-library plumbing. Schema validation belongs to that library, so every handler here takes already-typed arguments.
- Construction of the Evernote SDK client and note store, and the access token read from the environment (src/client.mjs:1-9). The store is an oracle parameter instead.
- The boolean flags passed to `getNote` and the Thrift types of the SDK. The oracle answers with a plain note record.
- `console.error` logging before each re-raise. It is output only and does not change any result.
- `async`/`await`. Every call is awaited in sequence, so the model uses ordinary sequential calls.
- The `filter = {}` default parameters of `listNotes` and `countNotes`. Every handler passes its input, so the defaults are never used.
- JavaScript number semantics beyond integers: NaN (also falsy), fractions, and `-0`. Counts, offsets and page sizes are integers here. Number-to-text conversion is decimal rendering of an integer.
- A thrown value that is not an object. The model treats every failure as an object whose `message` may be absent.
- Object key order and duplicate keys of the count maps. The maps are sequences of (key, count) pairs in enumeration order.
- Changes to the remote store between calls. The store is a fixed oracle with one answer per request, so two reads of the same guid in one batch give the same content; edits made by another client during a batch read are not modelled.
