# Notes API: in-memory note store and request checks, in Dafny

This project models the core of a small REST service for notes. There are two parts:

- **The store** (`NoteRepoMem`, `note_mem.dfy`, module `Repo`). It holds a table from note id to note and a counter `next` that supplies ids. It offers Create, GetByID, GetAll, UpdatePartial and Delete. The only error it returns is `ErrNoteNotFound`. It is a Dafny class: the table is a `map<int, Note>` field and `next` an `int` field, and the mutating methods `modify this`. A ghost field `issued` records every id ever handed out. The object invariant `Valid()` says three things:
  - every stored note sits under its own id;
  - every stored id was issued;
  - every issued id is below `next`.
  Create adds exactly one id, above all earlier ones, and Delete never removes ids from `issued`. Together these show that ids are strictly increasing and never reused, even after a delete.
- **The handlers' decisions** (`notes_handlers.dfy`, module `Handlers`):
  - Pure functions decide which requests get 400 before the store is called.
  - A method builds the `updates` map for a PATCH.
  - Pure functions turn store results into status codes: `ErrNoteNotFound` becomes 404, any other error 500.
  - The class `Handler` wires these to a `NoteRepoMem`. Its methods show end-to-end behaviour. A rejected request leaves the store untouched. A validated PATCH title is always applied, because the store's own non-empty-title guard can never drop it. With this store, the 500 answers of CreateNote, ListNotes and PatchNote cannot be reached.

Supporting modules:
- `Wrappers` (`wrappers.dfy`): `Option` for nil pointers and absent fields, and `Result` for Go's `(value, error)` pairs.
- `Core` (`note.dfy`): the `Note` record.
- `Strings` (`strings.dfy`): Go's `strings.TrimSpace` with `unicode.IsSpace`, which the handlers use to detect blank titles.

Timestamps are integers passed in as `now` instead of being read from a clock. A request arrives already decoded. A path id that did not parse is `None`, and a body that was not valid JSON is `None`. A response is a status code and an abstract JSON body.

## Model

| member | source | states |
|---|---|---|
| `Repo.NoteRepoMem.constructor` | internal/repo/note_mem.go:21-26 | A new store is empty, its first id is 1, and no id has been issued. |
| `Repo.NoteRepoMem.Create` | internal/repo/note_mem.go:28-39 | Returns the old `next` and stores the caller's note under it, with `id` set to it, `createdAt` set to `now` and `updatedAt` cleared. Title and content are kept, other entries are unchanged, and `next` grows by exactly 1. The id was never issued before and exceeds every earlier id. Keeps `Valid()`. |
| `Repo.NoteRepoMem.GetByID` | internal/repo/note_mem.go:41-52 | Succeeds exactly when the id is stored, with the stored note as its value. Otherwise it fails with `NoteNotFound`. Changes nothing. |
| `Repo.NoteRepoMem.GetAll` | internal/repo/note_mem.go:54-64 | The result has as many elements as the table has entries. Every element is the note stored under its own id, every stored note occurs, and no id occurs twice. An empty store gives the empty sequence. |
| `Repo.StringField` | internal/repo/note_mem.go:75-79 | The type assertion `updates[key].(string)`: yields a string exactly when the key is present and holds a string. |
| `Repo.Patched` | internal/repo/note_mem.go:75-84 | A partial update changes the title only to a supplied non-empty string. It changes the content to any supplied string, the empty one included. It always sets `updatedAt` to `now`, and it keeps the id and `createdAt`. |
| `Repo.NoteRepoMem.UpdatePartial` | internal/repo/note_mem.go:66-87 | On a missing id it returns `NoteNotFound` and changes nothing. Otherwise it replaces exactly that entry by its `Patched` version. `next` and the issued ids do not change. |
| `Repo.NoteRepoMem.Delete` | internal/repo/note_mem.go:89-99 | Succeeds exactly when the id is stored. The table afterwards is the old one minus that id, so a missing id leaves it unchanged. `next` and the issued ids do not change, so a deleted id is never handed out again. |
| `Repo.DeleteDoesNotReuseIds` | internal/repo/note_mem.go:32-36 | Create A, create B, delete 1, create C gives ids 1, 2, 3. Listing then yields exactly two notes, with ids 2 and 3. |
| `Strings.TrimLeft` | internal/http/handlers/notes.go:49 | The result is a suffix of the input. Everything dropped is white space, and the result does not start with white space. |
| `Strings.TrimRight` | internal/http/handlers/notes.go:49 | The result is a prefix of the input. Everything dropped is white space, and the result does not end with white space. |
| `Strings.TrimSpace` | internal/http/handlers/notes.go:49 | The result is the slice of the input left after cutting the white space at both ends. Everything cut is white space, and the result neither starts nor ends with white space. |
| `Strings.TrimSpaceEmptyIff` | internal/http/handlers/notes.go:49 | A string trims to "" exactly when every character is white space. |
| `Handlers.ValidateCreate` | internal/http/handlers/notes.go:44-52 | Undecodable JSON gives 400 "Invalid JSON". A title that is white space only (empty included) gives 400 "Title is required". Otherwise the decoded note goes to the store, and its title is then non-empty. |
| `Handlers.CreatedResponse` | internal/http/handlers/notes.go:60-66 | A note read back gives 201 with that note. A failed read gives 500 "Failed to retrieve created note", whatever the error. |
| `Handlers.ValidateId` | internal/http/handlers/notes.go:77-82 | An id that does not parse gives 400 "Invalid note ID". Otherwise the parsed id goes to the store. |
| `Handlers.StoreErrorResponse` | internal/http/handlers/notes.go:85-91 | `ErrNoteNotFound` maps to 404 "Note not found" and any other store error to 500 with the handler's message. GetNote, PatchNote (lines 165-171) and DeleteNote (lines 199-205) share this mapping. |
| `Handlers.GetNoteResponse` | internal/http/handlers/notes.go:84-94 | A found note gives 200 with the note. A store error gives the 404/500 mapping with "Failed to get note". |
| `Handlers.ListNotesResponse` | internal/http/handlers/notes.go:109-119 | Success gives 200 with a list that is never null: a nil slice becomes the empty list. Failure gives 500 "Failed to get notes". |
| `Handlers.ValidatePatch` | internal/http/handlers/notes.go:132-154 | The checks run in the source's order: id parse, JSON, at least one field, then the title must not be blank. Each failure is 400 with its message. The request is passed on exactly when all checks pass, and a present title is then non-empty. |
| `Handlers.BuildUpdates` | internal/http/handlers/notes.go:156-162 | The map has a "title" key iff a title was supplied and a "content" key iff content was supplied. Each holds the supplied string, and there are no other keys. |
| `Handlers.UpdatedResponse` | internal/http/handlers/notes.go:174-180 | A note read back gives 200 with that note. A failed read gives 500 "Failed to retrieve updated note". |
| `Handlers.DeletedResponse` | internal/http/handlers/notes.go:198-210 | Success gives 200 with "Note deleted successfully". A store error gives the 404/500 mapping with "Failed to delete note". |
| `Handlers.PatchAppliesValidatedFields` | internal/http/handlers/notes.go:151-164 | For a PATCH that passed validation, the store's update sets exactly the supplied title and content and the update time. The store's `title != ""` guard never drops a title that came through the handler. |
| `Handlers.Handler.constructor` | internal/http/handlers/notes.go:14-16 | A handler is bound to the given store. |
| `Handlers.Handler.CreateNote` | internal/http/handlers/notes.go:41-67 | The answer is 400 or 201, never 500. On 400 the store is unchanged. On 201 the answer carries the note just stored under the old `next`, which has grown by 1. |
| `Handlers.Handler.GetNote` | internal/http/handlers/notes.go:76-95 | A bad id gives 400. A stored id gives 200 with the stored note. A missing id gives 404 "Note not found". |
| `Handlers.Handler.ListNotes` | internal/http/handlers/notes.go:108-120 | The answer is always 200, with a list holding every stored note exactly once. |
| `Handlers.Handler.PatchNote` | internal/http/handlers/notes.go:132-181 | A rejected request gives its 400 and leaves the store untouched. A missing id gives 404 and leaves the notes unchanged. Otherwise exactly that note gets the supplied title and content and `updatedAt = now`, and the answer is 200 with the updated note. `next` never changes. |
| `Handlers.Handler.DeleteNote` | internal/http/handlers/notes.go:190-211 | A bad id gives 400 and leaves the store untouched. Otherwise the id is removed. The answer is 200 "Note deleted successfully" if the id was stored and 404 if not. The answer is 200 as the code sends it, not the 204 its doc comment names. |

## Left out

- The read-write mutex (internal/repo/note_mem.go:16 and every method). Each operation is modelled as atomic on a single-threaded object, so concurrency is not modelled.
- `time.Now()`: the current time is the parameter `now`. Nothing relates successive timestamps, so "updated_at only moves forward" is not stated.
- Stored notes are pointers in the source, and UpdatePartial writes through them. The model stores note values and replaces the entry. The copies that GetByID and GetAll return are shallow (internal/repo/note_mem.go:50, 60), so each returned note shares the `*time.Time` behind `UpdatedAt` with the stored note. The model's `updatedAt` is a plain value and drops this sharing. Nothing in the modelled code can observe it: UpdatePartial always assigns a fresh pointer (internal/repo/note_mem.go:83-84) and never writes through the old one, and no handler writes through a returned `UpdatedAt`. A caller that wrote through that pointer would change the stored note, so returned notes are not fully independent copies.
- `int64` ids and the overflow of `next`: ids are unbounded integers. The source does not handle overflow.
- Repo.NoteRepoMem.Create: the source returns `(int64, error)`, but its error is always nil. The model returns only the id, so CreateNote's "Failed to create note" branch (internal/http/handlers/notes.go:55-58) is not modelled.
- Repo.NoteRepoMem.GetAll: Go's map iteration order is unspecified. The model lists notes by ascending id, which is one of the orders Go may produce. Its contract promises no order. The loop visits every id from 1 below `next`, deleted ones included, where Go's `range` visits only the live entries. The result is the same, but the amount of work differs.
- JSON decoding and encoding, `respondWithError`, `respondWithJSON`, chi's `URLParam` and `strconv.ParseInt`. These are library and I/O calls. Their outcomes are the `Option` inputs and the `Response` value.
- Values of the untyped `updates` map other than strings are modelled as one `NonString` value, which the store treats as absent.
- The pagination, `q` filter and `X-Total-Count` header named in the ListNotes doc comment: the code does not implement them.
- cmd/api/main.go (process start-up, routing, documentation serving, listening) is not part of this model.
