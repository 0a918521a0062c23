/**
 * The request handlers' decisions: which requests are rejected before the store is
 * called, what is passed to the store, and how store results become HTTP status
 * codes. A request arrives already decoded: a path id that failed integer parsing is
 * None, a body that failed JSON decoding is None. Writing the response is left out;
 * a response is a status code and an abstract body.
 */
module Handlers {
  import opened Wrappers
  import opened Core
  import opened Strings
  import opened Repo

  const StatusOK: int := 200
  const StatusCreated: int := 201
  const StatusBadRequest: int := 400
  const StatusNotFound: int := 404
  const StatusInternalServerError: int := 500

  /** The JSON payload of a response: an error object, a note, a list of notes or a message object. */
  datatype Body =
    | ErrorBody(error: string)
    | NoteBody(note: Note)
    | NotesBody(notes: seq<Note>)
    | MessageBody(message: string)

  datatype Response = Response(status: int, body: Body)

  /** The PATCH body: each field independently absent (nil) or present. */
  datatype UpdateNoteRequest = UpdateNoteRequest(title: Option<string>, content: Option<string>)

  /** A PATCH request that passed validation: the parsed id and the decoded body. */
  datatype PatchRequest = PatchRequest(id: int, update: UpdateNoteRequest)

  /** A title the handlers reject: empty once leading and trailing white space is trimmed. */
  predicate IsBlank(title: string) {
    TrimSpace(title) == ""
  }

  function BadRequest(message: string): Response {
    Response(StatusBadRequest, ErrorBody(message))
  }

  /**
   * The error mapping shared by GetNote, PatchNote and DeleteNote: ErrNoteNotFound
   * is 404 "Note not found", any other store error is 500 with the handler's message.
   */
  function StoreErrorResponse(e: StoreError, otherMessage: string): (r: Response)
    ensures r.status == StatusNotFound <==> e == NoteNotFound
    ensures r.status == StatusInternalServerError <==> e != NoteNotFound
    ensures r.body == ErrorBody(if e == NoteNotFound then "Note not found" else otherMessage)
  {
    if e == NoteNotFound then Response(StatusNotFound, ErrorBody("Note not found"))
    else Response(StatusInternalServerError, ErrorBody(otherMessage))
  }

  /** strconv.ParseInt of the path id: a failure is 400 before any store call. */
  function ValidateId(idParam: Option<int>): (r: Result<int, Response>)
    ensures r.Success? <==> idParam.Some?
    ensures r.Success? ==> r.value == idParam.value
    ensures r.Failure? ==> r.error == BadRequest("Invalid note ID")
  {
    match idParam
    case None => Failure(BadRequest("Invalid note ID"))
    case Some(id) => Success(id)
  }

  /**
   * CreateNote's checks: a body that is not JSON, or whose title is white space
   * only, is rejected with 400; otherwise the decoded note goes to the store.
   */
  function ValidateCreate(body: Option<Note>): (r: Result<Note, Response>)
    ensures r.Success? <==> body.Some? && !AllSpace(body.value.title)
    ensures r.Success? ==> r.value == body.value && body.value.title != ""
    ensures body.None? ==> r == Failure(BadRequest("Invalid JSON"))
    ensures body.Some? && AllSpace(body.value.title) ==> r == Failure(BadRequest("Title is required"))
  {
    match body
    case None => Failure(BadRequest("Invalid JSON"))
    case Some(n) =>
      TrimSpaceEmptyIff(n.title);
      if IsBlank(n.title) then Failure(BadRequest("Title is required")) else Success(n)
  }

  /** CreateNote's answer from the note read back after Create: 201 with it, or 500. */
  function CreatedResponse(fetched: Result<Note, StoreError>): (r: Response)
    ensures r.status == StatusCreated <==> fetched.Success?
    ensures fetched.Success? ==> r.body == NoteBody(fetched.value)
    ensures fetched.Failure? ==> r == Response(StatusInternalServerError, ErrorBody("Failed to retrieve created note"))
  {
    match fetched
    case Success(n) => Response(StatusCreated, NoteBody(n))
    case Failure(_) => Response(StatusInternalServerError, ErrorBody("Failed to retrieve created note"))
  }

  /** GetNote's answer from GetByID: 200 with the note, or the store error mapped. */
  function GetNoteResponse(fetched: Result<Note, StoreError>): (r: Response)
    ensures r.status == StatusOK <==> fetched.Success?
    ensures fetched.Success? ==> r.body == NoteBody(fetched.value)
    ensures fetched.Failure? ==> r == StoreErrorResponse(fetched.error, "Failed to get note")
  {
    match fetched
    case Success(n) => Response(StatusOK, NoteBody(n))
    case Failure(e) => StoreErrorResponse(e, "Failed to get note")
  }

  /**
   * ListNotes' answer from GetAll (None stands for a nil slice): 200 with a list that
   * is never null, or 500.
   */
  function ListNotesResponse(listed: Result<Option<seq<Note>>, StoreError>): (r: Response)
    ensures r.status == StatusOK <==> listed.Success?
    ensures listed.Success? && listed.value.Some? ==> r.body == NotesBody(listed.value.value)
    ensures listed.Success? && listed.value.None? ==> r.body == NotesBody([])
    ensures listed.Failure? ==> r == Response(StatusInternalServerError, ErrorBody("Failed to get notes"))
  {
    match listed
    case Success(notes) => Response(StatusOK, NotesBody(notes.GetOr([])))
    case Failure(_) => Response(StatusInternalServerError, ErrorBody("Failed to get notes"))
  }

  /**
   * PatchNote's checks, in the order the handler makes them: the id must parse, the
   * body must be JSON, at least one field must be present, and a present title must
   * not be white space only. Each failure is 400 before any store call.
   */
  function ValidatePatch(idParam: Option<int>, body: Option<UpdateNoteRequest>): (r: Result<PatchRequest, Response>)
    ensures r.Success? <==>
              && idParam.Some? && body.Some?
              && (body.value.title.Some? || body.value.content.Some?)
              && (body.value.title.Some? ==> !AllSpace(body.value.title.value))
    ensures r.Success? ==> r.value == PatchRequest(idParam.value, body.value)
    ensures r.Success? && body.value.title.Some? ==> body.value.title.value != ""
    ensures idParam.None? ==> r == Failure(BadRequest("Invalid note ID"))
    ensures idParam.Some? && body.None? ==> r == Failure(BadRequest("Invalid JSON"))
    ensures idParam.Some? && body.Some? && body.value.title.None? && body.value.content.None? ==>
              r == Failure(BadRequest("No fields to update"))
    ensures idParam.Some? && body.Some? && body.value.title.Some? && AllSpace(body.value.title.value) ==>
              r == Failure(BadRequest("Title cannot be empty"))
  {
    match ValidateId(idParam)
    case Failure(resp) => Failure(resp)
    case Success(id) =>
      match body
      case None => Failure(BadRequest("Invalid JSON"))
      case Some(update) =>
        if update.title.None? && update.content.None? then
          Failure(BadRequest("No fields to update"))
        else if update.title.Some? then
          TrimSpaceEmptyIff(update.title.value);
          if IsBlank(update.title.value) then Failure(BadRequest("Title cannot be empty"))
          else Success(PatchRequest(id, update))
        else
          Success(PatchRequest(id, update))
  }

  /** The `updates` map carries exactly the fields present in the request, each as its string. */
  ghost predicate Carries(update: UpdateNoteRequest, updates: Updates) {
    && updates.Keys <= {"title", "content"}
    && ("title" in updates <==> update.title.Some?)
    && ("content" in updates <==> update.content.Some?)
    && (update.title.Some? ==> updates["title"] == StringValue(update.title.value))
    && (update.content.Some? ==> updates["content"] == StringValue(update.content.value))
  }

  /** Builds the `updates` map for UpdatePartial by inserting each present field. */
  method BuildUpdates(update: UpdateNoteRequest) returns (updates: Updates)
    ensures Carries(update, updates)
  {
    updates := map[];
    if update.title.Some? {
      updates := updates["title" := StringValue(update.title.value)];
    }
    if update.content.Some? {
      updates := updates["content" := StringValue(update.content.value)];
    }
  }

  /** PatchNote's answer after UpdatePartial succeeded, from the note read back: 200 with it, or 500. */
  function UpdatedResponse(fetched: Result<Note, StoreError>): (r: Response)
    ensures r.status == StatusOK <==> fetched.Success?
    ensures fetched.Success? ==> r.body == NoteBody(fetched.value)
    ensures fetched.Failure? ==> r == Response(StatusInternalServerError, ErrorBody("Failed to retrieve updated note"))
  {
    match fetched
    case Success(n) => Response(StatusOK, NoteBody(n))
    case Failure(_) => Response(StatusInternalServerError, ErrorBody("Failed to retrieve updated note"))
  }

  /** DeleteNote's answer: 200 with "Note deleted successfully", or the store error mapped. */
  function DeletedResponse(err: Option<StoreError>): (r: Response)
    ensures r.status == StatusOK <==> err.None?
    ensures err.None? ==> r.body == MessageBody("Note deleted successfully")
    ensures err.Some? ==> r == StoreErrorResponse(err.value, "Failed to delete note")
  {
    match err
    case None => Response(StatusOK, MessageBody("Note deleted successfully"))
    case Some(e) => StoreErrorResponse(e, "Failed to delete note")
  }

  /**
   * A PATCH that passed validation changes exactly the fields it carries: the
   * store's own non-empty-title guard never drops a title that came through the
   * handler, because the handler already rejected blank ones.
   */
  lemma PatchAppliesValidatedFields(n: Note, idParam: Option<int>, body: Option<UpdateNoteRequest>, updates: Updates, now: Timestamp)
    requires ValidatePatch(idParam, body).Success?
    requires Carries(body.value, updates)
    ensures Patched(n, updates, now) ==
              n.(title := body.value.title.GetOr(n.title),
                 content := body.value.content.GetOr(n.content),
                 updatedAt := Some(now))
  {
  }

  /**
   * The handlers bound to one in-memory store. Each method runs a handler's checks,
   * calls the store only when they pass, and turns the store's results into the
   * response; the contracts show which responses this store makes reachable.
   */
  class Handler {
    const repo: NoteRepoMem

    constructor (repo: NoteRepoMem)
      ensures this.repo == repo
    {
      this.repo := repo;
    }

    /** POST /notes: 400 without touching the store, or 201 with the note just stored. */
    method CreateNote(body: Option<Note>, now: Timestamp) returns (resp: Response)
      requires repo.Valid()
      modifies repo
      ensures repo.Valid()
      ensures resp.status == StatusBadRequest || resp.status == StatusCreated
      ensures ValidateCreate(body).Failure? ==> resp == ValidateCreate(body).error && unchanged(repo)
      ensures ValidateCreate(body).Success? ==>
                var stored := body.value.(id := old(repo.next), createdAt := now, updatedAt := None);
                && repo.notes == old(repo.notes)[old(repo.next) := stored]
                && repo.next == old(repo.next) + 1
                && resp == Response(StatusCreated, NoteBody(stored))
    {
      var checked := ValidateCreate(body);
      if checked.Failure? {
        return checked.error;
      }
      var id := repo.Create(checked.value, now);
      var fetched := repo.GetByID(id);
      resp := CreatedResponse(fetched);
    }

    /** GET /notes/{id}: 400 for an id that does not parse, else 200 with the stored note or 404. */
    method GetNote(idParam: Option<int>) returns (resp: Response)
      ensures idParam.None? ==> resp == BadRequest("Invalid note ID")
      ensures idParam.Some? && idParam.value in repo.notes ==>
                resp == Response(StatusOK, NoteBody(repo.notes[idParam.value]))
      ensures idParam.Some? && idParam.value !in repo.notes ==>
                resp == Response(StatusNotFound, ErrorBody("Note not found"))
    {
      var checked := ValidateId(idParam);
      if checked.Failure? {
        return checked.error;
      }
      var fetched := repo.GetByID(checked.value);
      resp := GetNoteResponse(fetched);
    }

    /** GET /notes: always 200 with every stored note exactly once. */
    method ListNotes() returns (resp: Response)
      requires repo.Valid()
      ensures resp.status == StatusOK && resp.body.NotesBody?
      ensures |resp.body.notes| == |repo.notes|
      ensures forall i :: 0 <= i < |resp.body.notes| ==>
                resp.body.notes[i].id in repo.notes && repo.notes[resp.body.notes[i].id] == resp.body.notes[i]
      ensures forall k :: k in repo.notes ==> repo.notes[k] in resp.body.notes
    {
      var all := repo.GetAll();
      resp := ListNotesResponse(Success(Some(all)));
    }

    /**
     * PATCH /notes/{id}: 400 without touching the store, 404 when the id is absent,
     * or 200 with the note whose present fields were overwritten and whose update
     * time was set.
     */
    method PatchNote(idParam: Option<int>, body: Option<UpdateNoteRequest>, now: Timestamp) returns (resp: Response)
      requires repo.Valid()
      modifies repo
      ensures repo.Valid()
      ensures repo.next == old(repo.next)
      ensures ValidatePatch(idParam, body).Failure? ==> resp == ValidatePatch(idParam, body).error && unchanged(repo)
      ensures ValidatePatch(idParam, body).Success? && idParam.value !in old(repo.notes) ==>
                resp == Response(StatusNotFound, ErrorBody("Note not found")) && repo.notes == old(repo.notes)
      ensures ValidatePatch(idParam, body).Success? && idParam.value in old(repo.notes) ==>
                var n := old(repo.notes)[idParam.value];
                var m := n.(title := body.value.title.GetOr(n.title),
                            content := body.value.content.GetOr(n.content),
                            updatedAt := Some(now));
                && repo.notes == old(repo.notes)[idParam.value := m]
                && resp == Response(StatusOK, NoteBody(m))
    {
      var checked := ValidatePatch(idParam, body);
      if checked.Failure? {
        return checked.error;
      }
      var id := checked.value.id;
      var updates := BuildUpdates(checked.value.update);
      if id in repo.notes {
        PatchAppliesValidatedFields(repo.notes[id], idParam, body, updates, now);
      }
      var err := repo.UpdatePartial(id, updates, now);
      if err.Some? {
        return StoreErrorResponse(err.value, "Failed to update note");
      }
      var fetched := repo.GetByID(id);
      resp := UpdatedResponse(fetched);
    }

    /** DELETE /notes/{id}: 400 for an id that does not parse, else 200 after removing the note, or 404. */
    method DeleteNote(idParam: Option<int>) returns (resp: Response)
      requires repo.Valid()
      modifies repo
      ensures repo.Valid()
      ensures idParam.None? ==> resp == BadRequest("Invalid note ID") && unchanged(repo)
      ensures idParam.Some? ==> repo.notes == old(repo.notes) - {idParam.value} && repo.next == old(repo.next)
      ensures idParam.Some? && idParam.value in old(repo.notes) ==>
                resp == Response(StatusOK, MessageBody("Note deleted successfully"))
      ensures idParam.Some? && idParam.value !in old(repo.notes) ==>
                resp == Response(StatusNotFound, ErrorBody("Note not found"))
    {
      var checked := ValidateId(idParam);
      if checked.Failure? {
        return checked.error;
      }
      var err := repo.Delete(checked.value);
      resp := DeletedResponse(err);
    }
  }
}
