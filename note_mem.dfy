/**
 * The in-memory note repository (NoteRepoMem): a table of notes keyed by id and the
 * counter that supplies the next id. Each operation runs atomically on one object;
 * the read-write lock of the source is not modelled.
 */
module Repo {
  import opened Wrappers
  import opened Core

  /**
   * Errors a store call can yield. The store itself only ever returns NoteNotFound
   * (ErrNoteNotFound); OtherError stands for any other Go `error` value, which the
   * handlers must also map to a response.
   */
  datatype StoreError = NoteNotFound | OtherError(message: string)

  /** A value of the untyped `updates` map: a string, or a value of any other dynamic type. */
  datatype FieldValue = StringValue(text: string) | NonString

  /** The `map[string]interface{}` handed to UpdatePartial. */
  type Updates = map<string, FieldValue>

  /** The type assertion `updates[key].(string)`: a string only when the key is present and holds one. */
  function StringField(updates: Updates, key: string): (r: Option<string>)
    ensures r.Some? <==> key in updates && updates[key].StringValue?
    ensures r.Some? ==> updates[key] == StringValue(r.value)
  {
    if key in updates && updates[key].StringValue? then Some(updates[key].text) else None
  }

  /**
   * The note a partial update leaves behind. The title changes only to a supplied
   * non-empty string; the content changes to any supplied string, the empty one
   * included; the update time is always set; the id and creation time never change.
   */
  function Patched(n: Note, updates: Updates, now: Timestamp): (m: Note)
    ensures m.id == n.id && m.createdAt == n.createdAt
    ensures m.updatedAt == Some(now)
    ensures m.title != n.title ==> StringField(updates, "title") == Some(m.title) && m.title != ""
    ensures StringField(updates, "title").Some? && StringField(updates, "title").value != "" ==>
              m.title == StringField(updates, "title").value
    ensures StringField(updates, "content").Some? ==> m.content == StringField(updates, "content").value
    ensures StringField(updates, "content").None? ==> m.content == n.content
  {
    var title := StringField(updates, "title");
    var content := StringField(updates, "content");
    n.(title := if title.Some? && title.value != "" then title.value else n.title,
       content := content.GetOr(n.content),
       updatedAt := Some(now))
  }

  class NoteRepoMem {
    /** The stored notes by id. */
    var notes: map<int, Note>
    /** The id the next Create hands out. */
    var next: int
    /** Every id handed out so far, deleted ones included. */
    ghost var issued: set<int>

    /**
     * Every stored note sits under its own id, every stored id was handed out,
     * and every id handed out lies below `next`.
     */
    ghost predicate Valid()
      reads this
    {
      && 1 <= next
      && (forall k :: k in notes ==> k in issued && notes[k].id == k)
      && (forall k :: k in issued ==> 1 <= k < next)
    }

    /** NewNoteRepoMem: an empty table whose first id is 1. */
    constructor ()
      ensures Valid()
      ensures notes == map[] && next == 1 && issued == {}
    {
      notes := map[];
      next := 1;
      issued := {};
    }

    /**
     * Stores `n` under a fresh id (stamping the id and creation time and clearing
     * the update time) and returns that id. The id exceeds every id handed out
     * before, so it is never one of a deleted note.
     */
    method Create(n: Note, now: Timestamp) returns (id: int)
      requires Valid()
      modifies this
      ensures Valid()
      ensures id == old(next) && next == old(next) + 1
      ensures forall k :: k in old(issued) ==> k < id
      ensures issued == old(issued) + {id}
      ensures id !in old(notes)
      ensures notes == old(notes)[id := n.(id := id, createdAt := now, updatedAt := None)]
    {
      var stored := n.(id := next, createdAt := now, updatedAt := None);
      notes := notes[stored.id := stored];
      issued := issued + {stored.id};
      next := next + 1;
      id := stored.id;
    }

    /** A copy of the note stored under `id`, or NoteNotFound. */
    method GetByID(id: int) returns (r: Result<Note, StoreError>)
      ensures r.Success? <==> id in notes
      ensures r.Success? ==> r.value == notes[id]
      ensures r.Failure? ==> r.error == NoteNotFound
    {
      if id !in notes {
        return Failure(NoteNotFound);
      }
      r := Success(notes[id]);
    }

    /**
     * Copies of all stored notes, each exactly once, in no particular order;
     * an empty table yields an empty sequence.
     */
    method GetAll() returns (all: seq<Note>)
      requires Valid()
      ensures |all| == |notes|
      ensures forall i :: 0 <= i < |all| ==> all[i].id in notes && notes[all[i].id] == all[i]
      ensures forall k :: k in notes ==> notes[k] in all
      ensures forall i, j :: 0 <= i < j < |all| ==> all[i].id != all[j].id
    {
      // Go ranges over the live entries in an unspecified order; ascending ids is one such
      // order. Every issued id lies below `next`, so scanning 1 .. next - 1 and skipping
      // deleted ids yields the same notes, at the cost of visiting the deleted ids too.
      all := [];
      ghost var seen: set<int> := {};
      var k := 1;
      while k < next
        invariant 1 <= k <= next
        invariant forall x :: x in seen <==> x in notes && x < k
        invariant |all| == |seen|
        invariant forall i :: 0 <= i < |all| ==> all[i].id in notes && notes[all[i].id] == all[i] && all[i].id < k
        invariant forall x :: x in notes && x < k ==> notes[x] in all
        invariant forall i, j :: 0 <= i < j < |all| ==> all[i].id < all[j].id
      {
        if k in notes {
          all := all + [notes[k]];
          seen := seen + {k};
        }
        k := k + 1;
      }
      assert k == next;
      assert seen == notes.Keys by {
        forall x | x in notes ensures x in seen {
          assert x in issued;
        }
        forall x | x in seen ensures x in notes.Keys { }
      }
    }

    /**
     * Applies `updates` to the note under `id` in place (see Patched), or returns
     * NoteNotFound and changes nothing. No other note and no counter changes.
     */
    method UpdatePartial(id: int, updates: Updates, now: Timestamp) returns (err: Option<StoreError>)
      requires Valid()
      modifies this
      ensures Valid()
      ensures err.None? <==> id in old(notes)
      ensures err.Some? ==> err.value == NoteNotFound && notes == old(notes)
      ensures err.None? ==> notes == old(notes)[id := Patched(old(notes)[id], updates, now)]
      ensures next == old(next) && issued == old(issued)
    {
      if id !in notes {
        return Some(NoteNotFound);
      }
      var title := StringField(updates, "title");
      if title.Some? && title.value != "" {
        notes := notes[id := notes[id].(title := title.value)];
      }
      var content := StringField(updates, "content");
      if content.Some? {
        notes := notes[id := notes[id].(content := content.value)];
      }
      notes := notes[id := notes[id].(updatedAt := Some(now))];
      err := None;
    }

    /** Removes the note under `id`, or returns NoteNotFound and changes nothing. Ids are not reclaimed. */
    method Delete(id: int) returns (err: Option<StoreError>)
      requires Valid()
      modifies this
      ensures Valid()
      ensures err.None? <==> id in old(notes)
      ensures err.Some? ==> err.value == NoteNotFound
      ensures notes == old(notes) - {id}
      ensures next == old(next) && issued == old(issued)
    {
      if id !in notes {
        return Some(NoteNotFound);
      }
      notes := notes - {id};
      err := None;
    }
  }

  /**
   * Create "A", create "B", delete 1, create "C": the ids are 1, 2 and 3 (id 1 is
   * not reused), and listing yields exactly the notes with ids 2 and 3.
   */
  method DeleteDoesNotReuseIds(t1: Timestamp, t2: Timestamp, t3: Timestamp) returns (ids: seq<int>, listed: seq<Note>)
    ensures ids == [1, 2, 3]
    ensures |listed| == 2
    ensures (set n | n in listed :: n.id) == {2, 3}
  {
    var repo := new NoteRepoMem();
    var a := repo.Create(Note(0, "A", "x", 0, None), t1);
    var b := repo.Create(Note(0, "B", "y", 0, None), t2);
    var gone := repo.Delete(1);
    var c := repo.Create(Note(0, "C", "z", 0, None), t3);
    ids := [a, b, c];
    listed := repo.GetAll();
    assert repo.notes.Keys == {2, 3};
    assert repo.notes[2] in listed && repo.notes[3] in listed;
  }
}
