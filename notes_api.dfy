/**
 * The notes routes. Every route runs behind the authentication middleware,
 * so the caller's email arrives as an already-authenticated input. Notes are
 * kept in a map from id to record; the read-only routes are functions over
 * that map, and the three routes that change it are step functions (what a
 * request does to the map and what it answers) implemented by the methods of
 * `NoteCollection`.
 */
module NotesApi {
  import opened Wrappers
  import opened JsValues
  import Http
  import opened Identity

  type NoteId = nat

  /** A stored note; `user` is the owner's email. */
  datatype Note = Note(title: string, content: string, user: Email, createdAt: int, lastModified: int)

  /** The fields `viewNotes` selects: title, content, user and createdAt (the id is the key). */
  datatype NoteSummary = NoteSummary(title: string, content: string, user: Email, createdAt: int)

  /** Content stored when a note is created without any. */
  const DefaultContent: string := "hello this is my first Note"

  function Summary(n: Note): NoteSummary {
    NoteSummary(n.title, n.content, n.user, n.createdAt)
  }

  /** The notes whose owner is `owner`, under their ids. */
  function OwnedBy(notes: map<NoteId, Note>, owner: Email): map<NoteId, Note> {
    map id | id in notes && notes[id].user == owner :: notes[id]
  }

  /** The answer of `viewNotes`: status, `count` and `data`. */
  datatype Listing = Listing(status: int, count: nat, data: map<NoteId, NoteSummary>)

  /** The answer of `viewNote/:id`. */
  datatype Fetch = Fetch(status: int, note: Option<Note>)

  /** What a changing route answers, and the note map after it. */
  datatype Change = Change(status: int, notes: map<NoteId, Note>, note: Option<Note>)

  /** The summaries of the caller's notes, under their ids. */
  function Mine(notes: map<NoteId, Note>, caller: Email): map<NoteId, NoteSummary> {
    var owned := OwnedBy(notes, caller);
    map id | id in owned :: Summary(owned[id])
  }

  /** GET /viewNotes: the caller's notes, or 404 when the caller has none. */
  function ViewNotes(notes: map<NoteId, Note>, caller: Email): (r: Listing)
    ensures r.status == Http.Ok || r.status == Http.NotFound
    ensures r.status == Http.NotFound <==> forall id :: id in notes ==> notes[id].user != caller
    ensures forall id :: id in r.data <==> id in notes && notes[id].user == caller
    ensures forall id :: id in r.data ==> r.data[id] == Summary(notes[id])
    ensures r.count == |r.data|
  {
    var mine := Mine(notes, caller);
    if |mine| == 0 then
      assert forall id :: id in notes && notes[id].user == caller ==> id in mine;
      Listing(Http.NotFound, 0, map[])
    else
      Listing(Http.Ok, |mine|, mine)
  }

  /** GET /viewNote/:id: 404 for an unknown id, then 403 for another owner's note. */
  function ViewNote(notes: map<NoteId, Note>, id: NoteId, caller: Email): (r: Fetch)
    ensures r.status == Http.NotFound <==> id !in notes
    ensures r.status == Http.Forbidden <==> id in notes && notes[id].user != caller
    ensures r.status == Http.Ok <==> id in notes && notes[id].user == caller
    ensures r.note.Some? <==> r.status == Http.Ok
    ensures r.note.Some? ==> r.note.value == notes[id] && r.note.value.user == caller
  {
    if id !in notes then Fetch(Http.NotFound, None)
    else if notes[id].user != caller then Fetch(Http.Forbidden, None)
    else Fetch(Http.Ok, Some(notes[id]))
  }

  /**
   * POST /createNotes: always 201; the one new note, under the fresh id the
   * store hands out, is owned by the caller, and every other note is kept.
   */
  function CreateNote(notes: map<NoteId, Note>, id: NoteId, caller: Email, title: string,
                      content: Option<string>, now: int): (r: Change)
    requires id !in notes
    ensures r.status == Http.Created
    ensures r.notes.Keys == notes.Keys + {id} && |r.notes| == |notes| + 1
    ensures forall other :: other in notes ==> r.notes[other] == notes[other]
    ensures r.notes[id].user == caller && r.notes[id].title == title
    ensures Falsy(content) ==> r.notes[id].content == DefaultContent
    ensures !Falsy(content) ==> r.notes[id].content == content.value
    ensures r.notes[id].createdAt == now && r.notes[id].lastModified == now
    ensures r.note == Some(r.notes[id])
  {
    var created := Note(title, Or(content, DefaultContent), caller, now, now);
    Change(Http.Created, notes[id := created], Some(created))
  }

  /**
   * PUT /updateNotes/:id: 404, then 403, and otherwise the note gets the
   * supplied content (its old content when none is supplied) and
   * `lastModified = now`; nothing else in the map changes.
   */
  function UpdateNote(notes: map<NoteId, Note>, id: NoteId, caller: Email,
                      content: Option<string>, now: int): (r: Change)
    ensures r.status == Http.NotFound <==> id !in notes
    ensures r.status == Http.Forbidden <==> id in notes && notes[id].user != caller
    ensures r.status == Http.Ok <==> id in notes && notes[id].user == caller
    ensures r.status != Http.Ok ==> r.notes == notes && r.note == None
    ensures r.status == Http.Ok ==>
      && r.notes.Keys == notes.Keys
      && (forall other :: other in notes && other != id ==> r.notes[other] == notes[other])
      && r.notes[id].title == notes[id].title
      && r.notes[id].user == notes[id].user
      && r.notes[id].createdAt == notes[id].createdAt
      && (Falsy(content) ==> r.notes[id].content == notes[id].content)
      && (!Falsy(content) ==> r.notes[id].content == content.value)
      && r.notes[id].lastModified == now
      && r.note == Some(r.notes[id])
  {
    if id !in notes then Change(Http.NotFound, notes, None)
    else
      var note := notes[id];
      if note.user != caller then Change(Http.Forbidden, notes, None)
      else
        var updated := note.(content := Or(content, note.content), lastModified := now);
        Change(Http.Ok, notes[id := updated], Some(updated))
  }

  /** DELETE /deleteNotes/:id: 404, then 403, and otherwise exactly that id is removed. */
  function DeleteNote(notes: map<NoteId, Note>, id: NoteId, caller: Email): (r: Change)
    ensures r.status == Http.NotFound <==> id !in notes
    ensures r.status == Http.Forbidden <==> id in notes && notes[id].user != caller
    ensures r.status == Http.Ok <==> id in notes && notes[id].user == caller
    ensures r.status != Http.Ok ==> r.notes == notes
    ensures r.status == Http.Ok ==>
      && r.notes.Keys == notes.Keys - {id}
      && |r.notes| == |notes| - 1
      && (forall other :: other in r.notes ==> r.notes[other] == notes[other])
    ensures r.note == None
  {
    if id !in notes then Change(Http.NotFound, notes, None)
    else if notes[id].user != caller then Change(Http.Forbidden, notes, None)
    else Change(Http.Ok, notes - {id}, None)
  }

  /** A note of `owner` can be neither read, nor changed, nor removed by anyone else. */
  lemma OwnershipIsolation(notes: map<NoteId, Note>, id: NoteId, owner: Email, other: Email,
                           content: Option<string>, now: int)
    requires id in notes && notes[id].user == owner && other != owner
    ensures ViewNote(notes, id, other) == Fetch(Http.Forbidden, None)
    ensures UpdateNote(notes, id, other, content, now) == Change(Http.Forbidden, notes, None)
    ensures DeleteNote(notes, id, other) == Change(Http.Forbidden, notes, None)
  {
  }

  /** Deleting the same note twice: the first succeeds, the second finds nothing. */
  lemma DeleteTwice(notes: map<NoteId, Note>, id: NoteId, caller: Email)
    requires id in notes && notes[id].user == caller
    ensures DeleteNote(notes, id, caller).status == Http.Ok
    ensures DeleteNote(DeleteNote(notes, id, caller).notes, id, caller).status == Http.NotFound
  {
  }

  /** Adding a note under a fresh id adds its summary to its owner's notes and to no one else's. */
  lemma MineAfterInsert(notes: map<NoteId, Note>, id: NoteId, n: Note, who: Email)
    requires id !in notes
    ensures n.user == who ==> Mine(notes[id := n], who) == Mine(notes, who)[id := Summary(n)]
    ensures n.user != who ==> Mine(notes[id := n], who) == Mine(notes, who)
    ensures id !in Mine(notes, who)
  {
  }

  /**
   * A created note shows up in its owner's listing, which grows by exactly
   * one, and leaves every other caller's listing as it was.
   */
  lemma {:induction false} CreateThenList(notes: map<NoteId, Note>, id: NoteId, caller: Email, title: string,
                                          content: Option<string>, now: int, other: Email)
    requires id !in notes
    ensures var after := CreateNote(notes, id, caller, title, content, now).notes;
      && ViewNotes(after, caller).status == Http.Ok
      && id in ViewNotes(after, caller).data
      && ViewNotes(after, caller).count == ViewNotes(notes, caller).count + 1
      && (other != caller ==> ViewNotes(after, other) == ViewNotes(notes, other))
  {
    var created := CreateNote(notes, id, caller, title, content, now).notes[id];
    MineAfterInsert(notes, id, created, caller);
    MineAfterInsert(notes, id, created, other);
  }

  /** The store between requests: the notes and the next id it will hand out. */
  datatype NoteDb = NoteDb(notes: map<NoteId, Note>, nextId: NoteId)

  /** Every stored id was handed out already, so `nextId` is fresh. */
  predicate IdsIssued(db: NoteDb) {
    forall id :: id in db.notes ==> id < db.nextId
  }

  /** A request that may change the store. The read-only routes are the functions above. */
  datatype NoteRequest =
    | CreateReq(caller: Email, title: string, content: Option<string>, now: int)
    | UpdateReq(caller: Email, id: NoteId, content: Option<string>, now: int)
    | DeleteReq(caller: Email, id: NoteId)

  /** The store after one request. */
  function Apply(db: NoteDb, req: NoteRequest): (r: NoteDb)
    requires IdsIssued(db)
    ensures IdsIssued(r)
  {
    match req
    case CreateReq(caller, title, content, now) =>
      NoteDb(CreateNote(db.notes, db.nextId, caller, title, content, now).notes, db.nextId + 1)
    case UpdateReq(caller, id, content, now) =>
      db.(notes := UpdateNote(db.notes, id, caller, content, now).notes)
    case DeleteReq(caller, id) =>
      db.(notes := DeleteNote(db.notes, id, caller).notes)
  }

  /** The store after a sequence of requests, handled in order. */
  function Run(db: NoteDb, reqs: seq<NoteRequest>): (r: NoteDb)
    requires IdsIssued(db)
    ensures IdsIssued(r)
    decreases |reqs|
  {
    if reqs == [] then db else Run(Apply(db, reqs[0]), reqs[1..])
  }

  /** One request by somebody else leaves the notes of `owner` exactly as they were. */
  lemma ApplySparesOthers(db: NoteDb, req: NoteRequest, owner: Email)
    requires IdsIssued(db) && req.caller != owner
    ensures OwnedBy(Apply(db, req).notes, owner) == OwnedBy(db.notes, owner)
  {
  }

  /**
   * Ownership isolation over any run: however many requests other callers
   * make, in whatever order, the notes of `owner` are untouched.
   */
  lemma {:induction false} IsolationAcrossRequests(db: NoteDb, reqs: seq<NoteRequest>, owner: Email)
    requires IdsIssued(db)
    requires forall i :: 0 <= i < |reqs| ==> reqs[i].caller != owner
    ensures OwnedBy(Run(db, reqs).notes, owner) == OwnedBy(db.notes, owner)
    decreases |reqs|
  {
    if reqs != [] {
      ApplySparesOthers(db, reqs[0], owner);
      IsolationAcrossRequests(Apply(db, reqs[0]), reqs[1..], owner);
    }
  }

  /** The notes collection, updated in place by the three changing routes. */
  class NoteCollection {
    var notes: map<NoteId, Note>
    var nextId: NoteId

    ghost predicate Valid()
      reads this
    {
      IdsIssued(NoteDb(notes, nextId))
    }

    constructor ()
      ensures Valid() && notes == map[]
    {
      notes := map[];
      nextId := 0;
    }

    /** `Note.create` under a fresh id, then 201 with the created note. */
    method HandleCreateNotes(caller: Email, title: string, content: Option<string>, now: int)
      returns (status: int, id: NoteId, created: Note)
      requires Valid()
      modifies this
      ensures Valid()
      ensures id == old(nextId) && id !in old(notes) && nextId == old(nextId) + 1
      ensures Change(status, notes, Some(created)) == CreateNote(old(notes), id, caller, title, content, now)
    {
      id := nextId;
      created := Note(title, Or(content, DefaultContent), caller, now, now);
      notes := notes[id := created];
      nextId := nextId + 1;
      status := Http.Created;
    }

    /** `findById`, the 404 and 403 guards, then `findByIdAndUpdate` returning the new note. */
    method HandleUpdateNotes(caller: Email, id: NoteId, content: Option<string>, now: int)
      returns (status: int, updated: Option<Note>)
      requires Valid()
      modifies this
      ensures Valid() && nextId == old(nextId)
      ensures Change(status, notes, updated) == UpdateNote(old(notes), id, caller, content, now)
    {
      var found := if id in notes then Some(notes[id]) else None;
      if found.None? {
        return Http.NotFound, None;
      }
      var note := found.value;
      if note.user != caller {
        return Http.Forbidden, None;
      }
      var changed := note.(content := Or(content, note.content), lastModified := now);
      notes := notes[id := changed];
      status, updated := Http.Ok, Some(changed);
    }

    /** `findById`, the 404 and 403 guards, then `findByIdAndDelete`. */
    method HandleDeleteNotes(caller: Email, id: NoteId) returns (status: int)
      requires Valid()
      modifies this
      ensures Valid() && nextId == old(nextId)
      ensures Change(status, notes, None) == DeleteNote(old(notes), id, caller)
    {
      var found := if id in notes then Some(notes[id]) else None;
      if found.None? {
        return Http.NotFound;
      }
      if found.value.user != caller {
        return Http.Forbidden;
      }
      notes := notes - {id};
      status := Http.Ok;
    }
  }
}
