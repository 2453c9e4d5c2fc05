/** The owner-scoped letter handlers: create, list, get, update, delete.
    The caller is the user id carried by the verified session token. */
module LetterController {
  import opened Wrappers
  import opened Store

  /** What a handler sends back: the HTTP status and the JSON body. */
  datatype LetterBody =
    | LetterJson(id: LetterId, letter: Letter)
    | LetterListJson(letters: map<LetterId, Letter>)
    | MessageJson(message: string)
    | RecoverableNotFound(message: string, id: LetterId)   // { message, recoverable: true, id }
    | NoContent

  datatype LetterResponse = LetterResponse(status: int, body: LetterBody)

  /** Two letter ids the handlers single out for a recoverable "not found". */
  const SpecialIds: set<LetterId> := {"67e304893073486c4e9ef41e", "67e30857ac9c749895c4b98e"}

  /** How the letter with `id` relates to `caller`. */
  datatype Access = Missing | Foreign | Owned

  /** The single ownership policy that get, update, delete and the export apply. */
  function Authorize(letters: map<LetterId, Letter>, id: LetterId, caller: UserId): (a: Access)
    ensures a == Missing <==> id !in letters
    ensures a == Owned <==> id in letters && letters[id].userId == caller
  {
    if id !in letters then Missing
    else if letters[id].userId != caller then Foreign
    else Owned
  }

  /** The response for an id that is not in the table. */
  function NotFound(id: LetterId): (r: LetterResponse)
    ensures r.status == 404
    ensures r.body.RecoverableNotFound? <==> id in SpecialIds
  {
    if id in SpecialIds then LetterResponse(404, RecoverableNotFound("Letter not found", id))
    else LetterResponse(404, MessageJson("Letter not found"))
  }

  /** POST /api/letters: stores the given fields under the caller, with no
      exported document, and returns the new row. `newId` is the id the
      store generates for it. */
  method CreateLetter(db: Database, newId: LetterId, title: string, content: string, isDraft: bool, caller: UserId)
    returns (r: LetterResponse)
    requires newId !in db.letters && db.Valid()
    modifies db
    ensures db.Valid()
    ensures db.letters == old(db.letters)[newId := Letter(title, content, isDraft, caller, None)]
    ensures db.users == old(db.users)
    ensures r == LetterResponse(201, LetterJson(newId, Letter(title, content, isDraft, caller, None)))
  {
    var letter := Letter(title, content, isDraft, caller, None);
    db.letters := db.letters[newId := letter];
    r := LetterResponse(201, LetterJson(newId, letter));
  }

  /** GET /api/letters: exactly the caller's letters, and none of anybody else's. */
  method GetLetters(db: Database, caller: UserId) returns (r: LetterResponse)
    ensures r.status == 200 && r.body.LetterListJson?
    ensures forall id :: id in r.body.letters <==> id in db.letters && db.letters[id].userId == caller
    ensures forall id :: id in r.body.letters ==> r.body.letters[id] == db.letters[id]
  {
    var mine := map id | id in db.letters && db.letters[id].userId == caller :: db.letters[id];
    r := LetterResponse(200, LetterListJson(mine));
  }

  /** GET /api/letters/:id: 404 when absent (recoverable for the two special
      ids), 403 when another user owns it, otherwise the stored row unchanged. */
  method GetLetter(db: Database, id: LetterId, caller: UserId) returns (r: LetterResponse)
    ensures id !in db.letters ==> r == NotFound(id)
    ensures id in db.letters && db.letters[id].userId != caller ==>
              r == LetterResponse(403, MessageJson("Not authorized to view this letter"))
    ensures r.status == 200 <==> Authorize(db.letters, id, caller) == Owned
    ensures r.status == 200 ==> r.body == LetterJson(id, db.letters[id])
    ensures r.body.LetterJson? ==> r.body.letter.userId == caller
  {
    if id in SpecialIds && id !in db.letters {
      r := NotFound(id);
      return;
    }
    match Authorize(db.letters, id, caller)
    case Missing =>
      r := LetterResponse(404, MessageJson("Letter not found"));
    case Foreign =>
      r := LetterResponse(403, MessageJson("Not authorized to view this letter"));
    case Owned =>
      r := LetterResponse(200, LetterJson(id, db.letters[id]));
  }

  /** PUT /api/letters/:id: an absent or foreign id gives 403 and changes
      nothing; otherwise only title, content and isDraft are replaced. */
  method UpdateLetter(db: Database, id: LetterId, title: string, content: string, isDraft: bool, caller: UserId)
    returns (r: LetterResponse)
    requires db.Valid()
    modifies db
    ensures db.Valid()
    ensures db.users == old(db.users)
    ensures Authorize(old(db.letters), id, caller) != Owned ==>
              r == LetterResponse(403, MessageJson("Not authorized to update this letter")) &&
              db.letters == old(db.letters)
    ensures Authorize(old(db.letters), id, caller) == Owned ==>
              db.letters == old(db.letters)[id := old(db.letters)[id].(title := title, content := content, isDraft := isDraft)] &&
              db.letters[id].userId == old(db.letters)[id].userId &&
              db.letters[id].googleDocId == old(db.letters)[id].googleDocId &&
              r == LetterResponse(200, LetterJson(id, db.letters[id]))
  {
    if Authorize(db.letters, id, caller) != Owned {
      r := LetterResponse(403, MessageJson("Not authorized to update this letter"));
      return;
    }
    var updated := db.letters[id].(title := title, content := content, isDraft := isDraft);
    db.letters := db.letters[id := updated];
    r := LetterResponse(200, LetterJson(id, updated));
  }

  /** DELETE /api/letters/:id: an absent or foreign id gives 403 and changes
      nothing; otherwise exactly that row is removed and the answer is 204. */
  method DeleteLetter(db: Database, id: LetterId, caller: UserId) returns (r: LetterResponse)
    requires db.Valid()
    modifies db
    ensures db.Valid()
    ensures db.users == old(db.users)
    ensures Authorize(old(db.letters), id, caller) != Owned ==>
              r == LetterResponse(403, MessageJson("Not authorized to delete this letter")) &&
              db.letters == old(db.letters)
    ensures Authorize(old(db.letters), id, caller) == Owned ==>
              r == LetterResponse(204, NoContent) &&
              id !in db.letters &&
              db.letters == old(db.letters) - {id}
    ensures forall other :: other != id && other in old(db.letters) ==>
              other in db.letters && db.letters[other] == old(db.letters)[other]
  {
    if Authorize(db.letters, id, caller) != Owned {
      r := LetterResponse(403, MessageJson("Not authorized to delete this letter"));
      return;
    }
    db.letters := db.letters - {id};
    r := LetterResponse(204, NoContent);
  }
}
