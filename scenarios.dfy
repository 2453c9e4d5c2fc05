/** Clients of the letter handlers: what a caller can conclude from the
    handlers' contracts alone. */
module Scenarios {
  import opened Wrappers
  import opened Store
  import opened LetterController

  /** Creating a letter and reading it back gives exactly the fields stored,
      owned by the creator and not yet exported. */
  method CreateThenGet(db: Database, newId: LetterId, title: string, content: string, isDraft: bool, caller: UserId)
    returns (created: LetterResponse, fetched: LetterResponse)
    requires newId !in db.letters && db.Valid()
    modifies db
    ensures created.status == 201
    ensures fetched == LetterResponse(200, LetterJson(newId, Letter(title, content, isDraft, caller, None)))
  {
    created := CreateLetter(db, newId, title, content, isDraft, caller);
    fetched := GetLetter(db, newId, caller);
  }

  /** Another user is refused at every step and the letter survives untouched. */
  method ForeignUserIsRefused(db: Database, id: LetterId, intruder: UserId, title: string, content: string, isDraft: bool)
    returns (read: LetterResponse, updated: LetterResponse, deleted: LetterResponse)
    requires id in db.letters && db.letters[id].userId != intruder && db.Valid()
    modifies db
    ensures read.status == 403 && !read.body.LetterJson?
    ensures updated.status == 403 && deleted.status == 403
    ensures db.letters == old(db.letters)
  {
    read := GetLetter(db, id, intruder);
    updated := UpdateLetter(db, id, title, content, isDraft, intruder);
    deleted := DeleteLetter(db, id, intruder);
  }
}
