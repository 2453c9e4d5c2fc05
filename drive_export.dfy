/** POST /api/letters/:id/save-to-drive: the linear, non-retrying export of
    a letter to Google Docs. The three Google calls (token refresh, document
    create, document batchUpdate) are given as their outcomes; the model
    records which of them the handler makes, in order. */
module DriveExport {
  import opened Wrappers
  import opened Strings
  import opened Store
  import LetterController

  /** A step the handler takes outside itself: a call into Google, or the
      write-back of refreshed tokens to the user row in the store. */
  datatype ExternalCall =
    | RefreshToken
    | StoreTokens
    | CreateDocument(title: string)
    | BatchUpdate(documentId: string, text: string)

  /** `refreshAccessToken()`: new credentials, or an error. */
  datatype RefreshOutcome = Refreshed(credentials: Tokens) | RefreshFailed

  /** `documents.create`: a document (whose `documentId` may be missing), or an
      error whose `message` may be missing. */
  datatype CreateOutcome = DocCreated(documentId: Option<string>) | CreateFailed(message: Option<string>)

  /** `documents.batchUpdate`: done, or an error whose `message` may be missing. */
  datatype BatchOutcome = BatchUpdated | BatchFailed(message: Option<string>)

  datatype ExportBody =
    | MessageJson(message: string)
    | RecoverableNotFound(message: string, id: LetterId)
    | ErrorJson(message: string, error: Option<string>, redirectUrl: Option<string>, details: Option<string>)
    | DocumentJson(documentId: string)

  datatype ExportResponse = ExportResponse(status: int, body: ExportBody)

  const ReconnectMessage := "Your Google authorization has expired. Please reconnect your Google account."

  /** Where the client is sent to reconnect: `${BACKEND_URL || default}/api/auth/google`. */
  function ReconnectUrl(backendUrl: Option<string>): string
  {
    (if Truthy(backendUrl) then backendUrl.value else "http://localhost:3001") + "/api/auth/google"
  }

  /** The message of a remote error names a Google API that is switched off. */
  predicate MentionsApiDisabled(message: Option<string>) {
    Truthy(message) &&
    (Includes(message.value, "API has not been used") || Includes(message.value, "it is disabled"))
  }

  /** The message of a remote error reports a revoked or expired grant. */
  predicate MentionsInvalidGrant(message: Option<string>) {
    Truthy(message) && Includes(message.value, "invalid_grant")
  }

  /** The answer for any error raised while creating or filling the document:
      503 `api_not_enabled`, else 401 `expired_token`, else 500 with the message. */
  function ClassifyGoogleError(message: Option<string>): (r: ExportResponse)
    ensures r.status == 503 <==> MentionsApiDisabled(message)
    ensures r.status == 401 <==> !MentionsApiDisabled(message) && MentionsInvalidGrant(message)
    ensures r.status == 500 <==> !MentionsApiDisabled(message) && !MentionsInvalidGrant(message)
    ensures r.status == 503 ==> r.body.ErrorJson? && r.body.error == Some("api_not_enabled") && r.body.details == message
    ensures r.status == 401 ==> r.body.ErrorJson? && r.body.error == Some("expired_token") && r.body.redirectUrl == None
    ensures r.status == 500 ==> r.body.ErrorJson? && r.body.error == message
  {
    if MentionsApiDisabled(message) then
      ExportResponse(503, ErrorJson("Google Docs API is not enabled", Some("api_not_enabled"), None, message))
    else if MentionsInvalidGrant(message) then
      ExportResponse(401, ErrorJson(ReconnectMessage, Some("expired_token"), None, None))
    else
      ExportResponse(500, ErrorJson("Error creating Google Doc", message, None, None))
  }

  /** Either of Google's "API disabled" texts is classified as 503, whatever
      else the message says, even when it also mentions an invalid grant. */
  lemma ApiDisabledWins(before: string, after: string)
    ensures ClassifyGoogleError(Some(before + "it is disabled" + after)).status == 503
    ensures ClassifyGoogleError(Some(before + "API has not been used" + after)).status == 503
  {
    IncludesInside(before, "it is disabled", after);
    IncludesInside(before, "API has not been used", after);
  }

  /** A message reporting an invalid grant, and no disabled API, gives 401. */
  lemma InvalidGrantIsExpired(before: string, after: string)
    requires !MentionsApiDisabled(Some(before + "invalid_grant" + after))
    ensures ClassifyGoogleError(Some(before + "invalid_grant" + after)).status == 401
  {
    IncludesInside(before, "invalid_grant", after);
  }

  /** The error the handler raises itself when no document id comes back. */
  const MissingDocumentId := "Failed to create document"

  /** The stored expiry is set and already in the past. */
  predicate IsExpired(expiry: Option<int>, now: int) {
    expiry.Some? && expiry.value < now
  }

  /** The user row after a successful refresh: the new access token, the new
      refresh token or else the old one, and the new expiry only if one came back. */
  function RefreshedUser(u: User, c: Tokens): (v: User)
    ensures v.email == u.email && v.name == u.name && v.googleId == u.googleId
    ensures c.accessToken.Some? ==> v.accessToken == c.accessToken
    ensures c.accessToken.None? ==> v.accessToken == u.accessToken
    ensures Truthy(c.refreshToken) ==> v.refreshToken == c.refreshToken
    ensures !Truthy(c.refreshToken) ==> v.refreshToken == u.refreshToken
    ensures HasExpiry(c.expiryDate) ==> v.tokenExpiry == c.expiryDate
    ensures !HasExpiry(c.expiryDate) ==> v.tokenExpiry == u.tokenExpiry
  {
    u.(accessToken := Overwrite(u.accessToken, c.accessToken),
       refreshToken := if Truthy(c.refreshToken) then c.refreshToken else u.refreshToken,
       tokenExpiry := if HasExpiry(c.expiryDate) then c.expiryDate else u.tokenExpiry)
  }

  /** All four checks before any Google call pass: the letter exists, its
      owner exists, the caller owns it and the owner holds an access token. */
  predicate ChecksPass(letters: map<LetterId, Letter>, users: map<UserId, User>, id: LetterId, caller: UserId) {
    LetterController.Authorize(letters, id, caller) == LetterController.Owned &&
    caller in users && Truthy(users[caller].accessToken)
  }

  /** The message of the first failing document step. */
  function DocumentErrorMessage(create: CreateOutcome, batch: BatchOutcome): Option<string> {
    if create.CreateFailed? then create.message
    else if !Truthy(create.documentId) then Some(MissingDocumentId)
    else if batch.BatchFailed? then batch.message
    else None
  }

  /** The answer of the first of the four checks that fails, in the order
      the handler makes them; `None` when all pass. */
  function Preflight(letters: map<LetterId, Letter>, users: map<UserId, User>, id: LetterId, caller: UserId,
                     backendUrl: Option<string>): (r: Option<ExportResponse>)
    ensures r.None? <==> ChecksPass(letters, users, id, caller)
    ensures id !in letters ==>
              r.Some? && r.value.status == 404 && (r.value.body.RecoverableNotFound? <==> id in LetterController.SpecialIds)
    ensures id in letters && letters[id].userId !in users ==>
              r == Some(ExportResponse(404, MessageJson("User not found for this letter")))
    ensures LetterController.Authorize(letters, id, caller) == LetterController.Foreign && letters[id].userId in users ==>
              r == Some(ExportResponse(403, MessageJson("Not authorized to save this letter")))
    ensures LetterController.Authorize(letters, id, caller) == LetterController.Owned && caller in users &&
            !Truthy(users[caller].accessToken) ==>
              r.Some? && r.value.status == 401 && r.value.body.ErrorJson? &&
              r.value.body.error == Some("missing_token") && r.value.body.redirectUrl == Some(ReconnectUrl(backendUrl))
  {
    match LetterController.Authorize(letters, id, caller)
    case Missing =>
      if id in LetterController.SpecialIds then Some(ExportResponse(404, RecoverableNotFound("Letter not found", id)))
      else Some(ExportResponse(404, MessageJson("Letter not found")))
    case Foreign =>
      if letters[id].userId !in users then Some(ExportResponse(404, MessageJson("User not found for this letter")))
      else Some(ExportResponse(403, MessageJson("Not authorized to save this letter")))
    case Owned =>
      if caller !in users then Some(ExportResponse(404, MessageJson("User not found for this letter")))
      else if !Truthy(users[caller].accessToken) then
        Some(ExportResponse(401, ErrorJson("Google Drive access is not available. Please reconnect your Google account.",
                                           Some("missing_token"), Some(ReconnectUrl(backendUrl)), None)))
      else None
  }

  /** The Google Docs calls the document steps make for `letter`: a create
      titled after the letter, then, only if a document id came back, a
      batchUpdate inserting the letter's content into that document. */
  function DocumentCalls(letter: Letter, create: CreateOutcome): seq<ExternalCall>
  {
    [CreateDocument(letter.title)] +
    if create.DocCreated? && Truthy(create.documentId) then [BatchUpdate(create.documentId.value, letter.content)] else []
  }

  /** The document steps: create a document titled after the letter, insert
      the letter's content, and only then record the document id on the letter. */
  method WriteDocument(db: Database, id: LetterId, create: CreateOutcome, batch: BatchOutcome)
    returns (r: ExportResponse, calls: seq<ExternalCall>)
    requires id in db.letters
    modifies db
    ensures db.users == old(db.users)
    ensures calls == DocumentCalls(old(db.letters)[id], create)
    ensures r.status == 200 <==> create.DocCreated? && Truthy(create.documentId) && batch.BatchUpdated?
    ensures r.status == 200 ==>
              r.body == DocumentJson(create.documentId.value) &&
              db.letters == old(db.letters)[id := old(db.letters)[id].(googleDocId := create.documentId)]
    ensures r.status != 200 ==> db.letters == old(db.letters) && r == ClassifyGoogleError(DocumentErrorMessage(create, batch))
  {
    var letter := db.letters[id];
    calls := [CreateDocument(letter.title)];
    if create.CreateFailed? || !Truthy(create.documentId) {
      r := ClassifyGoogleError(DocumentErrorMessage(create, batch));
      return;
    }
    var documentId := create.documentId.value;
    calls := calls + [BatchUpdate(documentId, letter.content)];
    if batch.BatchFailed? {
      r := ClassifyGoogleError(DocumentErrorMessage(create, batch));
      return;
    }
    db.letters := db.letters[id := db.letters[id].(googleDocId := Some(documentId))];
    r := ExportResponse(200, DocumentJson(documentId));
  }

  /** The single token refresh: made only when the stored expiry is set and
      past; on success the new tokens are written to the user row, on failure
      nothing changes and `usable` is false. */
  method RefreshIfExpired(db: Database, caller: UserId, now: int, refresh: RefreshOutcome)
    returns (usable: bool, calls: seq<ExternalCall>)
    requires caller in db.users && db.Valid()
    modifies db
    ensures db.Valid() && db.letters == old(db.letters)
    ensures !IsExpired(old(db.users)[caller].tokenExpiry, now) ==>
              usable && calls == [] && db.users == old(db.users)
    ensures IsExpired(old(db.users)[caller].tokenExpiry, now) && refresh.RefreshFailed? ==>
              !usable && calls == [RefreshToken] && db.users == old(db.users)
    ensures IsExpired(old(db.users)[caller].tokenExpiry, now) && refresh.Refreshed? ==>
              usable && calls == [RefreshToken, StoreTokens] &&
              db.users == old(db.users)[caller := RefreshedUser(old(db.users)[caller], refresh.credentials)]
  {
    var user := db.users[caller];
    if !IsExpired(user.tokenExpiry, now) {
      return true, [];
    }
    calls := [RefreshToken];
    if refresh.RefreshFailed? {
      return false, calls;
    }
    db.users := db.users[caller := RefreshedUser(user, refresh.credentials)];
    calls := calls + [StoreTokens];
    usable := true;
  }

  /** The checks pass and the access token is usable: it was not expired, or
      its refresh succeeded. Exactly then the handler reaches the document steps. */
  predicate ReachesDocuments(letters: map<LetterId, Letter>, users: map<UserId, User>, id: LetterId, caller: UserId,
                             now: int, refresh: RefreshOutcome)
  {
    ChecksPass(letters, users, id, caller) && (IsExpired(users[caller].tokenExpiry, now) ==> refresh.Refreshed?)
  }

  /** The whole handler: the checks, at most one token refresh (written back
      to the user row before anything else happens), then the document steps. */
  method SaveToGoogleDrive(db: Database, id: LetterId, caller: UserId, now: int, backendUrl: Option<string>,
                           refresh: RefreshOutcome, create: CreateOutcome, batch: BatchOutcome)
    returns (r: ExportResponse, calls: seq<ExternalCall>)
    requires db.Valid()
    modifies db
    ensures db.Valid()
    // the checks, in order; a failing one answers at once and changes nothing
    ensures !ChecksPass(old(db.letters), old(db.users), id, caller) ==>
              r == Preflight(old(db.letters), old(db.users), id, caller, backendUrl).value &&
              calls == [] && db.letters == old(db.letters) && db.users == old(db.users)
    // at most one refresh and its write-back, before the document calls, which come in order
    ensures !ReachesDocuments(old(db.letters), old(db.users), id, caller, now, refresh) ==> calls <= [RefreshToken]
    ensures ReachesDocuments(old(db.letters), old(db.users), id, caller, now, refresh) ==>
              calls == (if IsExpired(old(db.users)[caller].tokenExpiry, now) then [RefreshToken, StoreTokens] else []) +
                       DocumentCalls(old(db.letters)[id], create)
    ensures RefreshToken in calls <==>
              ChecksPass(old(db.letters), old(db.users), id, caller) && IsExpired(old(db.users)[caller].tokenExpiry, now)
    ensures RefreshToken in calls && refresh.RefreshFailed? ==>
              calls == [RefreshToken] && db.letters == old(db.letters) && db.users == old(db.users) &&
              r == ExportResponse(401, ErrorJson(ReconnectMessage, Some("expired_token"), Some(ReconnectUrl(backendUrl)), None))
    ensures RefreshToken in calls && refresh.Refreshed? ==>
              db.users == old(db.users)[caller := RefreshedUser(old(db.users)[caller], refresh.credentials)]
    ensures StoreTokens in calls <==> RefreshToken in calls && refresh.Refreshed?
    ensures RefreshToken !in calls ==> db.users == old(db.users)
    // the document id is written only once both document calls succeeded
    ensures r.status == 200 <==>
              ReachesDocuments(old(db.letters), old(db.users), id, caller, now, refresh) &&
              create.DocCreated? && Truthy(create.documentId) && batch.BatchUpdated?
    ensures r.status == 200 ==>
              r.body == DocumentJson(create.documentId.value) &&
              db.letters == old(db.letters)[id := old(db.letters)[id].(googleDocId := create.documentId)]
    ensures r.status != 200 ==> db.letters == old(db.letters)
    ensures ReachesDocuments(old(db.letters), old(db.users), id, caller, now, refresh) && r.status != 200 ==>
              r == ClassifyGoogleError(DocumentErrorMessage(create, batch))
  {
    calls := [];
    var failure := Preflight(db.letters, db.users, id, caller, backendUrl);
    if failure.Some? {
      r := failure.value;
      return;
    }
    var usable;
    usable, calls := RefreshIfExpired(db, caller, now, refresh);
    if !usable {
      r := ExportResponse(401, ErrorJson(ReconnectMessage, Some("expired_token"), Some(ReconnectUrl(backendUrl)), None));
      return;
    }
    var documentCalls;
    r, documentCalls := WriteDocument(db, id, create, batch);
    calls := calls + documentCalls;
  }
}
