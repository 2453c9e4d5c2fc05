# Letter Writer backend: a Dafny model of its decision logic

Letter Writer is a web application. A user signs in with Google, writes
letters, stores them in a relational database and can export a letter to
Google Docs. Its backend is a thin REST layer over an ORM and Google's SDKs.
This project models the three parts of that backend that make decisions of
their own, and proves what they promise:

- **The owner-scoped letter table** (`letter.controller.ts`): create, list,
  get, update and delete. The handlers are module-level methods over a
  `Store.Database` object whose `letters` and `users` maps they update in
  place. Their contracts give the status code, the body and the whole new
  table. One ownership policy, `LetterController.Authorize`, decides get,
  update and delete, and the export's ownership check.
- **The Drive export** (`saveToGoogleDrive`). This is a linear, non-retrying
  state machine:
  - four checks, made in this order: the letter exists, its owner exists, the
    caller owns it, and the owner has an access token;
  - at most one token refresh, whose result is written back to the user row
    before any document call (the trace records the write as `StoreTokens`);
  - document create with the letter's title, then batchUpdate inserting the
    letter's content into the returned document, and only then the letter's
    `googleDocId` is written;
  - any remote error message is classified as 503, 401 or 500.

  Each Google call is an outcome passed in as a parameter. The out-parameter
  `calls` records which calls were made, in order, with the title, document
  id and text they were given.
- **Sign-in and request authentication** (`auth.controller.ts`,
  `auth.middleware.ts`):
  - the OAuth callback finds or creates the user by email, with three update
    branches and a JSON-or-redirect answer;
  - the current-user lookup returns only id, email and name;
  - the reset of the shared OAuth client's credentials;
  - the middleware's bearer-token extraction and its 401 / 403 / next
    decision. JWT verification is an opaque function `verify`, and signing is
    an opaque function `sign`.
  - `SessionTokens` relates the two through the JWT secret they are given,
    which exposes a mismatch of their defaults (see "## Findings").

The string operations the code relies on are modelled in `Strings`:
JavaScript truthiness, `includes`, and `split` on one character. `Includes`
is proved equal to "occurs at some position". `Split` is proved to be the
inverse of `Join`.

Modelling conventions:
- A value that can be `undefined` or `null` is an `Option`.
- A Google call that can throw is a `Result`, with `Failure(message)`.
- Timestamps are integers (milliseconds).
- The ids the database generates are an extra parameter (`newId`). The
  method requires that id to be unused, which is what the store's generator
  guarantees.
- In an update, the ORM leaves a column unchanged when it is given
  `undefined`. `Store.Overwrite` models this, and it is why a sign-in without
  a new refresh token keeps the stored one.

Two behaviours of the code that differ from what one might expect:
- Update and delete of an absent id answer 403, not 404.
- `resetOAuth` clears the credentials only if revoking the old access token
  did not throw. When revocation throws, the handler answers 500 and leaves
  the credentials as they were.

## Model

| member | source | states |
|---|---|---|
| `Strings.IncludesIffOccurs` | backend/src/controllers/letter.controller.ts:284-295 | `includes` succeeds exactly when the pattern occurs at some position of the message (both directions) |
| `Strings.IncludesAt` | backend/src/controllers/letter.controller.ts:284-295 | an occurrence at any position is found by the search |
| `Strings.IncludesInside` | backend/src/controllers/letter.controller.ts:284-295 | a text that contains the pattern verbatim, whatever surrounds it, includes it |
| `Strings.Split` | backend/src/middleware/auth.middleware.ts:6 | `split(sep)` yields at least one field and no field contains the separator |
| `Strings.JoinSplit` | backend/src/middleware/auth.middleware.ts:6 | joining the fields of a split gives back the original header text |
| `Strings.SplitJoin` | backend/src/middleware/auth.middleware.ts:6 | splitting a join of separator-free fields gives back those fields |
| `Strings.SplitWithoutSep` | backend/src/middleware/auth.middleware.ts:6 | text with no separator is one field |
| `Strings.SplitAfterField` | backend/src/middleware/auth.middleware.ts:6 | a separator-free prefix followed by the separator is the first field, and the remainder's fields follow |
| `Strings.FirstFieldIsPrefix` | backend/src/controllers/auth.controller.ts:82 | the first field of a split is the text before the first separator, or the whole text when there is none |
| `Store.WithTokens` | backend/src/controllers/auth.controller.ts:91-109 | a login updates only the three token columns: each new token is written if present, the expiry only if truthy, and email, name and googleId are untouched |
| `Store.Database.constructor` | backend/src/controllers/letter.controller.ts:6 | the shared store client; the model starts its store empty (no letters, no users), a setup of its own rather than what connecting to an existing database does, and the unique-email invariant holds there |
| `LetterController.Authorize` | backend/src/controllers/letter.controller.ts:92-98 | the ownership policy: `Missing` exactly when the id is absent, `Owned` exactly when the row's userId is the caller |
| `LetterController.NotFound` | backend/src/controllers/letter.controller.ts:48-72 | an absent id gives 404, and its body is the recoverable one exactly for the two special ids |
| `LetterController.CreateLetter` | backend/src/controllers/letter.controller.ts:10-22 | stores exactly the given title, content and isDraft under the caller, with no document id, changes nothing else, and returns 201 with that row |
| `LetterController.GetLetters` | backend/src/controllers/letter.controller.ts:31-35 | 200 with exactly the letters whose userId is the caller, each as stored, and no letter of anyone else |
| `LetterController.GetLetter` | backend/src/controllers/letter.controller.ts:44-79 | 404 when absent (recoverable for the special ids), 403 when another user owns the letter, otherwise 200 with the stored row unchanged; content is returned only to its owner |
| `LetterController.UpdateLetter` | backend/src/controllers/letter.controller.ts:88-105 | absent or foreign id: 403 and the table unchanged; otherwise only title, content and isDraft of that row change, userId and googleDocId keep their values, and the answer is 200 with the new row |
| `LetterController.DeleteLetter` | backend/src/controllers/letter.controller.ts:114-129 | absent or foreign id: 403 and the table unchanged; otherwise exactly that id is removed, 204; every other letter is untouched |
| `DriveExport.ClassifyGoogleError` | backend/src/controllers/letter.controller.ts:283-306 | a message mentioning "API has not been used" or "it is disabled" gives 503 `api_not_enabled` with the message as details; otherwise "invalid_grant" gives 401 `expired_token`; everything else, a missing message included, gives 500 carrying the message |
| `DriveExport.ApiDisabledWins` | backend/src/controllers/letter.controller.ts:284-292 | any message containing "it is disabled" or "API has not been used" is 503, even if it also mentions invalid_grant |
| `DriveExport.InvalidGrantIsExpired` | backend/src/controllers/letter.controller.ts:295-300 | any message containing "invalid_grant" and no disabled-API text is 401 |
| `DriveExport.RefreshedUser` | backend/src/controllers/letter.controller.ts:211-219 | after a refresh: the new access token, or the stored one if none came back; the new refresh token, or the old one if none came back; the expiry changes only if an expiry_date came back; identity columns untouched |
| `DriveExport.Preflight` | backend/src/controllers/letter.controller.ts:143-189 | the four checks in source order: 404 (recoverable for special ids) if the letter is missing, 404 if its user is missing, 403 if `LetterController.Authorize` finds the letter foreign, 401 `missing_token` if the owner has no access token, with a reconnect URL of BACKEND_URL (or `http://localhost:3001`) followed by `/api/auth/google`; no answer exactly when all pass |
| `DriveExport.RefreshIfExpired` | backend/src/controllers/letter.controller.ts:203-231 | no refresh and no change when the stored expiry is unset or not yet past; otherwise exactly one refresh: a failed one leaves the user table unchanged and reports the tokens unusable, a successful one writes the refreshed row (`RefreshedUser`) and then records the write-back; the letter table is never touched and emails stay unique |
| `DriveExport.WriteDocument` | backend/src/controllers/letter.controller.ts:237-307 | create is called with the letter's title; batchUpdate is called only after a create that returned a document id, and inserts the letter's content into that document; the letter's googleDocId is written, and 200 with the id returned, only when both succeed; otherwise the table is unchanged and the answer is the classification of the first error |
| `DriveExport.SaveToGoogleDrive` | backend/src/controllers/letter.controller.ts:136-315 | a failed check answers with that check's response and calls and changes nothing. When the checks pass and the token is usable, the trace of external steps is exactly the refresh and its write-back (only if the expiry had passed) followed by the create with the letter's title and, if a document id came back, the batchUpdate inserting the letter's content into it; otherwise the trace is at most the refresh. The write-back is in the trace exactly when a refresh was made and succeeded. A refresh happens exactly when the checks pass and the stored expiry is set and past. A failed refresh gives 401 `expired_token` and leaves the user, the letter and googleDocId unchanged. A successful refresh leaves the caller's row holding the refreshed tokens, whatever the document calls return. googleDocId is set only on 200. The store's emails stay unique |
| `AuthController.ChooseCode` | backend/src/controllers/auth.controller.ts:48-53 | there is a code exactly when the query string or the body carries a truthy one, and a truthy query code takes precedence |
| `AuthController.LocalPart` | backend/src/controllers/auth.controller.ts:82 | `email.split('@')[0]` is a prefix of the email with no '@', followed in the email by '@' or by nothing |
| `AuthController.NewUser` | backend/src/controllers/auth.controller.ts:77-88 | a new row has the email, the profile name or else the email's local part, the profile id or '', and the exchanged tokens |
| `AuthController.ReturningUser` | backend/src/controllers/auth.controller.ts:89-110 | a row without googleId gets the profile id plus the three token columns; a row with one gets only the token columns and keeps its googleId; email and name never change |
| `AuthController.JsonAmongOtherTypes` | backend/src/controllers/auth.controller.ts:119-134 | an Accept header listing `application/json` anywhere among other media types gets the JSON answer with id, email, name and the token signed over the row's id and email, not the redirect |
| `AuthController.GoogleCallback` | backend/src/controllers/auth.controller.ts:45-146 | a request with no truthy code in either the query string or the body gives 400 and changes neither the user table nor the client's credentials. A failed exchange or profile call gives 401, and a missing email 400, with the user table unchanged. Exchanged tokens become the client's credentials. A row is created only when no row had the email, and otherwise the single row with that email is updated. Emails stay unique, and after a sign-in a row with that email exists |
| `AuthController.GetCurrentUser` | backend/src/controllers/auth.controller.ts:151-171 | 401 without a truthy userId, 404 for an unknown one, otherwise exactly the id, email and name of that row (the response has no token fields) |
| `AuthController.ResetOAuth` | backend/src/controllers/auth.controller.ts:180-212 | the stored access token, if truthy, is sent for revocation; unless that revocation fails (500, credentials kept) the credentials are cleared, and the answer is a redirect to the consent URL exactly when returnTo is `login`, otherwise the success JSON |
| `AuthController.OAuthClient.constructor` | backend/src/controllers/auth.controller.ts:20-24 | the shared client starts with empty credentials |
| `AuthMiddleware.BearerToken` | backend/src/middleware/auth.middleware.ts:5-6 | a token found is non-empty and contains no space |
| `AuthMiddleware.AuthenticateToken` | backend/src/middleware/auth.middleware.ts:4-19 | 401 exactly when no token is found, 403 exactly when a token is found and fails verification, otherwise next with req.user set to the decoded payload |
| `AuthMiddleware.TokenAfterScheme` | backend/src/middleware/auth.middleware.ts:5-6 | for `scheme token rest`, where `rest` is empty or starts with a space, the token is the second field and anything after it is ignored |
| `AuthMiddleware.TokenIsSecondField` | backend/src/middleware/auth.middleware.ts:5-6 | conversely, any token found is the text between the header's first space and the next space or its end |
| `AuthMiddleware.EmptySecondField` | backend/src/middleware/auth.middleware.ts:6-10 | an empty second field ("Bearer " or a double space) yields no token |
| `AuthMiddleware.NoSpaceNoToken` | backend/src/middleware/auth.middleware.ts:6-10 | a header without a space yields no token |
| `AuthMiddleware.AuthenticateBearer` | backend/src/middleware/auth.middleware.ts:12-18 | a well-formed header proceeds to next with the decoded payload if its token verifies, and gets 403 with no user set if it does not |
| `AuthMiddleware.AuthenticateWithoutToken` | backend/src/middleware/auth.middleware.ts:8-10 | no header, a header without a space, or an empty second field gives 401 and next is not called |
| `SessionTokens.GuardOnIssuedSecrets` | backend/src/middleware/auth.middleware.ts:12-18 | a freshly issued token sent as a bearer token passes the guard with exactly its signed claims when both sides use the same secret, and gets 403 when the secrets differ |
| `SessionTokens.UnsetSecretLocksOut` | backend/src/controllers/auth.controller.ts:7 | with JWT_SECRET unset, the signing and verifying defaults differ, so every token the callback issues is refused with 403 |
| `SessionTokens.SharedSecret` | backend/src/controllers/auth.controller.ts:7 | with JWT_SECRET set, the corrected shared secret is the one both sides already use |
| `SessionTokens.SharedSecretAccepts` | backend/src/middleware/auth.middleware.ts:13 | with one shared secret, set or not, a freshly issued token (verified at the instant it is issued, before its one-hour expiry) passes the guard carrying exactly its signed claims |
| `Scenarios.CreateThenGet` | backend/src/controllers/letter.controller.ts:10-79 | creating a letter and reading it back as its owner gives 200 with exactly the stored title, content and isDraft, owned by the creator and not exported |
| `Scenarios.ForeignUserIsRefused` | backend/src/controllers/letter.controller.ts:75-123 | a user who does not own a letter gets 403 from get, update and delete, sees no content, and the table is unchanged |

## Left out

- The ORM, Google's OAuth2, Docs and Drive clients, and `jsonwebtoken`. These are foreign libraries. Each call appears only as an outcome parameter (`Result`, `RefreshOutcome`, `CreateOutcome`, `BatchOutcome`) or an opaque function (`sign`, `verify`).
- Session-token expiry. `SessionTokens.JwtLaws` describes verification at the moment a token is issued, so the one-hour `expiresIn` the callback signs with (auth.controller.ts:113-117), after which `verify` rejects the token, is left out.
- The `googleAuth` handler. It only returns the consent URL produced by the OAuth library.
- Store failures. The store is assumed to be available, so these answers are not modelled:
  - the outer 500 of each letter handler;
  - the 400 of `getCurrentUser`;
  - the 401 of `googleCallback`, whose single catch also answers store failures;
  - in the export, a failed write of `googleDocId`, which the inner catch classifies like a Google error;
  - in the export, a failed write-back of refreshed tokens (letter.controller.ts:212-219), which the refresh's catch answers with 401 `expired_token` and a reconnect URL.
- The per-request OAuth2 client that the export builds and configures with `setCredentials`. Only the written-back user row is modelled.
- Console logging, and HTTP plumbing beyond the status and body.
- The Google client id and secret, which are only handed to the OAuth library. The JWT secret defaults are modelled in `SessionTokens`, and the backend and frontend URL defaults are modelled too.
- `AuthController.GoogleCallback` and `AuthMiddleware.AuthenticateToken` take `sign` and `verify` with the secret already applied. The secret itself appears only in `SessionTokens`.
- The `createdAt` and `updatedAt` columns, which the schema maintains.
- Request bodies with missing fields. The ORM's handling of `undefined` in create and update data is not modelled for letters. Title, content and isDraft are always given.
- A verified session payload without a `userId`. Tokens are only issued with one, so the letter handlers take the caller's id as a plain value. `getCurrentUser` does model the missing-id branch.
- The difference between `null` and `undefined` in the token fields returned by Google. Both are `None`, and both keep the column on update.
- Concurrent update/delete races and unsynchronised token refreshes across requests.
- The second database read in the special-id branches of `getLetter` and `saveToGoogleDrive`. Single-request semantics make the two reads agree, so they are one lookup.
- drive.controller.ts, the frontend, the route files and server.ts. These are pass-throughs, UI and bootstrap.
- `LetterController.GetLetters`: the result is a map from id to row, so the order of the ORM's array is not stated.
- `AuthMiddleware.AuthenticateToken`: "next is called exactly once" holds because `Next` is a single outcome. There is no call counter.

## Findings

| source | as written | input that shows it | evidently intended | confidence | as-written member | corrected member |
|---|---|---|---|---|---|---|
| backend/src/controllers/auth.controller.ts:7, backend/src/middleware/auth.middleware.ts:13 | the callback signs with `JWT_SECRET` or else `your-secret-key`, but the guard verifies with `JWT_SECRET` or else `fallback_secret` | JWT_SECRET unset: a sign-in succeeds, its token is sent as `Bearer <token>`, and every protected route answers 403 | one secret with one default for both signing and verification | high (not executed) | `SessionTokens.UnsetSecretLocksOut` | `SessionTokens.SharedSecretAccepts` |
