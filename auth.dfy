/** The Google sign-in handlers: the OAuth callback that finds or creates the
    user by email, the current-user lookup, and the reset of the shared OAuth
    client. Google's token exchange, profile lookup and revocation are given as
    their outcomes; token signing is the function `sign`. */
module AuthController {
  import opened Wrappers
  import opened Strings
  import opened Store

  /** The process-wide Google OAuth client; only its credentials change. */
  class OAuthClient {
    var credentials: Tokens

    constructor ()
      ensures credentials == NoTokens
    {
      credentials := NoTokens;
    }
  }

  /** The Google profile (`userinfo.get`); an absent member is `None`. */
  datatype Profile = Profile(id: Option<string>, email: Option<string>, name: Option<string>)

  datatype CallbackResponse =
    | BadRequest(message: string)                                      // 400
    | AuthFailed(message: string)                                      // 401
    | AuthJson(id: UserId, email: string, name: string, token: string) // 200, { user, token }
    | RedirectTo(url: string)                                          // 302

  datatype MeResponse =
    | Unauthenticated                                  // 401
    | UserNotFound                                     // 404
    | Me(id: UserId, email: string, name: string)      // 200

  datatype ResetResponse =
    | ResetFailed(message: string)   // 500
    | ResetDone                      // 200, { message: 'OAuth state reset successfully' }
    | RedirectToConsent(url: string) // 302

  /** `req.query.code || req.body.code`. */
  function ChooseCode(queryCode: Option<string>, bodyCode: Option<string>): (code: Option<string>)
    ensures Truthy(code) <==> Truthy(queryCode) || Truthy(bodyCode)
    ensures Truthy(queryCode) ==> code == queryCode
    ensures Truthy(code) && !Truthy(queryCode) ==> code == bodyCode
  {
    if Truthy(queryCode) then queryCode else bodyCode
  }

  /** `email.split('@')[0]`: the text before the first '@'. */
  function LocalPart(email: string): (local: string)
    ensures local <= email
    ensures '@' !in local
    ensures |local| < |email| ==> email[|local|] == '@'
  {
    FirstFieldIsPrefix(email, '@');
    Split(email, '@')[0]
  }

  /** The name given to a new user: the profile name, or else the local part of the email. */
  function DefaultName(p: Profile, email: string): string {
    if Truthy(p.name) then p.name.value else LocalPart(email)
  }

  /** `data.id ? data.id.toString() : ''`. */
  function GoogleIdOf(p: Profile): string
  {
    if Truthy(p.id) then p.id.value else ""
  }

  /** The row created on a first sign-in. */
  function NewUser(p: Profile, email: string, t: Tokens): (u: User)
    ensures u.email == email && u.googleId == GoogleIdOf(p)
    ensures Truthy(p.name) ==> u.name == p.name.value
    ensures !Truthy(p.name) ==> u.name == LocalPart(email)
    ensures u.accessToken == t.accessToken && u.refreshToken == t.refreshToken
    ensures u.tokenExpiry == if HasExpiry(t.expiryDate) then t.expiryDate else None
  {
    WithTokens(User(email, DefaultName(p, email), GoogleIdOf(p), None, None, None), t)
  }

  /** The row after a later sign-in: a user without a Google id gets one and
      the tokens; a user with one gets only the tokens. Email and name stay. */
  function ReturningUser(u: User, p: Profile, t: Tokens): (v: User)
    ensures v.email == u.email && v.name == u.name
    ensures u.googleId != "" ==> v.googleId == u.googleId
    ensures u.googleId == "" ==> v.googleId == GoogleIdOf(p)
    ensures v.accessToken == WithTokens(u, t).accessToken && v.refreshToken == WithTokens(u, t).refreshToken
    ensures v.tokenExpiry == WithTokens(u, t).tokenExpiry
  {
    if u.googleId == "" then WithTokens(u.(googleId := GoogleIdOf(p)), t) else WithTokens(u, t)
  }

  /** The request asks for JSON: its Accept header includes `application/json`. */
  predicate AcceptsJson(accept: Option<string>) {
    accept.Some? && Includes(accept.value, "application/json")
  }

  /** The frontend's base URL: the configured one, or the development default. */
  function FrontendUrl(configured: Option<string>): string
  {
    if Truthy(configured) then configured.value else "http://localhost:3000"
  }

  /** The answer to a successful sign-in of row `uid`: JSON with the user's
      id, email and name and a session token, or a redirect carrying the token. */
  function SignedIn(uid: UserId, u: User, accept: Option<string>, sign: (UserId, string) -> string,
                    frontendUrl: Option<string>): CallbackResponse
  {
    var token := sign(uid, u.email);
    if AcceptsJson(accept) then AuthJson(uid, u.email, u.name, token)
    else RedirectTo(FrontendUrl(frontendUrl) + "/auth/google/callback?token=" + token)
  }

  /** An Accept header that lists `application/json` among other media
      types, in any position, gets the JSON answer rather than the redirect. */
  lemma JsonAmongOtherTypes(uid: UserId, u: User, before: string, after: string,
                            sign: (UserId, string) -> string, frontendUrl: Option<string>)
    ensures SignedIn(uid, u, Some(before + "application/json" + after), sign, frontendUrl) ==
            AuthJson(uid, u.email, u.name, sign(uid, u.email))
  {
    IncludesInside(before, "application/json", after);
  }

  /** No row has this email. */
  predicate NoUserWith(users: map<UserId, User>, email: string) {
    forall uid :: uid in users ==> users[uid].email != email
  }

  /** GET|POST /api/auth/google/callback. `newId` is the id the store would
      give a created row. */
  method GoogleCallback(db: Database, client: OAuthClient, queryCode: Option<string>, bodyCode: Option<string>,
                        exchange: Result<Tokens>, profile: Result<Profile>, accept: Option<string>,
                        sign: (UserId, string) -> string, frontendUrl: Option<string>, newId: UserId)
    returns (r: CallbackResponse)
    requires db.Valid() && newId !in db.users
    modifies db, client
    ensures db.Valid()
    ensures db.letters == old(db.letters)
    // no code: nothing is asked of Google and nothing changes
    ensures !Truthy(queryCode) && !Truthy(bodyCode) ==>
              r == BadRequest("Authorization code is required") &&
              db.users == old(db.users) && client.credentials == old(client.credentials)
    ensures (Truthy(queryCode) || Truthy(bodyCode)) && exchange.Failure? ==>
              r == AuthFailed(exchange.message) &&
              db.users == old(db.users) && client.credentials == old(client.credentials)
    // the exchanged tokens become the shared client's credentials
    ensures (Truthy(queryCode) || Truthy(bodyCode)) && exchange.Success? ==> client.credentials == exchange.value
    ensures (Truthy(queryCode) || Truthy(bodyCode)) && exchange.Success? && profile.Failure? ==>
              r == AuthFailed(profile.message) && db.users == old(db.users)
    ensures (Truthy(queryCode) || Truthy(bodyCode)) && exchange.Success? && profile.Success? &&
            !Truthy(profile.value.email) ==>
              r == BadRequest("Email not provided by Google") && db.users == old(db.users)
    // sign-in: create the row when no row has the email, otherwise update that row
    ensures (Truthy(queryCode) || Truthy(bodyCode)) && exchange.Success? && profile.Success? &&
            Truthy(profile.value.email) && NoUserWith(old(db.users), profile.value.email.value) ==>
              db.users == old(db.users)[newId := NewUser(profile.value, profile.value.email.value, exchange.value)] &&
              r == SignedIn(newId, db.users[newId], accept, sign, frontendUrl)
    ensures (Truthy(queryCode) || Truthy(bodyCode)) && exchange.Success? && profile.Success? &&
            Truthy(profile.value.email) ==>
              forall uid :: uid in old(db.users) && old(db.users)[uid].email == profile.value.email.value ==>
                db.users == old(db.users)[uid := ReturningUser(old(db.users)[uid], profile.value, exchange.value)] &&
                r == SignedIn(uid, db.users[uid], accept, sign, frontendUrl)
    // afterwards exactly one row has the email
    ensures r.AuthJson? || r.RedirectTo? ==>
              profile.Success? && Truthy(profile.value.email) &&
              exists uid :: uid in db.users && db.users[uid].email == profile.value.email.value
  {
    var code := ChooseCode(queryCode, bodyCode);
    if !Truthy(code) {
      r := BadRequest("Authorization code is required");
      return;
    }
    if exchange.Failure? {
      r := AuthFailed(exchange.message);
      return;
    }
    var tokens := exchange.value;
    client.credentials := tokens;
    if profile.Failure? {
      r := AuthFailed(profile.message);
      return;
    }
    var data := profile.value;
    if !Truthy(data.email) {
      r := BadRequest("Email not provided by Google");
      return;
    }
    var email := data.email.value;
    var existing := set uid | uid in db.users && db.users[uid].email == email;
    var uid: UserId;
    ghost var before := db.users;
    if existing == {} {
      uid := newId;
      db.users := db.users[newId := NewUser(data, email, tokens)];
      forall other | other in before ensures before[other].email != email {
        assert other !in existing;
      }
    } else {
      uid :| uid in existing;
      db.users := db.users[uid := ReturningUser(db.users[uid], data, tokens)];
      assert forall other :: other in before && before[other].email == email ==> other == uid;
    }
    r := SignedIn(uid, db.users[uid], accept, sign, frontendUrl);
  }

  /** GET /api/auth/me: 401 without a user id, 404 for an unknown one,
      otherwise only the id, email and name of the row. */
  method GetCurrentUser(db: Database, userId: Option<UserId>) returns (r: MeResponse)
    ensures !Truthy(userId) ==> r == Unauthenticated
    ensures Truthy(userId) && userId.value !in db.users ==> r == UserNotFound
    ensures r.Me? <==> Truthy(userId) && userId.value in db.users
    ensures r.Me? ==> r.id == userId.value && r.email == db.users[r.id].email && r.name == db.users[r.id].name
  {
    if !Truthy(userId) {
      r := Unauthenticated;
      return;
    }
    if userId.value !in db.users {
      r := UserNotFound;
      return;
    }
    var user := db.users[userId.value];
    r := Me(userId.value, user.email, user.name);
  }

  /** GET /api/auth/reset: revokes the client's access token if it holds one,
      clears its credentials, then redirects to the consent page when
      `returnTo` is `login`. A failed revocation answers 500 before the
      credentials are cleared. `revoked` is the token sent for revocation. */
  method ResetOAuth(client: OAuthClient, returnTo: Option<string>, revoke: Result<()>, authUrl: string)
    returns (r: ResetResponse, revoked: Option<string>)
    modifies client
    ensures revoked == if Truthy(old(client.credentials).accessToken) then old(client.credentials).accessToken else None
    ensures revoked.Some? && revoke.Failure? ==>
              r == ResetFailed(revoke.message) && client.credentials == old(client.credentials)
    ensures !(revoked.Some? && revoke.Failure?) ==>
              client.credentials == NoTokens &&
              r == if returnTo == Some("login") then RedirectToConsent(authUrl) else ResetDone
  {
    revoked := None;
    if Truthy(client.credentials.accessToken) {
      revoked := client.credentials.accessToken;
      if revoke.Failure? {
        r := ResetFailed(revoke.message);
        return;
      }
    }
    client.credentials := NoTokens;
    if returnTo == Some("login") {
      r := RedirectToConsent(authUrl);
    } else {
      r := ResetDone;
    }
  }
}
