/** The two tables of the relational store (letters and users) as one
    object whose fields the controllers update in place. */
module Store {
  import opened Wrappers
  import opened Strings

  type LetterId = string
  type UserId = string

  /** A letter row: its owner is `userId`; `googleDocId` is set by an export. */
  datatype Letter = Letter(
    title: string,
    content: string,
    isDraft: bool,
    userId: UserId,
    googleDocId: Option<string>)

  /** A user row. `googleId` is the text of the Google profile id ("" when
      the profile carried none); the last three columns hold the Google
      OAuth tokens, the expiry as a timestamp in milliseconds. */
  datatype User = User(
    email: string,
    name: string,
    googleId: string,
    accessToken: Option<string>,
    refreshToken: Option<string>,
    tokenExpiry: Option<int>)

  /** The credentials Google's OAuth client hands out (`access_token`,
      `refresh_token`, `expiry_date`); an absent member is `None`. */
  datatype Tokens = Tokens(
    accessToken: Option<string>,
    refreshToken: Option<string>,
    expiryDate: Option<int>)

  /** The empty credentials object `{}`. */
  const NoTokens := Tokens(None, None, None)

  /** JavaScript truthiness of an `expiry_date` number: present and not 0. */
  predicate HasExpiry(expiry: Option<int>) {
    expiry.Some? && expiry.value != 0
  }

  /** A column written with a value that may be `undefined`: the store leaves
      the column as it was when the value is `undefined`. */
  function Overwrite<T>(column: Option<T>, value: Option<T>): Option<T>
  {
    if value.Some? then value else column
  }

  /** The update of the three token columns shared by every login: each
      token Google returned replaces the stored one, and the expiry is
      written only when Google gave a non-zero one. */
  function WithTokens(u: User, t: Tokens): (v: User)
    ensures v.email == u.email && v.name == u.name && v.googleId == u.googleId
    ensures t.accessToken.Some? ==> v.accessToken == t.accessToken
    ensures t.accessToken.None? ==> v.accessToken == u.accessToken
    ensures t.refreshToken.Some? ==> v.refreshToken == t.refreshToken
    ensures t.refreshToken.None? ==> v.refreshToken == u.refreshToken
    ensures HasExpiry(t.expiryDate) ==> v.tokenExpiry == t.expiryDate
    ensures !HasExpiry(t.expiryDate) ==> v.tokenExpiry == u.tokenExpiry
  {
    u.(accessToken := Overwrite(u.accessToken, t.accessToken),
       refreshToken := Overwrite(u.refreshToken, t.refreshToken),
       tokenExpiry := if HasExpiry(t.expiryDate) then t.expiryDate else u.tokenExpiry)
  }

  /** The store: one map per table, keyed by the row id. */
  class Database {
    var letters: map<LetterId, Letter>
    var users: map<UserId, User>

    /** The `email` column of users is unique. */
    ghost predicate Valid()
      reads this
    {
      forall a, b :: a in users && b in users && users[a].email == users[b].email ==> a == b
    }

    constructor ()
      ensures letters == map[] && users == map[]
      ensures Valid()
    {
      letters := map[];
      users := map[];
    }
  }
}
