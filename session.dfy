/** The session token: the callback signs the claims `{ userId, email }` with a
    secret, and the guard verifies a bearer token with a secret. The JWT
    library is abstract; `JwtLaws` describes it at the instant a token is
    issued: a compact token is non-empty and has no spaces, and a freshly
    issued token verifies, yielding its claims, exactly under the secret that
    signed it. The one-hour `expiresIn` the callback passes is not modelled:
    the laws say nothing about verifying a token later, when the library
    rejects an expired one. The secret law is an
    idealisation of HMAC signing: HMAC pads short keys with zero bytes and
    hashes long ones, so two distinct secrets can be equivalent keys. The
    lock-out lemma below only compares the two built-in defaults, which differ in
    their first character and have the same length. */
module SessionTokens {
  import opened Wrappers
  import opened Strings
  import opened Store
  import opened AuthMiddleware

  datatype Claims = Claims(userId: UserId, email: string)

  /** `jwt.sign(claims, secret)`, written with the secret first. */
  type Signer = (string, Claims) -> string

  /** `jwt.verify(token, secret)`: the claims, or `None` when it throws. */
  type Verifier = (string, string) -> Option<Claims>

  /** The library's behaviour on a token verified at the moment it is issued. */
  ghost predicate JwtLaws(sign: Signer, verify: Verifier) {
    (forall secret, c :: sign(secret, c) != "" && ' ' !in sign(secret, c)) &&
    (forall secret, c :: verify(sign(secret, c), secret) == Some(c)) &&
    (forall secret, other, c :: secret != other ==> verify(sign(secret, c), other) == None)
  }

  /** The secret the callback signs with: JWT_SECRET, or its own default. */
  function SigningSecret(env: Option<string>): string {
    if Truthy(env) then env.value else "your-secret-key"
  }

  /** The secret the guard verifies with: JWT_SECRET, or a different default. */
  function VerifyingSecret(env: Option<string>): string {
    if Truthy(env) then env.value else "fallback_secret"
  }

  /** The guard's verification step with its secret fixed. */
  function CheckedWith(verify: Verifier, secret: string): string -> Option<Claims> {
    t => verify(t, secret)
  }

  /** The guard's decision on a freshly issued token sent as `Bearer <token>`,
      when the signer uses `signWith` and the guard `verifyWith`. */
  function GuardOnIssued(sign: Signer, verify: Verifier, signWith: string, verifyWith: string, c: Claims)
    : AuthDecision<Claims>
  {
    AuthenticateToken(Some("Bearer " + sign(signWith, c)), CheckedWith(verify, verifyWith))
  }

  /** A token signed under one secret and checked under another is refused,
      and one checked under the same secret passes with its claims. */
  lemma {:induction false} GuardOnIssuedSecrets(sign: Signer, verify: Verifier, signWith: string, verifyWith: string, c: Claims)
    requires JwtLaws(sign, verify)
    ensures signWith == verifyWith ==> GuardOnIssued(sign, verify, signWith, verifyWith, c) == Next(c)
    ensures signWith != verifyWith ==> GuardOnIssued(sign, verify, signWith, verifyWith, c) == Forbidden
  {
    var token := sign(signWith, c);
    assert token != "" && ' ' !in token;
    assert "Bearer" + " " + token + "" == "Bearer " + token;
    AuthenticateBearer("Bearer", token, "", CheckedWith(verify, verifyWith));
    assert CheckedWith(verify, verifyWith)(token) == verify(token, verifyWith);
    if signWith == verifyWith {
      assert verify(token, verifyWith) == Some(c);
    } else {
      assert verify(token, verifyWith) == None;
    }
  }

  /** As written: with JWT_SECRET unset the two defaults differ, so no token
      the callback issues is accepted and every protected route answers 403. */
  lemma UnsetSecretLocksOut(sign: Signer, verify: Verifier, c: Claims)
    requires JwtLaws(sign, verify)
    ensures GuardOnIssued(sign, verify, SigningSecret(None), VerifyingSecret(None), c) == Forbidden
  {
    assert SigningSecret(None)[0] != VerifyingSecret(None)[0];
    GuardOnIssuedSecrets(sign, verify, SigningSecret(None), VerifyingSecret(None), c);
  }

  /** The one secret both sides should use: JWT_SECRET, or a single default. */
  function SharedSecret(env: Option<string>): (secret: string)
    ensures Truthy(env) ==> secret == SigningSecret(env) && secret == VerifyingSecret(env)
  {
    if Truthy(env) then env.value else "your-secret-key"
  }

  /** Corrected: with one shared secret, set or not, a freshly issued token
      is accepted and the request carries exactly the signed claims. */
  lemma SharedSecretAccepts(sign: Signer, verify: Verifier, env: Option<string>, c: Claims)
    requires JwtLaws(sign, verify)
    ensures GuardOnIssued(sign, verify, SharedSecret(env), SharedSecret(env), c) == Next(c)
  {
    GuardOnIssuedSecrets(sign, verify, SharedSecret(env), SharedSecret(env), c);
  }
}
