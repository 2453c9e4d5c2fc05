/** The guard in front of every protected route: take the bearer token from
    the Authorization header and let the request through only if the token
    verifies. Verification of the signed session token is the function
    `verify`, which yields the decoded payload or nothing. */
module AuthMiddleware {
  import opened Wrappers
  import opened Strings

  /** What the guard does: answer 401, answer 403, or call `next` once with
      `req.user` set to the decoded payload. */
  datatype AuthDecision<P> = Unauthorized | Forbidden | Next(user: P)

  /** `authHeader && authHeader.split(' ')[1]`, with a falsy result as `None`. */
  function BearerToken(header: Option<string>): (token: Option<string>)
    ensures token.Some? ==> token.value != "" && ' ' !in token.value
  {
    if header.None? then None
    else
      var fields := Split(header.value, ' ');
      if |fields| >= 2 && fields[1] != "" then Some(fields[1]) else None
  }

  function AuthenticateToken<P>(header: Option<string>, verify: string -> Option<P>): (d: AuthDecision<P>)
    ensures d.Unauthorized? <==> BearerToken(header).None?
    ensures d.Forbidden? <==> BearerToken(header).Some? && verify(BearerToken(header).value).None?
    ensures d.Next? ==> BearerToken(header).Some? && verify(BearerToken(header).value) == Some(d.user)
  {
    var token := BearerToken(header);
    if token.None? then Unauthorized
    else
      match verify(token.value)
      case None => Forbidden
      case Some(user) => Next(user)
  }

  /** `h` reads `scheme`, one space, `token`, then either nothing or more
      text starting with a space. */
  predicate HeaderShape(h: string, scheme: string, token: string, rest: string) {
    ' ' !in scheme && (rest == "" || rest[0] == ' ') && h == scheme + " " + token + rest
  }

  /** The token is the second space-separated field; whatever follows it
      after another space is ignored. */
  lemma {:induction false} TokenAfterScheme(scheme: string, token: string, rest: string)
    requires ' ' !in scheme && ' ' !in token && token != ""
    requires rest == "" || rest[0] == ' '
    ensures BearerToken(Some(scheme + " " + token + rest)) == Some(token)
  {
    var h := scheme + " " + token + rest;
    assert h == scheme + [' '] + (token + rest);
    SplitAfterField(scheme, ' ', token + rest);
    if rest == "" {
      assert token + rest == token;
      SplitWithoutSep(token, ' ');
    } else {
      assert token + rest == token + [' '] + rest[1..];
      SplitAfterField(token, ' ', rest[1..]);
    }
  }

  /** Conversely, a token found in a header is exactly the text between its
      first space and the next space or its end. */
  lemma {:induction false} TokenIsSecondField(h: string)
    requires BearerToken(Some(h)).Some?
    ensures exists scheme, rest :: HeaderShape(h, scheme, BearerToken(Some(h)).value, rest)
  {
    var fields := Split(h, ' ');
    var token := fields[1];
    JoinSplit(h, ' ');
    var rest := if |fields| == 2 then "" else " " + Join(fields[2..], ' ');
    assert fields[1..][1..] == fields[2..];
    assert Join(fields[1..], ' ') == token + rest;
    assert h == fields[0] + " " + token + rest;
    assert HeaderShape(h, fields[0], token, rest);
  }

  /** A header whose second field is empty ("Bearer ", or two spaces in a
      row after the scheme) carries no token. */
  lemma EmptySecondField(scheme: string, rest: string)
    requires ' ' !in scheme
    requires rest == "" || rest[0] == ' '
    ensures BearerToken(Some(scheme + " " + rest)) == None
  {
    assert scheme + " " + rest == scheme + [' '] + rest;
    SplitAfterField(scheme, ' ', rest);
  }

  /** A header without any space carries no token. */
  lemma NoSpaceNoToken(h: string)
    requires ' ' !in h
    ensures BearerToken(Some(h)) == None
  {
    SplitWithoutSep(h, ' ');
  }

  /** A well-formed header reaches verification with its token: the request
      goes on with the decoded payload if the token verifies, and gets 403
      (with no user set) if it does not. */
  lemma AuthenticateBearer<P>(scheme: string, token: string, rest: string, verify: string -> Option<P>)
    requires ' ' !in scheme && ' ' !in token && token != ""
    requires rest == "" || rest[0] == ' '
    ensures AuthenticateToken(Some(scheme + " " + token + rest), verify) ==
            if verify(token).Some? then Next(verify(token).value) else Forbidden
  {
    TokenAfterScheme(scheme, token, rest);
  }

  /** No header, a header without a space, or an empty second field: 401,
      and `next` is not called. */
  lemma AuthenticateWithoutToken<P>(header: Option<string>, verify: string -> Option<P>)
    requires header.None? ||
             ' ' !in header.value ||
             exists scheme, rest :: HeaderShape(header.value, scheme, "", rest)
    ensures AuthenticateToken(header, verify) == Unauthorized
  {
    if header.Some? {
      if ' ' in header.value {
        var scheme, rest :| HeaderShape(header.value, scheme, "", rest);
        assert scheme + " " + "" + rest == scheme + " " + rest;
        EmptySecondField(scheme, rest);
      } else {
        NoSpaceNoToken(header.value);
      }
    }
  }
}
