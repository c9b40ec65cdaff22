/** The server's identity resolution (`authenticateToken`): every request
    goes on to its handler with a user, either the one its bearer token names
    or, in every other case, a fixed development identity. The middleware
    never rejects a request, so it is modelled as a total function from the
    `Authorization` header and the token verifier to the user it attaches. */
module AuthMiddleware {
  import opened Base

  const MockUserId: string := "mock-user-id"
  const MockToken: string := "mock-token"

  /** The identity attached when there is no usable token. */
  const MockUser: Identity := Identity(MockUserId, "test@example.com", "Test User")

  /** `authHeader && authHeader.split(' ')[1]`: the second space-separated
      piece of a non-empty header; None when the header is absent or empty
      or has no space. */
  function HeaderToken(header: Option<string>): (token: Option<string>)
    ensures token.Some? ==> Truthy(header) && ' ' in header.value
  {
    if !Truthy(header) then None
    else
      var pieces := Split(header.value, ' ');
      if |pieces| >= 2 then
        assert ' ' in header.value by {
          if ' ' !in header.value { SplitNoSep(header.value, ' '); }
        }
        Some(pieces[1])
      else None
  }

  /** The user the middleware attaches: the mock identity when the token is
      missing, empty or the development token, or when the verifier rejects
      it; otherwise the verifier's claims. */
  function Authenticate(header: Option<string>, verify: string -> Option<Identity>): (user: Identity)
    ensures user == MockUser || (HeaderToken(header).Some? && verify(HeaderToken(header).value) == Some(user))
  {
    var token := HeaderToken(header);
    if !Truthy(token) || token.value == MockToken then MockUser
    else
      match verify(token.value)
      case Some(claims) => claims
      case None => MockUser
  }

  /** `Bearer <token>` yields the token, when the token holds no space. */
  lemma BearerHeaderToken(token: string)
    requires ' ' !in token
    ensures HeaderToken(Some("Bearer " + token)) == Some(token)
  {
    var h := "Bearer " + token;
    assert h == "Bearer" + [' '] + token;
    SplitAtFirst("Bearer", ' ', token);
    SplitNoSep(token, ' ');
  }

  /** A missing header, an empty or missing token and the development token
      all resolve to the mock identity, whatever the verifier says. */
  lemma MockAccess(header: Option<string>, verify: string -> Option<Identity>)
    requires HeaderToken(header).None? || HeaderToken(header) == Some("") || HeaderToken(header) == Some(MockToken)
    ensures Authenticate(header, verify) == MockUser
  {
  }

  /** A real token the verifier accepts resolves to its claims; one it
      rejects falls back to the mock identity. */
  lemma VerifiedAccess(header: Option<string>, verify: string -> Option<Identity>)
    requires HeaderToken(header).Some?
    requires HeaderToken(header).value != "" && HeaderToken(header).value != MockToken
    ensures verify(HeaderToken(header).value).Some? ==>
      Authenticate(header, verify) == verify(HeaderToken(header).value).value
    ensures verify(HeaderToken(header).value).None? ==> Authenticate(header, verify) == MockUser
  {
  }
}
