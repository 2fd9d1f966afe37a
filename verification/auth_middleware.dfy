/** The auth service's request guard: it reads the Authorization header, demands a
    bearer token and lets the request through only when the token validates. The token
    check itself (`utils.ValidateJWT`, accepted when it returns no error and a valid
    token) is a parameter of the model. */
module AuthMiddleware {

  const BearerPrefix := "Bearer "
  const StatusUnauthorized := 401

  const MissingHeaderError := "Authorization header missing"
  const MalformedTokenError := "Malformed token"
  const InvalidTokenError := "Invalid or expired token"

  /** What the guard does with a request: answer with an error status and body and stop
      the chain, or hand the request to the next handler. */
  datatype Outcome = Abort(status: int, error: string) | Next

  /** Go's `strings.TrimPrefix`. */
  function TrimPrefix(s: string, prefix: string): (r: string)
    ensures prefix <= s ==> prefix + r == s
    ensures !(prefix <= s) ==> r == s
  {
    if prefix <= s then s[|prefix|..] else s
  }

  /** The checks of `AuthMiddleware` in order: a missing header, a header without the
      bearer prefix, a token that does not validate. */
  function Authorize(header: string, validateJWT: string -> bool): (o: Outcome)
    ensures o.Abort? ==> o.status == StatusUnauthorized
  {
    if header == "" then Abort(StatusUnauthorized, MissingHeaderError)
    else
      var tokenStr := TrimPrefix(header, BearerPrefix);
      if tokenStr == header then Abort(StatusUnauthorized, MalformedTokenError)
      else if !validateJWT(tokenStr) then Abort(StatusUnauthorized, InvalidTokenError)
      else Next
  }

  /** An empty header is reported as missing, whatever the token check would say. */
  lemma MissingIff(header: string, validateJWT: string -> bool)
    ensures Authorize(header, validateJWT) == Abort(StatusUnauthorized, MissingHeaderError) <==> header == ""
  {
  }

  /** A header is malformed exactly when it is present and does not start with the
      exact, case-sensitive `"Bearer "`; the token check is then not consulted. */
  lemma MalformedIff(header: string, validateJWT: string -> bool)
    ensures Authorize(header, validateJWT) == Abort(StatusUnauthorized, MalformedTokenError)
      <==> header != "" && !(BearerPrefix <= header)
  {
  }

  /** With the prefix, the token checked is the header minus its first seven
      characters, and the outcome is decided by that check alone. */
  lemma BearerHeader(header: string, validateJWT: string -> bool)
    requires BearerPrefix <= header
    ensures Authorize(header, validateJWT) ==
      if validateJWT(header[7..]) then Next else Abort(StatusUnauthorized, InvalidTokenError)
  {
  }

  /** The request proceeds exactly when the header carries the prefix and the rest of
      it validates; otherwise exactly one of the three errors is produced. */
  lemma NextIff(header: string, validateJWT: string -> bool)
    ensures Authorize(header, validateJWT) == Next <==> BearerPrefix <= header && validateJWT(header[7..])
    ensures Authorize(header, validateJWT) != Next ==>
      Authorize(header, validateJWT).error in {MissingHeaderError, MalformedTokenError, InvalidTokenError}
  {
  }

  /** Two token checks that agree on the token give the same outcome. */
  lemma OnlyTokenConsulted(header: string, v1: string -> bool, v2: string -> bool)
    requires BearerPrefix <= header ==> v1(header[7..]) == v2(header[7..])
    ensures Authorize(header, v1) == Authorize(header, v2)
  {
  }

  /** The bare prefix passes the empty token on; a lower-case scheme is malformed. */
  lemma PrefixEdgeCases(validateJWT: string -> bool)
    ensures Authorize("Bearer ", validateJWT) == if validateJWT("") then Next else Abort(StatusUnauthorized, InvalidTokenError)
    ensures Authorize("bearer abc", validateJWT) == Abort(StatusUnauthorized, MalformedTokenError)
  {
    BearerHeader("Bearer ", validateJWT);
    assert "Bearer "[7..] == "";
    MalformedIff("bearer abc", validateJWT);
    assert "bearer abc"[0] != BearerPrefix[0];
  }
}
