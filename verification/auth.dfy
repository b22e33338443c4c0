/**
 * The token front-end: building the claims of an issued token, and turning an
 * `Authorization` header into verified claims. HMAC signing, token parsing
 * and the expiry check belong to the JWT library and reach the model as the
 * function values `Signer` and `Verifier`.
 */
module Auth {

  import opened Wrappers
  import opened Ids
  import opened Models
  import Strings

  const Second: int := 1_000_000_000

  /** `24 * time.Hour`. */
  const TokenLifetime: int := 24 * 3600 * Second

  /** The token payload: the subject's id text and username plus the registered expiry and issue times. */
  datatype Claims = Claims(userId: string, username: string, expiresAt: Option<Time>, issuedAt: Option<Time>)

  /** What `jwt.ParseWithClaims` yields: an error, or a token with its validity flag and decoded claims. */
  datatype Parsed = ParseFailed(reason: string) | ParsedToken(valid: bool, claims: Claims)

  type Verifier = string -> Parsed

  /** `token.SignedString(key)`: the signed token text, or None when signing fails. */
  type Signer = Claims -> Option<string>

  datatype AuthError = SignatureInvalid | ParseError(reason: string)

  /** `jwt.NewNumericDate`: the instant truncated down to a whole second. */
  function NumericDate(t: Time): (d: Time)
    ensures d % Second == 0
    ensures d <= t < d + Second
  {
    t - t % Second
  }

  /**
   * The claims GenerateToken signs. The clock is read twice: `expClock` for
   * the expiry, then `issueClock` for the issue time.
   */
  function NewClaims(user: User, expClock: Time, issueClock: Time): (c: Claims)
    ensures c.username == user.username
    ensures c.userId == UuidString(user.id)
    ensures c.issuedAt == Some(NumericDate(issueClock))
    ensures c.expiresAt == Some(NumericDate(expClock + TokenLifetime))
    ensures c.issuedAt.value <= issueClock < c.issuedAt.value + Second
    ensures c.expiresAt.value <= expClock + TokenLifetime < c.expiresAt.value + Second
    ensures |c.userId| == 36
    ensures forall i :: 0 <= i < 36 && !IsDashPosition(i) ==> IsHexDigit(c.userId[i])
    ensures UuidValue(c.userId) == user.id as nat
    ensures c.expiresAt.Some? && c.issuedAt.Some?
    ensures expClock <= issueClock ==> c.expiresAt.value <= c.issuedAt.value + TokenLifetime
    ensures expClock <= issueClock ==>
              (c.expiresAt.value == c.issuedAt.value + TokenLifetime <==> expClock / Second == issueClock / Second)
    ensures expClock == issueClock ==> c.expiresAt.value == c.issuedAt.value + TokenLifetime
  {
    UuidStringRoundTrip(user.id);
    Claims(UuidString(user.id), user.username, Some(NumericDate(expClock + TokenLifetime)), Some(NumericDate(issueClock)))
  }

  /** GenerateToken: sign the claims issued for `user`. */
  function GenerateToken(user: User, expClock: Time, issueClock: Time, sign: Signer): Option<string> {
    sign(NewClaims(user, expClock, issueClock))
  }

  /** The prefix an accepted header starts with. */
  const BearerPrefix: string := "Bearer "

  /**
   * The token text of an `Authorization` header: the header must split on
   * single spaces into exactly the two pieces "Bearer" and the token.
   */
  function BearerToken(header: string): (r: Option<string>)
    ensures header == "" ==> r.None?
    ensures r.Some? <==> (|header| >= 7 && header[..7] == BearerPrefix && ' ' !in header[7..])
    ensures r.Some? ==> r.value == header[7..]
  {
    BearerSplit(header);
    if header == "" then None
    else
      var parts := Strings.Split(header, ' ');
      if |parts| != 2 || parts[0] != "Bearer" then None else Some(parts[1])
  }

  /** A header splits into "Bearer" and one more piece iff it is the prefix followed by a space-free token. */
  lemma BearerSplit(header: string)
    ensures var parts := Strings.Split(header, ' ');
            (|parts| == 2 && parts[0] == "Bearer") <==> (|header| >= 7 && header[..7] == BearerPrefix && ' ' !in header[7..])
    ensures var parts := Strings.Split(header, ' ');
            |parts| == 2 && parts[0] == "Bearer" ==> parts[1] == header[7..]
  {
    var parts := Strings.Split(header, ' ');
    if |parts| == 2 && parts[0] == "Bearer" {
      BearerPieces(header, parts[1]);
    }
    if |header| >= 7 && header[..7] == BearerPrefix && ' ' !in header[7..] {
      assert header == BearerPrefix + header[7..];
      BearerHeader(header[7..]);
    }
  }

  lemma BearerPieces(header: string, token: string)
    requires Strings.Split(header, ' ') == ["Bearer", token]
    ensures |header| >= 7 && header[..7] == BearerPrefix && header[7..] == token && ' ' !in token
  {
  }

  lemma BearerHeader(token: string)
    requires ' ' !in token
    ensures Strings.Split(BearerPrefix + token, ' ') == ["Bearer", token]
  {
    assert Strings.Join(["Bearer", token], ' ') == BearerPrefix + token;
    Strings.SplitJoin(["Bearer", token], ' ');
  }

  /** ValidateToken: the claims of a well-formed header whose token the verifier accepts. */
  function ValidateToken(header: string, verify: Verifier): (r: Result<Claims, AuthError>)
    ensures header == "" ==> r == Failure(SignatureInvalid)
    ensures !(|header| >= 7 && header[..7] == BearerPrefix && ' ' !in header[7..]) ==> r == Failure(SignatureInvalid)
    ensures |header| >= 7 && header[..7] == BearerPrefix && ' ' !in header[7..] ==>
              match verify(header[7..])
              case ParseFailed(reason) => r == Failure(ParseError(reason))
              case ParsedToken(valid, claims) => r == if valid then Success(claims) else Failure(SignatureInvalid)
  {
    match BearerToken(header)
    case None => Failure(SignatureInvalid)
    case Some(token) =>
      match verify(token)
      case ParseFailed(reason) => Failure(ParseError(reason))
      case ParsedToken(valid, claims) => if !valid then Failure(SignatureInvalid) else Success(claims)
  }

  /** Headers that differ from "Bearer <token>" in case, in spacing or in the number of pieces never reach the verifier. */
  lemma MalformedHeadersRejected(verify: Verifier)
    ensures ValidateToken("bearer x", verify) == Failure(SignatureInvalid)
    ensures ValidateToken("Bearer", verify) == Failure(SignatureInvalid)
    ensures ValidateToken("Bearer a b", verify) == Failure(SignatureInvalid)
    ensures ValidateToken("Bearer  x", verify) == Failure(SignatureInvalid)
  {
    assert "bearer x"[..7] != BearerPrefix by { assert "bearer x"[0] == 'b'; }
    assert "Bearer a b"[7..][1] == ' ';
    assert "Bearer  x"[7..][0] == ' ';
  }

  /** Any space-free token behind the prefix reaches the verifier unchanged, and its verdict decides the answer. */
  lemma WellFormedHeaderReachesVerifier(token: string, verify: Verifier)
    requires ' ' !in token
    ensures ValidateToken(BearerPrefix + token, verify) ==
              match verify(token)
              case ParseFailed(reason) => Failure(ParseError(reason))
              case ParsedToken(valid, claims) => if valid then Success(claims) else Failure(SignatureInvalid)
  {
  }
}
