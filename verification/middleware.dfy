/** middleware/auth_middleware.go: the bearer-token gate in front of every
    protected route. JWT parsing and signature checking belong to a library
    and are the `verify` parameter (it also reads the clock). The request
    context is a map from keys to values; the gate either rejects, panics on
    a header too short to slice, or calls `next` once with the context
    extended by the token's `username` claim. The header value is a Go
    string of bytes. */
module Middleware {
  import opened Common
  import opened Http

  /** A token's claims as JSON members: `username` is the member that
      middleware.Claims adds (absent from tokens that do not set it); the
      others are jwt.StandardClaims' `sub`, `iat` and `exp` in Unix seconds. */
  datatype Payload = Payload(username: Option<string>, subject: string, issuedAt: int, expiresAt: int)

  /** What jwt.ParseWithClaims gives back: an error, or a token with its
      Valid flag and the claims decoded from it. */
  datatype Parsed = ParseError(error: Error) | Token(valid: bool, claims: Payload)

  type Context = map<string, string>

  const UsernameKey: string := "username"

  /** The gate slices off this many bytes, meant to be "Bearer ". */
  const PrefixLength: nat := 7

  /** middleware.Claims.Username once decoded: the member's value, or the
      empty string when the token has no such member. */
  function ClaimsUsername(p: Payload): string
  {
    match p.username
    case Some(u) => u
    case None => ""
  }

  /** What the gate does with a request: answer 401, panic, or pass it on
      with a derived context. */
  datatype Decision = Reject | Crash | Forward(context: Context)

  /** The decision for the value of the Authorization header (`Header.Get`
      gives "" when it is absent). The header is a Go string, so its length
      and the cut are in bytes. */
  function Authenticate(header: Bytes, ctx: Context, verify: Bytes -> Parsed): (d: Decision)
    ensures header == "" ==> d == Reject
    ensures header != "" && |header| < PrefixLength ==> d == Crash
    ensures |header| >= PrefixLength ==>
              (d.Forward? <==> verify(header[PrefixLength..]).Token? && verify(header[PrefixLength..]).valid)
    ensures |header| >= PrefixLength && !d.Forward? ==> d == Reject
    ensures d.Forward? ==>
              UsernameKey in d.context
              && d.context[UsernameKey] == ClaimsUsername(verify(header[PrefixLength..]).claims)
    ensures d.Forward? ==>
              d.context.Keys == ctx.Keys + {UsernameKey}
              && forall k :: k in ctx && k != UsernameKey ==> d.context[k] == ctx[k]
  {
    if header == "" then Reject
    else if |header| < PrefixLength then Crash
    else
      match verify(header[PrefixLength..])
      case ParseError(_) => Reject
      case Token(valid, claims) =>
        if !valid then Reject else Forward(ctx[UsernameKey := ClaimsUsername(claims)])
  }

  /** middleware.AuthMiddleware(next), served one request: a rejected request
      gets 401 "Unauthorized" from `http.Error`, a short header gets no
      response, and `next` is called only on the Forward path, with the
      derived context. */
  function AuthMiddleware(next: Context -> seq<Action>, header: Bytes, ctx: Context,
                          verify: Bytes -> Parsed): (r: seq<Action>)
    ensures Authenticate(header, ctx, verify) == Reject ==>
              Deliver(r) == Response(StatusUnauthorized, ErrorHeader, [Text("Unauthorized\n")])
    ensures Authenticate(header, ctx, verify) == Crash ==> Deliver(r) == Aborted
    ensures Authenticate(header, ctx, verify).Forward? ==> r == next(Authenticate(header, ctx, verify).context)
  {
    match Authenticate(header, ctx, verify)
    case Reject =>
      ErrorFirst("Unauthorized", StatusUnauthorized, []);
      assert HttpError("Unauthorized", StatusUnauthorized) + [] == HttpError("Unauthorized", StatusUnauthorized);
      assert "Unauthorized" + "\n" == "Unauthorized\n";
      HttpError("Unauthorized", StatusUnauthorized)
    case Crash =>
      PanicAborts([], []);
      assert [] + [Panic] + [] == [Panic];
      [Panic]
    case Forward(derived) => next(derived)
  }

  /** Without a valid token the wrapped handler plays no part: the answer is
      the same whatever `next` is. */
  lemma RejectedRequestsNeverReachNext(header: Bytes, ctx: Context, verify: Bytes -> Parsed,
                                        next1: Context -> seq<Action>, next2: Context -> seq<Action>)
    requires header == ""
             || (|header| >= PrefixLength
                 && !(verify(header[PrefixLength..]).Token? && verify(header[PrefixLength..]).valid))
    ensures AuthMiddleware(next1, header, ctx, verify) == AuthMiddleware(next2, header, ctx, verify)
    ensures Deliver(AuthMiddleware(next1, header, ctx, verify))
            == Response(StatusUnauthorized, ErrorHeader, [Text("Unauthorized\n")])
  {
  }

  /** The concatenation of two byte strings is a byte string. */
  lemma BytesConcat(a: Bytes, b: Bytes)
    ensures IsBytes(a + b)
  {
    assert forall i :: 0 <= i < |a + b| ==> (a + b)[i] == if i < |a| then a[i] else b[i - |a|];
  }

  /** The first seven bytes are dropped unread: any seven bytes in place of
      "Bearer " give the same decision. */
  lemma PrefixNotChecked(prefix: Bytes, token: Bytes, ctx: Context, verify: Bytes -> Parsed)
    requires |prefix| == PrefixLength
    ensures IsBytes(prefix + token) && IsBytes("Bearer " + token)
    ensures Authenticate(prefix + token, ctx, verify) == Authenticate("Bearer " + token, ctx, verify)
  {
    BytesConcat(prefix, token);
    BytesConcat("Bearer ", token);
    assert (prefix + token)[PrefixLength..] == token;
    assert ("Bearer " + token)[PrefixLength..] == token;
  }

  /** The signing library's promise, as an assumption on its two halves: a
      token it signs verifies, with the same claims, while it is neither
      expired nor issued in the future. */
  ghost predicate SoundCodec(sign: Payload -> Result<Bytes>, verify: Bytes -> Parsed, now: int)
  {
    forall p :: sign(p).Ok? && p.issuedAt <= now < p.expiresAt ==> verify(sign(p).value) == Token(true, p)
  }
}
