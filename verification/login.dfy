/** handler/login/login.go: the login endpoint and the claims it has signed.
    The JSON decoding of the body is its outcome (`None` when it fails),
    the two clock readings GenerateToken takes are `t1` (for the expiry) and
    `t2` (for the issue time), and HS256 signing is the `sign` parameter.

    LoginHandler has no `return` after rejecting the credentials, so a
    rejected login still gets a token: the 400 status is fixed first and the
    token follows in the body. The Authorization header it sets last comes
    after the body has been written and is never sent. */
module HandlerLogin {
  import opened Common
  import opened Models
  import opened Http
  import opened Middleware

  /** 24 hours in seconds. */
  const TokenLifetime: int := 86400

  const AdminUser: string := "admin"
  const AdminPassword: string := "admin123"

  predicate ValidCredentials(c: Credentials)
  {
    c.userName == AdminUser && c.password == AdminPassword
  }

  /** The jwt.StandardClaims GenerateToken signs: the user name as subject,
      the second clock reading as issue time, the first plus 24 hours as
      expiry, and no `username` member. */
  function TokenClaims(username: string, t1: int, t2: int): (p: Payload)
    ensures p.subject == username && p.username.None?
    ensures p.issuedAt == t2 && p.expiresAt == t1 + TokenLifetime
    ensures t1 <= t2 ==> p.expiresAt - p.issuedAt <= TokenLifetime
  {
    Payload(None, username, t2, t1 + TokenLifetime)
  }

  /** GenerateToken: the claims, signed; a signing error is passed on. */
  function GenerateToken(username: string, t1: int, t2: int, sign: Payload -> Result<Bytes>): Result<Bytes>
  {
    sign(TokenClaims(username, t1, t2))
  }

  /** What LoginHandler does once GenerateToken has answered. */
  function TokenReply(token: Result<Bytes>): seq<Action>
  {
    match token
    case Err(_) => HttpError("Error generating token", StatusInternalServerError)
    case Ok(t) => [SetHeader(ContentType, ApplicationJson), Write(TokenJson(t)),
                   SetHeader("Authorization", "Bearer " + t)]
  }

  /** The body TokenReply writes. */
  function ReplyBody(token: Result<Bytes>): seq<Body>
  {
    match token
    case Err(_) => [Text("Error generating token\n")]
    case Ok(t) => [TokenJson(t)]
  }

  /** On its own, TokenReply answers 200 with the token as JSON, or 500; the
      Authorization header is set too late to be sent. */
  lemma TokenReplyDelivers(token: Result<Bytes>)
    ensures NoPanic(TokenReply(token))
    ensures Bodies(TokenReply(token)) == ReplyBody(token)
    ensures token.Ok? ==> Deliver(TokenReply(token)) == Response(StatusOK, JsonHeader, ReplyBody(token))
    ensures token.Err? ==> Deliver(TokenReply(token)) == Response(StatusInternalServerError, ErrorHeader, ReplyBody(token))
  {
    var post := TokenReply(token);
    assert "Error generating token" + "\n" == "Error generating token\n";
    match token
    case Ok(t) =>
      var pre := [SetHeader(ContentType, ApplicationJson)];
      var last := [SetHeader("Authorization", "Bearer " + t)];
      assert post == pre + [Write(TokenJson(t))] + last;
      ImplicitOK(pre, TokenJson(t), last);
      assert Headers(map[], pre) == Headers(JsonHeader, pre[1..]);
      assert Bodies(last) == [] + Bodies(last[1..]);
      assert post[1..][1..][1..] == [];
      assert Bodies(post[1..][1..]) == [] + Bodies(post[1..][1..][1..]);
      assert Bodies(post[1..]) == [TokenJson(t)] + Bodies(post[1..][1..]);
    case Err(_) =>
      ErrorFirst("Error generating token", StatusInternalServerError, []);
      assert post + [] == post;
      assert post[1..][1..][1..][1..] == [];
      assert Bodies(post[1..][1..][1..]) == [Text("Error generating token\n")] + Bodies([]);
      assert Bodies(post[1..][1..]) == [] + Bodies(post[1..][1..][1..]);
      assert Bodies(post[1..]) == [] + Bodies(post[1..][1..]);
  }

  /** The calls LoginHandler makes on the ResponseWriter, and what the
      client receives: 400 for an undecodable body; for admin/admin123, 200
      with the token or 500 when signing fails; for any other credentials
      the 400 is fixed first and the handler carries on, so the token (or the
      signing error) still follows in the body. The Authorization header is
      never sent. */
  function LoginHandler(body: Option<Credentials>, t1: int, t2: int,
                        sign: Payload -> Result<Bytes>): (r: seq<Action>)
    ensures body.None? ==>
              Deliver(r) == Response(StatusBadRequest, ErrorHeader, [Text("Invalid request body\n")])
    ensures body.Some? && body.value.userName == "admin" && body.value.password == "admin123" ==>
              var token := sign(TokenClaims(body.value.userName, t1, t2));
              && (token.Ok? ==> Deliver(r) == Response(StatusOK, JsonHeader, [TokenJson(token.value)]))
              && (token.Err? ==>
                    Deliver(r) == Response(StatusInternalServerError, ErrorHeader, [Text("Error generating token\n")]))
    ensures body.Some? && !(body.value.userName == "admin" && body.value.password == "admin123") ==>
              var token := sign(TokenClaims(body.value.userName, t1, t2));
              && (token.Ok? ==>
                    Deliver(r) == Response(StatusBadRequest, ErrorHeader,
                                           [Text("Invalid username or password\n"), TokenJson(token.value)]))
              && (token.Err? ==>
                    Deliver(r) == Response(StatusBadRequest, ErrorHeader,
                                           [Text("Invalid username or password\n"), Text("Error generating token\n")]))
    ensures Deliver(r).Response? && "Authorization" !in Deliver(r).header
  {
    match body
    case None =>
      ErrorFirst("Invalid request body", StatusBadRequest, []);
      assert HttpError("Invalid request body", StatusBadRequest) + [] == HttpError("Invalid request body", StatusBadRequest);
      assert "Invalid request body" + "\n" == "Invalid request body\n";
      HttpError("Invalid request body", StatusBadRequest)
    case Some(c) =>
      var token := GenerateToken(c.userName, t1, t2, sign);
      TokenReplyDelivers(token);
      if ValidCredentials(c) then
        assert c.userName == "admin" && c.password == "admin123";
        TokenReply(token)
      else
        ErrorFirst("Invalid username or password", StatusBadRequest, TokenReply(token));
        assert "Invalid username or password" + "\n" == "Invalid username or password\n";
        HttpError("Invalid username or password", StatusBadRequest) + TokenReply(token)
  }

  /** A body that does not decode is answered before anything is signed:
      the signer plays no part. */
  lemma MalformedBodyNotSigned(t1: int, t2: int, sign1: Payload -> Result<Bytes>,
                               sign2: Payload -> Result<Bytes>)
    ensures LoginHandler(None, t1, t2, sign1) == LoginHandler(None, t1, t2, sign2)
  {
  }

  /** A token from a login passes the gate while it is live, whoever asked
      for it, and the gate binds `username` to "" since the claims GenerateToken
      signs have no such member. */
  lemma IssuedTokenPassesGate(c: Credentials, t1: int, t2: int, now: int,
                              sign: Payload -> Result<Bytes>, verify: Bytes -> Parsed, ctx: Context)
    requires SoundCodec(sign, verify, now)
    requires sign(TokenClaims(c.userName, t1, t2)).Ok?
    requires t2 <= now < t1 + TokenLifetime
    ensures IsBytes("Bearer " + sign(TokenClaims(c.userName, t1, t2)).value)
    ensures Authenticate("Bearer " + sign(TokenClaims(c.userName, t1, t2)).value, ctx, verify)
            == Forward(ctx[UsernameKey := ""])
  {
    var t := sign(TokenClaims(c.userName, t1, t2)).value;
    BytesConcat("Bearer ", t);
    assert ("Bearer " + t)[PrefixLength..] == t;
    assert verify(t) == Token(true, TokenClaims(c.userName, t1, t2));
  }

  /** The missing return, end to end: a login with wrong credentials is
      answered 400, yet its body carries a token that the gate accepts while
      it is live. */
  lemma RejectedLoginTokenPassesGate(c: Credentials, t1: int, t2: int, now: int,
                                     sign: Payload -> Result<Bytes>, verify: Bytes -> Parsed, ctx: Context)
    requires !(c.userName == "admin" && c.password == "admin123")
    requires SoundCodec(sign, verify, now)
    requires sign(TokenClaims(c.userName, t1, t2)).Ok?
    requires t2 <= now < t1 + TokenLifetime
    ensures Deliver(LoginHandler(Some(c), t1, t2, sign)).status == StatusBadRequest
    ensures TokenJson(sign(TokenClaims(c.userName, t1, t2)).value) in Deliver(LoginHandler(Some(c), t1, t2, sign)).body
    ensures IsBytes("Bearer " + sign(TokenClaims(c.userName, t1, t2)).value)
    ensures Authenticate("Bearer " + sign(TokenClaims(c.userName, t1, t2)).value, ctx, verify).Forward?
  {
    IssuedTokenPassesGate(c, t1, t2, now, sign, verify, ctx);
  }
}
