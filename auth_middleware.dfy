/** `auth_middleware`: a token guard that reads no store. */
module AuthMiddleware {

  import opened Wrappers
  import opened Primitives
  import opened Http

  const NoToken := "No Auth Token, access denied"
  const VerificationFailed := "Token Verification Failed, Authorization Denied"

  /**
   * The decision chain: header present, then verified. On success `req.user`
   * is the payload's `id` and `req.token` the header value (the `binding` and
   * `token` of `Granted`), and `next()` runs once.
   */
  function Authenticate(header: Option<string>, verify: string -> Verdict): (g: Guard<UserId>)
    ensures !Present(header) ==> g == Denied(401, NoToken)
    ensures Present(header) && verify(header.value).Falsy? ==> g == Denied(401, VerificationFailed)
    ensures Present(header) && verify(header.value).Throws? ==> g.Thrown?
    ensures g.Granted? <==> Present(header) && verify(header.value).Decoded?
    ensures g.Granted? ==> g.binding == verify(header.value).payload.id && g.token == header.value
  {
    if !Present(header) then Denied(401, NoToken)
    else
      match verify(header.value)
      case Throws => Thrown
      case Falsy => Denied(401, VerificationFailed)
      case Decoded(payload) => Granted(payload.id, header.value)
  }

  /** A token issued over `id` lets its bearer through as `id`. */
  lemma SignedTokenPasses(jwt: Jwt, id: UserId)
    requires jwt.Sound()
    ensures Authenticate(Some(jwt.sign(id)), jwt.verify) == Granted(id, jwt.sign(id))
  {
    assert jwt.verify(jwt.sign(id)) == Decoded(Payload(id));
  }

  /** Every rejection is a 401 and carries one of the two messages. */
  lemma RejectionsAre401(header: Option<string>, verify: string -> Verdict)
    ensures Authenticate(header, verify).Denied? ==>
      Authenticate(header, verify).status == 401 &&
      Authenticate(header, verify).msg in {NoToken, VerificationFailed}
  {
  }
}
