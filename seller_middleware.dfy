/** `seller_middleware`: a token guard followed by a role check against the user store. */
module SellerMiddleware {

  import opened Wrappers
  import opened Primitives
  import opened Http
  import opened Users

  const NoToken := "No auth token, access denied"
  const VerificationFailed := "Token verification failed, authorization failed"
  const NotAdmin := "You are not an admin"

  /**
   * The decision chain: header present, then verified, then `user.type ==
   * "user"` rejected. A verified id with no user document reads `type` off
   * null and throws. On success `req.user` is the whole payload.
   */
  function AuthenticateSeller(header: Option<string>, verify: string -> Verdict, users: seq<User>): (g: Guard<Payload>)
    ensures !Present(header) ==> g == Denied(401, NoToken)
    ensures Present(header) && verify(header.value).Falsy? ==> g == Denied(400, VerificationFailed)
    ensures Present(header) && verify(header.value).Throws? ==> g.Thrown?
    ensures Present(header) && verify(header.value).Decoded? ==>
      var id := verify(header.value).payload.id;
      && (FindById(users, id).None? ==> g.Thrown?)
      && (FindById(users, id).Some? && FindById(users, id).value.kind == DefaultType ==> g == Denied(401, NotAdmin))
    ensures g.Granted? <==>
      && Present(header)
      && verify(header.value).Decoded?
      && FindById(users, verify(header.value).payload.id).Some?
      && FindById(users, verify(header.value).payload.id).value.kind != DefaultType
    ensures g.Granted? ==> g.binding == verify(header.value).payload && g.token == header.value
  {
    if !Present(header) then Denied(401, NoToken)
    else
      match verify(header.value)
      case Throws => Thrown
      case Falsy => Denied(400, VerificationFailed)
      case Decoded(payload) =>
        match FindById(users, payload.id)
        case None => Thrown
        case Some(user) =>
          if user.kind == DefaultType then Denied(401, NotAdmin)
          else Granted(payload, header.value)
  }

  /** A valid token whose user document is gone ends in an exception, not a rejection. */
  lemma DeletedUserThrows(jwt: Jwt, users: seq<User>, id: UserId)
    requires jwt.Sound()
    requires forall i :: 0 <= i < |users| ==> users[i].id != id
    ensures AuthenticateSeller(Some(jwt.sign(id)), jwt.verify, users) == Thrown
  {
    assert jwt.verify(jwt.sign(id)) == Decoded(Payload(id));
  }
}
