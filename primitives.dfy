/**
 * The two cryptographic libraries the handlers call, as abstract values.
 * bcryptjs becomes a pair (hash, compare) and jsonwebtoken a pair (sign, verify);
 * the properties the handlers rely on are stated as ghost predicates that
 * callers assume through their requires clauses.
 */
module Primitives {

  /** A MongoDB `_id`. */
  type UserId = nat

  /** The payload `jwt.sign({ id: user._id }, ...)` signs: the user id. */
  datatype Payload = Payload(id: UserId)

  /**
   * What a call of `jwt.verify(token, key)` yields: a decoded payload (a truthy
   * object), a falsy value, or an exception (jsonwebtoken throws on a token it
   * rejects).
   */
  datatype Verdict = Decoded(payload: Payload) | Falsy | Throws

  /** `bcrypt.hash(password, 8)` and `bcrypt.compare(password, stored)`. */
  datatype Bcrypt = Bcrypt(hash: string -> string, compare: (string, string) -> bool)
  {
    /** compare accepts a password against its own hash. */
    ghost predicate Verifies()
    {
      forall p :: compare(p, hash(p))
    }

    /** A hash never equals the password it was computed from. */
    ghost predicate Hides()
    {
      forall p :: hash(p) != p
    }
  }

  /** `jwt.sign({ id }, "passwordKey")` and `jwt.verify(token, "passwordKey")`. */
  datatype Jwt = Jwt(sign: UserId -> string, verify: string -> Verdict)
  {
    /** A signed token is a non-empty string that verifies to the id it was signed over. */
    ghost predicate Sound()
    {
      forall id :: sign(id) != "" && verify(sign(id)) == Decoded(Payload(id))
    }
  }
}
