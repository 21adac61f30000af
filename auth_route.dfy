/** `authRouter`: buyer signup and signin, token check, and the caller's own record. */
module AuthRoute {

  import opened Wrappers
  import opened Primitives
  import opened Http
  import opened Users
  import AuthMiddleware

  const EmailTaken := "User with the email already exists"
  const NoSuchEmail := "User with this email does not exist!"
  const WrongPassword := "Incorrect password."

  /** The signin reply `{ token, ...user._doc }`. */
  datatype Session = Session(token: string, user: User)

  /** The GET / reply `{ ...user._doc, token: req.token }`. */
  datatype Profile = Profile(user: User, token: string)

  /**
   * POST /api/signup: a taken email is refused with 400 and nothing is stored;
   * otherwise one buyer (the schema's default `type`) is stored with the bcrypt
   * hash in place of the password, and returned.
   */
  method SignUp(store: UserStore, bcrypt: Bcrypt, name: string, email: string, password: string)
    returns (r: Reply<User>)
    requires store.Valid()
    modifies store
    ensures store.Valid()
    ensures FindOne(old(store.users), email).Some? ==>
      r == Err(400, EmailTaken) && store.users == old(store.users) && store.nextId == old(store.nextId)
    ensures FindOne(old(store.users), email).None? ==>
      && r == Ok(User(old(store.nextId), name, email, bcrypt.hash(password), DefaultType))
      && store.users == old(store.users) + [r.body]
    ensures UniqueEmails(old(store.users)) ==> UniqueEmails(store.users)
    ensures bcrypt.Hides() && r.Ok? ==> r.body.password != password
  {
    var existing := FindOne(store.users, email);
    if existing.Some? {
      return Err(400, EmailTaken);
    }
    var hashed := bcrypt.hash(password);
    var user := store.Save(name, email, hashed, DefaultType);
    r := Ok(user);
  }

  /**
   * POST /api/signin: the email is looked up first, then the password compared,
   * and only then is a token signed over the user's id.
   */
  function SignIn(users: seq<User>, bcrypt: Bcrypt, jwt: Jwt, email: string, password: string): (r: Reply<Session>)
    ensures FindOne(users, email).None? ==> r == Err(400, NoSuchEmail)
    ensures FindOne(users, email).Some? && !bcrypt.compare(password, FindOne(users, email).value.password) ==>
      r == Err(400, WrongPassword)
    ensures r.Ok? <==> FindOne(users, email).Some? && bcrypt.compare(password, FindOne(users, email).value.password)
    ensures r.Ok? ==> r.body.user in users && r.body.user.email == email && r.body.token == jwt.sign(r.body.user.id)
    ensures r.Ok? ==> r.body.user == FindOne(users, email).value
  {
    match FindOne(users, email)
    case None => Err(400, NoSuchEmail)
    case Some(user) =>
      if !bcrypt.compare(password, user.password) then Err(400, WrongPassword)
      else Ok(Session(jwt.sign(user.id), user))
  }

  /**
   * POST /token-is-valid: false without a header; false on a falsy verdict;
   * otherwise true, because `User.findById` is not awaited and the pending
   * query object it returns is always truthy, whatever the store holds.
   */
  function TokenIsValid(header: Option<string>, verify: string -> Verdict, users: seq<User>): (r: Reply<bool>)
    ensures !Present(header) ==> r == Ok(false)
    ensures Present(header) ==>
      match verify(header.value)
      case Throws => r.Threw?
      case Falsy => r == Ok(false)
      case Decoded(_) => r == Ok(true)
  {
    if !Present(header) then Ok(false)
    else
      match verify(header.value)
      case Throws => Threw
      case Falsy => Ok(false)
      case Decoded(payload) =>
        // `const user = User.findById(payload.id)`: a query object, truthy.
        Ok(true)
  }

  /** The corrected check: the lookup is awaited, so a token whose user is gone is not valid. */
  function TokenIsValidAwaited(header: Option<string>, verify: string -> Verdict, users: seq<User>): (r: Reply<bool>)
    ensures r == Ok(true) <==>
      Present(header) && verify(header.value).Decoded? && FindById(users, verify(header.value).payload.id).Some?
    ensures r.Threw? <==> Present(header) && verify(header.value).Throws?
    ensures !r.Threw? ==> r.Ok?
  {
    if !Present(header) then Ok(false)
    else
      match verify(header.value)
      case Throws => Threw
      case Falsy => Ok(false)
      case Decoded(payload) => Ok(FindById(users, payload.id).Some?)
  }

  /** As written, a correctly signed token of a user who does not exist is reported valid. */
  lemma TokenOfMissingUserIsValid(jwt: Jwt, users: seq<User>, id: UserId)
    requires jwt.Sound()
    requires forall i :: 0 <= i < |users| ==> users[i].id != id
    ensures TokenIsValid(Some(jwt.sign(id)), jwt.verify, users) == Ok(true)
    ensures TokenIsValidAwaited(Some(jwt.sign(id)), jwt.verify, users) == Ok(false)
  {
    assert jwt.verify(jwt.sign(id)) == Decoded(Payload(id));
  }

  /**
   * GET /: behind `auth_middleware`, the caller's document with the request's
   * token added. A verified id with no document reads `_doc` off null and throws.
   */
  function Me(header: Option<string>, verify: string -> Verdict, users: seq<User>): (r: Reply<Profile>)
    ensures AuthMiddleware.Authenticate(header, verify).Denied? ==>
      r == Err(AuthMiddleware.Authenticate(header, verify).status, AuthMiddleware.Authenticate(header, verify).msg)
    ensures r.Ok? <==>
      Present(header) && verify(header.value).Decoded? && FindById(users, verify(header.value).payload.id).Some?
    ensures !AuthMiddleware.Authenticate(header, verify).Denied? && !r.Ok? ==> r.Threw?
    ensures r.Ok? ==>
      && r.body.token == header.value
      && r.body.user in users
      && r.body.user.id == verify(header.value).payload.id
  {
    match AuthMiddleware.Authenticate(header, verify)
    case Denied(status, msg) => Err(status, msg)
    case Thrown => Threw
    case Granted(id, token) =>
      match FindById(users, id)
      case None => Threw
      case Some(user) => Ok(Profile(user, token))
  }

  /** Signing up and then signing in with the same credentials yields a token over the new user's id. */
  lemma SignInAfterSignUp(users: seq<User>, bcrypt: Bcrypt, jwt: Jwt, u: User, password: string)
    requires bcrypt.Verifies()
    requires FindOne(users, u.email).None?
    requires u.password == bcrypt.hash(password)
    ensures SignIn(users + [u], bcrypt, jwt, u.email, password) == Ok(Session(jwt.sign(u.id), u))
  {
    FindOneAppended(users, u);
    assert bcrypt.compare(password, bcrypt.hash(password));
  }

  /** The token a signin returns passes `auth_middleware` as the signed-in user, and GET / then returns that user. */
  lemma SessionIsRecognised(users: seq<User>, bcrypt: Bcrypt, jwt: Jwt, email: string, password: string)
    requires jwt.Sound()
    requires UniqueIds(users)
    requires SignIn(users, bcrypt, jwt, email, password).Ok?
    ensures var s := SignIn(users, bcrypt, jwt, email, password).body;
      && AuthMiddleware.Authenticate(Some(s.token), jwt.verify) == Granted(s.user.id, s.token)
      && Me(Some(s.token), jwt.verify, users) == Ok(Profile(s.user, s.token))
  {
    var s := SignIn(users, bcrypt, jwt, email, password).body;
    AuthMiddleware.SignedTokenPasses(jwt, s.user.id);
    var k :| 0 <= k < |users| && users[k] == s.user;
    FindByIdUnique(users, k);
  }
}
