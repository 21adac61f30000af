/** `sellerRoute`: seller accounts, product deletion, order status and earnings analytics. */
module SellerRoute {

  import opened Wrappers
  import opened Primitives
  import opened Http
  import opened Users
  import opened Catalog
  import opened Orders
  import opened SellerMiddleware
  import AuthRoute

  /** The analytics reply `{ total_earnings, academicsEarnings, ... }`. */
  datatype Report = Report(
    totalEarnings: int, academicsEarnings: int, comicEarnings: int,
    fictionEarnings: int, novelEarnings: int, collectiblesEarnings: int)

  /**
   * POST /api/seller/signup: a taken email is refused with 400 and nothing is
   * stored; otherwise one user with `type "seller"` is stored with the bcrypt
   * hash in place of the password, and returned.
   */
  method SignUp(store: UserStore, bcrypt: Bcrypt, name: string, email: string, password: string)
    returns (r: Reply<User>)
    requires store.Valid()
    modifies store
    ensures store.Valid()
    ensures FindOne(old(store.users), email).Some? ==>
      r == Err(400, AuthRoute.EmailTaken) && store.users == old(store.users) && store.nextId == old(store.nextId)
    ensures FindOne(old(store.users), email).None? ==>
      && r == Ok(User(old(store.nextId), name, email, bcrypt.hash(password), SellerType))
      && store.users == old(store.users) + [r.body]
    ensures UniqueEmails(old(store.users)) ==> UniqueEmails(store.users)
    ensures bcrypt.Hides() && r.Ok? ==> r.body.password != password
  {
    var existing := FindOne(store.users, email);
    if existing.Some? {
      return Err(400, AuthRoute.EmailTaken);
    }
    var hashed := bcrypt.hash(password);
    var user := store.Save(name, email, hashed, SellerType);
    r := Ok(user);
  }

  /**
   * POST /api/seller/signin: the same chain as the buyer signin, on the same
   * collection: unknown email, then wrong password, then a token over the id.
   */
  function SignIn(users: seq<User>, bcrypt: Bcrypt, jwt: Jwt, email: string, password: string): (r: Reply<AuthRoute.Session>)
    ensures FindOne(users, email).None? ==> r == Err(400, AuthRoute.NoSuchEmail)
    ensures FindOne(users, email).Some? && !bcrypt.compare(password, FindOne(users, email).value.password) ==>
      r == Err(400, AuthRoute.WrongPassword)
    ensures r.Ok? <==> FindOne(users, email).Some? && bcrypt.compare(password, FindOne(users, email).value.password)
    ensures r.Ok? ==> r.body.user in users && r.body.user.email == email && r.body.token == jwt.sign(r.body.user.id)
    ensures r.Ok? ==> r.body.user == FindOne(users, email).value
  {
    AuthRoute.SignIn(users, bcrypt, jwt, email, password)
  }

  /** A seller saved with `hash(password)` under a fresh email can sign in and gets a token over their id. */
  lemma SignInAfterSignUp(users: seq<User>, bcrypt: Bcrypt, jwt: Jwt, u: User, password: string)
    requires bcrypt.Verifies()
    requires FindOne(users, u.email).None?
    requires u.password == bcrypt.hash(password) && u.kind == SellerType
    ensures SignIn(users + [u], bcrypt, jwt, u.email, password) == Ok(AuthRoute.Session(jwt.sign(u.id), u))
  {
    FindOneAppended(users, u);
    assert bcrypt.compare(password, bcrypt.hash(password));
  }

  /**
   * POST /token-is-valid as the seller router declares it: the same chain as
   * the buyer router's (which is registered first and answers the path).
   */
  function TokenIsValid(header: Option<string>, verify: string -> Verdict, users: seq<User>): (r: Reply<bool>)
    ensures !Present(header) ==> r == Ok(false)
    ensures Present(header) && verify(header.value).Falsy? ==> r == Ok(false)
    ensures Present(header) && verify(header.value).Decoded? ==> r == Ok(true)
    ensures Present(header) && verify(header.value).Throws? ==> r.Threw?
  {
    AuthRoute.TokenIsValid(header, verify, users)
  }

  /**
   * POST /seller/delete-product behind `seller_middleware`: the first product
   * with that id is removed and returned; an unknown id removes nothing and
   * answers null. A request the guard stops changes nothing.
   */
  method DeleteProduct(store: ProductStore, header: Option<string>, verify: string -> Verdict,
                       users: seq<User>, id: nat)
    returns (r: Reply<Option<Product>>)
    modifies store
    ensures var g := AuthenticateSeller(header, verify, users);
      && (g.Denied? ==> r == Err(g.status, g.msg) && store.products == old(store.products))
      && (g.Thrown? ==> r.Threw? && store.products == old(store.products))
    ensures AuthenticateSeller(header, verify, users).Granted? ==>
      var i := IndexOf(old(store.products), id);
      if i < |old(store.products)| then
        r == Ok(Some(old(store.products)[i])) && store.products == old(store.products)[..i] + old(store.products)[i + 1..]
      else
        r == Ok(None) && store.products == old(store.products)
  {
    var g := AuthenticateSeller(header, verify, users);
    if g.Denied? {
      return Err(g.status, g.msg);
    } else if g.Thrown? {
      return Threw;
    }
    var deleted := store.DeleteById(id);
    r := Ok(deleted);
  }

  /**
   * POST /seller/change-order-status as written: `Order.findById` is not
   * awaited, so `status` is set on a pending query object, and `order.save`
   * is not a function; every request that passes the guard throws, and no
   * order is ever written.
   */
  function ChangeOrderStatus(header: Option<string>, verify: string -> Verdict, users: seq<User>,
                             orders: seq<Order>, id: nat, status: string): (r: Reply<Order>)
    ensures !r.Ok?
    ensures var g := AuthenticateSeller(header, verify, users);
      (g.Denied? ==> r == Err(g.status, g.msg)) && (!g.Denied? ==> r.Threw?)
  {
    match AuthenticateSeller(header, verify, users)
    case Denied(s, msg) => Err(s, msg)
    case Thrown => Threw
    case Granted(_, _) => Threw
  }

  /** Even a signed-in seller's status change fails, whatever order it names. */
  lemma StatusChangeAlwaysFails(users: seq<User>, jwt: Jwt, orders: seq<Order>, k: nat, id: nat, status: string)
    requires jwt.Sound()
    requires UniqueIds(users)
    requires k < |users| && users[k].kind == SellerType
    ensures ChangeOrderStatus(Some(jwt.sign(users[k].id)), jwt.verify, users, orders, id, status) == Threw
  {
    assert jwt.verify(jwt.sign(users[k].id)) == Decoded(Payload(users[k].id));
    FindByIdUnique(users, k);
  }

  /** The analytics loop: over every order, over every line item, add quantity times price. */
  method TotalEarnings(orders: seq<Order>) returns (total: int)
    ensures total == Earnings(orders)
    ensures orders == [] ==> total == 0
  {
    total := 0;
    var i := 0;
    while i < |orders|
      invariant 0 <= i <= |orders|
      invariant total == Earnings(orders[..i])
    {
      var items := orders[i].products;
      var j := 0;
      while j < |items|
        invariant 0 <= j <= |items|
        invariant total == Earnings(orders[..i]) + ItemsEarnings(items[..j])
      {
        assert items[..j + 1][..j] == items[..j];
        total := total + items[j].quantity * items[j].product.price;
        j := j + 1;
      }
      assert items[..j] == items;
      assert orders[..i + 1][..i] == orders[..i];
      i := i + 1;
    }
    assert orders[..i] == orders;
  }

  /**
   * `fetchCategoryWiseProduct(category)`: the orders with at least one line
   * item of the category, each summed in full.
   */
  method FetchCategoryWiseProduct(orders: seq<Order>, category: string) returns (earnings: int)
    ensures earnings == Earnings(CategoryOrders(orders, category))
    ensures NonNegative(orders) ==> 0 <= earnings <= Earnings(orders)
  {
    var categoryOrders := CategoryOrders(orders, category);
    earnings := TotalEarnings(categoryOrders);
    if NonNegative(orders) {
      CategoryEarningsBounded(orders, category);
    }
  }

  /** GET /seller/analytics (after the guard): the total and the five category figures. */
  method Analytics(orders: seq<Order>) returns (report: Report)
    ensures report.totalEarnings == Earnings(orders)
    ensures report.academicsEarnings == Earnings(CategoryOrders(orders, "Academics"))
    ensures report.comicEarnings == Earnings(CategoryOrders(orders, "Comic"))
    ensures report.fictionEarnings == Earnings(CategoryOrders(orders, "Fiction"))
    ensures report.novelEarnings == Earnings(CategoryOrders(orders, "Novel"))
    ensures report.collectiblesEarnings == Earnings(CategoryOrders(orders, "Collectibles"))
    ensures NonNegative(orders) ==>
      && report.academicsEarnings <= report.totalEarnings
      && report.comicEarnings <= report.totalEarnings
      && report.fictionEarnings <= report.totalEarnings
      && report.novelEarnings <= report.totalEarnings
      && report.collectiblesEarnings <= report.totalEarnings
  {
    var total := TotalEarnings(orders);
    var academics := FetchCategoryWiseProduct(orders, "Academics");
    var comic := FetchCategoryWiseProduct(orders, "Comic");
    var fiction := FetchCategoryWiseProduct(orders, "Fiction");
    var novel := FetchCategoryWiseProduct(orders, "Novel");
    var collectibles := FetchCategoryWiseProduct(orders, "Collectibles");
    report := Report(total, academics, comic, fiction, novel, collectibles);
  }

  /**
   * A signed-in user's token meets `seller_middleware`: a `type "user"`
   * account is refused with 401, any other type passes with the whole payload.
   */
  lemma SessionMeetsSellerGuard(users: seq<User>, bcrypt: Bcrypt, jwt: Jwt, email: string, password: string)
    requires jwt.Sound()
    requires UniqueIds(users)
    requires SignIn(users, bcrypt, jwt, email, password).Ok?
    ensures var s := SignIn(users, bcrypt, jwt, email, password).body;
      && (s.user.kind == DefaultType ==> AuthenticateSeller(Some(s.token), jwt.verify, users) == Denied(401, NotAdmin))
      && (s.user.kind != DefaultType ==> AuthenticateSeller(Some(s.token), jwt.verify, users) == Granted(Payload(s.user.id), s.token))
  {
    var s := SignIn(users, bcrypt, jwt, email, password).body;
    assert jwt.verify(jwt.sign(s.user.id)) == Decoded(Payload(s.user.id));
    var k :| 0 <= k < |users| && users[k] == s.user;
    FindByIdUnique(users, k);
  }
}
