# thriftedbookstore-server: a Dafny model of its access and commerce logic

This project models the part of the Express/MongoDB bookstore backend that has
behaviour worth stating: buyer and seller accounts (signup, signin, token
checks), the two access guards (`auth_middleware`, `seller_middleware`), the
error responder (`errorHandler`, which index.js never registers), product rating and the deal-of-day ordering, product
deletion, order status, and the seller's earnings analytics.

The database collections are in-memory sequences in natural order, so
`findOne`/`findById` return the first match. bcryptjs and jsonwebtoken are
abstract values: `Bcrypt(hash, compare)` and `Jwt(sign, verify)`. The facts the
handlers rely on are ghost predicates: `compare(p, hash(p))`, `hash(p) != p`,
`verify(sign(id)) == Decoded(Payload(id))` and `sign(id) != ""`. `jwt.verify`
yields one of three verdicts: a payload, a falsy value, or an exception (the
library throws on a bad token). So the `!verified` branches are modelled for a
falsy result, and an exception surfaces as `Thrown`/`Threw`. Handlers end in
`Reply.Ok` (`res.json`), `Reply.Err(status, msg)` (`res.status(s).json({msg})`)
or `Reply.Threw` (an exception before any response). Guards end in `Denied`,
`Granted(binding, token)` (`next()` called once with `req.user`/`req.token`
set) or `Thrown`.

Files: `wrappers.dfy` (Option), `primitives.dfy` (bcrypt/JWT abstractions),
`http.dfy` (header truthiness, reply shapes), `collections.dfy` (first-match
scan), `users.dfy`, `catalog.dfy`, `orders.dfy` (collections and their
arithmetic), `auth_middleware.dfy`, `seller_middleware.dfy`,
`error_handler.dfy`, `auth_route.dfy`, `product_route.dfy`, `seller_route.dfy`.

The model follows the code, including these behaviours a reader may not expect:
- A buyer on a seller route gets 401 "You are not an admin", not 403.
- A failed verification in `seller_middleware` is answered with 400.
- Deleting an unknown product answers `null` rather than a not-found error.
- A user whose record is gone makes `seller_middleware` throw.
- The role is the free string `type`: only `"user"` is refused.
- Rating, as written, never replaces an earlier rating (see Findings).

## Model

| member | source | states |
|---|---|---|
| `Users.FindOne` | routes/auth_route.js:24 | `User.findOne({email})`: none found iff no document has the email; a found user is in the store and has that email |
| `Users.FindById` | middlewares/seller_middleware.js:22 | `User.findById(id)`: none found iff no document has the id; a found user is in the store and has that id |
| `Users.FindOneUnique` | routes/auth_route.js:53 | when emails are unique, looking up a stored user's email returns exactly that user |
| `Users.FindByIdUnique` | middlewares/seller_middleware.js:22 | when ids are unique, looking up a stored user's id returns exactly that user |
| `Users.FindOneAppended` | routes/auth_route.js:34-36 | after saving a user under a fresh email, looking up that email finds the new user |
| `Users.UserStore.Save` | routes/auth_route.js:34-36 | `new User(...).save()` appends exactly one document, under an `_id` no stored document has, and keeps ids unique |
| `AuthMiddleware.Authenticate` | middlewares/auth_middleware.js:5-19 | no header (or an empty one): 401 "No Auth Token"; falsy verdict: 401 "Token Verification Failed"; a throwing verify propagates; passes iff the header is present and decodes; on pass `req.user` is the payload id and `req.token` the header |
| `AuthMiddleware.SignedTokenPasses` | middlewares/auth_middleware.js:10-18 | a token signed over `id` passes with `req.user == id` and `req.token` the token |
| `AuthMiddleware.RejectionsAre401` | middlewares/auth_middleware.js:6-14 | every rejection is a 401 with one of the two messages |
| `SellerMiddleware.AuthenticateSeller` | middlewares/seller_middleware.js:5-32 | checks run in order: no header gives 401 "No auth token"; a falsy verdict gives 400; a missing user record throws; `type == "user"` gives 401 "You are not an admin"; passes iff every check passes; on pass `req.user` is the whole payload |
| `SellerMiddleware.DeletedUserThrows` | middlewares/seller_middleware.js:22-24 | a correctly signed token whose user is gone ends in an exception, not a clean rejection |
| `ErrorHandler.Handle` | middlewares/error_handler.js:3-24 | at most one body is written; exactly one iff the status used (`res.statusCode`, or 500 when falsy) is one of the five codes; control reaches `default` iff the status matched none of the first four cases (SERVER_ERROR falls through) |
| `ErrorHandler.HandleIntended` | middlewares/error_handler.js:18-19 | corrected responder: exactly as many bodies as the switch as written (one iff the status used is recognised), with the same titles and the same fall-through into `default`, and every body carries `err.message` and `err.stack` |
| `ErrorHandler.TitlesByCode` | middlewares/error_handler.js:5-19 | with distinct non-zero codes, each code gets exactly its own titled body; SERVER_ERROR's body has no message and falls through |
| `ErrorHandler.FalsyStatusIsServerError` | middlewares/error_handler.js:4 | a falsy status code is answered as 500 "Server Error" |
| `ErrorHandler.ServerErrorDropsMessage` | middlewares/error_handler.js:19 | as written, the 500 body's message is absent (read from `err.messagem`); the corrected responder keeps it |
| `AuthRoute.SignUp` | routes/auth_route.js:19-40 | taken email: 400 "User with the email already exists" and the store is unchanged; otherwise exactly one user is appended with the name, the email, `hash(password)` and the default type; email uniqueness is preserved; the stored password is never the plaintext |
| `AuthRoute.SignIn` | routes/auth_route.js:48-68 | unknown email: 400 "does not exist", whatever the password; known email with a non-matching password: 400 "Incorrect password."; succeeds iff both checks pass; the reply carries the user the email lookup found (stored, with that email) and a token signed over its id |
| `AuthRoute.TokenIsValid` | routes/auth_route.js:73-103 | false without a header or on a falsy verdict; a throwing verify propagates; true for every decoded token, whatever the store holds, because the lookup is not awaited |
| `AuthRoute.TokenIsValidAwaited` | routes/auth_route.js:92-97 | corrected check: true iff the header is present, decodes, and its id names a stored user; throws iff verify throws; every other answer is `false`, never an error reply |
| `AuthRoute.TokenOfMissingUserIsValid` | routes/auth_route.js:92-99 | a correctly signed token of a user not in the store is reported valid as written and invalid when corrected |
| `AuthRoute.Me` | routes/auth_route.js:111-114 | behind the guard: its rejections pass through; succeeds iff the token decodes to a stored user's id; a throwing verify or a missing user ends in an exception; the reply is that user with `token` equal to the request's token |
| `AuthRoute.SignInAfterSignUp` | routes/auth_route.js:32-66 | a user saved with `hash(password)` under a fresh email can sign in with that password and gets a token over their id |
| `AuthRoute.SessionIsRecognised` | routes/auth_route.js:65-66 | the token signin returns passes `auth_middleware` as the signed-in user, and GET / then returns that same user |
| `Catalog.IndexOf` | routes/product_route.js:57 | `Product.findById(id)`: the position of the first product with the id, or the length when none has it |
| `Catalog.ProductStore.SaveAt` | routes/product_route.js:73 | `product.save()` replaces that one product and nothing else |
| `Catalog.ProductStore.DeleteById` | routes/seller_route.js:175 | `findByIdAndDelete`: removes and returns the first product with the id, keeping the others in order; an unknown id removes nothing and yields null |
| `Catalog.RatingSumRemove` | routes/product_route.js:61 | splicing out an entry takes exactly its rating off the rating sum |
| `ProductRoute.ListByCategory` | routes/product_route.js:21 | each product occurs in the result exactly as often as in the collection when its category equals the query, and never otherwise |
| `ProductRoute.Spliced` | routes/product_route.js:59-64 | when no entry's key is the caller, nothing is removed; otherwise exactly the first such entry is removed and the rest keep their order; the length drops by at most one |
| `ProductRoute.Upsert` | routes/product_route.js:56-72 | the loop and push yield the spliced ratings plus the new entry; the last entry is `{userId: caller, rating}`; the length grows by one or stays the same |
| `ProductRoute.WrittenKeyNeverRemoves` | routes/product_route.js:60 | with the key as written (`userI`), nothing is removed and the list grows by exactly one |
| `ProductRoute.WrittenKeyDuplicates` | routes/product_route.js:60-72 | as written, a user who rates twice ends with two entries |
| `ProductRoute.IntendedKeyKeepsOnePerUser` | routes/product_route.js:59-72 | with the intended key `userId`, at most one entry per user is preserved, and the caller's only entry is the new last one |
| `ProductRoute.ScoreAfterRating` | routes/product_route.js:59-72 | rating changes the rating sum by the new value minus the rating of the entry it replaced (if any) |
| `ProductRoute.RateProduct` | routes/product_route.js:52-77 | guard rejections change nothing and pass through; a throwing guard ends in an exception; an unknown product id throws and changes nothing; otherwise exactly that product's ratings become the upserted list for the token's user, and that product is returned |
| `ProductRoute.SumRatings` | routes/product_route.js:92-94 | the comparator's loop computes the rating sum (0 for no ratings) |
| `ProductRoute.Compare` | routes/product_route.js:88-101 | the comparator answers 1 iff a's sum is lower than b's and -1 otherwise, never 0, so a tie answers -1 in both orders |
| `ProductRoute.SwapDown` | routes/product_route.js:88 | exchanging two neighbours changes only those two positions and keeps the multiset |
| `ProductRoute.InsertDown` | routes/product_route.js:88-101 | one insertion pass extends the ordered prefix by one and keeps the multiset |
| `ProductRoute.DealOfDay` | routes/product_route.js:86-101 | the sorted products are a permutation of the fetched ones, in non-increasing rating-sum order |
| `Orders.CategoryOrders` | routes/seller_route.js:266-268 | the selected orders are exactly those having at least one line item of the category, each kept exactly as often as the collection holds it |
| `Orders.CategoryEarningsBounded` | routes/seller_route.js:264-278 | with non-negative quantities and prices, a category's earnings are between 0 and the total earnings |
| `Orders.CategoryEarningsAppend` | routes/seller_route.js:270-276 | each order adds all its line items to a category's earnings if it has an item of that category, and nothing otherwise |
| `Orders.OrderStore.SetStatus` | routes/seller_route.js:208-211 | intended status change (not what the route does): only the named order's `status` changes; an unknown id changes nothing |
| `SellerRoute.SignUp` | routes/seller_route.js:21-42 | taken email: 400 and the store is unchanged; otherwise exactly one user is appended with `type "seller"` and `hash(password)`; email uniqueness is preserved; the stored password is never the plaintext |
| `SellerRoute.SignIn` | routes/seller_route.js:50-70 | unknown email is refused before the password is compared; a non-matching password: 400 "Incorrect password."; succeeds iff the email is known and the password matches, with the user the email lookup found and a token over its id |
| `SellerRoute.SignInAfterSignUp` | routes/seller_route.js:34-68 | a seller saved with `hash(password)` under a fresh email can sign in with that password and gets a token over their id |
| `SellerRoute.TokenIsValid` | routes/seller_route.js:77-108 | false without a header or on a falsy verdict; a throwing verify ends in an exception; true for every decoded token, regardless of the store |
| `SellerRoute.DeleteProduct` | routes/seller_route.js:169-179 | a request the seller guard stops changes nothing; otherwise the first product with the id is removed and returned, or nothing is removed and null is answered |
| `SellerRoute.ChangeOrderStatus` | routes/seller_route.js:203-215 | as written it never succeeds: guard rejections pass through and every request past the guard throws before any write |
| `SellerRoute.StatusChangeAlwaysFails` | routes/seller_route.js:209-211 | even a signed-in seller's status change throws |
| `SellerRoute.TotalEarnings` | routes/seller_route.js:228-234 | the nested loop computes the sum over all orders and line items of quantity times snapshotted price (0 for no orders) |
| `SellerRoute.FetchCategoryWiseProduct` | routes/seller_route.js:264-278 | sums every line item of the orders selected for the category; with non-negative data it lies between 0 and the total |
| `SellerRoute.Analytics` | routes/seller_route.js:222-256 | the report holds the total and the five category figures; with non-negative data each category figure is at most the total |
| `SellerRoute.SessionMeetsSellerGuard` | middlewares/seller_middleware.js:14-30 | a signed-in `type "user"` account is refused 401 "You are not an admin"; any other type passes with the whole payload as `req.user` |

## Left out

- index.js: bootstrap, Mongo connection and `listen` are not modelled. Because `authRouter` is registered before `sellerRoute`, the seller router's `/token-is-valid` and `/` are never reached. `SellerRoute.TokenIsValid` is modelled anyway; the seller GET / is identical to `AuthRoute.Me` and is not repeated.
- The regex name search (routes/product_route.js:33-44): MongoDB's `$regex` matching is outside the model.
- add-product, get-products and get-orders (routes/seller_route.js:127-161, 187-196) are not modelled. They are plain insert and list calls. get-orders serialises an unawaited query object rather than the orders.
- The seller guard in front of get-products, get-orders and analytics is the same `AuthenticateSeller`. It is composed with the handler only for delete-product and change-order-status. `SellerRoute.Analytics` models the handler alone.
- The deal-of-day route sends no response. `ProductRoute.DealOfDay` returns the sorted list, and no top product is selected.
- `ProductRoute.DealOfDay`: the comparator answers -1 even for two products of equal score (and for a product compared with itself), so it is not a consistent comparator in the sense of ECMAScript's `Array.prototype.sort`, and the language then leaves the whole resulting order implementation-defined. An insertion sort driven by the same comparator stands in for the engine's sort; its non-increasing order describes what the engines' actual sorts produce with this comparator, not an order the language guarantees. The order among equal scores is not specified.
- `ProductRoute.ListByCategory`: an absent `category` query parameter is not modelled. The category is always a string.
- The missing leading slash in `"api/products/"` (routes/product_route.js:17) makes the listing route unreachable. The filter is modelled anyway.
- `AuthRoute.Me`: the GET / handler is not wrapped in express-async-handler. Its exception is therefore an unhandled rejection and no response is sent. `Threw` stands for that.
- Async/await and Mongoose query semantics are not modelled. Each store call is a synchronous sequence operation. Only the observable effect of the unawaited calls is kept (a truthy query object, or a missing `save`).
- Absent or ill-typed request-body fields are not modelled (`{ name, email, password }` and `{ id, rating }` are destructured from untyped bodies). A missing `password` would make bcrypt throw, and a missing `rating` would be pushed as `undefined`; here every field is present and of its modelled type.
- `ErrorHandler.Handle` is never reached in the running app: index.js registers no error middleware, so exceptions (`Thrown`/`Threw`) go to Express's default handler. The responder is modelled on its own.
- Malformed ids are not modelled. A non-ObjectId `id` makes Mongoose throw a cast error; here ids are natural numbers.
- bcrypt internals are not modelled. The random salt is folded into the abstract `hash`, which is deterministic here.
- jsonwebtoken internals are not modelled: the real signature, the hard-coded secret "passwordKey" and the `iat` claim are left out.
- The error handler's codes come from a constants module that is not part of this model. They are a parameter, and `Conventional` gives the usual 400/404/401/403/500.
- `ErrorHandler.Handle`: a falsy `res.statusCode` (undefined, 0, NaN) is written as 0. The `console.log` of the default branch is modelled only as "control reached default".
- The user schema (models/user_model.js) is not part of this model. Buyer accounts get the default `type` "user", the value `seller_middleware` refuses.
- Prices, quantities and ratings are unbounded integers, not JavaScript doubles.
- Concurrency is not modelled: the last-write-wins races between concurrent rate-product or status-change requests.
- Response encoding, status plumbing on `res`, `console.log`, and the `purge` import are not modelled. Signup responses also include the stored hash; that encoding is out of scope.

## Findings

| source | as written | input that shows it | evidently intended | confidence | as-written member | corrected member |
|---|---|---|---|---|---|---|
| routes/product_route.js:60 | compares `ratings[i].userI`, a field no entry has, so no earlier rating is ever removed | the same user rates a product twice: two entries for that user | compare `ratings[i].userId`, so re-rating replaces the earlier entry | high (not executed) | `ProductRoute.WrittenKeyDuplicates` | `ProductRoute.IntendedKeyKeepsOnePerUser` |
| routes/auth_route.js:92 | `User.findById` is not awaited, so the pending query is always truthy and the route answers true | a correctly signed token for an id no user has: answers true | await the lookup and answer false when the user is missing | high (not executed) | `AuthRoute.TokenOfMissingUserIsValid` | `AuthRoute.TokenIsValidAwaited` |
| middlewares/error_handler.js:19 | the 500 body reads `err.messagem`, so its message is undefined | any error handled with status 500: the body has no message | read `err.message` like the other cases | high (not executed) | `ErrorHandler.ServerErrorDropsMessage` | `ErrorHandler.HandleIntended` |
| routes/seller_route.js:209 | `Order.findById` is not awaited, so `order.save` is not a function and the request throws before writing | a signed-in seller changes any order's status: exception, no order changed | await the lookup, set `status`, save that order | high (not executed) | `SellerRoute.StatusChangeAlwaysFails` | `Orders.OrderStore.SetStatus` |
