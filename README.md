# IT inventory backend: request decisions, verified

A Dafny model of the request-decision logic of a small Express/Mongoose
inventory backend: the account lifecycle handlers (register, login, logout,
profile, profile update, password change, login status, user listing), the
product CRUD handlers, and the auth gate that protects routes by a session
cookie.

Each handler is a method that builds its response step by step, as the
JavaScript does with `res.status(...)`, `res.cookie(...)`, `res.json(...)`
and `throw`. The method returns the response as a `Response` record: status,
cookie set, body sent, and the message of the thrown error. The user and
product collections are `map` fields of the classes `Users.UserController`
and `Products.ProductController`. Each handler is one atomic step over them.
Each class keeps an invariant `Valid()`: every record is stored under its own
id, the ids are below the next id the store assigns, and (for users) no two
users share an email. Every state-changing handler preserves it.

The foreign libraries are parameters of the controllers. The handler
contracts hold whatever the libraries do. Three of the request-sequence
properties in `Sessions` rest on one library fact each, stated as a
precondition: `FailedLoginStillOpensSession` assumes that a freshly signed
token verifies, and `RegisterThenLogin` and `ChangePasswordThenLogin` assume
that a digest matches the password it was computed from. The parameters:

- `hash` is the digest the user model's pre-save hook stores.
- `compare` is `bcrypt.compare(plain, digest)`.
- `sign(id, now)` is `createToken(id)`, that is `jwt.sign`.
- `verify(token, now)` is `jwt.verify`. `None` means it threw.
- `formatSize` is `fileSizeFormatter(size, 2)`.
- `applyUpdate` gives the scalar fields that `findByIdAndUpdate` stores.

`now` (milliseconds, `Date.now()`) is a parameter of the handlers that need
it. JavaScript truthiness of a request field is explicit: an absent field and
the empty string are falsy (`Http.Truthy`).

Modules: `Http` (request fields, cookies, responses), `Users`
(`controllers/userController.js`), `Auth` (`middleware/authMiddleware.js`),
`Products` (`controllers/productController.js`), and `Sessions`. `Sessions`
holds client methods that chain handlers and prove what one request means for
the next.

Three behaviours of the code, modelled as written:

- The password policy rejects `length < 8`. A password of exactly 8
  characters is accepted, although the message says "more than 8".
- In `loginStatus`, `jwt.verify` throws on a token that does not verify, so
  the handler sends no answer; its last `res.json(false)` is unreachable. The
  model records the thrown error and leaves the status at 200.
- The login cookie is set before the password comparison is consulted.
  `Sessions.FailedLoginStillOpensSession` proves the consequence: a login
  refused for a wrong password still hands the client a token that the gate
  admits, provided that token verifies.

## Model

| member | source | states |
|---|---|---|
| `Users.UserWithEmail` | controllers/userController.js:83 | `User.findOne({email})` returns a stored user whose email is exactly the given one |
| `Users.Patched` | controllers/userController.js:174-180 | name, phone, photo, bio and department take the request value when it is truthy and keep the stored value otherwise; id, email and password never change |
| `Users.UserController.RegisterUser` | controllers/userController.js:16-69 | 400 with the fill-in message and the store unchanged when name, email or password is falsy; 400 and unchanged when the password is shorter than 8 (exactly 8 passes); 400 and unchanged when the exact email is taken; otherwise exactly one new user under a fresh id with the given name and email and the hashed password, status 201, token `sign(id, now)` in the body and in a `token` cookie expiring at `now + 1000*86400` |
| `Users.UserController.LoginUser` | controllers/userController.js:72-116 | 400 and no cookie when email or password is falsy or no user has that email; when the email matches, the `token` cookie is set whatever `compare` says; 200 with the profile and token exactly when `compare` is true, 400 "Invalid user data" otherwise |
| `Users.UserController.LogoutUser` | controllers/userController.js:119-129 | status 200 with the logout message and exactly the cleared `token` cookie: empty value, expiry at the epoch, path "/", httpOnly, sameSite "none", secure |
| `Users.UserController.GetUser` | controllers/userController.js:132-146 | 200 with the password-less profile of the stored user of `req.user._id`, 400 "User not found" when it is gone |
| `Users.UserController.GetUsers` | controllers/userController.js:149-152 | status 200 with the id and name of every stored user, each exactly once, and nothing else |
| `Users.UserController.LoginStatus` | controllers/userController.js:155-166 | answers false exactly when the token is falsy, true exactly when it is present and verifies, and throws (no answer) exactly when it is present and does not verify |
| `Users.UserController.UpdateUser` | controllers/userController.js:169-199 | 404 and the store unchanged when the user is absent; otherwise only that user changes, to `Patched` of its stored record, and the reply is 200 with the new profile |
| `Users.UserController.UpdatePassword` | controllers/userController.js:202-229 | the stored digest becomes `hash(newPassword)` only when the user exists, both passwords are truthy and `compare(oldPassword, stored)` holds (reply 200); otherwise 400 with the message of the failed check and the store unchanged |
| `Auth.ProtectLoginUser` | middleware/authMiddleware.js:5-34 | `next` is called at most once, and exactly when the token is truthy, verifies, and names a stored user; then `req.user` is that user without the password and the response is untouched; every other path ends with status 401, the one message "Not authorized, please log in", no `req.user` and no `next` |
| `Products.InsertionPoint` | controllers/productController.js:42 | the place of a product in a newest-first list: after every product at least as new, before the first older one |
| `Products.InsertNewestFirst` | controllers/productController.js:42 | inserting a product at that place adds exactly that product, keeps a newest-first list newest first, and keeps the ids distinct when its id is new |
| `Products.ProductController.CreateProduct` | controllers/productController.js:7-38 | 400 and the store unchanged when any of name, category, inventorynumber, price, statusDevice, model is falsy; otherwise exactly one new product under a fresh id, owned by `req.user.id`, with image `{}` when no file was uploaded and the file's name, path, type and formatted size otherwise, status 201 with that product |
| `Products.ProductController.GetProducts` | controllers/productController.js:41-44 | status 200 with every stored product exactly once, ordered newest `createdAt` first |
| `Products.ProductController.GetProduct` | controllers/productController.js:47-56 | 200 with exactly the stored record when the id is present, 404 "Product not found" otherwise |
| `Products.ProductController.DeleteProduct` | controllers/productController.js:59-70 | 404 and the store unchanged for an unknown id; otherwise only that entry is removed and the reply is 200 with the removed record |
| `Products.ProductController.UpdateProduct` | controllers/productController.js:73-130 | 404 and the store unchanged for an unknown id; otherwise only that product changes: it keeps its id, owner and creation time, keeps its image when no file was uploaded and takes the new file's metadata when one was, and the reply is 201 with the updated record |
| `Sessions.FailedLoginStillOpensSession` | controllers/userController.js:91-115 | a login with a matching email and a wrong password is answered 400, yet the gate admits the token in the cookie it set, when that token verifies |
| `Sessions.LogoutEndsSession` | controllers/userController.js:119-129 | with the cookie logout leaves behind, the login status is false and the gate refuses with its 401 |
| `Sessions.RegisterThenLogin` | controllers/userController.js:41-115 | after a successful registration, a login with the same email and password is answered 200 with the registered profile, when the stored digest matches the password |
| `Sessions.RegisterTwice` | controllers/userController.js:32-38 | a second registration with the same email is refused with 400 "Email is already used" and the store is exactly the old store plus the first registration's new user |
| `Sessions.ChangePasswordThenLogin` | controllers/userController.js:202-229 | after a successful password change, a login with the new password is answered 200, when the new digest matches it |
| `Sessions.DeleteThenGet` | controllers/productController.js:59-70 | a delete answers with the removed record or 404, and a later lookup of the same id is 404 |
| `Sessions.CreateProductRoute` | routes/productRoute.js:11 | the gate runs before `createProduct`: a refused request leaves the product store unchanged; an admitted one with the required fields adds exactly one product, owned by the token's subject, and leaves every existing product unchanged |

## Left out

- Products.ProductController.UpdateProduct: the scalar fields it stores are `applyUpdate(stored, request)`, left uninterpreted, because how `findByIdAndUpdate` treats `undefined` keys and what `runValidators` rejects is Mongoose's behaviour.
- Users.UserController.GetUsers: the order of the listing is not stated, because `User.find` returns the store's natural order.
- Users.UserController.LoginStatus: the message of the thrown error is a stand-in, because it is produced by `jsonwebtoken`.
- `jwt.sign` throwing when the signing secret is missing is not modelled (`sign` is total). In `registerUser` that throw comes after `User.create` (controllers/userController.js:41-48), so the source would store the user and still answer with an error; in `loginUser` the throw (line 94) comes before the cookie is set.
- `findById` throwing a cast error on a malformed id is not modelled, because ids are natural numbers here. The source answers such a request with that error instead of 404 (controllers/productController.js:48, 60, 79).
- `createToken`: not a separate member. JWT signing is foreign and is the parameter `sign`, including the one-day `expiresIn`. Token expiry is whatever `verify` decides.
- Password hashing and comparison (bcryptjs) and the pre-save hook of the user model are the parameters `hash` and `compare`. Salting makes a real digest random; the model takes one fixed digest per password. The hook is assumed to re-hash only a modified password, so a profile update does not re-hash.
- Mongoose `findOne`, `findById`, `create`, `save`, `deleteOne` are map lookups and updates. Store-assigned ids are a counter. Schema defaults of new users are the constant `defaults`. Schema validation and store failures are not modelled. So the `Invalid user data` branch after `User.create` (controllers/userController.js:65-68) is unreachable in the model.
- `createdAt` is the `now` of the create request. `updatedAt` is not modelled.
- Request fields are strings or absent. JSON numbers and booleans, whose truthiness differs (`0`, `false`), are not modelled. Password length is the number of characters, not UTF-16 code units.
- `fileSizeFormatter` and multer are the parameter `formatSize` and the `Upload` record.
- `getUser` has no `asyncHandler`. Only its 400 outcome is modelled, not the unhandled rejection it causes.
- Only the create route is composed with the gate (`Sessions.CreateProductRoute`). The other four product routes pass through the same gate first (routes/productRoute.js:8-12). The user routes file is not part of this model.
- The `Token` model and the `crypto` import are unused by these handlers and are not modelled. `server.js` (bootstrap, CORS, parsers, static files, connect and listen) is not modelled either.
- The error middleware that turns a thrown error into a JSON body is not modelled. Cookie serialisation, `console.log`, async scheduling and concurrent requests are not modelled either.
