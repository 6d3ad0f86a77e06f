/** Requests in sequence: what one handler's response or store change means for
    the next request. Each method is a client of the handlers' contracts only. */
module Sessions {
  import opened Http
  import opened Users
  import Auth
  import Products

  /** A login with the right email and the wrong password is answered 400, yet the
      cookie it sets carries a token the gate admits: the cookie is set before the
      password comparison is consulted. */
  method FailedLoginStillOpensSession(c: UserController, email: Field, password: Field, now: int, later: int)
    returns (login: Response<UserBody>, gateUser: Option<Profile>, nextCalls: nat)
    requires c.Valid()
    requires Truthy(email) && Truthy(password) && EmailTaken(c.users, email.value)
    requires var u := c.users[UserWithEmail(c.users, email.value)];
      && !c.compare(password.value, u.password)
      && c.sign(u.id, now) != ""
      && c.verify(c.sign(u.id, now), later) == Some(u.id)
    ensures login.status == 400 && login.thrown == Some(InvalidUserData)
    ensures nextCalls == 1
    ensures gateUser == Some(PublicView(c.users[UserWithEmail(c.users, email.value)]))
  {
    login := c.LoginUser(email, password, now);
    var gate;
    gate, gateUser, nextCalls := Auth.ProtectLoginUser(c.users, c.verify, Some(login.cookie.value.value), later);
  }

  /** After logout the client holds an empty `token` cookie: the login status is
      false and the gate refuses with its one 401. */
  method LogoutEndsSession(c: UserController, later: int)
    returns (status: Response<UserBody>, gate: Response<UserBody>, nextCalls: nat)
    ensures status.body == Some(LoggedIn(false))
    ensures nextCalls == 0 && gate == Failed(401, Auth.NotAuthorized)
  {
    var logout := c.LogoutUser();
    var cookie := Some(logout.cookie.value.value);
    status := c.LoginStatus(cookie, later);
    var gateUser;
    gate, gateUser, nextCalls := Auth.ProtectLoginUser(c.users, c.verify, cookie, later);
  }

  /** A successful registration followed by a login with the same credentials is
      answered 200 with the new user's profile, given that the digest the store
      computed matches the plain password. */
  method RegisterThenLogin(c: UserController, name: Field, email: Field, password: Field, now: int, later: int)
    returns (registered: Response<UserBody>, login: Response<UserBody>)
    requires c.Valid()
    requires Truthy(name) && Truthy(email) && Truthy(password) && |password.value| >= MinPasswordLength
    requires !EmailTaken(c.users, email.value)
    requires c.compare(password.value, c.hash(password.value))
    modifies c
    ensures c.Valid()
    ensures registered.status == 201 && login.status == 200
    ensures registered.body.Some? && registered.body.value.ProfileBody?
    ensures login.body == Some(ProfileBody(registered.body.value.profile, Some(c.sign(old(c.nextId), later))))
  {
    registered := c.RegisterUser(name, email, password, now);
    ghost var id := old(c.nextId);
    assert c.users[id].email == email.value;
    assert EmailTaken(c.users, email.value);
    assert UserWithEmail(c.users, email.value) == id;
    login := c.LoginUser(email, password, later);
  }

  /** Registering the same email twice: the second attempt is refused with 400
      and leaves the store as the first left it. */
  method RegisterTwice(c: UserController, name: Field, email: Field, password: Field,
                       name2: Field, password2: Field, now: int)
    returns (first: Response<UserBody>, second: Response<UserBody>)
    requires c.Valid()
    requires Truthy(name) && Truthy(email) && Truthy(password) && |password.value| >= MinPasswordLength
    requires Truthy(name2) && Truthy(password2) && |password2.value| >= MinPasswordLength
    requires !EmailTaken(c.users, email.value)
    modifies c
    ensures c.Valid()
    ensures first.status == 201
    ensures second == Failed(400, EmailUsed)
    ensures c.nextId == old(c.nextId) + 1
    ensures c.users == old(c.users)[old(c.nextId) := User(old(c.nextId), name.value, email.value,
      c.hash(password.value), c.defaults.photo, c.defaults.department, c.defaults.phone, c.defaults.bio)]
  {
    first := c.RegisterUser(name, email, password, now);
    ghost var afterFirst := c.users;
    assert c.users[old(c.nextId)].email == email.value;
    second := c.RegisterUser(name2, email, password2, now);
    assert c.users == afterFirst;
  }

  /** After a password change, a login with the new password succeeds, given
      that the new digest matches it. */
  method ChangePasswordThenLogin(c: UserController, me: Profile, oldPassword: Field, newPassword: Field, now: int)
    returns (changed: Response<UserBody>, login: Response<UserBody>)
    requires c.Valid()
    requires me.id in c.users && c.users[me.id].email != ""
    requires Truthy(oldPassword) && Truthy(newPassword)
    requires c.compare(oldPassword.value, c.users[me.id].password)
    requires c.compare(newPassword.value, c.hash(newPassword.value))
    modifies c
    ensures c.Valid()
    ensures changed == Replied(200, Message(PasswordChanged))
    ensures login.status == 200 && login.thrown == None
  {
    var email := c.users[me.id].email;
    changed := c.UpdatePassword(me, oldPassword, newPassword);
    assert c.users[me.id].email == email;
    assert UserWithEmail(c.users, email) == me.id;
    login := c.LoginUser(Some(email), newPassword, now);
  }

  /** Deleting a product answers with the removed record (or 404), and a later
      lookup of the same id is 404 either way. */
  method DeleteThenGet(pc: Products.ProductController, id: Id)
    returns (deleted: Response<Products.ProductBody>, lookup: Response<Products.ProductBody>)
    requires pc.Valid()
    modifies pc
    ensures pc.Valid()
    ensures id in old(pc.products) ==> deleted == Replied(200, Products.One(old(pc.products)[id]))
    ensures id !in old(pc.products) ==> deleted == Failed(404, Products.ProductNotFound)
    ensures lookup == Failed(404, Products.ProductNotFound)
  {
    deleted := pc.DeleteProduct(id);
    lookup := pc.GetProduct(id);
  }

  /** `POST /api/products`: the gate runs first; a refused request never reaches
      the handler, and an admitted one creates a product owned by the token's
      subject. */
  method CreateProductRoute(users: map<Id, User>, verify: (string, int) -> Option<Id>, token: Field,
                            pc: Products.ProductController, body: Products.Fields,
                            file: Option<Products.Upload>, now: int)
    returns (res: Response<Products.ProductBody>, refused: Option<Response<UserBody>>)
    requires forall id :: id in users ==> users[id].id == id
    requires pc.Valid()
    modifies pc
    ensures pc.Valid()
    ensures !Auth.Admits(users, verify, token, now) ==>
      unchanged(pc) && refused == Some(Failed(401, Auth.NotAuthorized))
    ensures Auth.Admits(users, verify, token, now) && Products.HasRequired(body) ==>
      && refused == None
      && res.status == 201
      && pc.products.Keys == old(pc.products.Keys) + {old(pc.nextId)}
      && pc.products[old(pc.nextId)].user == verify(token.value, now).value
      && (forall id :: id in old(pc.products) ==> pc.products[id] == old(pc.products)[id])
  {
    var gate, reqUser, nextCalls := Auth.ProtectLoginUser(users, verify, token, now);
    if nextCalls == 0 {
      refused := Some(gate);
      res := Fresh();
      return;
    }
    refused := None;
    res := pc.CreateProduct(reqUser.value, body, file, now);
  }
}
