/** The account lifecycle handlers of `controllers/userController.js` over an
    abstract user store. The foreign libraries are parameters of the controller:
    the password hash of the store's pre-save hook, bcrypt's compare, and JWT
    signing and verification. */
module Users {
  import opened Http

  /** A stored user; `password` holds the digest the store computed. */
  datatype User = User(
    id: Id,
    name: string,
    email: string,
    password: string,
    photo: string,
    department: string,
    phone: string,
    bio: string)

  /** A user without the password field: what the handlers send back and what
      the auth gate attaches to the request as `req.user`. */
  datatype Profile = Profile(
    id: Id,
    name: string,
    email: string,
    photo: string,
    department: string,
    phone: string,
    bio: string)

  function PublicView(u: User): Profile
  {
    Profile(u.id, u.name, u.email, u.photo, u.department, u.phone, u.bio)
  }

  /** The values the user schema gives the profile fields of a new user. */
  datatype ProfileDefaults = ProfileDefaults(photo: string, department: string, phone: string, bio: string)

  /** One entry of the user listing: `_id` and `name` only. */
  datatype NameEntry = NameEntry(id: Id, name: string)

  datatype UserBody =
    | ProfileBody(profile: Profile, token: Option<string>)
    | Message(text: string)
    | LoggedIn(status: bool)
    | Names(entries: seq<NameEntry>)

  /** The fields of `req.body` that a profile update reads. */
  datatype ProfilePatch = ProfilePatch(name: Field, phone: Field, photo: Field, bio: Field, department: Field)

  const FillFields := "Please fill in all required fields"
  const ShortPassword := "Password must have more than 8 characters"
  const EmailUsed := "Email is already used"
  const AddEmailPassword := "Please add email and password"
  const NotRegistered := "User is not registered"
  const InvalidUserData := "Invalid user data"
  const LogoutSuccessful := "Logout successful"
  const UserNotFound := "User not found"
  const PasswordsRequired := "Passwords have to be filled"
  const PasswordChanged := "Password is changed"
  const PasswordIncorrect := "Password is incorrect"

  /** The minimum password length the registration accepts. */
  const MinPasswordLength := 8

  /** `User.findOne({email})` finds a document: an exact, case-sensitive match. */
  predicate EmailTaken(users: map<Id, User>, email: string)
  {
    exists id :: id in users && users[id].email == email
  }

  /** The user `User.findOne({email})` returns. */
  ghost function UserWithEmail(users: map<Id, User>, email: string): (id: Id)
    requires EmailTaken(users, email)
    ensures id in users && users[id].email == email
  {
    var id :| id in users && users[id].email == email; id
  }

  ghost predicate UniqueEmails(users: map<Id, User>)
  {
    forall a, b :: a in users && b in users && users[a].email == users[b].email ==> a == b
  }

  /** The profile update: each of name, phone, photo, bio and department takes the
      request's value when that value is truthy and keeps the stored one
      otherwise; id, email and password never change. */
  function Patched(u: User, p: ProfilePatch): (r: User)
    ensures r.id == u.id && r.email == u.email && r.password == u.password
    ensures r.name == (if Truthy(p.name) then p.name.value else u.name)
    ensures r.phone == (if Truthy(p.phone) then p.phone.value else u.phone)
    ensures r.photo == (if Truthy(p.photo) then p.photo.value else u.photo)
    ensures r.bio == (if Truthy(p.bio) then p.bio.value else u.bio)
    ensures r.department == (if Truthy(p.department) then p.department.value else u.department)
  {
    u.(name := OrElse(p.name, u.name),
       phone := OrElse(p.phone, u.phone),
       photo := OrElse(p.photo, u.photo),
       bio := OrElse(p.bio, u.bio),
       department := OrElse(p.department, u.department))
  }

  /** `list` holds the id and name of every stored user, each exactly once. */
  ghost predicate ListsEveryUser(list: seq<NameEntry>, users: map<Id, User>)
  {
    && (forall i :: 0 <= i < |list| ==> list[i].id in users && list[i].name == users[list[i].id].name)
    && (forall i, j :: 0 <= i < j < |list| ==> list[i].id != list[j].id)
    && (forall id :: id in users ==> exists i :: 0 <= i < |list| && list[i].id == id)
  }

  class UserController {
    /** The digest the store's pre-save hook computes from a plain password. */
    const hash: string -> string
    /** `bcrypt.compare(plain, digest)`. */
    const compare: (string, string) -> bool
    /** `createToken(id)` at time `now`: `jwt.sign({id}, secret, {expiresIn: "1d"})`. */
    const sign: (Id, int) -> string
    /** `jwt.verify(token, secret)` at time `now`: the subject id, or None when it throws. */
    const verify: (string, int) -> Option<Id>
    const defaults: ProfileDefaults

    /** The user collection, keyed by `_id`. */
    var users: map<Id, User>
    /** The id the store assigns to the next user it creates. */
    var nextId: Id

    ghost predicate Valid()
      reads this
    {
      && (forall id :: id in users ==> users[id].id == id && id < nextId)
      && UniqueEmails(users)
    }

    constructor (hash: string -> string, compare: (string, string) -> bool,
                 sign: (Id, int) -> string, verify: (string, int) -> Option<Id>,
                 defaults: ProfileDefaults)
      ensures Valid()
      ensures this.hash == hash && this.compare == compare && this.sign == sign
      ensures this.verify == verify && this.defaults == defaults
      ensures users == map[] && nextId == 0
    {
      this.hash, this.compare, this.sign, this.verify := hash, compare, sign, verify;
      this.defaults := defaults;
      users, nextId := map[], 0;
    }

    /** `registerUser`: presence checks, the length policy, the duplicate-email
        check, then one new user, a session cookie and a 201 reply. */
    method RegisterUser(name: Field, email: Field, password: Field, now: int) returns (res: Response<UserBody>)
      requires Valid()
      modifies this
      ensures Valid()
      ensures !Truthy(name) || !Truthy(email) || !Truthy(password) ==>
        unchanged(this) && res == Failed(400, FillFields)
      ensures Truthy(name) && Truthy(email) && Truthy(password) && |password.value| < MinPasswordLength ==>
        unchanged(this) && res == Failed(400, ShortPassword)
      ensures Truthy(name) && Truthy(email) && Truthy(password) && |password.value| >= MinPasswordLength
              && EmailTaken(old(users), email.value) ==>
        unchanged(this) && res == Failed(400, EmailUsed)
      ensures Truthy(name) && Truthy(email) && Truthy(password) && |password.value| >= MinPasswordLength
              && !EmailTaken(old(users), email.value) ==>
        var u := User(old(nextId), name.value, email.value, hash(password.value),
                      defaults.photo, defaults.department, defaults.phone, defaults.bio);
        var token := sign(u.id, now);
        && u.id !in old(users)
        && users == old(users)[u.id := u]
        && nextId == old(nextId) + 1
        && res == Response(201, Some(SessionCookie(token, now)), Some(ProfileBody(PublicView(u), Some(token))), None)
    {
      res := Fresh();
      if !Truthy(name) || !Truthy(email) || !Truthy(password) {
        res := res.(status := 400, thrown := Some(FillFields));
        return;
      }
      if |password.value| < MinPasswordLength {
        res := res.(status := 400, thrown := Some(ShortPassword));
        return;
      }
      var userExists := EmailTaken(users, email.value);
      if userExists {
        res := res.(status := 400, thrown := Some(EmailUsed));
        return;
      }
      // User.create: the store assigns the id and the pre-save hook hashes the password
      var user := User(nextId, name.value, email.value, hash(password.value),
                       defaults.photo, defaults.department, defaults.phone, defaults.bio);
      users := users[nextId := user];
      nextId := nextId + 1;
      var token := sign(user.id, now);
      res := res.(cookie := Some(SessionCookie(token, now)));
      res := res.(status := 201, body := Some(ProfileBody(PublicView(user), Some(token))));
    }

    /** `loginUser`. The cookie is set as soon as the email matches, before the
        password comparison decides between 200 and 400. */
    method LoginUser(email: Field, password: Field, now: int) returns (res: Response<UserBody>)
      requires Valid()
      ensures !Truthy(email) || !Truthy(password) ==> res == Failed(400, AddEmailPassword)
      ensures Truthy(email) && Truthy(password) && !EmailTaken(users, email.value) ==>
        res == Failed(400, NotRegistered)
      ensures Truthy(email) && Truthy(password) && EmailTaken(users, email.value) ==>
        var u := users[UserWithEmail(users, email.value)];
        var token := sign(u.id, now);
        && res.cookie == Some(SessionCookie(token, now))
        && (compare(password.value, u.password) ==>
              res.status == 200 && res.body == Some(ProfileBody(PublicView(u), Some(token))) && res.thrown == None)
        && (!compare(password.value, u.password) ==>
              res.status == 400 && res.body == None && res.thrown == Some(InvalidUserData))
    {
      res := Fresh();
      if !Truthy(email) || !Truthy(password) {
        res := res.(status := 400, thrown := Some(AddEmailPassword));
        return;
      }
      if !EmailTaken(users, email.value) {
        res := res.(status := 400, thrown := Some(NotRegistered));
        return;
      }
      var id :| id in users && users[id].email == email.value;
      assert id == UserWithEmail(users, email.value);
      var user := users[id];
      var correctPassword := compare(password.value, user.password);
      var token := sign(user.id, now);
      res := res.(cookie := Some(SessionCookie(token, now)));
      if correctPassword {
        res := res.(status := 200, body := Some(ProfileBody(PublicView(user), Some(token))));
      } else {
        res := res.(status := 400, thrown := Some(InvalidUserData));
      }
    }

    /** `logoutUser`: clears the cookie unconditionally; the store is not consulted. */
    method LogoutUser() returns (res: Response<UserBody>)
      ensures res == Response(200, Some(ClearedCookie()), Some(Message(LogoutSuccessful)), None)
      ensures res.cookie.value.name == "token" && res.cookie.value.value == "" && res.cookie.value.expires == 0
    {
      res := Fresh();
      res := res.(cookie := Some(ClearedCookie()));
      res := res.(status := 200, body := Some(Message(LogoutSuccessful)));
    }

    /** `getUser`: the profile of the user the gate attached, or 400 if it is gone. */
    method GetUser(reqUser: Profile) returns (res: Response<UserBody>)
      ensures reqUser.id in users ==> res == Replied(200, ProfileBody(PublicView(users[reqUser.id]), None))
      ensures reqUser.id !in users ==> res == Failed(400, UserNotFound)
    {
      res := Fresh();
      if reqUser.id in users {
        var user := users[reqUser.id];
        res := res.(status := 200, body := Some(ProfileBody(PublicView(user), None)));
      } else {
        res := res.(status := 400, thrown := Some(UserNotFound));
      }
    }

    /** `getUsers`: `User.find({}, {name: 1})`, every user's id and name in the
        store's own order. */
    method GetUsers() returns (res: Response<UserBody>)
      ensures res.status == 200 && res.cookie == None && res.thrown == None
      ensures res.body.Some? && res.body.value.Names? && ListsEveryUser(res.body.value.entries, users)
    {
      var entries: seq<NameEntry> := [];
      var left := users.Keys;
      while left != {}
        invariant left <= users.Keys
        invariant forall i :: 0 <= i < |entries| ==>
          entries[i].id in users.Keys - left && entries[i].name == users[entries[i].id].name
        invariant forall i, j :: 0 <= i < j < |entries| ==> entries[i].id != entries[j].id
        invariant forall id :: id in users && id !in left ==> exists i :: 0 <= i < |entries| && entries[i].id == id
        decreases left
      {
        var id :| id in left;
        ghost var before := entries;
        entries := entries + [NameEntry(id, users[id].name)];
        left := left - {id};
        forall k | k in users && k !in left
          ensures exists i :: 0 <= i < |entries| && entries[i].id == k
        {
          if k == id {
            assert entries[|before|].id == k;
          } else {
            var i :| 0 <= i < |before| && before[i].id == k;
            assert entries[i] == before[i];
          }
        }
      }
      res := Replied(200, Names(entries));
    }

    /** `loginStatus`: false without a token, true when it verifies; a token that
        does not verify makes `jwt.verify` throw, so no answer is sent. */
    method LoginStatus(token: Field, now: int) returns (res: Response<UserBody>)
      ensures res.status == 200 && res.cookie == None
      ensures res.body == Some(LoggedIn(false)) <==> !Truthy(token)
      ensures res.body == Some(LoggedIn(true)) <==> Truthy(token) && verify(token.value, now).Some?
      ensures res.thrown.Some? <==> Truthy(token) && verify(token.value, now).None?
      ensures res.thrown.Some? ==> res.thrown == Some(TokenRejected) && res.body == None
    {
      res := Fresh();
      if !Truthy(token) {
        res := res.(body := Some(LoggedIn(false)));
        return;
      }
      var verified := verify(token.value, now);
      if verified.None? {
        res := res.(thrown := Some(TokenRejected));
        return;
      }
      res := res.(body := Some(LoggedIn(true)));
    }

    /** `updateUser`: merges the request into the stored profile of `req.user`. */
    method UpdateUser(reqUser: Profile, patch: ProfilePatch) returns (res: Response<UserBody>)
      requires Valid()
      modifies this
      ensures Valid()
      ensures reqUser.id !in old(users) ==> unchanged(this) && res == Failed(404, UserNotFound)
      ensures reqUser.id in old(users) ==>
        var u := Patched(old(users)[reqUser.id], patch);
        && users == old(users)[reqUser.id := u]
        && nextId == old(nextId)
        && res == Replied(200, ProfileBody(PublicView(u), None))
    {
      res := Fresh();
      if reqUser.id !in users {
        res := res.(status := 404, thrown := Some(UserNotFound));
        return;
      }
      var user := users[reqUser.id];
      var name, email, photo, department, phone, bio :=
        user.name, user.email, user.photo, user.department, user.phone, user.bio;
      user := user.(email := email);
      user := user.(name := OrElse(patch.name, name));
      user := user.(phone := OrElse(patch.phone, phone));
      user := user.(photo := OrElse(patch.photo, photo));
      user := user.(bio := OrElse(patch.bio, bio));
      user := user.(department := OrElse(patch.department, department));
      users := users[reqUser.id := user];
      res := res.(status := 200, body := Some(ProfileBody(PublicView(user), None)));
    }

    /** `updatePassword`: the stored digest is replaced only when the user exists,
        both passwords are given and the old one matches. */
    method UpdatePassword(reqUser: Profile, oldPassword: Field, newPassword: Field) returns (res: Response<UserBody>)
      requires Valid()
      modifies this
      ensures Valid()
      ensures reqUser.id !in old(users) ==> unchanged(this) && res == Failed(400, UserNotFound)
      ensures reqUser.id in old(users) && (!Truthy(oldPassword) || !Truthy(newPassword)) ==>
        unchanged(this) && res == Failed(400, PasswordsRequired)
      ensures reqUser.id in old(users) && Truthy(oldPassword) && Truthy(newPassword)
              && !compare(oldPassword.value, old(users)[reqUser.id].password) ==>
        unchanged(this) && res == Failed(400, PasswordIncorrect)
      ensures reqUser.id in old(users) && Truthy(oldPassword) && Truthy(newPassword)
              && compare(oldPassword.value, old(users)[reqUser.id].password) ==>
        && users == old(users)[reqUser.id := old(users)[reqUser.id].(password := hash(newPassword.value))]
        && nextId == old(nextId)
        && res == Replied(200, Message(PasswordChanged))
    {
      res := Fresh();
      if reqUser.id !in users {
        res := res.(status := 400, thrown := Some(UserNotFound));
        return;
      }
      if !Truthy(oldPassword) || !Truthy(newPassword) {
        res := res.(status := 400, thrown := Some(PasswordsRequired));
        return;
      }
      var user := users[reqUser.id];
      var correctPassword := compare(oldPassword.value, user.password);
      if correctPassword {
        // save(): the pre-save hook hashes the modified password
        user := user.(password := hash(newPassword.value));
        users := users[reqUser.id := user];
        res := res.(status := 200, body := Some(Message(PasswordChanged)));
      } else {
        res := res.(status := 400, thrown := Some(PasswordIncorrect));
      }
    }
  }
}
