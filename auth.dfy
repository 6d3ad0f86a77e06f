/** The auth gate of `middleware/authMiddleware.js`: extract the `token` cookie,
    verify it, resolve the user it names, admit. Every failure inside the `try`
    is folded by the `catch` into one 401 with one message. */
module Auth {
  import opened Http
  import Users

  const NotAuthorized := "Not authorized, please log in"
  /** The message of the inner throw for a verified token whose user is gone;
      the `catch` replaces it. */
  const GateUserNotFound := "User not found"

  /** The three checks the gate makes: a truthy cookie, a token that verifies,
      and a stored user with the token's subject id. */
  predicate Admits(users: map<Id, Users.User>, verify: (string, int) -> Option<Id>, token: Field, now: int)
  {
    && Truthy(token)
    && verify(token.value, now).Some?
    && verify(token.value, now).value in users
  }

  /** `protectLoginUser`: returns the response, `req.user` as the gate leaves it,
      and how many times `next()` was called. */
  method ProtectLoginUser(users: map<Id, Users.User>, verify: (string, int) -> Option<Id>, token: Field, now: int)
    returns (res: Response<Users.UserBody>, reqUser: Option<Users.Profile>, nextCalls: nat)
    ensures nextCalls <= 1
    ensures nextCalls == 1 <==> Admits(users, verify, token, now)
    ensures nextCalls == 1 ==>
      && reqUser == Some(Users.PublicView(users[verify(token.value, now).value]))
      && res == Fresh()
    ensures nextCalls == 0 ==> reqUser == None && res == Failed(401, NotAuthorized)
  {
    res := Fresh();
    reqUser := None;
    nextCalls := 0;
    // the message of an error thrown inside the `try`, if any
    var raised: Option<string> := None;
    if !Truthy(token) {
      res := res.(status := 401);
      raised := Some(NotAuthorized);
    } else {
      var verified := verify(token.value, now);
      if verified.None? {
        raised := Some(TokenRejected);
      } else {
        // look up the token's subject and drop the password from what is loaded
        var user: Option<Users.Profile> :=
          if verified.value in users then Some(Users.PublicView(users[verified.value])) else None;
        if user.None? {
          res := res.(status := 401);
          raised := Some(GateUserNotFound);
        } else {
          reqUser := user;
          nextCalls := nextCalls + 1;
        }
      }
    }
    if raised.Some? {
      // the catch: one status and one message for every failure
      res := res.(status := 401, thrown := Some(NotAuthorized));
    }
  }
}
