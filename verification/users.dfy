/**
 * The user endpoints of the backend, over the `users` table. The table is a
 * map from id to row. Password hashing and checking (bcrypt) and token
 * signing are not modelled: they are functions the table is given.
 */
module Users {
  import opened Wrappers
  import opened UserModel
  import opened JwtAuth

  /** The `Token` response model. */
  datatype Token = Token(accessToken: string, tokenType: string)

  /** The 404 response of the lookups by id. */
  function NotFound(): HttpError { HttpError(404, "User not found.", map[]) }

  class UserTable {
    var users: map<int, UserRecord>
    /** `pwd_context.hash`. */
    const hash: string -> string
    /** `pwd_context.verify(plain, hashed)`. */
    const verify: (string, string) -> bool
    /** `jwt.encode` with the secret key and HS256. */
    const sign: Claims -> string

    /** Every row is stored under its own id, and no two rows share an email (the `unique` column). */
    ghost predicate Valid()
      reads this
    {
      && (forall id :: id in users ==> users[id].id == id)
      && (forall a, b :: a in users && b in users && users[a].email == users[b].email ==> a == b)
    }

    predicate EmailTaken(email: string)
      reads this
    {
      exists id :: id in users && users[id].email == email
    }

    constructor (hash: string -> string, verify: (string, string) -> bool, sign: Claims -> string)
      ensures Valid() && users == map[]
      ensures this.hash == hash && this.verify == verify && this.sign == sign
    {
      this.hash, this.verify, this.sign := hash, verify, sign;
      users := map[];
    }

    /**
     * `register` (POST /register) and `create_user` (POST /users), which run
     * the same code: a taken email is refused with 400 and the table left
     * alone; otherwise one row is added with the hash of the password, never
     * the password itself. `newId` is the id the database assigns and
     * `now` the creation time.
     */
    method Register(email: string, password: string, newId: int, now: int) returns (r: Result<UserRead, HttpError>)
      requires Valid() && newId !in users
      modifies this`users
      ensures Valid()
      ensures old(EmailTaken(email)) ==>
        r == Failure(HttpError(400, "Email already registered.", map[])) && users == old(users)
      ensures !old(EmailTaken(email)) ==>
        && users == old(users)[newId := UserRecord(newId, email, hash(password), now)]
        && r == Success(UserRead(newId, email, now))
    {
      if EmailTaken(email) {
        r := Failure(HttpError(400, "Email already registered.", map[]));
        return;
      }
      var newUser := UserRecord(newId, email, hash(password), now);
      users := users[newId := newUser];
      r := Success(ToRead(newUser));
    }

    /** `db.query(User).filter(User.email == email).first()`. */
    method FindByEmail(email: string) returns (found: Option<UserRecord>)
      requires Valid()
      ensures found.None? <==> !EmailTaken(email)
      ensures found.Some? ==> found.value.id in users && users[found.value.id] == found.value && found.value.email == email
    {
      if EmailTaken(email) {
        var id :| id in users && users[id].email == email;
        found := Some(users[id]);
      } else {
        found := None;
      }
    }

    /**
     * `login`: an unknown email and a wrong password get the same 401; on
     * success the token's claims are `sub` = the user's id, with the default
     * expiry from `now`.
     */
    method Login(email: string, password: string, now: int) returns (r: Result<Token, HttpError>)
      requires Valid()
      ensures r.Failure? <==>
        !EmailTaken(email) || exists id :: id in users && users[id].email == email && !verify(password, users[id].hashedPassword)
      ensures r.Failure? ==> r.error == HttpError(401, "Incorrect email or password", map[])
      ensures r.Success? ==>
        exists id :: && id in users && users[id].email == email
                     && verify(password, users[id].hashedPassword)
                     && r.value == Token(sign(ClaimsToEncode(map["sub" := Int(id)], now, None)), "bearer")
    {
      var user := FindByEmail(email);
      if user.None? || !verify(password, user.value.hashedPassword) {
        r := Failure(HttpError(401, "Incorrect email or password", map[]));
        return;
      }
      var accessToken := CreateAccessToken(map["sub" := Int(user.value.id)], now, None, sign);
      r := Success(Token(accessToken, "bearer"));
    }

    /** `get_user`: the row with that id, or 404. */
    method GetUser(id: int) returns (r: Result<UserRead, HttpError>)
      ensures id !in users ==> r == Failure(NotFound())
      ensures id in users ==> r == Success(ToRead(users[id]))
    {
      if id !in users {
        r := Failure(NotFound());
        return;
      }
      r := Success(ToRead(users[id]));
    }

    /** The email an update supplies already belongs to another row. */
    predicate Clashes(id: int, email: Option<string>)
      requires id in users
      reads this
    {
      email.Some? && email.value != "" && email.value != users[id].email && EmailTaken(email.value)
    }

    /**
     * `update_user`: 404 for an unknown id. A non-empty `email` replaces the
     * email and a non-empty `password` is hashed into the row; nothing else
     * and no other row changes. The router does not check that the new email
     * is free; the `unique` constraint of the column makes the commit fail,
     * which is a 500 and leaves the table as it was.
     */
    method UpdateUser(id: int, email: Option<string>, password: Option<string>) returns (r: Result<UserRead, HttpError>)
      requires Valid()
      modifies this`users
      ensures Valid()
      ensures id !in old(users) ==> r == Failure(NotFound()) && users == old(users)
      ensures id in old(users) && old(Clashes(id, email)) ==>
        r.Failure? && r.error.status == 500 && users == old(users)
      ensures r.Success? ==>
        var u := old(users[id]);
        var updated := u.(email := if email.Some? && email.value != "" then email.value else u.email,
                          hashedPassword := if password.Some? && password.value != "" then hash(password.value) else u.hashedPassword);
        id in old(users) && users == old(users)[id := updated] && r.value == ToRead(updated)
      ensures id in old(users) && r.Failure? ==> users == old(users)
      ensures id in old(users) && !old(Clashes(id, email)) ==> r.Success?
    {
      if id !in users {
        r := Failure(NotFound());
        return;
      }
      var user := users[id];
      if email.Some? && email.value != "" {
        user := user.(email := email.value);
      }
      if password.Some? && password.value != "" {
        user := user.(hashedPassword := hash(password.value));
      }
      if user.email != users[id].email && EmailTaken(user.email) {
        r := Failure(HttpError(500, "Internal Server Error", map[]));
        return;
      }
      users := users[id := user];
      r := Success(ToRead(user));
    }

    /** `delete_user`: removes exactly the row with that id and returns it, or 404. */
    method DeleteUser(id: int) returns (r: Result<UserRead, HttpError>)
      requires Valid()
      modifies this`users
      ensures Valid()
      ensures id !in old(users) ==> r == Failure(NotFound()) && users == old(users)
      ensures id in old(users) ==> r == Success(ToRead(old(users[id]))) && users == old(users) - {id}
    {
      if id !in users {
        r := Failure(NotFound());
        return;
      }
      var user := users[id];
      users := users - {id};
      r := Success(ToRead(user));
    }

    /** `get_all_users`: every row, in no particular order. */
    method GetAllUsers() returns (all: set<UserRead>)
      ensures forall u :: u in all <==> exists id :: id in users && u == ToRead(users[id])
    {
      all := set id | id in users :: ToRead(users[id]);
    }
  }

  /**
   * A token `Login` hands out, once decoded, authenticates the user who
   * logged in, as long as the user still exists.
   */
  lemma LoginTokenAuthenticates(t: UserTable, id: int, now: int)
    requires t.Valid() && id in t.users
    ensures GetCurrentUser(Decoded(ClaimsToEncode(map["sub" := Int(id)], now, None)), t.users) == Authenticated(t.users[id])
    ensures t.users[id].id == id
  {
    TokenSubjectRoundTrip(id, now, None, t.users);
  }
}
