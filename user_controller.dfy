/** Users: registration, the refresh-token store behind login, login and logout.
    Uploads, token signing and password hashing happen outside the model: their results
    are parameters. */
module UserController {

  import opened Js
  import opened ObjectIds
  import opened Envelope
  import opened Tables
  import opened Text
  import opened Records
  import opened Db

  /** What a response does to the client's cookies. */
  datatype CookieOp = SetCookie(name: string, value: string) | ClearCookie(name: string)

  /** `field?.trim() === ""`: a present field made only of white space; an undefined
      field is not blank. */
  predicate Blank(field: Option<string>)
  {
    field.Some? && Trim(field.value) == ""
  }

  /** The registration check: some field is blank. */
  predicate AnyBlank(fullName: Option<string>, email: Option<string>, username: Option<string>, password: Option<string>)
  {
    Blank(fullName) || Blank(email) || Blank(username) || Blank(password)
  }

  /** One condition of `$or: [{username}, {email}]`; a condition on an undefined field
      matches nothing. */
  predicate NameOrEmailMatch(u: User, username: Option<string>, email: Option<string>)
  {
    (username.Some? && u.username == username.value) || (email.Some? && u.email == email.value)
  }

  /** `User.findOne({$or: [{username}, {email}]})`: the first user whose username or
      email is the one given. */
  function FindByNameOrEmail(users: seq<User>, username: Option<string>, email: Option<string>): (r: Option<nat>)
    ensures r.Some? ==> r.value < |users| && NameOrEmailMatch(users[r.value], username, email)
    ensures r.Some? ==> forall j :: 0 <= j < r.value ==> !NameOrEmailMatch(users[j], username, email)
    ensures r.None? <==> forall u :: u in users ==> !NameOrEmailMatch(u, username, email)
  {
    var r := IndexWhere(users, (u: User) => NameOrEmailMatch(u, username, email));
    assert r.None? ==> forall u :: u in users ==> !NameOrEmailMatch(u, username, email) by {
      if r.None? {
        forall u | u in users ensures !NameOrEmailMatch(u, username, email) {
          var j :| 0 <= j < |users| && users[j] == u;
        }
      }
    }
    r
  }

  /** The checks of registeredUser, in order: a blank field (400), an existing user with
      that username or email (409), no avatar file (400), an avatar upload without a URL
      (409). A field that is undefined passes the first check and makes `User.create`
      fail validation with `validationError`. */
  function RegisterCheck(users: seq<User>, fullName: Option<string>, email: Option<string>, password: Option<string>,
                         username: Option<string>, avatarFile: bool, avatarUrl: Option<string>,
                         validationError: string): (r: Outcome<()>)
    ensures AnyBlank(fullName, email, username, password) ==> r == Fail(400, "All fields are required")
    ensures !AnyBlank(fullName, email, username, password) && FindByNameOrEmail(users, username, email).Some? ==>
      r == Fail(409, "user already exists")
    ensures !AnyBlank(fullName, email, username, password) && FindByNameOrEmail(users, username, email).None?
            && !avatarFile ==>
      r == Fail(400, "Avatar file is required")
    ensures !AnyBlank(fullName, email, username, password) && FindByNameOrEmail(users, username, email).None?
            && avatarFile && !Truthy(avatarUrl) ==>
      r == Fail(409, "Failed to upload avatar")
    ensures r.Err? && r.status == 500 ==> r == Fail(500, validationError)
    ensures r.Ok? <==>
      && !AnyBlank(fullName, email, username, password)
      && FindByNameOrEmail(users, username, email).None?
      && avatarFile && Truthy(avatarUrl)
      && fullName.Some? && email.Some? && username.Some? && password.Some?
    ensures r.Ok? ==> forall u :: u in users ==> u.username != username.value && u.email != email.value
  {
    if AnyBlank(fullName, email, username, password) then Fail(400, "All fields are required")
    else if FindByNameOrEmail(users, username, email).Some? then Fail(409, "user already exists")
    else if !avatarFile then Fail(400, "Avatar file is required")
    else if !Truthy(avatarUrl) then Fail(409, "Failed to upload avatar")
    else if fullName.None? || email.None? || username.None? || password.None? then Fail(500, validationError)
    else Reply(200, (), "")
  }

  /** The user registration creates: `avatarUrl` and `coverUrl` are the `secure_url` of
      the two uploads, and the cover image is `""` when no file was sent or its upload
      has no URL. */
  function NewUser(id: Id, fullName: string, email: string, password: string, username: string,
                   avatarUrl: string, coverFile: bool, coverUrl: Option<string>): (u: User)
    ensures u.id == id && u.username == username && u.email == email && u.fullName == fullName
    ensures u.password == password && u.avatar == avatarUrl
    ensures u.coverImage == (if coverFile && Truthy(coverUrl) then coverUrl.value else "")
    ensures u.refreshToken == None && u.watchHistory == []
  {
    User(id, username, email, fullName, password, avatarUrl,
         if coverFile && Truthy(coverUrl) then coverUrl.value else "", None, [])
  }

  /** `User.create` of a user whose id, username and email are all unused: it is appended
      and the store stays valid. */
  method AddUser(db: Store, u: User)
    requires db.Valid()
    requires FreshKey(db.users, UserId, u.id)
    requires forall v :: v in db.users ==> v.username != u.username && v.email != u.email
    modifies db`users
    ensures db.Valid()
    ensures db.users == old(db.users) + [u]
  {
    DistinctAppend(db.users, UserId, u);
    DistinctAppend(db.users, UserName, u);
    DistinctAppend(db.users, UserEmail, u);
    db.users := db.users + [u];
  }

  /** registeredUser: after the checks, the user is created and returned without its
      secrets, with HTTP 201 and 200 in the body. */
  method RegisterUser(db: Store, fullName: Option<string>, email: Option<string>, password: Option<string>,
                      username: Option<string>, avatarFile: bool, coverFile: bool,
                      avatarUrl: Option<string>, coverUrl: Option<string>, validationError: string, newId: Id)
    returns (r: Outcome<PublicUser>)
    requires db.Valid()
    requires FreshKey(db.users, UserId, newId)
    modifies db`users
    ensures db.Valid()
    ensures var check := RegisterCheck(old(db.users), fullName, email, password, username, avatarFile, avatarUrl, validationError);
      && (check.Err? ==> r == Fail(check.status, check.msg) && db.users == old(db.users))
      && (check.Ok? ==>
            var u := NewUser(newId, fullName.value, email.value, password.value, username.value,
                             avatarUrl.value, coverFile, coverUrl);
            && db.users == old(db.users) + [u]
            && r == Ok(201, 200, Public(u), "user registered successfully"))
  {
    var check := RegisterCheck(db.users, fullName, email, password, username, avatarFile, avatarUrl, validationError);
    if check.Err? {
      r := Fail(check.status, check.msg);
      return;
    }
    var u := NewUser(newId, fullName.value, email.value, password.value, username.value,
                     avatarUrl.value, coverFile, coverUrl);
    AddUser(db, u);
    r := Ok(201, 200, Public(u), "user registered successfully");
  }

  /** The users collection with the refresh token of user `id` set to `token` (absent
      for `undefined`); nothing else changes. */
  function SetRefreshToken(users: seq<User>, id: Id, token: Option<string>): (r: seq<User>)
    ensures |r| == |users|
    ensures forall j :: 0 <= j < |r| ==> r[j].id == users[j].id && Public(r[j]) == Public(users[j])
    ensures forall j :: 0 <= j < |r| ==> r[j] == users[j] || (r[j].id == id && r[j] == users[j].(refreshToken := token))
    ensures Has(users, UserId, id) ==> Get(r, UserId, id) == Some(Get(users, UserId, id).value.(refreshToken := token))
    ensures !Has(users, UserId, id) ==> r == users
    ensures FindKey(r, UserId, id) == FindKey(users, UserId, id)
  {
    match FindKey(users, UserId, id)
    case None => users
    case Some(i) =>
      var r := users[i := users[i].(refreshToken := token)];
      assert FindKey(r, UserId, id) == Some(i) by {
        assert r[i].id == id;
        forall j | 0 <= j < i ensures r[j].id != id {
          assert r[j] == users[j];
        }
      }
      r
  }

  /** Setting the refresh token twice keeps only the second value: a logout after a
      login leaves the user with no refresh token. */
  lemma {:induction false} SetRefreshTokenTwice(users: seq<User>, id: Id, a: Option<string>, b: Option<string>)
    ensures SetRefreshToken(SetRefreshToken(users, id, a), id, b) == SetRefreshToken(users, id, b)
  {
    var once := SetRefreshToken(users, id, a);
    if Has(users, UserId, id) {
      var i := FindKey(users, UserId, id).value;
      assert FindKey(once, UserId, id) == Some(i);
      assert once == users[i := users[i].(refreshToken := a)];
      assert SetRefreshToken(once, id, b) == once[i := once[i].(refreshToken := b)];
      assert SetRefreshToken(users, id, b) == users[i := users[i].(refreshToken := b)];
    }
  }

  lemma SetRefreshTokenKeepsValid(users: seq<User>, id: Id, token: Option<string>)
    requires Distinct(users, UserId) && Distinct(users, UserName) && Distinct(users, UserEmail)
    ensures var r := SetRefreshToken(users, id, token);
      Distinct(r, UserId) && Distinct(r, UserName) && Distinct(r, UserEmail)
  {
    if Has(users, UserId, id) {
      var i := FindKey(users, UserId, id).value;
      var x := users[i].(refreshToken := token);
      DistinctUpdate(users, UserId, i, x);
      DistinctUpdate(users, UserName, i, x);
      DistinctUpdate(users, UserEmail, i, x);
    }
  }

  /** The two tokens a login hands out. */
  datatype Tokens = Tokens(accessToken: string, refreshToken: string)

  /** generateAcessTokenAndRefreshToken: for an existing user, stores the new refresh
      token on its record and returns both tokens; a missing user (401) is caught and
      replaced by a 500. `accessToken` and `refreshToken` are what the user's signing
      methods produce. */
  method GenerateTokens(db: Store, userId: Id, accessToken: string, refreshToken: string)
    returns (r: Outcome<Tokens>)
    requires db.Valid()
    modifies db`users
    ensures db.Valid()
    ensures r.Ok? <==> UserExists(old(db.users), userId)
    ensures r.Err? ==> r == Fail(500, "something went wrong !!") && db.users == old(db.users)
    ensures r.Ok? ==>
      && r.data == Tokens(accessToken, refreshToken)
      && db.users == SetRefreshToken(old(db.users), userId, Some(refreshToken))
      && Get(db.users, UserId, userId).value.refreshToken == Some(refreshToken)
  {
    if !UserExists(db.users, userId) {
      r := Fail(500, "something went wrong !!");
      return;
    }
    SetRefreshTokenKeepsValid(db.users, userId, Some(refreshToken));
    db.users := SetRefreshToken(db.users, userId, Some(refreshToken));
    r := Reply(200, Tokens(accessToken, refreshToken), "");
  }

  /** What a successful login returns: the user without secrets, and both tokens. */
  datatype LoginData = LoginData(authenticatedUser: PublicUser, accessToken: string, refreshToken: string)

  /** The checks of loginUser before any token is made: a missing username, or neither
      email nor password (400); no user with that username or email (404); a wrong
      password (401). On success, the position of the user found. */
  function LoginCheck(users: seq<User>, username: Option<string>, email: Option<string>, password: Option<string>,
                      passwordCorrect: (User, Option<string>) -> bool): (r: Outcome<nat>)
    ensures !Truthy(username) || (!Truthy(email) && !Truthy(password)) ==> r == Fail(400, "all field are required")
    ensures Truthy(username) && (Truthy(email) || Truthy(password)) && FindByNameOrEmail(users, username, email).None? ==>
      r == Fail(404, "user not found!!")
    ensures r.Ok? <==>
      && Truthy(username) && (Truthy(email) || Truthy(password))
      && FindByNameOrEmail(users, username, email).Some?
      && passwordCorrect(users[FindByNameOrEmail(users, username, email).value], password)
    ensures r.Ok? ==> r.data == FindByNameOrEmail(users, username, email).value && r.data < |users|
    ensures r.Err? && r.status == 401 ==> r == Fail(401, "wrong password ")
  {
    if !Truthy(username) || (!Truthy(email) && !Truthy(password)) then
      Fail(400, "all field are required")
    else
      match FindByNameOrEmail(users, username, email)
      case None => Fail(404, "user not found!!")
      case Some(i) =>
        if !passwordCorrect(users[i], password) then Fail(401, "wrong password ")
        else Reply(200, i, "")
  }

  /** loginUser: after the checks, the tokens are generated (which stores the refresh
      token) and both are set as cookies. `passwordCorrect` is the password comparison
      of the user's record. */
  method LoginUser(db: Store, username: Option<string>, email: Option<string>, password: Option<string>,
                   passwordCorrect: (User, Option<string>) -> bool, accessToken: string, refreshToken: string)
    returns (r: Outcome<LoginData>, cookies: seq<CookieOp>)
    requires db.Valid()
    modifies db`users
    ensures db.Valid()
    ensures var check := LoginCheck(old(db.users), username, email, password, passwordCorrect);
      && (check.Err? ==> r == Fail(check.status, check.msg) && cookies == [] && db.users == old(db.users))
      && (check.Ok? ==>
            var u := old(db.users)[check.data];
            && db.users == SetRefreshToken(old(db.users), u.id, Some(refreshToken))
            && r == Reply(200, LoginData(Public(u), accessToken, refreshToken), "user logged in successfully")
            && cookies == [SetCookie("accessToken", accessToken), SetCookie("refreshToken", refreshToken)])
  {
    var check := LoginCheck(db.users, username, email, password, passwordCorrect);
    if check.Err? {
      r, cookies := Fail(check.status, check.msg), [];
      return;
    }
    var u := db.users[check.data];
    assert u in db.users;
    var tokens := GenerateTokens(db, u.id, accessToken, refreshToken);
    var found := Get(db.users, UserId, u.id).value;
    assert Public(found) == Public(u) by {
      var j :| 0 <= j < |db.users| && db.users[j] == found;
      var i :| 0 <= i < |old(db.users)| && old(db.users)[i] == u;
      assert old(db.users)[j].id == u.id;
      assert old(db.users)[j] == u;
    }
    r := Reply(200, LoginData(Public(found), tokens.data.accessToken, tokens.data.refreshToken),
               "user logged in successfully");
    cookies := [SetCookie("accessToken", accessToken), SetCookie("refreshToken", refreshToken)];
  }

  /** logoutUser: the current user's refresh token is removed (`$set` of `undefined`) and
      both cookies are cleared; nothing is checked. */
  method LogoutUser(db: Store, me: Id) returns (r: Outcome<()>, cookies: seq<CookieOp>)
    requires db.Valid()
    modifies db`users
    ensures db.Valid()
    ensures db.users == SetRefreshToken(old(db.users), me, None)
    ensures UserExists(db.users, me) ==> Get(db.users, UserId, me).value.refreshToken == None
    ensures r == Reply(200, (), "user logged out")
    ensures cookies == [ClearCookie("accessToken"), ClearCookie("refreshToken")]
  {
    SetRefreshTokenKeepsValid(db.users, me, None);
    db.users := SetRefreshToken(db.users, me, None);
    r := Reply(200, (), "user logged out");
    cookies := [ClearCookie("accessToken"), ClearCookie("refreshToken")];
  }
}
