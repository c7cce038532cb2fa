/** `AuthService`: registration, login and lookup of users over the `users`
    collection. A user object is seen only through its four getters; the
    document a registration inserts receives the generated id `newId`. */
module Auth {
  import opened Common
  import opened Documents

  /** What `getName`, `getEmail`, `getPassword` and `getUserType` return. */
  datatype User = User(name: string, email: string, password: string, userType: string)

  /** The fields `get_user` hands to the user factory, plus the `_id`. */
  datatype UserRecord = UserRecord(userType: Value, name: Value, email: Value, password: Value, id: string)

  const UserExists := "User already exists!"
  const InvalidCredentials := "Invalid credentials!"
  const UserFound := "User found!"
  const UserNotFound := "User not found!"

  function Registered(u: User): string
  {
    "User " + u.name + " registered successfully as " + u.userType + "."
  }

  function LoggedIn(u: User): string
  {
    "User " + u.name + " logged in successfully."
  }

  /** The filter `{"email": e, "password": p}`. */
  function CredentialFilter(email: string, password: string): (f: Doc)
    ensures forall d :: Matches(d, f) <==> Get(d, "email", Null) == Str(email) && Get(d, "password", Null) == Str(password)
  {
    map["email" := Str(email), "password" := Str(password)]
  }

  /** The document `register_user` inserts. */
  function UserDoc(u: User, newId: string): (d: Doc)
    ensures d.Keys == {"_id", "name", "email", "password", "user_type"}
    ensures Get(d, "email", Null) == Str(u.email) && Get(d, "password", Null) == Str(u.password)
    ensures Get(d, "name", Null) == Str(u.name) && Get(d, "user_type", Null) == Str(u.userType)
    ensures Get(d, "_id", Null) == Str(newId)
  {
    map["_id" := Str(newId), "name" := Str(u.name), "email" := Str(u.email),
        "password" := Str(u.password), "user_type" := Str(u.userType)]
  }

  /** No two users share a (string) email. */
  predicate UniqueEmails(users: seq<Doc>)
  {
    forall i, j :: 0 <= i < j < |users| && Get(users[i], "email", Null).Str? ==>
      Get(users[i], "email", Null) != Get(users[j], "email", Null)
  }

  /** No stored user has the (string) email `email`. */
  predicate NewEmail(users: seq<Doc>, email: string)
  {
    forall i :: 0 <= i < |users| ==> Get(users[i], "email", Null) != Str(email)
  }

  /** `register_user`: an email already on file is refused and nothing is
      written; otherwise exactly one document with the user's name, email,
      password and type is appended and the success message names the user
      and the type. */
  function RegisterUser(users: seq<Doc>, u: User, newId: string): (r: (Outcome<string>, seq<Doc>))
    ensures (exists i :: 0 <= i < |users| && Get(users[i], "email", Null) == Str(u.email)) ==>
              r == (Returned(UserExists), users)
    ensures NewEmail(users, u.email) && FindOne(users, Field("_id", Str(newId))).Some? ==>
              r == (Raised("DuplicateKeyError"), users)
    ensures NewEmail(users, u.email) && FindOne(users, Field("_id", Str(newId))).None? ==>
              r == (Returned(Registered(u)), users + [UserDoc(u, newId)])
    ensures r.0 == Returned(Registered(u)) <==> r.1 != users
    ensures r.1 != users ==>
      && |r.1| == |users| + 1 && r.1[..|users|] == users
      && (forall i :: 0 <= i < |users| ==> Get(users[i], "email", Null) != Str(u.email))
      && r.1[|users|].Keys == {"_id", "name", "email", "password", "user_type"}
      && Get(r.1[|users|], "name", Null) == Str(u.name) && Get(r.1[|users|], "email", Null) == Str(u.email)
      && Get(r.1[|users|], "password", Null) == Str(u.password) && Get(r.1[|users|], "user_type", Null) == Str(u.userType)
  {
    if FindOne(users, Field("email", Str(u.email))).Some? then (Returned(UserExists), users)
    else if FindOne(users, Field("_id", Str(newId))).Some? then (Raised("DuplicateKeyError"), users)
    else
      var stored := users + [UserDoc(u, newId)];
      assert stored[..|users|] == users;
      assert |stored| != |users|;
      (Returned(Registered(u)), stored)
  }

  /** Registration keeps emails unique. */
  lemma RegisterKeepsEmailsUnique(users: seq<Doc>, u: User, newId: string)
    requires UniqueEmails(users)
    ensures UniqueEmails(RegisterUser(users, u, newId).1)
  {
    var r := RegisterUser(users, u, newId).1;
    if r != users {
      forall i, j | 0 <= i < j < |r| && Get(r[i], "email", Null).Str?
        ensures Get(r[i], "email", Null) != Get(r[j], "email", Null)
      {
        assert r[i] == users[i];
        if j < |users| {
          assert r[j] == users[j];
        }
      }
    }
  }

  /** `login_user`: true exactly when some document matches both the email
      and the password. */
  function LoginUser(users: seq<Doc>, u: User): (r: (bool, string))
    ensures r.0 <==> exists i :: 0 <= i < |users| && Get(users[i], "email", Null) == Str(u.email)
                                && Get(users[i], "password", Null) == Str(u.password)
    ensures r.1 == if r.0 then LoggedIn(u) else InvalidCredentials
  {
    match FindOne(users, CredentialFilter(u.email, u.password))
    case Some(_) => (true, LoggedIn(u))
    case None => (false, InvalidCredentials)
  }

  /** A new email registers under an unused id, after which the user can
      log in with the same email and password, and registering the same
      email again is refused. */
  lemma RegisterThenLogin(users: seq<Doc>, u: User, newId: string, newId2: string)
    requires NewEmail(users, u.email)
    requires FindOne(users, Field("_id", Str(newId))).None?
    ensures RegisterUser(users, u, newId).0 == Returned(Registered(u))
    ensures LoginUser(RegisterUser(users, u, newId).1, u) == (true, LoggedIn(u))
    ensures var r := RegisterUser(users, u, newId).1; RegisterUser(r, u, newId2) == (Returned(UserExists), r)
  {
    var r := RegisterUser(users, u, newId).1;
    assert r[|users|] == UserDoc(u, newId);
    assert Get(r[|users|], "email", Null) == Str(u.email);
  }

  /** `get_user`: the first document matching both email and password, its
      type, name, email and password read by key (`KeyError` when one is
      missing) together with its `_id`. */
  function GetUser(users: seq<Doc>, email: string, password: string): (r: Outcome<(Option<UserRecord>, string)>)
    ensures r == Returned((None, UserNotFound)) <==>
              forall i :: 0 <= i < |users| ==> !(Get(users[i], "email", Null) == Str(email) && Get(users[i], "password", Null) == Str(password))
    ensures r.Returned? && r.value.0.Some? ==>
      && r.value.1 == UserFound
      && r.value.0.value.email == Str(email) && r.value.0.value.password == Str(password)
  {
    match FindOne(users, CredentialFilter(email, password))
    case None => Returned((None, UserNotFound))
    case Some(i) =>
      var d := users[i];
      if "user_type" in d && "name" in d && "email" in d && "password" in d && "_id" in d then
        Returned((Some(UserRecord(d["user_type"], d["name"], d["email"], d["password"], Show(d["_id"]))), UserFound))
      else Raised("KeyError")
  }

  /** `get_user` finds a user exactly when `login_user` with the same
      credentials succeeds. */
  lemma GetUserIffLogin(users: seq<Doc>, u: User)
    ensures GetUser(users, u.email, u.password) != Returned((None, UserNotFound)) <==> LoginUser(users, u).0
  {
  }
}
