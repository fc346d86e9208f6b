/**
 * routes/auth.js: account registration with an emailed verification code,
 * code verification, sign-in, the profile-image upload and the profile update.
 *
 * The User collection is `users`, in insertion order, so `findOne` is the
 * first match. bcrypt and jwt are the function values of `Bcrypt` and the
 * `sign` parameter; `crypto.randomBytes(3)`, the clock and the new record's id
 * are parameters. The mail transport is commented out in the route and is
 * not modelled. The private routes receive the caller's id as the auth
 * middleware resolved it from the token.
 */
module Auth {
  import opened Common
  import Hex
  import Strings

  datatype User = User(
    id: Id,
    name: string,
    email: string,
    password: string,
    date: int,
    isVerified: bool,
    verificationCode: Option<string>,
    verificationCodeExpires: Option<int>,
    dob: Option<int>,
    userName: Option<string>,
    liveLocation: Option<string>,
    profileImageUrl: Option<string>)

  /** `bcrypt.hash(password, rounds)` and `bcrypt.compare(password, hash)`. */
  datatype Bcrypt = Bcrypt(hash: (string, nat) -> string, compare: (string, string) -> bool)

  const SALT_ROUNDS := 10
  /** One hour in milliseconds: how long a verification code stays valid. */
  const CODE_LIFETIME := 3600000
  const CODE_BYTES := 3
  /** The folder profile images are stored in. */
  const PROFILE_IMAGES := "profiles-Images"

  type Reply = Result<(), HttpError>

  const MISSING_SIGNUP_FIELDS := HttpError(400, "Please provide all required fields: name, email, and password")
  const USER_EXISTS := HttpError(400, "User already exists")
  const MISSING_CODE_FIELDS := HttpError(400, "Email and verification code are required")
  const USER_NOT_FOUND := HttpError(404, "User not found")
  const INVALID_CODE := HttpError(400, "Invalid or expired verification code")
  const INVALID_CREDENTIALS := HttpError(400, "Invalid Credentials")
  const TOKEN_FAILED := HttpError(500, "Failed to generate token")
  const NO_FILE := HttpError(400, "No file uploaded")
  /** The auth middleware's answer when the token's user no longer exists. */
  const AUTH_USER_NOT_FOUND := HttpError(401, "User not found")

  /** bcrypt accepts the password it hashed. */
  ghost predicate Sound(b: Bcrypt)
  {
    forall pw: string {:trigger b.hash(pw, SALT_ROUNDS)} :: b.compare(pw, b.hash(pw, SALT_ROUNDS))
  }

  /** `User.findOne({email})`: the position of the first user with that email. */
  function FindByEmail(users: seq<User>, email: string): (r: Option<nat>)
    ensures r.Some? ==> r.value < |users| && users[r.value].email == email
    ensures r.Some? ==> forall j :: 0 <= j < r.value ==> users[j].email != email
    ensures r.None? ==> forall j :: 0 <= j < |users| ==> users[j].email != email
  {
    if users == [] then None
    else if users[0].email == email then Some(0)
    else match FindByEmail(users[1..], email)
      case None => None
      case Some(i) => Some(i + 1)
  }

  function UserIdOf(u: User): Id { u.id }

  /** `User.findById(id)`. */
  function FindById(users: seq<User>, id: Id): Option<nat>
  {
    PositionOf(users, UserIdOf, id)
  }

  /** Email is a unique index and ids are ObjectIds: no two users share either. */
  predicate Unique(users: seq<User>)
  {
    forall i, j :: 0 <= i < j < |users| ==> users[i].email != users[j].email && users[i].id != users[j].id
  }

  /** Rewriting one user without touching its email or id keeps both unique. */
  lemma ReplaceKeepsUnique(users: seq<User>, i: nat, v: User)
    requires Unique(users) && i < |users|
    requires v.email == users[i].email && v.id == users[i].id
    ensures Unique(users[i := v])
  {
  }

  /** `crypto.randomBytes(3).toString('hex').toUpperCase()`. */
  function Code(random: seq<Byte>): string
  {
    Strings.ToUpper(Hex.Encode(random))
  }

  /** The code is six upper-case hex digits. */
  lemma CodeIsUpperHex(random: seq<Byte>)
    requires |random| == CODE_BYTES
    ensures |Code(random)| == 6
    ensures forall i :: 0 <= i < 6 ==> '0' <= Code(random)[i] <= '9' || 'A' <= Code(random)[i] <= 'F'
  {
    Hex.EncodeDigits(random);
  }

  // ---------------------------------------------------------------------
  // POST /signup

  /**
   * The record signup leaves: the hashed password, the verification code and
   * its expiry one hour from now, and the name copied to userName.
   */
  function NewAccount(b: Bcrypt, id: Id, name: string, email: string, password: string,
                      random: seq<Byte>, now: int): (u: User)
    ensures u.id == id && u.name == name && u.email == email
    ensures u.password == b.hash(password, SALT_ROUNDS)
    ensures u.verificationCode == Some(Code(random))
    ensures u.verificationCodeExpires == Some(now + CODE_LIFETIME)
    ensures u.userName == Some(name) && !u.isVerified && u.date == now
    ensures u.dob.None? && u.liveLocation.None? && u.profileImageUrl.None?
  {
    User(id, name, email, b.hash(password, SALT_ROUNDS), now, false,
         Some(Code(random)), Some(now + CODE_LIFETIME), None, Some(name), None, None)
  }

  /** POST /signup: all three fields are required and the email must be new. */
  function Register(users: seq<User>, b: Bcrypt, name: Option<string>, email: Option<string>,
                    password: Option<string>, newId: Id, random: seq<Byte>, now: int): (out: (Reply, seq<User>))
    ensures out.0.Ok? <==> Truthy(name) && Truthy(email) && Truthy(password) && FindByEmail(users, email.value).None?
    ensures !(Truthy(name) && Truthy(email) && Truthy(password)) ==> out.0 == Err(MISSING_SIGNUP_FIELDS)
    ensures Truthy(name) && Truthy(email) && Truthy(password) && FindByEmail(users, email.value).Some? ==>
      out.0 == Err(USER_EXISTS)
    ensures out.0.Err? ==> out.1 == users
    ensures out.0.Ok? ==> out.1 == users + [NewAccount(b, newId, name.value, email.value, password.value, random, now)]
  {
    if !Truthy(email) || !Truthy(password) || !Truthy(name) then (Err(MISSING_SIGNUP_FIELDS), users)
    else if FindByEmail(users, email.value).Some? then (Err(USER_EXISTS), users)
    else (Ok(()), users + [NewAccount(b, newId, name.value, email.value, password.value, random, now)])
  }

  // ---------------------------------------------------------------------
  // POST /verify-code

  /** `user.verificationCode !== code || Date.now() > user.verificationCodeExpires`. */
  predicate CodeRejected(u: User, code: string, now: int)
  {
    u.verificationCode != Some(code)
    || (match u.verificationCodeExpires case None => false case Some(expires) => now > expires)
  }

  /** A verified user: the flag set, the code and its expiry cleared. */
  function Verified(u: User): (v: User)
    ensures v.isVerified && v.verificationCode.None? && v.verificationCodeExpires.None?
    ensures v.(isVerified := u.isVerified, verificationCode := u.verificationCode,
               verificationCodeExpires := u.verificationCodeExpires) == u
  {
    u.(isVerified := true, verificationCode := None, verificationCodeExpires := None)
  }

  /** POST /verify-code: the code must match and `now` must not be past its expiry. */
  function Verify(users: seq<User>, email: Option<string>, code: Option<string>, now: int): (out: (Reply, seq<User>))
    ensures out.0.Ok? <==> (Truthy(email) && Truthy(code) && FindByEmail(users, email.value).Some?
      && !CodeRejected(users[FindByEmail(users, email.value).value], code.value, now))
    ensures !(Truthy(email) && Truthy(code)) ==> out.0 == Err(MISSING_CODE_FIELDS)
    ensures Truthy(email) && Truthy(code) && FindByEmail(users, email.value).None? ==> out.0 == Err(USER_NOT_FOUND)
    ensures (Truthy(email) && Truthy(code) && FindByEmail(users, email.value).Some?
             && CodeRejected(users[FindByEmail(users, email.value).value], code.value, now)) ==>
      out.0 == Err(INVALID_CODE)
    ensures out.0.Err? ==> out.1 == users
    ensures out.0.Ok? ==> var i := FindByEmail(users, email.value).value;
      out.1 == users[i := Verified(users[i])]
  {
    if !Truthy(email) || !Truthy(code) then (Err(MISSING_CODE_FIELDS), users)
    else match FindByEmail(users, email.value)
      case None => (Err(USER_NOT_FOUND), users)
      case Some(i) =>
        if CodeRejected(users[i], code.value, now) then (Err(INVALID_CODE), users)
        else (Ok(()), users[i := Verified(users[i])])
  }

  // ---------------------------------------------------------------------
  // POST /signin

  /** The `user` part of the token payload and of the response. */
  datatype SessionUser = SessionUser(id: Id, name: string, email: string)

  datatype SignedIn = SignedIn(token: string, user: SessionUser)

  /**
   * `User.findOne({email})`. Mongoose drops an undefined value from the filter,
   * so without an email the query matches every user and returns the first.
   */
  function SigninLookup(users: seq<User>, email: Option<string>): (r: Option<nat>)
    ensures r.Some? ==> r.value < |users|
    ensures email.Some? ==> r == FindByEmail(users, email.value)
    ensures email.None? ==> (r.Some? <==> users != []) && (r.Some? ==> r.value == 0)
  {
    match email
    case None => if users == [] then None else Some(0)
    case Some(e) => FindByEmail(users, e)
  }

  /**
   * POST /signin: one answer for an unknown email and a wrong password; an
   * absent password makes bcrypt throw; `isVerified` is not consulted.
   */
  function Signin(users: seq<User>, b: Bcrypt, sign: SessionUser -> Option<string>,
                  email: Option<string>, password: Option<string>): (r: Result<SignedIn, HttpError>)
    ensures SigninLookup(users, email).None? ==> r == Err(INVALID_CREDENTIALS)
    ensures r.Ok? ==> var u := users[SigninLookup(users, email).value];
      && password.Some? && b.compare(password.value, u.password)
      && r.value.user == SessionUser(u.id, u.name, u.email)
      && Some(r.value.token) == sign(r.value.user)
    ensures SigninLookup(users, email).Some? ==>
      var u := users[SigninLookup(users, email).value];
      var session := SessionUser(u.id, u.name, u.email);
      && (password.None? ==> r == Err(SERVER_ERROR))
      && (password.Some? && !b.compare(password.value, u.password) ==> r == Err(INVALID_CREDENTIALS))
      && (password.Some? && b.compare(password.value, u.password) && sign(session).None? ==> r == Err(TOKEN_FAILED))
      && (password.Some? && b.compare(password.value, u.password) && sign(session).Some? ==> r.Ok?)
  {
    match SigninLookup(users, email)
    case None => Err(INVALID_CREDENTIALS)
    case Some(i) =>
      var u := users[i];
      if password.None? then Err(SERVER_ERROR)
      else if !b.compare(password.value, u.password) then Err(INVALID_CREDENTIALS)
      else
        var session := SessionUser(u.id, u.name, u.email);
        match sign(session)
        case None => Err(TOKEN_FAILED)
        case Some(token) => Ok(SignedIn(token, session))
  }

  // ---------------------------------------------------------------------
  // POST /upload-profile-image and PATCH /update-profile

  /** The fields update-profile answers with. */
  datatype Profile = Profile(dob: Option<int>, userName: Option<string>, liveLocation: Option<string>)

  /**
   * The update: each of dob, userName and liveLocation replaced when its
   * request field is truthy; everything else kept.
   */
  function UpdatedProfile(u: User, dob: Option<string>, parsedDob: int, userName: Option<string>,
                          liveLocation: Option<string>): (v: User)
    ensures v.dob == if Truthy(dob) then Some(parsedDob) else u.dob
    ensures v.userName == if Truthy(userName) then userName else u.userName
    ensures v.liveLocation == if Truthy(liveLocation) then liveLocation else u.liveLocation
    ensures v == u.(dob := v.dob, userName := v.userName, liveLocation := v.liveLocation)
  {
    var withDob := if Truthy(dob) then u.(dob := Some(parsedDob)) else u;
    var withName := if Truthy(userName) then withDob.(userName := userName) else withDob;
    if Truthy(liveLocation) then withName.(liveLocation := liveLocation) else withName
  }

  /**
   * PATCH /update-profile by `caller`: a dob that `new Date` cannot parse fails
   * the save with a cast error, and nothing is stored.
   */
  function Update(users: seq<User>, parseDate: string -> DateInput, caller: Id, dob: Option<string>,
                  userName: Option<string>, liveLocation: Option<string>): (out: (Result<Profile, HttpError>, seq<User>))
    ensures FindById(users, caller).None? ==> out == (Err(AUTH_USER_NOT_FOUND), users)
    ensures Truthy(dob) && parseDate(dob.value).InvalidDate? ==> out.1 == users && out.0.Err?
    ensures FindById(users, caller).Some? && Truthy(dob) && parseDate(dob.value).InvalidDate? ==>
      out.0 == Err(SERVER_ERROR)
    ensures FindById(users, caller).Some? && !(Truthy(dob) && parseDate(dob.value).InvalidDate?) ==> out.0.Ok?
    ensures out.0.Err? ==> out.1 == users
    ensures out.0.Ok? ==> var i := FindById(users, caller).value;
      && |out.1| == |users|
      && (forall j :: 0 <= j < |users| && j != i ==> out.1[j] == users[j])
      && out.0.value == Profile(out.1[i].dob, out.1[i].userName, out.1[i].liveLocation)
      && out.1[i] == UpdatedProfile(users[i], dob, if Truthy(dob) then parseDate(dob.value).millis else 0,
                                    userName, liveLocation)
  {
    match FindById(users, caller)
    case None => (Err(AUTH_USER_NOT_FOUND), users)
    case Some(i) =>
      if Truthy(dob) && parseDate(dob.value).InvalidDate? then (Err(SERVER_ERROR), users)
      else
        var parsed := if Truthy(dob) then parseDate(dob.value).millis else 0;
        var v := UpdatedProfile(users[i], dob, parsed, userName, liveLocation);
        (Ok(Profile(v.dob, v.userName, v.liveLocation)), users[i := v])
  }

  // ---------------------------------------------------------------------
  // Properties of the account lifecycle

  /** `findOne({email})` reads only the emails: collections with the same emails in the same places agree. */
  lemma {:induction false} FindByEmailReadsEmails(users: seq<User>, others: seq<User>, email: string)
    requires |users| == |others|
    requires forall j :: 0 <= j < |users| ==> users[j].email == others[j].email
    ensures FindByEmail(users, email) == FindByEmail(others, email)
  {
    if users != [] {
      FindByEmailReadsEmails(users[1..], others[1..], email);
    }
  }

  /** Sign-in never consults `isVerified`: setting it either way gives the same answer. */
  lemma SigninIgnoresVerification(users: seq<User>, i: nat, verified: bool, b: Bcrypt,
                                  sign: SessionUser -> Option<string>, email: Option<string>, password: Option<string>)
    requires i < |users|
    ensures Signin(users[i := users[i].(isVerified := verified)], b, sign, email, password)
         == Signin(users, b, sign, email, password)
  {
    var others := users[i := users[i].(isVerified := verified)];
    if email.Some? {
      FindByEmailReadsEmails(users, others, email.value);
    }
  }

  /** A fresh account verifies with its code at any time up to and including the expiry instant. */
  lemma SignupThenVerify(users: seq<User>, b: Bcrypt, name: string, email: string, password: string,
                         newId: Id, random: seq<Byte>, now: int, later: int)
    requires Unique(users) && FindByEmail(users, email).None?
    requires name != "" && email != "" && password != ""
    requires now <= later
    ensures var (_, after) := Register(users, b, Some(name), Some(email), Some(password), newId, random, now);
      var code := Code(random);
      code != "" ==>
        (Verify(after, Some(email), Some(code), later).0.Ok? <==> later <= now + CODE_LIFETIME)
  {
    var after := Register(users, b, Some(name), Some(email), Some(password), newId, random, now).1;
    assert after[|users|].email == email;
    assert FindByEmail(after, email) == Some(|users|) by {
      var r := FindByEmail(after, email);
      assert r.Some?;
      assert r.value >= |users|;
    }
  }

  /** The code is cleared on success, so the same request replayed is refused. */
  lemma VerifyReplayRefused(users: seq<User>, email: Option<string>, code: Option<string>, now: int, later: int)
    requires Verify(users, email, code, now).0.Ok?
    ensures var after := Verify(users, email, code, now).1;
      Verify(after, email, code, later).0 == Err(INVALID_CODE)
  {
    var i := FindByEmail(users, email.value).value;
    var after := users[i := Verified(users[i])];
    assert FindByEmail(after, email.value) == Some(i) by {
      var r := FindByEmail(after, email.value);
      assert after[i].email == email.value;
      assert r.Some?;
    }
  }

  /** A new account can sign in at once, verified or not, when bcrypt checks its own hashes. */
  lemma SigninSkipsVerification(users: seq<User>, b: Bcrypt, sign: SessionUser -> Option<string>,
                                name: string, email: string, password: string,
                                newId: Id, random: seq<Byte>, now: int)
    requires Sound(b)
    requires FindByEmail(users, email).None? && name != "" && email != "" && password != ""
    requires sign(SessionUser(newId, name, email)).Some?
    ensures var after := Register(users, b, Some(name), Some(email), Some(password), newId, random, now).1;
      var r := Signin(after, b, sign, Some(email), Some(password));
      && !after[|after| - 1].isVerified
      && r.Ok? && r.value.user == SessionUser(newId, name, email)
  {
    var after := Register(users, b, Some(name), Some(email), Some(password), newId, random, now).1;
    assert after[|users|].email == email;
    assert FindByEmail(after, email) == Some(|users|) by {
      var r := FindByEmail(after, email);
      assert r.Some?;
      assert r.value >= |users|;
    }
    assert b.compare(password, b.hash(password, SALT_ROUNDS));
  }

  /** An unknown email and a wrong password get the same answer. */
  lemma SigninUniformRefusal(users: seq<User>, b: Bcrypt, sign: SessionUser -> Option<string>,
                             email: string, password: string)
    requires FindByEmail(users, email).None?
      || !b.compare(password, users[FindByEmail(users, email).value].password)
    ensures Signin(users, b, sign, Some(email), Some(password)) == Err(INVALID_CREDENTIALS)
  {
  }

  /** Without an email in the body, sign-in checks the password of the first user in the collection. */
  lemma SigninWithoutEmailTriesFirstUser(users: seq<User>, b: Bcrypt, sign: SessionUser -> Option<string>,
                                         password: string)
    requires users != [] && b.compare(password, users[0].password)
    requires sign(SessionUser(users[0].id, users[0].name, users[0].email)).Some?
    ensures var r := Signin(users, b, sign, None, Some(password));
      r.Ok? && r.value.user.id == users[0].id
  {
  }

  lemma SignupKeepsUnique(users: seq<User>, b: Bcrypt, name: Option<string>, email: Option<string>,
                          password: Option<string>, newId: Id, random: seq<Byte>, now: int)
    requires Unique(users) && FindById(users, newId).None?
    ensures Unique(Register(users, b, name, email, password, newId, random, now).1)
  {
  }

  // ---------------------------------------------------------------------
  // The collection the handlers mutate

  class Accounts {
    /** The User collection, in insertion order. */
    var users: seq<User>

    ghost predicate Valid()
      reads this
    {
      Unique(users)
    }

    constructor()
      ensures Valid() && users == []
    {
      users := [];
    }

    /**
     * POST /signup: refuse incomplete input and a known email, then save the
     * hashed account, and save it again with its code, expiry and userName.
     * `newId` is the ObjectId the new document gets.
     */
    method Signup(b: Bcrypt, name: Option<string>, email: Option<string>, password: Option<string>,
                  newId: Id, random: seq<Byte>, now: int) returns (r: Reply)
      requires Valid() && FindById(users, newId).None?
      modifies this
      ensures Valid()
      ensures (r, users) == Register(old(users), b, name, email, password, newId, random, now)
    {
      SignupKeepsUnique(users, b, name, email, password, newId, random, now);
      if !Truthy(email) || !Truthy(password) || !Truthy(name) {
        return Err(MISSING_SIGNUP_FIELDS);
      }
      if FindByEmail(users, email.value).Some? {
        return Err(USER_EXISTS);
      }
      ghost var prior := users;
      var user := User(newId, name.value, email.value, password.value, now, false, None, None, None, None, None, None);
      user := user.(password := b.hash(password.value, SALT_ROUNDS));
      users := users + [user];
      var i := |users| - 1;
      user := user.(verificationCode := Some(Code(random)));
      user := user.(verificationCodeExpires := Some(now + CODE_LIFETIME));
      user := user.(userName := Some(user.name));
      assert user == NewAccount(b, newId, name.value, email.value, password.value, random, now);
      users := users[i := user];
      assert users == prior + [user];
      r := Ok(());
    }

    /** POST /verify-code: check the code and its expiry, then mark the account verified. */
    method VerifyCode(email: Option<string>, code: Option<string>, now: int) returns (r: Reply)
      requires Valid()
      modifies this
      ensures Valid()
      ensures (r, users) == Verify(old(users), email, code, now)
    {
      if !Truthy(email) || !Truthy(code) {
        return Err(MISSING_CODE_FIELDS);
      }
      var found := FindByEmail(users, email.value);
      if found.None? {
        return Err(USER_NOT_FOUND);
      }
      var i := found.value;
      var user := users[i];
      if CodeRejected(user, code.value, now) {
        return Err(INVALID_CODE);
      }
      user := user.(isVerified := true);
      user := user.(verificationCode := None);
      user := user.(verificationCodeExpires := None);
      ReplaceKeepsUnique(users, i, user);
      users := users[i := user];
      r := Ok(());
    }

    /**
     * POST /upload-profile-image: without a file nothing changes; otherwise the
     * caller's profileImageUrl is the upload's public URL. `filename` is the
     * name the disk storage gave the file.
     */
    method UploadProfileImage(caller: Id, filename: Option<string>, protocol: string, host: string)
      returns (r: Result<string, HttpError>)
      requires Valid()
      modifies this
      ensures Valid()
      ensures FindById(old(users), caller).Some? && filename.None? ==> r == Err(NO_FILE) && users == old(users)
      ensures FindById(old(users), caller).None? ==> r.Err? && users == old(users)
      ensures r.Ok? ==> var i := FindById(old(users), caller).value;
        && filename.Some?
        && r.value == UploadUrl(protocol, host, PROFILE_IMAGES, filename.value)
        && users == old(users)[i := old(users)[i].(profileImageUrl := Some(r.value))]
      ensures r.Err? ==> users == old(users)
      ensures r.Ok? <==> filename.Some? && FindById(old(users), caller).Some?
    {
      var found := FindById(users, caller);
      if found.None? {
        return Err(AUTH_USER_NOT_FOUND);
      }
      if filename.None? {
        return Err(NO_FILE);
      }
      var i := found.value;
      var url := UploadUrl(protocol, host, PROFILE_IMAGES, filename.value);
      ReplaceKeepsUnique(users, i, users[i].(profileImageUrl := Some(url)));
      users := users[i := users[i].(profileImageUrl := Some(url))];
      r := Ok(url);
    }

    /** PATCH /update-profile: set each supplied truthy field in turn, then save. */
    method UpdateProfile(parseDate: string -> DateInput, caller: Id, dob: Option<string>,
                         userName: Option<string>, liveLocation: Option<string>) returns (r: Result<Profile, HttpError>)
      requires Valid()
      modifies this
      ensures Valid()
      ensures (r, users) == Update(old(users), parseDate, caller, dob, userName, liveLocation)
    {
      var found := FindById(users, caller);
      if found.None? {
        return Err(AUTH_USER_NOT_FOUND);
      }
      var i := found.value;
      var user := users[i];
      var parsed := 0;
      if Truthy(dob) {
        match parseDate(dob.value)
        case InvalidDate =>
          return Err(SERVER_ERROR);
        case ValidDate(millis) =>
          parsed := millis;
          user := user.(dob := Some(millis));
      }
      if Truthy(userName) {
        user := user.(userName := userName);
      }
      if Truthy(liveLocation) {
        user := user.(liveLocation := liveLocation);
      }
      assert user == UpdatedProfile(users[i], dob, parsed, userName, liveLocation);
      ReplaceKeepsUnique(users, i, user);
      users := users[i := user];
      r := Ok(Profile(user.dob, user.userName, user.liveLocation));
    }
  }
}
