/**
 * Accounts: phone normalisation, registration, the farmers' phone-only sign-in (which
 * finds the farmer by phone or creates one), and password sign-in. Password hashing is
 * outside the model: a new hash is passed in, and the two hash checkers are parameters.
 */
module AuthService {
  import opened Wrappers
  import opened Text
  import opened Entities
  import opened Store

  /** `_normalize_phone`: the digits of the input, which must be exactly ten (400 otherwise). */
  function NormalizePhone(phone: Option<string>): (r: Result<string>)
    ensures r.Success? <==> |KeepDigits(OrElse(phone, ""))| == 10
    ensures r.Success? ==> r.value == KeepDigits(OrElse(phone, "")) && |r.value| == 10 && IsDigits(r.value)
    ensures r.Failure? ==> r.error == BadRequest
  {
    var digits := KeepDigits(OrElse(phone, ""));
    if |digits| == 10 then Success(digits) else Failure(BadRequest)
  }

  /** A normalised phone number normalises to itself. */
  lemma NormalizePhoneIdempotent(phone: Option<string>)
    requires NormalizePhone(phone).Success?
    ensures NormalizePhone(Some(NormalizePhone(phone).value)) == NormalizePhone(phone)
  {
    var d := NormalizePhone(phone).value;
    KeepDigitsOfDigits(d);
  }

  /** Keeping the digits of a concatenation keeps those of each part. */
  lemma {:induction false} KeepDigitsAppend(a: string, b: string)
    ensures KeepDigits(a + b) == KeepDigits(a) + KeepDigits(b)
    decreases |a|
  {
    if a == [] {
      assert a + b == b;
    } else {
      assert (a + b)[0] == a[0];
      assert (a + b)[1..] == a[1..] + b;
      KeepDigitsAppend(a[1..], b);
    }
  }

  /** Spaces, dashes, brackets and any other non-digit separators do not change the normalised number. */
  lemma NormalizeIgnoresSeparator(a: string, c: char, b: string)
    requires !IsDigit(c)
    ensures NormalizePhone(Some(a + [c] + b)) == NormalizePhone(Some(a + b))
  {
    assert KeepDigits(a + [c] + b) == KeepDigits(a + b) by {
      KeepDigitsAppend(a + [c], b);
      KeepDigitsAppend(a, [c]);
      KeepDigitsAppend(a, b);
      assert [c][1..] == [];
      assert KeepDigits([c]) == [];
    }
  }

  /** Some account uses this e-mail address. */
  predicate EmailTaken(users: map<int, User>, email: string)
  {
    exists id :: id in users && users[id].email == email
  }

  /** Some farmer (role compared case-insensitively) uses this phone number. */
  predicate FarmerWithPhone(users: map<int, User>, phone: string)
  {
    exists id :: id in users && IsFarmer(users[id]) && users[id].phone == phone
  }

  /** The roles open to self-registration. */
  predicate Registrable(role: string)
  {
    role == "farmer" || role == "owner"
  }

  /** Of the two registrable roles, only "farmer" makes a farmer. */
  lemma RegistrableFarmer(role: string)
    requires Registrable(role)
    ensures Lower(role) == "farmer" <==> role == "farmer"
  {
    LowerNoop(role);
  }

  /** `(email or "").strip().lower()`: the form in which addresses are stored and looked up. */
  function NormalEmail(email: Option<string>): string
  {
    Lower(Strip(OrElse(email, "")))
  }

  /**
   * `register_user`, up to the insert: 400 for another role, 400 for a bad phone number,
   * 400 when the name, e-mail or password is missing, 409 for a known e-mail, and 409 for
   * a farmer whose phone another farmer has; otherwise the new account.
   */
  function Registration(users: map<int, User>, fullName: Option<string>, email: Option<string>,
                        password: Option<string>, role: string, phone: Option<string>, hash: string): (r: Result<User>)
    ensures !Registrable(role) ==> r == Failure(BadRequest)
    ensures r.Success? ==>
      && Registrable(role) && r.value.email == NormalEmail(email) && r.value.email != []
      && Success(r.value.phone) == NormalizePhone(phone)
      && r.value.role == role && r.value.isActive && r.value.lastLogin.None?
      && r.value.fullName == Strip(OrElse(fullName, "")) && r.value.passwordHash == hash
      && OrElse(password, "") != []
      && !EmailTaken(users, r.value.email)
      && (role == "farmer" ==> !FarmerWithPhone(users, r.value.phone))
    ensures r.Failure? ==> r.error == BadRequest || r.error == Conflict
  {
    if !Registrable(role) then Failure(BadRequest)
    else
      var normalizedEmail := NormalEmail(email);
      match NormalizePhone(phone)
      case Failure(e) => Failure(e)
      case Success(normalizedPhone) =>
        if OrElse(fullName, "") == "" || normalizedEmail == "" || OrElse(password, "") == "" then Failure(BadRequest)
        else if EmailTaken(users, normalizedEmail) then Failure(Conflict)
        else if role == "farmer" && FarmerWithPhone(users, normalizedPhone) then Failure(Conflict)
        else
          Success(User(Strip(OrElse(fullName, "")), normalizedEmail, normalizedPhone, hash, role, true, None))
  }

  /** Registration refuses a taken e-mail, and a farmer's phone another farmer holds, with 409. */
  lemma RegistrationConflicts(users: map<int, User>, fullName: string, email: string, password: string, role: string,
                              phone: Option<string>, hash: string)
    requires Registrable(role) && NormalizePhone(phone).Success?
    requires fullName != [] && password != [] && NormalEmail(Some(email)) != []
    ensures EmailTaken(users, NormalEmail(Some(email))) ==>
      Registration(users, Some(fullName), Some(email), Some(password), role, phone, hash) == Failure(Conflict)
    ensures role == "farmer" && FarmerWithPhone(users, NormalizePhone(phone).value) ==>
      Registration(users, Some(fullName), Some(email), Some(password), role, phone, hash) == Failure(Conflict)
  {
  }

  /** Registration succeeds exactly when every check of `register_user` passes. */
  lemma RegistrationAccepts(users: map<int, User>, fullName: Option<string>, email: Option<string>,
                            password: Option<string>, role: string, phone: Option<string>, hash: string)
    ensures Registration(users, fullName, email, password, role, phone, hash).Success? <==>
      && Registrable(role) && NormalizePhone(phone).Success?
      && OrElse(fullName, "") != [] && NormalEmail(email) != [] && OrElse(password, "") != []
      && !EmailTaken(users, NormalEmail(email))
      && (role == "farmer" ==> !FarmerWithPhone(users, NormalizePhone(phone).value))
  {
  }

  /** `register_user`: the account `Registration` accepts is stored under the next id. */
  method RegisterUser(db: Db, fullName: Option<string>, email: Option<string>, password: Option<string>,
                      role: string, phone: Option<string>, hash: string) returns (r: Result<User>)
    modifies db`users, db`nextUserId
    ensures r == Registration(old(db.users), fullName, email, password, role, phone, hash)
    ensures (db.users, db.nextUserId) ==
      if r.Success? then (old(db.users)[old(db.nextUserId) := r.value], old(db.nextUserId) + 1)
      else (old(db.users), old(db.nextUserId))
  {
    r := Registration(db.users, fullName, email, password, role, phone, hash);
    if r.Success? {
      db.users := db.users[db.nextUserId := r.value];
      db.nextUserId := db.nextUserId + 1;
    }
  }

  /** An account whose e-mail is free, and whose phone no other farmer has if it is a farmer, keeps the users valid. */
  lemma AddUserKeepsValid(users: map<int, User>, nextId: nat, u: User)
    requires UsersValid(users, nextId) && !EmailTaken(users, u.email)
    requires IsFarmer(u) ==> !FarmerWithPhone(users, u.phone)
    ensures UsersValid(users[nextId := u], nextId + 1)
  {
    forall i | i in users
      ensures users[i].email != u.email
      ensures IsFarmer(users[i]) && IsFarmer(u) ==> users[i].phone != u.phone
    {
    }
  }

  /** Every account `Registration` accepts can be added. */
  lemma RegistrationKeepsValid(users: map<int, User>, nextId: nat, fullName: Option<string>, email: Option<string>,
                               password: Option<string>, role: string, phone: Option<string>, hash: string)
    requires UsersValid(users, nextId)
    requires Registration(users, fullName, email, password, role, phone, hash).Success?
    ensures UsersValid(users[nextId := Registration(users, fullName, email, password, role, phone, hash).value], nextId + 1)
  {
    var u := Registration(users, fullName, email, password, role, phone, hash).value;
    RegistrableFarmer(role);
    AddUserKeepsValid(users, nextId, u);
  }

  // ---------------------------------------------------------------- phone sign-in

  const InstantDomain: string := "instant.uzhavango.local"

  /** The first address tried for a new farmer: `farmer.<phone>@instant.uzhavango.local`. */
  function PlainEmail(phone: string): string
  {
    "farmer." + phone + "@" + InstantDomain
  }

  /** An address tried after a collision: `farmer.<phone>.<token>@instant.uzhavango.local`. */
  function SuffixedEmail(phone: string, token: string): string
  {
    "farmer." + phone + "." + token + "@" + InstantDomain
  }

  /** The addresses tried, in order: the plain one, then one per random token. */
  function Candidates(phone: string, tokens: seq<string>): (cs: seq<string>)
    ensures |cs| == |tokens| + 1 && cs[0] == PlainEmail(phone)
    ensures forall k :: 0 <= k < |tokens| ==> cs[k + 1] == SuffixedEmail(phone, tokens[k])
  {
    [PlainEmail(phone)] + seq(|tokens|, k requires 0 <= k < |tokens| => SuffixedEmail(phone, tokens[k]))
  }

  /** The first candidate no account uses; None when all are taken. */
  function FirstFree(users: map<int, User>, cs: seq<string>): (found: Option<string>)
    ensures found.Some? ==> found.value in cs && !EmailTaken(users, found.value)
    ensures found.None? <==> forall k :: 0 <= k < |cs| ==> EmailTaken(users, cs[k])
    ensures cs != [] && !EmailTaken(users, cs[0]) ==> found == Some(cs[0])
  {
    if cs == [] then None
    else if !EmailTaken(users, cs[0]) then Some(cs[0])
    else
      var rest := FirstFree(users, cs[1..]);
      assert forall k :: 1 <= k < |cs| ==> cs[k] == cs[1..][k - 1];
      rest
  }

  /**
   * The candidate loop of `farmer_login_or_register`: try the plain address, then draw a
   * suffix for each collision. The random draws are the `tokens`; when they run out with
   * every address taken, None.
   */
  method PickEmail(users: map<int, User>, phone: string, tokens: seq<string>) returns (email: Option<string>)
    ensures email == FirstFree(users, Candidates(phone, tokens))
  {
    var cs := Candidates(phone, tokens);
    var candidate := PlainEmail(phone);
    var i := 0;
    while EmailTaken(users, candidate) && i < |tokens|
      invariant 0 <= i <= |tokens| && candidate == cs[i]
      invariant FirstFree(users, cs) == FirstFree(users, cs[i..])
    {
      FirstFreeSkip(users, cs[i..]);
      assert cs[i..][1..] == cs[i + 1..];
      candidate := SuffixedEmail(phone, tokens[i]);
      i := i + 1;
    }
    if EmailTaken(users, candidate) {
      assert cs[i..] == [candidate];
      FirstFreeSkip(users, cs[i..]);
      return None;
    }
    return Some(candidate);
  }

  /** A taken first candidate is skipped. */
  lemma FirstFreeSkip(users: map<int, User>, cs: seq<string>)
    requires cs != [] && EmailTaken(users, cs[0])
    ensures FirstFree(users, cs) == FirstFree(users, cs[1..])
  {
  }

  /** The outcome of a phone sign-in: the account's id, the account, and whether it was created. */
  datatype Login = Login(userId: int, user: User, created: bool)

  /**
   * `farmer_login_or_register`: 400 for a bad phone number, then for an empty name. A
   * farmer with that phone takes the new name; otherwise a farmer account is created with
   * the first free candidate address. Either way the sign-in time is recorded.
   */
  method FarmerLoginOrRegister(db: Db, fullName: Option<string>, phone: Option<string>, tokens: seq<string>,
                               hash: string, now: int) returns (r: Result<Login>)
    modifies db`users, db`nextUserId
    ensures r.Failure? ==> unchanged(db`users, db`nextUserId)
    ensures NormalizePhone(phone).Failure? ==> r == Failure(BadRequest)
    ensures NormalizePhone(phone).Success? && Strip(OrElse(fullName, "")) == [] ==> r == Failure(BadRequest)
    ensures r.Success? ==> NormalizePhone(phone).Success? && Strip(OrElse(fullName, "")) != []
    ensures r.Success? && !r.value.created ==>
      && r.value.userId in old(db.users) && IsFarmer(old(db.users)[r.value.userId])
      && old(db.users)[r.value.userId].phone == NormalizePhone(phone).value
      && r.value.user == old(db.users)[r.value.userId].(fullName := Strip(OrElse(fullName, "")), lastLogin := Some(now))
      && db.users == old(db.users)[r.value.userId := r.value.user] && db.nextUserId == old(db.nextUserId)
    ensures r.Success? && r.value.created ==>
      && !FarmerWithPhone(old(db.users), NormalizePhone(phone).value)
      && Some(r.value.user.email) == FirstFree(old(db.users), Candidates(NormalizePhone(phone).value, tokens))
      && r.value.user == User(Strip(OrElse(fullName, "")), r.value.user.email, NormalizePhone(phone).value, hash, "farmer", true, Some(now))
      && r.value.userId == old(db.nextUserId)
      && db.users == old(db.users)[r.value.userId := r.value.user] && db.nextUserId == old(db.nextUserId) + 1
    ensures NormalizePhone(phone).Success? && Strip(OrElse(fullName, "")) != [] && r.Failure? ==>
      && r == Failure(Conflict) && !FarmerWithPhone(old(db.users), NormalizePhone(phone).value)
      && FirstFree(old(db.users), Candidates(NormalizePhone(phone).value, tokens)).None?
  {
    var name := Strip(OrElse(fullName, ""));
    var normalized := NormalizePhone(phone);
    if normalized.Failure? {
      return Failure(BadRequest);
    }
    var digits := normalized.value;
    if name == "" {
      return Failure(BadRequest);
    }
    if FarmerWithPhone(db.users, digits) {
      var id :| id in db.users && IsFarmer(db.users[id]) && db.users[id].phone == digits;
      var u := db.users[id].(fullName := name, lastLogin := Some(now));
      db.users := db.users[id := u];
      return Success(Login(id, u, false));
    }
    var email := PickEmail(db.users, digits, tokens);
    if email.None? {
      return Failure(Conflict);
    }
    var u := User(name, email.value, digits, hash, "farmer", true, Some(now));
    var id := db.nextUserId;
    db.users := db.users[id := u];
    db.nextUserId := db.nextUserId + 1;
    r := Success(Login(id, u, true));
  }

  /** Renaming an existing farmer, or creating one under a free address, keeps the users valid. */
  lemma PhoneLoginKeepsValid(users: map<int, User>, nextId: nat, id: int, name: string, now: int,
                             phone: string, email: string, hash: string)
    requires UsersValid(users, nextId)
    ensures id in users ==> UsersValid(users[id := users[id].(fullName := name, lastLogin := Some(now))], nextId)
    ensures !FarmerWithPhone(users, phone) && !EmailTaken(users, email) ==>
      UsersValid(users[nextId := User(name, email, phone, hash, "farmer", true, Some(now))], nextId + 1)
  {
    if !FarmerWithPhone(users, phone) && !EmailTaken(users, email) {
      assert Lower("farmer") == "farmer" by { LowerNoop("farmer"); }
      AddUserKeepsValid(users, nextId, User(name, email, phone, hash, "farmer", true, Some(now)));
    }
  }

  /** Among valid users, the farmer a phone number names is unique. */
  lemma FarmerByPhoneUnique(users: map<int, User>, nextId: nat, i: int, j: int)
    requires UsersValid(users, nextId) && i in users && j in users
    requires IsFarmer(users[i]) && IsFarmer(users[j]) && users[i].phone == users[j].phone
    ensures i == j
  {
  }

  // ---------------------------------------------------------------- password sign-in

  /**
   * `authenticate_user`: 401 for an unknown (stripped, lower-cased) e-mail or a password
   * neither hash checker accepts; a password only the legacy checker accepts has its hash
   * replaced by `rehash`, even when the account then turns out inactive (403); on success
   * the sign-in time is recorded.
   */
  method AuthenticateUser(db: Db, email: Option<string>, password: Option<string>,
                          bcryptOk: (string, string) -> bool, legacyOk: (string, string) -> bool,
                          rehash: string, now: int) returns (r: Result<User>)
    modifies db`users
    ensures !EmailTaken(old(db.users), NormalEmail(email)) ==> r == Failure(Unauthorized) && unchanged(db`users)
    ensures EmailTaken(old(db.users), NormalEmail(email)) ==>
      exists id :: id in old(db.users) && old(db.users)[id].email == NormalEmail(email)
        && SignInOutcome(old(db.users), id, OrElse(password, ""), bcryptOk, legacyOk, rehash, now) == (r, db.users)
  {
    var key := NormalEmail(email);
    if !EmailTaken(db.users, key) {
      return Failure(Unauthorized);
    }
    var id :| id in db.users && db.users[id].email == key;
    r := SignIn(db, id, OrElse(password, ""), bcryptOk, legacyOk, rehash, now);
  }

  /**
   * The password check against the account found: the bcrypt checker first, then the
   * legacy one, whose success replaces the stored hash by `rehash`; then the active flag;
   * then the sign-in time.
   */
  method SignIn(db: Db, id: int, plain: string, bcryptOk: (string, string) -> bool,
                legacyOk: (string, string) -> bool, rehash: string, now: int) returns (r: Result<User>)
    requires id in db.users
    modifies db`users
    ensures (r, db.users) == SignInOutcome(old(db.users), id, plain, bcryptOk, legacyOk, rehash, now)
  {
    var u := db.users[id];
    var valid := bcryptOk(u.passwordHash, plain);
    if !valid {
      valid := legacyOk(u.passwordHash, plain);
      if valid {
        u := u.(passwordHash := rehash);
        db.users := db.users[id := u];
      }
    }
    if !valid {
      r := Failure(Unauthorized);
    } else if !u.isActive {
      r := Failure(Forbidden);
    } else {
      u := u.(lastLogin := Some(now));
      db.users := db.users[id := u];
      assert db.users == old(db.users)[id := u];
      r := Success(u);
    }
  }

  /** What a password sign-in against account `id` returns and leaves in the users table. */
  function SignInOutcome(users: map<int, User>, id: int, plain: string, bcryptOk: (string, string) -> bool,
                         legacyOk: (string, string) -> bool, rehash: string, now: int): (out: (Result<User>, map<int, User>))
    requires id in users
    ensures out.0.Success? <==> (bcryptOk(users[id].passwordHash, plain) || legacyOk(users[id].passwordHash, plain)) && users[id].isActive
    ensures out.0.Failure? ==> out.0.error == (if bcryptOk(users[id].passwordHash, plain) || legacyOk(users[id].passwordHash, plain) then Forbidden else Unauthorized)
    ensures out.0.Success? ==> out.0.value.lastLogin == Some(now) && out.1 == users[id := out.0.value]
    ensures out.1.Keys == users.Keys && (forall k :: k in users && k != id ==> out.1[k] == users[k])
    ensures out.1[id].email == users[id].email && out.1[id].phone == users[id].phone && out.1[id].role == users[id].role
    ensures bcryptOk(users[id].passwordHash, plain) ==> out.1[id].passwordHash == users[id].passwordHash
  {
    var u := users[id];
    if bcryptOk(u.passwordHash, plain) then
      if !u.isActive then (Failure(Forbidden), users)
      else var signedIn := u.(lastLogin := Some(now)); (Success(signedIn), users[id := signedIn])
    else if legacyOk(u.passwordHash, plain) then
      var upgraded := u.(passwordHash := rehash);
      if !upgraded.isActive then (Failure(Forbidden), users[id := upgraded])
      else var signedIn := upgraded.(lastLogin := Some(now)); (Success(signedIn), users[id := signedIn])
    else (Failure(Unauthorized), users)
  }

  /** A sign-in changes no e-mail, phone or role, so the users stay valid. */
  lemma SignInKeepsValid(users: map<int, User>, nextId: nat, id: int, plain: string, bcryptOk: (string, string) -> bool,
                         legacyOk: (string, string) -> bool, rehash: string, now: int)
    requires UsersValid(users, nextId) && id in users
    ensures UsersValid(SignInOutcome(users, id, plain, bcryptOk, legacyOk, rehash, now).1, nextId)
  {
    var after := SignInOutcome(users, id, plain, bcryptOk, legacyOk, rehash, now).1;
    assert forall k :: k in after ==> after[k].email == users[k].email && after[k].phone == users[k].phone && after[k].role == users[k].role;
  }
}
