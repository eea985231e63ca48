/** The authentication service (backend/app/application/services/auth_service.py)
  * over a user repository held as a sequence of stored users, in which a
  * lookup finds the first match as `find_one` does. Password hashing is
  * the configured salt followed by the hex digest of an uninterpreted
  * PBKDF2 function; tokens are made and read by `TokenService`. Clock
  * readings and fresh user ids are passed in. */
module AuthService {
  import opened Wrappers
  import opened PyStr
  import opened Json
  import opened UserModel
  import TokenService

  /** `settings.auth_provider`, read as one of the three providers the
    * service knows or another name. */
  datatype Provider = NoAuth | LocalAuth | PasswordAuth | Unsupported(name: string)

  /** The provider a configured name selects. */
  function ProviderOf(name: string): (p: Provider)
    ensures p.NoAuth? <==> name == "none"
    ensures p.LocalAuth? <==> name == "local"
    ensures p.PasswordAuth? <==> name == "password"
    ensures p.Unsupported? ==> p.name == name
  {
    if name == "none" then NoAuth
    else if name == "local" then LocalAuth
    else if name == "password" then PasswordAuth
    else Unsupported(name)
  }

  /** The settings the service reads. */
  datatype Settings = Settings(authProvider: Provider, passwordSalt: Option<string>, hashRounds: Option<int>,
                               localEmail: string, localPassword: string, accessMinutes: int, refreshDays: int)

  /** `hashlib.pbkdf2_hmac('sha256', password, salt, rounds).hex()`. */
  type Pbkdf2 = (string, string, int) -> string

  const RegistrationClosedError: string := "Registration is not allowed"
  const PasswordError: string := "Password must be at least 6 characters long"
  const NewPasswordError: string := "New password must be at least 6 characters long"
  const EmailExistsError: string := "Email already exists"
  const UserNotFoundError: string := "User not found"
  const InactiveError: string := "User account is inactive"
  const OldPasswordError: string := "Invalid old password"
  const InvalidRefreshError: string := "Invalid refresh token"
  const TokenTypeError: string := "Invalid token type"
  const RefreshUserError: string := "User not found or inactive"
  const LogoutError: string := "Logout is not allowed"

  // ---------------------------------------------------------------------
  // Passwords

  /** `settings.password_salt or ''`. */
  function Salt(s: Settings): (r: string)
    ensures s.passwordSalt.Some? ==> r == s.passwordSalt.value
    ensures s.passwordSalt.None? ==> r == []
  {
    match s.passwordSalt
    case None => []
    case Some(salt) => if salt == [] then [] else salt
  }

  /** `settings.password_hash_rounds or 10`: never zero. */
  function Rounds(s: Settings): (r: int)
    ensures r != 0
    ensures s.hashRounds.Some? && s.hashRounds.value != 0 ==> r == s.hashRounds.value
    ensures s.hashRounds.None? || s.hashRounds == Some(0) ==> r == 10
  {
    match s.hashRounds
    case None => 10
    case Some(n) => if n == 0 then 10 else n
  }

  /** `_hash_password`: the salt, then the hex digest. */
  function HashPassword(kdf: Pbkdf2, s: Settings, password: string): (r: string)
    ensures Salt(s) <= r && r[|Salt(s)|..] == kdf(password, Salt(s), Rounds(s))
  {
    Salt(s) + kdf(password, Salt(s), Rounds(s))
  }

  /** `_verify_password`: an empty stored hash never verifies; otherwise
    * the password is hashed again (with the configured salt, not one read
    * from the stored hash) and compared. */
  function VerifyPassword(kdf: Pbkdf2, s: Settings, password: string, stored: string): (r: bool)
    ensures stored == [] ==> !r
    ensures r ==> Salt(s) <= stored
  {
    if stored == [] then false else HashPassword(kdf, s, password) == stored
  }

  /** A password verifies against its own hash; and a hash verifies only
    * the passwords whose digest is the stored one. */
  lemma HashThenVerify(kdf: Pbkdf2, s: Settings, password: string, other: string)
    requires kdf(password, Salt(s), Rounds(s)) != []
    ensures VerifyPassword(kdf, s, password, HashPassword(kdf, s, password))
    ensures VerifyPassword(kdf, s, other, HashPassword(kdf, s, password))
            <==> kdf(other, Salt(s), Rounds(s)) == kdf(password, Salt(s), Rounds(s))
  {
    var salt := Salt(s);
    var a := kdf(password, salt, Rounds(s));
    var b := kdf(other, salt, Rounds(s));
    if salt + b == salt + a {
      assert b == (salt + b)[|salt|..];
    }
  }

  // ---------------------------------------------------------------------
  // The repository

  /** `find_one(email == key)`: the first stored user with that e-mail. */
  function IndexByEmail(users: seq<UserData>, key: string): (r: Option<nat>)
    ensures r.Some? ==> r.value < |users| && users[r.value].email == key
                        && forall j :: 0 <= j < r.value ==> users[j].email != key
    ensures r.None? ==> forall j :: 0 <= j < |users| ==> users[j].email != key
  {
    if users == [] then None
    else if users[0].email == key then Some(0)
    else match IndexByEmail(users[1..], key)
      case None => None
      case Some(i) => Some(i + 1)
  }

  /** `find_one(user_id == id)`: the first stored user with that id. */
  function IndexById(users: seq<UserData>, id: string): (r: Option<nat>)
    ensures r.Some? ==> r.value < |users| && users[r.value].id == id
                        && forall j :: 0 <= j < r.value ==> users[j].id != id
    ensures r.None? ==> forall j :: 0 <= j < |users| ==> users[j].id != id
  {
    if users == [] then None
    else if users[0].id == id then Some(0)
    else match IndexById(users[1..], id)
      case None => None
      case Some(i) => Some(i + 1)
  }

  /** `get_user_by_email`: the address is lower-cased (not stripped). */
  function GetUserByEmail(users: seq<UserData>, email: string): (r: Option<nat>)
    ensures r.Some? ==> r.value < |users| && users[r.value].email == Lower(email)
    ensures r.None? ==> forall j :: 0 <= j < |users| ==> users[j].email != Lower(email)
  {
    IndexByEmail(users, Lower(email))
  }

  /** `email_exists`. */
  predicate EmailExists(users: seq<UserData>, email: string)
  {
    GetUserByEmail(users, email).Some?
  }

  /** `update_user`: the first stored user with the same id is replaced;
    * None (a `ValueError`) when there is none. */
  function UpdateUser(users: seq<UserData>, u: UserData): (r: Option<seq<UserData>>)
    ensures r.None? <==> forall j :: 0 <= j < |users| ==> users[j].id != u.id
    ensures r.Some? ==> r.value == users[IndexById(users, u.id).value := u]
  {
    match IndexById(users, u.id)
    case None => None
    case Some(j) => Some(users[j := u])
  }

  /** No two stored users share an e-mail address. */
  predicate UniqueEmails(users: seq<UserData>)
  {
    forall i, j :: 0 <= i < j < |users| ==> users[i].email != users[j].email
  }

  /** The error the database driver raises when an insert would break the
    * unique index on the users' e-mail field. */
  const DuplicateKeyError: string := "E11000 duplicate key error"

  /** `create_user`: the document is inserted, unless a stored user has the
    * same address, which the unique index on `email` refuses. */
  function CreateUser(users: seq<UserData>, u: UserData): (r: Result<seq<UserData>, string>)
    ensures r.Ok? <==> forall j :: 0 <= j < |users| ==> users[j].email != u.email
    ensures r.Ok? ==> r.value == users + [u]
    ensures r.Err? ==> r.error == DuplicateKeyError
  {
    if exists j :: 0 <= j < |users| && users[j].email == u.email then Err(DuplicateKeyError) else Ok(users + [u])
  }

  /** The unique index keeps the stored addresses distinct. */
  lemma CreateUserKeepsUnique(users: seq<UserData>, u: UserData)
    ensures UniqueEmails(users) && CreateUser(users, u).Ok? ==> UniqueEmails(CreateUser(users, u).value)
  {
    if UniqueEmails(users) && CreateUser(users, u).Ok? {
      AppendUnique(users, u);
    }
  }

  // ---------------------------------------------------------------------
  // Registration

  /** The address a `User` built from `email.lower()` stores, once its
    * validator has stripped and lower-cased it again. */
  function StoredEmail(email: string): string
  {
    Lower(Strip(Lower(email)))
  }

  lemma LowerKeepsAt(e: string)
    requires '@' in e
    ensures '@' in Lower(e)
  {
    var i :| 0 <= i < |e| && e[i] == '@';
    assert Lower(e)[i] == '@';
  }

  /** The stored address is in normal form. */
  lemma {:induction false} StoredEmailNormal(email: string)
    requires '@' in email
    ensures NormalEmail(StoredEmail(email)) && ValidateEmail(Lower(email)) == Ok(StoredEmail(email))
  {
    LowerKeepsAt(email);
    EmailIdempotent(Lower(email));
  }

  /** `register_user`'s checks, in the source's order; `probe` is the
    * address handed to `email_exists`. */
  function RegisterChecks(s: Settings, users: seq<UserData>, fullname: string, password: string, email: string,
                          probe: string): (r: Result<(), string>)
    ensures !s.authProvider.PasswordAuth? ==> r == Err(RegistrationClosedError)
    ensures s.authProvider.PasswordAuth? && |Strip(fullname)| < 2 ==> r == Err(FullnameError)
    ensures s.authProvider.PasswordAuth? && |Strip(fullname)| >= 2 && '@' !in email ==> r == Err(EmailError)
    ensures s.authProvider.PasswordAuth? && |Strip(fullname)| >= 2 && '@' in email && |password| < 6
            ==> r == Err(PasswordError)
    ensures var fieldsOk := s.authProvider.PasswordAuth? && |Strip(fullname)| >= 2 && '@' in email && |password| >= 6;
            (fieldsOk && EmailExists(users, probe) ==> r == Err(EmailExistsError))
            && (r == Ok(()) <==> fieldsOk && !EmailExists(users, probe))
    ensures r.Err? ==> r.error in {RegistrationClosedError, FullnameError, EmailError, PasswordError, EmailExistsError}
  {
    if !s.authProvider.PasswordAuth? then Err(RegistrationClosedError)
    else if fullname == [] || |Strip(fullname)| < 2 then Err(FullnameError)
    else if email == [] || '@' !in email then Err(EmailError)
    else if password == [] || |password| < 6 then Err(PasswordError)
    else if EmailExists(users, probe) then Err(EmailExistsError)
    else Ok(())
  }

  /** The `User` a registration that passed its checks builds. */
  function Registered(kdf: Pbkdf2, s: Settings, fullname: string, password: string, email: string, role: UserRole,
                      id: string, now: int): (r: Result<UserData, string>)
    ensures |Strip(fullname)| >= 2 && '@' in email ==>
              r == Ok(UserData(id, Strip(fullname), StoredEmail(email), Some(HashPassword(kdf, s, password)), role, true,
                               now, now, None))
  {
    var u := NewUser(id, Strip(fullname), Lower(email), Some(HashPassword(kdf, s, password)), role, true, now, now, None);
    if |Strip(fullname)| >= 2 && '@' in email then
      StripIdempotent(fullname);
      LowerKeepsAt(email);
      u
    else u
  }

  /** `register_user` as written: the existence check is made on the
    * address as given (lower-cased by the repository but not stripped),
    * while the address stored is also stripped; the new user is then
    * inserted. The result is the user and the users stored after it. */
  function RegisterAsWritten(kdf: Pbkdf2, s: Settings, users: seq<UserData>, fullname: string, password: string,
                             email: string, role: UserRole, id: string, now: int): (r: Result<(UserData, seq<UserData>), string>)
    ensures r.Ok? ==> r.value.1 == users + [r.value.0]
    ensures r.Ok? && UniqueEmails(users) ==> UniqueEmails(r.value.1)
    ensures r.Err? ==> r.error in {RegistrationClosedError, FullnameError, EmailError, PasswordError, EmailExistsError,
                                   DuplicateKeyError}
  {
    match RegisterChecks(s, users, fullname, password, email, email)
    case Err(e) => Err(e)
    case Ok(_) =>
      var u := Registered(kdf, s, fullname, password, email, role, id, now).value;
      match CreateUser(users, u)
      case Err(e) => Err(e)
      case Ok(after) =>
        CreateUserKeepsUnique(users, u);
        Ok((u, after))
  }

  lemma SpacePrefixStored(e: string)
    requires Strip(e) == e && Lower(e) == e
    ensures StoredEmail([' '] + e) == e
  {
    LowerCons(' ', e);
    assert LowerChar(' ') == ' ';
    var l := Lower([' '] + e);
    assert l == [' '] + e;
    StripSpaceCons(e);
    assert Strip(l) == e;
  }

  lemma PaddedLower(e: string)
    requires Lower(e) == e
    ensures Lower([' '] + e) == [' '] + e
  {
    LowerCons(' ', e);
    assert LowerChar(' ') == ' ';
  }

  lemma PaddedAt(e: string)
    requires '@' in e
    ensures '@' in [' '] + e
  {
    var i :| 0 <= i < |e| && e[i] == '@';
    assert ([' '] + e)[i + 1] == '@';
  }

  lemma PaddedUnknown(existing: UserData)
    requires Lower(existing.email) == existing.email
    ensures !EmailExists([existing], [' '] + existing.email)
  {
    PaddedLower(existing.email);
    assert |existing.email| != |[' '] + existing.email|;
  }

  lemma ChecksPass(s: Settings, users: seq<UserData>, fullname: string, password: string, email: string)
    requires s.authProvider.PasswordAuth? && |Strip(fullname)| >= 2 && |password| >= 6
    requires '@' in email && !EmailExists(users, email)
    ensures RegisterChecks(s, users, fullname, password, email, email) == Ok(())
  {
  }

  lemma StoredStripped(a: string)
    ensures Strip(StoredEmail(a)) == StoredEmail(a)
  {
    StripIdempotent(Lower(a));
    LowerStripped(Strip(Lower(a)));
  }

  lemma StoredHasAt(a: string)
    requires '@' in a
    ensures '@' in StoredEmail(a)
  {
    LowerKeepsAt(a);
    StripKeeps(Lower(a), '@');
    LowerKeepsAt(Strip(Lower(a)));
  }

  /** A stored address with a space put in front is stored as the old
    * one. */
  lemma PaddedStored(a: string)
    ensures StoredEmail([' '] + StoredEmail(a)) == StoredEmail(a)
  {
    StoredStripped(a);
    StoredEmailLower(a);
    SpacePrefixStored(StoredEmail(a));
  }

  /** An address with a leading space passes the existence check although
    * its stripped form is stored already: the insert then fails on the
    * unique index with the driver's error, where the check made on the
    * stored address reports that the address exists. Here the existing
    * user's address was stored from `a`. */
  lemma {:induction false} DuplicateEmailFinding(kdf: Pbkdf2, s: Settings, existing: UserData, a: string,
                                                 fullname: string, password: string, id: string, now: int)
    requires s.authProvider.PasswordAuth? && '@' in a && existing.email == StoredEmail(a)
    requires |Strip(fullname)| >= 2 && |password| >= 6
    ensures RegisterAsWritten(kdf, s, [existing], fullname, password, [' '] + existing.email, Regular, id, now)
            == Err(DuplicateKeyError)
    ensures Register(kdf, s, [existing], fullname, password, [' '] + existing.email, Regular, id, now)
            == Err(EmailExistsError)
  {
    var e := existing.email;
    var padded := [' '] + e;
    PaddedStored(a);
    StoredHasAt(a);
    PaddedAt(e);
    StoredEmailLower(a);
    PaddedUnknown(existing);
    ChecksPass(s, [existing], fullname, password, padded);
    var u := UserData(id, Strip(fullname), e, Some(HashPassword(kdf, s, password)), Regular, true, now, now, None);
    assert Registered(kdf, s, fullname, password, padded, Regular, id, now) == Ok(u);
    assert [existing][0].email == u.email;
    assert CreateUser([existing], u) == Err(DuplicateKeyError);
    assert StoredEmail(padded) == e;
    assert GetUserByEmail([existing], e) == Some(0);
  }

  /** `register_user` with the existence check made on the address that
    * will be stored. */
  function Register(kdf: Pbkdf2, s: Settings, users: seq<UserData>, fullname: string, password: string,
                    email: string, role: UserRole, id: string, now: int): (r: Result<UserData, string>)
    ensures r.Ok? <==> s.authProvider.PasswordAuth? && |Strip(fullname)| >= 2 && '@' in email && |password| >= 6
                       && !EmailExists(users, StoredEmail(email))
    ensures r.Ok? ==> r.value == UserData(id, Strip(fullname), StoredEmail(email), Some(HashPassword(kdf, s, password)),
                                          role, true, now, now, None)
    ensures r.Err? ==> RegisterChecks(s, users, fullname, password, email, StoredEmail(email)) == Err(r.error)
  {
    match RegisterChecks(s, users, fullname, password, email, StoredEmail(email))
    case Err(e) => Err(e)
    case Ok(_) => Registered(kdf, s, fullname, password, email, role, id, now)
  }

  /** An address in lower case that `email_exists` does not find is held
    * by no stored user. */
  lemma AbsentAddress(users: seq<UserData>, e: string)
    requires Lower(e) == e && !EmailExists(users, e)
    ensures forall j :: 0 <= j < |users| ==> users[j].email != e
  {
  }

  lemma AppendUnique(users: seq<UserData>, u: UserData)
    requires UniqueEmails(users) && forall j :: 0 <= j < |users| ==> users[j].email != u.email
    ensures UniqueEmails(users + [u])
  {
    var all := users + [u];
    forall i, j | 0 <= i < j < |all|
      ensures all[i].email != all[j].email
    {
      if j == |users| {
        assert all[i] == users[i];
      }
    }
  }

  /** The stored address is in lower case. */
  lemma StoredEmailLower(email: string)
    ensures Lower(StoredEmail(email)) == StoredEmail(email)
  {
    LowerIdempotent(Strip(Lower(email)));
  }

  /** A registration keeps the stored addresses distinct. */
  lemma {:induction false} RegisterKeepsEmailsUnique(kdf: Pbkdf2, s: Settings, users: seq<UserData>, fullname: string,
                                                     password: string, email: string, role: UserRole, id: string, now: int)
    requires UniqueEmails(users)
    requires Register(kdf, s, users, fullname, password, email, role, id, now).Ok?
    ensures UniqueEmails(users + [Register(kdf, s, users, fullname, password, email, role, id, now).value])
  {
    var u := Register(kdf, s, users, fullname, password, email, role, id, now).value;
    StoredEmailLower(email);
    AbsentAddress(users, u.email);
    AppendUnique(users, u);
  }

  /** For an address already in normal form, which is what the registration
    * request hands over, the program as written and the corrected check
    * agree, and the insert always succeeds. */
  lemma {:induction false} NormalisedRegisterAgrees(kdf: Pbkdf2, s: Settings, users: seq<UserData>, fullname: string,
                                                    password: string, email: string, role: UserRole, id: string, now: int)
    requires NormalEmail(email)
    ensures var c := Register(kdf, s, users, fullname, password, email, role, id, now);
            var w := RegisterAsWritten(kdf, s, users, fullname, password, email, role, id, now);
            (c.Err? ==> w == Err(c.error)) && (c.Ok? ==> w == Ok((c.value, users + [c.value])))
  {
    assert StoredEmail(email) == email;
    var c := Register(kdf, s, users, fullname, password, email, role, id, now);
    if c.Ok? {
      AbsentAddress(users, email);
    }
  }

  /** A registered user passes the model's validators. */
  lemma {:induction false} RegisteredValid(kdf: Pbkdf2, s: Settings, users: seq<UserData>, fullname: string,
                                           password: string, email: string, role: UserRole, id: string, now: int)
    requires Register(kdf, s, users, fullname, password, email, role, id, now).Ok?
    ensures ValidUser(Register(kdf, s, users, fullname, password, email, role, id, now).value)
  {
    StoredEmailNormal(email);
    StripIdempotent(fullname);
  }

  // ---------------------------------------------------------------------
  // Authentication

  lemma AnonymousNameNormal()
    ensures NormalFullname("anonymous")
  {
    StripNoSpace("anonymous");
  }

  lemma AnonymousEmailNormal()
    ensures NormalEmail("anonymous@localhost")
  {
    var email := "anonymous@localhost";
    assert email[9] == '@';
    StripNoSpace(email);
    LowerNoUpper(email);
  }

  lemma LocalAdminNameNormal()
    ensures NormalFullname("Local Admin")
  {
    StripNoSpace("Local Admin");
  }

  /** The user provider "none" answers with. */
  function AnonymousUser(classTime: int): UserData
  {
    UserData("anonymous", "anonymous", "anonymous@localhost", None, Regular, true, classTime, classTime, None)
  }

  /** It is the `User` built from id, name and address "anonymous",
    * "anonymous" and "anonymous@localhost" with every other field left to
    * its default. */
  lemma AnonymousUserDefaults(classTime: int)
    ensures WithDefaults("anonymous", "anonymous", "anonymous@localhost", Regular, classTime)
            == Ok(AnonymousUser(classTime))
  {
    AnonymousNameNormal();
    AnonymousEmailNormal();
    RebuildValid(AnonymousUser(classTime));
  }

  /** The user provider "local" answers with for the configured address;
    * building it fails when that address has no `@`. */
  function LocalAdmin(email: string, classTime: int): (r: Result<UserData, string>)
    ensures r.Ok? <==> '@' in email
    ensures r.Ok? ==> r.value.id == "local_admin" && r.value.fullname == "Local Admin" && r.value.role == Admin
                      && r.value.isActive && r.value.email == Lower(Strip(email)) && r.value.passwordHash.None?
  {
    LocalAdminNameNormal();
    NormalFullnameFixed("Local Admin");
    WithDefaults("local_admin", "Local Admin", email, Admin, classTime)
  }

  /** The stored user authenticated by provider "password": the first one
    * with the lower-cased address, if it is active and has a hash that
    * the password verifies. */
  predicate PasswordAccepted(kdf: Pbkdf2, s: Settings, users: seq<UserData>, email: string, password: string)
  {
    var i := GetUserByEmail(users, email);
    i.Some? && users[i.value].isActive && users[i.value].passwordHash.Some?
    && users[i.value].passwordHash.value != []
    && VerifyPassword(kdf, s, password, users[i.value].passwordHash.value)
  }

  /** What a password login comes to: nothing changes for a refused
    * login; an accepted one stamps the user's login and update times and
    * stores the user back in its place. */
  function LoginOutcome(kdf: Pbkdf2, s: Settings, users: seq<UserData>, email: string, password: string, now: int)
    : (r: (Option<UserData>, seq<UserData>))
    ensures r.0.None? <==> !PasswordAccepted(kdf, s, users, email, password)
    ensures r.0.None? ==> r.1 == users
    ensures r.0.Some? ==> |r.1| == |users| && r.0.value.email == Lower(email) && r.0.value.lastLoginAt == Some(now)
                          && r.0.value.updatedAt == now && r.0.value in r.1
  {
    if !PasswordAccepted(kdf, s, users, email, password) then (None, users)
    else
      var u := users[GetUserByEmail(users, email).value].(lastLoginAt := Some(now), updatedAt := now);
      var k := IndexById(users, u.id).value;
      assert users[k := u][k] == u;
      (Some(u), users[k := u])
  }

  /** The "password" branch of `authenticate_user`. */
  function PasswordLogin(kdf: Pbkdf2, s: Settings, users: seq<UserData>, email: string, password: string, now: int)
    : (r: Result<(Option<UserData>, seq<UserData>), string>)
    ensures r == Ok(LoginOutcome(kdf, s, users, email, password, now))
  {
    match GetUserByEmail(users, email)
    case None => Ok((None, users))
    case Some(i) =>
      var user := users[i];
      if !user.isActive then Ok((None, users))
      else if user.passwordHash.None? || user.passwordHash.value == [] then Ok((None, users))
      else if !VerifyPassword(kdf, s, password, user.passwordHash.value) then Ok((None, users))
      else
        var logged := user.(lastLoginAt := Some(now), updatedAt := now);
        match UpdateUser(users, logged)
        case None => Err("User not found: " + logged.id)
        case Some(updated) => Ok((Some(logged), updated))
  }

  /** The "local" branch of `authenticate_user`: only the configured
    * address and password log in, as the local administrator. */
  function LocalLogin(s: Settings, users: seq<UserData>, email: string, password: string, classTime: int)
    : (r: Result<(Option<UserData>, seq<UserData>), string>)
    ensures r.Err? <==> email == s.localEmail && password == s.localPassword && '@' !in email
    ensures r.Ok? ==> r.value.1 == users
                      && (r.value.0.Some? <==> email == s.localEmail && password == s.localPassword)
                      && (r.value.0.Some? ==> Ok(r.value.0.value) == LocalAdmin(email, classTime))
  {
    if email == s.localEmail && password == s.localPassword then
      match LocalAdmin(email, classTime)
      case Err(e) => Err(e)
      case Ok(u) => Ok((Some(u), users))
    else Ok((None, users))
  }

  /** `authenticate_user(email, password)` at time `now`: the user (None
    * for a refusal) and the repository afterwards; an `Err` for an
    * exception. */
  function Authenticate(kdf: Pbkdf2, s: Settings, users: seq<UserData>, email: string, password: string, now: int,
                        classTime: int): (r: Result<(Option<UserData>, seq<UserData>), string>)
    ensures s.authProvider.NoAuth? ==> r == Ok((Some(AnonymousUser(classTime)), users))
    ensures s.authProvider.LocalAuth? ==> r == LocalLogin(s, users, email, password, classTime)
    ensures s.authProvider.PasswordAuth? ==> r == Ok(LoginOutcome(kdf, s, users, email, password, now))
    ensures s.authProvider.Unsupported? ==> r == Err("Unsupported auth provider: " + s.authProvider.name)
  {
    match s.authProvider
    case NoAuth => Ok((Some(AnonymousUser(classTime)), users))
    case LocalAuth => LocalLogin(s, users, email, password, classTime)
    case PasswordAuth => PasswordLogin(kdf, s, users, email, password, now)
    case Unsupported(name) => Err("Unsupported auth provider: " + name)
  }

  /** No two stored users share an id. */
  predicate UniqueIds(users: seq<UserData>)
  {
    forall i, j :: 0 <= i < j < |users| ==> users[i].id != users[j].id
  }

  /** With distinct ids, a successful password login changes only the
    * logged-in user's login and update times. */
  lemma {:induction false} LoginTouchesOnlyUser(kdf: Pbkdf2, s: Settings, users: seq<UserData>, email: string,
                                                password: string, now: int, classTime: int)
    requires s.authProvider.PasswordAuth? && UniqueIds(users)
    requires PasswordAccepted(kdf, s, users, email, password)
    ensures var i := GetUserByEmail(users, email).value;
            Authenticate(kdf, s, users, email, password, now, classTime).value.1
            == users[i := users[i].(lastLoginAt := Some(now), updatedAt := now)]
  {
  }

  lemma FreshUserAccepted(kdf: Pbkdf2, s: Settings, users: seq<UserData>, u: UserData, password: string)
    requires Lower(u.email) == u.email && forall j :: 0 <= j < |users| ==> users[j].email != u.email
    requires u.isActive && u.passwordHash == Some(HashPassword(kdf, s, password))
    requires kdf(password, Salt(s), Rounds(s)) != []
    ensures PasswordAccepted(kdf, s, users + [u], u.email, password)
  {
    LastMatch(users, u);
    HashThenVerify(kdf, s, password, password);
    assert (users + [u])[|users|] == u;
  }

  lemma AcceptedLogsIn(kdf: Pbkdf2, s: Settings, users: seq<UserData>, email: string, password: string, now: int,
                       classTime: int)
    requires s.authProvider.PasswordAuth? && PasswordAccepted(kdf, s, users, email, password)
    ensures Authenticate(kdf, s, users, email, password, now, classTime).Ok?
    ensures Authenticate(kdf, s, users, email, password, now, classTime).value.0.Some?
  {
  }

  lemma LastMatch(users: seq<UserData>, u: UserData)
    requires forall j :: 0 <= j < |users| ==> users[j].email != u.email
    ensures IndexByEmail(users + [u], u.email) == Some(|users|)
  {
    var all := users + [u];
    assert all[|users|].email == u.email;
    forall j | 0 <= j < |users|
      ensures all[j].email != u.email
    {
      assert all[j] == users[j];
    }
  }

  /** A registered user can log in with the password given at
    * registration, as long as the PBKDF2 digest is not empty. */
  lemma {:induction false} RegisterThenLogin(kdf: Pbkdf2, s: Settings, users: seq<UserData>, fullname: string,
                                             password: string, email: string, role: UserRole, id: string, now: int,
                                             later: int, classTime: int)
    requires Register(kdf, s, users, fullname, password, email, role, id, now).Ok?
    requires kdf(password, Salt(s), Rounds(s)) != []
    ensures var after := users + [Register(kdf, s, users, fullname, password, email, role, id, now).value];
            Authenticate(kdf, s, after, StoredEmail(email), password, later, classTime).value.0.Some?
  {
    var u := Register(kdf, s, users, fullname, password, email, role, id, now).value;
    var after := users + [u];
    StoredEmailLower(email);
    AbsentAddress(users, u.email);
    FreshUserAccepted(kdf, s, users, u, password);
    AcceptedLogsIn(kdf, s, after, u.email, password, later, classTime);
  }

  // ---------------------------------------------------------------------
  // Tokens

  /** `refresh_access_token(token)` at time `now`: a new access token for
    * the active stored user named by a valid refresh token. */
  function RefreshAccessToken(c: TokenService.Crypto, s: Settings, users: seq<UserData>, token: string, now: int)
    : (r: Result<string, string>)
    ensures r.Ok? ==>
              var p := TokenService.VerifyToken(c, token, now);
              p.Some? && p.value.tokenType == Some(JStr("refresh"))
              && p.value.sub.Some? && p.value.sub.value.JStr?
              && var i := IndexById(users, p.value.sub.value.s);
                 i.Some? && users[i.value].isActive
                 && r.value == TokenService.CreateAccessToken(c, users[i.value], now, s.accessMinutes)
    ensures TokenService.VerifyToken(c, token, now).None? ==> r == Err(InvalidRefreshError)
    ensures var p := TokenService.VerifyToken(c, token, now);
            p.Some? && p.value.tokenType != Some(JStr("refresh")) ==> r.Err?
  {
    match TokenService.VerifyToken(c, token, now)
    case None => Err(InvalidRefreshError)
    case Some(payload) =>
      if payload.Empty() then Err(InvalidRefreshError)
      else if payload.tokenType != Some(JStr("refresh")) then Err(TokenTypeError)
      else
        var found := match payload.sub case Some(JStr(id)) => IndexById(users, id) case _ => None;
        match found
        case None => Err(RefreshUserError)
        case Some(i) =>
          if !users[i].isActive then Err(RefreshUserError)
          else Ok(TokenService.CreateAccessToken(c, users[i], now, s.accessMinutes))
  }

  /** A refresh token the JWT library reads back, still within its
    * lifetime and made for the first stored user with its id, gives a new
    * access token for that user exactly when the user is active; an
    * access token is never accepted as a refresh token. */
  lemma {:induction false} RefreshRoundTrip(c: TokenService.Crypto, s: Settings, users: seq<UserData>, i: nat,
                                            issued: int, now: int)
    requires i < |users| && IndexById(users, users[i].id) == Some(i)
    requires var t := TokenService.CreateRefreshToken(c, users[i], issued, s.refreshDays);
             c.decode(t) == Some(TokenService.RefreshClaims(users[i], issued, s.refreshDays))
    requires now <= issued + 86400 * s.refreshDays
    ensures var t := TokenService.CreateRefreshToken(c, users[i], issued, s.refreshDays);
            RefreshAccessToken(c, s, users, t, now)
            == if users[i].isActive then Ok(TokenService.CreateAccessToken(c, users[i], now, s.accessMinutes))
               else Err(RefreshUserError)
  {
    var t := TokenService.CreateRefreshToken(c, users[i], issued, s.refreshDays);
    assert TokenService.VerifyToken(c, t, now) == Some(TokenService.RefreshClaims(users[i], issued, s.refreshDays));
  }

  lemma AccessTokenNotRefresh(c: TokenService.Crypto, s: Settings, users: seq<UserData>, u: UserData, issued: int,
                              now: int)
    requires var t := TokenService.CreateAccessToken(c, u, issued, s.accessMinutes);
             c.decode(t) == Some(TokenService.AccessClaims(u, issued, s.accessMinutes))
    requires now <= issued + 60 * s.accessMinutes
    ensures RefreshAccessToken(c, s, users, TokenService.CreateAccessToken(c, u, issued, s.accessMinutes), now)
            == Err(TokenTypeError)
  {
    var t := TokenService.CreateAccessToken(c, u, issued, s.accessMinutes);
    assert TokenService.VerifyToken(c, t, now) == Some(TokenService.AccessClaims(u, issued, s.accessMinutes));
  }

  /** `logout(token)`: refused only when there is no authentication. */
  function Logout(s: Settings, token: string): (r: Result<bool, string>)
    ensures r.Err? <==> s.authProvider.NoAuth?
    ensures r.Err? ==> r.error == LogoutError
    ensures r.Ok? ==> r.value
  {
    if s.authProvider == NoAuth then Err(LogoutError) else Ok(TokenService.RevokeToken(token))
  }

  // ---------------------------------------------------------------------
  // Password change

  /** `change_password(user_id, old, new)` at time `now`: the repository
    * afterwards, or the error. */
  function ChangePassword(kdf: Pbkdf2, s: Settings, users: seq<UserData>, userId: string, oldPassword: string,
                          newPassword: string, now: int): (r: Result<seq<UserData>, string>)
    ensures IndexById(users, userId).None? ==> r == Err(UserNotFoundError)
    ensures r.Ok? <==> var i := IndexById(users, userId);
                       i.Some? && users[i.value].isActive && users[i.value].passwordHash.Some?
                       && VerifyPassword(kdf, s, oldPassword, users[i.value].passwordHash.value)
                       && |newPassword| >= 6
    ensures r.Ok? ==> var i := IndexById(users, userId).value;
                      r.value == users[i := users[i].(passwordHash := Some(HashPassword(kdf, s, newPassword)),
                                                      updatedAt := now)]
  {
    match IndexById(users, userId)
    case None => Err(UserNotFoundError)
    case Some(i) =>
      var user := users[i];
      if !user.isActive then Err(InactiveError)
      else if user.passwordHash.None? || user.passwordHash.value == []
              || !VerifyPassword(kdf, s, oldPassword, user.passwordHash.value) then Err(OldPasswordError)
      else if newPassword == [] || |newPassword| < 6 then Err(NewPasswordError)
      else
        var changed := user.(passwordHash := Some(HashPassword(kdf, s, newPassword)), updatedAt := now);
        match UpdateUser(users, changed)
        case None => Err("User not found: " + changed.id)
        case Some(updated) => Ok(updated)
  }

  /** After a password change the new password verifies against the
    * stored hash, and the old one only if its digest is the new one's. */
  lemma {:induction false} ChangedPasswordVerifies(kdf: Pbkdf2, s: Settings, users: seq<UserData>, userId: string,
                                                   oldPassword: string, newPassword: string, now: int)
    requires ChangePassword(kdf, s, users, userId, oldPassword, newPassword, now).Ok?
    requires kdf(newPassword, Salt(s), Rounds(s)) != []
    ensures var after := ChangePassword(kdf, s, users, userId, oldPassword, newPassword, now).value;
            var i := IndexById(users, userId).value;
            |after| == |users| && after[i].passwordHash.Some?
            && VerifyPassword(kdf, s, newPassword, after[i].passwordHash.value)
            && (VerifyPassword(kdf, s, oldPassword, after[i].passwordHash.value)
                <==> kdf(oldPassword, Salt(s), Rounds(s)) == kdf(newPassword, Salt(s), Rounds(s)))
  {
    HashThenVerify(kdf, s, newPassword, oldPassword);
  }

  // ---------------------------------------------------------------------
  // The service object

  class AuthServiceState {
    const settings: Settings
    const kdf: Pbkdf2
    var users: seq<UserData>

    constructor (settings: Settings, kdf: Pbkdf2, users: seq<UserData>)
      ensures this.settings == settings && this.kdf == kdf && this.users == users
    {
      this.settings := settings;
      this.kdf := kdf;
      this.users := users;
    }

    /** `register_user`: the checks, then the insert; the store changes
      * only when both succeed, and the unique index keeps its addresses
      * distinct. */
    method RegisterUser(fullname: string, password: string, email: string, role: UserRole, id: string, now: int)
      returns (r: Result<UserData, string>)
      modifies this
      ensures var w := RegisterAsWritten(kdf, settings, old(users), fullname, password, email, role, id, now);
              (w.Err? ==> r == Err(w.error) && users == old(users))
              && (w.Ok? ==> r == Ok(w.value.0) && users == old(users) + [w.value.0])
      ensures UniqueEmails(old(users)) ==> UniqueEmails(users)
    {
      var w := RegisterAsWritten(kdf, settings, users, fullname, password, email, role, id, now);
      if w.Err? {
        return Err(w.error);
      }
      users := w.value.1;
      return Ok(w.value.0);
    }

    /** `authenticate_user` at time `now`. */
    method AuthenticateUser(email: string, password: string, now: int, classTime: int)
      returns (r: Result<Option<UserData>, string>)
      modifies this
      ensures var a := Authenticate(kdf, settings, old(users), email, password, now, classTime);
              (a.Err? ==> r == Err(a.error) && users == old(users))
              && (a.Ok? ==> r == Ok(a.value.0) && users == a.value.1)
    {
      var a := Authenticate(kdf, settings, users, email, password, now, classTime);
      if a.Err? {
        return Err(a.error);
      }
      r := Ok(a.value.0);
      users := a.value.1;
    }

    /** `change_password` at time `now`. */
    method ChangeUserPassword(userId: string, oldPassword: string, newPassword: string, now: int)
      returns (r: Result<bool, string>)
      modifies this
      ensures var c := ChangePassword(kdf, settings, old(users), userId, oldPassword, newPassword, now);
              (c.Err? ==> r == Err(c.error) && users == old(users))
              && (c.Ok? ==> r == Ok(true) && users == c.value)
    {
      var c := ChangePassword(kdf, settings, users, userId, oldPassword, newPassword, now);
      if c.Err? {
        return Err(c.error);
      }
      users := c.value;
      return Ok(true);
    }
  }
}
