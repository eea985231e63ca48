/** The user domain model (backend/app/domain/models/user.py): a user record
  * whose full name and e-mail are normalised by pydantic field validators
  * whenever a `User` is built, and whose account state is changed in place
  * by `activate`, `deactivate` and `update_last_login`. Timestamps are whole
  * seconds passed in by the caller. */
module UserModel {
  import opened Wrappers
  import opened PyStr

  /** `UserRole`. */
  datatype UserRole = Admin | Regular

  /** `role.value`. */
  function RoleValue(role: UserRole): string
  {
    match role
    case Admin => "admin"
    case Regular => "user"
  }

  /** The fields of a `User`, as the repository stores them. */
  datatype UserData = UserData(id: string, fullname: string, email: string, passwordHash: Option<string>,
                               role: UserRole, isActive: bool, createdAt: int, updatedAt: int,
                               lastLoginAt: Option<int>)

  const FullnameError: string := "Full name must be at least 2 characters long"
  const EmailError: string := "Valid email is required"

  /** `validate_fullname`: at least two characters once surrounding
    * whitespace is removed; the stripped name is what is stored. */
  function ValidateFullname(v: string): (r: Result<string, string>)
    ensures r.Ok? <==> |Strip(v)| >= 2
    ensures r.Err? ==> r.error == FullnameError
    ensures r.Ok? ==> r.value == Strip(v) && |r.value| >= 2
  {
    if v == [] || |Strip(v)| < 2 then Err(FullnameError) else Ok(Strip(v))
  }

  /** `validate_email`: an `@` somewhere; the value is stored stripped and
    * lower-cased. */
  function ValidateEmail(v: string): (r: Result<string, string>)
    ensures r.Ok? <==> '@' in v
    ensures r.Err? ==> r.error == EmailError
    ensures r.Ok? ==> r.value == Lower(Strip(v))
  {
    if v == [] || '@' !in v then Err(EmailError) else Ok(Lower(Strip(v)))
  }

  /** A full name as the validator leaves it. */
  predicate NormalFullname(n: string)
  {
    Strip(n) == n && |n| >= 2
  }

  /** An e-mail address as the validator leaves it. */
  predicate NormalEmail(e: string)
  {
    '@' in e && Strip(e) == e && Lower(e) == e
  }

  /** The normalised name passes the validator again unchanged. */
  lemma {:induction false} FullnameIdempotent(v: string)
    requires ValidateFullname(v).Ok?
    ensures NormalFullname(ValidateFullname(v).value)
    ensures ValidateFullname(ValidateFullname(v).value) == ValidateFullname(v)
  {
    StripIdempotent(v);
  }

  /** The normalised address keeps its `@` and passes the validator again
    * unchanged. */
  lemma {:induction false} EmailIdempotent(v: string)
    requires ValidateEmail(v).Ok?
    ensures NormalEmail(ValidateEmail(v).value)
    ensures ValidateEmail(ValidateEmail(v).value) == ValidateEmail(v)
  {
    var s := Strip(v);
    StripKeeps(v, '@');
    StripIdempotent(v);
    LowerStripped(s);
    LowerIdempotent(s);
    var i :| 0 <= i < |s| && s[i] == '@';
    assert Lower(s)[i] == '@';
  }

  /** Every `User` whose fields passed the validators. */
  predicate ValidUser(d: UserData)
  {
    NormalFullname(d.fullname) && NormalEmail(d.email)
  }

  /** Building a `User`: the two validators run, and any failure rejects
    * the whole record. */
  function NewUser(id: string, fullname: string, email: string, passwordHash: Option<string>, role: UserRole,
                   isActive: bool, createdAt: int, updatedAt: int, lastLoginAt: Option<int>): (r: Result<UserData, string>)
    ensures r.Ok? <==> |Strip(fullname)| >= 2 && '@' in email
    ensures r.Ok? ==> r.value.id == id && r.value.fullname == Strip(fullname)
                      && r.value.email == Lower(Strip(email)) && r.value.passwordHash == passwordHash
                      && r.value.role == role && r.value.isActive == isActive && r.value.createdAt == createdAt
                      && r.value.updatedAt == updatedAt && r.value.lastLoginAt == lastLoginAt
  {
    match ValidateFullname(fullname)
    case Err(e) => Err(e)
    case Ok(n) =>
      match ValidateEmail(email)
      case Err(e) => Err(e)
      case Ok(m) => Ok(UserData(id, n, m, passwordHash, role, isActive, createdAt, updatedAt, lastLoginAt))
  }

  /** A built user is valid. */
  lemma NewUserValid(id: string, fullname: string, email: string, passwordHash: Option<string>, role: UserRole,
                     isActive: bool, createdAt: int, updatedAt: int, lastLoginAt: Option<int>)
    requires NewUser(id, fullname, email, passwordHash, role, isActive, createdAt, updatedAt, lastLoginAt).Ok?
    ensures ValidUser(NewUser(id, fullname, email, passwordHash, role, isActive, createdAt, updatedAt, lastLoginAt).value)
  {
    FullnameIdempotent(fullname);
    EmailIdempotent(email);
  }

  lemma NormalFullnameFixed(n: string)
    requires NormalFullname(n)
    ensures ValidateFullname(n) == Ok(n)
  {
  }

  lemma NormalEmailFixed(e: string)
    requires NormalEmail(e)
    ensures ValidateEmail(e) == Ok(e)
  {
  }

  lemma RebuildFixed(d: UserData)
    requires ValidateFullname(d.fullname) == Ok(d.fullname) && ValidateEmail(d.email) == Ok(d.email)
    ensures NewUser(d.id, d.fullname, d.email, d.passwordHash, d.role, d.isActive, d.createdAt, d.updatedAt,
                    d.lastLoginAt) == Ok(d)
  {
  }

  /** Rebuilding a valid user from its own fields (as the repository does
    * when it loads a document) gives back the same record. */
  lemma {:induction false} RebuildValid(d: UserData)
    requires ValidUser(d)
    ensures NewUser(d.id, d.fullname, d.email, d.passwordHash, d.role, d.isActive, d.createdAt, d.updatedAt,
                    d.lastLoginAt) == Ok(d)
  {
    NormalFullnameFixed(d.fullname);
    NormalEmailFixed(d.email);
    RebuildFixed(d);
  }

  /** A `User` built with only an id, a name and an address: the role is
    * USER, the account active, no password hash and no login yet. Both
    * timestamps default to `classTime`, the moment the model class was
    * defined, because pydantic evaluates `datetime.now(UTC)` once there. */
  function WithDefaults(id: string, fullname: string, email: string, role: UserRole, classTime: int): (r: Result<UserData, string>)
    ensures r.Ok? <==> |Strip(fullname)| >= 2 && '@' in email
    ensures r.Ok? ==> r.value.isActive && r.value.passwordHash.None? && r.value.lastLoginAt.None?
                      && r.value.role == role && r.value.createdAt == classTime && r.value.updatedAt == classTime
  {
    NewUser(id, fullname, email, None, role, true, classTime, classTime, None)
  }

  /** The default role is USER. */
  const DefaultRole: UserRole := Regular

  /** A `User` object whose fields are updated in place. */
  class User {
    var id: string
    var fullname: string
    var email: string
    var passwordHash: Option<string>
    var role: UserRole
    var isActive: bool
    var createdAt: int
    var updatedAt: int
    var lastLoginAt: Option<int>

    function Data(): UserData
      reads this
    {
      UserData(id, fullname, email, passwordHash, role, isActive, createdAt, updatedAt, lastLoginAt)
    }

    constructor (d: UserData)
      ensures Data() == d
    {
      id, fullname, email, passwordHash := d.id, d.fullname, d.email, d.passwordHash;
      role, isActive, createdAt, updatedAt, lastLoginAt := d.role, d.isActive, d.createdAt, d.updatedAt, d.lastLoginAt;
    }

    /** `update_last_login` at time `now`: the login and update times, and
      * nothing else. */
    method UpdateLastLogin(now: int)
      modifies this
      ensures Data() == old(Data()).(lastLoginAt := Some(now), updatedAt := now)
    {
      lastLoginAt := Some(now);
      updatedAt := now;
    }

    /** `deactivate`: the account is switched off and the update time set. */
    method Deactivate(now: int)
      modifies this
      ensures Data() == old(Data()).(isActive := false, updatedAt := now)
    {
      isActive := false;
      updatedAt := now;
    }

    /** `activate`: the account is switched on and the update time set. */
    method Activate(now: int)
      modifies this
      ensures Data() == old(Data()).(isActive := true, updatedAt := now)
    {
      isActive := true;
      updatedAt := now;
    }
  }
}
