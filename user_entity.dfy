/**
 * The `User` record, its `UserRole` and `UserStatus` enumerations, and the
 * field constraints its class-validator decorators declare.
 */
module UserEntity {
  import opened Wrappers

  /** The closed role enumeration; its wire values are `public_user` and `admin_user`. */
  datatype UserRole = PublicUser | AdminUser

  /** The closed status enumeration; its wire values are `active`, `inactive` and `pending`. */
  datatype UserStatus = Active | Inactive | Pending

  /** The string value each role stands for. */
  function RoleValue(r: UserRole): (s: string)
    ensures s in {"public_user", "admin_user"}
    ensures s == "public_user" <==> r == PublicUser
  {
    match r
    case PublicUser => "public_user"
    case AdminUser => "admin_user"
  }

  /** The role whose value is `s`, if there is one (the check behind `@IsEnum(UserRole)`). */
  function ParseRole(s: string): (r: Option<UserRole>)
    ensures r.Some? ==> RoleValue(r.value) == s
  {
    if s == "public_user" then Some(PublicUser)
    else if s == "admin_user" then Some(AdminUser)
    else None
  }

  /** The string value each status stands for. */
  function StatusValue(st: UserStatus): (s: string)
    ensures s in {"active", "inactive", "pending"}
    ensures s == "active" <==> st == Active
    ensures s == "inactive" <==> st == Inactive
  {
    match st
    case Active => "active"
    case Inactive => "inactive"
    case Pending => "pending"
  }

  /** The status whose value is `s`, if there is one (the check behind `@IsEnum(UserStatus)`). */
  function ParseStatus(s: string): (r: Option<UserStatus>)
    ensures r.Some? ==> StatusValue(r.value) == s
  {
    if s == "active" then Some(Active)
    else if s == "inactive" then Some(Inactive)
    else if s == "pending" then Some(Pending)
    else None
  }

  /** `ParseRole` inverts `RoleValue`, and rejects every string that is no role's value. */
  lemma RoleRoundTrip(r: UserRole, s: string)
    ensures ParseRole(RoleValue(r)) == Some(r)
    ensures ParseRole(s).None? ==> RoleValue(r) != s
  {
  }

  /** `ParseStatus` inverts `StatusValue`, and rejects every string that is no status's value. */
  lemma StatusRoundTrip(st: UserStatus, s: string)
    ensures ParseStatus(StatusValue(st)) == Some(st)
    ensures ParseStatus(s).None? ==> StatusValue(st) != s
  {
  }

  /** `UserRole` has exactly two members, with distinct values. */
  lemma RoleEnumClosed()
    ensures forall r: UserRole :: RoleValue(r) in {"public_user", "admin_user"}
    ensures RoleValue(PublicUser) != RoleValue(AdminUser)
    ensures forall s :: ParseRole(s).Some? <==> s == "public_user" || s == "admin_user"
  {
  }

  /** `UserStatus` has exactly three members, with distinct values. */
  lemma StatusEnumClosed()
    ensures forall st: UserStatus :: StatusValue(st) in {"active", "inactive", "pending"}
    ensures StatusValue(Active) != StatusValue(Inactive) && StatusValue(Active) != StatusValue(Pending)
    ensures StatusValue(Inactive) != StatusValue(Pending)
    ensures forall s :: ParseStatus(s).Some? <==> s == "active" || s == "inactive" || s == "pending"
  {
  }

  /** A `Date` field, as milliseconds since the epoch. */
  type Timestamp = int

  /**
   * A `User` as it reaches the validator. Decorated string fields hold the raw
   * string (an absent value reads as `""`, which fails the same checks); the two
   * enumerated fields hold the raw string, since `@IsEnum` is what checks them;
   * `Date` fields and the optional fields may be absent.
   */
  datatype User = User(
    userId: string,
    firstName: string,
    lastName: string,
    dob: Option<Timestamp>,
    nic: string,
    gender: string,
    eid: string,
    email: string,
    mobileNumber: string,
    streetNumber: string,
    city: string,
    province: string,
    jobTitle: string,
    workAddress: string,
    scannedEid: Option<string>,
    letterOfAppointment: Option<string>,
    schoolName: string,
    userRole: string,
    status: string,
    password: string,
    createAt: Option<Timestamp>,
    updatedAt: Option<Timestamp>,
    deletedAt: Option<Timestamp>)

  /** `@Length(min, max)`: the length lies in `[min, max]`, both inclusive. */
  predicate LengthIn(s: string, min: nat, max: nat)
  {
    min <= |s| <= max
  }

  /** `@IsNotEmpty()` on a string. */
  predicate NotEmpty(s: string)
  {
    |s| > 0
  }

  /** The "personal information" properties. */
  predicate PersonalValid(u: User)
  {
    && NotEmpty(u.firstName) && LengthIn(u.firstName, 2, 25)
    && NotEmpty(u.lastName) && LengthIn(u.lastName, 2, 25)
    && u.dob.Some?
    && NotEmpty(u.nic) && LengthIn(u.nic, 10, 12)
    && NotEmpty(u.gender)
    && NotEmpty(u.eid) && LengthIn(u.eid, 2, 25)
  }

  /** The "contact information" properties; `isEmail` is the `@IsEmail()` format check. */
  predicate ContactValid(u: User, isEmail: string -> bool)
  {
    && NotEmpty(u.email) && isEmail(u.email) && LengthIn(u.email, 8, 100)
    && NotEmpty(u.mobileNumber) && LengthIn(u.mobileNumber, 10, 10)
    && NotEmpty(u.streetNumber) && LengthIn(u.streetNumber, 2, 100)
    && NotEmpty(u.city) && LengthIn(u.city, 2, 50)
    && NotEmpty(u.province) && LengthIn(u.province, 2, 50)
  }

  /** The "employment information" properties; `scannedEid` and `letterOfAppointment` are optional. */
  predicate EmploymentValid(u: User)
  {
    NotEmpty(u.jobTitle) && NotEmpty(u.workAddress) && NotEmpty(u.schoolName)
  }

  /** The role, status, password and timestamp properties; `deletedAt` is optional. */
  predicate AccountValid(u: User)
  {
    && NotEmpty(u.userRole) && ParseRole(u.userRole).Some?
    && NotEmpty(u.status) && ParseStatus(u.status).Some?
    && NotEmpty(u.password) && LengthIn(u.password, 8, 50)
    && u.createAt.Some?
    && u.updatedAt.Some?
  }

  /**
   * Every constraint the decorators declare. `isEmail` stands for the
   * `@IsEmail()` format check, which the model leaves uninterpreted.
   */
  predicate ValidUser(u: User, isEmail: string -> bool): (valid: bool)
    ensures valid ==> forall f :: FieldOk(u, f, isEmail)
  {
    PersonalValid(u) && ContactValid(u, isEmail) && EmploymentValid(u) && AccountValid(u)
  }

  /** The decorated properties of `User`, as the validator names them in its errors. */
  datatype Field =
    | FirstName | LastName | Dob | Nic | Gender | Eid | Email | MobileNumber
    | StreetNumber | City | Province | JobTitle | WorkAddress | SchoolName
    | Role | Status | Password | CreateAt | UpdatedAt

  /** The `@IsNotEmpty()` check on one property: a non-empty string, or a present date. */
  predicate Provided(u: User, f: Field)
  {
    match f
    case FirstName => NotEmpty(u.firstName)
    case LastName => NotEmpty(u.lastName)
    case Dob => u.dob.Some?
    case Nic => NotEmpty(u.nic)
    case Gender => NotEmpty(u.gender)
    case Eid => NotEmpty(u.eid)
    case Email => NotEmpty(u.email)
    case MobileNumber => NotEmpty(u.mobileNumber)
    case StreetNumber => NotEmpty(u.streetNumber)
    case City => NotEmpty(u.city)
    case Province => NotEmpty(u.province)
    case JobTitle => NotEmpty(u.jobTitle)
    case WorkAddress => NotEmpty(u.workAddress)
    case SchoolName => NotEmpty(u.schoolName)
    case Role => NotEmpty(u.userRole)
    case Status => NotEmpty(u.status)
    case Password => NotEmpty(u.password)
    case CreateAt => u.createAt.Some?
    case UpdatedAt => u.updatedAt.Some?
  }

  /**
   * The constraint the decorators put on one property, without its
   * `@IsNotEmpty()`, which the remaining check always implies.
   */
  predicate FieldOk(u: User, f: Field, isEmail: string -> bool): (ok: bool)
    ensures ok ==> Provided(u, f)
  {
    match f
    case FirstName => LengthIn(u.firstName, 2, 25)
    case LastName => LengthIn(u.lastName, 2, 25)
    case Dob => u.dob.Some?
    case Nic => LengthIn(u.nic, 10, 12)
    case Gender => NotEmpty(u.gender)
    case Eid => LengthIn(u.eid, 2, 25)
    case Email => isEmail(u.email) && LengthIn(u.email, 8, 100)
    case MobileNumber => LengthIn(u.mobileNumber, 10, 10)
    case StreetNumber => LengthIn(u.streetNumber, 2, 100)
    case City => LengthIn(u.city, 2, 50)
    case Province => LengthIn(u.province, 2, 50)
    case JobTitle => NotEmpty(u.jobTitle)
    case WorkAddress => NotEmpty(u.workAddress)
    case SchoolName => NotEmpty(u.schoolName)
    case Role => ParseRole(u.userRole).Some?
    case Status => ParseStatus(u.status).Some?
    case Password => LengthIn(u.password, 8, 50)
    case CreateAt => u.createAt.Some?
    case UpdatedAt => u.updatedAt.Some?
  }

  /**
   * Meeting every per-property constraint is enough for validity: each
   * `@IsNotEmpty` is implied by the `@Length` or `@IsEnum` beside it.
   */
  lemma {:induction false} FieldsOkValid(u: User, isEmail: string -> bool)
    requires forall f :: FieldOk(u, f, isEmail)
    ensures ValidUser(u, isEmail)
  {
    assert PersonalValid(u) by {
      assert FieldOk(u, FirstName, isEmail) && FieldOk(u, LastName, isEmail) && FieldOk(u, Dob, isEmail);
      assert FieldOk(u, Nic, isEmail) && FieldOk(u, Gender, isEmail) && FieldOk(u, Eid, isEmail);
    }
    assert ContactValid(u, isEmail) by {
      assert FieldOk(u, Email, isEmail) && FieldOk(u, MobileNumber, isEmail) && FieldOk(u, StreetNumber, isEmail);
      assert FieldOk(u, City, isEmail) && FieldOk(u, Province, isEmail);
    }
    assert EmploymentValid(u) by {
      assert FieldOk(u, JobTitle, isEmail) && FieldOk(u, WorkAddress, isEmail) && FieldOk(u, SchoolName, isEmail);
    }
    assert AccountValid(u) by {
      assert FieldOk(u, Role, isEmail) && FieldOk(u, Status, isEmail) && FieldOk(u, Password, isEmail);
      assert FieldOk(u, CreateAt, isEmail) && FieldOk(u, UpdatedAt, isEmail);
    }
  }

  /** The properties that fail their constraint. */
  function Violations(u: User, isEmail: string -> bool): (v: seq<Field>)
    ensures forall f :: f in v <==> !FieldOk(u, f, isEmail)
  {
    var all := [FirstName, LastName, Dob, Nic, Gender, Eid, Email, MobileNumber, StreetNumber, City,
                Province, JobTitle, WorkAddress, SchoolName, Role, Status, Password, CreateAt, UpdatedAt];
    Failing(u, all, isEmail)
  }

  function Failing(u: User, fs: seq<Field>, isEmail: string -> bool): (v: seq<Field>)
    ensures forall f :: f in v <==> f in fs && !FieldOk(u, f, isEmail)
  {
    if fs == [] then []
    else (if FieldOk(u, fs[0], isEmail) then [] else [fs[0]]) + Failing(u, fs[1..], isEmail)
  }

  /** A user is valid exactly when the validator reports no property. */
  lemma ValidIffNoViolations(u: User, isEmail: string -> bool)
    ensures ValidUser(u, isEmail) <==> Violations(u, isEmail) == []
  {
    if Violations(u, isEmail) == [] {
      FieldsOkValid(u, isEmail);
    } else {
      var f := Violations(u, isEmail)[0];
      assert !FieldOk(u, f, isEmail);
    }
  }

  /**
   * `userId`, `scannedEid`, `letterOfAppointment` and `deletedAt` carry no
   * constraint: changing them never changes validity.
   */
  lemma UnconstrainedFields(u: User, isEmail: string -> bool, id: string,
                            scan: Option<string>, letter: Option<string>, deleted: Option<Timestamp>)
    ensures ValidUser(u.(userId := id, scannedEid := scan, letterOfAppointment := letter, deletedAt := deleted), isEmail)
            <==> ValidUser(u, isEmail)
  {
  }

  /** Validity fixes each field's length range and enum membership. */
  lemma ValidUserBounds(u: User, isEmail: string -> bool)
    requires ValidUser(u, isEmail)
    ensures 2 <= |u.firstName| <= 25 && 2 <= |u.lastName| <= 25 && 2 <= |u.eid| <= 25
    ensures 10 <= |u.nic| <= 12 && |u.mobileNumber| == 10
    ensures 8 <= |u.email| <= 100 && isEmail(u.email) && 8 <= |u.password| <= 50
    ensures 2 <= |u.streetNumber| <= 100 && 2 <= |u.city| <= 50 && 2 <= |u.province| <= 50
    ensures exists r :: RoleValue(r) == u.userRole
    ensures exists st :: StatusValue(st) == u.status
  {
  }
}
