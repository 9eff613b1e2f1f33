/**
 * backend/services/auth.service.js: public registration, which creates a user and the
 * profile row of its role inside one transaction, and login.
 */
module AuthService {
  import opened JsValues
  import opened Http
  import opened Schema

  const EMAIL_REQUIRED := "Email es requerido."
  const PASSWORD_TOO_SHORT := "Password debe tener mínimo 6 caracteres."
  const EMAIL_TAKEN := "El email ya está en uso."
  const NIF_TAKEN_BY_THERAPIST := "El NIF ya está registrado como terapeuta."
  const NIF_TAKEN_BY_PATIENT := "El NIF ya está registrado como paciente."
  const CIF_TAKEN := "El CIF ya está registrado."
  const PATIENT_FIELDS_MISSING := "Para PACIENTE se requiere fullName y nif."
  const THERAPIST_FIELDS_MISSING := "Para TERAPEUTA se requiere fullName y nif."
  const CENTRE_FIELDS_MISSING := "Para CENTRO se requiere cif, name y location."
  const ROLE_UNSUPPORTED := "Rol no soportado."
  const CREDENTIALS_REQUIRED := "Email y password son requeridos."
  const BAD_CREDENTIALS := "Credenciales incorrectas."

  /** The body of a registration request; the centre fields accept several spellings. */
  datatype RegisterBody = RegisterBody(
    email: Option<string>, password: Option<string>, role: Option<string>,
    fullName: Option<string>, nif: Option<string>, diagnosis: Option<string>,
    societyId: Option<string>, profession: Option<string>,
    phone: Option<string>, Phone: Option<string>,
    cif: Option<string>, CIF: Option<string>,
    name: Option<string>, centreName: Option<string>,
    location: Option<string>, Location: Option<string>)

  datatype LoginBody = LoginBody(email: Option<string>, password: Option<string>)

  /** What a successful register or login returns: a token and `{ id, email, role }`. */
  datatype Session = Session(token: Token, user: Claims)

  /** signToken: the claims are exactly the user's id, email and role. */
  function SignToken(id: Id, u: User): (t: Token)
    ensures t.claims.id == id && t.claims.email == u.email && t.claims.role == u.role
  {
    Signed(Claims(id, u.email, u.role))
  }

  // ---------------------------------------------------------------------------
  // splitFullName
  // ---------------------------------------------------------------------------

  datatype NameParts = NameParts(firstname: string, lastname: string)

  /** `String(fullName || "").trim().replace(/\s+/g, " ")`. */
  function CleanName(fullName: Option<string>): string {
    Collapse(Trim(OrElse(fullName, "")))
  }

  /** A cleaned name has no blank at either end and no whitespace but single ' ' characters. */
  predicate Clean(clean: string) {
    (clean == [] || (clean[0] != ' ' && clean[|clean| - 1] != ' ')) && SingleBlanks(clean)
  }

  lemma CleanNameShape(fullName: Option<string>)
    ensures Clean(CleanName(fullName))
  {
    var t := Trim(OrElse(fullName, ""));
    TrimSpec(OrElse(fullName, ""));
    CollapseBlanks(t);
    if t != [] {
      CollapseFirst(t);
      CollapseLast(t);
    }
  }

  /** The split of an already cleaned name: the first word, and the rest joined by single spaces. */
  function SplitClean(clean: string): NameParts {
    if clean == [] then NameParts("", "")
    else
      var parts := Split(clean, ' ');
      NameParts(parts[0], Join(parts[1..], ' '))
  }

  /** splitFullName: a first name exactly when the cleaned name is not blank, and no last name without one. */
  function SplitFullName(fullName: Option<string>): (n: NameParts)
    ensures n.firstname == "" <==> CleanName(fullName) == ""
    ensures n.firstname == "" ==> n.lastname == ""
  {
    var clean := CleanName(fullName);
    CleanNameShape(fullName);
    if clean == [] then NameParts("", "")
    else
      SplitCleanRejoins(clean);
      SplitClean(clean)
  }

  /** The name put back together: the first name, then " " and the last name when there is one. */
  function Rejoin(n: NameParts): string {
    if n.lastname == "" then n.firstname else n.firstname + " " + n.lastname
  }

  lemma {:induction false} SplitCleanRejoins(clean: string)
    requires Clean(clean) && clean != []
    ensures SplitClean(clean).firstname != [] && NoSpace(SplitClean(clean).firstname)
    ensures Rejoin(SplitClean(clean)) == clean
  {
    var parts := Split(clean, ' ');
    var i := IndexOf(clean, ' ');
    var n := SplitClean(clean);
    assert n.firstname == parts[0] == clean[..i];
    assert i > 0;
    forall k | 0 <= k < i ensures !IsSpace(clean[k]) {
      assert clean[k] != ' ';
    }
    JoinSplit(clean, ' ');
    if i < |clean| {
      var rest := clean[i + 1..];
      assert parts == [clean[..i]] + Split(rest, ' ');
      assert parts[1..] == Split(rest, ' ');
      JoinSplit(rest, ' ');
      assert rest != [] by {
        assert clean[|clean| - 1] != ' ';
        assert i != |clean| - 1;
      }
      assert clean == clean[..i] + [' '] + rest;
    } else {
      assert parts == [clean];
    }
  }

  /**
   * A blank name splits into two empty strings; any other name splits into a non-empty first
   * word without whitespace and a rest that, put back after it, gives the cleaned name.
   */
  lemma SplitFullNameRejoins(fullName: Option<string>)
    ensures CleanName(fullName) == [] ==> SplitFullName(fullName) == NameParts("", "")
    ensures CleanName(fullName) != [] ==>
              var n := SplitFullName(fullName);
              n.firstname != [] && NoSpace(n.firstname) && Rejoin(n) == CleanName(fullName)
  {
    CleanNameShape(fullName);
    if CleanName(fullName) != [] {
      SplitCleanRejoins(CleanName(fullName));
    }
  }

  // ---------------------------------------------------------------------------
  // normalizeRole
  // ---------------------------------------------------------------------------

  predicate PublicRole(role: string) {
    role == PATIENT || role == THERAPIST || role == CENTRE
  }

  /** normalizeRole: PATIENT, THERAPIST and CENTRE are kept; anything else, ADMIN included, becomes PATIENT. */
  function NormalizeRole(role: Option<string>): (r: string)
    ensures PublicRole(r) && r != ADMIN
    ensures role.Some? && PublicRole(role.value) ==> r == role.value
    ensures !(role.Some? && PublicRole(role.value)) ==> r == PATIENT
  {
    if role.Some? && PublicRole(role.value) then role.value else PATIENT
  }

  /** A normalised role is a fixed point of the normalisation. */
  lemma NormalizeRoleIdempotent(role: Option<string>)
    ensures NormalizeRole(Some(NormalizeRole(role))) == NormalizeRole(role)
  {
    assert PublicRole(NormalizeRole(role));
  }

  // ---------------------------------------------------------------------------
  // ensureUniqueEmail / ensureUniqueNIF / ensureUniqueCIF
  // ---------------------------------------------------------------------------

  function EnsureUniqueEmail(s: Store, email: string): (e: Option<Error>)
    reads s`users
    ensures e.Some? <==> exists id :: id in s.users && s.users[id].email == email
    ensures e.Some? ==> e.value == Error(Conflict, EMAIL_TAKEN)
  {
    if s.EmailUsed(email, None) then Some(Error(Conflict, EMAIL_TAKEN)) else None
  }

  /** An empty NIF is not checked; otherwise therapists are searched first, then patients. */
  function EnsureUniqueNif(s: Store, nif: Option<string>): (e: Option<Error>)
    reads s`therapists, s`patients
    ensures e.Some? <==> Truthy(nif) && ((exists id :: id in s.therapists && s.therapists[id].nif == nif.value)
                                         || (exists id :: id in s.patients && s.patients[id].nif == nif.value))
    ensures e.Some? ==> e.value.status == Conflict
    ensures e.Some? && (exists id :: id in s.therapists && s.therapists[id].nif == nif.value) ==>
              e.value.message == NIF_TAKEN_BY_THERAPIST
  {
    if !Truthy(nif) then None
    else if s.TherapistNifUsed(nif.value, None) then Some(Error(Conflict, NIF_TAKEN_BY_THERAPIST))
    else if s.PatientNifUsed(nif.value, None) then Some(Error(Conflict, NIF_TAKEN_BY_PATIENT))
    else None
  }

  function EnsureUniqueCif(s: Store, cif: Option<string>): (e: Option<Error>)
    reads s`centres
    ensures e.Some? <==> Truthy(cif) && exists id :: id in s.centres && s.centres[id].cif == cif.value
    ensures e.Some? ==> e.value == Error(Conflict, CIF_TAKEN)
  {
    if Truthy(cif) && s.CifUsed(cif.value, None) then Some(Error(Conflict, CIF_TAKEN)) else None
  }

  // ---------------------------------------------------------------------------
  // createProfileByRole
  // ---------------------------------------------------------------------------

  /** The centre fields after the alias fall-backs `cif ?? CIF`, `name ?? centreName ?? fullName`, ... */
  function CentreCif(b: RegisterBody): Option<string> { Coalesce(b.cif, b.CIF) }
  function CentreName(b: RegisterBody): Option<string> { Coalesce(b.name, Coalesce(b.centreName, b.fullName)) }
  function CentrePhone(b: RegisterBody): Option<string> { Coalesce(b.phone, b.Phone) }
  function CentreLocation(b: RegisterBody): Option<string> { Coalesce(b.location, b.Location) }

  /** `lastname || "-"`. */
  function LastnameOrDash(n: NameParts): string {
    if n.lastname == "" then "-" else n.lastname
  }

  /** The patient row for body `b`, given the split of its full name. */
  function PatientRow(b: RegisterBody, n: NameParts): Patient {
    Patient(OrElse(b.nif, ""), Some(n.firstname), Some(LastnameOrDash(n)), OrNull(b.phone), OrNull(b.diagnosis))
  }

  /** The therapist row for body `b`, given the split of its full name. */
  function TherapistRow(b: RegisterBody, n: NameParts): Therapist {
    Therapist(OrElse(b.nif, ""), Some(n.firstname), Some(LastnameOrDash(n)), OrNull(b.phone),
              OrNull(b.societyId), OrNull(b.profession))
  }

  function CentreRow(b: RegisterBody): Centre {
    Centre(OrElse(CentreCif(b), ""), CentreName(b), OrNull(CentrePhone(b)), CentreLocation(b), None)
  }

  /**
   * The error createProfileByRole raises before it writes, if any: missing fields give 400,
   * a taken NIF or CIF gives 409, and a role other than the three public ones gives 400.
   */
  function ProfileError(s: Store, role: string, b: RegisterBody): (e: Option<Error>)
    reads s`therapists, s`patients, s`centres
    ensures e.Some? ==> e.value.status == BadRequest || e.value.status == Conflict
    ensures !PublicRole(role) ==> e == Some(Error(BadRequest, ROLE_UNSUPPORTED))
    ensures (role == PATIENT || role == THERAPIST) && !(Truthy(b.fullName) && Truthy(b.nif)) ==>
              e.Some? && e.value.status == BadRequest
    ensures (role == PATIENT || role == THERAPIST) && Truthy(b.fullName) && Truthy(b.nif) ==>
              e == EnsureUniqueNif(s, b.nif)
    ensures role == CENTRE && !(Truthy(CentreCif(b)) && Truthy(CentreName(b)) && Truthy(CentreLocation(b))) ==>
              e == Some(Error(BadRequest, CENTRE_FIELDS_MISSING))
    ensures role == CENTRE && Truthy(CentreCif(b)) && Truthy(CentreName(b)) && Truthy(CentreLocation(b)) ==>
              e == EnsureUniqueCif(s, CentreCif(b))
  {
    if role == PATIENT then
      if !Truthy(b.fullName) || !Truthy(b.nif) then Some(Error(BadRequest, PATIENT_FIELDS_MISSING))
      else EnsureUniqueNif(s, b.nif)
    else if role == THERAPIST then
      if !Truthy(b.fullName) || !Truthy(b.nif) then Some(Error(BadRequest, THERAPIST_FIELDS_MISSING))
      else EnsureUniqueNif(s, b.nif)
    else if role == CENTRE then
      var cif, name, location := CentreCif(b), CentreName(b), CentreLocation(b);
      if !Truthy(cif) || !Truthy(name) || !Truthy(location) then Some(Error(BadRequest, CENTRE_FIELDS_MISSING))
      else EnsureUniqueCif(s, cif)
    else
      Some(Error(BadRequest, ROLE_UNSUPPORTED))
  }

  /**
   * The profile tables once the row of `role` for user `id` has been added to `p0`, `t0`, `c0`;
   * `n` is the split of the body's full name.
   */
  predicate ProfileAdded(role: string, id: Id, b: RegisterBody, n: NameParts,
                         p0: map<Id, Patient>, t0: map<Id, Therapist>, c0: map<Id, Centre>,
                         p: map<Id, Patient>, t: map<Id, Therapist>, c: map<Id, Centre>)
  {
    && p == (if role == PATIENT then p0[id := PatientRow(b, n)] else p0)
    && t == (if role == THERAPIST then t0[id := TherapistRow(b, n)] else t0)
    && c == (if role == CENTRE then c0[id := CentreRow(b)] else c0)
  }

  /** The write of createProfileByRole once its checks passed: the row of `role`, keyed by the user's id. */
  method InsertProfile(s: Store, userId: Id, role: string, b: RegisterBody, n: NameParts)
    modifies s`patients, s`therapists, s`centres
    requires s.Valid()
    requires userId in s.users && userId !in s.patients && userId !in s.therapists && userId !in s.centres
    requires ProfileError(s, role, b).None?
    ensures s.Valid()
    ensures ProfileAdded(role, userId, b, n, old(s.patients), old(s.therapists), old(s.centres),
                         s.patients, s.therapists, s.centres)
    ensures old(s.Linked()) ==> s.Linked()
  {
    if role == PATIENT {
      assert Truthy(b.nif) && !s.PatientNifUsed(b.nif.value, None);
      var ok := s.InsertPatient(userId, PatientRow(b, n));
      assert ok;
    } else if role == THERAPIST {
      assert Truthy(b.nif) && !s.TherapistNifUsed(b.nif.value, None);
      var ok := s.InsertTherapist(userId, TherapistRow(b, n));
      assert ok;
    } else {
      assert role == CENTRE;
      assert Truthy(CentreCif(b)) && !s.CifUsed(CentreCif(b).value, None);
      var ok := s.InsertCentre(userId, CentreRow(b));
      assert ok;
    }
  }

  /**
   * createProfileByRole: checks the role's fields and keys, then inserts the profile row of
   * `role` keyed by the user's id, with the full name split into first and last name. On an
   * error nothing is written.
   */
  method CreateProfileByRole(s: Store, userId: Id, role: string, b: RegisterBody) returns (e: Option<Error>)
    modifies s`patients, s`therapists, s`centres
    requires s.Valid()
    requires userId in s.users && userId !in s.patients && userId !in s.therapists && userId !in s.centres
    ensures s.Valid()
    ensures e == old(ProfileError(s, role, b))
    ensures e.Some? ==> s.patients == old(s.patients) && s.therapists == old(s.therapists) && s.centres == old(s.centres)
    ensures e.None? ==> ProfileAdded(role, userId, b, SplitFullName(b.fullName), old(s.patients),
                                     old(s.therapists), old(s.centres), s.patients, s.therapists, s.centres)
    ensures old(s.Linked()) ==> s.Linked()
  {
    e := ProfileError(s, role, b);
    if e.None? {
      InsertProfile(s, userId, role, b, SplitFullName(b.fullName));
    }
  }

  // ---------------------------------------------------------------------------
  // register
  // ---------------------------------------------------------------------------

  /** The error register raises before it opens a write, or the profile's error. */
  function RegisterError(s: Store, b: RegisterBody): (e: Option<Error>)
    reads s`users, s`therapists, s`patients, s`centres
    ensures NormalizeEmail(b.email) == "" ==> e == Some(Error(BadRequest, EMAIL_REQUIRED))
    ensures NormalizeEmail(b.email) != "" && |OrElse(b.password, "")| < 6 ==>
              e == Some(Error(BadRequest, PASSWORD_TOO_SHORT))
    ensures NormalizeEmail(b.email) != "" && |OrElse(b.password, "")| >= 6 ==>
              e == if s.EmailUsed(NormalizeEmail(b.email), None) then Some(Error(Conflict, EMAIL_TAKEN))
                   else ProfileError(s, NormalizeRole(b.role), b)
  {
    var email := NormalizeEmail(b.email);
    var password := OrElse(b.password, "");
    if email == "" then Some(Error(BadRequest, EMAIL_REQUIRED))
    else if password == "" || |password| < 6 then Some(Error(BadRequest, PASSWORD_TOO_SHORT))
    else if EnsureUniqueEmail(s, email).Some? then EnsureUniqueEmail(s, email)
    else ProfileError(s, NormalizeRole(b.role), b)
  }

  /**
   * The body of register's transaction: create the user, then its profile; when the profile
   * raises, roll back to the snapshot taken when the transaction opened.
   */
  method RegisterTransaction(s: Store, u: User, b: RegisterBody) returns (r: Result<Id>)
    modifies s`users, s`userSeq, s`patients, s`therapists, s`centres
    requires s.Valid() && s.ProfilesLinked()
    requires !s.EmailUsed(u.email, None) && u.role.Some?
    ensures s.Valid() && s.ProfilesLinked()
    ensures r.Failure? <==> old(ProfileError(s, u.role.value, b)).Some?
    ensures r.Failure? ==> r.error == old(ProfileError(s, u.role.value, b)).value
    ensures r.Failure? ==> s.users == old(s.users) && s.patients == old(s.patients)
                           && s.therapists == old(s.therapists) && s.centres == old(s.centres)
    ensures r.Success? ==> r.value == old(s.userSeq) && r.value !in old(s.users)
                           && s.users == old(s.users)[r.value := u]
                           && ProfileAdded(u.role.value, r.value, b, SplitFullName(b.fullName), old(s.patients), old(s.therapists),
                                           old(s.centres), s.patients, s.therapists, s.centres)
    ensures old(s.Linked()) ==> s.Linked()
  {
    var users0 := s.users;
    var id := s.InsertUser(u);
    var userId := id.value;
    assert userId !in s.patients && userId !in s.therapists && userId !in s.centres;
    var e := CreateProfileByRole(s, userId, u.role.value, b);
    if e.Some? {
      // rollback: the profile tables were not written, the user row is dropped
      s.users := users0;
      LinkedUnchanged(s);
      return Failure(e.value);
    }
    return Success(userId);
  }

  /** The user row register writes for body `b`. */
  function RegisteredUser(b: RegisterBody): User {
    User(NormalizeEmail(b.email), Some(Hash(OrElse(b.password, ""))), Some(NormalizeRole(b.role)))
  }

  /**
   * register: normalises the email and the role, checks the email and the password, checks
   * that the email is free, then in one transaction creates the user and its profile. Any
   * error rolls the transaction back, so either both rows are written or neither is.
   */
  method Register(s: Store, b: RegisterBody) returns (r: Result<Session>)
    modifies s`users, s`userSeq, s`patients, s`therapists, s`centres
    requires s.Valid() && s.ProfilesLinked()
    ensures s.Valid() && s.ProfilesLinked()
    ensures r.Failure? <==> old(RegisterError(s, b)).Some?
    ensures r.Failure? ==> r.error == old(RegisterError(s, b)).value
    ensures r.Failure? ==> s.users == old(s.users) && s.patients == old(s.patients)
                           && s.therapists == old(s.therapists) && s.centres == old(s.centres)
    ensures r.Success? ==>
              var id, u := old(s.userSeq), RegisteredUser(b);
              id !in old(s.users) && s.users == old(s.users)[id := u]
              && ProfileAdded(NormalizeRole(b.role), id, b, SplitFullName(b.fullName), old(s.patients), old(s.therapists),
                              old(s.centres), s.patients, s.therapists, s.centres)
              && r.value == Session(SignToken(id, u), Claims(id, u.email, u.role))
    ensures old(s.Linked()) ==> s.Linked()
  {
    var email := NormalizeEmail(b.email);
    var password := OrElse(b.password, "");
    var role := NormalizeRole(b.role);
    if email == "" {
      return Failure(Error(BadRequest, EMAIL_REQUIRED));
    }
    if password == "" || |password| < 6 {
      return Failure(Error(BadRequest, PASSWORD_TOO_SHORT));
    }
    var taken := EnsureUniqueEmail(s, email);
    if taken.Some? {
      return Failure(taken.value);
    }
    var u := User(email, Some(Hash(password)), Some(role));
    var t := RegisterTransaction(s, u, b);
    if t.Failure? {
      return Failure(t.error);
    }
    return Success(Session(SignToken(t.value, u), Claims(t.value, u.email, u.role)));
  }

  // ---------------------------------------------------------------------------
  // login
  // ---------------------------------------------------------------------------

  /**
   * login: a missing email or password gives 400; an unknown email and a wrong password give
   * the same 401 and the same message; a user without a stored digest makes bcrypt throw (500).
   */
  method Login(s: Store, b: LoginBody) returns (r: Result<Session>)
    requires s.UniqueEmails()
    ensures NormalizeEmail(b.email) == "" || OrElse(b.password, "") == "" ==>
              r == Failure(Error(BadRequest, CREDENTIALS_REQUIRED))
    ensures NormalizeEmail(b.email) != "" && OrElse(b.password, "") != "" && !s.EmailUsed(NormalizeEmail(b.email), None) ==>
              r == Failure(Error(Unauthorized, BAD_CREDENTIALS))
    ensures NormalizeEmail(b.email) != "" && OrElse(b.password, "") != ""
            && (exists id :: id in s.users && s.users[id].email == NormalizeEmail(b.email)
                             && s.users[id].password.Some? && s.users[id].password != Some(Hash(OrElse(b.password, "")))) ==>
              r == Failure(Error(Unauthorized, BAD_CREDENTIALS))
    ensures NormalizeEmail(b.email) != "" && OrElse(b.password, "") != ""
            && (exists id :: id in s.users && s.users[id].email == NormalizeEmail(b.email) && s.users[id].password.None?) ==>
              r == Failure(Error(ServerError, THROWN))
    ensures r.Failure? && r.error.status == Unauthorized ==> r.error.message == BAD_CREDENTIALS
    ensures r.Success? <==>
              NormalizeEmail(b.email) != "" && OrElse(b.password, "") != ""
              && exists id :: id in s.users && s.users[id].email == NormalizeEmail(b.email)
                              && s.users[id].password == Some(Hash(OrElse(b.password, "")))
    ensures r.Success? ==>
              var id := r.value.user.id;
              id in s.users && s.users[id].email == NormalizeEmail(b.email)
              && s.users[id].password == Some(Hash(OrElse(b.password, "")))
              && r.value.user == Claims(id, s.users[id].email, s.users[id].role)
              && r.value.token == SignToken(id, s.users[id])
  {
    var email := NormalizeEmail(b.email);
    var password := OrElse(b.password, "");
    if email == "" || password == "" {
      return Failure(Error(BadRequest, CREDENTIALS_REQUIRED));
    }
    var found := s.FindUserByEmail(email);
    if found.None? {
      return Failure(Error(Unauthorized, BAD_CREDENTIALS));
    }
    var id := found.value;
    var u := s.users[id];
    if u.password.None? {
      return Failure(Error(ServerError, THROWN));
    }
    if !Compare(password, u.password.value) {
      return Failure(Error(Unauthorized, BAD_CREDENTIALS));
    }
    return Success(Session(SignToken(id, u), Claims(id, u.email, u.role)));
  }

  /**
   * Once an email is registered, a second registration whose email differs only in case or
   * surrounding whitespace fails with 409 and writes nothing, whatever its role.
   */
  method RegisterTwice(s: Store, b1: RegisterBody, b2: RegisterBody) returns (r1: Result<Session>, r2: Result<Session>)
    modifies s`users, s`userSeq, s`patients, s`therapists, s`centres
    requires s.Valid() && s.ProfilesLinked()
    requires NormalizeEmail(b1.email) == NormalizeEmail(b2.email)
    requires |OrElse(b2.password, "")| >= 6
    ensures r1.Success? ==> r2 == Failure(Error(Conflict, EMAIL_TAKEN))
  {
    r1 := Register(s, b1);
    if r1.Success? {
      var id := r1.value.user.id;
      assert id in s.users && s.users[id] == RegisteredUser(b1);
      assert s.EmailUsed(NormalizeEmail(b2.email), None);
      assert NormalizeEmail(b2.email) != "";
      assert RegisterError(s, b2) == Some(Error(Conflict, EMAIL_TAKEN));
    }
    r2 := Register(s, b2);
  }

  /** Registering and then logging in with the same email and password yields the registered user. */
  method RegisterThenLogin(s: Store, b: RegisterBody) returns (reg: Result<Session>, log: Result<Session>)
    modifies s`users, s`userSeq, s`patients, s`therapists, s`centres
    requires s.Valid() && s.ProfilesLinked()
    ensures reg.Success? ==> log.Success? && log.value.user == reg.value.user
  {
    reg := Register(s, b);
    if reg.Success? {
      var id := reg.value.user.id;
      assert id in s.users && s.users[id] == RegisteredUser(b);
      assert NormalizeEmail(b.email) != "" && OrElse(b.password, "") != "";
      assert s.users[id].password == Some(Hash(OrElse(b.password, "")));
      assert exists k :: k in s.users && s.users[k].email == NormalizeEmail(b.email)
                         && s.users[k].password == Some(Hash(OrElse(b.password, "")));
    }
    log := Login(s, LoginBody(b.email, b.password));
    if reg.Success? && log.Success? {
      var id := reg.value.user.id;
      var k := log.value.user.id;
      assert k in s.users && s.users[k].email == s.users[id].email;
      assert k == id;
    }
  }
}
