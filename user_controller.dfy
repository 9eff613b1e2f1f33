/**
 * backend/controllers/userController.js: the user handlers. Unlike registration, they take
 * the email exactly as given (no trimming, no lower-casing) and write no password or role.
 */
module UserController {
  import opened JsValues
  import opened Http
  import opened Schema
  import opened Query

  const EMAIL_REQUIRED := "El email es requerido"
  const EMAIL_TAKEN := "El email ya está registrado"
  const USER_NOT_FOUND := "Usuario no encontrado"
  const QUERY_REQUIRED := "El parámetro email es requerido"
  /** searchUsers' LIMIT. */
  const SEARCH_LIMIT: nat := 10

  /** The guards of createUser: 400 without an email, 409 for an email some user has. */
  function CreateUserError(s: Store, email: Option<string>): (e: Option<Error>)
    reads s`users
    ensures !Truthy(email) ==> e == Some(Error(BadRequest, EMAIL_REQUIRED))
    ensures e.None? <==> Truthy(email) && !s.EmailUsed(email.value, None)
    ensures Truthy(email) && s.EmailUsed(email.value, None) ==> e == Some(Error(Conflict, EMAIL_TAKEN))
  {
    if !Truthy(email) then Some(Error(BadRequest, EMAIL_REQUIRED))
    else if s.EmailUsed(email.value, None) then Some(Error(Conflict, EMAIL_TAKEN))
    else None
  }

  /**
   * createUser: after the guards one USER row with only the given email is written under the
   * next key, and the answer is 201 with its id.
   */
  method CreateUser(s: Store, email: Option<string>) returns (r: Response<Id>)
    modifies s`users, s`userSeq
    requires s.Valid()
    ensures s.Valid()
    ensures var e := old(CreateUserError(s, email));
            (e.Some? ==> r == Refuse(e.value) && s.users == old(s.users))
            && (e.None? ==> r == Reply(Created, old(s.userSeq)) && r.body !in old(s.users)
                            && s.users == old(s.users)[r.body := User(email.value, None, None)])
    ensures old(s.Linked()) ==> s.Linked()
  {
    var e := CreateUserError(s, email);
    if e.Some? {
      return Refuse(e.value);
    }
    var id := s.InsertUser(User(email.value, None, None));
    return Reply(Created, id.value);
  }

  /** The guards of updateUser: 404 for an unknown user, 409 for a new email another user has. */
  function UpdateUserError(s: Store, userId: IdValue, email: Option<string>): (e: Option<Error>)
    reads s`users
    ensures Find(s.users.Keys, userId).None? ==> e == Some(Error(NotFound, USER_NOT_FOUND))
    ensures e.None? <==>
              Find(s.users.Keys, userId).Some?
              && !(Truthy(email) && email.value != s.users[ToNumber(userId).value].email
                   && s.EmailUsed(email.value, None))
  {
    if Find(s.users.Keys, userId).None? then Some(Error(NotFound, USER_NOT_FOUND))
    else if Truthy(email) && email.value != s.users[ToNumber(userId).value].email && s.EmailUsed(email.value, None) then
      Some(Error(Conflict, EMAIL_TAKEN))
    else None
  }

  /** `user.update({ email })`: an absent email keeps the old one; password and role are untouched. */
  function UpdatedUser(u: User, email: Option<string>): (v: User)
    ensures email.Some? ==> v.email == email.value
    ensures email.None? ==> v == u
    ensures v.password == u.password && v.role == u.role
  {
    u.(email := if email.Some? then email.value else u.email)
  }

  /**
   * updateUser: 404 or 409 as the guards say, writing nothing; otherwise the row becomes
   * UpdatedUser and the answer is 200. A present but empty email skips the 409 check and
   * reaches the store, which refuses an email another user has (500).
   */
  method UpdateUser(s: Store, userId: IdValue, email: Option<string>) returns (r: Response<User>)
    modifies s`users
    requires s.Valid()
    ensures s.Valid()
    ensures var e := old(UpdateUserError(s, userId, email));
            e.Some? ==> r == Refuse(e.value)
    ensures r.Refuse? ==> s.users == old(s.users)
    ensures old(UpdateUserError(s, userId, email)).None? && r.Refuse? ==> r.error == Error(ServerError, THROWN)
    ensures r.Reply? <==>
              old(UpdateUserError(s, userId, email)).None?
              && var id := ToNumber(userId).value;
                 !old(s.EmailUsed(UpdatedUser(s.users[id], email).email, Some(id)))
    ensures r.Reply? ==>
              var id := ToNumber(userId).value;
              var v := UpdatedUser(old(s.users)[id], email);
              r == Reply(Ok, v) && s.users == old(s.users)[id := v]
    ensures old(s.Linked()) ==> s.Linked()
  {
    var e := UpdateUserError(s, userId, email);
    if e.Some? {
      return Refuse(e.value);
    }
    var id := ToNumber(userId).value;
    var v := UpdatedUser(s.users[id], email);
    var ok := s.UpdateUser(id, v);
    if !ok {
      return Refuse(Error(ServerError, THROWN));
    }
    return Reply(Ok, v);
  }

  /** An update that passes the guards with a truthy or absent email is always written. */
  lemma GuardedEmailUpdateIsWritten(s: Store, userId: IdValue, email: Option<string>)
    requires s.UniqueEmails() && UpdateUserError(s, userId, email).None?
    requires email.None? || Truthy(email)
    ensures var id := ToNumber(userId).value;
            !s.EmailUsed(UpdatedUser(s.users[id], email).email, Some(id))
  {
    var id := ToNumber(userId).value;
    var v := UpdatedUser(s.users[id], email);
    forall k | k in s.users && k != id
      ensures s.users[k].email != v.email
    {
      if email.Some? && email.value != s.users[id].email {
        assert !s.EmailUsed(v.email, None);
      } else {
        assert v.email == s.users[id].email;
      }
    }
  }

  /** deleteUser: 404 for an unknown user, otherwise the row is destroyed. */
  method DeleteUser(s: Store, userId: IdValue) returns (r: Response<()>)
    modifies s`users
    requires s.Valid()
    ensures s.Valid()
    ensures r.Reply? <==> old(Find(s.users.Keys, userId)).Some?
    ensures r.Refuse? ==> r.error == Error(NotFound, USER_NOT_FOUND) && s.users == old(s.users)
    ensures r.Reply? ==> r.status == Ok && s.users == old(s.users) - {ToNumber(userId).value}
  {
    var k := Find(s.users.Keys, userId);
    if k.None? {
      return Refuse(Error(NotFound, USER_NOT_FOUND));
    }
    s.DeleteUser(k.value);
    return Reply(Ok, ());
  }

  // ---------------------------------------------------------------------------
  // getUserType
  // ---------------------------------------------------------------------------

  /** The profile getUserType reports: the row of the first profile table that has the user, or null. */
  datatype Profile = CentreProfile(centre: Centre) | TherapistProfile(therapist: Therapist)
                   | PatientProfile(patient: Patient) | NoProfile

  datatype UserType = UserType(id: Id, email: string, userType: string, profile: Profile)

  /** The `userType` a profile is reported under. */
  function TypeName(p: Profile): (name: string)
    ensures name == "unassigned" <==> p.NoProfile?
  {
    match p
    case CentreProfile(_) => "centre"
    case TherapistProfile(_) => "therapist"
    case PatientProfile(_) => "patient"
    case NoProfile => "unassigned"
  }

  /**
   * getUserType: 404 for an unknown user; otherwise a centre profile wins over a therapist
   * profile, which wins over a patient profile, and a user with none is "unassigned" with
   * a null profile.
   */
  function GetUserType(s: Store, userId: IdValue): (r: Response<UserType>)
    reads s`users, s`centres, s`therapists, s`patients
    ensures r.Reply? <==> Find(s.users.Keys, userId).Some?
    ensures r.Refuse? ==> r.error == Error(NotFound, USER_NOT_FOUND)
    ensures r.Reply? ==>
              var k := ToNumber(userId).value;
              r.status == Ok && r.body.id == k && r.body.email == s.users[k].email
              && r.body.userType == TypeName(r.body.profile)
              && (k in s.centres ==> r.body.profile == CentreProfile(s.centres[k]))
              && (k !in s.centres && k in s.therapists ==> r.body.profile == TherapistProfile(s.therapists[k]))
              && (k !in s.centres && k !in s.therapists && k in s.patients ==>
                    r.body.profile == PatientProfile(s.patients[k]))
              && (r.body.profile == NoProfile <==> k !in s.centres && k !in s.therapists && k !in s.patients)
  {
    var found := Find(s.users.Keys, userId);
    if found.None? then Refuse(Error(NotFound, USER_NOT_FOUND))
    else
      var k := found.value;
      var profile :=
        if k in s.centres then CentreProfile(s.centres[k])
        else if k in s.therapists then TherapistProfile(s.therapists[k])
        else if k in s.patients then PatientProfile(s.patients[k])
        else NoProfile;
      Reply(Ok, UserType(k, s.users[k].email, TypeName(profile), profile))
  }

  // ---------------------------------------------------------------------------
  // searchUsers
  // ---------------------------------------------------------------------------

  /**
   * searchUsers: 400 without an email query; otherwise the first ten users, in scan order,
   * whose email contains the query.
   */
  function SearchUsers(rows: seq<(Id, User)>, email: Option<string>): (r: Response<seq<(Id, User)>>)
    ensures !Truthy(email) <==> r == Refuse(Error(BadRequest, QUERY_REQUIRED))
    ensures r.Reply? ==> r.status == Ok && |r.body| <= SEARCH_LIMIT
    ensures r.Reply? ==> forall x :: x in r.body ==> x in rows && Contains(x.1.email, email.value)
    ensures r.Reply? ==>
              var matching := Select(rows, (x: (Id, User)) => Contains(x.1.email, email.value));
              r.body <= matching && |r.body| == (if |matching| < SEARCH_LIMIT then |matching| else SEARCH_LIMIT)
  {
    if !Truthy(email) then Refuse(Error(BadRequest, QUERY_REQUIRED))
    else
      var matching := Select(rows, (x: (Id, User)) => Contains(x.1.email, email.value));
      Reply(Ok, Take(matching, SEARCH_LIMIT))
  }
}
