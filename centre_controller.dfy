/**
 * backend/controllers/centreController.js: the centre handlers. Every handler that writes
 * for a given centre first checks that the caller owns it (or is ADMIN), before any read.
 *
 * Ids reach the handlers as `IdValue`s: a URL parameter is a string, a body field a JSON
 * number or string, a token id a number. `findByPk(v)` looks up the key `Number(v)`; a
 * value that is not a number finds nothing.
 */
module CentreController {
  import opened JsValues
  import opened Http
  import opened Schema
  import opened Query

  const NO_PERMISSION := "No tienes permisos."
  const NOT_YOUR_CENTRE := "No puedes gestionar un centro que no es el tuyo."
  const CREATE_FIELDS_MISSING := "Id_user_centre, CIF y name son requeridos"
  const USER_NOT_FOUND := "Usuario no encontrado"
  const CIF_TAKEN := "El CIF ya está registrado"
  const ALREADY_CENTRE := "Este usuario ya está registrado como centro"
  const SERVICE_NOT_FOUND := "Servicio no encontrado"
  const CENTRE_NOT_FOUND := "Centro no encontrado"
  const CREATE_FAILED := "Error al crear centro"
  const THERAPIST_REQUIRED := "Id_user_therapist es requerido"
  const THERAPIST_NOT_FOUND := "Terapeuta no encontrado"
  const ALREADY_EMPLOYED := "El terapeuta ya está empleado en este centro"
  const COURSE_REQUIRED := "Id_course es requerido"
  const COURSE_NOT_FOUND := "Curso no encontrado"
  /** The contract an Employs row gets when the body names none. */
  const DEFAULT_CONTRACT := "No especificado"

  // ---------------------------------------------------------------------------
  // Ownership
  // ---------------------------------------------------------------------------

  predicate IsAdmin(user: Option<Claims>) {
    user.Some? && user.value.role == Some(ADMIN)
  }

  predicate IsCentre(user: Option<Claims>) {
    user.Some? && user.value.role == Some(CENTRE)
  }

  /**
   * assertCentreOwnership(req, centreId): ADMIN passes; any other role but CENTRE gets 403;
   * a CENTRE passes exactly when `Number(user.id) === Number(centreId)`.
   */
  function Ownership(user: Option<Claims>, centreId: IdValue): (e: Option<Error>)
    ensures e.None? <==> IsAdmin(user) || (IsCentre(user) && ToNumber(centreId) == Some(user.value.id))
    ensures !IsAdmin(user) && !IsCentre(user) ==> e == Some(Error(Forbidden, NO_PERMISSION))
    ensures IsCentre(user) && ToNumber(centreId) != Some(user.value.id) ==> e == Some(Error(Forbidden, NOT_YOUR_CENTRE))
  {
    if IsAdmin(user) then None
    else if !IsCentre(user) then Some(Error(Forbidden, NO_PERMISSION))
    else if ToNumber(centreId) != Some(user.value.id) then Some(Error(Forbidden, NOT_YOUR_CENTRE))
    else None
  }

  /** A CENTRE owns the centre named by its id written in decimal, as a URL carries it: "5" and 5 match. */
  lemma OwnershipOfDecimalParam(c: Claims)
    requires c.role == Some(CENTRE) && c.id >= 0
    ensures Ownership(Some(c), Text(DecimalString(c.id))).None?
  {
    DecimalTextIsSameNumber(c.id);
  }

  /** A CENTRE never owns the centre of another id, whichever way the id is written. */
  lemma OwnershipRejectsOthers(c: Claims, centreId: IdValue)
    requires c.role == Some(CENTRE) && ToNumber(centreId).Some? && ToNumber(centreId).value != c.id
    ensures Ownership(Some(c), centreId) == Some(Error(Forbidden, NOT_YOUR_CENTRE))
  {
  }

  // ---------------------------------------------------------------------------
  // createCentre
  // ---------------------------------------------------------------------------

  datatype CreateCentreBody = CreateCentreBody(
    userId: Option<IdValue>, cif: Option<string>, name: Option<string>,
    location: Option<string>, service: Option<IdValue>)

  /** The guards createCentre runs before it writes, in order, and the first that fails. */
  function CreateCentreError(s: Store, b: CreateCentreBody): (e: Option<Error>)
    reads s`users, s`centres, s`services
    ensures !(PresentValue(b.userId) && Truthy(b.cif) && Truthy(b.name)) ==>
              e == Some(Error(BadRequest, CREATE_FIELDS_MISSING))
    ensures e.None? <==>
              PresentValue(b.userId) && Truthy(b.cif) && Truthy(b.name)
              && Find(s.users.Keys, b.userId.value).Some?
              && !s.CifUsed(b.cif.value, None)
              && ToNumber(b.userId.value).value !in s.centres
              && (PresentValue(b.service) ==> Find(s.services.Keys, b.service.value).Some?)
    ensures e.Some? ==> e.value.status in {BadRequest, NotFound, Conflict}
    ensures e.None? ==> IntegerValue(b.service)
  {
    if !PresentValue(b.userId) || !Truthy(b.cif) || !Truthy(b.name) then
      Some(Error(BadRequest, CREATE_FIELDS_MISSING))
    else if Find(s.users.Keys, b.userId.value).None? then Some(Error(NotFound, USER_NOT_FOUND))
    else if s.CifUsed(b.cif.value, None) then Some(Error(Conflict, CIF_TAKEN))
    else if ToNumber(b.userId.value).value in s.centres then Some(Error(Conflict, ALREADY_CENTRE))
    else if PresentValue(b.service) && Find(s.services.Keys, b.service.value).None? then
      Some(Error(NotFound, SERVICE_NOT_FOUND))
    else None
  }

  /** The row createCentre writes. */
  function NewCentre(b: CreateCentreBody): (c: Centre)
    requires Truthy(b.cif)
    ensures c.cif == b.cif.value && c.name == b.name && c.location == b.location && c.phone.None?
    ensures b.service.None? ==> c.service.None?
    ensures b.service.Some? && IntegerValue(b.service) ==> c.service == ToNumber(b.service.value)
  {
    Centre(b.cif.value, b.name, None, b.location, ForeignKey(b.service))
  }

  /**
   * createCentre: the guards in order (400, 404 user, 409 CIF, 409 already a centre, 404
   * service), then one Centre row keyed by the user's id. A present but falsy Id_service
   * skips the lookup and then breaks the foreign key, which the store refuses (500).
   */
  method CreateCentre(s: Store, b: CreateCentreBody) returns (r: Response<Centre>)
    modifies s`centres
    requires s.Valid()
    ensures s.Valid()
    ensures old(CreateCentreError(s, b)).Some? ==> r == Refuse(old(CreateCentreError(s, b)).value)
    ensures r.Reply? <==> old(CreateCentreError(s, b)).None? && old(s.CentreRefOk(NewCentre(b)))
    ensures r.Refuse? ==> s.centres == old(s.centres)
    ensures old(CreateCentreError(s, b)).None? && r.Refuse? ==> r.error == Error(ServerError, CREATE_FAILED)
    ensures r.Reply? ==> r == Reply(Created, NewCentre(b))
                         && s.centres == old(s.centres)[ToNumber(b.userId.value).value := NewCentre(b)]
    ensures old(s.Linked()) ==> s.Linked()
  {
    var e := CreateCentreError(s, b);
    if e.Some? {
      return Refuse(e.value);
    }
    var id := ToNumber(b.userId.value).value;
    var ok := s.InsertCentre(id, NewCentre(b));
    if !ok {
      return Refuse(Error(ServerError, CREATE_FAILED));
    }
    return Reply(Created, NewCentre(b));
  }

  // ---------------------------------------------------------------------------
  // updateCentre
  // ---------------------------------------------------------------------------

  datatype UpdateCentreBody = UpdateCentreBody(
    cif: Option<string>, name: Option<string>, location: Option<string>, service: Option<IdValue>)

  /** The guards updateCentre runs before it writes: ownership, 404 centre, 409 CIF, 404 service. */
  function UpdateCentreError(s: Store, user: Option<Claims>, centreId: IdValue, b: UpdateCentreBody): (e: Option<Error>)
    reads s`centres, s`services
    ensures Ownership(user, centreId).Some? ==> e == Ownership(user, centreId)
    ensures e.None? <==>
              Ownership(user, centreId).None?
              && Find(s.centres.Keys, centreId).Some?
              && !(Truthy(b.cif) && b.cif.value != s.centres[ToNumber(centreId).value].cif
                   && s.CifUsed(b.cif.value, None))
              && (PresentValue(b.service) ==> Find(s.services.Keys, b.service.value).Some?)
    ensures e.None? ==> IntegerValue(b.service)
  {
    if Ownership(user, centreId).Some? then Ownership(user, centreId)
    else if Find(s.centres.Keys, centreId).None? then Some(Error(NotFound, CENTRE_NOT_FOUND))
    else
      var c := s.centres[ToNumber(centreId).value];
      if Truthy(b.cif) && b.cif.value != c.cif && s.CifUsed(b.cif.value, None) then Some(Error(Conflict, CIF_TAKEN))
      else if PresentValue(b.service) && Find(s.services.Keys, b.service.value).None? then
        Some(Error(NotFound, SERVICE_NOT_FOUND))
      else None
  }

  /** `centre.update({ CIF: CIF ?? centre.CIF, name: name ?? centre.name, ... })`. */
  function UpdatedCentre(c: Centre, b: UpdateCentreBody): (u: Centre)
    ensures b.cif.None? ==> u.cif == c.cif
    ensures b.name.None? ==> u.name == c.name
    ensures b.location.None? ==> u.location == c.location
    ensures b.service.None? ==> u.service == c.service
    ensures u.phone == c.phone
  {
    Centre(if b.cif.Some? then b.cif.value else c.cif, Coalesce(b.name, c.name), c.phone,
           Coalesce(b.location, c.location), if b.service.Some? then ForeignKey(b.service) else c.service)
  }

  /** Updating with an empty body writes the row back unchanged. */
  lemma UpdatedCentreEmptyBody(c: Centre)
    ensures UpdatedCentre(c, UpdateCentreBody(None, None, None, None)) == c
  {
  }

  /**
   * updateCentre: the ownership check comes first and its 403 is the answer; then 404, 409
   * and 404 as UpdateCentreError says; then the row becomes UpdatedCentre. A present but
   * falsy CIF or Id_service skips its check and reaches the store, which refuses a taken
   * CIF or a dangling service (500).
   */
  method UpdateCentre(s: Store, req: Request, b: UpdateCentreBody) returns (r: Response<Centre>)
    modifies s`centres
    requires s.Valid()
    ensures s.Valid()
    ensures var e := old(UpdateCentreError(s, req.user, req.paramId, b));
            e.Some? ==> r == Refuse(e.value)
    ensures r.Refuse? ==> s.centres == old(s.centres)
    ensures old(UpdateCentreError(s, req.user, req.paramId, b)).None? && r.Refuse? ==> r.error == Error(ServerError, THROWN)
    ensures r.Reply? <==>
              old(UpdateCentreError(s, req.user, req.paramId, b)).None?
              && var id := ToNumber(req.paramId).value;
                 var u := UpdatedCentre(old(s.centres)[id], b);
                 !old(s.CifUsed(u.cif, Some(id))) && old(s.CentreRefOk(u))
    ensures r.Reply? ==>
              var id := ToNumber(req.paramId).value;
              var u := UpdatedCentre(old(s.centres)[id], b);
              r == Reply(Ok, u) && s.centres == old(s.centres)[id := u]
    ensures old(s.Linked()) ==> s.Linked()
  {
    var e := UpdateCentreError(s, req.user, req.paramId, b);
    if e.Some? {
      return Refuse(e.value);
    }
    var id := ToNumber(req.paramId).value;
    var u := UpdatedCentre(s.centres[id], b);
    var ok := s.UpdateCentre(id, u);
    if !ok {
      return Refuse(Error(ServerError, THROWN));
    }
    return Reply(Ok, u);
  }

  // ---------------------------------------------------------------------------
  // deleteCentre, getCentreById, getCentreTherapists, getCentreCourses, searchCentres
  // ---------------------------------------------------------------------------

  /** deleteCentre: 404 for an unknown centre, otherwise the row is destroyed. */
  method DeleteCentre(s: Store, centreId: IdValue) returns (r: Response<()>)
    modifies s`centres
    requires s.Valid()
    ensures s.Valid()
    ensures r.Reply? <==> old(Find(s.centres.Keys, centreId)).Some?
    ensures r.Refuse? ==> r.error == Error(NotFound, CENTRE_NOT_FOUND) && s.centres == old(s.centres)
    ensures r.Reply? ==> r.status == Ok && s.centres == old(s.centres) - {ToNumber(centreId).value}
  {
    var k := Find(s.centres.Keys, centreId);
    if k.None? {
      return Refuse(Error(NotFound, CENTRE_NOT_FOUND));
    }
    s.DeleteCentre(k.value);
    return Reply(Ok, ());
  }

  /** getCentreById: the row, or 404. */
  function GetCentreById(s: Store, centreId: IdValue): (r: Response<Centre>)
    reads s`centres
    ensures r.Reply? <==> Find(s.centres.Keys, centreId).Some?
    ensures r.Reply? ==> r.status == Ok && r.body == s.centres[ToNumber(centreId).value]
    ensures r.Refuse? ==> r.error == Error(NotFound, CENTRE_NOT_FOUND)
  {
    var k := Find(s.centres.Keys, centreId);
    if k.None? then Refuse(Error(NotFound, CENTRE_NOT_FOUND)) else Reply(Ok, s.centres[k.value])
  }

  /** The therapists a centre employs, through EMPLOYS. */
  function EmployedBy(employs: map<(Id, Id), Option<string>>, centre: Id): (ts: set<Id>)
    ensures forall t :: t in ts <==> (centre, t) in employs
  {
    set p | p in employs && p.0 == centre :: p.1
  }

  /** The courses a centre has posted, through POSTS. */
  function PostedBy(posts: map<(Id, Id), Option<Date>>, centre: Id): (cs: set<Id>)
    ensures forall c :: c in cs <==> (centre, c) in posts
  {
    set p | p in posts && p.0 == centre :: p.1
  }

  /** getCentreTherapists: 404 for an unknown centre, otherwise the therapists it employs. */
  function GetCentreTherapists(s: Store, centreId: IdValue): (r: Response<set<Id>>)
    reads s`centres, s`employs
    ensures r.Reply? <==> Find(s.centres.Keys, centreId).Some?
    ensures r.Reply? ==> r.status == Ok && forall t :: t in r.body <==> (ToNumber(centreId).value, t) in s.employs
  {
    var k := Find(s.centres.Keys, centreId);
    if k.None? then Refuse(Error(NotFound, CENTRE_NOT_FOUND)) else Reply(Ok, EmployedBy(s.employs, k.value))
  }

  /** getCentreCourses: 404 for an unknown centre, otherwise the courses it posted. */
  function GetCentreCourses(s: Store, centreId: IdValue): (r: Response<set<Id>>)
    reads s`centres, s`posts
    ensures r.Reply? <==> Find(s.centres.Keys, centreId).Some?
    ensures r.Reply? ==> r.status == Ok && forall c :: c in r.body <==> (ToNumber(centreId).value, c) in s.posts
  {
    var k := Find(s.centres.Keys, centreId);
    if k.None? then Refuse(Error(NotFound, CENTRE_NOT_FOUND)) else Reply(Ok, PostedBy(s.posts, k.value))
  }

  /** The WHERE clause of searchCentres: each filter applies only when given, and both must hold. */
  predicate CentreMatches(c: Centre, location: Option<string>, cif: Option<string>) {
    (Truthy(location) ==> Like(c.location, location.value))
    && (Truthy(cif) ==> Like(Some(c.cif), cif.value))
  }

  /** searchCentres over the table's rows in scan order. */
  function SearchCentres(rows: seq<(Id, Centre)>, location: Option<string>, cif: Option<string>): (r: seq<(Id, Centre)>)
    ensures forall x :: x in r <==> x in rows && CentreMatches(x.1, location, cif)
    ensures !Truthy(location) && !Truthy(cif) ==> r == rows
  {
    var p := (x: (Id, Centre)) => CentreMatches(x.1, location, cif);
    var sel := Select(rows, p);
    SelectAll(rows, p);
    sel
  }

  // ---------------------------------------------------------------------------
  // addTherapistToCentre, removeTherapistFromCentre, postCourse
  // ---------------------------------------------------------------------------

  datatype AddTherapistBody = AddTherapistBody(therapist: Option<IdValue>, contract: Option<string>)

  /** The guards of addTherapistToCentre: ownership, 400, 404 centre, 404 therapist, 409 pair. */
  function AddTherapistError(s: Store, user: Option<Claims>, centreId: IdValue, b: AddTherapistBody): (e: Option<Error>)
    reads s`centres, s`therapists, s`employs
    ensures Ownership(user, centreId).Some? ==> e == Ownership(user, centreId)
    ensures Ownership(user, centreId).None? && !PresentValue(b.therapist) ==> e == Some(Error(BadRequest, THERAPIST_REQUIRED))
    ensures e.None? <==>
              Ownership(user, centreId).None? && PresentValue(b.therapist)
              && Find(s.centres.Keys, centreId).Some? && Find(s.therapists.Keys, b.therapist.value).Some?
              && (ToNumber(centreId).value, ToNumber(b.therapist.value).value) !in s.employs
    ensures e.Some? && e.value.status == Conflict ==>
              PresentValue(b.therapist) && ToNumber(centreId).Some? && ToNumber(b.therapist.value).Some?
              && (ToNumber(centreId).value, ToNumber(b.therapist.value).value) in s.employs
  {
    if Ownership(user, centreId).Some? then Ownership(user, centreId)
    else if !PresentValue(b.therapist) then Some(Error(BadRequest, THERAPIST_REQUIRED))
    else if Find(s.centres.Keys, centreId).None? then Some(Error(NotFound, CENTRE_NOT_FOUND))
    else if Find(s.therapists.Keys, b.therapist.value).None? then Some(Error(NotFound, THERAPIST_NOT_FOUND))
    else if (ToNumber(centreId).value, ToNumber(b.therapist.value).value) in s.employs then
      Some(Error(Conflict, ALREADY_EMPLOYED))
    else None
  }

  /**
   * addTherapistToCentre: after the guards, the pair is added to EMPLOYS with the body's
   * contract or "No especificado"; nothing else changes.
   */
  method AddTherapistToCentre(s: Store, req: Request, b: AddTherapistBody) returns (r: Response<()>)
    modifies s`employs
    ensures var e := old(AddTherapistError(s, req.user, req.paramId, b));
            (e.Some? ==> r == Refuse(e.value) && s.employs == old(s.employs))
            && (e.None? ==> r == Reply(Created, ())
                            && s.employs == old(s.employs)[(ToNumber(req.paramId).value, ToNumber(b.therapist.value).value)
                                                           := Some(OrElse(b.contract, DEFAULT_CONTRACT))])
    ensures old(s.Linked()) ==> s.Linked()
  {
    var e := AddTherapistError(s, req.user, req.paramId, b);
    if e.Some? {
      return Refuse(e.value);
    }
    var ok := s.AddEmploys(ToNumber(req.paramId).value, ToNumber(b.therapist.value).value,
                           Some(OrElse(b.contract, DEFAULT_CONTRACT)));
    assert ok;
    return Reply(Created, ());
  }

  /** The guards of removeTherapistFromCentre: ownership, 404 centre, 404 therapist; an absent pair is fine. */
  function RemoveTherapistError(s: Store, user: Option<Claims>, centreId: IdValue, therapistId: IdValue): (e: Option<Error>)
    reads s`centres, s`therapists
    ensures Ownership(user, centreId).Some? ==> e == Ownership(user, centreId)
    ensures e.None? <==> Ownership(user, centreId).None? && Find(s.centres.Keys, centreId).Some?
                         && Find(s.therapists.Keys, therapistId).Some?
  {
    if Ownership(user, centreId).Some? then Ownership(user, centreId)
    else if Find(s.centres.Keys, centreId).None? then Some(Error(NotFound, CENTRE_NOT_FOUND))
    else if Find(s.therapists.Keys, therapistId).None? then Some(Error(NotFound, THERAPIST_NOT_FOUND))
    else None
  }

  /**
   * removeTherapistFromCentre: after the guards the pair is no longer in EMPLOYS and the
   * answer is 200, whether or not the therapist was employed there.
   */
  method RemoveTherapistFromCentre(s: Store, req: Request, therapistId: IdValue) returns (r: Response<()>)
    modifies s`employs
    ensures var e := old(RemoveTherapistError(s, req.user, req.paramId, therapistId));
            (e.Some? ==> r == Refuse(e.value) && s.employs == old(s.employs))
            && (e.None? ==> r == Reply(Ok, ())
                            && s.employs == old(s.employs) - {(ToNumber(req.paramId).value, ToNumber(therapistId).value)})
    ensures old(s.Linked()) ==> s.Linked()
  {
    var e := RemoveTherapistError(s, req.user, req.paramId, therapistId);
    if e.Some? {
      return Refuse(e.value);
    }
    s.RemoveEmploys(ToNumber(req.paramId).value, ToNumber(therapistId).value);
    return Reply(Ok, ());
  }

  datatype PostCourseBody = PostCourseBody(course: Option<IdValue>, postDate: Option<Date>)

  /** The guards of postCourse: ownership, 400, 404 centre, 404 course; a posted pair is not checked. */
  function PostCourseError(s: Store, user: Option<Claims>, centreId: IdValue, b: PostCourseBody): (e: Option<Error>)
    reads s`centres, s`courses
    ensures Ownership(user, centreId).Some? ==> e == Ownership(user, centreId)
    ensures Ownership(user, centreId).None? && !PresentValue(b.course) ==> e == Some(Error(BadRequest, COURSE_REQUIRED))
    ensures e.None? <==> Ownership(user, centreId).None? && PresentValue(b.course)
                         && Find(s.centres.Keys, centreId).Some? && Find(s.courses.Keys, b.course.value).Some?
  {
    if Ownership(user, centreId).Some? then Ownership(user, centreId)
    else if !PresentValue(b.course) then Some(Error(BadRequest, COURSE_REQUIRED))
    else if Find(s.centres.Keys, centreId).None? then Some(Error(NotFound, CENTRE_NOT_FOUND))
    else if Find(s.courses.Keys, b.course.value).None? then Some(Error(NotFound, COURSE_NOT_FOUND))
    else None
  }

  /**
   * postCourse: after the guards the pair (centre, course) is in POSTS, dated with the body's
   * Post_date or today; the other POSTS rows keep their dates.
   */
  method PostCourse(s: Store, req: Request, b: PostCourseBody, today: Date) returns (r: Response<()>)
    modifies s`posts
    ensures var e := old(PostCourseError(s, req.user, req.paramId, b));
            (e.Some? ==> r == Refuse(e.value) && s.posts == old(s.posts))
            && (e.None? ==> r == Reply(Created, ()))
    ensures r.Reply? ==>
              var p := (ToNumber(req.paramId).value, ToNumber(b.course.value).value);
              s.posts.Keys == old(s.posts).Keys + {p}
              && (s.posts[p] == Some(DateOrToday(b.postDate, today)) || (p in old(s.posts) && s.posts[p] == old(s.posts)[p]))
              && forall q :: q in old(s.posts) && q != p ==> s.posts[q] == old(s.posts)[q]
    ensures old(s.Linked()) ==> s.Linked()
  {
    var e := PostCourseError(s, req.user, req.paramId, b);
    if e.Some? {
      return Refuse(e.value);
    }
    var ok := s.AddPosts(ToNumber(req.paramId).value, ToNumber(b.course.value).value, Some(DateOrToday(b.postDate, today)));
    assert ok;
    return Reply(Created, ());
  }

  // ---------------------------------------------------------------------------
  // The /me wrappers
  // ---------------------------------------------------------------------------

  /**
   * `req.params.id = req.user.id`: the /me wrappers put the caller's id in place of the URL
   * parameter before they delegate. Without a user on the request the assignment throws (500).
   */
  method BindCaller(req: Request) returns (e: Option<Error>)
    modifies req`paramId
    ensures req.user.None? ==> e == Some(Error(ServerError, THROWN)) && req.paramId == old(req.paramId)
    ensures req.user.Some? ==> e.None? && req.paramId == Num(req.user.value.id)
  {
    if req.user.None? {
      return Some(Error(ServerError, THROWN));
    }
    req.paramId := Num(req.user.value.id);
    return None;
  }

  /** The caller always owns the centre the /me wrappers name, when it is a CENTRE or ADMIN. */
  lemma CallerOwnsBoundCentre(user: Option<Claims>)
    requires IsCentre(user) || IsAdmin(user)
    ensures Ownership(user, Num(user.value.id)).None?
  {
  }

  /** getMyCentreTherapists. */
  method GetMyCentreTherapists(s: Store, req: Request) returns (r: Response<set<Id>>)
    modifies req`paramId
    ensures req.user.Some? ==> r == GetCentreTherapists(s, Num(req.user.value.id))
    ensures req.user.None? ==> r == Refuse(Error(ServerError, THROWN))
  {
    var e := BindCaller(req);
    if e.Some? {
      return Refuse(e.value);
    }
    r := GetCentreTherapists(s, req.paramId);
  }

  /** getMyCentreCourses. */
  method GetMyCentreCourses(s: Store, req: Request) returns (r: Response<set<Id>>)
    modifies req`paramId
    ensures req.user.Some? ==> r == GetCentreCourses(s, Num(req.user.value.id))
    ensures req.user.None? ==> r == Refuse(Error(ServerError, THROWN))
  {
    var e := BindCaller(req);
    if e.Some? {
      return Refuse(e.value);
    }
    r := GetCentreCourses(s, req.paramId);
  }

  /**
   * addTherapistToMyCentre: addTherapistToCentre on the caller's own centre, so a CENTRE
   * caller is never refused for ownership.
   */
  method AddTherapistToMyCentre(s: Store, req: Request, b: AddTherapistBody) returns (r: Response<()>)
    modifies req`paramId, s`employs
    ensures IsCentre(req.user) || IsAdmin(req.user) ==> r.StatusOf() != Forbidden
    ensures req.user.Some? ==> req.paramId == Num(req.user.value.id)
    ensures req.user.Some? ==>
              var id := req.user.value.id;
              var e := old(AddTherapistError(s, req.user, Num(id), b));
              (e.Some? ==> r == Refuse(e.value) && s.employs == old(s.employs))
              && (e.None? ==> r == Reply(Created, ())
                              && s.employs == old(s.employs)[(id, ToNumber(b.therapist.value).value)
                                                             := Some(OrElse(b.contract, DEFAULT_CONTRACT))])
    ensures req.user.None? ==> r == Refuse(Error(ServerError, THROWN)) && s.employs == old(s.employs)
    ensures old(s.Linked()) ==> s.Linked()
  {
    var e := BindCaller(req);
    if e.Some? {
      return Refuse(e.value);
    }
    r := AddTherapistToCentre(s, req, b);
  }

  /**
   * removeTherapistFromMyCentre: removeTherapistFromCentre on the caller's own centre, so a
   * CENTRE caller is never refused for ownership.
   */
  method RemoveTherapistFromMyCentre(s: Store, req: Request, therapistId: IdValue) returns (r: Response<()>)
    modifies req`paramId, s`employs
    ensures IsCentre(req.user) || IsAdmin(req.user) ==> r.StatusOf() != Forbidden
    ensures req.user.Some? ==> req.paramId == Num(req.user.value.id)
    ensures req.user.Some? ==>
              var id := req.user.value.id;
              var e := old(RemoveTherapistError(s, req.user, Num(id), therapistId));
              (e.Some? ==> r == Refuse(e.value) && s.employs == old(s.employs))
              && (e.None? ==> r == Reply(Ok, ()) && s.employs == old(s.employs) - {(id, ToNumber(therapistId).value)})
    ensures req.user.None? ==> r == Refuse(Error(ServerError, THROWN)) && s.employs == old(s.employs)
    ensures old(s.Linked()) ==> s.Linked()
  {
    var e := BindCaller(req);
    if e.Some? {
      return Refuse(e.value);
    }
    r := RemoveTherapistFromCentre(s, req, therapistId);
  }

  /**
   * postCourseToMyCentre: postCourse on the caller's own centre, so a CENTRE caller is never
   * refused for ownership.
   */
  method PostCourseToMyCentre(s: Store, req: Request, b: PostCourseBody, today: Date) returns (r: Response<()>)
    modifies req`paramId, s`posts
    ensures IsCentre(req.user) || IsAdmin(req.user) ==> r.StatusOf() != Forbidden
    ensures req.user.Some? ==> req.paramId == Num(req.user.value.id)
    ensures req.user.Some? ==>
              var e := old(PostCourseError(s, req.user, Num(req.user.value.id), b));
              (e.Some? ==> r == Refuse(e.value) && s.posts == old(s.posts))
              && (e.None? ==> r == Reply(Created, ()))
    ensures req.user.Some? && r.Reply? ==>
              var p := (req.user.value.id, ToNumber(b.course.value).value);
              s.posts.Keys == old(s.posts).Keys + {p}
              && (s.posts[p] == Some(DateOrToday(b.postDate, today)) || (p in old(s.posts) && s.posts[p] == old(s.posts)[p]))
              && forall q :: q in old(s.posts) && q != p ==> s.posts[q] == old(s.posts)[q]
    ensures req.user.None? ==> r == Refuse(Error(ServerError, THROWN)) && s.posts == old(s.posts)
    ensures old(s.Linked()) ==> s.Linked()
  {
    var e := BindCaller(req);
    if e.Some? {
      return Refuse(e.value);
    }
    r := PostCourse(s, req, b, today);
  }
}
