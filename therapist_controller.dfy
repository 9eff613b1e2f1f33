/**
 * backend/controllers/therapistController.js: the therapist handlers. Each runs its guards
 * in order, answers with the first that fails, and otherwise writes one row of THERAPIST,
 * TREATS, BUYS or PUBLISH. None of them checks who the caller is.
 */
module TherapistController {
  import opened JsValues
  import opened Http
  import opened Schema

  const FIELDS_MISSING := "Id_user_therapist y NIF son requeridos"
  const USER_NOT_FOUND := "Usuario no encontrado"
  const NIF_TAKEN := "El NIF ya está registrado"
  const ALREADY_THERAPIST := "Este usuario ya está registrado como terapeuta"
  const THERAPIST_NOT_FOUND := "Terapeuta no encontrado"
  const PATIENT_REQUIRED := "Id_user_patient es requerido"
  const PATIENT_NOT_FOUND := "Paciente no encontrado"
  const ALREADY_TREATED := "El paciente ya está siendo tratado por este terapeuta"
  const REPORT_REQUIRED := "El reporte es requerido"
  const TREATS_NOT_FOUND := "Relación terapeuta-paciente no encontrada"
  const COURSE_REQUIRED := "Id_course es requerido"
  const COURSE_NOT_FOUND := "Curso no encontrado"
  const RESOURCE_REQUIRED := "Id_resource es requerido"
  const RESOURCE_NOT_FOUND := "Recurso no encontrado"
  /** The report a TREATS row starts with when the body gives none. */
  const DEFAULT_REPORT := "Tratamiento iniciado"

  // ---------------------------------------------------------------------------
  // createTherapist
  // ---------------------------------------------------------------------------

  datatype CreateTherapistBody = CreateTherapistBody(
    userId: Option<IdValue>, nif: Option<string>, societyId: Option<string>, profession: Option<string>)

  /**
   * The guards of createTherapist, in order: 400 without a user id or NIF, 404 for an
   * unknown user, 409 for a NIF some therapist holds, 409 for a user who already is a
   * therapist. Patients' NIFs are not looked at.
   */
  function CreateTherapistError(s: Store, b: CreateTherapistBody): (e: Option<Error>)
    reads s`users, s`therapists
    ensures !(PresentValue(b.userId) && Truthy(b.nif)) ==> e == Some(Error(BadRequest, FIELDS_MISSING))
    ensures (PresentValue(b.userId) && Truthy(b.nif) && Find(s.users.Keys, b.userId.value).Some?
             && s.TherapistNifUsed(b.nif.value, None)) ==> e == Some(Error(Conflict, NIF_TAKEN))
    ensures e.None? <==>
              PresentValue(b.userId) && Truthy(b.nif)
              && Find(s.users.Keys, b.userId.value).Some?
              && !s.TherapistNifUsed(b.nif.value, None)
              && ToNumber(b.userId.value).value !in s.therapists
  {
    if !PresentValue(b.userId) || !Truthy(b.nif) then Some(Error(BadRequest, FIELDS_MISSING))
    else if Find(s.users.Keys, b.userId.value).None? then Some(Error(NotFound, USER_NOT_FOUND))
    else if s.TherapistNifUsed(b.nif.value, None) then Some(Error(Conflict, NIF_TAKEN))
    else if ToNumber(b.userId.value).value in s.therapists then Some(Error(Conflict, ALREADY_THERAPIST))
    else None
  }

  /** The row createTherapist writes. */
  function NewTherapist(b: CreateTherapistBody): (t: Therapist)
    requires Truthy(b.nif)
    ensures t.nif == b.nif.value && t.societyId == b.societyId && t.profession == b.profession
  {
    Therapist(b.nif.value, None, None, None, b.societyId, b.profession)
  }

  /**
   * createTherapist: once the guards pass, the THERAPIST row keyed by the user's id is
   * written and the answer is 201; the guards are exactly what the store's constraints
   * need, so the write never fails.
   */
  method CreateTherapist(s: Store, b: CreateTherapistBody) returns (r: Response<Therapist>)
    modifies s`therapists
    requires s.Valid()
    ensures s.Valid()
    ensures var e := old(CreateTherapistError(s, b));
            (e.Some? ==> r == Refuse(e.value) && s.therapists == old(s.therapists))
            && (e.None? ==> r == Reply(Created, NewTherapist(b))
                            && s.therapists == old(s.therapists)[ToNumber(b.userId.value).value := NewTherapist(b)])
    ensures old(s.Linked()) ==> s.Linked()
  {
    var e := CreateTherapistError(s, b);
    if e.Some? {
      return Refuse(e.value);
    }
    var ok := s.InsertTherapist(ToNumber(b.userId.value).value, NewTherapist(b));
    assert ok;
    return Reply(Created, NewTherapist(b));
  }

  // ---------------------------------------------------------------------------
  // updateTherapist, deleteTherapist
  // ---------------------------------------------------------------------------

  datatype UpdateTherapistBody = UpdateTherapistBody(nif: Option<string>, societyId: Option<string>, profession: Option<string>)

  /** The guards of updateTherapist: 404 for an unknown therapist, 409 for a new NIF another therapist holds. */
  function UpdateTherapistError(s: Store, therapistId: IdValue, b: UpdateTherapistBody): (e: Option<Error>)
    reads s`therapists
    ensures Find(s.therapists.Keys, therapistId).None? ==> e == Some(Error(NotFound, THERAPIST_NOT_FOUND))
    ensures e.None? <==>
              Find(s.therapists.Keys, therapistId).Some?
              && !(Truthy(b.nif) && b.nif.value != s.therapists[ToNumber(therapistId).value].nif
                   && s.TherapistNifUsed(b.nif.value, None))
  {
    if Find(s.therapists.Keys, therapistId).None? then Some(Error(NotFound, THERAPIST_NOT_FOUND))
    else
      var t := s.therapists[ToNumber(therapistId).value];
      if Truthy(b.nif) && b.nif.value != t.nif && s.TherapistNifUsed(b.nif.value, None) then
        Some(Error(Conflict, NIF_TAKEN))
      else None
  }

  /** `therapist.update({ NIF, Society_Id, Profession })`: a field the body leaves out keeps its value. */
  function UpdatedTherapist(t: Therapist, b: UpdateTherapistBody): (u: Therapist)
    ensures b.nif.Some? ==> u.nif == b.nif.value
    ensures b.nif.None? ==> u.nif == t.nif
    ensures u.societyId == Coalesce(b.societyId, t.societyId) && u.profession == Coalesce(b.profession, t.profession)
    ensures u.firstname == t.firstname && u.lastname == t.lastname && u.phone == t.phone
  {
    t.(nif := if b.nif.Some? then b.nif.value else t.nif,
       societyId := Coalesce(b.societyId, t.societyId),
       profession := Coalesce(b.profession, t.profession))
  }

  /**
   * Keeping the NIF (leaving it out, or sending the one the therapist has) never breaks its
   * uniqueness, so such an update is always written.
   */
  lemma KeptNifIsFree(s: Store, id: Id, b: UpdateTherapistBody)
    requires s.UniqueTherapistNifs() && id in s.therapists
    requires b.nif.None? || b.nif.value == s.therapists[id].nif
    ensures !s.TherapistNifUsed(UpdatedTherapist(s.therapists[id], b).nif, Some(id))
  {
  }

  /**
   * updateTherapist: 404 or 409 as the guards say, writing nothing; otherwise the row
   * becomes UpdatedTherapist and the answer is 200. A present but empty NIF skips the
   * 409 check and reaches the store, which refuses a NIF another therapist holds (500).
   */
  method UpdateTherapist(s: Store, therapistId: IdValue, b: UpdateTherapistBody) returns (r: Response<Therapist>)
    modifies s`therapists
    requires s.Valid()
    ensures s.Valid()
    ensures var e := old(UpdateTherapistError(s, therapistId, b));
            e.Some? ==> r == Refuse(e.value)
    ensures r.Refuse? ==> s.therapists == old(s.therapists)
    ensures old(UpdateTherapistError(s, therapistId, b)).None? && r.Refuse? ==> r.error == Error(ServerError, THROWN)
    ensures r.Reply? <==>
              old(UpdateTherapistError(s, therapistId, b)).None?
              && var id := ToNumber(therapistId).value;
                 !old(s.TherapistNifUsed(UpdatedTherapist(s.therapists[id], b).nif, Some(id)))
    ensures r.Reply? ==>
              var id := ToNumber(therapistId).value;
              var u := UpdatedTherapist(old(s.therapists)[id], b);
              r == Reply(Ok, u) && s.therapists == old(s.therapists)[id := u]
    ensures old(s.Linked()) ==> s.Linked()
  {
    var e := UpdateTherapistError(s, therapistId, b);
    if e.Some? {
      return Refuse(e.value);
    }
    var id := ToNumber(therapistId).value;
    var u := UpdatedTherapist(s.therapists[id], b);
    var ok := s.UpdateTherapist(id, u);
    if !ok {
      return Refuse(Error(ServerError, THROWN));
    }
    return Reply(Ok, u);
  }

  /** deleteTherapist: 404 for an unknown therapist, otherwise the row is destroyed. */
  method DeleteTherapist(s: Store, therapistId: IdValue) returns (r: Response<()>)
    modifies s`therapists
    requires s.Valid()
    ensures s.Valid()
    ensures r.Reply? <==> old(Find(s.therapists.Keys, therapistId)).Some?
    ensures r.Refuse? ==> r.error == Error(NotFound, THERAPIST_NOT_FOUND) && s.therapists == old(s.therapists)
    ensures r.Reply? ==> r.status == Ok && s.therapists == old(s.therapists) - {ToNumber(therapistId).value}
  {
    var k := Find(s.therapists.Keys, therapistId);
    if k.None? {
      return Refuse(Error(NotFound, THERAPIST_NOT_FOUND));
    }
    s.DeleteTherapist(k.value);
    return Reply(Ok, ());
  }

  // ---------------------------------------------------------------------------
  // TREATS: addPatientToTherapist, updateTreatmentReport, removePatientFromTherapist
  // ---------------------------------------------------------------------------

  /** The patients a therapist treats, through TREATS. */
  function TreatedBy(treats: map<(Id, Id), Option<string>>, therapist: Id): (ps: set<Id>)
    ensures forall p :: p in ps <==> (therapist, p) in treats
  {
    set q | q in treats && q.0 == therapist :: q.1
  }

  /** Adding a new TREATS pair gives its therapist exactly one more patient. */
  lemma TreatedByAdd(treats: map<(Id, Id), Option<string>>, therapist: Id, patient: Id, report: Option<string>)
    requires (therapist, patient) !in treats
    ensures TreatedBy(treats[(therapist, patient) := report], therapist) == TreatedBy(treats, therapist) + {patient}
    ensures |TreatedBy(treats[(therapist, patient) := report], therapist)| == |TreatedBy(treats, therapist)| + 1
  {
    assert patient !in TreatedBy(treats, therapist);
    assert TreatedBy(treats[(therapist, patient) := report], therapist) == TreatedBy(treats, therapist) + {patient};
  }

  datatype AddPatientBody = AddPatientBody(patient: Option<IdValue>, report: Option<string>)

  /** The guards of addPatientToTherapist: 400 without a patient id, 404 therapist, 404 patient, 409 pair. */
  function AddPatientError(s: Store, therapistId: IdValue, b: AddPatientBody): (e: Option<Error>)
    reads s`therapists, s`patients, s`treats
    ensures !PresentValue(b.patient) ==> e == Some(Error(BadRequest, PATIENT_REQUIRED))
    ensures e.None? <==>
              PresentValue(b.patient)
              && Find(s.therapists.Keys, therapistId).Some? && Find(s.patients.Keys, b.patient.value).Some?
              && (ToNumber(therapistId).value, ToNumber(b.patient.value).value) !in s.treats
    ensures e.Some? && e.value.status == Conflict ==>
              PresentValue(b.patient) && ToNumber(therapistId).Some? && ToNumber(b.patient.value).Some?
              && (ToNumber(therapistId).value, ToNumber(b.patient.value).value) in s.treats
  {
    if !PresentValue(b.patient) then Some(Error(BadRequest, PATIENT_REQUIRED))
    else if Find(s.therapists.Keys, therapistId).None? then Some(Error(NotFound, THERAPIST_NOT_FOUND))
    else if Find(s.patients.Keys, b.patient.value).None? then Some(Error(NotFound, PATIENT_NOT_FOUND))
    else if (ToNumber(therapistId).value, ToNumber(b.patient.value).value) in s.treats then
      Some(Error(Conflict, ALREADY_TREATED))
    else None
  }

  /**
   * addPatientToTherapist: after the guards the pair is added to TREATS with the body's
   * report or "Tratamiento iniciado", the therapist has one patient more, and nothing
   * else changes.
   */
  method AddPatientToTherapist(s: Store, therapistId: IdValue, b: AddPatientBody) returns (r: Response<()>)
    modifies s`treats
    ensures var e := old(AddPatientError(s, therapistId, b));
            (e.Some? ==> r == Refuse(e.value) && s.treats == old(s.treats))
            && (e.None? ==> r == Reply(Created, ())
                            && s.treats == old(s.treats)[(ToNumber(therapistId).value, ToNumber(b.patient.value).value)
                                                         := Some(OrElse(b.report, DEFAULT_REPORT))])
    ensures r.Reply? ==>
              var t := ToNumber(therapistId).value;
              |TreatedBy(s.treats, t)| == |TreatedBy(old(s.treats), t)| + 1
    ensures old(s.Linked()) ==> s.Linked()
  {
    var e := AddPatientError(s, therapistId, b);
    if e.Some? {
      return Refuse(e.value);
    }
    var t, p := ToNumber(therapistId).value, ToNumber(b.patient.value).value;
    var report := Some(OrElse(b.report, DEFAULT_REPORT));
    TreatedByAdd(s.treats, t, p, report);
    var ok := s.AddTreats(t, p, report);
    assert ok;
    return Reply(Created, ());
  }

  /** The guards of updateTreatmentReport: 400 for an empty report, 404 when the pair is not in TREATS. */
  function UpdateReportError(s: Store, therapistId: IdValue, patientId: IdValue, report: Option<string>): (e: Option<Error>)
    reads s`treats
    ensures !Truthy(report) ==> e == Some(Error(BadRequest, REPORT_REQUIRED))
    ensures e.None? <==> Truthy(report) && ToNumber(therapistId).Some? && ToNumber(patientId).Some?
                         && (ToNumber(therapistId).value, ToNumber(patientId).value) in s.treats
  {
    if !Truthy(report) then Some(Error(BadRequest, REPORT_REQUIRED))
    else if ToNumber(therapistId).None? || ToNumber(patientId).None? then Some(Error(NotFound, TREATS_NOT_FOUND))
    else if (ToNumber(therapistId).value, ToNumber(patientId).value) !in s.treats then Some(Error(NotFound, TREATS_NOT_FOUND))
    else None
  }

  /**
   * updateTreatmentReport: after the guards only that pair's report changes, to the
   * body's report; the set of pairs stays the same.
   */
  method UpdateTreatmentReport(s: Store, therapistId: IdValue, patientId: IdValue, report: Option<string>)
    returns (r: Response<string>)
    modifies s`treats
    ensures var e := old(UpdateReportError(s, therapistId, patientId, report));
            (e.Some? ==> r == Refuse(e.value) && s.treats == old(s.treats))
            && (e.None? ==> r == Reply(Ok, report.value)
                            && s.treats == old(s.treats)[(ToNumber(therapistId).value, ToNumber(patientId).value) := report])
    ensures s.treats.Keys == old(s.treats).Keys
    ensures old(s.Linked()) ==> s.Linked()
  {
    var e := UpdateReportError(s, therapistId, patientId, report);
    if e.Some? {
      return Refuse(e.value);
    }
    s.SetReport(ToNumber(therapistId).value, ToNumber(patientId).value, report);
    return Reply(Ok, report.value);
  }

  /** The guards of removePatientFromTherapist: 404 therapist, then 404 patient; an absent pair is fine. */
  function RemovePatientError(s: Store, therapistId: IdValue, patientId: IdValue): (e: Option<Error>)
    reads s`therapists, s`patients
    ensures Find(s.therapists.Keys, therapistId).None? ==> e == Some(Error(NotFound, THERAPIST_NOT_FOUND))
    ensures e.None? <==> Find(s.therapists.Keys, therapistId).Some? && Find(s.patients.Keys, patientId).Some?
  {
    if Find(s.therapists.Keys, therapistId).None? then Some(Error(NotFound, THERAPIST_NOT_FOUND))
    else if Find(s.patients.Keys, patientId).None? then Some(Error(NotFound, PATIENT_NOT_FOUND))
    else None
  }

  /** removePatientFromTherapist: after the guards the pair is no longer in TREATS and the answer is 200. */
  method RemovePatientFromTherapist(s: Store, therapistId: IdValue, patientId: IdValue) returns (r: Response<()>)
    modifies s`treats
    ensures var e := old(RemovePatientError(s, therapistId, patientId));
            (e.Some? ==> r == Refuse(e.value) && s.treats == old(s.treats))
            && (e.None? ==> r == Reply(Ok, ())
                            && s.treats == old(s.treats) - {(ToNumber(therapistId).value, ToNumber(patientId).value)})
    ensures old(s.Linked()) ==> s.Linked()
  {
    var e := RemovePatientError(s, therapistId, patientId);
    if e.Some? {
      return Refuse(e.value);
    }
    s.RemoveTreats(ToNumber(therapistId).value, ToNumber(patientId).value);
    return Reply(Ok, ());
  }

  /** Adding a patient and then removing it restores TREATS. */
  lemma AddThenRemoveTreats(treats: map<(Id, Id), Option<string>>, pair: (Id, Id), report: Option<string>)
    requires pair !in treats
    ensures treats[pair := report] - {pair} == treats
  {
  }

  // ---------------------------------------------------------------------------
  // buyCourse, publishResource
  // ---------------------------------------------------------------------------

  datatype BuyCourseBody = BuyCourseBody(course: Option<IdValue>, buyingDate: Option<Date>)

  /** The guards of buyCourse: 400 without a course id, 404 therapist, 404 course; a bought pair is not checked. */
  function BuyCourseError(s: Store, therapistId: IdValue, b: BuyCourseBody): (e: Option<Error>)
    reads s`therapists, s`courses
    ensures !PresentValue(b.course) ==> e == Some(Error(BadRequest, COURSE_REQUIRED))
    ensures e.None? <==> PresentValue(b.course) && Find(s.therapists.Keys, therapistId).Some?
                         && Find(s.courses.Keys, b.course.value).Some?
  {
    if !PresentValue(b.course) then Some(Error(BadRequest, COURSE_REQUIRED))
    else if Find(s.therapists.Keys, therapistId).None? then Some(Error(NotFound, THERAPIST_NOT_FOUND))
    else if Find(s.courses.Keys, b.course.value).None? then Some(Error(NotFound, COURSE_NOT_FOUND))
    else None
  }

  /**
   * buyCourse: after the guards the pair (therapist, course) is in BUYS, dated with the
   * body's Buying_date or today; buying a course twice is not refused.
   */
  method BuyCourse(s: Store, therapistId: IdValue, b: BuyCourseBody, today: Date) returns (r: Response<()>)
    modifies s`buys
    ensures var e := old(BuyCourseError(s, therapistId, b));
            (e.Some? ==> r == Refuse(e.value) && s.buys == old(s.buys))
            && (e.None? ==> r == Reply(Created, ()))
    ensures r.Reply? ==>
              var p := (ToNumber(therapistId).value, ToNumber(b.course.value).value);
              s.buys.Keys == old(s.buys).Keys + {p}
              && (s.buys[p] == Some(DateOrToday(b.buyingDate, today)) || (p in old(s.buys) && s.buys[p] == old(s.buys)[p]))
              && forall q :: q in old(s.buys) && q != p ==> s.buys[q] == old(s.buys)[q]
    ensures old(s.Linked()) ==> s.Linked()
  {
    var e := BuyCourseError(s, therapistId, b);
    if e.Some? {
      return Refuse(e.value);
    }
    var ok := s.AddBuys(ToNumber(therapistId).value, ToNumber(b.course.value).value, Some(DateOrToday(b.buyingDate, today)));
    assert ok;
    return Reply(Created, ());
  }

  datatype PublishBody = PublishBody(resource: Option<IdValue>, publicationDate: Option<Date>)

  /** The guards of publishResource: 400 without a resource id, 404 therapist, 404 resource. */
  function PublishError(s: Store, therapistId: IdValue, b: PublishBody): (e: Option<Error>)
    reads s`therapists, s`resources
    ensures !PresentValue(b.resource) ==> e == Some(Error(BadRequest, RESOURCE_REQUIRED))
    ensures e.None? <==> PresentValue(b.resource) && Find(s.therapists.Keys, therapistId).Some?
                         && Find(s.resources.Keys, b.resource.value).Some?
  {
    if !PresentValue(b.resource) then Some(Error(BadRequest, RESOURCE_REQUIRED))
    else if Find(s.therapists.Keys, therapistId).None? then Some(Error(NotFound, THERAPIST_NOT_FOUND))
    else if Find(s.resources.Keys, b.resource.value).None? then Some(Error(NotFound, RESOURCE_NOT_FOUND))
    else None
  }

  /**
   * publishResource: after the guards the pair (therapist, resource) is in PUBLISH, dated
   * with the body's Publication_date or today; publishing twice is not refused.
   */
  method PublishResource(s: Store, therapistId: IdValue, b: PublishBody, today: Date) returns (r: Response<()>)
    modifies s`publish
    ensures var e := old(PublishError(s, therapistId, b));
            (e.Some? ==> r == Refuse(e.value) && s.publish == old(s.publish))
            && (e.None? ==> r == Reply(Created, ()))
    ensures r.Reply? ==>
              var p := (ToNumber(therapistId).value, ToNumber(b.resource.value).value);
              s.publish.Keys == old(s.publish).Keys + {p}
              && (s.publish[p] == Some(DateOrToday(b.publicationDate, today))
                  || (p in old(s.publish) && s.publish[p] == old(s.publish)[p]))
              && forall q :: q in old(s.publish) && q != p ==> s.publish[q] == old(s.publish)[q]
    ensures old(s.Linked()) ==> s.Linked()
  {
    var e := PublishError(s, therapistId, b);
    if e.Some? {
      return Refuse(e.value);
    }
    var ok := s.AddPublish(ToNumber(therapistId).value, ToNumber(b.resource.value).value,
                           Some(DateOrToday(b.publicationDate, today)));
    assert ok;
    return Reply(Created, ());
  }

  // ---------------------------------------------------------------------------
  // getTherapistStats
  // ---------------------------------------------------------------------------

  datatype TherapistStats = TherapistStats(patients: nat, courses: nat, resources: nat, centres: nat,
                                           profession: Option<string>)

  /** The courses a therapist bought, through BUYS. */
  function BoughtBy(buys: map<(Id, Id), Option<Date>>, therapist: Id): (cs: set<Id>)
    ensures forall c :: c in cs <==> (therapist, c) in buys
  {
    set q | q in buys && q.0 == therapist :: q.1
  }

  /** The resources a therapist published, through PUBLISH. */
  function PublishedBy(publish: map<(Id, Id), Option<Date>>, therapist: Id): (rs: set<Id>)
    ensures forall x :: x in rs <==> (therapist, x) in publish
  {
    set q | q in publish && q.0 == therapist :: q.1
  }

  /** The centres that employ a therapist, through EMPLOYS (keyed centre first). */
  function EmployersOf(employs: map<(Id, Id), Option<string>>, therapist: Id): (cs: set<Id>)
    ensures forall c :: c in cs <==> (c, therapist) in employs
  {
    set q | q in employs && q.1 == therapist :: q.0
  }

  /**
   * getTherapistStats: 404 for an unknown therapist; otherwise each count is the number of
   * rows the therapist has in the corresponding association, and the profession is its own.
   */
  function GetTherapistStats(s: Store, therapistId: IdValue): (r: Response<TherapistStats>)
    reads s`therapists, s`treats, s`buys, s`publish, s`employs
    ensures r.Reply? <==> Find(s.therapists.Keys, therapistId).Some?
    ensures r.Refuse? ==> r.error == Error(NotFound, THERAPIST_NOT_FOUND)
    ensures r.Reply? ==>
              var t := ToNumber(therapistId).value;
              r.status == Ok
              && r.body.patients == |TreatedBy(s.treats, t)| && r.body.courses == |BoughtBy(s.buys, t)|
              && r.body.resources == |PublishedBy(s.publish, t)| && r.body.centres == |EmployersOf(s.employs, t)|
              && r.body.profession == s.therapists[t].profession
  {
    var k := Find(s.therapists.Keys, therapistId);
    if k.None? then Refuse(Error(NotFound, THERAPIST_NOT_FOUND))
    else
      var t := k.value;
      Reply(Ok, TherapistStats(|TreatedBy(s.treats, t)|, |BoughtBy(s.buys, t)|, |PublishedBy(s.publish, t)|,
                               |EmployersOf(s.employs, t)|, s.therapists[t].profession))
  }
}
