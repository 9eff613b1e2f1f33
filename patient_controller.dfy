/**
 * backend/controllers/patientController.js: the patient handlers. Each runs its guards in
 * order, answers with the first that fails, and otherwise writes one row of PATIENT, PAYS
 * or CONSUME. The search is a conjunction of optional LIKE filters.
 */
module PatientController {
  import opened JsValues
  import opened Http
  import opened Schema
  import opened Query

  const FIELDS_MISSING := "Id_user_patient y NIF son requeridos"
  const USER_NOT_FOUND := "Usuario no encontrado"
  const NIF_TAKEN := "El NIF ya está registrado"
  const ALREADY_PATIENT := "Este usuario ya está registrado como paciente"
  const PATIENT_NOT_FOUND := "Paciente no encontrado"
  const SERVICE_REQUIRED := "Id_service es requerido"
  const SERVICE_NOT_FOUND := "Servicio no encontrado"
  const ALREADY_PAID := "El servicio ya ha sido pagado"
  const RESOURCE_REQUIRED := "Id_resource es requerido"
  const RESOURCE_NOT_FOUND := "Recurso no encontrado"

  // ---------------------------------------------------------------------------
  // createPatient
  // ---------------------------------------------------------------------------

  datatype CreatePatientBody = CreatePatientBody(userId: Option<IdValue>, nif: Option<string>, diagnosis: Option<string>)

  /**
   * The guards of createPatient, in order: 400 without a user id or NIF, 404 for an unknown
   * user, 409 for a NIF some patient holds, 409 for a user who already is a patient.
   * Therapists' NIFs are not looked at.
   */
  function CreatePatientError(s: Store, b: CreatePatientBody): (e: Option<Error>)
    reads s`users, s`patients
    ensures !(PresentValue(b.userId) && Truthy(b.nif)) ==> e == Some(Error(BadRequest, FIELDS_MISSING))
    ensures (PresentValue(b.userId) && Truthy(b.nif) && Find(s.users.Keys, b.userId.value).Some?
             && s.PatientNifUsed(b.nif.value, None)) ==> e == Some(Error(Conflict, NIF_TAKEN))
    ensures e.None? <==>
              PresentValue(b.userId) && Truthy(b.nif)
              && Find(s.users.Keys, b.userId.value).Some?
              && !s.PatientNifUsed(b.nif.value, None)
              && ToNumber(b.userId.value).value !in s.patients
  {
    if !PresentValue(b.userId) || !Truthy(b.nif) then Some(Error(BadRequest, FIELDS_MISSING))
    else if Find(s.users.Keys, b.userId.value).None? then Some(Error(NotFound, USER_NOT_FOUND))
    else if s.PatientNifUsed(b.nif.value, None) then Some(Error(Conflict, NIF_TAKEN))
    else if ToNumber(b.userId.value).value in s.patients then Some(Error(Conflict, ALREADY_PATIENT))
    else None
  }

  /** The row createPatient writes. */
  function NewPatient(b: CreatePatientBody): (p: Patient)
    requires Truthy(b.nif)
    ensures p.nif == b.nif.value && p.diagnosis == b.diagnosis
  {
    Patient(b.nif.value, None, None, None, b.diagnosis)
  }

  /**
   * createPatient: once the guards pass, the PATIENT row keyed by the user's id is written
   * and the answer is 201; the guards cover the store's constraints, so the write never fails.
   */
  method CreatePatient(s: Store, b: CreatePatientBody) returns (r: Response<Patient>)
    modifies s`patients
    requires s.Valid()
    ensures s.Valid()
    ensures var e := old(CreatePatientError(s, b));
            (e.Some? ==> r == Refuse(e.value) && s.patients == old(s.patients))
            && (e.None? ==> r == Reply(Created, NewPatient(b))
                            && s.patients == old(s.patients)[ToNumber(b.userId.value).value := NewPatient(b)])
    ensures old(s.Linked()) ==> s.Linked()
  {
    var e := CreatePatientError(s, b);
    if e.Some? {
      return Refuse(e.value);
    }
    var ok := s.InsertPatient(ToNumber(b.userId.value).value, NewPatient(b));
    assert ok;
    return Reply(Created, NewPatient(b));
  }

  // ---------------------------------------------------------------------------
  // updatePatient, deletePatient
  // ---------------------------------------------------------------------------

  datatype UpdatePatientBody = UpdatePatientBody(nif: Option<string>, diagnosis: Option<string>)

  /** The guards of updatePatient: 404 for an unknown patient, 409 for a new NIF another patient holds. */
  function UpdatePatientError(s: Store, patientId: IdValue, b: UpdatePatientBody): (e: Option<Error>)
    reads s`patients
    ensures Find(s.patients.Keys, patientId).None? ==> e == Some(Error(NotFound, PATIENT_NOT_FOUND))
    ensures e.None? <==>
              Find(s.patients.Keys, patientId).Some?
              && !(Truthy(b.nif) && b.nif.value != s.patients[ToNumber(patientId).value].nif
                   && s.PatientNifUsed(b.nif.value, None))
  {
    if Find(s.patients.Keys, patientId).None? then Some(Error(NotFound, PATIENT_NOT_FOUND))
    else
      var p := s.patients[ToNumber(patientId).value];
      if Truthy(b.nif) && b.nif.value != p.nif && s.PatientNifUsed(b.nif.value, None) then
        Some(Error(Conflict, NIF_TAKEN))
      else None
  }

  /** `patient.update({ NIF, diagnosis })`: a field the body leaves out keeps its value. */
  function UpdatedPatient(p: Patient, b: UpdatePatientBody): (u: Patient)
    ensures b.nif.Some? ==> u.nif == b.nif.value
    ensures b.nif.None? ==> u.nif == p.nif
    ensures u.diagnosis == Coalesce(b.diagnosis, p.diagnosis)
    ensures u.firstname == p.firstname && u.lastname == p.lastname && u.phone == p.phone
  {
    p.(nif := if b.nif.Some? then b.nif.value else p.nif, diagnosis := Coalesce(b.diagnosis, p.diagnosis))
  }

  /**
   * updatePatient: 404 or 409 as the guards say, writing nothing; otherwise the row becomes
   * UpdatedPatient and the answer is 200. A present but empty NIF skips the 409 check and
   * reaches the store, which refuses a NIF another patient holds (500).
   */
  method UpdatePatient(s: Store, patientId: IdValue, b: UpdatePatientBody) returns (r: Response<Patient>)
    modifies s`patients
    requires s.Valid()
    ensures s.Valid()
    ensures var e := old(UpdatePatientError(s, patientId, b));
            e.Some? ==> r == Refuse(e.value)
    ensures r.Refuse? ==> s.patients == old(s.patients)
    ensures old(UpdatePatientError(s, patientId, b)).None? && r.Refuse? ==> r.error == Error(ServerError, THROWN)
    ensures r.Reply? <==>
              old(UpdatePatientError(s, patientId, b)).None?
              && var id := ToNumber(patientId).value;
                 !old(s.PatientNifUsed(UpdatedPatient(s.patients[id], b).nif, Some(id)))
    ensures r.Reply? ==>
              var id := ToNumber(patientId).value;
              var u := UpdatedPatient(old(s.patients)[id], b);
              r == Reply(Ok, u) && s.patients == old(s.patients)[id := u]
    ensures old(s.Linked()) ==> s.Linked()
  {
    var e := UpdatePatientError(s, patientId, b);
    if e.Some? {
      return Refuse(e.value);
    }
    var id := ToNumber(patientId).value;
    var u := UpdatedPatient(s.patients[id], b);
    var ok := s.UpdatePatient(id, u);
    if !ok {
      return Refuse(Error(ServerError, THROWN));
    }
    return Reply(Ok, u);
  }

  /** A guarded update whose NIF is truthy is always written: the 409 check covers the store's constraint. */
  lemma TruthyNifUpdateIsWritten(s: Store, patientId: IdValue, b: UpdatePatientBody)
    requires s.UniquePatientNifs() && UpdatePatientError(s, patientId, b).None?
    requires b.nif.None? || Truthy(b.nif)
    ensures var id := ToNumber(patientId).value;
            !s.PatientNifUsed(UpdatedPatient(s.patients[id], b).nif, Some(id))
  {
    var id := ToNumber(patientId).value;
    var u := UpdatedPatient(s.patients[id], b);
    forall k | k in s.patients && k != id
      ensures s.patients[k].nif != u.nif
    {
      if b.nif.Some? && b.nif.value != s.patients[id].nif {
        assert !s.PatientNifUsed(u.nif, None);
      } else {
        assert u.nif == s.patients[id].nif;
      }
    }
  }

  /** deletePatient: 404 for an unknown patient, otherwise the row is destroyed. */
  method DeletePatient(s: Store, patientId: IdValue) returns (r: Response<()>)
    modifies s`patients
    requires s.Valid()
    ensures s.Valid()
    ensures r.Reply? <==> old(Find(s.patients.Keys, patientId)).Some?
    ensures r.Refuse? ==> r.error == Error(NotFound, PATIENT_NOT_FOUND) && s.patients == old(s.patients)
    ensures r.Reply? ==> r.status == Ok && s.patients == old(s.patients) - {ToNumber(patientId).value}
  {
    var k := Find(s.patients.Keys, patientId);
    if k.None? {
      return Refuse(Error(NotFound, PATIENT_NOT_FOUND));
    }
    s.DeletePatient(k.value);
    return Reply(Ok, ());
  }

  // ---------------------------------------------------------------------------
  // payService, consumeResource
  // ---------------------------------------------------------------------------

  /** The guards of payService: 400 without a service id, 404 patient, 404 service, 409 paid pair. */
  function PayServiceError(s: Store, patientId: IdValue, service: Option<IdValue>): (e: Option<Error>)
    reads s`patients, s`services, s`pays
    ensures !PresentValue(service) ==> e == Some(Error(BadRequest, SERVICE_REQUIRED))
    ensures e.None? <==>
              PresentValue(service)
              && Find(s.patients.Keys, patientId).Some? && Find(s.services.Keys, service.value).Some?
              && (ToNumber(patientId).value, ToNumber(service.value).value) !in s.pays
    ensures e.Some? && e.value.status == Conflict ==>
              PresentValue(service) && ToNumber(patientId).Some? && ToNumber(service.value).Some?
              && (ToNumber(patientId).value, ToNumber(service.value).value) in s.pays
  {
    if !PresentValue(service) then Some(Error(BadRequest, SERVICE_REQUIRED))
    else if Find(s.patients.Keys, patientId).None? then Some(Error(NotFound, PATIENT_NOT_FOUND))
    else if Find(s.services.Keys, service.value).None? then Some(Error(NotFound, SERVICE_NOT_FOUND))
    else if (ToNumber(patientId).value, ToNumber(service.value).value) in s.pays then
      Some(Error(Conflict, ALREADY_PAID))
    else None
  }

  /** payService: after the guards the pair (patient, service) is added to PAYS and the answer is 201. */
  method PayService(s: Store, patientId: IdValue, service: Option<IdValue>) returns (r: Response<()>)
    modifies s`pays
    ensures var e := old(PayServiceError(s, patientId, service));
            (e.Some? ==> r == Refuse(e.value) && s.pays == old(s.pays))
            && (e.None? ==> r == Reply(Created, ())
                            && s.pays == old(s.pays) + {(ToNumber(patientId).value, ToNumber(service.value).value)})
    ensures old(s.Linked()) ==> s.Linked()
  {
    var e := PayServiceError(s, patientId, service);
    if e.Some? {
      return Refuse(e.value);
    }
    var ok := s.AddPays(ToNumber(patientId).value, ToNumber(service.value).value);
    assert ok;
    return Reply(Created, ());
  }

  /** Once a patient has paid a service, paying it again is refused with 409 (and writes nothing). */
  lemma PaidPairConflicts(s: Store, patientId: IdValue, service: Option<IdValue>)
    requires PresentValue(service) && Find(s.patients.Keys, patientId).Some? && Find(s.services.Keys, service.value).Some?
    requires (ToNumber(patientId).value, ToNumber(service.value).value) in s.pays
    ensures PayServiceError(s, patientId, service) == Some(Error(Conflict, ALREADY_PAID))
  {
  }

  /** The guards of consumeResource: 400 without a resource id, 404 patient, 404 resource; a consumed pair is not checked. */
  function ConsumeError(s: Store, patientId: IdValue, resource: Option<IdValue>): (e: Option<Error>)
    reads s`patients, s`resources
    ensures !PresentValue(resource) ==> e == Some(Error(BadRequest, RESOURCE_REQUIRED))
    ensures e.None? <==> PresentValue(resource) && Find(s.patients.Keys, patientId).Some?
                         && Find(s.resources.Keys, resource.value).Some?
  {
    if !PresentValue(resource) then Some(Error(BadRequest, RESOURCE_REQUIRED))
    else if Find(s.patients.Keys, patientId).None? then Some(Error(NotFound, PATIENT_NOT_FOUND))
    else if Find(s.resources.Keys, resource.value).None? then Some(Error(NotFound, RESOURCE_NOT_FOUND))
    else None
  }

  /**
   * consumeResource: after the guards the pair (patient, resource) is in CONSUME and the
   * answer is 201, also when the patient had already consumed it.
   */
  method ConsumeResource(s: Store, patientId: IdValue, resource: Option<IdValue>) returns (r: Response<()>)
    modifies s`consume
    ensures var e := old(ConsumeError(s, patientId, resource));
            (e.Some? ==> r == Refuse(e.value) && s.consume == old(s.consume))
            && (e.None? ==> r == Reply(Created, ())
                            && s.consume == old(s.consume) + {(ToNumber(patientId).value, ToNumber(resource.value).value)})
    ensures old(s.Linked()) ==> s.Linked()
  {
    var e := ConsumeError(s, patientId, resource);
    if e.Some? {
      return Refuse(e.value);
    }
    var ok := s.AddConsume(ToNumber(patientId).value, ToNumber(resource.value).value);
    assert ok;
    return Reply(Created, ());
  }

  // ---------------------------------------------------------------------------
  // getPatientStats, searchPatients
  // ---------------------------------------------------------------------------

  /** The therapists that treat a patient, through TREATS (keyed therapist first). */
  function TreatersOf(treats: map<(Id, Id), Option<string>>, patient: Id): (ts: set<Id>)
    ensures forall t :: t in ts <==> (t, patient) in treats
  {
    set q | q in treats && q.1 == patient :: q.0
  }

  /** The services a patient paid, through PAYS. */
  function PaidBy(pays: set<(Id, Id)>, patient: Id): (ss: set<Id>)
    ensures forall x :: x in ss <==> (patient, x) in pays
  {
    set q | q in pays && q.0 == patient :: q.1
  }

  /** The resources a patient consumed, through CONSUME. */
  function ConsumedBy(consume: set<(Id, Id)>, patient: Id): (rs: set<Id>)
    ensures forall x :: x in rs <==> (patient, x) in consume
  {
    set q | q in consume && q.0 == patient :: q.1
  }

  /** A successful payService gives the patient exactly one more paid service. */
  lemma PaidByAdd(pays: set<(Id, Id)>, patient: Id, service: Id)
    requires (patient, service) !in pays
    ensures |PaidBy(pays + {(patient, service)}, patient)| == |PaidBy(pays, patient)| + 1
  {
    assert PaidBy(pays + {(patient, service)}, patient) == PaidBy(pays, patient) + {service};
  }

  /** Consuming a resource again leaves the patient's count of consumed resources as it was. */
  lemma ConsumedByAgain(consume: set<(Id, Id)>, patient: Id, resource: Id)
    requires (patient, resource) in consume
    ensures ConsumedBy(consume + {(patient, resource)}, patient) == ConsumedBy(consume, patient)
  {
    assert consume + {(patient, resource)} == consume;
  }

  datatype PatientStats = PatientStats(diagnosis: Option<string>, therapists: nat, services: nat, resources: nat)

  /**
   * getPatientStats: 404 for an unknown patient; otherwise each count is the number of rows
   * the patient has in the corresponding association.
   */
  function GetPatientStats(s: Store, patientId: IdValue): (r: Response<PatientStats>)
    reads s`patients, s`treats, s`pays, s`consume
    ensures r.Reply? <==> Find(s.patients.Keys, patientId).Some?
    ensures r.Refuse? ==> r.error == Error(NotFound, PATIENT_NOT_FOUND)
    ensures r.Reply? ==>
              var p := ToNumber(patientId).value;
              r.status == Ok && r.body.diagnosis == s.patients[p].diagnosis
              && r.body.therapists == |TreatersOf(s.treats, p)| && r.body.services == |PaidBy(s.pays, p)|
              && r.body.resources == |ConsumedBy(s.consume, p)|
  {
    var k := Find(s.patients.Keys, patientId);
    if k.None? then Refuse(Error(NotFound, PATIENT_NOT_FOUND))
    else
      var p := k.value;
      Reply(Ok, PatientStats(s.patients[p].diagnosis, |TreatersOf(s.treats, p)|, |PaidBy(s.pays, p)|,
                             |ConsumedBy(s.consume, p)|))
  }

  /** The WHERE clause of searchPatients: each LIKE filter applies only when given, and both must hold. */
  predicate PatientMatches(p: Patient, diagnosis: Option<string>, nif: Option<string>) {
    (Truthy(diagnosis) ==> Like(p.diagnosis, diagnosis.value))
    && (Truthy(nif) ==> Like(Some(p.nif), nif.value))
  }

  /** searchPatients over the table's rows in scan order. */
  function SearchPatients(rows: seq<(Id, Patient)>, diagnosis: Option<string>, nif: Option<string>): (r: seq<(Id, Patient)>)
    ensures forall x :: x in r <==> x in rows && PatientMatches(x.1, diagnosis, nif)
    ensures !Truthy(diagnosis) && !Truthy(nif) ==> r == rows
  {
    var p := (x: (Id, Patient)) => PatientMatches(x.1, diagnosis, nif);
    SelectAll(rows, p);
    Select(rows, p)
  }
}
