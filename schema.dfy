/**
 * The relational store of backend/models/cisne.model.js: one map per entity table
 * keyed by its primary key, and one map or set per join table keyed by the pair of
 * foreign keys that forms its composite primary key (so a pair can occur at most once).
 *
 * The store's write primitives do what the database does on its own: they refuse a
 * write that would break a unique, primary-key or foreign-key constraint, and the
 * handlers turn such a refusal into a 500 answer.
 */
module Schema {
  import opened JsValues
  import opened Http

  type Id = int
  /** A DATEONLY value, as a day number. */
  type Date = nat
  /** A DECIMAL(10, 2) amount, in cents. */
  type Cents = int

  /** USER. The model file declares only `email`; registration also stores `password` and `role`. */
  datatype User = User(email: string, password: Option<Digest>, role: Option<string>)

  /** INVOICE. */
  datatype Invoice = Invoice(number: string, date: Date, tax: Option<Cents>,
                             payMethod: Option<string>, status: Option<string>)

  /** SERVICE; `invoice` references SERVICE_INVOICE. */
  datatype Service = Service(invoice: Option<Id>, name: string, price: Option<Cents>,
                             tools: Option<string>, room: Option<string>, date: Option<Date>)

  /** COURSE; `invoice` references COURSE_INVOICE. */
  datatype Course = Course(invoice: Option<Id>, name: string, teacher: Option<string>,
                           price: Option<Cents>, kind: Option<string>,
                           description: Option<string>, date: Option<Date>)

  /** CENTRE, keyed by its user's id; `service` references SERVICE. `name` and `phone` are written by the services. */
  datatype Centre = Centre(cif: string, name: Option<string>, phone: Option<string>,
                           location: Option<string>, service: Option<Id>)

  /** THERAPIST, keyed by its user's id. The name and phone fields are written by registration. */
  datatype Therapist = Therapist(nif: string, firstname: Option<string>, lastname: Option<string>,
                                 phone: Option<string>, societyId: Option<string>,
                                 profession: Option<string>)

  /** PATIENT, keyed by its user's id. The name and phone fields are written by registration. */
  datatype Patient = Patient(nif: string, firstname: Option<string>, lastname: Option<string>,
                             phone: Option<string>, diagnosis: Option<string>)

  /** RESOURCE. */
  datatype Resource = Resource(name: Option<string>, kind: Option<string>, description: Option<string>)

  /** `Model.findByPk(v)` on the keys `keys`: the key `Number(v)` when a row has it. */
  function Find(keys: set<Id>, v: IdValue): (k: Option<Id>)
    ensures k.Some? <==> ToNumber(v).Some? && ToNumber(v).value in keys
    ensures k.Some? ==> k.value == ToNumber(v).value
  {
    var n := ToNumber(v);
    if n.Some? && n.value in keys then n else None
  }

  /**
   * A value an INTEGER column accepts: null, or a number or text that reads as one. The
   * database refuses anything else and the handler's catch answers 500.
   */
  predicate IntegerValue(v: Option<IdValue>) {
    v.None? || ToNumber(v.value).Some?
  }

  /**
   * A foreign-key field as written: absent is null, anything else the number it coerces to.
   * The handlers write it only for an IntegerValue.
   */
  function ForeignKey(v: Option<IdValue>): (k: Option<Id>)
    ensures v.None? ==> k.None?
    ensures v.Some? ==> k == ToNumber(v.value)
  {
    if v.None? then None else ToNumber(v.value)
  }

  /** `date || new Date()`: the given date, or today. */
  function DateOrToday(given: Option<Date>, today: Date): (d: Date)
    ensures given.Some? ==> d == given.value
    ensures given.None? ==> d == today
  {
    if given.Some? then given.value else today
  }

  class Store {
    var users: map<Id, User>
    var userSeq: Id
    var invoices: map<Id, Invoice>
    var invoiceSeq: Id
    var serviceInvoices: set<Id>
    var courseInvoices: set<Id>
    var services: map<Id, Service>
    var serviceSeq: Id
    var courses: map<Id, Course>
    var courseSeq: Id
    var resources: map<Id, Resource>
    var resourceSeq: Id
    var centres: map<Id, Centre>
    var therapists: map<Id, Therapist>
    var patients: map<Id, Patient>
    /** EMPLOYS (centre, therapist) with its Contract. */
    var employs: map<(Id, Id), Option<string>>
    /** TREATS (therapist, patient) with its report. */
    var treats: map<(Id, Id), Option<string>>
    /** PAYS (patient, service). */
    var pays: set<(Id, Id)>
    /** POSTS (centre, course) with its Post_date. */
    var posts: map<(Id, Id), Option<Date>>
    /** BUYS (therapist, course) with its Buying_date. */
    var buys: map<(Id, Id), Option<Date>>
    /** PUBLISH (therapist, resource) with its Publication_date. */
    var publish: map<(Id, Id), Option<Date>>
    /** CONSUME (patient, resource). */
    var consume: set<(Id, Id)>

    // -------------------------------------------------------------------------
    // Unique constraints
    // -------------------------------------------------------------------------

    predicate EmailUsed(email: string, except: Option<Id>)
      reads this`users
    {
      exists id :: id in users && Some(id) != except && users[id].email == email
    }

    predicate UniqueEmails()
      reads this`users
    {
      forall a, b :: a in users && b in users && users[a].email == users[b].email ==> a == b
    }

    predicate InvoiceNumberUsed(number: string, except: Option<Id>)
      reads this`invoices
    {
      exists id :: id in invoices && Some(id) != except && invoices[id].number == number
    }

    predicate UniqueInvoiceNumbers()
      reads this`invoices
    {
      forall a, b :: a in invoices && b in invoices && invoices[a].number == invoices[b].number ==> a == b
    }

    predicate CifUsed(cif: string, except: Option<Id>)
      reads this`centres
    {
      exists id :: id in centres && Some(id) != except && centres[id].cif == cif
    }

    predicate UniqueCifs()
      reads this`centres
    {
      forall a, b :: a in centres && b in centres && centres[a].cif == centres[b].cif ==> a == b
    }

    predicate TherapistNifUsed(nif: string, except: Option<Id>)
      reads this`therapists
    {
      exists id :: id in therapists && Some(id) != except && therapists[id].nif == nif
    }

    predicate UniqueTherapistNifs()
      reads this`therapists
    {
      forall a, b :: a in therapists && b in therapists && therapists[a].nif == therapists[b].nif ==> a == b
    }

    predicate PatientNifUsed(nif: string, except: Option<Id>)
      reads this`patients
    {
      exists id :: id in patients && Some(id) != except && patients[id].nif == nif
    }

    predicate UniquePatientNifs()
      reads this`patients
    {
      forall a, b :: a in patients && b in patients && patients[a].nif == patients[b].nif ==> a == b
    }

    /** Every auto-incremented key lies below the next value its sequence hands out. */
    predicate SequencesAhead()
      reads this`users, this`userSeq, this`invoices, this`invoiceSeq, this`services,
            this`serviceSeq, this`courses, this`courseSeq, this`resources, this`resourceSeq
    {
      (forall id :: id in users ==> id < userSeq)
      && (forall id :: id in invoices ==> id < invoiceSeq)
      && (forall id :: id in services ==> id < serviceSeq)
      && (forall id :: id in courses ==> id < courseSeq)
      && (forall id :: id in resources ==> id < resourceSeq)
    }

    /** The unique constraints of the schema, and fresh auto-increment keys. */
    predicate Valid()
      reads this
    {
      UniqueEmails() && UniqueInvoiceNumbers() && UniqueCifs()
      && UniqueTherapistNifs() && UniquePatientNifs() && SequencesAhead()
    }

    // -------------------------------------------------------------------------
    // Foreign keys
    // -------------------------------------------------------------------------

    predicate ServiceRefOk(s: Service)
      reads this`serviceInvoices
    {
      s.invoice.None? || s.invoice.value in serviceInvoices
    }

    predicate CourseRefOk(c: Course)
      reads this`courseInvoices
    {
      c.invoice.None? || c.invoice.value in courseInvoices
    }

    predicate CentreRefOk(c: Centre)
      reads this`services
    {
      c.service.None? || c.service.value in services
    }

    predicate ProfilesLinked()
      reads this`users, this`centres, this`therapists, this`patients
    {
      centres.Keys <= users.Keys && therapists.Keys <= users.Keys && patients.Keys <= users.Keys
    }

    predicate InvoicesLinked()
      reads this`invoices, this`serviceInvoices, this`courseInvoices, this`services, this`courses
    {
      serviceInvoices <= invoices.Keys && courseInvoices <= invoices.Keys
      && (forall id :: id in services ==> ServiceRefOk(services[id]))
      && (forall id :: id in courses ==> CourseRefOk(courses[id]))
    }

    predicate CentresLinked()
      reads this`centres, this`services
    {
      forall id :: id in centres ==> CentreRefOk(centres[id])
    }

    predicate JoinsLinked()
      reads this`centres, this`therapists, this`patients, this`services, this`courses,
            this`resources, this`employs, this`treats, this`pays, this`posts, this`buys,
            this`publish, this`consume
    {
      (forall p :: p in employs ==> p.0 in centres && p.1 in therapists)
      && (forall p :: p in treats ==> p.0 in therapists && p.1 in patients)
      && (forall p :: p in pays ==> p.0 in patients && p.1 in services)
      && (forall p :: p in posts ==> p.0 in centres && p.1 in courses)
      && (forall p :: p in buys ==> p.0 in therapists && p.1 in courses)
      && (forall p :: p in publish ==> p.0 in therapists && p.1 in resources)
      && (forall p :: p in consume ==> p.0 in patients && p.1 in resources)
    }

    /** Every foreign key resolves to an existing row. */
    predicate Linked()
      reads this`users, this`invoices, this`serviceInvoices, this`courseInvoices, this`services, this`courses,
            this`resources, this`centres, this`therapists, this`patients, this`employs, this`treats, this`pays,
            this`posts, this`buys, this`publish, this`consume
    {
      ProfilesLinked() && InvoicesLinked() && CentresLinked() && JoinsLinked()
    }

    constructor()
      ensures Valid() && Linked()
      ensures users == map[] && invoices == map[] && services == map[] && courses == map[]
      ensures resources == map[] && centres == map[] && therapists == map[] && patients == map[]
      ensures serviceInvoices == {} && courseInvoices == {}
      ensures employs == map[] && treats == map[] && pays == {} && posts == map[]
      ensures buys == map[] && publish == map[] && consume == {}
    {
      users, userSeq := map[], 1;
      invoices, invoiceSeq := map[], 1;
      serviceInvoices, courseInvoices := {}, {};
      services, serviceSeq := map[], 1;
      courses, courseSeq := map[], 1;
      resources, resourceSeq := map[], 1;
      centres, therapists, patients := map[], map[], map[];
      employs, treats, pays, posts := map[], map[], {}, map[];
      buys, publish, consume := map[], map[], {};
    }

    // -------------------------------------------------------------------------
    // Lookups
    // -------------------------------------------------------------------------

    /** `User.findOne({ where: { email } })`. */
    method FindUserByEmail(email: string) returns (id: Option<Id>)
      requires UniqueEmails()
      ensures id.Some? <==> EmailUsed(email, None)
      ensures id.Some? ==> id.value in users && users[id.value].email == email
    {
      if EmailUsed(email, None) {
        var k :| k in users && users[k].email == email;
        id := Some(k);
      } else {
        id := None;
      }
    }

    // -------------------------------------------------------------------------
    // USER
    // -------------------------------------------------------------------------

    /** `User.create`: the email must be unused; the key is the next auto-increment value. */
    method InsertUser(u: User) returns (id: Option<Id>)
      modifies this`users, this`userSeq
      requires Valid()
      ensures Valid()
      ensures id.Some? <==> !old(EmailUsed(u.email, None))
      ensures id.Some? ==> id.value == old(userSeq) && id.value !in old(users)
                           && users == old(users)[id.value := u] && userSeq == old(userSeq) + 1
      ensures id.None? ==> users == old(users) && userSeq == old(userSeq)
      ensures old(Linked()) ==> Linked()
    {
      if EmailUsed(u.email, None) {
        id := None;
      } else {
        id := Some(userSeq);
        users := users[userSeq := u];
        userSeq := userSeq + 1;
      }
    }

    /** Writes `u` over user `id`; the email must not belong to another user. */
    method UpdateUser(id: Id, u: User) returns (ok: bool)
      modifies this`users
      requires Valid() && id in users
      ensures Valid()
      ensures ok <==> !old(EmailUsed(u.email, Some(id)))
      ensures users == if ok then old(users)[id := u] else old(users)
      ensures old(Linked()) ==> Linked()
    {
      ok := !EmailUsed(u.email, Some(id));
      if ok {
        users := users[id := u];
      }
    }

    /** `user.destroy()`: removes the row only (see the README on referential actions). */
    method DeleteUser(id: Id)
      modifies this`users
      requires Valid()
      ensures Valid()
      ensures users == old(users) - {id}
    {
      users := users - {id};
    }

    // -------------------------------------------------------------------------
    // INVOICE, SERVICE_INVOICE, COURSE_INVOICE
    // -------------------------------------------------------------------------

    method InsertInvoice(inv: Invoice) returns (id: Option<Id>)
      modifies this`invoices, this`invoiceSeq
      requires Valid()
      ensures Valid()
      ensures id.Some? <==> !old(InvoiceNumberUsed(inv.number, None))
      ensures id.Some? ==> id.value == old(invoiceSeq) && id.value !in old(invoices)
                           && invoices == old(invoices)[id.value := inv]
                           && invoiceSeq == old(invoiceSeq) + 1
      ensures id.None? ==> invoices == old(invoices) && invoiceSeq == old(invoiceSeq)
      ensures old(Linked()) ==> Linked()
    {
      if InvoiceNumberUsed(inv.number, None) {
        id := None;
      } else {
        id := Some(invoiceSeq);
        invoices := invoices[invoiceSeq := inv];
        invoiceSeq := invoiceSeq + 1;
      }
    }

    method UpdateInvoice(id: Id, inv: Invoice) returns (ok: bool)
      modifies this`invoices
      requires Valid() && id in invoices
      ensures Valid()
      ensures ok <==> !old(InvoiceNumberUsed(inv.number, Some(id)))
      ensures invoices == if ok then old(invoices)[id := inv] else old(invoices)
      ensures old(Linked()) ==> Linked()
    {
      ok := !InvoiceNumberUsed(inv.number, Some(id));
      if ok {
        invoices := invoices[id := inv];
      }
    }

    method DeleteInvoice(id: Id)
      modifies this`invoices
      requires Valid()
      ensures Valid()
      ensures invoices == old(invoices) - {id}
    {
      invoices := invoices - {id};
    }

    /** `ServiceInvoice.create({ Id_service_invoice: id })`: the key references an invoice and is new. */
    method InsertServiceInvoice(id: Id) returns (ok: bool)
      modifies this`serviceInvoices
      ensures ok <==> id in invoices && id !in old(serviceInvoices)
      ensures serviceInvoices == if ok then old(serviceInvoices) + {id} else old(serviceInvoices)
      ensures old(Linked()) ==> Linked()
    {
      ok := id in invoices && id !in serviceInvoices;
      if ok {
        serviceInvoices := serviceInvoices + {id};
      }
    }

    /** `CourseInvoice.create({ Id_course_invoice: id })`. */
    method InsertCourseInvoice(id: Id) returns (ok: bool)
      modifies this`courseInvoices
      ensures ok <==> id in invoices && id !in old(courseInvoices)
      ensures courseInvoices == if ok then old(courseInvoices) + {id} else old(courseInvoices)
      ensures old(Linked()) ==> Linked()
    {
      ok := id in invoices && id !in courseInvoices;
      if ok {
        courseInvoices := courseInvoices + {id};
      }
    }

    // -------------------------------------------------------------------------
    // SERVICE, COURSE, RESOURCE
    // -------------------------------------------------------------------------

    method InsertService(sv: Service) returns (id: Option<Id>)
      modifies this`services, this`serviceSeq
      requires Valid()
      ensures Valid()
      ensures id.Some? <==> ServiceRefOk(sv)
      ensures id.Some? ==> id.value == old(serviceSeq) && id.value !in old(services)
                           && services == old(services)[id.value := sv]
                           && serviceSeq == old(serviceSeq) + 1
      ensures id.None? ==> services == old(services) && serviceSeq == old(serviceSeq)
      ensures old(Linked()) ==> Linked()
    {
      if ServiceRefOk(sv) {
        id := Some(serviceSeq);
        services := services[serviceSeq := sv];
        serviceSeq := serviceSeq + 1;
      } else {
        id := None;
      }
    }

    method UpdateService(id: Id, sv: Service) returns (ok: bool)
      modifies this`services
      requires Valid() && id in services
      ensures Valid()
      ensures ok <==> ServiceRefOk(sv)
      ensures services == if ok then old(services)[id := sv] else old(services)
      ensures old(Linked()) ==> Linked()
    {
      ok := ServiceRefOk(sv);
      if ok {
        services := services[id := sv];
      }
    }

    method DeleteService(id: Id)
      modifies this`services
      requires Valid()
      ensures Valid()
      ensures services == old(services) - {id}
    {
      services := services - {id};
    }

    method InsertCourse(c: Course) returns (id: Option<Id>)
      modifies this`courses, this`courseSeq
      requires Valid()
      ensures Valid()
      ensures id.Some? <==> CourseRefOk(c)
      ensures id.Some? ==> id.value == old(courseSeq) && id.value !in old(courses)
                           && courses == old(courses)[id.value := c]
                           && courseSeq == old(courseSeq) + 1
      ensures id.None? ==> courses == old(courses) && courseSeq == old(courseSeq)
      ensures old(Linked()) ==> Linked()
    {
      if CourseRefOk(c) {
        id := Some(courseSeq);
        courses := courses[courseSeq := c];
        courseSeq := courseSeq + 1;
      } else {
        id := None;
      }
    }

    method UpdateCourse(id: Id, c: Course) returns (ok: bool)
      modifies this`courses
      requires Valid() && id in courses
      ensures Valid()
      ensures ok <==> CourseRefOk(c)
      ensures courses == if ok then old(courses)[id := c] else old(courses)
      ensures old(Linked()) ==> Linked()
    {
      ok := CourseRefOk(c);
      if ok {
        courses := courses[id := c];
      }
    }

    method DeleteCourse(id: Id)
      modifies this`courses
      requires Valid()
      ensures Valid()
      ensures courses == old(courses) - {id}
    {
      courses := courses - {id};
    }

    method InsertResource(r: Resource) returns (id: Id)
      modifies this`resources, this`resourceSeq
      requires Valid()
      ensures Valid()
      ensures id == old(resourceSeq) && id !in old(resources)
      ensures resources == old(resources)[id := r] && resourceSeq == old(resourceSeq) + 1
      ensures old(Linked()) ==> Linked()
    {
      id := resourceSeq;
      resources := resources[id := r];
      resourceSeq := resourceSeq + 1;
    }

    method UpdateResource(id: Id, r: Resource)
      modifies this`resources
      requires Valid() && id in resources
      ensures Valid()
      ensures resources == old(resources)[id := r]
      ensures old(Linked()) ==> Linked()
    {
      resources := resources[id := r];
    }

    method DeleteResource(id: Id)
      modifies this`resources
      requires Valid()
      ensures Valid()
      ensures resources == old(resources) - {id}
    {
      resources := resources - {id};
    }

    // -------------------------------------------------------------------------
    // CENTRE, THERAPIST, PATIENT (keyed by their user's id)
    // -------------------------------------------------------------------------

    /** `Centre.create`: new key of an existing user, unused CIF, existing service. */
    method InsertCentre(id: Id, c: Centre) returns (ok: bool)
      modifies this`centres
      requires Valid()
      ensures Valid()
      ensures ok <==> id in users && id !in old(centres) && !old(CifUsed(c.cif, None)) && CentreRefOk(c)
      ensures centres == if ok then old(centres)[id := c] else old(centres)
      ensures old(Linked()) ==> Linked()
    {
      ok := id in users && id !in centres && !CifUsed(c.cif, None) && CentreRefOk(c);
      if ok {
        centres := centres[id := c];
      }
    }

    method UpdateCentre(id: Id, c: Centre) returns (ok: bool)
      modifies this`centres
      requires Valid() && id in centres
      ensures Valid()
      ensures ok <==> !old(CifUsed(c.cif, Some(id))) && CentreRefOk(c)
      ensures centres == if ok then old(centres)[id := c] else old(centres)
      ensures old(Linked()) ==> Linked()
    {
      ok := !CifUsed(c.cif, Some(id)) && CentreRefOk(c);
      if ok {
        centres := centres[id := c];
      }
    }

    method DeleteCentre(id: Id)
      modifies this`centres
      requires Valid()
      ensures Valid()
      ensures centres == old(centres) - {id}
    {
      centres := centres - {id};
    }

    method InsertTherapist(id: Id, t: Therapist) returns (ok: bool)
      modifies this`therapists
      requires Valid()
      ensures Valid()
      ensures ok <==> id in users && id !in old(therapists) && !old(TherapistNifUsed(t.nif, None))
      ensures therapists == if ok then old(therapists)[id := t] else old(therapists)
      ensures old(Linked()) ==> Linked()
    {
      ok := id in users && id !in therapists && !TherapistNifUsed(t.nif, None);
      if ok {
        therapists := therapists[id := t];
      }
    }

    method UpdateTherapist(id: Id, t: Therapist) returns (ok: bool)
      modifies this`therapists
      requires Valid() && id in therapists
      ensures Valid()
      ensures ok <==> !old(TherapistNifUsed(t.nif, Some(id)))
      ensures therapists == if ok then old(therapists)[id := t] else old(therapists)
      ensures old(Linked()) ==> Linked()
    {
      ok := !TherapistNifUsed(t.nif, Some(id));
      if ok {
        therapists := therapists[id := t];
      }
    }

    method DeleteTherapist(id: Id)
      modifies this`therapists
      requires Valid()
      ensures Valid()
      ensures therapists == old(therapists) - {id}
    {
      therapists := therapists - {id};
    }

    method InsertPatient(id: Id, p: Patient) returns (ok: bool)
      modifies this`patients
      requires Valid()
      ensures Valid()
      ensures ok <==> id in users && id !in old(patients) && !old(PatientNifUsed(p.nif, None))
      ensures patients == if ok then old(patients)[id := p] else old(patients)
      ensures old(Linked()) ==> Linked()
    {
      ok := id in users && id !in patients && !PatientNifUsed(p.nif, None);
      if ok {
        patients := patients[id := p];
      }
    }

    method UpdatePatient(id: Id, p: Patient) returns (ok: bool)
      modifies this`patients
      requires Valid() && id in patients
      ensures Valid()
      ensures ok <==> !old(PatientNifUsed(p.nif, Some(id)))
      ensures patients == if ok then old(patients)[id := p] else old(patients)
      ensures old(Linked()) ==> Linked()
    {
      ok := !PatientNifUsed(p.nif, Some(id));
      if ok {
        patients := patients[id := p];
      }
    }

    method DeletePatient(id: Id)
      modifies this`patients
      requires Valid()
      ensures Valid()
      ensures patients == old(patients) - {id}
    {
      patients := patients - {id};
    }

    // -------------------------------------------------------------------------
    // Join tables
    // -------------------------------------------------------------------------

    /** Inserts an EMPLOYS row: both ends exist and the pair is new. */
    method AddEmploys(centre: Id, therapist: Id, contract: Option<string>) returns (ok: bool)
      modifies this`employs
      ensures ok <==> centre in centres && therapist in therapists && (centre, therapist) !in old(employs)
      ensures employs == if ok then old(employs)[(centre, therapist) := contract] else old(employs)
      ensures old(Linked()) ==> Linked()
    {
      ok := centre in centres && therapist in therapists && (centre, therapist) !in employs;
      if ok {
        employs := employs[(centre, therapist) := contract];
      }
    }

    /** Deletes the EMPLOYS row of the pair, if there is one. */
    method RemoveEmploys(centre: Id, therapist: Id)
      modifies this`employs
      ensures employs == old(employs) - {(centre, therapist)}
      ensures old(Linked()) ==> Linked()
    {
      employs := employs - {(centre, therapist)};
    }

    method AddTreats(therapist: Id, patient: Id, report: Option<string>) returns (ok: bool)
      modifies this`treats
      ensures ok <==> therapist in therapists && patient in patients && (therapist, patient) !in old(treats)
      ensures treats == if ok then old(treats)[(therapist, patient) := report] else old(treats)
      ensures old(Linked()) ==> Linked()
    {
      ok := therapist in therapists && patient in patients && (therapist, patient) !in treats;
      if ok {
        treats := treats[(therapist, patient) := report];
      }
    }

    /** Updates the report of an existing TREATS row. */
    method SetReport(therapist: Id, patient: Id, report: Option<string>)
      modifies this`treats
      requires (therapist, patient) in treats
      ensures treats == old(treats)[(therapist, patient) := report]
      ensures old(Linked()) ==> Linked()
    {
      treats := treats[(therapist, patient) := report];
    }

    method RemoveTreats(therapist: Id, patient: Id)
      modifies this`treats
      ensures treats == old(treats) - {(therapist, patient)}
      ensures old(Linked()) ==> Linked()
    {
      treats := treats - {(therapist, patient)};
    }

    method AddPays(patient: Id, service: Id) returns (ok: bool)
      modifies this`pays
      ensures ok <==> patient in patients && service in services && (patient, service) !in old(pays)
      ensures pays == if ok then old(pays) + {(patient, service)} else old(pays)
      ensures old(Linked()) ==> Linked()
    {
      ok := patient in patients && service in services && (patient, service) !in pays;
      if ok {
        pays := pays + {(patient, service)};
      }
    }

    /**
     * The association `add` for POSTS, BUYS and PUBLISH: both ends must exist. For a pair
     * that is already present the model keeps the stored row; what the library does with
     * it is not part of the model, so the contract allows either date.
     */
    method AddPosts(centre: Id, course: Id, date: Option<Date>) returns (ok: bool)
      modifies this`posts
      ensures ok <==> centre in centres && course in courses
      ensures ok ==> posts.Keys == old(posts).Keys + {(centre, course)}
      ensures ok ==> posts[(centre, course)] == date
                     || ((centre, course) in old(posts) && posts[(centre, course)] == old(posts)[(centre, course)])
      ensures ok ==> forall p :: p in old(posts) && p != (centre, course) ==> posts[p] == old(posts)[p]
      ensures !ok ==> posts == old(posts)
      ensures old(Linked()) ==> Linked()
    {
      ok := centre in centres && course in courses;
      if ok && (centre, course) !in posts {
        posts := posts[(centre, course) := date];
      }
    }

    method AddBuys(therapist: Id, course: Id, date: Option<Date>) returns (ok: bool)
      modifies this`buys
      ensures ok <==> therapist in therapists && course in courses
      ensures ok ==> buys.Keys == old(buys).Keys + {(therapist, course)}
      ensures ok ==> buys[(therapist, course)] == date
                     || ((therapist, course) in old(buys) && buys[(therapist, course)] == old(buys)[(therapist, course)])
      ensures ok ==> forall p :: p in old(buys) && p != (therapist, course) ==> buys[p] == old(buys)[p]
      ensures !ok ==> buys == old(buys)
      ensures old(Linked()) ==> Linked()
    {
      ok := therapist in therapists && course in courses;
      if ok && (therapist, course) !in buys {
        buys := buys[(therapist, course) := date];
      }
    }

    method AddPublish(therapist: Id, resource: Id, date: Option<Date>) returns (ok: bool)
      modifies this`publish
      ensures ok <==> therapist in therapists && resource in resources
      ensures ok ==> publish.Keys == old(publish).Keys + {(therapist, resource)}
      ensures ok ==> publish[(therapist, resource)] == date
                     || ((therapist, resource) in old(publish) && publish[(therapist, resource)] == old(publish)[(therapist, resource)])
      ensures ok ==> forall p :: p in old(publish) && p != (therapist, resource) ==> publish[p] == old(publish)[p]
      ensures !ok ==> publish == old(publish)
      ensures old(Linked()) ==> Linked()
    {
      ok := therapist in therapists && resource in resources;
      if ok && (therapist, resource) !in publish {
        publish := publish[(therapist, resource) := date];
      }
    }

    method AddConsume(patient: Id, resource: Id) returns (ok: bool)
      modifies this`consume
      ensures ok <==> patient in patients && resource in resources
      ensures consume == if ok then old(consume) + {(patient, resource)} else old(consume)
      ensures old(Linked()) ==> Linked()
    {
      ok := patient in patients && resource in resources;
      if ok {
        consume := consume + {(patient, resource)};
      }
    }
  }

  /** Foreign-key integrity depends only on the tables, not on the id sequences. */
  twostate lemma LinkedUnchanged(s: Store)
    requires unchanged(s`users, s`invoices, s`serviceInvoices, s`courseInvoices, s`services, s`courses,
                       s`resources, s`centres, s`therapists, s`patients, s`employs, s`treats, s`pays,
                       s`posts, s`buys, s`publish, s`consume)
    ensures old(s.Linked()) == s.Linked()
  {
  }
}
