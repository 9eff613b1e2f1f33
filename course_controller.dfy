/**
 * backend/controllers/courseController.js: guarded writes on COURSE and the filters of its
 * list endpoints. Prices are in cents and dates are day numbers; "today" is a parameter.
 */
module CourseController {
  import opened JsValues
  import opened Http
  import opened Schema
  import opened Query

  const NAME_REQUIRED := "El nombre del curso es requerido"
  const INVOICE_NOT_FOUND := "Factura de curso no encontrada"
  const COURSE_NOT_FOUND := "Curso no encontrado"

  /** The body fields createCourse and updateCourse read. */
  datatype CourseBody = CourseBody(
    invoice: Option<IdValue>, name: Option<string>, teacher: Option<string>, price: Option<Cents>,
    kind: Option<string>, description: Option<string>, date: Option<Date>)

  /** The guards of createCourse: 400 without a Name, 404 for a given Id_course_invoice with no row. */
  function CreateCourseError(s: Store, b: CourseBody): (e: Option<Error>)
    reads s`courseInvoices
    ensures !Truthy(b.name) ==> e == Some(Error(BadRequest, NAME_REQUIRED))
    ensures e.None? <==> Truthy(b.name) && (PresentValue(b.invoice) ==> Find(s.courseInvoices, b.invoice.value).Some?)
    ensures e.Some? && Truthy(b.name) ==> e == Some(Error(NotFound, INVOICE_NOT_FOUND))
    ensures e.None? ==> IntegerValue(b.invoice)
  {
    if !Truthy(b.name) then Some(Error(BadRequest, NAME_REQUIRED))
    else if PresentValue(b.invoice) && Find(s.courseInvoices, b.invoice.value).None? then
      Some(Error(NotFound, INVOICE_NOT_FOUND))
    else None
  }

  /** The row createCourse writes. */
  function NewCourse(b: CourseBody): (c: Course)
    requires Truthy(b.name)
    ensures c.name == b.name.value && c.teacher == b.teacher && c.price == b.price
    ensures c.kind == b.kind && c.description == b.description && c.date == b.date
    ensures b.invoice.None? ==> c.invoice.None?
    ensures b.invoice.Some? && IntegerValue(b.invoice) ==> c.invoice == ToNumber(b.invoice.value)
  {
    Course(ForeignKey(b.invoice), b.name.value, b.teacher, b.price, b.kind, b.description, b.date)
  }

  /**
   * createCourse: the guards, then one row under the next key (201). A present but falsy
   * Id_course_invoice skips the lookup and reaches the store, which refuses a dangling
   * reference (500).
   */
  method CreateCourse(s: Store, b: CourseBody) returns (r: Response<(Id, Course)>)
    modifies s`courses, s`courseSeq
    requires s.Valid()
    ensures s.Valid()
    ensures old(CreateCourseError(s, b)).Some? ==> r == Refuse(old(CreateCourseError(s, b)).value)
    ensures r.Reply? <==> old(CreateCourseError(s, b)).None? && old(s.CourseRefOk(NewCourse(b)))
    ensures r.Refuse? ==> s.courses == old(s.courses)
    ensures old(CreateCourseError(s, b)).None? && r.Refuse? ==> r.error == Error(ServerError, THROWN)
    ensures r.Reply? ==>
              r == Reply(Created, (old(s.courseSeq), NewCourse(b))) && r.body.0 !in old(s.courses)
              && s.courses == old(s.courses)[r.body.0 := NewCourse(b)]
    ensures old(s.Linked()) ==> s.Linked()
  {
    var e := CreateCourseError(s, b);
    if e.Some? {
      return Refuse(e.value);
    }
    var id := s.InsertCourse(NewCourse(b));
    if id.None? {
      return Refuse(Error(ServerError, THROWN));
    }
    return Reply(Created, (id.value, NewCourse(b)));
  }

  /** A create that passes the guards with a truthy (or no) invoice reference is always written. */
  lemma GuardedCreateIsWritten(s: Store, b: CourseBody)
    requires CreateCourseError(s, b).None?
    requires b.invoice.None? || PresentValue(b.invoice)
    ensures s.CourseRefOk(NewCourse(b))
  {
  }

  /** `course.update({ ... })` with the seven body fields: an absent field keeps its value. */
  function UpdatedCourse(c: Course, b: CourseBody): (u: Course)
    ensures b.invoice.None? ==> u.invoice == c.invoice
    ensures b.invoice.Some? ==> u.invoice == ToNumber(b.invoice.value)
    ensures u.name == if b.name.Some? then b.name.value else c.name
    ensures u.teacher == Coalesce(b.teacher, c.teacher) && u.price == Coalesce(b.price, c.price)
    ensures u.kind == Coalesce(b.kind, c.kind) && u.description == Coalesce(b.description, c.description)
    ensures u.date == Coalesce(b.date, c.date)
  {
    Course(if b.invoice.Some? then ForeignKey(b.invoice) else c.invoice,
           if b.name.Some? then b.name.value else c.name,
           Coalesce(b.teacher, c.teacher), Coalesce(b.price, c.price), Coalesce(b.kind, c.kind),
           Coalesce(b.description, c.description), Coalesce(b.date, c.date))
  }

  /** Updating with an empty body writes the row back unchanged. */
  lemma EmptyUpdateKeepsCourse(c: Course)
    ensures UpdatedCourse(c, CourseBody(None, None, None, None, None, None, None)) == c
  {
  }

  /**
   * updateCourse: 404 for an unknown course; otherwise the row becomes UpdatedCourse. The
   * invoice reference is not looked up first: one that is not a number, or a dangling one, is
   * refused by the database (500).
   */
  method UpdateCourse(s: Store, courseId: IdValue, b: CourseBody) returns (r: Response<Course>)
    modifies s`courses
    requires s.Valid()
    ensures s.Valid()
    ensures old(Find(s.courses.Keys, courseId)).None? ==> r == Refuse(Error(NotFound, COURSE_NOT_FOUND))
    ensures old(Find(s.courses.Keys, courseId)).Some? && !IntegerValue(b.invoice) ==>
              r == Refuse(Error(ServerError, THROWN))
    ensures r.Refuse? ==> s.courses == old(s.courses)
    ensures old(Find(s.courses.Keys, courseId)).Some? && r.Refuse? ==> r.error == Error(ServerError, THROWN)
    ensures r.Reply? <==>
              old(Find(s.courses.Keys, courseId)).Some? && IntegerValue(b.invoice)
              && old(s.CourseRefOk(UpdatedCourse(s.courses[ToNumber(courseId).value], b)))
    ensures r.Reply? ==>
              var id := ToNumber(courseId).value;
              var u := UpdatedCourse(old(s.courses)[id], b);
              r == Reply(Ok, u) && s.courses == old(s.courses)[id := u]
    ensures old(s.Linked()) ==> s.Linked()
  {
    var k := Find(s.courses.Keys, courseId);
    if k.None? {
      return Refuse(Error(NotFound, COURSE_NOT_FOUND));
    }
    if !IntegerValue(b.invoice) {
      return Refuse(Error(ServerError, THROWN));
    }
    var u := UpdatedCourse(s.courses[k.value], b);
    var ok := s.UpdateCourse(k.value, u);
    if !ok {
      return Refuse(Error(ServerError, THROWN));
    }
    return Reply(Ok, u);
  }

  /** deleteCourse: 404 for an unknown course, otherwise the row is destroyed. */
  method DeleteCourse(s: Store, courseId: IdValue) returns (r: Response<()>)
    modifies s`courses
    requires s.Valid()
    ensures s.Valid()
    ensures r.Reply? <==> old(Find(s.courses.Keys, courseId)).Some?
    ensures r.Refuse? ==> r.error == Error(NotFound, COURSE_NOT_FOUND) && s.courses == old(s.courses)
    ensures r.Reply? ==> r.status == Ok && s.courses == old(s.courses) - {ToNumber(courseId).value}
  {
    var k := Find(s.courses.Keys, courseId);
    if k.None? {
      return Refuse(Error(NotFound, COURSE_NOT_FOUND));
    }
    s.DeleteCourse(k.value);
    return Reply(Ok, ());
  }

  // ---------------------------------------------------------------------------
  // The buyers and posters of a course
  // ---------------------------------------------------------------------------

  /** getCourseTherapists: 404 for an unknown course; otherwise the therapists who bought it. */
  function GetCourseTherapists(s: Store, courseId: IdValue): (r: Response<set<Id>>)
    reads s`courses, s`buys
    ensures r.Reply? <==> Find(s.courses.Keys, courseId).Some?
    ensures r.Refuse? ==> r.error == Error(NotFound, COURSE_NOT_FOUND)
    ensures r.Reply? ==> r.status == Ok && forall t :: t in r.body <==> (t, ToNumber(courseId).value) in s.buys
  {
    var k := Find(s.courses.Keys, courseId);
    if k.None? then Refuse(Error(NotFound, COURSE_NOT_FOUND))
    else Reply(Ok, set q | q in s.buys && q.1 == k.value :: q.0)
  }

  /** getCourseCentres: 404 for an unknown course; otherwise the centres that posted it. */
  function GetCourseCentres(s: Store, courseId: IdValue): (r: Response<set<Id>>)
    reads s`courses, s`posts
    ensures r.Reply? <==> Find(s.courses.Keys, courseId).Some?
    ensures r.Refuse? ==> r.error == Error(NotFound, COURSE_NOT_FOUND)
    ensures r.Reply? ==> r.status == Ok && forall c :: c in r.body <==> (c, ToNumber(courseId).value) in s.posts
  {
    var k := Find(s.courses.Keys, courseId);
    if k.None? then Refuse(Error(NotFound, COURSE_NOT_FOUND))
    else Reply(Ok, set q | q in s.posts && q.1 == k.value :: q.0)
  }

  // ---------------------------------------------------------------------------
  // List filters
  // ---------------------------------------------------------------------------

  /** The query of getAllCourses; a price bound is `None` when the parameter is absent or empty. */
  datatype CourseQuery = CourseQuery(name: Option<string>, teacher: Option<string>, kind: Option<string>,
                                     minPrice: Option<Cents>, maxPrice: Option<Cents>)

  /** The WHERE clause of getAllCourses: each filter applies only when given, and all must hold. */
  predicate CourseMatches(c: Course, q: CourseQuery)
    ensures q == CourseQuery(None, None, None, None, None) ==> CourseMatches(c, q)
  {
    (Truthy(q.name) ==> Like(Some(c.name), q.name.value))
    && (Truthy(q.teacher) ==> Like(c.teacher, q.teacher.value))
    && (Truthy(q.kind) ==> c.kind == q.kind)
    && (q.minPrice.Some? ==> c.price.Some? && c.price.value >= q.minPrice.value)
    && (q.maxPrice.Some? ==> c.price.Some? && c.price.value <= q.maxPrice.value)
  }

  /** `ORDER BY Course_Date`, NULL dates lowest. */
  function ByDate(x: (Id, Course)): int {
    DateKey(x.1.date)
  }

  /** getAllCourses over the table's rows: the matching rows, latest date first. */
  function GetAllCourses(rows: seq<(Id, Course)>, q: CourseQuery): (r: seq<(Id, Course)>)
    ensures forall x :: x in r <==> x in rows && CourseMatches(x.1, q)
    ensures Ordered(r, ByDate, true)
    ensures forall x :: multiset(r)[x] == if CourseMatches(x.1, q) then multiset(rows)[x] else 0
  {
    SelectSorted(rows, (x: (Id, Course)) => CourseMatches(x.1, q), ByDate, true)
  }

  /** A course is available when it has no date or its date is today or later. */
  predicate Available(c: Course, today: Date) {
    c.date.None? || c.date.value >= today
  }

  /** getAvailableCourses: the available rows, earliest date first (undated ones before all). */
  function GetAvailableCourses(rows: seq<(Id, Course)>, today: Date): (r: seq<(Id, Course)>)
    ensures forall x :: x in r <==> x in rows && (x.1.date.None? || x.1.date.value >= today)
    ensures Ordered(r, ByDate, false)
    ensures forall x :: multiset(r)[x] == if Available(x.1, today) then multiset(rows)[x] else 0
  {
    SelectSorted(rows, (x: (Id, Course)) => Available(x.1, today), ByDate, false)
  }

  /** A course available on some day stays available on every earlier day. */
  lemma AvailableEarlier(rows: seq<(Id, Course)>, today: Date, earlier: Date)
    requires earlier <= today
    ensures forall x :: x in GetAvailableCourses(rows, today) ==> x in GetAvailableCourses(rows, earlier)
  {
  }

  /** getCoursesByType: the rows whose type is exactly the one in the path, earliest first. */
  function GetCoursesByType(rows: seq<(Id, Course)>, kind: string): (r: seq<(Id, Course)>)
    ensures forall x :: x in r <==> x in rows && x.1.kind == Some(kind)
    ensures Ordered(r, ByDate, false)
  {
    SelectSorted(rows, (x: (Id, Course)) => x.1.kind == Some(kind), ByDate, false)
  }

  /** getCoursesByTeacher: the rows whose teacher contains the one in the path, latest first. */
  function GetCoursesByTeacher(rows: seq<(Id, Course)>, teacher: string): (r: seq<(Id, Course)>)
    ensures forall x :: x in r <==> x in rows && Like(x.1.teacher, teacher)
    ensures Ordered(r, ByDate, true)
  {
    SelectSorted(rows, (x: (Id, Course)) => Like(x.1.teacher, teacher), ByDate, true)
  }

  /** The type route answers the rows `?type=` answers, in the opposite date order. */
  lemma ByTypeIsTypeFilter(rows: seq<(Id, Course)>, kind: string)
    requires kind != ""
    ensures multiset(GetCoursesByType(rows, kind)) == multiset(GetAllCourses(rows, CourseQuery(None, None, Some(kind), None, None)))
  {
  }

  /** For a non-empty teacher the teacher route answers exactly what `?teacher=` answers. */
  lemma ByTeacherIsTeacherFilter(rows: seq<(Id, Course)>, teacher: string)
    requires teacher != ""
    ensures GetCoursesByTeacher(rows, teacher) == GetAllCourses(rows, CourseQuery(None, Some(teacher), None, None, None))
  {
    var q := CourseQuery(None, Some(teacher), None, None, None);
    SameSelect(rows, (x: (Id, Course)) => Like(x.1.teacher, teacher), (x: (Id, Course)) => CourseMatches(x.1, q));
  }
}
