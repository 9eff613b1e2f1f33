/**
 * backend/controllers/serviceController.js: guarded writes on SERVICE and the filters of its
 * list endpoints. Prices are in cents and dates are day numbers; "today" is a parameter, and
 * a date query parameter that is absent or empty is `None`.
 */
module ServiceController {
  import opened JsValues
  import opened Http
  import opened Schema
  import opened Query

  const NAME_REQUIRED := "El nombre del servicio es requerido"
  const INVOICE_NOT_FOUND := "Factura de servicio no encontrada"
  const SERVICE_NOT_FOUND := "Servicio no encontrado"
  const RANGE_REQUIRED := "startDate y endDate son requeridos"

  /** The body fields createService and updateService read. */
  datatype ServiceBody = ServiceBody(
    invoice: Option<IdValue>, name: Option<string>, price: Option<Cents>, tools: Option<string>,
    room: Option<string>, date: Option<Date>)

  /** The guards of createService: 400 without a Name, 404 for a given Id_service_invoice with no row. */
  function CreateServiceError(s: Store, b: ServiceBody): (e: Option<Error>)
    reads s`serviceInvoices
    ensures !Truthy(b.name) ==> e == Some(Error(BadRequest, NAME_REQUIRED))
    ensures e.None? <==> Truthy(b.name) && (PresentValue(b.invoice) ==> Find(s.serviceInvoices, b.invoice.value).Some?)
    ensures e.Some? && Truthy(b.name) ==> e == Some(Error(NotFound, INVOICE_NOT_FOUND))
    ensures e.None? ==> IntegerValue(b.invoice)
  {
    if !Truthy(b.name) then Some(Error(BadRequest, NAME_REQUIRED))
    else if PresentValue(b.invoice) && Find(s.serviceInvoices, b.invoice.value).None? then
      Some(Error(NotFound, INVOICE_NOT_FOUND))
    else None
  }

  /** The row createService writes. */
  function NewService(b: ServiceBody): (sv: Service)
    requires Truthy(b.name)
    ensures sv.name == b.name.value && sv.price == b.price && sv.tools == b.tools
    ensures sv.room == b.room && sv.date == b.date
    ensures b.invoice.None? ==> sv.invoice.None?
    ensures b.invoice.Some? && IntegerValue(b.invoice) ==> sv.invoice == ToNumber(b.invoice.value)
  {
    Service(ForeignKey(b.invoice), b.name.value, b.price, b.tools, b.room, b.date)
  }

  /**
   * createService: the guards, then one row under the next key (201). A present but falsy
   * Id_service_invoice skips the lookup and reaches the store, which refuses a dangling
   * reference (500).
   */
  method CreateService(s: Store, b: ServiceBody) returns (r: Response<(Id, Service)>)
    modifies s`services, s`serviceSeq
    requires s.Valid()
    ensures s.Valid()
    ensures old(CreateServiceError(s, b)).Some? ==> r == Refuse(old(CreateServiceError(s, b)).value)
    ensures r.Reply? <==> old(CreateServiceError(s, b)).None? && old(s.ServiceRefOk(NewService(b)))
    ensures r.Refuse? ==> s.services == old(s.services)
    ensures old(CreateServiceError(s, b)).None? && r.Refuse? ==> r.error == Error(ServerError, THROWN)
    ensures r.Reply? ==>
              r == Reply(Created, (old(s.serviceSeq), NewService(b))) && r.body.0 !in old(s.services)
              && s.services == old(s.services)[r.body.0 := NewService(b)]
    ensures old(s.Linked()) ==> s.Linked()
  {
    var e := CreateServiceError(s, b);
    if e.Some? {
      return Refuse(e.value);
    }
    var id := s.InsertService(NewService(b));
    if id.None? {
      return Refuse(Error(ServerError, THROWN));
    }
    return Reply(Created, (id.value, NewService(b)));
  }

  /** A create that passes the guards with a truthy (or no) invoice reference is always written. */
  lemma GuardedCreateIsWritten(s: Store, b: ServiceBody)
    requires CreateServiceError(s, b).None?
    requires b.invoice.None? || PresentValue(b.invoice)
    ensures s.ServiceRefOk(NewService(b))
  {
  }

  /** `service.update({ ... })` with the six body fields: an absent field keeps its value. */
  function UpdatedService(sv: Service, b: ServiceBody): (u: Service)
    ensures b.invoice.None? ==> u.invoice == sv.invoice
    ensures b.invoice.Some? ==> u.invoice == ToNumber(b.invoice.value)
    ensures u.name == if b.name.Some? then b.name.value else sv.name
    ensures u.price == Coalesce(b.price, sv.price) && u.tools == Coalesce(b.tools, sv.tools)
    ensures u.room == Coalesce(b.room, sv.room) && u.date == Coalesce(b.date, sv.date)
  {
    Service(if b.invoice.Some? then ForeignKey(b.invoice) else sv.invoice,
            if b.name.Some? then b.name.value else sv.name,
            Coalesce(b.price, sv.price), Coalesce(b.tools, sv.tools), Coalesce(b.room, sv.room),
            Coalesce(b.date, sv.date))
  }

  /** Updating with an empty body writes the row back unchanged. */
  lemma EmptyUpdateKeepsService(sv: Service)
    ensures UpdatedService(sv, ServiceBody(None, None, None, None, None, None)) == sv
  {
  }

  /**
   * updateService: 404 for an unknown service; otherwise the row becomes UpdatedService. The
   * invoice reference is not looked up first: one that is not a number, or a dangling one, is
   * refused by the database (500).
   */
  method UpdateService(s: Store, serviceId: IdValue, b: ServiceBody) returns (r: Response<Service>)
    modifies s`services
    requires s.Valid()
    ensures s.Valid()
    ensures old(Find(s.services.Keys, serviceId)).None? ==> r == Refuse(Error(NotFound, SERVICE_NOT_FOUND))
    ensures old(Find(s.services.Keys, serviceId)).Some? && !IntegerValue(b.invoice) ==>
              r == Refuse(Error(ServerError, THROWN))
    ensures r.Refuse? ==> s.services == old(s.services)
    ensures old(Find(s.services.Keys, serviceId)).Some? && r.Refuse? ==> r.error == Error(ServerError, THROWN)
    ensures r.Reply? <==>
              old(Find(s.services.Keys, serviceId)).Some? && IntegerValue(b.invoice)
              && old(s.ServiceRefOk(UpdatedService(s.services[ToNumber(serviceId).value], b)))
    ensures r.Reply? ==>
              var id := ToNumber(serviceId).value;
              var u := UpdatedService(old(s.services)[id], b);
              r == Reply(Ok, u) && s.services == old(s.services)[id := u]
    ensures old(s.Linked()) ==> s.Linked()
  {
    var k := Find(s.services.Keys, serviceId);
    if k.None? {
      return Refuse(Error(NotFound, SERVICE_NOT_FOUND));
    }
    if !IntegerValue(b.invoice) {
      return Refuse(Error(ServerError, THROWN));
    }
    var u := UpdatedService(s.services[k.value], b);
    var ok := s.UpdateService(k.value, u);
    if !ok {
      return Refuse(Error(ServerError, THROWN));
    }
    return Reply(Ok, u);
  }

  /** deleteService: 404 for an unknown service, otherwise the row is destroyed. */
  method DeleteService(s: Store, serviceId: IdValue) returns (r: Response<()>)
    modifies s`services
    requires s.Valid()
    ensures s.Valid()
    ensures r.Reply? <==> old(Find(s.services.Keys, serviceId)).Some?
    ensures r.Refuse? ==> r.error == Error(NotFound, SERVICE_NOT_FOUND) && s.services == old(s.services)
    ensures r.Reply? ==> r.status == Ok && s.services == old(s.services) - {ToNumber(serviceId).value}
  {
    var k := Find(s.services.Keys, serviceId);
    if k.None? {
      return Refuse(Error(NotFound, SERVICE_NOT_FOUND));
    }
    s.DeleteService(k.value);
    return Reply(Ok, ());
  }

  /** getServicePatients: 404 for an unknown service; otherwise the patients who paid for it. */
  function GetServicePatients(s: Store, serviceId: IdValue): (r: Response<set<Id>>)
    reads s`services, s`pays
    ensures r.Reply? <==> Find(s.services.Keys, serviceId).Some?
    ensures r.Refuse? ==> r.error == Error(NotFound, SERVICE_NOT_FOUND)
    ensures r.Reply? ==> r.status == Ok && forall p :: p in r.body <==> (p, ToNumber(serviceId).value) in s.pays
  {
    var k := Find(s.services.Keys, serviceId);
    if k.None? then Refuse(Error(NotFound, SERVICE_NOT_FOUND))
    else Reply(Ok, set q | q in s.pays && q.1 == k.value :: q.0)
  }

  // ---------------------------------------------------------------------------
  // List filters
  // ---------------------------------------------------------------------------

  /** The query of getAllServices; a bound or date is `None` when the parameter is absent or empty. */
  datatype ServiceQuery = ServiceQuery(name: Option<string>, minPrice: Option<Cents>, maxPrice: Option<Cents>,
                                       date: Option<Date>)

  /** The WHERE clause of getAllServices: each filter applies only when given, and all must hold. */
  predicate ServiceMatches(sv: Service, q: ServiceQuery)
    ensures q == ServiceQuery(None, None, None, None) ==> ServiceMatches(sv, q)
  {
    (Truthy(q.name) ==> Like(Some(sv.name), q.name.value))
    && (q.minPrice.Some? ==> sv.price.Some? && sv.price.value >= q.minPrice.value)
    && (q.maxPrice.Some? ==> sv.price.Some? && sv.price.value <= q.maxPrice.value)
    && (q.date.Some? ==> sv.date == q.date)
  }

  /** `ORDER BY Service_Date`, NULL dates lowest. */
  function ByDate(x: (Id, Service)): int {
    DateKey(x.1.date)
  }

  /** getAllServices over the table's rows: the matching rows, latest date first. */
  function GetAllServices(rows: seq<(Id, Service)>, q: ServiceQuery): (r: seq<(Id, Service)>)
    ensures forall x :: x in r <==> x in rows && ServiceMatches(x.1, q)
    ensures Ordered(r, ByDate, true)
    ensures forall x :: multiset(r)[x] == if ServiceMatches(x.1, q) then multiset(rows)[x] else 0
  {
    SelectSorted(rows, (x: (Id, Service)) => ServiceMatches(x.1, q), ByDate, true)
  }

  /** A service is available when it has no date or its date is today or later. */
  predicate Available(sv: Service, today: Date) {
    sv.date.None? || sv.date.value >= today
  }

  /** getAvailableServices: the available rows, earliest date first (undated ones before all). */
  function GetAvailableServices(rows: seq<(Id, Service)>, today: Date): (r: seq<(Id, Service)>)
    ensures forall x :: x in r <==> x in rows && (x.1.date.None? || x.1.date.value >= today)
    ensures Ordered(r, ByDate, false)
    ensures forall x :: multiset(r)[x] == if Available(x.1, today) then multiset(rows)[x] else 0
  {
    SelectSorted(rows, (x: (Id, Service)) => Available(x.1, today), ByDate, false)
  }

  /** `Service_Date BETWEEN start AND end`: both ends included, a NULL date never inside. */
  predicate InRange(sv: Service, start: Date, end: Date) {
    sv.date.Some? && start <= sv.date.value <= end
  }

  /**
   * getServicesByDateRange: 400 unless both ends are given; otherwise the services dated in
   * the range, earliest first.
   */
  function GetServicesByDateRange(rows: seq<(Id, Service)>, start: Option<Date>, end: Option<Date>): (r: Response<seq<(Id, Service)>>)
    ensures start.None? || end.None? <==> r == Refuse(Error(BadRequest, RANGE_REQUIRED))
    ensures r.Reply? ==> r.status == Ok && Ordered(r.body, ByDate, false)
    ensures r.Reply? ==>
              forall x :: x in r.body <==> x in rows && x.1.date.Some? && start.value <= x.1.date.value <= end.value
  {
    if start.None? || end.None? then Refuse(Error(BadRequest, RANGE_REQUIRED))
    else Reply(Ok, SelectSorted(rows, (x: (Id, Service)) => InRange(x.1, start.value, end.value), ByDate, false))
  }

  /** Every service dated inside a range is also available on the range's first day. */
  lemma RangeIsAvailableFromStart(rows: seq<(Id, Service)>, start: Date, end: Date)
    ensures forall x :: x in GetServicesByDateRange(rows, Some(start), Some(end)).body ==>
                          x in GetAvailableServices(rows, start)
  {
  }

  /** A range whose start lies after its end selects nothing. */
  lemma EmptyRange(rows: seq<(Id, Service)>, start: Date, end: Date)
    requires end < start
    ensures GetServicesByDateRange(rows, Some(start), Some(end)) == Reply(Ok, [])
  {
    var r := GetServicesByDateRange(rows, Some(start), Some(end)).body;
    assert multiset(r) == multiset{};
  }

  /** A single-day range answers the rows `?date=` answers for that day. */
  lemma OneDayRangeIsDateFilter(rows: seq<(Id, Service)>, day: Date)
    ensures multiset(GetServicesByDateRange(rows, Some(day), Some(day)).body)
            == multiset(GetAllServices(rows, ServiceQuery(None, None, None, Some(day))))
  {
    var a := GetServicesByDateRange(rows, Some(day), Some(day)).body;
    var b := GetAllServices(rows, ServiceQuery(None, None, None, Some(day)));
    forall x: (Id, Service) ensures multiset(a)[x] == multiset(b)[x] {
      assert InRange(x.1, day, day) == ServiceMatches(x.1, ServiceQuery(None, None, None, Some(day)));
    }
    assert multiset(a) == multiset(b);
  }
}
