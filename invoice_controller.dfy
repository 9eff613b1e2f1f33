/**
 * backend/controllers/invoiceController.js: guarded writes on INVOICE, the two handlers that
 * write an invoice and then its SERVICE_INVOICE or COURSE_INVOICE row, and the filters of the
 * list endpoints. Dates are day numbers; a date parameter that is absent or empty is `None`.
 */
module InvoiceController {
  import opened JsValues
  import opened Http
  import opened Schema
  import opened Query

  const FIELDS_REQUIRED := "Invoice_number e Invoice_date son requeridos"
  const NUMBER_TAKEN := "El número de factura ya existe"
  const INVOICE_NOT_FOUND := "Factura no encontrada"
  const STATUS_REQUIRED := "Payment_status es requerido"
  /** The Payment_status a new invoice gets when none is given, and the one getPendingInvoices selects. */
  const PENDING := "Pendiente"

  /** The body fields the invoice handlers read. */
  datatype InvoiceBody = InvoiceBody(number: Option<string>, date: Option<Date>, tax: Option<Cents>,
                                     payMethod: Option<string>, status: Option<string>)

  /** `!Invoice_number || !Invoice_date`. */
  predicate MissingFields(b: InvoiceBody) {
    !Truthy(b.number) || b.date.None?
  }

  /** The row the three create handlers write: Payment_status falls back to "Pendiente". */
  function NewInvoice(b: InvoiceBody): (inv: Invoice)
    requires !MissingFields(b)
    ensures inv.number == b.number.value && inv.date == b.date.value
    ensures inv.status == Some(OrElse(b.status, PENDING))
  {
    Invoice(b.number.value, b.date.value, b.tax, b.payMethod, Some(OrElse(b.status, PENDING)))
  }

  /** The guards of createInvoice: 400 without a number or date, 409 for a number already used. */
  function CreateInvoiceError(s: Store, b: InvoiceBody): (e: Option<Error>)
    reads s`invoices
    ensures MissingFields(b) ==> e == Some(Error(BadRequest, FIELDS_REQUIRED))
    ensures e.None? <==> !MissingFields(b) && !s.InvoiceNumberUsed(b.number.value, None)
    ensures !MissingFields(b) && e.Some? ==> e == Some(Error(Conflict, NUMBER_TAKEN))
  {
    if MissingFields(b) then Some(Error(BadRequest, FIELDS_REQUIRED))
    else if s.InvoiceNumberUsed(b.number.value, None) then Some(Error(Conflict, NUMBER_TAKEN))
    else None
  }

  /** createInvoice: the guards, then one row under the next key (201). */
  method CreateInvoice(s: Store, b: InvoiceBody) returns (r: Response<(Id, Invoice)>)
    modifies s`invoices, s`invoiceSeq
    requires s.Valid()
    ensures s.Valid()
    ensures old(CreateInvoiceError(s, b)).Some? ==> r == Refuse(old(CreateInvoiceError(s, b)).value)
    ensures r.Reply? <==> old(CreateInvoiceError(s, b)).None?
    ensures r.Refuse? ==> s.invoices == old(s.invoices)
    ensures r.Reply? ==>
              r == Reply(Created, (old(s.invoiceSeq), NewInvoice(b))) && r.body.0 !in old(s.invoices)
              && s.invoices == old(s.invoices)[r.body.0 := NewInvoice(b)]
    ensures old(s.Linked()) ==> s.Linked()
  {
    var e := CreateInvoiceError(s, b);
    if e.Some? {
      return Refuse(e.value);
    }
    var id := s.InsertInvoice(NewInvoice(b));
    return Reply(Created, (id.value, NewInvoice(b)));
  }

  /** The guards of updateInvoice: 404 for an unknown invoice, 409 for a new number already used. */
  function UpdateInvoiceError(s: Store, invoiceId: IdValue, b: InvoiceBody): (e: Option<Error>)
    reads s`invoices
    ensures Find(s.invoices.Keys, invoiceId).None? ==> e == Some(Error(NotFound, INVOICE_NOT_FOUND))
    ensures e.None? <==>
              Find(s.invoices.Keys, invoiceId).Some?
              && !(Truthy(b.number) && b.number.value != s.invoices[ToNumber(invoiceId).value].number
                   && s.InvoiceNumberUsed(b.number.value, None))
  {
    if Find(s.invoices.Keys, invoiceId).None? then Some(Error(NotFound, INVOICE_NOT_FOUND))
    else if Truthy(b.number) && b.number.value != s.invoices[ToNumber(invoiceId).value].number
            && s.InvoiceNumberUsed(b.number.value, None) then
      Some(Error(Conflict, NUMBER_TAKEN))
    else None
  }

  /** `invoice.update({ ... })` with the five body fields: an absent field keeps its value. */
  function UpdatedInvoice(inv: Invoice, b: InvoiceBody): (u: Invoice)
    ensures u.number == if b.number.Some? then b.number.value else inv.number
    ensures u.date == if b.date.Some? then b.date.value else inv.date
    ensures u.tax == Coalesce(b.tax, inv.tax) && u.payMethod == Coalesce(b.payMethod, inv.payMethod)
    ensures u.status == Coalesce(b.status, inv.status)
  {
    Invoice(if b.number.Some? then b.number.value else inv.number,
            if b.date.Some? then b.date.value else inv.date,
            Coalesce(b.tax, inv.tax), Coalesce(b.payMethod, inv.payMethod), Coalesce(b.status, inv.status))
  }

  /**
   * updateInvoice: 404 or 409 as the guards say, writing nothing; otherwise the row becomes
   * UpdatedInvoice (200). A present but empty number skips the 409 check and reaches the
   * store, which refuses a number another invoice has (500).
   */
  method UpdateInvoice(s: Store, invoiceId: IdValue, b: InvoiceBody) returns (r: Response<Invoice>)
    modifies s`invoices
    requires s.Valid()
    ensures s.Valid()
    ensures old(UpdateInvoiceError(s, invoiceId, b)).Some? ==> r == Refuse(old(UpdateInvoiceError(s, invoiceId, b)).value)
    ensures r.Refuse? ==> s.invoices == old(s.invoices)
    ensures old(UpdateInvoiceError(s, invoiceId, b)).None? && r.Refuse? ==> r.error == Error(ServerError, THROWN)
    ensures r.Reply? <==>
              old(UpdateInvoiceError(s, invoiceId, b)).None?
              && var id := ToNumber(invoiceId).value;
                 !old(s.InvoiceNumberUsed(UpdatedInvoice(s.invoices[id], b).number, Some(id)))
    ensures r.Reply? ==>
              var id := ToNumber(invoiceId).value;
              var u := UpdatedInvoice(old(s.invoices)[id], b);
              r == Reply(Ok, u) && s.invoices == old(s.invoices)[id := u]
    ensures old(s.Linked()) ==> s.Linked()
  {
    var e := UpdateInvoiceError(s, invoiceId, b);
    if e.Some? {
      return Refuse(e.value);
    }
    var id := ToNumber(invoiceId).value;
    var u := UpdatedInvoice(s.invoices[id], b);
    var ok := s.UpdateInvoice(id, u);
    if !ok {
      return Refuse(Error(ServerError, THROWN));
    }
    return Reply(Ok, u);
  }

  /** The row an invoice keeps its own number under: no other invoice has it. */
  lemma OwnNumberIsFree(s: Store, id: Id)
    requires s.UniqueInvoiceNumbers() && id in s.invoices
    ensures !s.InvoiceNumberUsed(s.invoices[id].number, Some(id))
  {
    forall k | k in s.invoices && k != id
      ensures s.invoices[k].number != s.invoices[id].number
    {
    }
  }

  /** An update that passes the guards with a truthy or absent number is always written. */
  lemma GuardedNumberUpdateIsWritten(s: Store, invoiceId: IdValue, b: InvoiceBody)
    requires s.UniqueInvoiceNumbers() && UpdateInvoiceError(s, invoiceId, b).None?
    requires b.number.None? || Truthy(b.number)
    ensures var id := ToNumber(invoiceId).value;
            !s.InvoiceNumberUsed(UpdatedInvoice(s.invoices[id], b).number, Some(id))
  {
    var id := ToNumber(invoiceId).value;
    var u := UpdatedInvoice(s.invoices[id], b);
    forall k | k in s.invoices && k != id
      ensures s.invoices[k].number != u.number
    {
      if b.number.Some? && b.number.value != s.invoices[id].number {
        assert !s.InvoiceNumberUsed(u.number, None);
      } else {
        assert u.number == s.invoices[id].number;
      }
    }
  }

  /** deleteInvoice: 404 for an unknown invoice, otherwise the row is destroyed. */
  method DeleteInvoice(s: Store, invoiceId: IdValue) returns (r: Response<()>)
    modifies s`invoices
    requires s.Valid()
    ensures s.Valid()
    ensures r.Reply? <==> old(Find(s.invoices.Keys, invoiceId)).Some?
    ensures r.Refuse? ==> r.error == Error(NotFound, INVOICE_NOT_FOUND) && s.invoices == old(s.invoices)
    ensures r.Reply? ==> r.status == Ok && s.invoices == old(s.invoices) - {ToNumber(invoiceId).value}
  {
    var k := Find(s.invoices.Keys, invoiceId);
    if k.None? {
      return Refuse(Error(NotFound, INVOICE_NOT_FOUND));
    }
    s.DeleteInvoice(k.value);
    return Reply(Ok, ());
  }

  /** updatePaymentStatus: 400 without a status, 404 for an unknown invoice; otherwise only the status changes. */
  method UpdatePaymentStatus(s: Store, invoiceId: IdValue, status: Option<string>) returns (r: Response<Invoice>)
    modifies s`invoices
    requires s.Valid()
    ensures s.Valid()
    ensures !Truthy(status) ==> r == Refuse(Error(BadRequest, STATUS_REQUIRED))
    ensures Truthy(status) && old(Find(s.invoices.Keys, invoiceId)).None? ==> r == Refuse(Error(NotFound, INVOICE_NOT_FOUND))
    ensures r.Reply? <==> Truthy(status) && old(Find(s.invoices.Keys, invoiceId)).Some?
    ensures r.Refuse? ==> s.invoices == old(s.invoices)
    ensures r.Reply? ==>
              var id := ToNumber(invoiceId).value;
              var u := old(s.invoices)[id].(status := status);
              r == Reply(Ok, u) && s.invoices == old(s.invoices)[id := u]
    ensures old(s.Linked()) ==> s.Linked()
  {
    if !Truthy(status) {
      return Refuse(Error(BadRequest, STATUS_REQUIRED));
    }
    var k := Find(s.invoices.Keys, invoiceId);
    if k.None? {
      return Refuse(Error(NotFound, INVOICE_NOT_FOUND));
    }
    var u := s.invoices[k.value].(status := status);
    OwnNumberIsFree(s, k.value);
    var ok := s.UpdateInvoice(k.value, u);
    assert ok;
    return Reply(Ok, u);
  }

  // ---------------------------------------------------------------------------
  // createServiceInvoice, createCourseInvoice
  // ---------------------------------------------------------------------------

  /**
   * createServiceInvoice: 400 without a number or date; otherwise an INVOICE row is written
   * with no duplicate-number pre-check (the store refuses a taken number: 500, nothing
   * written), then a SERVICE_INVOICE row keyed by the new invoice's id (201). The two writes
   * are not one transaction: when the second is refused the invoice stays.
   */
  method CreateServiceInvoice(s: Store, b: InvoiceBody) returns (r: Response<(Id, Invoice)>)
    modifies s`invoices, s`invoiceSeq, s`serviceInvoices
    requires s.Valid()
    ensures s.Valid()
    ensures MissingFields(b) ==> r == Refuse(Error(BadRequest, FIELDS_REQUIRED)) && s.invoices == old(s.invoices)
    ensures !MissingFields(b) && old(s.InvoiceNumberUsed(b.number.value, None)) ==>
              r == Refuse(Error(ServerError, THROWN)) && s.invoices == old(s.invoices)
    ensures r.Refuse? ==> s.serviceInvoices == old(s.serviceInvoices)
    ensures r.Reply? <==>
              !MissingFields(b) && !old(s.InvoiceNumberUsed(b.number.value, None))
              && old(s.invoiceSeq) !in old(s.serviceInvoices)
    ensures r.Reply? ==>
              r == Reply(Created, (old(s.invoiceSeq), NewInvoice(b)))
              && s.invoices == old(s.invoices)[r.body.0 := NewInvoice(b)]
              && s.serviceInvoices == old(s.serviceInvoices) + {r.body.0}
    ensures old(s.Linked()) ==> s.Linked()
    ensures old(s.Linked()) && !MissingFields(b) && !old(s.InvoiceNumberUsed(b.number.value, None)) ==> r.Reply?
  {
    if MissingFields(b) {
      return Refuse(Error(BadRequest, FIELDS_REQUIRED));
    }
    var id := s.InsertInvoice(NewInvoice(b));
    if id.None? {
      return Refuse(Error(ServerError, THROWN));
    }
    var ok := s.InsertServiceInvoice(id.value);
    if !ok {
      return Refuse(Error(ServerError, THROWN));
    }
    return Reply(Created, (id.value, NewInvoice(b)));
  }

  /** createCourseInvoice: createServiceInvoice with a COURSE_INVOICE row as the second write. */
  method CreateCourseInvoice(s: Store, b: InvoiceBody) returns (r: Response<(Id, Invoice)>)
    modifies s`invoices, s`invoiceSeq, s`courseInvoices
    requires s.Valid()
    ensures s.Valid()
    ensures MissingFields(b) ==> r == Refuse(Error(BadRequest, FIELDS_REQUIRED)) && s.invoices == old(s.invoices)
    ensures !MissingFields(b) && old(s.InvoiceNumberUsed(b.number.value, None)) ==>
              r == Refuse(Error(ServerError, THROWN)) && s.invoices == old(s.invoices)
    ensures r.Refuse? ==> s.courseInvoices == old(s.courseInvoices)
    ensures r.Reply? <==>
              !MissingFields(b) && !old(s.InvoiceNumberUsed(b.number.value, None))
              && old(s.invoiceSeq) !in old(s.courseInvoices)
    ensures r.Reply? ==>
              r == Reply(Created, (old(s.invoiceSeq), NewInvoice(b)))
              && s.invoices == old(s.invoices)[r.body.0 := NewInvoice(b)]
              && s.courseInvoices == old(s.courseInvoices) + {r.body.0}
    ensures old(s.Linked()) ==> s.Linked()
    ensures old(s.Linked()) && !MissingFields(b) && !old(s.InvoiceNumberUsed(b.number.value, None)) ==> r.Reply?
  {
    if MissingFields(b) {
      return Refuse(Error(BadRequest, FIELDS_REQUIRED));
    }
    var id := s.InsertInvoice(NewInvoice(b));
    if id.None? {
      return Refuse(Error(ServerError, THROWN));
    }
    var ok := s.InsertCourseInvoice(id.value);
    if !ok {
      return Refuse(Error(ServerError, THROWN));
    }
    return Reply(Created, (id.value, NewInvoice(b)));
  }

  // ---------------------------------------------------------------------------
  // List filters
  // ---------------------------------------------------------------------------

  /** The query of getAllInvoices. */
  datatype InvoiceQuery = InvoiceQuery(status: Option<string>, payMethod: Option<string>,
                                       start: Option<Date>, end: Option<Date>)

  /**
   * The WHERE clause of getAllInvoices: exact status and method, each only when given, and a
   * date range only when both ends are given.
   */
  predicate InvoiceMatches(inv: Invoice, q: InvoiceQuery)
    ensures q == InvoiceQuery(None, None, None, None) ==> InvoiceMatches(inv, q)
  {
    (Truthy(q.status) ==> inv.status == q.status)
    && (Truthy(q.payMethod) ==> inv.payMethod == q.payMethod)
    && (q.start.Some? && q.end.Some? ==> q.start.value <= inv.date <= q.end.value)
  }

  function ByDate(x: (Id, Invoice)): int {
    x.1.date
  }

  /** getAllInvoices over the table's rows: the matching rows, latest date first. */
  function GetAllInvoices(rows: seq<(Id, Invoice)>, q: InvoiceQuery): (r: seq<(Id, Invoice)>)
    ensures forall x :: x in r <==> x in rows && InvoiceMatches(x.1, q)
    ensures Ordered(r, ByDate, true)
    ensures forall x :: multiset(r)[x] == if InvoiceMatches(x.1, q) then multiset(rows)[x] else 0
  {
    SelectSorted(rows, (x: (Id, Invoice)) => InvoiceMatches(x.1, q), ByDate, true)
  }

  /** A range with only one end given is ignored: the answer is the one without any range. */
  lemma HalfRangeIsIgnored(rows: seq<(Id, Invoice)>, status: Option<string>, payMethod: Option<string>, start: Option<Date>, end: Option<Date>)
    requires start.None? || end.None?
    ensures GetAllInvoices(rows, InvoiceQuery(status, payMethod, start, end))
            == GetAllInvoices(rows, InvoiceQuery(status, payMethod, None, None))
  {
    var q1 := InvoiceQuery(status, payMethod, start, end);
    var q2 := InvoiceQuery(status, payMethod, None, None);
    SameSelect(rows, (x: (Id, Invoice)) => InvoiceMatches(x.1, q1), (x: (Id, Invoice)) => InvoiceMatches(x.1, q2));
  }

  /** getPendingInvoices: the invoices whose status is "Pendiente", earliest date first. */
  function GetPendingInvoices(rows: seq<(Id, Invoice)>): (r: seq<(Id, Invoice)>)
    ensures forall x :: x in r <==> x in rows && x.1.status == Some(PENDING)
    ensures Ordered(r, ByDate, false)
    ensures forall x :: multiset(r)[x] == if x.1.status == Some(PENDING) then multiset(rows)[x] else 0
  {
    SelectSorted(rows, (x: (Id, Invoice)) => x.1.status == Some(PENDING), ByDate, false)
  }

  /** An invoice created without a Payment_status is listed as pending. */
  lemma CreatedWithoutStatusIsPending(rows: seq<(Id, Invoice)>, id: Id, b: InvoiceBody)
    requires !MissingFields(b) && !Truthy(b.status)
    requires (id, NewInvoice(b)) in rows
    ensures (id, NewInvoice(b)) in GetPendingInvoices(rows)
  {
  }

  /** After its status is set to anything but "Pendiente", an invoice is no longer listed as pending. */
  lemma PaidIsNotPending(rows: seq<(Id, Invoice)>, id: Id, inv: Invoice, status: string)
    requires status != PENDING
    ensures (id, inv.(status := Some(status))) !in GetPendingInvoices(rows)
  {
  }
}
