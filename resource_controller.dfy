/**
 * backend/controllers/resourceController.js: guarded writes on RESOURCE and the filters
 * of its list, search and popularity endpoints. The controller checks no ownership: who may
 * write is decided by the route table alone.
 */
module ResourceController {
  import opened JsValues
  import opened Http
  import opened Schema
  import opened Query
  import TherapistController

  const NAME_REQUIRED := "El nombre del recurso es requerido"
  const RESOURCE_NOT_FOUND := "Recurso no encontrado"
  const THERAPIST_NOT_FOUND := "Terapeuta no encontrado"
  const SEARCH_REQUIRED := "Se requiere al menos un parámetro de búsqueda (q o type)"
  /** getPopularResources' LIMIT. */
  const POPULAR_LIMIT: nat := 10

  /** The body fields createResource and updateResource read. */
  datatype ResourceBody = ResourceBody(name: Option<string>, kind: Option<string>, description: Option<string>)

  /**
   * createResource: 400 without a Name; otherwise a row with the three given fields is written
   * under the next key and the answer is 201 with it.
   */
  method CreateResource(s: Store, b: ResourceBody) returns (r: Response<(Id, Resource)>)
    modifies s`resources, s`resourceSeq
    requires s.Valid()
    ensures s.Valid()
    ensures !Truthy(b.name) <==> r == Refuse(Error(BadRequest, NAME_REQUIRED))
    ensures r.Refuse? ==> s.resources == old(s.resources)
    ensures r.Reply? ==>
              var row := Resource(b.name, b.kind, b.description);
              r == Reply(Created, (old(s.resourceSeq), row)) && r.body.0 !in old(s.resources)
              && s.resources == old(s.resources)[r.body.0 := row]
    ensures old(s.Linked()) ==> s.Linked()
  {
    if !Truthy(b.name) {
      return Refuse(Error(BadRequest, NAME_REQUIRED));
    }
    var row := Resource(b.name, b.kind, b.description);
    var id := s.InsertResource(row);
    return Reply(Created, (id, row));
  }

  /** `resource.update({ Name, Resource_type, Resource_description })`: an absent field keeps its value. */
  function UpdatedResource(old_: Resource, b: ResourceBody): (v: Resource)
    ensures v.name == Coalesce(b.name, old_.name)
    ensures v.kind == Coalesce(b.kind, old_.kind)
    ensures v.description == Coalesce(b.description, old_.description)
  {
    Resource(if b.name.Some? then b.name else old_.name,
             if b.kind.Some? then b.kind else old_.kind,
             if b.description.Some? then b.description else old_.description)
  }

  /** updateResource: 404 for an unknown resource; otherwise the row becomes UpdatedResource. */
  method UpdateResource(s: Store, resourceId: IdValue, b: ResourceBody) returns (r: Response<Resource>)
    modifies s`resources
    requires s.Valid()
    ensures s.Valid()
    ensures r.Reply? <==> old(Find(s.resources.Keys, resourceId)).Some?
    ensures r.Refuse? ==> r.error == Error(NotFound, RESOURCE_NOT_FOUND) && s.resources == old(s.resources)
    ensures r.Reply? ==>
              var id := ToNumber(resourceId).value;
              var v := UpdatedResource(old(s.resources)[id], b);
              r == Reply(Ok, v) && s.resources == old(s.resources)[id := v]
    ensures old(s.Linked()) ==> s.Linked()
  {
    var k := Find(s.resources.Keys, resourceId);
    if k.None? {
      return Refuse(Error(NotFound, RESOURCE_NOT_FOUND));
    }
    var v := UpdatedResource(s.resources[k.value], b);
    s.UpdateResource(k.value, v);
    return Reply(Ok, v);
  }

  /** An update whose body is empty leaves the row as it was. */
  lemma EmptyUpdateKeepsResource(row: Resource)
    ensures UpdatedResource(row, ResourceBody(None, None, None)) == row
  { }

  /** deleteResource: 404 for an unknown resource, otherwise the row is destroyed. */
  method DeleteResource(s: Store, resourceId: IdValue) returns (r: Response<()>)
    modifies s`resources
    requires s.Valid()
    ensures s.Valid()
    ensures r.Reply? <==> old(Find(s.resources.Keys, resourceId)).Some?
    ensures r.Refuse? ==> r.error == Error(NotFound, RESOURCE_NOT_FOUND) && s.resources == old(s.resources)
    ensures r.Reply? ==> r.status == Ok && s.resources == old(s.resources) - {ToNumber(resourceId).value}
  {
    var k := Find(s.resources.Keys, resourceId);
    if k.None? {
      return Refuse(Error(NotFound, RESOURCE_NOT_FOUND));
    }
    s.DeleteResource(k.value);
    return Reply(Ok, ());
  }

  // ---------------------------------------------------------------------------
  // List and search filters
  // ---------------------------------------------------------------------------

  /** `Resource_type = type`: a NULL type matches nothing. */
  predicate OfKind(row: Resource, kind: string) {
    row.kind == Some(kind)
  }

  /** The WHERE clause of getAllResources: an exact type and a Name LIKE, each only when given. */
  predicate ListMatches(row: Resource, kind: Option<string>, name: Option<string>) {
    (Truthy(kind) ==> OfKind(row, kind.value)) && (Truthy(name) ==> Like(row.name, name.value))
  }

  /** getAllResources over the table's rows: the matching rows, newest key first. */
  function GetAllResources(rows: seq<(Id, Resource)>, kind: Option<string>, name: Option<string>): (r: seq<(Id, Resource)>)
    ensures forall x :: x in r <==> x in rows && ListMatches(x.1, kind, name)
    ensures Ordered(r, (x: (Id, Resource)) => x.0, true)
    ensures !Truthy(kind) && !Truthy(name) ==> multiset(r) == multiset(rows)
  {
    var p := (x: (Id, Resource)) => ListMatches(x.1, kind, name);
    var r := SelectSorted(rows, p, (x: (Id, Resource)) => x.0, true);
    assert !Truthy(kind) && !Truthy(name) ==> forall x :: multiset(r)[x] == multiset(rows)[x];
    r
  }

  /** getResourcesByType: the rows whose type is exactly the one in the path. */
  function GetResourcesByType(rows: seq<(Id, Resource)>, kind: string): (r: seq<(Id, Resource)>)
    ensures forall x :: x in r <==> x in rows && OfKind(x.1, kind)
  {
    Select(rows, (x: (Id, Resource)) => OfKind(x.1, kind))
  }

  /** The WHERE clause of searchResources: `q` in Name or description, and an exact type, each only when given. */
  predicate SearchMatches(row: Resource, q: Option<string>, kind: Option<string>) {
    (Truthy(q) ==> Like(row.name, q.value) || Like(row.description, q.value))
    && (Truthy(kind) ==> OfKind(row, kind.value))
  }

  /** searchResources: 400 with neither `q` nor `type`; otherwise the matching rows in scan order. */
  function SearchResources(rows: seq<(Id, Resource)>, q: Option<string>, kind: Option<string>): (r: Response<seq<(Id, Resource)>>)
    ensures !Truthy(q) && !Truthy(kind) <==> r == Refuse(Error(BadRequest, SEARCH_REQUIRED))
    ensures r.Reply? ==> r.status == Ok
    ensures r.Reply? ==> forall x :: x in r.body <==> x in rows && SearchMatches(x.1, q, kind)
  {
    if !Truthy(q) && !Truthy(kind) then Refuse(Error(BadRequest, SEARCH_REQUIRED))
    else Reply(Ok, Select(rows, (x: (Id, Resource)) => SearchMatches(x.1, q, kind)))
  }

  /** A search by type alone answers exactly what getResourcesByType answers for that type. */
  lemma {:induction false} SearchByKindIsByType(rows: seq<(Id, Resource)>, kind: string)
    requires kind != ""
    ensures SearchResources(rows, None, Some(kind)) == Reply(Ok, GetResourcesByType(rows, kind))
  {
    SameSelect(rows, (x: (Id, Resource)) => SearchMatches(x.1, None, Some(kind)),
               (x: (Id, Resource)) => OfKind(x.1, kind));
  }


  // ---------------------------------------------------------------------------
  // getResourcesByTherapist, getPopularResources
  // ---------------------------------------------------------------------------

  /** getResourcesByTherapist: 404 for an unknown therapist; otherwise the resources they published. */
  function GetResourcesByTherapist(s: Store, therapistId: IdValue): (r: Response<set<Id>>)
    reads s`therapists, s`publish
    ensures r.Reply? <==> Find(s.therapists.Keys, therapistId).Some?
    ensures r.Refuse? ==> r.error == Error(NotFound, THERAPIST_NOT_FOUND)
    ensures r.Reply? ==>
              r.status == Ok && forall x :: x in r.body <==> (ToNumber(therapistId).value, x) in s.publish
  {
    var k := Find(s.therapists.Keys, therapistId);
    if k.None? then Refuse(Error(NotFound, THERAPIST_NOT_FOUND))
    else Reply(Ok, TherapistController.PublishedBy(s.publish, k.value))
  }

  /** The subquery `SELECT COUNT(*) FROM CONSUME WHERE CONSUME.Id_resource = id`. */
  function ConsumptionCount(consume: set<(Id, Id)>, resource: Id): (n: nat)
    ensures n == 0 <==> forall q :: q in consume ==> q.1 != resource
  {
    var consumers := set q | q in consume && q.1 == resource :: q.0;
    assert (exists q :: q in consume && q.1 == resource) ==> consumers != {} by {
      if q :| q in consume && q.1 == resource {
        assert q.0 in consumers;
      }
    }
    |consumers|
  }

  /**
   * getPopularResources: at most ten rows, ordered by consumption count descending, and no
   * row left out was consumed more often than any row kept.
   */
  function GetPopularResources(rows: seq<(Id, Resource)>, consume: set<(Id, Id)>): (r: seq<(Id, Resource)>)
    ensures |r| == if |rows| < POPULAR_LIMIT then |rows| else POPULAR_LIMIT
    ensures multiset(r) <= multiset(rows)
    ensures Ordered(r, (x: (Id, Resource)) => ConsumptionCount(consume, x.0), true)
    ensures forall x, y :: x in rows && x !in r && y in r ==>
              ConsumptionCount(consume, y.0) >= ConsumptionCount(consume, x.0)
  {
    var key := (x: (Id, Resource)) => ConsumptionCount(consume, x.0);
    var sorted := SortBy(rows, key, true);
    var r := Take(sorted, POPULAR_LIMIT);
    assert sorted == r + sorted[|r|..];
    assert multiset(r) <= multiset(rows);
    forall x | x in rows && x !in r
      ensures forall y :: y in r ==> key(y) >= key(x)
    {
      assert x in multiset(sorted);
      TakeKeepsTop(sorted, POPULAR_LIMIT, key, true, x);
    }
    assert Ordered(r, key, true) by {
      forall i, j | 0 <= i < j < |r| ensures Before(r[i], r[j], key, true) {
        assert r[i] == sorted[i] && r[j] == sorted[j];
      }
    }
    r
  }
}
