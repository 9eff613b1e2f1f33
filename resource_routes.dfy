/**
 * backend/routes/resourceRoutes.js: which resource handler answers which verb and path, and
 * the roles that guard it. The fixed one-segment paths are declared before `/:id`, so they
 * are never read as resource ids.
 */
module ResourceRoutes {
  import opened JsValues
  import opened Http
  import opened Router

  datatype ResourceHandler =
    | GetMyResources | GetPatientFeed
    | SearchResources | GetPopularResources | GetResourcesStats
    | GetResourcesByType | GetResourcesByTherapist
    | GetAllResources | CreateResource
    | GetResourceConsumers | GetResourcePublishers
    | GetResourceById | UpdateResource | DeleteResource

  const THERAPIST_ONLY: seq<string> := [THERAPIST]
  const PATIENT_ONLY: seq<string> := [PATIENT]
  const ADMIN_ONLY: seq<string> := [ADMIN]
  const AUTHORS: seq<string> := [ADMIN, THERAPIST]

  /** The one-segment paths declared before `/:id`. */
  const FIXED: seq<string> := ["mine", "feed", "search", "popular", "stats"]

  /** The routes in the order the router declares them. */
  const TABLE: seq<Route<ResourceHandler>> := [
    Route(GET, [Lit("mine")], Some(THERAPIST_ONLY), GetMyResources),
    Route(GET, [Lit("feed")], Some(PATIENT_ONLY), GetPatientFeed),
    Route(GET, [Lit("search")], None, SearchResources),
    Route(GET, [Lit("popular")], None, GetPopularResources),
    Route(GET, [Lit("stats")], Some(ADMIN_ONLY), GetResourcesStats),
    Route(GET, [Lit("by-type"), Param("type")], None, GetResourcesByType),
    Route(GET, [Lit("by-therapist"), Param("therapistId")], None, GetResourcesByTherapist),
    Route(GET, [], None, GetAllResources),
    Route(POST, [], Some(AUTHORS), CreateResource),
    Route(GET, [Param("id"), Lit("consumers")], Some(AUTHORS), GetResourceConsumers),
    Route(GET, [Param("id"), Lit("publishers")], None, GetResourcePublishers),
    Route(GET, [Param("id")], None, GetResourceById),
    Route(PUT, [Param("id")], Some(AUTHORS), UpdateResource),
    Route(DELETE, [Param("id")], Some(AUTHORS), DeleteResource)
  ]

  /** The route that answers a request, if any. */
  function Handle(verb: Verb, path: seq<string>): (r: Option<Route<ResourceHandler>>)
    ensures r.Some? ==> r.value in TABLE && Accepts(r.value, verb, path)
    ensures r.None? ==> forall route :: route in TABLE ==> !Accepts(route, verb, path)
  {
    var i := Dispatch(TABLE, verb, path);
    if i.Some? then Some(TABLE[i.value]) else None
  }

  /** The route at index `i` answers `verb` on `path` when no earlier route accepts it. */
  lemma Answers(verb: Verb, path: seq<string>, i: nat)
    requires i < |TABLE| && Accepts(TABLE[i], verb, path)
    requires forall j :: 0 <= j < i ==> !Accepts(TABLE[j], verb, path)
    ensures Handle(verb, path) == Some(TABLE[i])
  {
    DispatchIsFirst(TABLE, verb, path, i);
  }

  /** GET /mine is getMyResources, for THERAPIST only. */
  lemma MineRoute()
    ensures Handle(GET, ["mine"]) == Some(TABLE[0]) && TABLE[0].handler == GetMyResources && TABLE[0].roles == Some(THERAPIST_ONLY)
  {
    var p := ["mine"];
    assert p[0] == "mine";
    Answers(GET, p, 0);
  }

  /** GET /feed is getPatientFeed, for PATIENT only. */
  lemma FeedRoute()
    ensures Handle(GET, ["feed"]) == Some(TABLE[1]) && TABLE[1].handler == GetPatientFeed && TABLE[1].roles == Some(PATIENT_ONLY)
  {
    var p := ["feed"];
    assert p[0] == "feed";
    Answers(GET, p, 1);
  }

  /** GET /search is searchResources, public. */
  lemma SearchIsPublic()
    ensures Handle(GET, ["search"]) == Some(TABLE[2]) && TABLE[2].handler == SearchResources && TABLE[2].roles.None?
  {
    var p := ["search"];
    assert p[0] == "search";
    Answers(GET, p, 2);
  }

  /** GET /popular is getPopularResources, public. */
  lemma PopularIsPublic()
    ensures Handle(GET, ["popular"]) == Some(TABLE[3]) && TABLE[3].handler == GetPopularResources && TABLE[3].roles.None?
  {
    var p := ["popular"];
    assert p[0] == "popular";
    Answers(GET, p, 3);
  }

  /** GET /stats is getResourcesStats, for ADMIN only. */
  lemma StatsIsAdminOnly()
    ensures Handle(GET, ["stats"]) == Some(TABLE[4]) && TABLE[4].handler == GetResourcesStats && TABLE[4].roles == Some(ADMIN_ONLY)
  {
    var p := ["stats"];
    assert p[0] == "stats";
    Answers(GET, p, 4);
  }

  /** GET /by-type/:type is getResourcesByType, public. */
  lemma ByTypeIsPublic(kind: string)
    requires kind != ""
    ensures Handle(GET, ["by-type", kind]) == Some(TABLE[5]) && TABLE[5].handler == GetResourcesByType && TABLE[5].roles.None?
  {
    var p := ["by-type", kind];
    assert p[0] == "by-type" && p[1] == kind;
    Answers(GET, p, 5);
  }

  /** GET /by-therapist/:therapistId is getResourcesByTherapist, public. */
  lemma ByTherapistIsPublic(therapistId: string)
    requires therapistId != ""
    ensures Handle(GET, ["by-therapist", therapistId]) == Some(TABLE[6]) && TABLE[6].handler == GetResourcesByTherapist && TABLE[6].roles.None?
  {
    var p := ["by-therapist", therapistId];
    assert p[0] == "by-therapist" && p[1] == therapistId;
    Answers(GET, p, 6);
  }

  /** GET / lists the resources, public. */
  lemma ListIsPublic()
    ensures Handle(GET, []) == Some(TABLE[7]) && TABLE[7].handler == GetAllResources && TABLE[7].roles.None?
  {
    var p := [];
    Answers(GET, p, 7);
  }

  /** POST / creates a resource, for ADMIN or THERAPIST. */
  lemma CreateRoute()
    ensures Handle(POST, []) == Some(TABLE[8]) && TABLE[8].handler == CreateResource && TABLE[8].roles == Some(AUTHORS)
  {
    var p := [];
    Answers(POST, p, 8);
  }

  /** GET /:id/consumers, for an id other than "by-type" and "by-therapist", lists consumers, for ADMIN or THERAPIST. */
  lemma ConsumersRoute(id: string)
    requires id != "" && id != "by-type" && id != "by-therapist"
    ensures Handle(GET, [id, "consumers"]) == Some(TABLE[9]) && TABLE[9].handler == GetResourceConsumers && TABLE[9].roles == Some(AUTHORS)
  {
    var p := [id, "consumers"];
    assert p[0] == id && p[1] == "consumers";
    Answers(GET, p, 9);
  }

  /** GET /:id/publishers, for an id other than "by-type" and "by-therapist", lists publishers publicly. */
  lemma PublishersArePublic(id: string)
    requires id != "" && id != "by-type" && id != "by-therapist"
    ensures Handle(GET, [id, "publishers"]) == Some(TABLE[10]) && TABLE[10].handler == GetResourcePublishers && TABLE[10].roles.None?
  {
    var p := [id, "publishers"];
    assert p[0] == id && p[1] == "publishers";
    Answers(GET, p, 10);
  }

  /** GET /:id, for an id that is not one of the fixed paths, is getResourceById, public. */
  lemma GetByIdIsPublic(id: string)
    requires id != "" && id !in FIXED
    ensures Handle(GET, [id]) == Some(TABLE[11]) && TABLE[11].handler == GetResourceById && TABLE[11].roles.None?
  {
    var p := [id];
    assert p[0] == id;
    Answers(GET, p, 11);
  }

  /** PUT /:id updates a resource, for ADMIN or THERAPIST. */
  lemma UpdateRoute(id: string)
    requires id != ""
    ensures Handle(PUT, [id]) == Some(TABLE[12]) && TABLE[12].handler == UpdateResource && TABLE[12].roles == Some(AUTHORS)
  {
    var p := [id];
    assert p[0] == id;
    Answers(PUT, p, 12);
  }

  /** DELETE /:id deletes a resource, for ADMIN or THERAPIST. */
  lemma DeleteRoute(id: string)
    requires id != ""
    ensures Handle(DELETE, [id]) == Some(TABLE[13]) && TABLE[13].handler == DeleteResource && TABLE[13].roles == Some(AUTHORS)
  {
    var p := [id];
    assert p[0] == id;
    Answers(DELETE, p, 13);
  }

  /** No fixed one-segment path ever reaches getResourceById: each has its own handler. */
  lemma FixedPathsAreNotIds(segment: string)
    requires segment in FIXED
    ensures Handle(GET, [segment]).Some? && Handle(GET, [segment]).value.handler != GetResourceById
  {
    assert segment == FIXED[0] || segment == FIXED[1] || segment == FIXED[2] || segment == FIXED[3] || segment == FIXED[4];
    if segment == "mine" { MineRoute(); }
    else if segment == "feed" { FeedRoute(); }
    else if segment == "search" { SearchIsPublic(); }
    else if segment == "popular" { PopularIsPublic(); }
    else { StatsIsAdminOnly(); }
  }

  /** Every route that writes (POST, PUT, DELETE) needs ADMIN or THERAPIST. */
  lemma WritesNeedAuthors(verb: Verb, path: seq<string>)
    requires verb != GET && Handle(verb, path).Some?
    ensures Handle(verb, path).value.roles == Some(AUTHORS)
  {
  }
}
