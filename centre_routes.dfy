/**
 * backend/routes/centreRoutes.js: which centre handler answers which verb and path, and the
 * roles that guard it. Paths are the segments below the router's mount point.
 */
module CentreRoutes {
  import opened JsValues
  import opened Http
  import opened Router

  datatype CentreHandler =
    | SearchCentres | GetAllCentres | GetCentreById
    | GetMyCentreTherapists | AddTherapistToMyCentre | RemoveTherapistFromMyCentre
    | GetMyCentreCourses | PostCourseToMyCentre
    | CreateCentre | UpdateCentre | DeleteCentre
    | GetCentreTherapists | AddTherapistToCentre | RemoveTherapistFromCentre
    | GetCentreCourses | PostCourse

  const OWNERS: seq<string> := [CENTRE, ADMIN]
  const ADMIN_OR_CENTRE: seq<string> := [ADMIN, CENTRE]
  const ADMIN_ONLY: seq<string> := [ADMIN]

  /** The routes in the order the router declares them. */
  const TABLE: seq<Route<CentreHandler>> := [
    Route(GET, [Lit("search")], None, SearchCentres),
    Route(GET, [], None, GetAllCentres),
    Route(GET, [Param("id")], None, GetCentreById),
    Route(GET, [Lit("me"), Lit("therapists")], Some(OWNERS), GetMyCentreTherapists),
    Route(POST, [Lit("me"), Lit("therapists")], Some(OWNERS), AddTherapistToMyCentre),
    Route(DELETE, [Lit("me"), Lit("therapists"), Param("therapistId")], Some(OWNERS), RemoveTherapistFromMyCentre),
    Route(GET, [Lit("me"), Lit("courses")], Some(OWNERS), GetMyCentreCourses),
    Route(POST, [Lit("me"), Lit("courses")], Some(OWNERS), PostCourseToMyCentre),
    Route(POST, [], Some(ADMIN_ONLY), CreateCentre),
    Route(PUT, [Param("id")], Some(ADMIN_OR_CENTRE), UpdateCentre),
    Route(DELETE, [Param("id")], Some(ADMIN_ONLY), DeleteCentre),
    Route(GET, [Param("id"), Lit("therapists")], None, GetCentreTherapists),
    Route(POST, [Param("id"), Lit("therapists")], Some(ADMIN_OR_CENTRE), AddTherapistToCentre),
    Route(DELETE, [Param("id"), Lit("therapists"), Param("therapistId")], Some(ADMIN_OR_CENTRE), RemoveTherapistFromCentre),
    Route(GET, [Param("id"), Lit("courses")], None, GetCentreCourses),
    Route(POST, [Param("id"), Lit("courses")], Some(ADMIN_OR_CENTRE), PostCourse)
  ]

  /** The route that answers a request, if any. */
  function Handle(verb: Verb, path: seq<string>): (r: Option<Route<CentreHandler>>)
    ensures r.Some? ==> r.value in TABLE && Accepts(r.value, verb, path)
    ensures r.None? ==> forall route :: route in TABLE ==> !Accepts(route, verb, path)
  {
    var i := Dispatch(TABLE, verb, path);
    if i.Some? then Some(TABLE[i.value]) else None
  }

  /** The route at index `i` answers `verb` on `path` when no earlier route accepts it. */
  lemma Answers(verb: Verb, path: seq<string>, i: nat)
    requires i < |TABLE| && Accepts(TABLE[i], verb, path)
    requires forall j :: 0 <= j < i ==> !Accepts(TABLE[j], verb, path)
    ensures Handle(verb, path) == Some(TABLE[i])
  {
    DispatchIsFirst(TABLE, verb, path, i);
  }

  /** GET /search is searchCentres, public, and not taken as an id. */
  lemma SearchIsPublic()
    ensures Handle(GET, ["search"]) == Some(TABLE[0]) && TABLE[0].handler == SearchCentres && TABLE[0].roles.None?
  {
    var p := ["search"];
    assert p[0] == "search";
    Answers(GET, p, 0);
  }

  /** GET / lists the centres, public. */
  lemma ListIsPublic()
    ensures Handle(GET, []) == Some(TABLE[1]) && TABLE[1].handler == GetAllCentres && TABLE[1].roles.None?
  {
    var p := [];
    Answers(GET, p, 1);
  }

  /** GET /:id for any id but "search" is getCentreById, public (an id of "me" included). */
  lemma GetByIdIsPublic(id: string)
    requires id != "" && id != "search"
    ensures Handle(GET, [id]) == Some(TABLE[2]) && TABLE[2].handler == GetCentreById && TABLE[2].roles.None?
  {
    var p := [id];
    assert p[0] == id;
    Answers(GET, p, 2);
  }

  /**
   * Every request below /me with at least two segments reaches, if any handler, one guarded by
   * CENTRE or ADMIN: the /me routes are declared before the public `/:id/therapists` and
   * `/:id/courses`, which would otherwise take "me" as an id.
   */
  lemma MeRoutesAreGuarded(verb: Verb, path: seq<string>)
    requires |path| >= 2 && path[0] == "me"
    ensures Handle(verb, path).Some? ==> Handle(verb, path).value.roles == Some(OWNERS)
  {
    var i := Dispatch(TABLE, verb, path);
    if i.Some? && i.value >= 8 {
      assert !Accepts(TABLE[3], verb, path) && !Accepts(TABLE[4], verb, path) && !Accepts(TABLE[5], verb, path);
      assert !Accepts(TABLE[6], verb, path) && !Accepts(TABLE[7], verb, path);
    }
  }

  /** GET /me/therapists is getMyCentreTherapists, for CENTRE or ADMIN. */
  lemma MyTherapistsRoute()
    ensures Handle(GET, ["me", "therapists"]) == Some(TABLE[3]) && TABLE[3].handler == GetMyCentreTherapists && TABLE[3].roles == Some(OWNERS)
  {
    var p := ["me", "therapists"];
    assert p[0] == "me" && p[1] == "therapists";
    Answers(GET, p, 3);
  }

  /** POST /me/therapists is addTherapistToMyCentre, for CENTRE or ADMIN. */
  lemma AddToMyCentreRoute()
    ensures Handle(POST, ["me", "therapists"]) == Some(TABLE[4]) && TABLE[4].handler == AddTherapistToMyCentre && TABLE[4].roles == Some(OWNERS)
  {
    var p := ["me", "therapists"];
    assert p[0] == "me" && p[1] == "therapists";
    Answers(POST, p, 4);
  }

  /** DELETE /me/therapists/:therapistId is removeTherapistFromMyCentre, for CENTRE or ADMIN. */
  lemma RemoveFromMyCentreRoute(therapistId: string)
    requires therapistId != ""
    ensures Handle(DELETE, ["me", "therapists", therapistId]) == Some(TABLE[5]) && TABLE[5].handler == RemoveTherapistFromMyCentre && TABLE[5].roles == Some(OWNERS)
  {
    var p := ["me", "therapists", therapistId];
    assert p[0] == "me" && p[1] == "therapists" && p[2] == therapistId;
    Answers(DELETE, p, 5);
  }

  /** GET /me/courses is getMyCentreCourses, for CENTRE or ADMIN. */
  lemma MyCoursesRoute()
    ensures Handle(GET, ["me", "courses"]) == Some(TABLE[6]) && TABLE[6].handler == GetMyCentreCourses && TABLE[6].roles == Some(OWNERS)
  {
    var p := ["me", "courses"];
    assert p[0] == "me" && p[1] == "courses";
    Answers(GET, p, 6);
  }

  /** POST /me/courses is postCourseToMyCentre, for CENTRE or ADMIN. */
  lemma PostToMyCentreRoute()
    ensures Handle(POST, ["me", "courses"]) == Some(TABLE[7]) && TABLE[7].handler == PostCourseToMyCentre && TABLE[7].roles == Some(OWNERS)
  {
    var p := ["me", "courses"];
    assert p[0] == "me" && p[1] == "courses";
    Answers(POST, p, 7);
  }

  /** POST / creates a centre, for ADMIN only. */
  lemma CreateIsAdminOnly()
    ensures Handle(POST, []) == Some(TABLE[8]) && TABLE[8].handler == CreateCentre && TABLE[8].roles == Some(ADMIN_ONLY)
  {
    var p := [];
    Answers(POST, p, 8);
  }

  /** PUT /:id updates a centre, for ADMIN or CENTRE. */
  lemma UpdateRoute(id: string)
    requires id != ""
    ensures Handle(PUT, [id]) == Some(TABLE[9]) && TABLE[9].handler == UpdateCentre && TABLE[9].roles == Some(ADMIN_OR_CENTRE)
  {
    var p := [id];
    assert p[0] == id;
    Answers(PUT, p, 9);
  }

  /** DELETE /:id deletes a centre, for ADMIN only. */
  lemma DeleteIsAdminOnly(id: string)
    requires id != ""
    ensures Handle(DELETE, [id]) == Some(TABLE[10]) && TABLE[10].handler == DeleteCentre && TABLE[10].roles == Some(ADMIN_ONLY)
  {
    var p := [id];
    assert p[0] == id;
    Answers(DELETE, p, 10);
  }

  /** GET /:id/therapists, for an id other than "me", lists a centre's therapists publicly. */
  lemma TherapistsArePublic(id: string)
    requires id != "" && id != "me"
    ensures Handle(GET, [id, "therapists"]) == Some(TABLE[11]) && TABLE[11].handler == GetCentreTherapists && TABLE[11].roles.None?
  {
    var p := [id, "therapists"];
    assert p[0] == id && p[1] == "therapists";
    Answers(GET, p, 11);
  }

  /** POST /:id/therapists, for an id other than "me", adds a therapist, for ADMIN or CENTRE. */
  lemma AddTherapistRoute(id: string)
    requires id != "" && id != "me"
    ensures Handle(POST, [id, "therapists"]) == Some(TABLE[12]) && TABLE[12].handler == AddTherapistToCentre && TABLE[12].roles == Some(ADMIN_OR_CENTRE)
  {
    var p := [id, "therapists"];
    assert p[0] == id && p[1] == "therapists";
    Answers(POST, p, 12);
  }

  /** DELETE /:id/therapists/:therapistId, for an id other than "me", removes a therapist, for ADMIN or CENTRE. */
  lemma RemoveTherapistRoute(id: string, therapistId: string)
    requires id != "" && id != "me" && therapistId != ""
    ensures Handle(DELETE, [id, "therapists", therapistId]) == Some(TABLE[13]) && TABLE[13].handler == RemoveTherapistFromCentre && TABLE[13].roles == Some(ADMIN_OR_CENTRE)
  {
    var p := [id, "therapists", therapistId];
    assert p[0] == id && p[1] == "therapists" && p[2] == therapistId;
    Answers(DELETE, p, 13);
  }

  /** GET /:id/courses, for an id other than "me", lists a centre's courses publicly. */
  lemma CoursesArePublic(id: string)
    requires id != "" && id != "me"
    ensures Handle(GET, [id, "courses"]) == Some(TABLE[14]) && TABLE[14].handler == GetCentreCourses && TABLE[14].roles.None?
  {
    var p := [id, "courses"];
    assert p[0] == id && p[1] == "courses";
    Answers(GET, p, 14);
  }

  /** POST /:id/courses, for an id other than "me", posts a course, for ADMIN or CENTRE. */
  lemma PostCourseRoute(id: string)
    requires id != "" && id != "me"
    ensures Handle(POST, [id, "courses"]) == Some(TABLE[15]) && TABLE[15].handler == PostCourse && TABLE[15].roles == Some(ADMIN_OR_CENTRE)
  {
    var p := [id, "courses"];
    assert p[0] == id && p[1] == "courses";
    Answers(POST, p, 15);
  }

  /** Every route that writes (POST, PUT, DELETE) is guarded, and ADMIN passes every guard. */
  lemma WritesAreGuarded(verb: Verb, path: seq<string>)
    requires verb != GET && Handle(verb, path).Some?
    ensures Handle(verb, path).value.roles.Some? && ADMIN in Handle(verb, path).value.roles.value
  {
  }
}
