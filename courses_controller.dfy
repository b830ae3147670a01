/** The course handlers: list, show, create under a bootcamp, update and
    delete, each over the store. `requester` is `req.user` as the
    authentication middleware left it: undefined, null or an account. */
module CoursesController {
  import opened Common
  import opened ErrorHandler
  import opened AdvancedResults
  import opened CourseModel
  import opened BootcampModel
  import opened Store
  import opened Replies

  function NoCourse(id: string): string {
    "Não foi possível identificar o Curso de ID num: " + id
  }

  function NoBootcamp(id: string): string {
    "Não foi possível identificar o Bootcamp de ID num: " + id
  }

  function NoCourseAccess(user: Id, course: Id): string {
    "O usuário '" + user + "' não possui acesso ao curso '" + course + "'."
  }

  function NoBootcampAccess(user: Id, bootcamp: Id): string {
    "O usuário '" + user + "' não possui acesso aos cursos do bootcamp '" + bootcamp + "'."
  }

  /** `getCourses`: the advanced-results envelope, without its pagination
      when the request is for one bootcamp's courses. */
  method GetCourses(advanced: Envelope<Course>, bootcampId: Option<string>) returns (reply: Reply<Course>)
    ensures reply.Listing? && reply.status == 200
    ensures Present(bootcampId) ==> reply.envelope == advanced.(pagination := None)
    ensures !Present(bootcampId) ==> reply.envelope == advanced
    ensures reply.envelope.data == advanced.data && reply.envelope.count == advanced.count
  {
    var envelope := advanced;
    if Present(bootcampId) {
      envelope := envelope.(pagination := None);
    }
    reply := Listing(200, envelope);
  }

  /** `getCourse`: the stored course, or 404. */
  method GetCourse(db: Db, id: Id) returns (reply: Reply<Course>)
    ensures RowById(db.courses, CourseKey, id).None? ==> reply == ErrorOf(404, NoCourse(id))
    ensures RowById(db.courses, CourseKey, id).Some? ==>
      reply == Data(200, RowById(db.courses, CourseKey, id).value)
    ensures reply.Data? ==> reply.data in db.courses && reply.data.id == id
  {
    var course := RowById(db.courses, CourseKey, id);
    if course.None? {
      FailWithResponse<Course>(NoCourse(id), 404);
      return Fail(ErrorResponse(NoCourse(id), 404));
    }
    reply := Data(200, course.value);
  }

  /** `addCourse`: the route's bootcamp and the requester's id go into the
      body; the bootcamp must exist and belong to the requester (or the
      requester be an admin); then the course is created. */
  method AddCourse(db: Db, bootcampId: Option<string>, requester: Requester, body: CourseBody, id: Id, now: int)
    returns (reply: Reply<Course>)
    requires db.Valid() && IndexOfId(db.courses, CourseKey, id).None?
    modifies db
    ensures db.Valid()
    ensures db.bootcamps == old(db.bootcamps) && db.reviews == old(db.reviews)
    ensures !requester.Known? ==> reply == ErrorOf(500, ReadUserId(requester).message)
    ensures requester.Known? && (bootcampId.None? || RowById(db.bootcamps, BootcampKey, bootcampId.value).None?) ==>
      reply == ErrorOf(404, NoBootcamp(ParamText(bootcampId)))
    ensures requester.Known? && bootcampId.Some? && RowById(old(db.bootcamps), BootcampKey, bootcampId.value).Some? ==>
      var b := RowById(old(db.bootcamps), BootcampKey, bootcampId.value).value;
      var gate := OwnerCheck(b.user, requester, ErrorResponse(NoBootcampAccess(requester.user.id, b.id), 404));
      var created := NewCourse(body.(bootcamp := bootcampId, user := Some(requester.user.id)), id, now);
      (gate.Some? ==> reply == Fail(gate.value))
      && (gate.None? && created.Failure? ==> reply == Fail(created.error))
      && (gate.None? && created.Success? ==>
            reply == Data(200, created.value) && db.courses == old(db.courses) + [created.value]
            && db.costLog == old(db.costLog) + [AverageCost(db.courses, created.value.bootcamp)])
    ensures !reply.Data? ==> db.courses == old(db.courses) && db.costLog == old(db.costLog)
  {
    if !requester.Known? {
      TypeErrorIs500<Course>(ReadUserId(requester).message);
      return Fail(ReadUserId(requester));
    }
    var user := requester.user;
    var fields := body.(bootcamp := bootcampId, user := Some(user.id));
    var bootcamp := if bootcampId.Some? then RowById(db.bootcamps, BootcampKey, bootcampId.value) else None;
    if bootcamp.None? {
      FailWithResponse<Course>(NoBootcamp(ParamText(bootcampId)), 404);
      return Fail(ErrorResponse(NoBootcamp(ParamText(bootcampId)), 404));
    }
    var b := bootcamp.value;
    var gate := OwnerCheck(b.user, requester, ErrorResponse(NoBootcampAccess(user.id, b.id), 404));
    if gate.Some? {
      return Fail(gate.value);
    }
    var created := db.CreateCourse(fields, id, now);
    if created.Failure? {
      return Fail(created.error);
    }
    reply := Data(200, created.value);
  }

  /** `updateCourse`: 404 for an unknown course or a requester who neither
      owns it nor is an admin; otherwise the stored course is replaced by
      the updated one. */
  method UpdateCourse(db: Db, id: Id, requester: Requester, body: CourseBody) returns (reply: Reply<Course>)
    requires db.Valid()
    modifies db
    ensures db.Valid()
    ensures db.bootcamps == old(db.bootcamps) && db.reviews == old(db.reviews) && db.costLog == old(db.costLog)
    ensures IndexOfId(old(db.courses), CourseKey, id).None? ==>
      reply == ErrorOf(404, NoCourse(id)) && db.courses == old(db.courses)
    ensures IndexOfId(old(db.courses), CourseKey, id).Some? ==>
      var k := IndexOfId(old(db.courses), CourseKey, id).value;
      var c := old(db.courses)[k];
      var gate := OwnerCheck(c.user, requester,
        ErrorResponse(NoCourseAccess(RequesterId(requester), c.id), 404));
      var patched := PatchCourse(c, body);
      (gate.Some? ==> reply == Fail(gate.value) && db.courses == old(db.courses))
      && (gate.None? && patched.Failure? ==> reply == Fail(patched.error) && db.courses == old(db.courses))
      && (gate.None? && patched.Success? ==>
            reply == Data(200, patched.value) && db.courses == old(db.courses)[k := patched.value])
  {
    var k := IndexOfId(db.courses, CourseKey, id);
    if k.None? {
      FailWithResponse<Course>(NoCourse(id), 404);
      return Fail(ErrorResponse(NoCourse(id), 404));
    }
    var c := db.courses[k.value];
    var gate := OwnerCheck(c.user, requester,
      ErrorResponse(NoCourseAccess(RequesterId(requester), c.id), 404));
    if gate.Some? {
      return Fail(gate.value);
    }
    var updated := db.UpdateCourse(id, body);
    if updated.Failure? {
      return Fail(updated.error);
    }
    reply := Data(200, updated.value.value);
  }

  /** `deleteCourse`: 404 for an unknown course or an unauthorized
      requester; otherwise exactly that course is removed and the reply is
      `{success: true}`. */
  method DeleteCourse(db: Db, id: Id, requester: Requester) returns (reply: Reply<Course>)
    requires db.Valid()
    modifies db
    ensures db.Valid()
    ensures db.bootcamps == old(db.bootcamps) && db.reviews == old(db.reviews)
    ensures IndexOfId(old(db.courses), CourseKey, id).None? ==>
      reply == ErrorOf(404, NoCourse(id)) && db.courses == old(db.courses) && db.costLog == old(db.costLog)
    ensures IndexOfId(old(db.courses), CourseKey, id).Some? ==>
      var c := old(db.courses)[IndexOfId(old(db.courses), CourseKey, id).value];
      var gate := OwnerCheck(c.user, requester,
        ErrorResponse(NoCourseAccess(RequesterId(requester), c.id), 404));
      (gate.Some? ==> reply == Fail(gate.value) && db.courses == old(db.courses) && db.costLog == old(db.costLog))
      && (gate.None? ==>
            reply == Done(200)
            && (forall x :: x in db.courses <==> x in old(db.courses) && x.id != id)
            && |db.courses| == |old(db.courses)| - 1
            && db.courses == RemoveAt(old(db.courses), IndexOfId(old(db.courses), CourseKey, id).value)
            && db.costLog == old(db.costLog) + [AverageCost(old(db.courses), c.bootcamp)])
  {
    var k := IndexOfId(db.courses, CourseKey, id);
    if k.None? {
      FailWithResponse<Course>(NoCourse(id), 404);
      return Fail(ErrorResponse(NoCourse(id), 404));
    }
    var c := db.courses[k.value];
    var gate := OwnerCheck(c.user, requester,
      ErrorResponse(NoCourseAccess(RequesterId(requester), c.id), 404));
    if gate.Some? {
      return Fail(gate.value);
    }
    db.RemoveCourse(c);
    reply := Done(200);
  }
}
