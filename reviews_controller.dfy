/** The review handlers: list (all, or one bootcamp's), show, create under
    a bootcamp, update and delete. `requester` is `req.user` as the
    authentication middleware left it: undefined, null or an account. */
module ReviewsController {
  import opened Common
  import opened ErrorHandler
  import opened AdvancedResults
  import opened ReviewModel
  import opened BootcampModel
  import opened Store
  import opened Replies

  function NoReview(id: string): string {
    "Não foi possível identificar o Review de ID num: " + id
  }

  /** The update handler writes "review" in lower case. */
  function NoReviewToUpdate(id: string): string {
    "Não foi possível identificar o review de ID num: " + id
  }

  function NoBootcamp(id: string): string {
    "Não foi possível identificar o bootcamp de ID num: " + id
  }

  const NotAuthorized := "Usuário não possui acesso autorizado !"

  function NoReviewAccess(user: Id, review: Id): string {
    "O usuário '" + user + "' não possui acesso ao review '" + review + "'."
  }

  /** `getReviews`: one bootcamp's reviews in stored order with their
      number and no pagination, or the advanced-results envelope. */
  method GetReviews(db: Db, advanced: Envelope<Review>, bootcampId: Option<string>) returns (reply: Reply<Review>)
    ensures reply.Listing? && reply.status == 200
    ensures Present(bootcampId) ==>
      reply.envelope == Envelope(true, |ReviewsOf(db.reviews, bootcampId.value)|, None, ReviewsOf(db.reviews, bootcampId.value))
    ensures Present(bootcampId) ==>
      forall v :: v in reply.envelope.data <==> v in db.reviews && v.bootcamp == bootcampId.value
    ensures !Present(bootcampId) ==> reply.envelope == advanced
  {
    if Present(bootcampId) {
      var reviews := ReviewsOf(db.reviews, bootcampId.value);
      return Listing(200, Envelope(true, |reviews|, None, reviews));
    }
    reply := Listing(200, advanced);
  }

  /** `getReview`: the stored review, or 404. */
  method GetReview(db: Db, id: Id) returns (reply: Reply<Review>)
    ensures RowById(db.reviews, ReviewKey, id).None? ==> reply == ErrorOf(404, NoReview(id))
    ensures RowById(db.reviews, ReviewKey, id).Some? ==>
      reply == Data(200, RowById(db.reviews, ReviewKey, id).value)
    ensures reply.Data? ==> reply.data in db.reviews && reply.data.id == id
  {
    var review := RowById(db.reviews, ReviewKey, id);
    if review.None? {
      FailWithResponse<Review>(NoReview(id), 404);
      return Fail(ErrorResponse(NoReview(id), 404));
    }
    reply := Data(200, review.value);
  }

  /** `addReview`: the route's bootcamp and the requester's id go into the
      body; 404 when the bootcamp does not exist; otherwise the review is
      created (201), which the validators or the unique index can refuse. */
  method AddReview(db: Db, bootcampId: Option<string>, requester: Requester, body: ReviewBody, id: Id, now: int)
    returns (reply: Reply<Review>)
    requires db.Valid() && IndexOfId(db.reviews, ReviewKey, id).None?
    modifies db
    ensures db.Valid()
    ensures db.courses == old(db.courses) && db.costLog == old(db.costLog)
    ensures !requester.Known? ==> reply == ErrorOf(500, ReadUserId(requester).message)
    ensures requester.Known? && (bootcampId.None? || RowById(old(db.bootcamps), BootcampKey, bootcampId.value).None?) ==>
      reply == ErrorOf(404, NoBootcamp(ParamText(bootcampId)))
    ensures requester.Known? && bootcampId.Some? && RowById(old(db.bootcamps), BootcampKey, bootcampId.value).Some? ==>
      var created := NewReview(body.(bootcamp := bootcampId, user := Some(requester.user.id)), id, now);
      (created.Failure? ==> reply == Fail(created.error))
      && (created.Success? && PairTaken(old(db.reviews), bootcampId.value, requester.user.id, None) ==>
            reply == Fail(DuplicateKeyError(PairKey(bootcampId.value, requester.user.id))))
      && (created.Success? && !PairTaken(old(db.reviews), bootcampId.value, requester.user.id, None) ==>
            reply == Data(201, created.value)
            && db.reviews == old(db.reviews) + [created.value]
            && db.bootcamps == AfterAvgReview(old(db.bootcamps), db.reviews, bootcampId.value))
    ensures !reply.Data? ==> db.reviews == old(db.reviews) && db.bootcamps == old(db.bootcamps)
  {
    if !requester.Known? {
      TypeErrorIs500<Review>(ReadUserId(requester).message);
      return Fail(ReadUserId(requester));
    }
    var user := requester.user;
    var bootcamp := if bootcampId.Some? then RowById(db.bootcamps, BootcampKey, bootcampId.value) else None;
    if bootcamp.None? {
      FailWithResponse<Review>(NoBootcamp(ParamText(bootcampId)), 404);
      return Fail(ErrorResponse(NoBootcamp(ParamText(bootcampId)), 404));
    }
    var fields := body.(bootcamp := bootcampId, user := Some(user.id));
    var created := db.CreateReview(fields, id, now);
    if created.Failure? {
      return Fail(created.error);
    }
    reply := Data(201, created.value);
  }

  /** `updateReview`: 404 for an unknown review, 401 for a requester who
      neither wrote it nor is an admin; otherwise the review is updated.
      The bootcamp's average is not recomputed. */
  method UpdateReview(db: Db, id: Id, requester: Requester, body: ReviewBody) returns (reply: Reply<Review>)
    requires db.Valid()
    modifies db
    ensures db.Valid()
    ensures db.bootcamps == old(db.bootcamps) && db.courses == old(db.courses) && db.costLog == old(db.costLog)
    ensures IndexOfId(old(db.reviews), ReviewKey, id).None? ==>
      reply == ErrorOf(404, NoReviewToUpdate(id)) && db.reviews == old(db.reviews)
    ensures IndexOfId(old(db.reviews), ReviewKey, id).Some? ==>
      var k := IndexOfId(old(db.reviews), ReviewKey, id).value;
      var v := old(db.reviews)[k];
      var gate := OwnerCheck(Some(v.user), requester, ErrorResponse(NotAuthorized, 401));
      var patched := PatchReview(v, body);
      (gate.Some? ==> reply == Fail(gate.value) && db.reviews == old(db.reviews))
      && (gate.None? && patched.Failure? ==> reply == Fail(patched.error) && db.reviews == old(db.reviews))
      && (gate.None? && patched.Success? && !PairTaken(old(db.reviews), patched.value.bootcamp, patched.value.user, Some(id)) ==>
            reply == Data(200, patched.value) && db.reviews == old(db.reviews)[k := patched.value])
      && (gate.None? && patched.Success? && PairTaken(old(db.reviews), patched.value.bootcamp, patched.value.user, Some(id)) ==>
            reply == Fail(DuplicateKeyError(PairKey(patched.value.bootcamp, patched.value.user)))
            && db.reviews == old(db.reviews))
  {
    var k := IndexOfId(db.reviews, ReviewKey, id);
    if k.None? {
      FailWithResponse<Review>(NoReviewToUpdate(id), 404);
      return Fail(ErrorResponse(NoReviewToUpdate(id), 404));
    }
    var v := db.reviews[k.value];
    var gate := OwnerCheck(Some(v.user), requester, ErrorResponse(NotAuthorized, 401));
    if gate.Some? {
      return Fail(gate.value);
    }
    var updated := db.UpdateReview(id, body);
    if updated.Failure? {
      return Fail(updated.error);
    }
    reply := Data(200, updated.value.value);
  }

  /** `deleteReview`: 404 for an unknown review or an unauthorized
      requester; otherwise exactly that review is removed and the
      bootcamp's average recomputed over the reviews left. */
  method DeleteReview(db: Db, id: Id, requester: Requester) returns (reply: Reply<Review>)
    requires db.Valid()
    modifies db
    ensures db.Valid()
    ensures db.courses == old(db.courses) && db.costLog == old(db.costLog)
    ensures IndexOfId(old(db.reviews), ReviewKey, id).None? ==>
      reply == ErrorOf(404, NoReview(id)) && db.reviews == old(db.reviews) && db.bootcamps == old(db.bootcamps)
    ensures IndexOfId(old(db.reviews), ReviewKey, id).Some? ==>
      var v := old(db.reviews)[IndexOfId(old(db.reviews), ReviewKey, id).value];
      var gate := OwnerCheck(Some(v.user), requester,
        ErrorResponse(NoReviewAccess(RequesterId(requester), v.id), 404));
      (gate.Some? ==> reply == Fail(gate.value) && db.reviews == old(db.reviews) && db.bootcamps == old(db.bootcamps))
      && (gate.None? ==>
            reply == Done(200)
            && (forall x :: x in db.reviews <==> x in old(db.reviews) && x.id != id)
            && |db.reviews| == |old(db.reviews)| - 1
            && db.reviews == RemoveAt(old(db.reviews), IndexOfId(old(db.reviews), ReviewKey, id).value)
            && db.bootcamps == AfterAvgReview(old(db.bootcamps), db.reviews, v.bootcamp))
  {
    var k := IndexOfId(db.reviews, ReviewKey, id);
    if k.None? {
      FailWithResponse<Review>(NoReview(id), 404);
      return Fail(ErrorResponse(NoReview(id), 404));
    }
    var v := db.reviews[k.value];
    var gate := OwnerCheck(Some(v.user), requester,
      ErrorResponse(NoReviewAccess(RequesterId(requester), v.id), 404));
    if gate.Some? {
      return Fail(gate.value);
    }
    db.RemoveReview(v);
    reply := Done(200);
  }
}
