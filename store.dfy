/** The document store as the handlers use it: three tables in natural
    order, the model hooks that run on save and remove, and the unique
    indexes (`_id` on every table, `name` on bootcamps, (bootcamp, user)
    on reviews). */
module Store {
  import opened Common
  import opened ErrorHandler
  import opened Aggregate
  import opened CourseModel
  import opened ReviewModel
  import opened BootcampModel

  function BootcampKey(b: Bootcamp): Id { b.id }
  function CourseKey(c: Course): Id { c.id }
  function ReviewKey(r: Review): Id { r.id }

  predicate DistinctNames(bs: seq<Bootcamp>) {
    forall i, j :: 0 <= i < j < |bs| ==> bs[i].name != bs[j].name
  }

  predicate NameTaken(bs: seq<Bootcamp>, name: string) {
    exists k :: 0 <= k < |bs| && bs[k].name == name
  }

  /** Appending a bootcamp whose name is free keeps the names distinct. */
  lemma AppendKeepsNames(bs: seq<Bootcamp>, b: Bootcamp)
    requires DistinctNames(bs) && !NameTaken(bs, b.name)
    ensures DistinctNames(bs + [b])
  {
    var r := bs + [b];
    forall i, j | 0 <= i < j < |r| ensures r[i].name != r[j].name {
      assert r[i] == bs[i];
    }
  }

  /** `findByIdAndUpdate(bootcampId, {averageRating})`: the one field of the
      bootcamp with that id is set; every other row and field is as before. */
  function SetRating(bs: seq<Bootcamp>, bootcamp: Id, rating: int): (r: seq<Bootcamp>)
    ensures |r| == |bs|
    ensures forall k :: 0 <= k < |bs| ==>
      r[k] == if bs[k].id == bootcamp then bs[k].(averageRating := Some(rating)) else bs[k]
  {
    if |bs| == 0 then []
    else
      [if bs[0].id == bootcamp then bs[0].(averageRating := Some(rating)) else bs[0]]
      + SetRating(bs[1..], bootcamp, rating)
  }

  /** The bootcamp table after `getAvgReview(bootcamp)` over the reviews
      `rs`: unchanged when the bootcamp has no reviews (the failed read
      of the empty aggregate is caught and only logged). */
  function AfterAvgReview(bs: seq<Bootcamp>, rs: seq<Review>, bootcamp: Id): (r: seq<Bootcamp>)
    ensures ReviewsOf(rs, bootcamp) == [] ==> r == bs
    ensures AverageRating(rs, bootcamp).Some? ==> r == SetRating(bs, bootcamp, AverageRating(rs, bootcamp).value)
  {
    match AverageRating(rs, bootcamp)
    case None => bs
    case Some(avg) => SetRating(bs, bootcamp, avg)
  }

  /** Setting the rating keeps ids and names, hence both indexes. */
  lemma SetRatingKeepsKeys(bs: seq<Bootcamp>, bootcamp: Id, rating: int)
    requires DistinctIds(bs, BootcampKey) && DistinctNames(bs)
    ensures DistinctIds(SetRating(bs, bootcamp, rating), BootcampKey)
    ensures DistinctNames(SetRating(bs, bootcamp, rating))
  {
    var r := SetRating(bs, bootcamp, rating);
    forall k | 0 <= k < |r| ensures r[k].id == bs[k].id && r[k].name == bs[k].name {
    }
  }

  /** The recomputed rating stays within the bootcamp's rating bounds, so
      a valid bootcamp stays valid. */
  lemma AfterAvgReviewKeepsValid(bs: seq<Bootcamp>, rs: seq<Review>, bootcamp: Id, m: Matchers)
    requires forall b :: b in bs ==> BootcampValid(b, m)
    requires forall v :: v in rs ==> ReviewValid(v)
    ensures forall b :: b in AfterAvgReview(bs, rs, bootcamp) ==> BootcampValid(b, m)
  {
    if AverageRating(rs, bootcamp).Some? {
      AverageRatingInRange(rs, bootcamp);
      var r := AfterAvgReview(bs, rs, bootcamp);
      forall b | b in r ensures BootcampValid(b, m) {
        var k :| 0 <= k < |r| && r[k] == b;
        assert bs[k] in bs;
      }
    }
  }

  /** What saving a validated bootcamp gives: the validation error, the
      hook's TypeError on an empty geocoder answer, a duplicate-name error
      from the unique index, or the saved document. */
  function SaveOutcome(bs: seq<Bootcamp>, validated: Result<Bootcamp, Err>, slugify: string -> string,
                       geocode: Option<string> -> seq<GeoEntry>): (r: Result<Bootcamp, Err>)
    ensures validated.Failure? ==> r == validated
    ensures validated.Success? && geocode(validated.value.address) == [] ==> r == Failure(NoGeoResult)
    ensures r.Success? ==>
      validated.Success? && geocode(validated.value.address) != []
      && r.value == Saved(validated.value, slugify, geocode(validated.value.address)[0])
      && !NameTaken(bs, r.value.name)
    ensures validated.Success? && geocode(validated.value.address) != [] && NameTaken(bs, validated.value.name) ==>
      r == Failure(DuplicateKeyError(map["name" := validated.value.name]))
  {
    match validated
    case Failure(e) => Failure(e)
    case Success(v) =>
      var answer := geocode(v.address);
      if answer == [] then Failure(NoGeoResult)
      else
        var saved := Saved(v, slugify, answer[0]);
        if NameTaken(bs, saved.name) then Failure(DuplicateKeyError(map["name" := saved.name]))
        else Success(saved)
  }

  class Db {
    var bootcamps: seq<Bootcamp>
    var courses: seq<Course>
    var reviews: seq<Review>
    /** What `getAvgCost` printed, oldest first: the mean tuition of a
        bootcamp's courses, or an empty result. */
    var costLog: seq<Option<Mean>>

    /** The unique indexes of the three tables. */
    ghost predicate Valid()
      reads this
    {
      DistinctIds(bootcamps, BootcampKey) && DistinctNames(bootcamps)
      && DistinctIds(courses, CourseKey)
      && DistinctIds(reviews, ReviewKey) && UniquePairs(reviews)
    }

    constructor ()
      ensures Valid()
      ensures bootcamps == [] && courses == [] && reviews == [] && costLog == []
    {
      bootcamps, courses, reviews, costLog := [], [], [], [];
    }

    /** `Bootcamp.create(body)`: validation, then the pre-save hooks and
        the insert. */
    method CreateBootcamp(body: BootcampBody, m: Matchers, slugify: string -> string,
                          geocode: Option<string> -> seq<GeoEntry>, id: Id, now: int)
      returns (r: Result<Bootcamp, Err>)
      requires Valid() && IndexOfId(bootcamps, BootcampKey, id).None?
      modifies this
      ensures Valid()
      ensures courses == old(courses) && reviews == old(reviews) && costLog == old(costLog)
      ensures r.Failure? ==> bootcamps == old(bootcamps)
      ensures r.Success? ==> bootcamps == old(bootcamps) + [r.value] && BootcampValid(r.value, m)
      ensures r == SaveOutcome(old(bootcamps), NewBootcamp(body, m, id, now), slugify, geocode)
    {
      var validated := NewBootcamp(body, m, id, now);
      if validated.Failure? {
        return Failure(validated.error);
      }
      r := SaveBootcamp(validated.value, m, slugify, geocode);
    }

    /** The save of a validated bootcamp: the pre-save hooks, then the
        insert, which the unique name index can refuse. */
    method SaveBootcamp(v: Bootcamp, m: Matchers, slugify: string -> string,
                        geocode: Option<string> -> seq<GeoEntry>)
      returns (r: Result<Bootcamp, Err>)
      requires Valid() && IndexOfId(bootcamps, BootcampKey, v.id).None? && BootcampValid(v, m)
      modifies this
      ensures Valid()
      ensures courses == old(courses) && reviews == old(reviews) && costLog == old(costLog)
      ensures r.Failure? ==> bootcamps == old(bootcamps)
      ensures r.Success? ==> bootcamps == old(bootcamps) + [r.value] && BootcampValid(r.value, m)
      ensures r == SaveOutcome(old(bootcamps), Success(v), slugify, geocode)
    {
      var doc := new BootcampDocument(v);
      var err := doc.PreSave(slugify, geocode);
      if err.Some? {
        assert geocode(v.address) == [];
        return Failure(err.value);
      }
      var b := doc.record;
      assert b == Saved(v, slugify, geocode(v.address)[0]);
      SavedKeepsValid(v, m, slugify, geocode(v.address)[0]);
      if NameTaken(bootcamps, b.name) {
        return Failure(DuplicateKeyError(map["name" := b.name]));
      }
      AppendKeepsDistinct(bootcamps, BootcampKey, b);
      AppendKeepsNames(bootcamps, b);
      bootcamps := bootcamps + [b];
      r := Success(b);
    }

    /** `bootcamp.remove()`: the pre-remove hook deletes the bootcamp's
        courses first; its reviews are left in place. */
    method RemoveBootcamp(b: Bootcamp)
      requires Valid() && b in bootcamps
      modifies this
      ensures Valid()
      ensures forall x :: x in bootcamps <==> x in old(bootcamps) && x.id != b.id
      ensures IndexOfId(old(bootcamps), BootcampKey, b.id).Some?
      ensures bootcamps == RemoveAt(old(bootcamps), IndexOfId(old(bootcamps), BootcampKey, b.id).value)
      ensures courses == CascadeDelete(old(courses), b.id)
      ensures reviews == old(reviews) && costLog == old(costLog)
    {
      var cs := CascadeDelete(courses, b.id);
      CascadeDeleteKeepsDistinct(courses, b.id);
      courses := cs;
      var k := IndexOfId(bootcamps, BootcampKey, b.id).value;
      RemoveAtKeepsDistinct(bootcamps, BootcampKey, k);
      bootcamps := RemoveAt(bootcamps, k);
    }

    /** `Course.create(body)`: validation, then the insert and its
        post-save hook. Bootcamps are not written. */
    method CreateCourse(body: CourseBody, id: Id, now: int) returns (r: Result<Course, Err>)
      requires Valid() && IndexOfId(courses, CourseKey, id).None?
      modifies this
      ensures Valid()
      ensures r == NewCourse(body, id, now)
      ensures bootcamps == old(bootcamps) && reviews == old(reviews)
      ensures r.Failure? ==> courses == old(courses) && costLog == old(costLog)
      ensures r.Success? ==>
        courses == old(courses) + [r.value]
        && costLog == old(costLog) + [AverageCost(courses, r.value.bootcamp)]
    {
      r := NewCourse(body, id, now);
      if r.Success? {
        SaveCourse(r.value);
      }
    }

    /** The insert of a validated course; the post-save hook logs the
        bootcamp's mean tuition, the new course included. */
    method SaveCourse(c: Course)
      requires Valid() && IndexOfId(courses, CourseKey, c.id).None?
      modifies this
      ensures Valid()
      ensures bootcamps == old(bootcamps) && reviews == old(reviews)
      ensures courses == old(courses) + [c]
      ensures costLog == old(costLog) + [AverageCost(courses, c.bootcamp)]
    {
      var cs := courses + [c];
      AppendKeepsDistinct(courses, CourseKey, c);
      var avg := AverageCost(cs, c.bootcamp);
      courses, costLog := cs, costLog + [avg];
    }

    /** `Course.findByIdAndUpdate(id, body, {new: true, runValidators: true})`:
        None when no course has the id. No hook runs. */
    method UpdateCourse(id: Id, body: CourseBody) returns (r: Result<Option<Course>, Err>)
      requires Valid()
      modifies this
      ensures Valid()
      ensures bootcamps == old(bootcamps) && reviews == old(reviews) && costLog == old(costLog)
      ensures IndexOfId(old(courses), CourseKey, id).None? ==> r == Success(None) && courses == old(courses)
      ensures IndexOfId(old(courses), CourseKey, id).Some? ==>
        var k := IndexOfId(old(courses), CourseKey, id).value;
        var patched := PatchCourse(old(courses)[k], body);
        (patched.Failure? ==> r == Failure(patched.error) && courses == old(courses))
        && (patched.Success? ==> r == Success(Some(patched.value)) && courses == old(courses)[k := patched.value])
    {
      var k := IndexOfId(courses, CourseKey, id);
      if k.None? {
        return Success(None);
      }
      var patched := PatchCourse(courses[k.value], body);
      if patched.Failure? {
        return Failure(patched.error);
      }
      UpdateKeepsDistinct(courses, CourseKey, k.value, patched.value);
      courses := courses[k.value := patched.value];
      r := Success(Some(patched.value));
    }

    /** `course.remove()`: the pre-remove hook logs the mean tuition while
        the course is still stored, then the course is deleted. */
    method RemoveCourse(c: Course)
      requires Valid() && c in courses
      modifies this
      ensures Valid()
      ensures bootcamps == old(bootcamps) && reviews == old(reviews)
      ensures costLog == old(costLog) + [AverageCost(old(courses), c.bootcamp)]
      ensures forall x :: x in courses <==> x in old(courses) && x.id != c.id
      ensures |courses| == |old(courses)| - 1
      ensures IndexOfId(old(courses), CourseKey, c.id).Some?
      ensures courses == RemoveAt(old(courses), IndexOfId(old(courses), CourseKey, c.id).value)
    {
      costLog := costLog + [AverageCost(courses, c.bootcamp)];
      var k := IndexOfId(courses, CourseKey, c.id).value;
      RemoveAtKeepsDistinct(courses, CourseKey, k);
      courses := RemoveAt(courses, k);
    }

    /** `Review.getAvgReview(bootcampId)`: writes the rounded mean rating
        onto the bootcamp, or nothing when it has no reviews. */
    method GetAvgReview(bootcamp: Id)
      requires Valid()
      modifies this
      ensures Valid()
      ensures bootcamps == AfterAvgReview(old(bootcamps), reviews, bootcamp)
      ensures courses == old(courses) && reviews == old(reviews) && costLog == old(costLog)
    {
      var avg := AverageRating(reviews, bootcamp);
      if avg.Some? {
        SetRatingKeepsKeys(bootcamps, bootcamp, avg.value);
        bootcamps := SetRating(bootcamps, bootcamp, avg.value);
      }
    }

    /** `Review.create(body)`: validation, then the insert and its
        post-save hook. */
    method CreateReview(body: ReviewBody, id: Id, now: int) returns (r: Result<Review, Err>)
      requires Valid() && IndexOfId(reviews, ReviewKey, id).None?
      modifies this
      ensures Valid()
      ensures courses == old(courses) && costLog == old(costLog)
      ensures NewReview(body, id, now).Failure? ==> r == NewReview(body, id, now)
      ensures NewReview(body, id, now).Success? ==>
        var v := NewReview(body, id, now).value;
        (PairTaken(old(reviews), v.bootcamp, v.user, None) ==> r == Failure(DuplicateKeyError(PairKey(v.bootcamp, v.user))))
        && (!PairTaken(old(reviews), v.bootcamp, v.user, None) ==> r == Success(v))
      ensures r.Failure? ==> reviews == old(reviews) && bootcamps == old(bootcamps)
      ensures r.Success? ==>
        reviews == old(reviews) + [r.value]
        && bootcamps == AfterAvgReview(old(bootcamps), reviews, r.value.bootcamp)
    {
      var created := NewReview(body, id, now);
      if created.Failure? {
        return created;
      }
      r := SaveReview(created.value);
    }

    /** The insert of a validated review, which the unique (bootcamp, user)
        index can refuse, then the post-save recomputation. */
    method SaveReview(v: Review) returns (r: Result<Review, Err>)
      requires Valid() && IndexOfId(reviews, ReviewKey, v.id).None?
      modifies this
      ensures Valid()
      ensures courses == old(courses) && costLog == old(costLog)
      ensures PairTaken(old(reviews), v.bootcamp, v.user, None) ==>
        r == Failure(DuplicateKeyError(PairKey(v.bootcamp, v.user)))
        && reviews == old(reviews) && bootcamps == old(bootcamps)
      ensures !PairTaken(old(reviews), v.bootcamp, v.user, None) ==>
        r == Success(v) && reviews == old(reviews) + [v]
        && bootcamps == AfterAvgReview(old(bootcamps), reviews, v.bootcamp)
    {
      if PairTaken(reviews, v.bootcamp, v.user, None) {
        return Failure(DuplicateKeyError(PairKey(v.bootcamp, v.user)));
      }
      AppendKeepsDistinct(reviews, ReviewKey, v);
      AppendKeepsUnique(reviews, v);
      reviews := reviews + [v];
      GetAvgReview(v.bootcamp);
      r := Success(v);
    }

    /** `Review.findByIdAndUpdate(id, body, {new: true, runValidators: true})`:
        None when no review has the id; the unique index still applies.
        No hook runs, so no average is recomputed. */
    method UpdateReview(id: Id, body: ReviewBody) returns (r: Result<Option<Review>, Err>)
      requires Valid()
      modifies this
      ensures Valid()
      ensures bootcamps == old(bootcamps) && courses == old(courses) && costLog == old(costLog)
      ensures IndexOfId(old(reviews), ReviewKey, id).None? ==> r == Success(None) && reviews == old(reviews)
      ensures IndexOfId(old(reviews), ReviewKey, id).Some? ==>
        var k := IndexOfId(old(reviews), ReviewKey, id).value;
        var patched := PatchReview(old(reviews)[k], body);
        (patched.Failure? ==> r == Failure(patched.error) && reviews == old(reviews))
        && (patched.Success? && PairTaken(old(reviews), patched.value.bootcamp, patched.value.user, Some(id)) ==>
              r == Failure(DuplicateKeyError(PairKey(patched.value.bootcamp, patched.value.user))) && reviews == old(reviews))
        && (patched.Success? && !PairTaken(old(reviews), patched.value.bootcamp, patched.value.user, Some(id)) ==>
              r == Success(Some(patched.value)) && reviews == old(reviews)[k := patched.value])
    {
      var k := IndexOfId(reviews, ReviewKey, id);
      if k.None? {
        return Success(None);
      }
      var patched := PatchReview(reviews[k.value], body);
      if patched.Failure? {
        return Failure(patched.error);
      }
      var v := patched.value;
      if PairTaken(reviews, v.bootcamp, v.user, Some(id)) {
        return Failure(DuplicateKeyError(PairKey(v.bootcamp, v.user)));
      }
      UpdateKeepsDistinct(reviews, ReviewKey, k.value, v);
      UpdateKeepsUnique(reviews, k.value, v);
      reviews := reviews[k.value := v];
      r := Success(Some(v));
    }

    /** `review.remove()`, then the post-remove recomputation of the
        bootcamp's average over the reviews left. */
    method RemoveReview(v: Review)
      requires Valid() && v in reviews
      modifies this
      ensures Valid()
      ensures courses == old(courses) && costLog == old(costLog)
      ensures forall x :: x in reviews <==> x in old(reviews) && x.id != v.id
      ensures |reviews| == |old(reviews)| - 1
      ensures IndexOfId(old(reviews), ReviewKey, v.id).Some?
      ensures reviews == RemoveAt(old(reviews), IndexOfId(old(reviews), ReviewKey, v.id).value)
      ensures bootcamps == AfterAvgReview(old(bootcamps), reviews, v.bootcamp)
    {
      var k := IndexOfId(reviews, ReviewKey, v.id).value;
      RemoveAtKeepsDistinct(reviews, ReviewKey, k);
      RemoveAtKeepsUnique(reviews, k);
      reviews := RemoveAt(reviews, k);
      GetAvgReview(v.bootcamp);
    }
  }

  /** Replacing a review by one with the same id keeps the (bootcamp, user)
      index unique when no other review has the new pair. */
  lemma UpdateKeepsUnique(rs: seq<Review>, k: nat, v: Review)
    requires k < |rs| && UniquePairs(rs) && DistinctIds(rs, ReviewKey) && v.id == rs[k].id
    requires !PairTaken(rs, v.bootcamp, v.user, Some(v.id))
    ensures UniquePairs(rs[k := v])
  {
    var s := rs[k := v];
    forall i, j | 0 <= i < j < |s| ensures !(s[i].bootcamp == s[j].bootcamp && s[i].user == s[j].user) {
      if i == k {
        assert rs[j].id != v.id;
      } else if j == k {
        assert rs[i].id != v.id;
      }
    }
  }

  lemma RemoveAtKeepsUnique(rs: seq<Review>, k: nat)
    requires k < |rs| && UniquePairs(rs)
    ensures UniquePairs(RemoveAt(rs, k))
  {
    var s := RemoveAt(rs, k);
    forall i, j | 0 <= i < j < |s| ensures !(s[i].bootcamp == s[j].bootcamp && s[i].user == s[j].user) {
      var i' := if i < k then i else i + 1;
      var j' := if j < k then j else j + 1;
      assert s[i] == rs[i'] && s[j] == rs[j'];
    }
  }

  lemma {:induction false} CascadeDeleteKeepsDistinct(cs: seq<Course>, bootcamp: Id)
    requires DistinctIds(cs, CourseKey)
    ensures DistinctIds(CascadeDelete(cs, bootcamp), CourseKey)
  {
    if |cs| > 0 {
      var init := cs[..|cs| - 1];
      var c := cs[|cs| - 1];
      assert DistinctIds(init, CourseKey) by {
        forall i, j | 0 <= i < j < |init| ensures init[i].id != init[j].id {
          assert init[i] == cs[i] && init[j] == cs[j];
        }
      }
      CascadeDeleteKeepsDistinct(init, bootcamp);
      var rest := CascadeDelete(init, bootcamp);
      if c.bootcamp != bootcamp {
        forall k | 0 <= k < |rest| ensures rest[k].id != c.id {
          assert rest[k] in rest;
          var j :| 0 <= j < |init| && init[j] == rest[k];
          assert cs[j] == init[j];
        }
        AppendKeepsDistinct(rest, CourseKey, c);
      }
    }
  }
}
