/** The Review model: its fields and validators, the unique
    (bootcamp, user) index, and the rounded mean rating of a bootcamp's
    reviews that `getAvgReview` writes onto the bootcamp. */
module ReviewModel {
  import opened Common
  import opened Strings
  import opened ErrorHandler
  import opened Schema
  import opened Messages
  import opened Aggregate

  const TitleRequired := "Por favor, inserir o título do review."
  const TextRequired := "Por favor, inserir um texto para o review."
  const RatingRequired := "Por favor, inserir uma avaliação dentre 1 e 10."
  const TitleMax := 100
  const RatingMin := 1
  const RatingMax := 10

  datatype Review = Review(
    id: Id,
    title: string,
    text: string,
    rating: int,
    createdAt: int,
    bootcamp: Id,
    user: Id)

  /** A request body: the fields a client sent (None when absent). */
  datatype ReviewBody = ReviewBody(
    title: Option<string>,
    text: Option<string>,
    rating: Option<int>,
    bootcamp: Option<Id>,
    user: Option<Id>)

  /** What the validators accept, field by field. */
  predicate Acceptable(b: ReviewBody, full: bool) {
    (full ==> b.title.Some? && b.text.Some? && b.rating.Some? && b.bootcamp.Some? && b.user.Some?)
    && (b.title.Some? ==> Trim(b.title.value) != "" && |Trim(b.title.value)| <= TitleMax)
    && (b.text.Some? ==> b.text.value != "")
    && (b.rating.Some? ==> RatingMin <= b.rating.value <= RatingMax)
  }

  /** The field errors of a body, in schema order. */
  function ReviewErrors(b: ReviewBody, full: bool): (r: seq<FieldError>)
    ensures r == [] <==> Acceptable(b, full)
    ensures |r| <= 5
  {
    var title := Trimmed(b.title);
    StringField("title", title, full, true, Given(TitleRequired),
      Some((TitleMax, MaxLengthDefault("title", if title.Some? then title.value else "", TitleMax))))
    + StringField("text", b.text, full, true, Given(TextRequired), None)
    + NumberField("rating", b.rating, full, true, Given(RatingRequired),
        Some((RatingMin, MinDefault("rating", RatingOrZero(b.rating), RatingMin))),
        Some((RatingMax, MaxDefault("rating", RatingOrZero(b.rating), RatingMax))))
    + Required("bootcamp", b.bootcamp, full, RequiredDefault("bootcamp"))
    + Required("user", b.user, full, RequiredDefault("user"))
  }

  function RatingOrZero(v: Option<int>): int {
    if v.Some? then v.value else 0
  }

  predicate ReviewValid(r: Review) {
    r.title != "" && Trim(r.title) == r.title && |r.title| <= TitleMax
    && r.text != "" && RatingMin <= r.rating <= RatingMax
  }

  /** `Review.create(body)`: the body is validated as a whole. */
  function NewReview(b: ReviewBody, id: Id, now: int): (r: Result<Review, Err>)
    ensures r.Failure? <==> !Acceptable(b, true)
    ensures r.Failure? ==> r.error == ValidationError("Review", ReviewErrors(b, true))
    ensures r.Success? ==> ReviewValid(r.value) && r.value == FilledReview(b, id, now)
  {
    var errors := ReviewErrors(b, true);
    if errors != [] then Failure(ValidationError("Review", errors))
    else Success(FilledReview(b, id, now))
  }

  /** An accepted body as a review: the title stored trimmed and
      `createdAt` the current time. */
  function FilledReview(b: ReviewBody, id: Id, now: int): (r: Review)
    requires Acceptable(b, true)
    ensures ReviewValid(r)
    ensures r.id == id && r.createdAt == now && r.title == Trim(b.title.value)
      && Some(r.text) == b.text && Some(r.rating) == b.rating
      && Some(r.bootcamp) == b.bootcamp && Some(r.user) == b.user
  {
    TrimIdempotent(b.title.value);
    Review(id, Trim(b.title.value), b.text.value, b.rating.value, now, b.bootcamp.value, b.user.value)
  }

  /** `findByIdAndUpdate(id, body, {new: true, runValidators: true})` on
      a review: the fields present are validated and replaced. */
  function PatchReview(v: Review, b: ReviewBody): (r: Result<Review, Err>)
    ensures r.Failure? <==> !Acceptable(b, false)
    ensures r.Failure? ==> r.error == ValidationError("Review", ReviewErrors(b, false))
    ensures r.Success? ==>
      r.value.id == v.id && r.value.createdAt == v.createdAt
      && r.value.title == (if b.title.Some? then Trim(b.title.value) else v.title)
      && r.value.text == (if b.text.Some? then b.text.value else v.text)
      && r.value.rating == (if b.rating.Some? then b.rating.value else v.rating)
      && r.value.bootcamp == (if b.bootcamp.Some? then b.bootcamp.value else v.bootcamp)
      && r.value.user == (if b.user.Some? then b.user.value else v.user)
  {
    var errors := ReviewErrors(b, false);
    if errors != [] then Failure(ValidationError("Review", errors))
    else
      Success(v.(
        title := if b.title.Some? then Trim(b.title.value) else v.title,
        text := if b.text.Some? then b.text.value else v.text,
        rating := if b.rating.Some? then b.rating.value else v.rating,
        bootcamp := if b.bootcamp.Some? then b.bootcamp.value else v.bootcamp,
        user := if b.user.Some? then b.user.value else v.user))
  }

  /** An accepted update keeps a valid review valid. */
  lemma PatchKeepsValid(v: Review, b: ReviewBody)
    requires ReviewValid(v) && PatchReview(v, b).Success?
    ensures ReviewValid(PatchReview(v, b).value)
  {
    if b.title.Some? {
      TrimIdempotent(b.title.value);
    }
  }

  /** The unique index on (bootcamp, user): no two reviews share both. */
  predicate UniquePairs(rs: seq<Review>) {
    forall i, j :: 0 <= i < j < |rs| ==> !(rs[i].bootcamp == rs[j].bootcamp && rs[i].user == rs[j].user)
  }

  /** Some review other than `except` has this (bootcamp, user) pair. */
  predicate PairTaken(rs: seq<Review>, bootcamp: Id, user: Id, except: Option<Id>) {
    exists k :: 0 <= k < |rs| && rs[k].bootcamp == bootcamp && rs[k].user == user && Some(rs[k].id) != except
  }

  /** The key/value pair the unique index reports on a violation. */
  function PairKey(bootcamp: Id, user: Id): (m: map<string, string>)
    ensures "name" !in m
  {
    map["bootcamp" := bootcamp, "user" := user]
  }

  /** Appending a review whose pair is free keeps the index unique. */
  lemma AppendKeepsUnique(rs: seq<Review>, r: Review)
    requires UniquePairs(rs) && !PairTaken(rs, r.bootcamp, r.user, None)
    ensures UniquePairs(rs + [r])
  {
    var s := rs + [r];
    forall i, j | 0 <= i < j < |s| ensures !(s[i].bootcamp == s[j].bootcamp && s[i].user == s[j].user) {
      if j == |rs| {
        assert s[i] == rs[i];
      } else {
        assert s[i] == rs[i] && s[j] == rs[j];
      }
    }
  }

  /** `$match: {bootcamp: id}` over reviews, in stored order. */
  function ReviewsOf(rs: seq<Review>, bootcamp: Id): (r: seq<Review>)
    ensures |r| <= |rs|
    ensures forall v :: v in r <==> v in rs && v.bootcamp == bootcamp
  {
    if |rs| == 0 then []
    else ReviewsOf(rs[..|rs| - 1], bootcamp) + (if rs[|rs| - 1].bootcamp == bootcamp then [rs[|rs| - 1]] else [])
  }

  /** One more review at the end of the table matches or not on its own. */
  lemma ReviewsOfSnoc(vs: seq<Review>, v: Review, bootcamp: Id)
    ensures ReviewsOf(vs + [v], bootcamp) == ReviewsOf(vs, bootcamp) + (if v.bootcamp == bootcamp then [v] else [])
  {
    assert (vs + [v])[..|vs|] == vs;
  }

  /** A table wholly of the bootcamp's reviews matches whole. */
  lemma {:induction false} ReviewsOfAll(rs: seq<Review>, bootcamp: Id)
    ensures (forall k :: 0 <= k < |rs| ==> rs[k].bootcamp == bootcamp) ==> ReviewsOf(rs, bootcamp) == rs
  {
    if |rs| > 0 && forall k :: 0 <= k < |rs| ==> rs[k].bootcamp == bootcamp {
      var init, v := rs[..|rs| - 1], rs[|rs| - 1];
      assert rs == init + [v];
      ReviewsOfAll(init, bootcamp);
      ReviewsOfSnoc(init, v, bootcamp);
    }
  }

  /** A table without any of the bootcamp's reviews matches nothing. */
  lemma {:induction false} ReviewsOfNone(rs: seq<Review>, bootcamp: Id)
    ensures (forall k :: 0 <= k < |rs| ==> rs[k].bootcamp != bootcamp) ==> ReviewsOf(rs, bootcamp) == []
  {
    if |rs| > 0 && forall k :: 0 <= k < |rs| ==> rs[k].bootcamp != bootcamp {
      var init, v := rs[..|rs| - 1], rs[|rs| - 1];
      assert rs == init + [v];
      ReviewsOfNone(init, bootcamp);
      ReviewsOfSnoc(init, v, bootcamp);
    }
  }

  /** The inductive step of `ReviewsOfAppend`: one more review at the end
      of the second stretch. */
  lemma ReviewsOfAppendStep(a: seq<Review>, init: seq<Review>, v: Review, bootcamp: Id)
    requires ReviewsOf(a + init, bootcamp) == ReviewsOf(a, bootcamp) + ReviewsOf(init, bootcamp)
    ensures ReviewsOf(a + (init + [v]), bootcamp) == ReviewsOf(a, bootcamp) + ReviewsOf(init + [v], bootcamp)
  {
    AppendAssoc(a, init, [v]);
    ReviewsOfSnoc(a + init, v, bootcamp);
    ReviewsOfSnoc(init, v, bootcamp);
    AppendAssoc(ReviewsOf(a, bootcamp), ReviewsOf(init, bootcamp), if v.bootcamp == bootcamp then [v] else []);
  }

  /** The match works review by review: over two stretches of the table it
      gives the first stretch's matches followed by the second's, so the
      stored order is kept. */
  lemma {:induction false} ReviewsOfAppend(a: seq<Review>, b: seq<Review>, bootcamp: Id)
    ensures ReviewsOf(a + b, bootcamp) == ReviewsOf(a, bootcamp) + ReviewsOf(b, bootcamp)
  {
    if |b| == 0 {
      assert a + b == a;
    } else {
      var init, v := b[..|b| - 1], b[|b| - 1];
      assert b == init + [v];
      ReviewsOfAppend(a, init, bootcamp);
      ReviewsOfAppendStep(a, init, v, bootcamp);
    }
  }

  function Ratings(rs: seq<Review>): (r: seq<int>)
    ensures |r| == |rs|
    ensures forall k :: 0 <= k < |rs| ==> r[k] == rs[k].rating
  {
    if |rs| == 0 then [] else Ratings(rs[..|rs| - 1]) + [rs[|rs| - 1].rating]
  }

  /** The value `getAvgReview` writes, in hundredths: the mean rating of
      the bootcamp's reviews rounded to two decimals; None (nothing
      written) when the bootcamp has no reviews. */
  function AverageRating(rs: seq<Review>, bootcamp: Id): (r: Option<int>)
    ensures r.None? <==> ReviewsOf(rs, bootcamp) == []
    ensures r.Some? ==>
      var g := ReviewsOf(rs, bootcamp);
      2 * |g| * r.value - |g| <= 200 * Sum(Ratings(g)) < 2 * |g| * r.value + |g|
  {
    match Average(Ratings(ReviewsOf(rs, bootcamp)))
    case None => None
    case Some(m) => Some(RoundedHundredths(m.total, m.count))
  }

  /** Ratings in 1..10 give a stored average within 1.00..10.00, so the
      bootcamp's own `averageRating` bounds hold. */
  lemma AverageRatingInRange(rs: seq<Review>, bootcamp: Id)
    requires forall v :: v in rs ==> ReviewValid(v)
    requires AverageRating(rs, bootcamp).Some?
    ensures 100 * RatingMin <= AverageRating(rs, bootcamp).value <= 100 * RatingMax
  {
    var g := ReviewsOf(rs, bootcamp);
    var xs := Ratings(g);
    forall k | 0 <= k < |xs| ensures RatingMin <= xs[k] <= RatingMax {
      assert g[k] in g;
    }
    SumBounds(xs, RatingMin, RatingMax);
    RoundedWithin(Sum(xs), |xs|, RatingMin, RatingMax);
  }

  /** A review of another bootcamp does not change a bootcamp's average. */
  lemma AverageRatingIgnoresOthers(rs: seq<Review>, v: Review, bootcamp: Id)
    requires v.bootcamp != bootcamp
    ensures AverageRating(rs + [v], bootcamp) == AverageRating(rs, bootcamp)
  {
    assert (rs + [v])[..|rs|] == rs;
    assert ReviewsOf(rs + [v], bootcamp) == ReviewsOf(rs, bootcamp);
  }

  /** Two reviews rated 8 and 6 give 7.00; eight reviews totalling 61
      (a mean of 7.625) round half up to 7.63. */
  lemma AverageRatingExamples(a: Review, b: Review)
    requires a.bootcamp == b.bootcamp && a.rating == 8 && b.rating == 6
    ensures AverageRating([a, b], a.bootcamp) == Some(700)
    ensures RoundedHundredths(61, 8) == 763
  {
    assert [a, b][..1] == [a];
    assert [a][..0] == [];
    assert ReviewsOf([a, b], a.bootcamp) == [a, b];
    assert Ratings([a, b]) == [8, 6] by {
      assert [a, b][..1] == [a];
    }
    assert Sum([8, 6]) == 14 by {
      assert [8, 6][..1] == [8];
      assert [8][..0] == [];
    }
    RoundedUnique(14, 2, 700);
    RoundedUnique(61, 8, 763);
  }
}
