/** The Course model: its fields and validators, the defaults filled in on
    creation, the update of a stored course, and the mean tuition of a
    bootcamp's courses that `getAvgCost` computes. */
module CourseModel {
  import opened Common
  import opened Strings
  import opened ErrorHandler
  import opened Schema
  import opened Messages
  import opened Aggregate

  const Skills := ["beginner", "intermediate", "advanced"]

  const TitleRequired := "Por favor, inserir o título do curso."
  const DescriptionRequired := "Por favor, inserir uma descrição para o curso."
  const WeeksRequired := "Por favor, inserir o número de semanas do curso."
  const TuitionRequired := "Por favor, inserir uma mensalidade para o curso."
  const SkillRequired := "Por favor, inserir os requisitos mínimos para o curso."

  /** A stored course. `user` is the owner id the controllers attach;
      it is None on a course stored without one. */
  datatype Course = Course(
    id: Id,
    title: string,
    description: string,
    weeks: string,
    tuition: int,
    minimumSkill: string,
    scholarshipAvailable: bool,
    createdAt: int,
    bootcamp: Id,
    user: Option<Id>)

  /** A request body: the fields a client sent (None when absent). */
  datatype CourseBody = CourseBody(
    title: Option<string>,
    description: Option<string>,
    weeks: Option<string>,
    tuition: Option<int>,
    minimumSkill: Option<string>,
    scholarshipAvailable: Option<bool>,
    bootcamp: Option<Id>,
    user: Option<Id>)

  /** A body that sets nothing. */
  const EmptyBody := CourseBody(None, None, None, None, None, None, None, None)

  /** What the validators accept, stated field by field: on a full
      validation every required field is present; a present string
      field is non-empty (the title after trimming) and a present skill
      is one of the three levels. */
  predicate Acceptable(b: CourseBody, full: bool) {
    (full ==> b.title.Some? && b.description.Some? && b.weeks.Some? && b.tuition.Some?
              && b.minimumSkill.Some? && b.bootcamp.Some?)
    && (b.title.Some? ==> Trim(b.title.value) != "")
    && (b.description.Some? ==> b.description.value != "")
    && (b.weeks.Some? ==> b.weeks.value != "")
    && (b.minimumSkill.Some? ==> b.minimumSkill.value != "" && b.minimumSkill.value in Skills)
  }

  /** The field errors of a body, in schema order. */
  function CourseErrors(b: CourseBody, full: bool): (r: seq<FieldError>)
    ensures r == [] <==> Acceptable(b, full)
    ensures |r| <= 6
  {
    StringField("title", Trimmed(b.title), full, true, Given(TitleRequired), None)
    + StringField("description", b.description, full, true, Given(DescriptionRequired), None)
    + StringField("weeks", b.weeks, full, true, Given(WeeksRequired), None)
    + NumberField("tuition", b.tuition, full, true, Given(TuitionRequired), None, None)
    + EnumField("minimumSkill", b.minimumSkill, full, true, Given(SkillRequired), Skills)
    + Required("bootcamp", b.bootcamp, full, RequiredDefault("bootcamp"))
  }

  /** What holds of every course the model stores. */
  predicate CourseValid(c: Course) {
    c.title != "" && Trim(c.title) == c.title
    && c.description != "" && c.weeks != ""
    && c.minimumSkill in Skills
  }

  /** `Course.create(body)`: the body is validated as a whole. */
  function NewCourse(b: CourseBody, id: Id, now: int): (r: Result<Course, Err>)
    ensures r.Failure? <==> !Acceptable(b, true)
    ensures r.Failure? ==> r.error == ValidationError("Course", CourseErrors(b, true))
    ensures r.Success? ==> CourseValid(r.value) && r.value == FilledCourse(b, id, now)
  {
    var errors := CourseErrors(b, true);
    if errors != [] then Failure(ValidationError("Course", errors))
    else Success(FilledCourse(b, id, now))
  }

  /** An accepted body as a course: the title stored trimmed,
      `scholarshipAvailable` false by default and `createdAt` the current
      time. */
  function FilledCourse(b: CourseBody, id: Id, now: int): (r: Course)
    requires Acceptable(b, true)
    ensures CourseValid(r)
    ensures r.id == id && r.createdAt == now
      && r.title == Trim(b.title.value) && Some(r.description) == b.description
      && Some(r.weeks) == b.weeks && Some(r.tuition) == b.tuition
      && Some(r.minimumSkill) == b.minimumSkill && Some(r.bootcamp) == b.bootcamp
      && r.user == b.user
      && r.scholarshipAvailable == (b.scholarshipAvailable == Some(true))
  {
    TrimIdempotent(b.title.value);
    Course(id, Trim(b.title.value), b.description.value, b.weeks.value, b.tuition.value,
      b.minimumSkill.value, b.scholarshipAvailable == Some(true), now, b.bootcamp.value, b.user)
  }

  function Get<T>(v: Option<T>, default: T): (r: T)
    ensures v.Some? ==> r == v.value
    ensures v.None? ==> r == default
  {
    if v.Some? then v.value else default
  }

  /** `findByIdAndUpdate(id, body, {new: true, runValidators: true})`:
      only the fields present in the body are validated, and only those
      are changed. */
  function PatchCourse(c: Course, b: CourseBody): (r: Result<Course, Err>)
    ensures r.Failure? <==> !Acceptable(b, false)
    ensures r.Failure? ==> r.error == ValidationError("Course", CourseErrors(b, false))
    ensures r.Success? ==> r.value.id == c.id && r.value.createdAt == c.createdAt
    ensures r.Success? ==>
      r.value.title == (if b.title.Some? then Trim(b.title.value) else c.title)
      && r.value.description == Get(b.description, c.description)
      && r.value.weeks == Get(b.weeks, c.weeks)
      && r.value.tuition == Get(b.tuition, c.tuition)
      && r.value.minimumSkill == Get(b.minimumSkill, c.minimumSkill)
      && r.value.scholarshipAvailable == Get(b.scholarshipAvailable, c.scholarshipAvailable)
      && r.value.bootcamp == Get(b.bootcamp, c.bootcamp)
      && r.value.user == (if b.user.Some? then b.user else c.user)
  {
    var errors := CourseErrors(b, false);
    if errors != [] then Failure(ValidationError("Course", errors))
    else
      Success(c.(
        title := if b.title.Some? then Trim(b.title.value) else c.title,
        description := Get(b.description, c.description),
        weeks := Get(b.weeks, c.weeks),
        tuition := Get(b.tuition, c.tuition),
        minimumSkill := Get(b.minimumSkill, c.minimumSkill),
        scholarshipAvailable := Get(b.scholarshipAvailable, c.scholarshipAvailable),
        bootcamp := Get(b.bootcamp, c.bootcamp),
        user := if b.user.Some? then b.user else c.user))
  }

  /** An accepted update keeps a valid course valid. */
  lemma PatchKeepsValid(c: Course, b: CourseBody)
    requires CourseValid(c) && PatchCourse(c, b).Success?
    ensures CourseValid(PatchCourse(c, b).value)
  {
    if b.title.Some? {
      TrimIdempotent(b.title.value);
    }
  }

  /** An update with an empty body changes nothing. */
  lemma EmptyPatchIsIdentity(c: Course)
    ensures PatchCourse(c, EmptyBody) == Success(c)
  {
  }

  /** Re-validating the fields of a stored course as a full body accepts
      them: what `NewCourse` stores passes its own validators. */
  lemma StoredCourseRevalidates(c: Course)
    requires CourseValid(c)
    ensures Acceptable(BodyOf(c), true)
    ensures NewCourse(BodyOf(c), c.id, c.createdAt) == Success(c)
  {
    RefilledCourse(c);
  }

  lemma RefilledCourse(c: Course)
    requires CourseValid(c)
    ensures Acceptable(BodyOf(c), true) && FilledCourse(BodyOf(c), c.id, c.createdAt) == c
  {
    var f := FilledCourse(BodyOf(c), c.id, c.createdAt);
    assert f.title == c.title && f.scholarshipAvailable == c.scholarshipAvailable;
  }

  /** The body that would recreate a course. */
  function BodyOf(c: Course): (b: CourseBody)
    ensures b.title == Some(c.title) && b.bootcamp == Some(c.bootcamp) && b.user == c.user
  {
    CourseBody(Some(c.title), Some(c.description), Some(c.weeks), Some(c.tuition),
      Some(c.minimumSkill), Some(c.scholarshipAvailable), Some(c.bootcamp), c.user)
  }

  /** `$match: {bootcamp: id}`: the courses of one bootcamp, in stored order. */
  function CoursesOf(cs: seq<Course>, bootcamp: Id): (r: seq<Course>)
    ensures |r| <= |cs|
    ensures forall c :: c in r <==> c in cs && c.bootcamp == bootcamp
  {
    if |cs| == 0 then []
    else CoursesOf(cs[..|cs| - 1], bootcamp) + (if cs[|cs| - 1].bootcamp == bootcamp then [cs[|cs| - 1]] else [])
  }

  /** One more course at the end of the table matches or not on its own. */
  lemma CoursesOfSnoc(cs: seq<Course>, c: Course, bootcamp: Id)
    ensures CoursesOf(cs + [c], bootcamp) == CoursesOf(cs, bootcamp) + (if c.bootcamp == bootcamp then [c] else [])
  {
    assert (cs + [c])[..|cs|] == cs;
  }

  /** A table wholly of the bootcamp's courses matches whole. */
  lemma {:induction false} CoursesOfAll(cs: seq<Course>, bootcamp: Id)
    ensures (forall k :: 0 <= k < |cs| ==> cs[k].bootcamp == bootcamp) ==> CoursesOf(cs, bootcamp) == cs
  {
    if |cs| > 0 && forall k :: 0 <= k < |cs| ==> cs[k].bootcamp == bootcamp {
      var init, c := cs[..|cs| - 1], cs[|cs| - 1];
      assert cs == init + [c];
      CoursesOfAll(init, bootcamp);
      CoursesOfSnoc(init, c, bootcamp);
    }
  }

  /** A table without any of the bootcamp's courses matches nothing. */
  lemma {:induction false} CoursesOfNone(cs: seq<Course>, bootcamp: Id)
    ensures (forall k :: 0 <= k < |cs| ==> cs[k].bootcamp != bootcamp) ==> CoursesOf(cs, bootcamp) == []
  {
    if |cs| > 0 && forall k :: 0 <= k < |cs| ==> cs[k].bootcamp != bootcamp {
      var init, c := cs[..|cs| - 1], cs[|cs| - 1];
      assert cs == init + [c];
      CoursesOfNone(init, bootcamp);
      CoursesOfSnoc(init, c, bootcamp);
    }
  }

  /** The inductive step of `CoursesOfAppend`: one more course at the end
      of the second stretch. */
  lemma CoursesOfAppendStep(a: seq<Course>, init: seq<Course>, c: Course, bootcamp: Id)
    requires CoursesOf(a + init, bootcamp) == CoursesOf(a, bootcamp) + CoursesOf(init, bootcamp)
    ensures CoursesOf(a + (init + [c]), bootcamp) == CoursesOf(a, bootcamp) + CoursesOf(init + [c], bootcamp)
  {
    AppendAssoc(a, init, [c]);
    CoursesOfSnoc(a + init, c, bootcamp);
    CoursesOfSnoc(init, c, bootcamp);
    AppendAssoc(CoursesOf(a, bootcamp), CoursesOf(init, bootcamp), if c.bootcamp == bootcamp then [c] else []);
  }

  /** The match works course by course: over two stretches of the table it
      gives the first stretch's matches followed by the second's, so the
      stored order is kept. */
  lemma {:induction false} CoursesOfAppend(a: seq<Course>, b: seq<Course>, bootcamp: Id)
    ensures CoursesOf(a + b, bootcamp) == CoursesOf(a, bootcamp) + CoursesOf(b, bootcamp)
  {
    if |b| == 0 {
      assert a + b == a;
    } else {
      var init, c := b[..|b| - 1], b[|b| - 1];
      assert b == init + [c];
      CoursesOfAppend(a, init, bootcamp);
      CoursesOfAppendStep(a, init, c, bootcamp);
    }
  }

  function Tuitions(cs: seq<Course>): (r: seq<int>)
    ensures |r| == |cs|
    ensures forall k :: 0 <= k < |cs| ==> r[k] == cs[k].tuition
  {
    if |cs| == 0 then [] else Tuitions(cs[..|cs| - 1]) + [cs[|cs| - 1].tuition]
  }

  /** `getAvgCost(bootcampId)`: `{$group: {averageCost: {$avg: '$tuition'}}}`
      over the bootcamp's courses; no result for a bootcamp without
      courses. */
  function AverageCost(cs: seq<Course>, bootcamp: Id): (r: Option<Mean>)
    ensures r.None? <==> CoursesOf(cs, bootcamp) == []
    ensures r.Some? ==>
      r.value.count == |CoursesOf(cs, bootcamp)|
      && r.value.total == Sum(Tuitions(CoursesOf(cs, bootcamp)))
  {
    Average(Tuitions(CoursesOf(cs, bootcamp)))
  }

  /** A course of another bootcamp does not change a bootcamp's average. */
  lemma AverageCostIgnoresOthers(cs: seq<Course>, c: Course, bootcamp: Id)
    requires c.bootcamp != bootcamp
    ensures AverageCost(cs + [c], bootcamp) == AverageCost(cs, bootcamp)
  {
    assert (cs + [c])[..|cs|] == cs;
    assert CoursesOf(cs + [c], bootcamp) == CoursesOf(cs, bootcamp);
  }

  /** A new course of the bootcamp adds one to the count and its tuition
      to the total. */
  lemma AverageCostAddsCourse(cs: seq<Course>, c: Course)
    ensures AverageCost(cs + [c], c.bootcamp).Some?
    ensures AverageCost(cs + [c], c.bootcamp).value.count == |CoursesOf(cs, c.bootcamp)| + 1
    ensures AverageCost(cs + [c], c.bootcamp).value.total == Sum(Tuitions(CoursesOf(cs, c.bootcamp))) + c.tuition
  {
    assert (cs + [c])[..|cs|] == cs;
    var m := CoursesOf(cs, c.bootcamp);
    assert CoursesOf(cs + [c], c.bootcamp) == m + [c];
    assert Tuitions(m + [c]) == Tuitions(m) + [c.tuition] by {
      assert (m + [c])[..|m|] == m;
    }
    SumAppend(Tuitions(m), c.tuition);
  }

  /** The average lies between the least and the greatest tuition. */
  lemma AverageCostWithin(cs: seq<Course>, bootcamp: Id, lo: int, hi: int)
    requires forall c :: c in cs ==> lo <= c.tuition <= hi
    requires AverageCost(cs, bootcamp).Some?
    ensures var m := AverageCost(cs, bootcamp).value;
      lo * m.count <= m.total <= hi * m.count
  {
    var ts := Tuitions(CoursesOf(cs, bootcamp));
    forall k | 0 <= k < |ts| ensures lo <= ts[k] <= hi {
      assert CoursesOf(cs, bootcamp)[k] in CoursesOf(cs, bootcamp);
    }
    SumBounds(ts, lo, hi);
  }

  /** `Course.deleteMany({bootcamp: id})`, run by the bootcamp's pre-remove
      hook: the courses left behind, in stored order. */
  function CascadeDelete(cs: seq<Course>, bootcamp: Id): (r: seq<Course>)
    ensures |r| <= |cs|
    ensures forall c :: c in r <==> c in cs && c.bootcamp != bootcamp
  {
    if |cs| == 0 then []
    else CascadeDelete(cs[..|cs| - 1], bootcamp) + (if cs[|cs| - 1].bootcamp != bootcamp then [cs[|cs| - 1]] else [])
  }

  /** One more course at the end of the table survives or not on its own. */
  lemma CascadeDeleteSnoc(cs: seq<Course>, c: Course, bootcamp: Id)
    ensures CascadeDelete(cs + [c], bootcamp) == CascadeDelete(cs, bootcamp) + (if c.bootcamp != bootcamp then [c] else [])
  {
    assert (cs + [c])[..|cs|] == cs;
  }

  /** The inductive step of `CascadeDeleteAppend`: one more course at the
      end of the second stretch. */
  lemma CascadeDeleteAppendStep(a: seq<Course>, init: seq<Course>, c: Course, bootcamp: Id)
    requires CascadeDelete(a + init, bootcamp) == CascadeDelete(a, bootcamp) + CascadeDelete(init, bootcamp)
    ensures CascadeDelete(a + (init + [c]), bootcamp) == CascadeDelete(a, bootcamp) + CascadeDelete(init + [c], bootcamp)
  {
    AppendAssoc(a, init, [c]);
    CascadeDeleteSnoc(a + init, c, bootcamp);
    CascadeDeleteSnoc(init, c, bootcamp);
    AppendAssoc(CascadeDelete(a, bootcamp), CascadeDelete(init, bootcamp), if c.bootcamp != bootcamp then [c] else []);
  }

  /** The deletion works course by course: over two stretches of the table
      it keeps the first stretch's survivors followed by the second's. */
  lemma {:induction false} CascadeDeleteAppend(a: seq<Course>, b: seq<Course>, bootcamp: Id)
    ensures CascadeDelete(a + b, bootcamp) == CascadeDelete(a, bootcamp) + CascadeDelete(b, bootcamp)
  {
    if |b| == 0 {
      assert a + b == a;
    } else {
      var init, c := b[..|b| - 1], b[|b| - 1];
      assert b == init + [c];
      CascadeDeleteAppend(a, init, bootcamp);
      CascadeDeleteAppendStep(a, init, c, bootcamp);
    }
  }

  /** After the cascade the bootcamp has no courses, and every other
      bootcamp keeps exactly its courses, in order. */
  lemma {:induction false} CascadeDeleteSpares(cs: seq<Course>, bootcamp: Id, other: Id)
    requires other != bootcamp
    ensures CoursesOf(CascadeDelete(cs, bootcamp), bootcamp) == []
    ensures CoursesOf(CascadeDelete(cs, bootcamp), other) == CoursesOf(cs, other)
  {
    if |cs| > 0 {
      var init := cs[..|cs| - 1];
      var c := cs[|cs| - 1];
      CascadeDeleteSpares(init, bootcamp, other);
      var rest := CascadeDelete(init, bootcamp);
      if c.bootcamp != bootcamp {
        assert CascadeDelete(cs, bootcamp) == rest + [c];
        assert (rest + [c])[..|rest|] == rest;
      } else {
        assert CascadeDelete(cs, bootcamp) == rest;
      }
    } else {
      assert CascadeDelete(cs, bootcamp) == [];
    }
  }
}
