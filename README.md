# devcamper API — a Dafny model of its core

devcamper is a REST API for coding bootcamps, their courses and their
reviews, built on Express and a MongoDB document store. This project
models its core in Dafny and proves properties of that model:

- the **advanced-results** middleware. It turns a query string into a
  filter, a projection, a sort order and a page window. It then wraps
  the page it gets back in an envelope with pagination metadata.
- the **error handler**. It maps store errors (cast failures, duplicate
  keys, validation failures) and handler errors to an HTTP status and a
  `{success: false, error}` body.
- the **protect** middleware. It reads a bearer token and sets
  `req.user`.
- the three **models**: Bootcamp, Course and Review. The model covers
  their validators and defaults, and their hooks:
  - the slug and geocoded location set before a bootcamp is saved;
  - the deletion of a bootcamp's courses when the bootcamp is removed;
  - the mean tuition logged when a course is saved or removed;
  - the rounded mean rating written onto the bootcamp when a review is
    saved or removed.
- the **course and review handlers**: list, show, create, update and
  delete, with their ownership checks.

The store is the class `Store.Db`. It holds three tables as sequences
in insertion order, and its invariant `Valid()` is the set of unique
indexes:
- `_id` on every table;
- `name` on bootcamps;
- the pair (bootcamp, user) on reviews.

Each handler is a method over a `Db`. Its contract gives the exact
reply for every branch and the new state of every table.

Some external code is passed in as parameters:
- JWT verification (`verify`);
- `slugify`;
- the geocoder (`geocode`);
- the URL and email regular expressions (`Matchers`);
- the store's query engine (`find`).

The clock is a parameter `now`, and new document ids are a parameter
`id`.

Modules, in dependency order:
- `Common`: Option and Result, ids, and row lookup by id.
- `Strings`: `trim`, `split`, `replace`, `parseInt` and integer
  rendering.
- `Messages`: a field error's message, kept as the rule that produced
  it and rendered as the schema's own text or the store's default text.
- `ErrorHandler`
- `AdvancedResults`
- `Auth`
- `Aggregate`: `$avg` and two-decimal rounding.
- `Schema`: the validators.
- `CourseModel`: also the `Course.deleteMany` that the bootcamp's
  pre-remove hook runs.
- `ReviewModel`
- `BootcampModel`
- `Store`
- `Replies`: handler replies and the ownership test.
- `CoursesController`
- `ReviewsController`

Numbers that the source keeps as floating point are represented
exactly:
- A mean is a `Mean(total, count)`.
- The stored `averageRating` is an integer number of hundredths.
  1 to 10 is 100 to 1000.
- `Math.round(x * 100) / 100` is rounding to the nearest hundredth, with
  halves rounded up.

Four points of the code's behaviour that a reader might not expect:
- The operator rewrite of the query string has no global flag. So only
  the FIRST `gt|gte|lt|lte|in` token gets its `$`.
  See `AdvancedResults.RewriteFirstOperator`.
- `totalDoc` counts the whole collection, not the filtered documents.
- A failure while building or running the store query is not translated
  to an error kind. A non-string `select` or `sort` (`replace` on a
  list), a plan the store refuses and a negative skip are all promise
  rejections that no `asyncHandler` catches. No response follows: the
  `unhandledRejection` handler (server.js:40-44) logs the message,
  closes the server and exits the process with status 1.
- The mean course cost is only logged, never stored on the bootcamp.

## Model

| member | source | states |
|---|---|---|
| Strings.Trim | models/Course.js:4-8 | `trim`: the result is no longer than the input and neither starts nor ends with white space |
| Strings.TrimCutsOnlySpace | models/Course.js:4-8 | what `trim` cuts is only white space: the result is the slice of the input after its leading white space, and everything before and after that slice is white space |
| Strings.TrimIdempotent | models/Review.js:4-9 | a trimmed value is unchanged by a second trim, so a stored title re-validates as itself |
| Strings.IndexOf | middleware/auth.js:12 | the first position of the character, or -1 exactly when it does not occur |
| Strings.Split | middleware/auth.js:12 | `split(sep)`: at least one piece, no piece contains the separator, and joining the pieces gives the input back |
| Strings.SplitJoin | middleware/error.js:25-28 | splitting the join of separator-free pieces gives the pieces back (the inverse direction of `Split`) |
| Strings.ReplaceFirst | middleware/advancedResults.js:25 | `replace(',', ' ')` changes only the first comma, or nothing when there is none; the length is kept |
| Strings.ParseInt | middleware/advancedResults.js:40-41 | `parseInt(s, 10)` is NaN exactly when, after white space and one sign, no digit follows |
| Strings.ParseIntToString | middleware/advancedResults.js:40-41 | reading back the decimal rendering of any integer gives that integer |
| Strings.ParseNatToString | middleware/advancedResults.js:40-41 | `parseInt` stops at the first non-digit: a number followed by other text reads as the number |
| Strings.ParseSkipsSpace | middleware/advancedResults.js:40-41 | leading white space does not change what `parseInt` reads |
| Strings.NatToString | models/Review.js:4-9 | the decimal rendering is a non-empty digit string that denotes the number |
| Common.IndexOfId | controllers/courses.js:74 | `findById`: the first row with the id, or None exactly when no row has it |
| Common.RowById | controllers/courses.js:31-36 | the row returned is in the table and has the id; None exactly when none has it |
| Common.RemoveAt | controllers/courses.js:110 | removing one row shifts the later rows down by one and keeps the earlier ones |
| Common.RemoveAtKeepsDistinct | controllers/reviews.js:90-105 | with unique ids, removing a row removes exactly the rows with its id and keeps the ids unique |
| Common.AppendKeepsDistinct | controllers/courses.js:63 | inserting a row with a fresh id keeps the `_id` index unique |
| Common.UpdateKeepsDistinct | controllers/courses.js:85-88 | replacing a row by one with the same id keeps the `_id` index unique |
| ErrorHandler.ErrorResponse | controllers/courses.js:37 | a handler error carries its message and status and no store error code |
| ErrorHandler.TypeError | controllers/courses.js:50 | a runtime TypeError carries no status and no store code |
| ErrorHandler.ValidationError | middleware/error.js:25-28 | a store validation failure carries its field errors and no status |
| ErrorHandler.DuplicateKeyError | middleware/error.js:19-22 | a unique-index violation has code 11000 and the duplicated key |
| ErrorHandler.CastMessage | middleware/error.js:13-16 | the cast message starts with the fixed prefix and ends with the offending value |
| ErrorHandler.DuplicateMessage | middleware/error.js:19-22 | the duplicate message starts with the fixed prefix and names the duplicated `name` |
| ErrorHandler.FieldMessages | middleware/error.js:25-26 | one message per field error, in order, each with a leading space |
| ErrorHandler.ValidationText | middleware/error.js:25-28 | the list turned into text is empty exactly when there are no field errors |
| ErrorHandler.ValidationTextSplits | middleware/error.js:25-28 | when no message holds a comma, the client can split the text back into the field messages |
| ErrorHandler.StatusOr500 | middleware/error.js:31 | `statusCode \|\| 500`: a missing or zero status becomes 500, otherwise it is kept |
| ErrorHandler.Handle | middleware/error.js:3-34 | the reply for each error kind: validation 400 (it overrides the other two), duplicate key 400 (it overrides a cast failure), cast 404, otherwise the error's own status or 500; an empty message becomes "Erro no servidor"; never `success` |
| ErrorHandler.HandleErrorResponse | middleware/error.js:31-34 | a handler error with a status and a message is rendered with exactly that status and message |
| ErrorHandler.HandleBareError | middleware/error.js:31-34 | an error with neither status nor message is a 500 "Erro no servidor" |
| AdvancedResults.Assign | middleware/advancedResults.js:7-9 | setting a key: that key reads the new value, every other key reads as before, and keys stay unique |
| AdvancedResults.Delete | middleware/advancedResults.js:13 | `delete`: that key reads as absent, every other key as before; no entry is invented |
| AdvancedResults.FilterDropsControlKeys | middleware/advancedResults.js:12-13 | none of `select`, `sort`, `page`, `limit` reaches the filter |
| AdvancedResults.FilterKeepsOtherKeys | middleware/advancedResults.js:4-13 | every other query key reaches the filter unchanged, except that the route's bootcamp id overrides a `bootcamp` key |
| AdvancedResults.DeleteAllKeepsDistinct | middleware/advancedResults.js:13 | deleting keys keeps the query object well formed |
| AdvancedResults.BuildFilter | middleware/advancedResults.js:4-13 | the copy-assign-delete loop builds exactly the filter `FilterFor` describes |
| AdvancedResults.EscapePlain | middleware/advancedResults.js:15 | JSON serialisation writes text without quotes, backslashes or control characters as it is |
| AdvancedResults.FirstOperator | middleware/advancedResults.js:18 | the leftmost whole-word operator at or after a position, or None when there is none |
| AdvancedResults.RewriteWithoutOperator | middleware/advancedResults.js:18 | a filter without a whole-word operator is left unchanged |
| AdvancedResults.RewriteFirstOperator | middleware/advancedResults.js:18 | otherwise one `$` goes before the FIRST operator only; all else, later operators included, is unchanged |
| AdvancedResults.RewriteInsertsOneDollar | middleware/advancedResults.js:18 | the rewrite at most inserts one `$` in front of an operator token |
| AdvancedResults.SelectOf | middleware/advancedResults.js:24-27 | the query is rejected for a truthy non-string `select`; a falsy one gives no projection; a non-empty string gives the projection with its first comma turned into a space |
| AdvancedResults.SortOf | middleware/advancedResults.js:30-37 | the query is rejected for a truthy non-string `sort`; without a sort the default `-createdAt` applies; a non-empty string gives the sort with its first comma turned into a space |
| AdvancedResults.IntParam | middleware/advancedResults.js:40-41 | `parseInt(v, 10) \|\| d` is never 0 |
| AdvancedResults.IntParamMissing | middleware/advancedResults.js:40-41 | a missing page or limit takes its default (1, 100) |
| AdvancedResults.IntParamDecimal | middleware/advancedResults.js:40-41 | a decimal number is read as itself, except that 0 takes the default |
| AdvancedResults.Window | middleware/advancedResults.js:42-46 | `skip(s).limit(l)`: refused exactly when the skip is negative; otherwise the documents from position s on, as many as the absolute value of the limit allows and no more than remain |
| AdvancedResults.WindowFindsEveryDocument | middleware/advancedResults.js:42-46 | with a positive limit, document `i` is on page `i / limit + 1` at offset `i % limit` |
| AdvancedResults.BuildPagination | middleware/advancedResults.js:55-73 | `nextPage` exactly when documents remain after this page, `prevPage` exactly when this page does not start at the beginning; both carry page, limit and total |
| AdvancedResults.AdvancedResults | middleware/advancedResults.js:1-80 | rejected exactly when building the plan fails, the store refuses the plan or the skip is negative, each with its reason; otherwise `success`, `count` equal to the number of documents returned, that page of the store's answer, and the pagination from the whole collection's size |
| Auth.ExtractToken | middleware/auth.js:10-13 | no token without a header starting with "Bearer"; a token never contains a space |
| Auth.ExtractBearer | middleware/auth.js:10-13 | the header "Bearer t" yields t |
| Auth.BareBearerHasNoToken | middleware/auth.js:10-13 | the header "Bearer" alone yields no token |
| Auth.NoTokenNoVerify | middleware/auth.js:20-22 | without a usable token the request is refused with 401, whatever the verifier would say |
| Auth.FailedVerifyRejects | middleware/auth.js:24-35 | a token that fails verification is refused with 401 |
| Auth.Protect | middleware/auth.js:6-36 | the outcome for the header, the verifier and the users; `req.user` is set only when the request proceeds, to the account or to null for an unknown id |
| Auth.VerifiedTokenSetsUser | middleware/auth.js:26-32 | after a verified token `req.user` is the account with the token's id, or null when there is none; never left undefined |
| Aggregate.Average | models/Course.js:47-57 | `$avg` over a group: no result exactly for an empty group, otherwise the sum and count of the values |
| Aggregate.SumAppend | models/Course.js:47-57 | one more value adds itself to the total |
| Aggregate.SumBounds | models/Review.js:44-54 | values between lo and hi sum to between lo and hi times their number |
| Aggregate.RoundedHundredths | models/Review.js:59-61 | `Math.round(100 * mean)`: the result is within half a hundredth of the mean, halves rounded up |
| Aggregate.RoundedUnique | models/Review.js:59-61 | that rounding is the only integer with this property |
| Aggregate.RoundedWithin | models/Review.js:59-61 | a mean between lo and hi rounds to between 100lo and 100hi hundredths |
| Schema.Required | models/Course.js:35-39 | a required path fails exactly when a full validation finds it missing; at most one error |
| Schema.StringField | models/Bootcamp.js:7-19 | a string path passes exactly when it is present and non-empty (if required, or absent on an update) and within its maximum length; at most one error |
| Schema.EnumField | models/Course.js:21-25 | an enum path passes exactly when it is present and non-empty (when required) and one of the allowed values |
| Schema.NumberField | models/Review.js:14-19 | a number path passes exactly when it is present if required and within its bounds |
| Schema.MatchField | models/Bootcamp.js:20-37 | a pattern path passes exactly when it is missing, empty or matches |
| Schema.Trimmed | models/Course.js:4-8 | a trimmed path is present exactly when given, and holds the trimmed value |
| CourseModel.CourseErrors | models/Course.js:3-40 | no field error exactly when the body is acceptable field by field; at most one error per path |
| CourseModel.NewCourse | models/Course.js:3-40 | creation fails with the validation error exactly when the body is not acceptable; otherwise it gives a valid course built from the body |
| CourseModel.FilledCourse | models/Course.js:3-40 | an accepted body becomes a valid course holding the body's fields, the title trimmed, `scholarshipAvailable` false by default, `createdAt` now |
| CourseModel.Get | controllers/courses.js:85-88 | a field the update does not set keeps its stored value |
| CourseModel.PatchCourse | controllers/courses.js:85-88 | an update validates only the fields given, fails exactly when one of them is unacceptable, and otherwise changes exactly those fields |
| CourseModel.PatchKeepsValid | controllers/courses.js:85-88 | an accepted update keeps a valid course valid |
| CourseModel.EmptyPatchIsIdentity | controllers/courses.js:85-88 | an update with an empty body changes nothing |
| CourseModel.StoredCourseRevalidates | models/Course.js:3-40 | the fields of a stored course pass full validation again and recreate the same course |
| CourseModel.RefilledCourse | models/Course.js:3-40 | the body a valid course gives back is accepted and builds that same course |
| CourseModel.BodyOf | models/Course.js:3-40 | the body that recreates a course carries its fields |
| CourseModel.CoursesOf | models/Course.js:49 | `$match: {bootcamp}`: exactly the bootcamp's courses, never more rows than the table |
| CourseModel.CoursesOfAll | models/Course.js:49 | a table wholly of the bootcamp's courses matches whole |
| CourseModel.CoursesOfNone | models/Course.js:49 | a table with none of the bootcamp's courses matches nothing |
| CourseModel.CoursesOfAppend | models/Course.js:49 | the match works course by course: over two stretches of the table it gives the first stretch's matches followed by the second's, so stored order and repeats are kept |
| CourseModel.Tuitions | models/Course.js:54 | the tuitions of the courses, in order |
| CourseModel.AverageCost | models/Course.js:43-60 | no result exactly when the bootcamp has no courses; otherwise the count and tuition total of its courses |
| CourseModel.AverageCostIgnoresOthers | models/Course.js:47-57 | a course of another bootcamp leaves a bootcamp's mean unchanged |
| CourseModel.AverageCostAddsCourse | models/Course.js:63-65 | a new course adds one to its bootcamp's count and its tuition to the total |
| CourseModel.AverageCostWithin | models/Course.js:47-57 | the mean tuition lies between the least and greatest tuition |
| ReviewModel.ReviewErrors | models/Review.js:3-35 | no field error exactly when the body is acceptable; at most one error per path |
| ReviewModel.NewReview | models/Review.js:3-35 | creation fails with the validation error exactly when the body is not acceptable; otherwise it gives a valid review built from the body |
| ReviewModel.FilledReview | models/Review.js:3-35 | an accepted body becomes a valid review with the body's fields, the title trimmed, `createdAt` now |
| ReviewModel.PatchReview | controllers/reviews.js:76-79 | an update validates only the fields given, fails exactly when one is unacceptable, and otherwise changes exactly those fields |
| ReviewModel.PatchKeepsValid | controllers/reviews.js:76-79 | an accepted update keeps a valid review valid |
| ReviewModel.PairKey | models/Review.js:38 | the key a (bootcamp, user) violation reports has no `name`, so its message ends in "undefined" |
| ReviewModel.AppendKeepsUnique | models/Review.js:38 | inserting a review whose (bootcamp, user) pair is free keeps that index unique |
| ReviewModel.ReviewsOf | models/Review.js:45 | exactly the bootcamp's reviews, never more rows than the table |
| ReviewModel.ReviewsOfAll | models/Review.js:45 | a table wholly of the bootcamp's reviews matches whole |
| ReviewModel.ReviewsOfNone | models/Review.js:45 | a table with none of the bootcamp's reviews matches nothing |
| ReviewModel.ReviewsOfAppend | models/Review.js:45 | the match works review by review: over two stretches it gives the first stretch's matches followed by the second's, so stored order and repeats are kept |
| ReviewModel.Ratings | models/Review.js:50 | the ratings of the reviews, in order |
| ReviewModel.AverageRating | models/Review.js:41-67 | nothing is written exactly when the bootcamp has no reviews; otherwise the mean rating rounded to hundredths |
| ReviewModel.AverageRatingInRange | models/Review.js:41-67 | valid ratings (1..10) give a stored mean within 1.00..10.00 |
| ReviewModel.AverageRatingIgnoresOthers | models/Review.js:44-54 | a review of another bootcamp leaves a bootcamp's mean unchanged |
| ReviewModel.AverageRatingExamples | models/Review.js:59-61 | ratings 8 and 6 give 7.00; a mean of 7.625 is stored as 7.63 |
| BootcampModel.FirstForeign | models/Bootcamp.js:59-71 | the first career not in the list, or None exactly when all are in it |
| BootcampModel.CareersErrors | models/Bootcamp.js:59-71 | `careers` (the empty array when left out, which `required` accepts) passes exactly when every entry is an allowed value; otherwise the error names an entry outside the list |
| BootcampModel.BootcampErrors | models/Bootcamp.js:6-106 | no field error exactly when the body is acceptable field by field; a body without `careers`, or with an empty list, is acceptable on that path |
| BootcampModel.NewBootcamp | models/Bootcamp.js:6-106 | creation fails with the validation error exactly when the body is not acceptable; otherwise it gives a valid document built from the body |
| BootcampModel.Filled | models/Bootcamp.js:6-106 | an accepted body becomes a valid document with the name trimmed, photo `no-photo.jpg` and the four flags false by default, `careers` the empty array when left out, `createdAt` now, no slug or location yet, and every other field (description, website, phone, email, address, averageRating, averageCost, user) stored as sent |
| BootcampModel.CareersOptional | models/Bootcamp.js:59-71 | a body without `careers`, or with an empty list, passes that path, and an accepted one is stored with no careers |
| BootcampModel.LocationOf | models/Bootcamp.js:121-130 | the location is a GeoJSON Point with longitude then latitude, and every address part (formatted address, street, city, state, zip code, country) is the geocoder's |
| BootcampModel.Saved | models/Bootcamp.js:111-136 | after both hooks: slug from the name, location from the first geocoder entry, address cleared, and nothing else changed |
| BootcampModel.BootcampDocument.PreSave | models/Bootcamp.js:111-136 | the two pre-save hooks in order; an empty geocoder answer throws after the slug is set |
| BootcampModel.SavedKeepsValid | models/Bootcamp.js:111-136 | the hooks touch no validated field: a valid bootcamp stays valid |
| BootcampModel.CoursesVirtual | models/Bootcamp.js:146-151 | the `courses` virtual is exactly the courses whose `bootcamp` is this id; all of them when every course is this bootcamp's, none when none is |
| CourseModel.CascadeDelete | models/Bootcamp.js:139-143 | `deleteMany({bootcamp})`: exactly the other bootcamps' courses remain, never more rows than the table |
| CourseModel.CascadeDeleteSnoc | models/Bootcamp.js:139-143 | one more course at the end of the table survives exactly when it belongs to another bootcamp, after the earlier survivors |
| CourseModel.CascadeDeleteAppend | models/Bootcamp.js:139-143 | the deletion works course by course: over two stretches it keeps the first stretch's survivors followed by the second's, in stored order |
| CourseModel.CascadeDeleteSpares | models/Bootcamp.js:139-143 | after the cascade the bootcamp has no courses and every other bootcamp keeps exactly its courses, in order |
| Store.AppendKeepsNames | models/Bootcamp.js:10 | inserting a bootcamp with a free name keeps the name index unique |
| Store.SetRating | models/Review.js:59-61 | `findByIdAndUpdate(id, {averageRating})`: only that field of that bootcamp changes |
| Store.AfterAvgReview | models/Review.js:41-67 | the bootcamp table is unchanged when the bootcamp has no reviews (the failed read is caught and logged); otherwise the rounded mean is set |
| Store.SetRatingKeepsKeys | models/Review.js:59-61 | writing the rating keeps both bootcamp indexes |
| Store.AfterAvgReviewKeepsValid | models/Bootcamp.js:72-76 | the recomputed rating respects the bootcamp's rating bounds, so valid bootcamps stay valid |
| Store.SaveOutcome | models/Bootcamp.js:111-136 | saving a validated bootcamp: the validation error, the geocoder TypeError on an empty answer, a duplicate-name error, or the saved document with a free name |
| Store.Db.CreateBootcamp | models/Bootcamp.js:6-136 | `Bootcamp.create`: the indexes are kept, the table grows by the saved document exactly on success, and that document is valid |
| Store.Db.SaveBootcamp | models/Bootcamp.js:111-136 | saving a validated bootcamp runs both hooks and the name index: the indexes are kept, the table grows by the hooked document exactly on success, and it stays valid |
| Store.Db.RemoveBootcamp | models/Bootcamp.js:139-143 | `remove()`: the table loses exactly the row with that id, the others keeping their order; its courses are deleted first; reviews stay |
| Store.Db.CreateCourse | models/Course.js:63-65 | `Course.create` appends the new course exactly on success and logs its bootcamp's mean tuition, the new course included |
| Store.Db.SaveCourse | models/Course.js:63-65 | inserting a validated course keeps the id index, appends it, and logs its bootcamp's mean tuition with it included |
| Store.Db.UpdateCourse | controllers/courses.js:85-88 | `findByIdAndUpdate`: no course for an unknown id; otherwise the patch replaces exactly that row, or the validation error leaves the table alone |
| Store.Db.RemoveCourse | models/Course.js:68-70 | `remove()`: the mean is logged while the course is still stored, then the table loses exactly the row with that id, the others keeping their order |
| Store.Db.GetAvgReview | models/Review.js:41-67 | `getAvgReview` writes the bootcamp's rounded mean rating, or nothing for no reviews; the indexes are kept |
| Store.Db.CreateReview | models/Review.js:70-72 | `Review.create`: the validation error, the (bootcamp, user) duplicate error, or the review appended and its bootcamp's mean recomputed |
| Store.Db.SaveReview | models/Review.js:38 | inserting a validated review: refused with the duplicate error when its (bootcamp, user) pair is taken, otherwise appended with its bootcamp's mean recomputed |
| Store.Db.UpdateReview | controllers/reviews.js:76-79 | `findByIdAndUpdate` on a review: validated, subject to the unique pair index, and with no recomputation of the mean |
| Store.Db.RemoveReview | models/Review.js:75-77 | `remove()`: the table loses exactly the row with that id, the others keeping their order, and its bootcamp's mean is recomputed over the reviews left |
| Store.UpdateKeepsUnique | models/Review.js:38 | replacing a review by one whose pair no other review has keeps the pair index unique |
| Store.RemoveAtKeepsUnique | models/Review.js:38 | removing a review keeps the pair index unique |
| Store.CascadeDeleteKeepsDistinct | models/Bootcamp.js:139-143 | the cascade keeps the courses' ids unique |
| Replies.Fail | middleware/error.js:31-34 | an error passed to `next` is always an unsuccessful reply |
| Replies.FailWithResponse | middleware/error.js:31-34 | `next(new ErrorResponse(m, s))` reaches the client as status s with message m |
| Replies.TypeErrorIs500 | middleware/error.js:31-34 | a TypeError reaches the client as a 500 with its message |
| Replies.ReadUserId | controllers/courses.js:50 | `req.user.id` without an account throws the TypeError for undefined or for null, as `req.user` is |
| Replies.OwnerCheck | controllers/courses.js:81-83 | the request may go on exactly when the owner is known and is the requester, or the requester is an admin; a missing owner, or an undefined or null requester, throws the matching TypeError |
| CoursesController.GetCourses | controllers/courses.js:11-24 | the advanced-results envelope, without pagination when a bootcamp id is given |
| CoursesController.GetCourse | controllers/courses.js:30-41 | the course with that id, or 404 |
| CoursesController.AddCourse | controllers/courses.js:47-66 | 500 with the undefined or null TypeError without an account; 404 for a missing bootcamp or a requester who does not own it; otherwise the creation's validation error or the new course, with the table and cost log changed only then |
| CoursesController.UpdateCourse | controllers/courses.js:72-91 | 404 for an unknown course or an unauthorised requester; otherwise the patch; only that row can change |
| CoursesController.DeleteCourse | controllers/courses.js:97-113 | 404 for an unknown course or an unauthorised requester; otherwise the table loses exactly that course's row, the others keeping their order, after its bootcamp's mean is logged |
| ReviewsController.GetReviews | controllers/reviews.js:12-23 | for a bootcamp id: exactly its reviews with their number and no pagination; otherwise the advanced-results envelope |
| ReviewsController.GetReview | controllers/reviews.js:30-41 | the review with that id, or 404 |
| ReviewsController.AddReview | controllers/reviews.js:47-59 | 500 with the undefined or null TypeError without an account; 404 for a missing bootcamp; otherwise the validation or duplicate error, or 201 with the review appended and the bootcamp's mean recomputed |
| ReviewsController.UpdateReview | controllers/reviews.js:66-83 | 404 for an unknown review, 401 for a requester who neither wrote it nor is an admin; otherwise the validation or duplicate error, or the updated review in its row; the mean is not recomputed |
| ReviewsController.DeleteReview | controllers/reviews.js:90-105 | 404 for an unknown review or an unauthorised requester; otherwise the table loses exactly that review's row, the others keeping their order, and its bootcamp's mean is recomputed |

## Left out

- Cast errors: an id that is not a valid ObjectId makes `findById` throw a CastError. The model treats every id as a plain string that is either found or not. The handler's CastError branch is still modelled in `ErrorHandler.Handle`.
- `populate` (the bootcamp joined into a course or review, and the `courses` virtual in listings) is not modelled. Documents are returned unjoined. The virtual itself is `BootcampModel.CoursesVirtual`.
- The query engine's own work is the parameter `find`: `JSON.parse` of the filter, casting, selection and sorting. It answers a plan with the documents or refuses it (a filter value that cannot be cast, an unknown operator, a projection mixing inclusion and exclusion); which plans it refuses is not modelled. The model covers what is handed to it and the skip/limit window.
- AdvancedResults.Param: a query value is a string, a list of strings, or one level of operator entries with string values. A list inside an entry (`?careers[in]=a&careers[in]=b`) and deeper nesting are not modelled.
- AdvancedResults.Stringify: keys are written in insertion order. JavaScript writes integer-like keys first, in ascending order, so for a query such as `?2=x&1[gt]=y` the first operator token, and with it what the rewrite changes, can differ from the model.
- Typed bodies: a course, review or bootcamp body holds values already of the schema's types. A value the store cannot cast (`"tuition": "abc"`, `"rating": "x"`) gives a validation error carrying a cast message in the source, and an explicit `null` in an update sets the path and then fails `required`; neither is modelled. Numbers are integers, so a fractional tuition or rating, which the source accepts, cannot be expressed.
- Schema.StringField: `maxlength` is checked against the number of characters of a `seq<char>` (Unicode scalar values). The store counts UTF-16 code units, so a text with characters outside the Basic Multilingual Plane (emoji, say) can be within the model's limit and over the store's.
- Message texts follow Node.js 16.9 or later for TypeErrors ("Cannot read properties of undefined (reading 'id')"; older versions print "Cannot read property 'id' of undefined") and the MongoDB driver 3 that Mongoose 5 uses for the duplicate-key error's name (`MongoError`). No branch reads that name.
- Floating point is not modelled: `Number.EPSILON`, binary rounding of means and coordinates kept as reals. Means are exact and ratings are integer hundredths. Halves always round up here, which the `Number.EPSILON` term only approximates.
- Strings.ParseInt: the precision loss of JavaScript numbers on very long digit runs is not modelled.
- utils/errorResponse.js is not part of this model. `ErrorResponse` is taken to pass its message to `Error`, so a list of messages becomes its comma-joined text.
- The order of a validation error's `errors` object follows the schema's path order. The model does not capture how the store may order it differently. For `careers`, only the first value outside the list is reported, under the path `careers`.
- The store's own default messages are reproduced only for the validators used (required, maxlength, min, max, enum).
- Hooks that are not awaited (`getAvgCost` in the course hooks) are modelled as if they had completed before the handler replies. Concurrency between requests is not modelled.
- `getAvgCost` prints its result. The model records that result in the `costLog` field instead of performing output.
- The `user` owner field of a course or bootcamp is not declared in those schemas as shown. It is carried as an optional field and treated as given. A document without one makes the ownership test throw a TypeError, which becomes a 500.
- A `createdAt` sent in a body would be stored as given. The model's bodies do not carry one, and creation always stamps `now`.
- JWT signing and verification, `slugify`, the geocoder and the two regular expressions are parameters with no properties assumed.
- `User.findById` in `protect` is a lookup in a `users` map.
- The router files, `server.js`, the async wrapper and the logger are not part of this model.
- The review router cannot be loaded as written: middleware/auth.js exports only `protect`, so the `authorize` that routes/reviews.js:8 takes from it is undefined, and calling it at routes/reviews.js:16-17 throws a TypeError. server.js:29-30 mounts only the bootcamp and course routers in any case. So no review route is reachable as the app is wired, and there is no role check anywhere. The review handlers are modelled as their code reads, as if they were reached.
- routes/bootcamps.js:13 mounts only the course router, under `/:bootcampId/courses`. The review handlers still take the route's `bootcampId` as optional, as their code reads it.
- `CoursesController.GetCourses` and `ReviewsController.GetReviews` take the already built advanced-results envelope as an input. A rejected advanced-results call sends no response.
- The course routes as written do not apply `protect` to the write handlers. The handlers therefore take `req.user` as a `Requester`: undefined when no `protect` ran, null for an unknown account, or the account. Either of the first two gives a 500.
- The bootcamp and auth controllers, the seeder and the User model are not part of this model. The bootcamp handlers delete with `findByIdAndDelete`, which skips the cascade hook. `Store.Db.RemoveBootcamp` models `bootcamp.remove()`, which runs it.
- `Store.Db.CreateBootcamp` does not check the store's own validator on `location.type`, which the hook always sets to "Point".
- Store.Db.UpdateCourse and Store.Db.UpdateReview: on an update the store validates only the paths set and runs no save hook. No average is recomputed after a review update, as in the code.
