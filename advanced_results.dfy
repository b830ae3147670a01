/** The advanced-results middleware: it turns a request's query string into
    a store query (filter, projection, sort order, skip and limit) and wraps
    the page of results it gets back in an envelope with pagination
    metadata.

    The store itself is a parameter: `find` answers a query plan with the
    matching documents, sorted, projected and joined as the store does it,
    or with None when the store refuses the plan; the model applies the
    skip and limit bounds to that answer. */
module AdvancedResults {
  import opened Common
  import opened Strings

  // ---------------------------------------------------------------------
  // The query object
  // ---------------------------------------------------------------------

  /** A query-string value: a plain string (`?a=x`), a list (`?a=x&a=y`), or
      an object of operator entries (`?a[gt]=x`). */
  datatype Param = Str(s: string) | Arr(items: seq<string>) | Obj(entries: seq<(string, string)>)

  /** A JavaScript object as an association list in insertion order. */
  type Query = seq<(string, Param)>

  predicate DistinctKeys(q: Query) {
    forall i, j :: 0 <= i < j < |q| ==> q[i].0 != q[j].0
  }

  /** `q[k]`: the value stored under `k`, if any. */
  function Lookup(q: Query, k: string): Option<Param> {
    if |q| == 0 then None
    else if q[0].0 == k then Some(q[0].1)
    else Lookup(q[1..], k)
  }

  /** `q[k] = v`: overwrites the value in place, or appends the key. */
  function Assign(q: Query, k: string, v: Param): (r: Query)
    ensures forall j :: Lookup(r, j) == if j == k then Some(v) else Lookup(q, j)
    ensures DistinctKeys(q) ==> DistinctKeys(r)
  {
    if Lookup(q, k).Some? then Overwrite(q, k, v)
    else
      forall j ensures Lookup(q + [(k, v)], j) == if j == k then Some(v) else Lookup(q, j) {
        LookupAppend(q, k, v, j);
      }
      forall i | 0 <= i < |q| ensures q[i].0 != k {
        LookupFindsKey(q, i);
      }
      q + [(k, v)]
  }

  lemma {:induction false} LookupAppend(q: Query, k: string, v: Param, j: string)
    requires Lookup(q, k).None?
    ensures Lookup(q + [(k, v)], j) == if j == k then Some(v) else Lookup(q, j)
  {
    if |q| > 0 {
      assert (q + [(k, v)])[1..] == q[1..] + [(k, v)];
      LookupAppend(q[1..], k, v, j);
    }
  }

  function Overwrite(q: Query, k: string, v: Param): (r: Query)
    ensures |r| == |q|
    ensures forall i :: 0 <= i < |q| ==> r[i].0 == q[i].0
    ensures forall j :: Lookup(r, j) == if j == k && Lookup(q, k).Some? then Some(v) else Lookup(q, j)
  {
    if |q| == 0 then []
    else [(q[0].0, if q[0].0 == k then v else q[0].1)] + Overwrite(q[1..], k, v)
  }

  /** `delete q[k]`. */
  function Delete(q: Query, k: string): (r: Query)
    ensures forall j :: Lookup(r, j) == if j == k then None else Lookup(q, j)
    ensures forall i :: 0 <= i < |r| ==> exists m :: 0 <= m < |q| && r[i] == q[m]
    ensures DistinctKeys(q) ==> DistinctKeys(r)
  {
    if |q| == 0 then []
    else if q[0].0 == k then Delete(q[1..], k)
    else
      var rest := Delete(q[1..], k);
      assert DistinctKeys(q) ==> forall i :: 0 <= i < |rest| ==> rest[i].0 != q[0].0 by {
        if DistinctKeys(q) {
          forall i | 0 <= i < |rest| ensures rest[i].0 != q[0].0 {
            var m :| 0 <= m < |q[1..]| && rest[i] == q[1..][m];
            assert rest[i] == q[m + 1];
          }
        }
      }
      [q[0]] + rest
  }

  lemma {:induction false} LookupFindsKey(q: Query, i: nat)
    requires i < |q|
    ensures Lookup(q, q[i].0).Some?
  {
    if i > 0 && q[0].0 != q[i].0 {
      LookupFindsKey(q[1..], i - 1);
    }
  }

  /** Deleting a list of keys one after another. */
  function DeleteAll(q: Query, ks: seq<string>): Query
    decreases |ks|
  {
    if |ks| == 0 then q else DeleteAll(Delete(q, ks[0]), ks[1..])
  }

  lemma {:induction false} LookupDeleteAll(q: Query, ks: seq<string>, j: string)
    ensures Lookup(DeleteAll(q, ks), j) == if j in ks then None else Lookup(q, j)
    decreases |ks|
  {
    if |ks| > 0 {
      LookupDeleteAll(Delete(q, ks[0]), ks[1..], j);
      assert j in ks <==> j == ks[0] || j in ks[1..];
    }
  }

  /** The control keys that are not filters. */
  const RemoveFields: seq<string> := ["select", "sort", "page", "limit"]

  /** JavaScript truthiness of a route parameter: present and non-empty. */
  predicate Present(routeParam: Option<string>) {
    routeParam.Some? && routeParam.value != ""
  }

  /** The filter object: the query, with `bootcamp` set from the route when
      a bootcamp id is given, and without the control keys. */
  function FilterFor(query: Query, bootcampId: Option<string>): Query {
    var withRoute := if Present(bootcampId) then Assign(query, "bootcamp", Str(bootcampId.value)) else query;
    DeleteAll(withRoute, RemoveFields)
  }

  /** No control key survives into the filter. */
  lemma FilterDropsControlKeys(query: Query, bootcampId: Option<string>, k: string)
    requires k in RemoveFields
    ensures Lookup(FilterFor(query, bootcampId), k).None?
  {
    var withRoute := if Present(bootcampId) then Assign(query, "bootcamp", Str(bootcampId.value)) else query;
    LookupDeleteAll(withRoute, RemoveFields, k);
  }

  /** Every other query key survives unchanged, except that a route
      bootcamp id overrides a `bootcamp` key of the query. */
  lemma FilterKeepsOtherKeys(query: Query, bootcampId: Option<string>, k: string)
    requires k !in RemoveFields
    ensures Lookup(FilterFor(query, bootcampId), k) ==
      if k == "bootcamp" && Present(bootcampId) then Some(Str(bootcampId.value)) else Lookup(query, k)
  {
    var withRoute := if Present(bootcampId) then Assign(query, "bootcamp", Str(bootcampId.value)) else query;
    LookupDeleteAll(withRoute, RemoveFields, k);
  }

  /** A well-formed object stays well-formed. */
  lemma {:induction false} DeleteAllKeepsDistinct(q: Query, ks: seq<string>)
    requires DistinctKeys(q)
    ensures DistinctKeys(DeleteAll(q, ks))
    decreases |ks|
  {
    if |ks| > 0 {
      DeleteAllKeepsDistinct(Delete(q, ks[0]), ks[1..]);
    }
  }

  /** Builds the filter as the middleware does: copy the query, set the
      route's bootcamp id, then delete each control key in turn. */
  method BuildFilter(query: Query, bootcampId: Option<string>) returns (reqQuery: Query)
    ensures reqQuery == FilterFor(query, bootcampId)
  {
    reqQuery := query;
    if Present(bootcampId) {
      reqQuery := Assign(reqQuery, "bootcamp", Str(bootcampId.value));
    }
    ghost var start := reqQuery;
    for i := 0 to |RemoveFields|
      invariant DeleteAll(reqQuery, RemoveFields[i..]) == DeleteAll(start, RemoveFields)
    {
      assert RemoveFields[i..][1..] == RemoveFields[i + 1..];
      reqQuery := Delete(reqQuery, RemoveFields[i]);
    }
  }

  // ---------------------------------------------------------------------
  // JSON.stringify of the filter
  // ---------------------------------------------------------------------

  function HexDigit(n: nat): char
    requires n < 16
  {
    if n < 10 then DigitChar(n) else (('a' as int) + n - 10) as char
  }

  /** How `JSON.stringify` writes one character inside a string literal. */
  function EscapeChar(c: char): string {
    if c == '"' then "\\\""
    else if c == '\\' then "\\\\"
    else if c == '\U{0008}' then "\\b"
    else if c == '\U{000C}' then "\\f"
    else if c == '\n' then "\\n"
    else if c == '\r' then "\\r"
    else if c == '\t' then "\\t"
    else if c < ' ' then "\\u00" + [HexDigit((c as int) / 16), HexDigit((c as int) % 16)]
    else [c]
  }

  function Escape(s: string): string {
    if |s| == 0 then "" else EscapeChar(s[0]) + Escape(s[1..])
  }

  /** A character that JSON writes as itself. */
  predicate Plain(c: char) {
    c >= ' ' && c != '"' && c != '\\'
  }

  /** Text without quotes, backslashes or control characters is written
      as it is. */
  lemma {:induction false} EscapePlain(s: string)
    requires forall k :: 0 <= k < |s| ==> Plain(s[k])
    ensures Escape(s) == s
  {
    if |s| > 0 {
      EscapePlain(s[1..]);
    }
  }

  function Quote(s: string): string {
    "\"" + Escape(s) + "\""
  }

  function JoinJson(parts: seq<string>): string {
    if |parts| == 0 then ""
    else if |parts| == 1 then parts[0]
    else parts[0] + "," + JoinJson(parts[1..])
  }

  function QuoteAll(items: seq<string>): (r: seq<string>)
    ensures |r| == |items|
    ensures forall k :: 0 <= k < |items| ==> r[k] == Quote(items[k])
  {
    if |items| == 0 then [] else [Quote(items[0])] + QuoteAll(items[1..])
  }

  function EntriesJson(es: seq<(string, string)>): seq<string> {
    if |es| == 0 then [] else [Quote(es[0].0) + ":" + Quote(es[0].1)] + EntriesJson(es[1..])
  }

  function ParamJson(p: Param): string {
    match p
    case Str(s) => Quote(s)
    case Arr(items) => "[" + JoinJson(QuoteAll(items)) + "]"
    case Obj(entries) => "{" + JoinJson(EntriesJson(entries)) + "}"
  }

  function MembersJson(q: Query): seq<string> {
    if |q| == 0 then [] else [Quote(q[0].0) + ":" + ParamJson(q[0].1)] + MembersJson(q[1..])
  }

  /** `JSON.stringify(reqQuery)`. */
  function Stringify(q: Query): string {
    "{" + JoinJson(MembersJson(q)) + "}"
  }

  // ---------------------------------------------------------------------
  // The comparison-operator rewrite
  // ---------------------------------------------------------------------

  /** `\w` in a regular expression. */
  predicate IsWordChar(c: char) {
    ('a' <= c <= 'z') || ('A' <= c <= 'Z') || ('0' <= c <= '9') || c == '_'
  }

  /** `\b` at position `i` of `s`: a word character on exactly one side. */
  predicate Boundary(s: string, i: nat)
    requires i <= |s|
  {
    (i > 0 && IsWordChar(s[i - 1])) != (i < |s| && IsWordChar(s[i]))
  }

  /** `t` occurs at `p` as a whole word. */
  predicate WordAt(s: string, p: nat, t: string)
    requires p <= |s|
  {
    p + |t| <= |s| && s[p..p + |t|] == t && Boundary(s, p) && Boundary(s, p + |t|)
  }

  /** `\b(gt|gte|lt|lte|in)\b` matches at `p`. */
  predicate OperatorAt(s: string, p: nat)
    requires p <= |s|
  {
    WordAt(s, p, "gt") || WordAt(s, p, "gte") || WordAt(s, p, "lt") || WordAt(s, p, "lte") || WordAt(s, p, "in")
  }

  /** The leftmost match at or after `from`, as a regular-expression search
      finds it. */
  function FirstOperator(s: string, from: nat): (r: Option<nat>)
    requires from <= |s|
    ensures r.Some? ==> from <= r.value < |s| && OperatorAt(s, r.value)
    ensures r.Some? ==> forall q :: from <= q < r.value ==> !OperatorAt(s, q)
    ensures r.None? ==> forall q :: from <= q <= |s| ==> !OperatorAt(s, q)
    decreases |s| - from
  {
    if from == |s| then None
    else if OperatorAt(s, from) then Some(from)
    else FirstOperator(s, from + 1)
  }

  /** `s.replace(/\b(gt|gte|lt|lte|in)\b/, match => '$' + match)`: without
      the global flag only the first match gets its '$'. */
  function RewriteOperators(s: string): string {
    match FirstOperator(s, 0)
    case None => s
    case Some(p) => s[..p] + "$" + s[p..]
  }

  /** A string without any whole-word operator is left unchanged. */
  lemma RewriteWithoutOperator(s: string)
    requires forall p :: 0 <= p <= |s| ==> !OperatorAt(s, p)
    ensures RewriteOperators(s) == s
  {
  }

  /** Otherwise exactly one '$' is inserted, in front of the first
      whole-word operator; everything else, later operators included,
      stays as it was. */
  lemma RewriteFirstOperator(s: string, p: nat)
    requires p <= |s| && OperatorAt(s, p)
    requires forall q :: 0 <= q < p ==> !OperatorAt(s, q)
    ensures RewriteOperators(s) == s[..p] + "$" + s[p..]
  {
    match FirstOperator(s, 0)
    case None =>
      assert false;
    case Some(f) =>
      if f < p {
        assert false;
      } else if f > p {
        assert false;
      }
  }

  /** The rewrite only ever inserts one '$': taking it out again gives the
      serialized filter back. */
  lemma RewriteInsertsOneDollar(s: string)
    ensures var r := RewriteOperators(s);
      r == s || exists p :: 0 <= p <= |s| && OperatorAt(s, p) && r == s[..p] + "$" + s[p..]
  {
    match FirstOperator(s, 0)
    case None =>
    case Some(p) =>
      assert OperatorAt(s, p) && RewriteOperators(s) == s[..p] + "$" + s[p..];
  }

  // ---------------------------------------------------------------------
  // Selection, sort, page and limit
  // ---------------------------------------------------------------------

  /** JavaScript truthiness of a query value. */
  predicate Truthy(p: Option<Param>) {
    match p
    case None => false
    case Some(Str(s)) => s != ""
    case Some(_) => true
  }

  /** Why the middleware's promise rejects: `replace` called on a list or
      an object, the store refusing the plan (a filter value it cannot
      cast, an unknown operator, a projection mixing inclusion and
      exclusion), or the store refusing a negative skip. */
  datatype Rejection = SelectNotString | SortNotString | StoreRefused | NegativeSkip

  /** The projection string: the first comma of `select` becomes a space. */
  function SelectOf(query: Query): (r: Result<Option<string>, Rejection>)
    ensures r.Failure? <==> Truthy(Lookup(query, "select")) && !Lookup(query, "select").value.Str?
    ensures !Truthy(Lookup(query, "select")) ==> r == Success(None)
    ensures forall s :: Lookup(query, "select") == Some(Str(s)) && s != "" ==>
      r == Success(Some(ReplaceFirst(s, ',', ' ')))
  {
    match Lookup(query, "select")
    case Some(Str(s)) => if s != "" then Success(Some(ReplaceFirst(s, ',', ' '))) else Success(None)
    case Some(_) => Failure(SelectNotString)
    case None => Success(None)
  }

  const DefaultSort := "-createdAt"

  /** The sort string: the first comma of `sort` becomes a space; without a
      sort the newest documents come first. */
  function SortOf(query: Query): (r: Result<string, Rejection>)
    ensures r.Failure? <==> Truthy(Lookup(query, "sort")) && !Lookup(query, "sort").value.Str?
    ensures !Truthy(Lookup(query, "sort")) ==> r == Success(DefaultSort)
    ensures forall s :: Lookup(query, "sort") == Some(Str(s)) && s != "" ==>
      r == Success(ReplaceFirst(s, ',', ' '))
  {
    match Lookup(query, "sort")
    case Some(Str(s)) => if s != "" then Success(ReplaceFirst(s, ',', ' ')) else Success(DefaultSort)
    case Some(_) => Failure(SortNotString)
    case None => Success(DefaultSort)
  }

  /** `String(value)` of a query value; a missing value is "undefined". */
  function ToJsString(p: Option<Param>): string {
    match p
    case None => "undefined"
    case Some(Str(s)) => s
    case Some(Arr(items)) => Join(items, ',')
    case Some(Obj(_)) => "[object Object]"
  }

  /** `parseInt(value, 10) || default`: NaN and 0 both give the default. */
  function IntParam(p: Option<Param>, default: int): (r: int)
    requires default != 0
    ensures r != 0
  {
    match ParseInt(ToJsString(p))
    case None => default
    case Some(n) => if n == 0 then default else n
  }

  /** A missing page or limit takes its default. */
  lemma IntParamMissing(default: int)
    requires default != 0
    ensures IntParam(None, default) == default
  {
    var u := "undefined";
    assert u[0] == 'u' && !IsSpace(u[0]) && !IsDigit(u[0]);
    assert TrimStart(u) == u;
    assert SignStripped(u) == u;
    assert DigitPrefix(u) == "";
  }

  /** A decimal number is read as itself, except that 0 takes the default. */
  lemma IntParamDecimal(n: int, default: int)
    requires default != 0
    ensures IntParam(Some(Str(IntToString(n))), default) == if n == 0 then default else n
  {
    ParseIntToString(n);
  }

  function PageOf(query: Query): int { IntParam(Lookup(query, "page"), 1) }
  function LimitOf(query: Query): int { IntParam(Lookup(query, "limit"), 100) }

  /** What the middleware hands the store. */
  datatype Plan = Plan(filter: string, select: Option<string>, sort: string)

  /** The plan for a request, or the rejection building it runs into. */
  function PlanFor(query: Query, bootcampId: Option<string>): Result<Plan, Rejection> {
    var filter := RewriteOperators(Stringify(FilterFor(query, bootcampId)));
    match SelectOf(query)
    case Failure(e) => Failure(e)
    case Success(select) =>
      match SortOf(query)
      case Failure(e) => Failure(e)
      case Success(sort) => Success(Plan(filter, select, sort))
  }

  // ---------------------------------------------------------------------
  // Skip and limit
  // ---------------------------------------------------------------------

  function Abs(n: int): nat { if n < 0 then -n else n }
  function Min(a: int, b: int): int { if a < b then a else b }

  /** `skip(skip).limit(limit)` applied by the store: a negative skip is
      refused; a negative limit counts as its absolute value. */
  function Window<D>(docs: seq<D>, skip: int, limit: int): (r: Option<seq<D>>)
    requires limit != 0
    ensures r.None? <==> skip < 0
    ensures r.Some? ==> |r.value| <= Abs(limit)
    ensures r.Some? && skip + Abs(limit) <= |docs| ==> |r.value| == Abs(limit)
    // the documents from position `skip` on, as many as the limit allows
    ensures r.Some? ==> |r.value| == Min(Abs(limit), |docs| - Min(skip, |docs|))
    ensures r.Some? ==> forall j :: 0 <= j < |r.value| ==> r.value[j] == docs[skip + j]
  {
    if skip < 0 then None
    else
      var lo := Min(skip, |docs|);
      Some(docs[lo..Min(skip + Abs(limit), |docs|)])
  }

  /** Pages of a positive size cut the result into consecutive slices:
      document `i` is found on page `i / limit + 1`, at offset
      `i % limit`. */
  lemma WindowFindsEveryDocument<D>(docs: seq<D>, limit: int, i: nat)
    requires limit > 0 && i < |docs|
    ensures var page := i / limit + 1;
      var w := Window(docs, (page - 1) * limit, limit);
      w.Some? && i % limit < |w.value| && w.value[i % limit] == docs[i]
  {
    PageStart(i, limit);
    var skip, o := (i / limit + 1 - 1) * limit, i % limit;
    var w := Window(docs, skip, limit);
    assert |w.value| == Min(limit, |docs| - skip);
    assert w.value[o] == docs[skip + o];
  }

  /** Page `i / limit + 1` starts `i % limit` documents before document `i`. */
  lemma PageStart(i: nat, limit: int)
    requires limit > 0
    ensures var skip := (i / limit + 1 - 1) * limit;
      0 <= skip && skip + i % limit == i && 0 <= i % limit < limit
  {
    var q, o := i / limit, i % limit;
    assert (q + 1 - 1) * limit == q * limit;
    assert q * limit + o == i && 0 <= o < limit;
  }

  // ---------------------------------------------------------------------
  // The envelope
  // ---------------------------------------------------------------------

  datatype PageRef = PageRef(page: int, limit: int, totalDoc: nat)

  datatype Pagination = Pagination(nextPage: Option<PageRef>, prevPage: Option<PageRef>)

  /** `{success, count, pagination, data}`; `pagination` is None once a
      handler has deleted it. */
  datatype Envelope<D> = Envelope(success: bool, count: nat, pagination: Option<Pagination>, data: seq<D>)

  /** The metadata for the current page, filled in field by field:
      `nextPage` when documents remain after this page, `prevPage` when
      this page does not start at the beginning. */
  method BuildPagination(page: int, limit: int, totalDoc: nat) returns (pagination: Pagination)
    ensures pagination.nextPage ==
      if page * limit < totalDoc then Some(PageRef(page + 1, limit, totalDoc)) else None
    ensures pagination.prevPage ==
      if (page - 1) * limit > 0 then Some(PageRef(page - 1, limit, totalDoc)) else None
  {
    var startIndex := (page - 1) * limit;
    var endIndex := page * limit;
    pagination := Pagination(None, None);
    if endIndex < totalDoc {
      pagination := pagination.(nextPage := Some(PageRef(page + 1, limit, totalDoc)));
    }
    if startIndex > 0 {
      pagination := pagination.(prevPage := Some(PageRef(page - 1, limit, totalDoc)));
    }
  }

  /** `advancedResults(model, populate)` for one request. `collection` is
      the whole collection (only its size is used: the document count
      ignores the filter) and `find` runs a plan against it. */
  method AdvancedResults<D>(query: Query, bootcampId: Option<string>, collection: seq<D>, find: Plan -> Option<seq<D>>)
    returns (r: Result<Envelope<D>, Rejection>)
    ensures PlanFor(query, bootcampId).Failure? ==> r == Failure(PlanFor(query, bootcampId).error)
    ensures PlanFor(query, bootcampId).Success? && find(PlanFor(query, bootcampId).value).None? ==>
      r == Failure(StoreRefused)
    ensures (PlanFor(query, bootcampId).Success? && find(PlanFor(query, bootcampId).value).Some?
      && (PageOf(query) - 1) * LimitOf(query) < 0) ==>
      r == Failure(NegativeSkip)
    ensures r.Success? ==>
      && PlanFor(query, bootcampId).Success?
      && find(PlanFor(query, bootcampId).value).Some?
      && r.value.success
      && r.value.count == |r.value.data|
      && Window(find(PlanFor(query, bootcampId).value).value, (PageOf(query) - 1) * LimitOf(query), LimitOf(query))
         == Some(r.value.data)
      && r.value.pagination.Some?
      && r.value.pagination.value.nextPage ==
         (if PageOf(query) * LimitOf(query) < |collection|
          then Some(PageRef(PageOf(query) + 1, LimitOf(query), |collection|)) else None)
      && r.value.pagination.value.prevPage ==
         (if (PageOf(query) - 1) * LimitOf(query) > 0
          then Some(PageRef(PageOf(query) - 1, LimitOf(query), |collection|)) else None)
    ensures r.Failure? <==>
      PlanFor(query, bootcampId).Failure? || find(PlanFor(query, bootcampId).value).None?
      || (PageOf(query) - 1) * LimitOf(query) < 0
  {
    var reqQuery := BuildFilter(query, bootcampId);
    var queryStr := Stringify(reqQuery);
    queryStr := RewriteOperators(queryStr);

    var select := SelectOf(query);
    if select.Failure? {
      assert PlanFor(query, bootcampId) == Failure(select.error);
      return Failure(select.error);
    }
    var sort := SortOf(query);
    if sort.Failure? {
      assert PlanFor(query, bootcampId) == Failure(sort.error);
      return Failure(sort.error);
    }
    var plan := Plan(queryStr, select.value, sort.value);
    assert PlanFor(query, bootcampId) == Success(plan);

    var page := PageOf(query);
    var limit := LimitOf(query);
    var startIndex := (page - 1) * limit;
    var totalDoc := |collection|;

    var answer := find(plan);
    if answer.None? {
      return Failure(StoreRefused);
    }
    var results := Window(answer.value, startIndex, limit);
    if results.None? {
      return Failure(NegativeSkip);
    }
    var pagination := BuildPagination(page, limit, totalDoc);
    r := Success(Envelope(true, |results.value|, Some(pagination), results.value));
  }
}
