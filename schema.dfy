/** The store's schema validators and their messages, as the three models
    use them. A field that is required fails when it is missing or, for a
    string or a list, empty; each other validator only looks at a value
    that is present. On a full validation (a document being created) a
    missing required field fails; on an update only the fields being set
    are validated. Each field reports at most its first failure. */
module Schema {
  import opened Common
  import opened Strings
  import opened ErrorHandler
  import opened Messages

  /** The check of a required field of any type that is present. */
  function Required<T>(path: string, v: Option<T>, full: bool, message: Message): (r: seq<FieldError>)
    ensures |r| <= 1
    ensures r != [] <==> full && v.None?
  {
    if full && v.None? then [FieldError(path, message)] else []
  }

  /** A string field: required (when `required` is set), then at most
      `maxLength` characters (when given). */
  function StringField(path: string, v: Option<string>, full: bool, required: bool, requiredMessage: Message,
                       maxLength: Option<(nat, Message)>): (r: seq<FieldError>)
    ensures |r| <= 1
    ensures r == [] <==>
      (required ==> (v.Some? && v.value != "") || (!full && v.None?))
      && (v.Some? && maxLength.Some? ==> |v.value| <= maxLength.value.0)
  {
    match v
    case None => if required && full then [FieldError(path, requiredMessage)] else []
    case Some(s) =>
      if required && s == "" then [FieldError(path, requiredMessage)]
      else if maxLength.Some? && |s| > maxLength.value.0 then [FieldError(path, maxLength.value.1)]
      else []
  }

  /** A string field restricted to a list of values. */
  function EnumField(path: string, v: Option<string>, full: bool, required: bool, requiredMessage: Message,
                     values: seq<string>): (r: seq<FieldError>)
    ensures |r| <= 1
    ensures r == [] <==>
      (required ==> (v.Some? && v.value != "") || (!full && v.None?))
      && (v.Some? ==> v.value in values)
  {
    match v
    case None => if required && full then [FieldError(path, requiredMessage)] else []
    case Some(s) =>
      if required && s == "" then [FieldError(path, requiredMessage)]
      else if s !in values then [FieldError(path, EnumDefault(path, s))]
      else []
  }

  /** A number field with optional bounds and their messages. */
  function NumberField(path: string, v: Option<int>, full: bool, required: bool, requiredMessage: Message,
                       min: Option<(int, Message)>, max: Option<(int, Message)>): (r: seq<FieldError>)
    ensures |r| <= 1
    ensures r == [] <==>
      (required && full ==> v.Some?)
      && (v.Some? && min.Some? ==> v.value >= min.value.0)
      && (v.Some? && max.Some? ==> v.value <= max.value.0)
  {
    match v
    case None => if required && full then [FieldError(path, requiredMessage)] else []
    case Some(n) =>
      if min.Some? && n < min.value.0 then [FieldError(path, min.value.1)]
      else if max.Some? && n > max.value.0 then [FieldError(path, max.value.1)]
      else []
  }

  /** A string field that must match a pattern when non-empty; the
      pattern is a parameter (regular expressions are not modelled). */
  function MatchField(path: string, v: Option<string>, matches: string -> bool, message: Message): (r: seq<FieldError>)
    ensures r == [] <==> (v.Some? && v.value != "" ==> matches(v.value))
  {
    match v
    case Some(s) => if s != "" && !matches(s) then [FieldError(path, message)] else []
    case None => []
  }

  /** A trimmed field: the value is trimmed before it is validated and
      stored. */
  function Trimmed(v: Option<string>): (r: Option<string>)
    ensures r.Some? <==> v.Some?
    ensures r.Some? ==> r.value == Trim(v.value)
  {
    match v
    case Some(s) => Some(Trim(s))
    case None => None
  }
}
