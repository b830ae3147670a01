/** The messages of field errors. A message is kept as the rule that
    produced it and the values it names, and `Text` renders it: either
    the message the schema declares for the rule, or the store's default
    message for that kind of rule. */
module Messages {
  import opened Strings

  datatype Message =
    | Given(text: string)
    | RequiredDefault(path: string)
    | MaxLengthDefault(path: string, text: string, maxLength: nat)
    | MinDefault(path: string, number: int, min: int)
    | MaxDefault(path: string, number: int, max: int)
    | EnumDefault(path: string, text: string)

  /** The text the store puts in the field error's `message`. */
  function Text(m: Message): string {
    match m
    case Given(text) => text
    case RequiredDefault(path) => "Path `" + path + "` is required."
    case MaxLengthDefault(path, value, max) =>
      "Path `" + path + "` (`" + value + "`) is longer than the maximum allowed length (" + NatToString(max) + ")."
    case MinDefault(path, value, min) =>
      "Path `" + path + "` (" + IntToString(value) + ") is less than minimum allowed value (" + IntToString(min) + ")."
    case MaxDefault(path, value, max) =>
      "Path `" + path + "` (" + IntToString(value) + ") is more than maximum allowed value (" + IntToString(max) + ")."
    case EnumDefault(path, value) =>
      "`" + value + "` is not a valid enum value for path `" + path + "`."
  }
}
