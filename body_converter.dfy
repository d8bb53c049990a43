/**
 * `BodyConverter` (Office365RESTAPIExplorer ObjectConverters): shows a
 * request body as indented JSON when it is a JSON object, as it is
 * otherwise.
 */
module BodyConverter {
  import opened Wrappers
  import opened Json

  /** `Convert`: null becomes "{}", JSON object text is re-printed indented, any other text is returned unchanged. */
  function Convert(value: Option<string>, lib: JsonLib): (text: string)
    ensures value.None? ==> text == "{}"
    ensures value.Some? && ParseObject(lib, value.value).Failure? ==> text == value.value
    ensures value.Some? && ParseObject(lib, value.value).Success? ==> text == lib.indent(ParseObject(lib, value.value).value)
  {
    if value.None? then "{}"
    else match ParseObject(lib, value.value)
      case Success(o) => lib.indent(o)
      case Failure(_) => value.value
  }

  /** `ConvertBack`: the edited text, unchanged. */
  function ConvertBack(text: string): string
  {
    text
  }

  /** A body that is not JSON object text survives a display and edit round trip unchanged; a null body comes back as "{}". */
  lemma RoundTrip(value: Option<string>, lib: JsonLib)
    ensures value.Some? && ParseObject(lib, value.value).Failure? ==> ConvertBack(Convert(value, lib)) == value.value
    ensures value.None? ==> ConvertBack(Convert(value, lib)) == "{}"
  {
  }
}
