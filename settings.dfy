/**
 * The application's local settings (`ApplicationData.Current.LocalSettings.Values`),
 * a string-keyed store of strings. Reading an absent key gives null, so a
 * caller that goes on to call `ToString()` on it throws.
 */
module LocalSettings {
  import opened Wrappers
  import opened Exceptions

  type Settings = map<string, string>

  /** `Values[key].ToString()`: the stored string, or a null dereference when the key is absent. */
  function Value(settings: Settings, key: string): (r: Result<string, Exception>)
    ensures r.Success? <==> key in settings
    ensures r.Success? ==> r.value == settings[key]
    ensures r.Failure? ==> r.error == NullReference(key)
  {
    if key in settings then Success(settings[key]) else Failure(NullReference(key))
  }
}
