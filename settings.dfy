/** Configuration as the hosting code reads it: a flat map from keys to
    string values, where reading a missing key gives null. */
module Settings {
  import opened Wrappers

  type Configuration = map<string, string>

  /** `configuration[key]`: the value, or null when the key is missing. */
  function Lookup(configuration: Configuration, key: string): (r: Option<string>)
    ensures r.Some? <==> key in configuration
    ensures r.Some? ==> r.value == configuration[key]
  {
    if key in configuration then Some(configuration[key]) else None
  }

  /** `configuration[key] = value`: afterwards `key` reads `value`, null
      included, and every other key reads as before. */
  function Assign(configuration: Configuration, key: string, value: Option<string>): (r: Configuration)
    ensures Lookup(r, key) == value
    ensures forall k :: k != key ==> Lookup(r, k) == Lookup(configuration, k)
  {
    if value.Some? then configuration[key := value.value] else configuration - {key}
  }
}
