/**
 * Values that cross a Flutter method channel, and the three ways a channel
 * call can be answered.
 */
module Channel {
  import opened Wrappers

  /**
   * A dynamically typed channel value: Kotlin's `Any?` or Swift's `Any?` as
   * produced by Flutter's standard message codec.
   */
  datatype Dyn =
    | Null
    | Str(text: string)
    | Bool(flag: bool)
    | Int(num: int)
    | List(items: seq<Dyn>)
    | Dict(entries: map<string, Dyn>)

  /**
   * The answer given to a method call: `result.success(v)`,
   * `result.error(code, message, details)` (details are always null here and
   * are not kept) or `result.notImplemented()`.
   */
  datatype Reply =
    | Success(value: Dyn)
    | Error(code: string, message: Option<string>)
    | NotImplemented

  /** The String stored under `key` of a map argument, if any (`(args as? Map)?.get(key) as? String`). */
  function StringEntry(args: Dyn, key: string): (r: Option<string>)
    ensures r.Some? <==> args.Dict? && key in args.entries && args.entries[key].Str?
    ensures r.Some? ==> args.entries[key] == Str(r.value)
  {
    match args
    case Dict(m) => if key in m && m[key].Str? then Some(m[key].text) else None
    case _ => None
  }
}
