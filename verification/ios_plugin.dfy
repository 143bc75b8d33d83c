/**
 * The iOS plugin's method handler: argument extraction and validation,
 * and the Universal Link hand-off that replaces an in-app install.
 */
module IosPlugin {
  import opened Wrappers
  import opened Channel
  import opened UniversalLink

  /** What the handler can ask of the system. */
  datatype Uikit = Uikit(
    foundation: Foundation,
    openUrl: Url -> bool,                  // UIApplication.open's completion value
    supportsModels: seq<string> -> bool,   // EsimChecker.isSupportESim(supportedModels:)
    instructions: string)                  // the static instruction text

  /** The channel answer and the link handed to the system, if any. */
  datatype Handled = Handled(reply: Reply, link: Option<Url>)

  /** `call.arguments as? [String]`: a list made only of strings. */
  function StringList(args: Dyn): (r: Option<seq<string>>)
    ensures r.Some? <==> args.List? && forall i :: 0 <= i < |args.items| ==> args.items[i].Str?
    ensures r.Some? ==>
      && args.List? && |r.value| == |args.items|
      && forall i :: 0 <= i < |r.value| ==> args.items[i] == Str(r.value[i])
  {
    match args
    case List(items) =>
      if forall i :: 0 <= i < |items| ==> items[i].Str? then
        Some(seq(|items|, i requires 0 <= i < |items| => items[i].text))
      else None
    case _ => None
  }

  /** The activation code: a String argument itself, or the `profile` entry of a dictionary. */
  function ExtractCode(args: Dyn): (r: Option<string>)
    ensures args.Str? ==> r == Some(args.text)
    ensures args.Dict? ==> r == StringEntry(args, "profile")
    ensures !args.Str? && !args.Dict? ==> r.None?
  {
    match args
    case Str(code) => Some(code)
    case Dict(_) => StringEntry(args, "profile")
    case _ => None
  }

  /**
   * `openEsimUniversalLink`: build the link and hand it to the system,
   * answering with the system's verdict; a link that does not parse
   * answers `false` and opens nothing.
   */
  function OpenEsimUniversalLink(u: Uikit, code: string): (r: Handled)
    ensures r.link == BuildLink(u.foundation, code)
    ensures r.link.None? ==> r.reply == Success(Bool(false))
    ensures r.link.Some? ==> r.reply == Success(Bool(u.openUrl(r.link.value)))
  {
    match BuildLink(u.foundation, code)
    case None => Handled(Success(Bool(false)), None)
    case Some(url) => Handled(Success(Bool(u.openUrl(url))), Some(url))
  }

  /**
   * `handle(call, result)`: route by method name. `installEsimProfile`
   * answers `false` without opening anything for nil arguments or a missing
   * or empty code; `openUniversalLink` insists on a String argument but
   * accepts an empty one.
   */
  function Handle(u: Uikit, name: string, args: Dyn): (r: Handled)
    ensures name == "installEsimProfile" ==>
      (r.link.Some? ==> ExtractCode(args).Some? && ExtractCode(args).value != "")
    ensures name == "installEsimProfile" && (ExtractCode(args).None? || ExtractCode(args) == Some("")) ==>
      r == Handled(Success(Bool(false)), None)
    ensures name == "installEsimProfile" && ExtractCode(args).Some? && ExtractCode(args).value != "" ==>
      r == OpenEsimUniversalLink(u, ExtractCode(args).value)
    ensures name == "openUniversalLink" && !args.Str? ==>
      r == Handled(Error("INVALID_ARGUMENT", Some("Activation code is required")), None)
    ensures name == "openUniversalLink" && args.Str? ==> r == OpenEsimUniversalLink(u, args.text)
    ensures name == "isSupportESim" ==>
      r == Handled(Success(Bool(u.supportsModels(StringList(args).GetOr([])))), None)
    ensures name !in {"isSupportESim", "installEsimProfile", "openUniversalLink", "instructions"} ==>
      r == Handled(NotImplemented, None)
    ensures r.link.Some? ==> name in {"installEsimProfile", "openUniversalLink"}
  {
    if name == "isSupportESim" then
      Handled(Success(Bool(u.supportsModels(StringList(args).GetOr([])))), None)
    else if name == "installEsimProfile" then
      if args.Null? then Handled(Success(Bool(false)), None)
      else
        match ExtractCode(args)
        case None => Handled(Success(Bool(false)), None)
        case Some(code) =>
          if code == "" then Handled(Success(Bool(false)), None)
          else OpenEsimUniversalLink(u, code)
    else if name == "openUniversalLink" then
      if args.Str? then OpenEsimUniversalLink(u, args.text)
      else Handled(Error("INVALID_ARGUMENT", Some("Activation code is required")), None)
    else if name == "instructions" then
      Handled(Success(Str(u.instructions)), None)
    else
      Handled(NotImplemented, None)
  }

  /** Nil arguments never open a link. */
  lemma NilArgumentsRejected(u: Uikit)
    ensures Handle(u, "installEsimProfile", Null) == Handled(Success(Bool(false)), None)
  {
  }

  /** Both install spellings, a bare String and `{profile:}`, open the same link. */
  lemma ArgumentShapesAgree(u: Uikit, code: string)
    requires code != ""
    ensures Handle(u, "installEsimProfile", Str(code)) ==
            Handle(u, "installEsimProfile", Dict(map["profile" := Str(code)]))
    ensures Handle(u, "installEsimProfile", Str(code)) == Handle(u, "openUniversalLink", Str(code))
  {
  }
}
