/** The iOS web view's script message handler for the `flutterEsimBridge` channel. */
module IosWebView {
  import opened Wrappers
  import opened Channel
  import opened UniversalLink

  const BridgeName := "flutterEsimBridge"

  /**
   * `handleInstallEsimProfile`: the link to open, or nothing when it does
   * not parse. The text is the setup template followed by the
   * percent-encoded code, or by the raw code when encoding fails.
   */
  function HandleInstallEsimProfile(f: Foundation, code: string): (r: Option<Url>)
    ensures f.percentEncode(code).Some? ==> r == f.parseUrl(Template + f.percentEncode(code).value)
    ensures f.percentEncode(code).None? ==> r == f.parseUrl(Template + code)
  {
    BuildLink(f, code)
  }

  /** The `method` and `args` of a message body, when it is a dictionary with a String method. */
  function MethodOf(body: Dyn): Option<string> {
    StringEntry(body, "method")
  }

  /** `args` of the body, or `Null` when absent (`body["args"]`). */
  function ArgsOf(body: Dyn): Dyn
    requires body.Dict?
  {
    if "args" in body.entries then body.entries["args"] else Null
  }

  /**
   * `userContentController(_:didReceive:)`: the link opened for a message,
   * if any. Only messages on the bridge channel whose body names a String
   * method `installEsimProfile` or `openUniversalLink` with a String
   * argument open a link; everything else is ignored.
   */
  function DidReceive(f: Foundation, name: string, body: Dyn): (r: Option<Url>)
    ensures name != BridgeName ==> r.None?
    ensures MethodOf(body).None? ==> r.None?
    ensures r.Some? ==>
      && name == BridgeName
      && MethodOf(body).Some? && MethodOf(body).value in {"installEsimProfile", "openUniversalLink"}
      && ArgsOf(body).Str?
      && r == HandleInstallEsimProfile(f, ArgsOf(body).text)
    ensures
      (&& name == BridgeName
       && MethodOf(body).Some? && MethodOf(body).value in {"installEsimProfile", "openUniversalLink"}
       && ArgsOf(body).Str?)
      ==> r == BuildLink(f, ArgsOf(body).text)
  {
    if name != BridgeName then None
    else
      match MethodOf(body)
      case None => None
      case Some(m) =>
        var args := ArgsOf(body);
        if m == "installEsimProfile" then
          if args.Str? then HandleInstallEsimProfile(f, args.text) else None
        else if m == "openUniversalLink" then
          if args.Str? then HandleInstallEsimProfile(f, args.text) else None
        else None
  }

  /** The page's `{method, args}` message. */
  function Message(m: string, code: string): (body: Dyn)
    ensures MethodOf(body) == Some(m)
  {
    Dict(map["method" := Str(m), "args" := Str(code)])
  }

  /** The two bridge methods are aliases: the same code opens the same link. */
  lemma BridgeMethodsAlias(f: Foundation, code: string)
    ensures DidReceive(f, BridgeName, Message("installEsimProfile", code)) ==
            DidReceive(f, BridgeName, Message("openUniversalLink", code))
  {
  }

  /** An unknown method opens nothing. */
  lemma UnknownMethodIgnored(f: Foundation, m: string, code: string)
    requires m !in {"installEsimProfile", "openUniversalLink"}
    ensures DidReceive(f, BridgeName, Message(m, code)).None?
  {
  }
}
