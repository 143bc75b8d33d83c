/**
 * The Android web view's native bridge: the synchronous call that turns a
 * method-channel exchange into a JSON string for page scripts, and the
 * web view factory's URL argument.
 */
module JsBridge {
  import opened Wrappers
  import opened Channel
  import opened KotlinText
  import opened JsonString

  /** `(args as? Map<String, Any>)?.get("url") as? String ?: ""` in `create`. */
  function CreationUrl(args: Dyn): (url: string)
    ensures args.Dict? && "url" in args.entries && args.entries["url"].Str? ==> url == args.entries["url"].text
    ensures !(args.Dict? && "url" in args.entries && args.entries["url"].Str?) ==> url == ""
  {
    StringEntry(args, "url").GetOr("")
  }

  /**
   * How the posted channel call ended within the wait: answered through
   * the result callback, or an exception raised on the calling thread while
   * posting the call or waiting for it (an interrupted wait). An exception
   * from `invokeMethod` itself is raised on the main thread, outside the
   * bridge's catch: it produces no answer, so that call ends as a timeout.
   * No outcome at all (`None` below) is the ten-second timeout.
   */
  datatype Outcome = Answered(reply: Reply) | Threw(message: Option<string>)

  /** The call posted on the web view's method channel. */
  datatype MethodCall = MethodCall(name: string, arguments: Dyn)

  datatype BridgeCall = BridgeCall(request: MethodCall, result: string)

  /** An empty argument string is sent as null, any other as itself. */
  function ForwardedArgs(args: string): (a: Dyn)
    ensures a == Null <==> args == ""
    ensures args != "" ==> a == Str(args)
  {
    if args == "" then Null else Str(args)
  }

  const ErrorPrefix := "{\"success\":false,\"error\":\""
  const ErrorSuffix := "\"}"

  /** The three fixed failure envelopes, `{"success":false,"error":"<reason>"}`. */
  const InvalidResultEnvelope := ErrorPrefix + "Invalid result" + ErrorSuffix
  const NotImplementedEnvelope := ErrorPrefix + "Method not implemented" + ErrorSuffix
  const TimeoutEnvelope := ErrorPrefix + "Timeout" + ErrorSuffix

  /** The error envelope as the bridge interpolates it: the message pasted between quotes. */
  function RawErrorEnvelope(message: string): string {
    ErrorPrefix + message + ErrorSuffix
  }

  /** The error envelope with the message escaped as a JSON string. */
  function EscapedErrorEnvelope(message: string): string {
    ErrorPrefix + Escape(message) + ErrorSuffix
  }

  /**
   * What a page script gets from `JSON.parse(envelope).error` for an
   * envelope of the failure shape: the decoded message, or `None` when the
   * text is not such an envelope (`JSON.parse` throws or the shape differs).
   */
  function PageError(envelope: string): Option<string> {
    var n := |ErrorPrefix|;
    if |envelope| >= n && envelope[..n] == ErrorPrefix then
      match ReadBody(envelope[n..])
      case Some(l) => if l.rest == "}" then Some(l.text) else None
      case None => None
    else None
  }

  lemma PageErrorOfEnvelope(body: string, message: string)
    requires ReadBody(body + "\"" + "}") == Some(Literal(message, "}"))
    ensures PageError(ErrorPrefix + body + ErrorSuffix) == Some(message)
  {
    var env := ErrorPrefix + body + ErrorSuffix;
    assert env[..|ErrorPrefix|] == ErrorPrefix;
    assert env[|ErrorPrefix|..] == body + "\"" + "}";
  }

  /**
   * The error text a page should see for each outcome that is not a String
   * success: the reply's or exception's message (`null` when absent), or a
   * fixed reason. `None` for a String success, which is passed through.
   */
  function ExpectedError(o: Option<Outcome>): Option<string> {
    match o
    case None => Some("Timeout")
    case Some(Answered(Success(Str(_)))) => None
    case Some(Answered(Success(_))) => Some("Invalid result")
    case Some(Answered(Error(_, m))) => Some(Interpolate(m))
    case Some(Answered(NotImplemented)) => Some("Method not implemented")
    case Some(Threw(m)) => Some(Interpolate(m))
  }

  /** The string `callMethodSync` returns, with the error envelope rendered by `render`. */
  function ResultString(o: Option<Outcome>, render: string -> string): string {
    match o
    case None => TimeoutEnvelope
    case Some(Answered(Success(v))) => if v.Str? then v.text else InvalidResultEnvelope
    case Some(Answered(Error(_, m))) => render(Interpolate(m))
    case Some(Answered(NotImplemented)) => NotImplementedEnvelope
    case Some(Threw(m)) => render(Interpolate(m))
  }

  /** An envelope around a message that needs no escaping reads back as that message. */
  lemma PlainEnvelopeReadsBack(m: string)
    requires NeedsNoEscape(m)
    ensures PageError(ErrorPrefix + m + ErrorSuffix) == Some(m)
  {
    RawTextRoundTrip(m, "}");
    PageErrorOfEnvelope(m, m);
  }

  lemma FixedEnvelopesReadBack()
    ensures PageError(TimeoutEnvelope) == Some("Timeout")
    ensures PageError(InvalidResultEnvelope) == Some("Invalid result")
    ensures PageError(NotImplementedEnvelope) == Some("Method not implemented")
  {
    TimeoutReadsBack();
    InvalidResultReadsBack();
    NotImplementedReadsBack();
  }

  lemma TimeoutReadsBack()
    ensures PageError(TimeoutEnvelope) == Some("Timeout")
  {
    PlainEnvelopeReadsBack("Timeout");
  }

  lemma InvalidResultReadsBack()
    ensures PageError(InvalidResultEnvelope) == Some("Invalid result")
  {
    PlainEnvelopeReadsBack("Invalid result");
  }

  lemma NotImplementedReadsBack()
    ensures PageError(NotImplementedEnvelope) == Some("Method not implemented")
  {
    PlainEnvelopeReadsBack("Method not implemented");
  }

  /**
   * `callMethodSync` as written: post the call, wait for one outcome, and
   * interpolate error messages into the envelope unescaped. The page reads
   * the intended error back only when the message needs no escaping.
   */
  function CallMethodSyncAsWritten(name: string, args: string, o: Option<Outcome>): (r: BridgeCall)
    ensures r.request == MethodCall(name, ForwardedArgs(args))
    ensures o.None? ==> r.result == TimeoutEnvelope
    ensures o.Some? && o.value.Answered? && o.value.reply.Success? ==>
      r.result == (if o.value.reply.value.Str? then o.value.reply.value.text else InvalidResultEnvelope)
    ensures o == Some(Answered(NotImplemented)) ==> r.result == NotImplementedEnvelope
    // error and exception messages are pasted in as they are, whatever they contain
    ensures o.Some? && o.value.Answered? && o.value.reply.Error? ==>
      r.result == RawErrorEnvelope(Interpolate(o.value.reply.message))
    ensures o.Some? && o.value.Threw? ==> r.result == RawErrorEnvelope(Interpolate(o.value.message))
    ensures ExpectedError(o).Some? && NeedsNoEscape(ExpectedError(o).value) ==>
      PageError(r.result) == ExpectedError(o)
  {
    RawResultReadsBack(o);
    BridgeCall(MethodCall(name, ForwardedArgs(args)), ResultString(o, RawErrorEnvelope))
  }

  lemma RawResultReadsBack(o: Option<Outcome>)
    ensures ExpectedError(o).Some? && NeedsNoEscape(ExpectedError(o).value) ==>
      PageError(ResultString(o, RawErrorEnvelope)) == ExpectedError(o)
  {
    FixedEnvelopesReadBack();
    if ExpectedError(o).Some? && NeedsNoEscape(ExpectedError(o).value) {
      PlainEnvelopeReadsBack(ExpectedError(o).value);
    }
  }

  /** A quote in an error message breaks the as-written envelope: the page cannot read it. */
  lemma QuoteBreaksRawEnvelope()
    ensures ExpectedError(Some(Answered(Error("E", Some("\""))))) == Some("\"")
    ensures PageError(CallMethodSyncAsWritten("installEsimProfile", "x", Some(Answered(Error("E", Some("\""))))).result)
      == None
  {
  }

  /**
   * `callMethodSync` with the error message escaped: a String success is
   * passed through, and every other outcome (error, non-String success,
   * not implemented, timeout, exception) reads back as its intended error
   * message, whatever that message contains.
   */
  function CallMethodSync(name: string, args: string, o: Option<Outcome>): (r: BridgeCall)
    ensures r.request == MethodCall(name, ForwardedArgs(args))
    ensures ExpectedError(o).None? ==> r.result == o.value.reply.value.text
    ensures ExpectedError(o).Some? ==> PageError(r.result) == ExpectedError(o)
    ensures o.Some? && o.value.Answered? && o.value.reply.Error? ==>
      r.result == EscapedErrorEnvelope(Interpolate(o.value.reply.message))
    ensures o.Some? && o.value.Threw? ==> r.result == EscapedErrorEnvelope(Interpolate(o.value.message))
  {
    EscapedResultReadsBack(o);
    BridgeCall(MethodCall(name, ForwardedArgs(args)), ResultString(o, EscapedErrorEnvelope))
  }

  lemma EscapedResultReadsBack(o: Option<Outcome>)
    ensures ExpectedError(o).Some? ==> PageError(ResultString(o, EscapedErrorEnvelope)) == ExpectedError(o)
  {
    FixedEnvelopesReadBack();
    if ExpectedError(o).Some? {
      var m := ExpectedError(o).value;
      EscapeRoundTrip(m, "}");
      PageErrorOfEnvelope(Escape(m), m);
    }
  }

  /** The two renderings differ only on messages that need escaping. */
  lemma CorrectedAgreesOnPlainMessages(name: string, args: string, o: Option<Outcome>)
    requires ExpectedError(o).Some? ==> NeedsNoEscape(ExpectedError(o).value)
    ensures CallMethodSync(name, args, o) == CallMethodSyncAsWritten(name, args, o)
  {
    if ExpectedError(o).Some? {
      EscapeIdentityOnPlain(ExpectedError(o).value);
    }
  }

  /**
   * `isSupportESim()` from a page: the call always goes out without
   * arguments, and its result is the as-written bridge's string.
   */
  function IsSupportEsim(o: Option<Outcome>): (r: BridgeCall)
    ensures r.request == MethodCall("isSupportESim", Null)
    ensures o.Some? && o.value.Answered? && o.value.reply.Error? ==>
      r.result == RawErrorEnvelope(Interpolate(o.value.reply.message))
    ensures o.Some? && o.value.Threw? ==> r.result == RawErrorEnvelope(Interpolate(o.value.message))
    ensures ExpectedError(o).None? ==> r.result == o.value.reply.value.text
    ensures ExpectedError(o).Some? && NeedsNoEscape(ExpectedError(o).value) ==>
      PageError(r.result) == ExpectedError(o)
  {
    CallMethodSyncAsWritten("isSupportESim", "", o)
  }

  /**
   * `installEsimProfile(code)` from a page: the code is forwarded, an empty
   * one as null, and the result is the as-written bridge's string.
   */
  function InstallEsimProfile(code: string, o: Option<Outcome>): (r: BridgeCall)
    ensures r.request.name == "installEsimProfile"
    ensures code != "" ==> r.request.arguments == Str(code)
    ensures code == "" ==> r.request.arguments == Null
    ensures o.Some? && o.value.Answered? && o.value.reply.Error? ==>
      r.result == RawErrorEnvelope(Interpolate(o.value.reply.message))
    ensures o.Some? && o.value.Threw? ==> r.result == RawErrorEnvelope(Interpolate(o.value.message))
    ensures ExpectedError(o).None? ==> r.result == o.value.reply.value.text
    ensures ExpectedError(o).Some? && NeedsNoEscape(ExpectedError(o).value) ==>
      PageError(r.result) == ExpectedError(o)
  {
    CallMethodSyncAsWritten("installEsimProfile", code, o)
  }

  /**
   * With the corrected bridge under them, both page entry points would read
   * back every error message exactly; they differ from the as-written ones
   * only on messages that need escaping.
   */
  lemma EntryPointsWithEscaping(code: string, o: Option<Outcome>)
    ensures ExpectedError(o).Some? ==> PageError(CallMethodSync("isSupportESim", "", o).result) == ExpectedError(o)
    ensures ExpectedError(o).Some? ==> PageError(CallMethodSync("installEsimProfile", code, o).result) == ExpectedError(o)
    ensures (ExpectedError(o).Some? ==> NeedsNoEscape(ExpectedError(o).value)) ==>
      && CallMethodSync("isSupportESim", "", o) == IsSupportEsim(o)
      && CallMethodSync("installEsimProfile", code, o) == InstallEsimProfile(code, o)
  {
    if ExpectedError(o).Some? ==> NeedsNoEscape(ExpectedError(o).value) {
      CorrectedAgreesOnPlainMessages("isSupportESim", "", o);
      CorrectedAgreesOnPlainMessages("installEsimProfile", code, o);
    }
  }
}
