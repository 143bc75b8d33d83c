/**
 * The Android plugin's decision logic: the eSIM capability probe, the
 * install request with its SDK / manager branches, the settings fallback
 * and the classification of the activity result.
 */
module AndroidPlugin {
  import opened Wrappers
  import opened Channel
  import opened KotlinText
  import opened EventBus
  import opened PluginState
  import ActivationCodeStore

  /** `Build.VERSION_CODES.P`: the first SDK level with eSIM support. */
  const VersionP := 28
  /** `Build.VERSION_CODES.UPSIDE_DOWN_CAKE`: the first SDK level with the OS-integrated flow. */
  const VersionUpsideDownCake := 34
  /** `REQUEST_CODE_INSTALL_ESIM`. */
  const RequestCodeInstallEsim := 1001
  /** `Activity.RESULT_OK` and `Activity.RESULT_CANCELED`. */
  const ResultOk := -1
  const ResultCanceled := 0

  const ActionEsimSettings := "android.settings.ESIM_SETTINGS"
  const ActionNetworkOperatorSettings := "android.settings.NETWORK_OPERATOR_SETTINGS"
  const ActionWirelessSettings := "android.settings.WIRELESS_SETTINGS"

  /** The settings screens the fallback tries, in order. */
  const SettingsTargets: seq<string> :=
    [ActionEsimSettings, ActionNetworkOperatorSettings, ActionWirelessSettings]

  /** An exception raised by a platform call: its message (nullable) and its stack trace. */
  datatype Fault = Fault(message: Option<string>, trace: string)

  /** Reading `EuiccManager.isEnabled`: an answer, or an exception. */
  datatype Probe = Answers(enabled: bool) | Throws(fault: Fault)

  /** Reading `EuiccManager.eid`: the (nullable) identifier, or an exception. */
  datatype EidRead = EidIs(value: Option<string>) | EidThrows(fault: Fault)

  datatype Euicc = Euicc(isEnabled: Probe, eid: EidRead)

  /** What the device answers to the plugin's platform queries. */
  datatype Platform = Platform(
    sdk: int,                        // Build.VERSION.SDK_INT
    mgr: Option<Euicc>,              // the manager cached when the activity attached
    lookup: Option<Euicc>,           // context.getSystemService(EUICC_SERVICE); None also when it throws
    hasActivity: bool,               // an activity is attached
    resolvable: set<string>,         // intent actions that resolve to an activity
    activationFault: Option<Fault>,  // startActivityForResult throws
    settingsFault: Option<Fault>,    // startActivity of a settings screen throws
    instructions: string)            // the static instruction text

  /** A state change together with the answer sent back on the method channel. */
  datatype Step = Step(state: State, reply: Reply)

  function OrEmpty(s: Option<string>): string {
    s.GetOr("")
  }

  // ---------------------------------------------------------------------
  // Settings fallback
  // ---------------------------------------------------------------------

  /** Index of the first target that resolves. */
  function FirstResolvable(targets: seq<string>, resolvable: set<string>): (r: Option<nat>)
    ensures r.Some? ==> r.value < |targets| && targets[r.value] in resolvable
    ensures r.Some? ==> forall j :: 0 <= j < r.value ==> targets[j] !in resolvable
    ensures r.None? ==> forall j :: 0 <= j < |targets| ==> targets[j] !in resolvable
    decreases |targets|
  {
    if |targets| == 0 then None
    else if targets[0] in resolvable then Some(0)
    else
      match FirstResolvable(targets[1..], resolvable)
      case None => None
      case Some(k) => Some(k + 1)
  }

  /**
   * Reference reading of the fallback: the settings screen it opens, if
   * any, spelled out case by case in the fixed order.
   */
  function SettingsOpened(p: Platform): seq<Launch> {
    if !p.hasActivity || p.settingsFault.Some? then []
    else if ActionEsimSettings in p.resolvable then [SettingsScreen(ActionEsimSettings)]
    else if ActionNetworkOperatorSettings in p.resolvable then [SettingsScreen(ActionNetworkOperatorSettings)]
    else if ActionWirelessSettings in p.resolvable then [SettingsScreen(ActionWirelessSettings)]
    else []
  }

  /** Whether any of the settings targets can be opened at all. */
  predicate AnySettingsResolvable(p: Platform) {
    p.hasActivity && exists j :: 0 <= j < |SettingsTargets| && SettingsTargets[j] in p.resolvable
  }

  /**
   * `openEsimSettingsFallback`: start the first resolvable settings screen
   * and stop; report `settings_not_available` when none resolves, and
   * `settings_open_failed` when starting it throws.
   */
  function OpenSettingsFallback(p: Platform, st: State): (r: State)
    ensures r.store == st.store
    ensures r.launched == st.launched + SettingsOpened(p)
    ensures |r.events| > |st.events| && r.events[..|st.events|] == st.events
    ensures !AnySettingsResolvable(p) <==>
      r.events == st.events + [Event("fail", map["stage" := Str("settings_not_available"),
        "reason" := Str("eSIM settings not available on this device")])]
  {
    var found := if p.hasActivity then FirstResolvable(SettingsTargets, p.resolvable) else None;
    match found
    case None =>
      assert p.hasActivity ==> forall j :: 0 <= j < |SettingsTargets| ==> SettingsTargets[j] !in p.resolvable;
      assert p.hasActivity ==>
        SettingsTargets[0] !in p.resolvable && SettingsTargets[1] !in p.resolvable && SettingsTargets[2] !in p.resolvable;
      Emit(st, "fail", map["stage" := Str("settings_not_available"),
        "reason" := Str("eSIM settings not available on this device")])
    case Some(i) =>
      var action := SettingsTargets[i];
      assert AnySettingsResolvable(p) by {
        assert 0 <= i < |SettingsTargets| && SettingsTargets[i] in p.resolvable;
      }
      assert i >= 1 ==> SettingsTargets[0] !in p.resolvable;
      assert i >= 2 ==> SettingsTargets[1] !in p.resolvable;
      var st1 := Emit(st, "status", map["stage" := Str("opening_settings"), "action" := Str(action)]);
      assert st1.events[|st.events|].body["stage"] == Str("opening_settings");
      match p.settingsFault
      case Some(f) =>
        Emit(st1, "fail", map["stage" := Str("settings_open_failed"), "error" := Str(OrEmpty(f.message))])
      case None =>
        st1.(launched := st1.launched + [SettingsScreen(action)])
  }

  // ---------------------------------------------------------------------
  // isSupportESim
  // ---------------------------------------------------------------------

  /** The manager `isSupportESim` consults: the cached one, else a fresh lookup. */
  function ProbeManager(p: Platform): Option<Euicc> {
    if p.mgr.Some? then p.mgr else p.lookup
  }

  /** The catch-all branch of `onMethodCall`: a `fail` event and an `EXCEPTION` error. */
  function MethodException(st: State, f: Fault): (r: Step)
    ensures r.state.store == st.store && r.state.launched == st.launched
    ensures r.reply == Error("EXCEPTION", f.message)
  {
    Step(Emit(st, "fail", map["stage" := Str("method_exception"),
      "error" := Str(OrEmpty(f.message)), "stackTrace" := Str(f.trace)]),
      Error("EXCEPTION", f.message))
  }

  /**
   * The exception the capability probe runs into on manager `m`, if any:
   * `isEnabled` is read first, then `eid` while the result event is built.
   */
  function ProbeFault(m: Euicc): Option<Fault> {
    if m.isEnabled.Throws? then Some(m.isEnabled.fault)
    else if m.eid.EidThrows? then Some(m.eid.fault)
    else None
  }

  /**
   * `isSupportESim`: false below SDK 28 or without a manager, otherwise the
   * manager's enabled flag; an exception from `isEnabled` or `eid` is the
   * handler's `EXCEPTION` reply. Only diagnostic events, no store change and
   * no activity started.
   */
  function IsSupportEsim(p: Platform, st: State): (r: Step)
    ensures r.state.store == st.store && r.state.launched == st.launched
    ensures |r.state.events| > |st.events| && r.state.events[..|st.events|] == st.events
    ensures p.sdk < VersionP ==> r.reply == Success(Bool(false))
    ensures p.sdk >= VersionP && ProbeManager(p).None? ==> r.reply == Success(Bool(false))
    // with a manager and no exception, the answer is the enabled flag itself
    ensures p.sdk >= VersionP && ProbeManager(p).Some? && ProbeFault(ProbeManager(p).value).None? ==>
      r.reply == Success(Bool(ProbeManager(p).value.isEnabled.enabled))
    // an exception while probing is answered with its message
    ensures p.sdk >= VersionP && ProbeManager(p).Some? && ProbeFault(ProbeManager(p).value).Some? ==>
      r.reply == Error("EXCEPTION", ProbeFault(ProbeManager(p).value).value.message)
    ensures r.reply == Success(Bool(true)) <==>
      && p.sdk >= VersionP && ProbeManager(p).Some?
      && ProbeManager(p).value.isEnabled == Answers(true) && ProbeManager(p).value.eid.EidIs?
    ensures r.reply.Error? <==>
      p.sdk >= VersionP && ProbeManager(p).Some? && ProbeFault(ProbeManager(p).value).Some?
    ensures !r.reply.Error? ==>
      forall i :: |st.events| <= i < |r.state.events| ==> r.state.events[i].kind == "debug"
  {
    var st1 := Emit(st, "debug", map["stage" := Str("isSupportESim_called")]);
    if p.sdk < VersionP then
      Step(Emit(st1, "debug", map["stage" := Str("isSupportESim_unsupported_sdk"), "sdk" := Int(p.sdk)]),
        Success(Bool(false)))
    else
      match ProbeManager(p)
      case None =>
        Step(Emit(st1, "debug", map["stage" := Str("isSupportESim_no_euicc_manager"), "sdk" := Int(p.sdk)]),
          Success(Bool(false)))
      case Some(m) =>
        match m.isEnabled
        case Throws(f) => MethodException(st1, f)
        case Answers(enabled) =>
          match m.eid
          case EidThrows(f) => MethodException(st1, f)
          case EidIs(eid) =>
            Step(Emit(st1, "debug", map["stage" := Str("isSupportESim_result"), "isEnabled" := Bool(enabled),
              "sdk" := Int(p.sdk), "euiccId" := Str(eid.GetOr("null"))]),
              Success(Bool(enabled)))
  }

  // ---------------------------------------------------------------------
  // installEsimProfile
  // ---------------------------------------------------------------------

  /** `(call.arguments as? HashMap<*, *>)?.get("profile") as? String`. */
  function ProfileArg(args: Dyn): Option<string> {
    StringEntry(args, "profile")
  }

  /** The launch `startEsimActivationFlow` performs, if the activity is there and does not throw. */
  function ActivationLaunched(p: Platform): seq<Launch> {
    if p.hasActivity && p.activationFault.None? then [EuiccActivation(RequestCodeInstallEsim, false)] else []
  }

  /**
   * `startEsimActivationFlow`: store the code, then start the system
   * activation activity for result 1001. A failed launch is only reported
   * as a `launch_failed` event: the code stays stored.
   */
  function StartActivationFlow(p: Platform, st: State, code: string): (r: State)
    ensures ActivationCodeStore.Get(r.store) == Some(code)
    ensures r.launched == st.launched + ActivationLaunched(p)
    ensures |r.events| == |st.events| + 3 && r.events[..|st.events|] == st.events
    ensures r.events[|st.events|] ==
      Event("status", map["stage" := Str("storing_activation_code"), "codeLength" := Int(|code|)])
    // only a throwing start is reported as failed; with no activity the launch is still reported
    ensures p.hasActivity && p.activationFault.Some? ==>
      r.events[|st.events| + 2] == Event("fail", map["stage" := Str("launch_failed"),
        "error" := Str(OrEmpty(p.activationFault.value.message)), "stackTrace" := Str(p.activationFault.value.trace)])
    ensures !(p.hasActivity && p.activationFault.Some?) ==>
      r.events[|st.events| + 2] == Event("status", map["stage" := Str("activation_intent_launched"),
        "requestCode" := Int(RequestCodeInstallEsim)])
  {
    var st1 := Emit(st, "status", map["stage" := Str("storing_activation_code"), "codeLength" := Int(|code|)]);
    var st2 := st1.(store := ActivationCodeStore.Set(st1.store, code));
    var st3 := Emit(st2, "status", map["stage" := Str("launching_euicc_activation")]);
    var launchedEvent := map["stage" := Str("activation_intent_launched"), "requestCode" := Int(RequestCodeInstallEsim)];
    if !p.hasActivity then
      Emit(st3, "status", launchedEvent)
    else
      match p.activationFault
      case Some(f) =>
        Emit(st3, "fail", map["stage" := Str("launch_failed"), "error" := Str(OrEmpty(f.message)),
          "stackTrace" := Str(f.trace)])
      case None =>
        Emit(st3.(launched := st3.launched + [EuiccActivation(RequestCodeInstallEsim, false)]),
          "status", launchedEvent)
  }

  /** The condition under which install hands the code to the OS flow. */
  predicate LaunchesOsFlow(p: Platform, code: Option<string>) {
    && !IsNullOrBlank(code)
    && p.sdk >= VersionUpsideDownCake
    && p.mgr.Some?
    && p.mgr.value.isEnabled == Answers(true)
  }

  /** The condition under which install answers `false` and opens the settings fallback. */
  predicate TakesFallback(p: Platform, code: Option<string>) {
    && !IsNullOrBlank(code)
    && (|| p.sdk < VersionP
        || (p.mgr.Some? && p.mgr.value.isEnabled == Answers(false))
        || (p.sdk < VersionUpsideDownCake && p.mgr.Some? && p.mgr.value.isEnabled == Answers(true)))
  }

  /**
   * `installEsimProfile`: validate the code, then branch on SDK level,
   * manager presence and the enabled flag.
   */
  function InstallEsimProfile(p: Platform, st: State, args: Dyn): (r: Step)
    // a missing or blank code is rejected before anything else happens
    ensures IsNullOrBlank(ProfileArg(args)) ==>
      && r.reply == Error("EMPTY_CODE", Some("Activation code is empty"))
      && r.state.store == st.store && r.state.launched == st.launched
    // the code is handed to the OS exactly on the full tier
    ensures r.reply == Success(Bool(true)) <==> LaunchesOsFlow(p, ProfileArg(args))
    ensures LaunchesOsFlow(p, ProfileArg(args)) ==>
      && ActivationCodeStore.Get(r.state.store) == ProfileArg(args)
      && r.state.launched == st.launched + ActivationLaunched(p)
    ensures !LaunchesOsFlow(p, ProfileArg(args)) ==> r.state.store == st.store
    // below SDK 28, with eSIM disabled, or below SDK 34: false and the settings fallback
    ensures r.reply == Success(Bool(false)) <==> TakesFallback(p, ProfileArg(args))
    ensures TakesFallback(p, ProfileArg(args)) ==> r.state.launched == st.launched + SettingsOpened(p)
    // from SDK 28 on, a missing manager is an error and nothing is started
    ensures !IsNullOrBlank(ProfileArg(args)) && p.sdk >= VersionP && p.mgr.None? ==>
      && r.reply == Error("EUICC_NULL", Some("EuiccManager is null"))
      && r.state.launched == st.launched
    // from SDK 28 on, an exception from `isEnabled` is the handler's `EXCEPTION` reply
    ensures !IsNullOrBlank(ProfileArg(args)) && p.sdk >= VersionP && p.mgr.Some? && p.mgr.value.isEnabled.Throws? ==>
      && r.reply == Error("EXCEPTION", p.mgr.value.isEnabled.fault.message)
      && r.state.store == st.store && r.state.launched == st.launched
    ensures |r.state.events| > |st.events| && r.state.events[..|st.events|] == st.events
    // the events that tell the branches apart
    ensures IsNullOrBlank(ProfileArg(args)) ==>
      r.state.events == st.events + [Event("fail", map["stage" := Str("empty_activation_code"),
        "reason" := Str("Activation code is empty")])]
    ensures !IsNullOrBlank(ProfileArg(args)) ==>
      && |r.state.events| >= |st.events| + 2
      && r.state.events[|st.events|] == Event("status", map["stage" := Str("install_requested"),
           "sdk" := Int(p.sdk), "codeLength" := Int(|ProfileArg(args).value|)])
    ensures !IsNullOrBlank(ProfileArg(args)) && p.sdk < VersionP ==>
      r.state.events[|st.events| + 1] == Event("unsupport", map["reason" := Str("SDK<28"), "sdk" := Int(p.sdk)])
    ensures !IsNullOrBlank(ProfileArg(args)) && p.sdk >= VersionP && p.mgr.None? ==>
      r.state.events[|st.events| + 1] == Event("fail", map["reason" := Str("EuiccManager_null"), "sdk" := Int(p.sdk)])
    ensures !IsNullOrBlank(ProfileArg(args)) && p.sdk >= VersionP && p.mgr.Some? && p.mgr.value.isEnabled.Throws? ==>
      r.state.events[|st.events| + 1] == Event("fail", map["stage" := Str("method_exception"),
        "error" := Str(OrEmpty(p.mgr.value.isEnabled.fault.message)),
        "stackTrace" := Str(p.mgr.value.isEnabled.fault.trace)])
    ensures !IsNullOrBlank(ProfileArg(args)) && p.sdk >= VersionP && p.mgr.Some? && p.mgr.value.isEnabled == Answers(false) ==>
      r.state.events[|st.events| + 1] == Event("unsupport", map["reason" := Str("EUICC_DISABLED")])
    ensures LaunchesOsFlow(p, ProfileArg(args)) ==>
      r.state.events[|st.events| + 1] == Event("status", map["stage" := Str("storing_activation_code"),
        "codeLength" := Int(|ProfileArg(args).value|)])
    ensures && !IsNullOrBlank(ProfileArg(args)) && VersionP <= p.sdk < VersionUpsideDownCake
            && p.mgr.Some? && p.mgr.value.isEnabled == Answers(true) ==>
      r.state.events[|st.events| + 1] == Event("status", map["stage" := Str("fallback_to_settings"),
        "reason" := Str("SDK<34"), "sdk" := Int(p.sdk)])
  {
    var code := ProfileArg(args);
    if IsNullOrBlank(code) then
      Step(Emit(st, "fail", map["stage" := Str("empty_activation_code"), "reason" := Str("Activation code is empty")]),
        Error("EMPTY_CODE", Some("Activation code is empty")))
    else
      var c := code.value;
      var st1 := Emit(st, "status", map["stage" := Str("install_requested"), "sdk" := Int(p.sdk),
        "codeLength" := Int(|c|)]);
      if p.sdk < VersionP then
        var st2 := Emit(st1, "unsupport", map["reason" := Str("SDK<28"), "sdk" := Int(p.sdk)]);
        Step(OpenSettingsFallback(p, st2), Success(Bool(false)))
      else if p.mgr.None? then
        Step(Emit(st1, "fail", map["reason" := Str("EuiccManager_null"), "sdk" := Int(p.sdk)]),
          Error("EUICC_NULL", Some("EuiccManager is null")))
      else
        match p.mgr.value.isEnabled
        case Throws(f) => MethodException(st1, f)
        case Answers(enabled) =>
          if !enabled then
            var st2 := Emit(st1, "unsupport", map["reason" := Str("EUICC_DISABLED")]);
            Step(OpenSettingsFallback(p, st2), Success(Bool(false)))
          else if p.sdk >= VersionUpsideDownCake then
            Step(StartActivationFlow(p, st1, c), Success(Bool(true)))
          else
            var st2 := Emit(st1, "status", map["stage" := Str("fallback_to_settings"), "reason" := Str("SDK<34"),
              "sdk" := Int(p.sdk)]);
            Step(OpenSettingsFallback(p, st2), Success(Bool(false)))
  }

  /** The method-call arguments a Dart caller sends for `installEsimProfile`. */
  function ProfileArgs(code: string): (args: Dyn)
    ensures ProfileArg(args) == Some(code)
  {
    Dict(map["profile" := Str(code)])
  }

  /**
   * The probe and the install agree on a device whose cached manager is
   * present and reads without exceptions: the probe says false exactly when
   * install falls back to settings with `false`, and says true exactly when
   * install either hands the code to the OS (SDK 34 on) or falls back for
   * SDK 28 to 33.
   */
  lemma SupportProbeMatchesInstall(p: Platform, st: State, code: string)
    requires p.sdk >= VersionP && p.mgr.Some? && p.mgr.value.eid.EidIs?
    requires !IsBlank(code)
    ensures IsSupportEsim(p, st).reply.Error? <==> InstallEsimProfile(p, st, ProfileArgs(code)).reply.Error?
    ensures IsSupportEsim(p, st).reply == Success(Bool(false)) ==>
      InstallEsimProfile(p, st, ProfileArgs(code)).reply == Success(Bool(false))
    ensures IsSupportEsim(p, st).reply == Success(Bool(true)) <==>
      || InstallEsimProfile(p, st, ProfileArgs(code)).reply == Success(Bool(true))
      || (p.sdk < VersionUpsideDownCake && p.mgr.value.isEnabled == Answers(true))
  {
  }

  /**
   * Install events never carry the code itself: two non-blank codes of the
   * same length produce the same events, the same launches and the same
   * answer.
   */
  lemma InstallEventsRevealOnlyLength(p: Platform, st: State, c1: string, c2: string)
    requires |c1| == |c2|
    requires !IsBlank(c1) && !IsBlank(c2)
    ensures InstallEsimProfile(p, st, ProfileArgs(c1)).state.events ==
            InstallEsimProfile(p, st, ProfileArgs(c2)).state.events
    ensures InstallEsimProfile(p, st, ProfileArgs(c1)).state.launched ==
            InstallEsimProfile(p, st, ProfileArgs(c2)).state.launched
    ensures InstallEsimProfile(p, st, ProfileArgs(c1)).reply ==
            InstallEsimProfile(p, st, ProfileArgs(c2)).reply
  {
  }

  // ---------------------------------------------------------------------
  // onMethodCall
  // ---------------------------------------------------------------------

  /** `onMethodCall`: route by method name; any other name is not implemented. */
  function OnMethodCall(p: Platform, st: State, name: string, args: Dyn): (r: Step)
    ensures name == "isSupportESim" ==> r == IsSupportEsim(p, st)
    ensures name == "installEsimProfile" ==> r == InstallEsimProfile(p, st, args)
    ensures name == "instructions" ==> r == Step(st, Success(Str(p.instructions)))
    ensures name !in {"isSupportESim", "installEsimProfile", "instructions"} ==> r == Step(st, NotImplemented)
  {
    if name == "isSupportESim" then IsSupportEsim(p, st)
    else if name == "installEsimProfile" then InstallEsimProfile(p, st, args)
    else if name == "instructions" then Step(st, Success(Str(p.instructions)))
    else Step(st, NotImplemented)
  }

  // ---------------------------------------------------------------------
  // onActivityResult
  // ---------------------------------------------------------------------

  /** How an attempt that reached the OS flow ended. */
  datatype Terminal = Succeeded | Cancelled | Unrecognized

  function Classify(resultCode: int): Terminal {
    if resultCode == ResultOk then Succeeded
    else if resultCode == ResultCanceled then Cancelled
    else Unrecognized
  }

  /** The event kind each terminal outcome is reported under. */
  function TerminalKind(t: Terminal): string {
    match t
    case Succeeded => "success"
    case Cancelled => "fail"
    case Unrecognized => "unknown"
  }

  datatype Handled = Handled(state: State, handled: bool)

  /**
   * `onActivityResult`: a result for request 1001 is consumed, reported by
   * its result code and always clears the pending code; any other request
   * is left to other listeners and touches nothing but the debug log.
   */
  function OnActivityResult(st: State, requestCode: int, resultCode: int, extras: Option<seq<string>>): (r: Handled)
    ensures r.handled <==> requestCode == RequestCodeInstallEsim
    ensures r.handled ==> ActivationCodeStore.Get(r.state.store).None?
    ensures !r.handled ==> r.state.store == st.store
    ensures r.state.launched == st.launched
    ensures |r.state.events| > |st.events| && r.state.events[..|st.events|] == st.events
    ensures r.handled ==> r.state.events[|r.state.events| - 1].kind == TerminalKind(Classify(resultCode))
    ensures !r.handled ==>
      && r.state.events[|st.events|..] == [r.state.events[|st.events|]]
      && r.state.events[|st.events|].kind == "debug"
  {
    var st1 := Emit(st, "debug", map["stage" := Str("onActivityResult"), "requestCode" := Int(requestCode),
      "resultCode" := Int(resultCode), "expectedRequestCode" := Int(RequestCodeInstallEsim),
      "RESULT_OK" := Int(ResultOk), "RESULT_CANCELED" := Int(ResultCanceled)]);
    if requestCode == RequestCodeInstallEsim then
      var st2 :=
        match Classify(resultCode)
        case Succeeded =>
          Emit(st1, "success", map["stage" := Str("esim_installed"), "message" := Str("eSIM installed successfully")])
        case Cancelled =>
          Emit(st1, "fail", map["stage" := Str("esim_installation_canceled"), "reason" := Str("User canceled"),
            "resultCode" := Int(resultCode)])
        case Unrecognized =>
          Emit(st1, "unknown", map["stage" := Str("unexpected_result_code"), "resultCode" := Int(resultCode),
            "data" := Str(if extras.Some? then JoinToString(extras.value) else "no_extras")]);
      Handled(st2.(store := ActivationCodeStore.Clear(st2.store)), true)
    else
      Handled(st1, false)
  }

  /** Exactly one terminal outcome per result code, and the three are told apart by the event kind. */
  lemma TerminalKindsDistinct(c1: int, c2: int)
    ensures TerminalKind(Classify(c1)) == TerminalKind(Classify(c2)) <==> Classify(c1) == Classify(c2)
    ensures Classify(c1) == Succeeded <==> c1 == ResultOk
    ensures Classify(c1) == Cancelled <==> c1 == ResultCanceled
  {
  }
}
