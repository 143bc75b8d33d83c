/**
 * The endpoint the OS binds to when its activation flow needs the pending
 * code: two read-only lookups of the handoff slot, each with its own
 * failure code.
 */
module ProvisioningService {
  import opened Wrappers
  import opened Channel
  import opened KotlinText
  import opened EventBus
  import opened PluginState
  import ActivationCodeStore

  /** The single callback invocation: `onSuccess(code)` or `onFailure(resultCode, reason)`. */
  datatype Answer = OnSuccess(code: string) | OnFailure(resultCode: int, reason: string)

  datatype Served = Served(state: State, answer: Answer)

  function HasCode(code: Option<string>): Dyn {
    Bool(code.Some?)
  }

  function CodeLength(code: Option<string>): Dyn {
    if code.Some? then Int(|code.value|) else Int(0)
  }

  /**
   * `getActivationCode(callback)`: answer the stored code, or failure -1
   * when it is null or blank. The slot is only read.
   */
  function GetActivationCode(st: State): (r: Served)
    ensures r.state.store == st.store && r.state.launched == st.launched
    ensures IsNullOrBlank(ActivationCodeStore.Get(st.store)) <==>
      r.answer == OnFailure(-1, "No activation code available")
    ensures r.answer.OnSuccess? ==> ActivationCodeStore.Get(st.store) == Some(r.answer.code)
    ensures |r.state.events| == |st.events| + 2 && r.state.events[..|st.events|] == st.events
    ensures r.state.events[|st.events|].kind == "debug"
    // the status event reports which way the lookup went
    ensures IsNullOrBlank(ActivationCodeStore.Get(st.store)) ==>
      r.state.events[|st.events| + 1] == Event("status", map["stage" := Str("activation_code_missing")])
    ensures !IsNullOrBlank(ActivationCodeStore.Get(st.store)) ==>
      r.state.events[|st.events| + 1] == Event("status", map["stage" := Str("activation_code_provided"),
        "codeLength" := Int(|ActivationCodeStore.Get(st.store).value|)])
  {
    var code := ActivationCodeStore.Get(st.store);
    var st1 := Emit(st, "debug", map["stage" := Str("getActivationCode_called"), "hasCode" := HasCode(code),
      "codeLength" := CodeLength(code)]);
    if IsNullOrBlank(code) then
      Served(Emit(st1, "status", map["stage" := Str("activation_code_missing")]),
        OnFailure(-1, "No activation code available"))
    else
      Served(Emit(st1, "status", map["stage" := Str("activation_code_provided"), "codeLength" := Int(|code.value|)]),
        OnSuccess(code.value))
  }

  /**
   * `getActivationCodeForEid(eid, callback)`: the same lookup, with failure
   * -2; the EID is only echoed in events and does not select the code.
   */
  function GetActivationCodeForEid(st: State, eid: string): (r: Served)
    ensures r.state.store == st.store && r.state.launched == st.launched
    ensures IsNullOrBlank(ActivationCodeStore.Get(st.store)) <==>
      r.answer == OnFailure(-2, "No activation code for EID")
    ensures r.answer.OnSuccess? ==> ActivationCodeStore.Get(st.store) == Some(r.answer.code)
    ensures |r.state.events| == |st.events| + 2 && r.state.events[..|st.events|] == st.events
    ensures r.state.events[|st.events|].kind == "debug"
    // the status event reports which way the lookup went, echoing the EID
    ensures IsNullOrBlank(ActivationCodeStore.Get(st.store)) ==>
      r.state.events[|st.events| + 1] ==
        Event("status", map["stage" := Str("activation_code_missing_for_eid"), "eid" := Str(eid)])
    ensures !IsNullOrBlank(ActivationCodeStore.Get(st.store)) ==>
      r.state.events[|st.events| + 1] == Event("status", map["stage" := Str("activation_code_provided_for_eid"),
        "eid" := Str(eid), "codeLength" := Int(|ActivationCodeStore.Get(st.store).value|)])
  {
    var code := ActivationCodeStore.Get(st.store);
    var st1 := Emit(st, "debug", map["stage" := Str("getActivationCodeForEid_called"), "eid" := Str(eid),
      "hasCode" := HasCode(code), "codeLength" := CodeLength(code)]);
    if IsNullOrBlank(code) then
      Served(Emit(st1, "status", map["stage" := Str("activation_code_missing_for_eid"), "eid" := Str(eid)]),
        OnFailure(-2, "No activation code for EID"))
    else
      Served(Emit(st1, "status", map["stage" := Str("activation_code_provided_for_eid"), "eid" := Str(eid),
        "codeLength" := Int(|code.value|)]),
        OnSuccess(code.value))
  }

  /** A non-blank stored code is handed over by both entry points, unchanged. */
  lemma BothEntryPointsAgree(st: State, eid: string)
    requires !IsNullOrBlank(ActivationCodeStore.Get(st.store))
    ensures GetActivationCode(st).answer == OnSuccess(ActivationCodeStore.Get(st.store).value)
    ensures GetActivationCodeForEid(st, eid).answer == GetActivationCode(st).answer
  {
  }

  /** The two entry points fail differently, so their failures can be told apart. */
  lemma FailuresDistinguishable(st: State, eid: string)
    requires IsNullOrBlank(ActivationCodeStore.Get(st.store))
    ensures GetActivationCode(st).answer.resultCode != GetActivationCodeForEid(st, eid).answer.resultCode
  {
  }

  /** The answer does not depend on which EID the OS asks for. */
  lemma EidIgnored(st: State, eid1: string, eid2: string)
    ensures GetActivationCodeForEid(st, eid1).answer == GetActivationCodeForEid(st, eid2).answer
  {
  }

  /** Repeated lookups are idempotent: the second call answers as the first did. */
  lemma RepeatedLookupsAgree(st: State, eid: string)
    ensures GetActivationCode(GetActivationCode(st).state).answer == GetActivationCode(st).answer
    ensures GetActivationCodeForEid(GetActivationCodeForEid(st, eid).state, eid).answer ==
            GetActivationCodeForEid(st, eid).answer
    ensures GetActivationCodeForEid(GetActivationCode(st).state, eid).answer.OnSuccess? ==
            GetActivationCode(st).answer.OnSuccess?
  {
  }
}
