/**
 * The Android side's observable state, threaded through every operation:
 * the handoff slot, the events published so far and the activities started.
 */
module PluginState {
  import opened Channel
  import opened EventBus
  import ActivationCodeStore

  /** An activity the plugin started. */
  datatype Launch =
    | SettingsScreen(action: string)                      // startActivity(Intent(action))
    | EuiccActivation(requestCode: int, useQrScanner: bool) // startActivityForResult

  datatype State = State(
    store: ActivationCodeStore.Store,
    events: seq<Event>,
    launched: seq<Launch>)

  /** `sendEvent(kind, body)`, recorded in publish order. */
  function Emit(st: State, kind: string, body: map<string, Dyn>): (r: State)
    ensures r.store == st.store && r.launched == st.launched
    ensures r.events == st.events + [Event(kind, body)]
  {
    st.(events := st.events + [Event(kind, body)])
  }
}
