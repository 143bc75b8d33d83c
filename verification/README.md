# flutter_esim provisioning core, modelled in Dafny

This project models the decision logic of the `flutter_esim` plugin, which
hands an eSIM activation code to the operating system. Every operation is a
pure function over a small state record. The record holds the pending code
in the handoff slot, the events published so far and the activities
started. Platform facts are plain inputs: SDK level, manager presence, the
enabled flag, which intents resolve, which platform calls throw, and how a
channel call was answered.

- `ActivationCodeStore` is the single nullable slot with `set`, `get` and `clear`. It is also driven by arbitrary call sequences and compared with a "latest write" reference.
- `EventBus` is the weak-reference handler list. It is reaped before every publish, and only live, listening handlers receive an event.
- `PluginState` is the state record threaded through the Android operations.
- `AndroidPlugin` covers the Android method handler:
  - the `isSupportESim` probe;
  - `installEsimProfile` with its SDK 28 / 34, manager and enabled branches;
  - `startEsimActivationFlow`;
  - the ordered settings fallback;
  - the classification in `onActivityResult`.
- `ProvisioningService` is the OS-facing binder. It has two read-only lookups, failing with -1 and -2.
- `JsBridge` is the Android web view's synchronous bridge: its JSON envelopes and the forwarding of arguments. It also holds the `url` default of the view factory. `JsonString` reads and writes JSON string literals. The bridge's contracts say what a page's `JSON.parse` gets back.
- `UniversalLink`, `IosPlugin` and `IosWebView` cover the iOS side:
  - argument extraction and validation;
  - method routing;
  - the `esimsetup.apple.com` link, built from its template with the encode-or-raw fallback.
- `Scenarios` holds whole-flow properties: install, then the OS callback, then the activity result.

Android constants: `Build.VERSION_CODES.P` = 28, `UPSIDE_DOWN_CAKE` = 34,
`REQUEST_CODE_INSTALL_ESIM` = 1001, `Activity.RESULT_OK` = -1 and
`Activity.RESULT_CANCELED` = 0.

Behaviour worth noting, where the model follows the code:

- Android rejects blank codes (`isNullOrBlank`, with Kotlin's Unicode whitespace). iOS rejects only the empty code.
- On Android, from SDK 28 up, a missing cached manager is the error `EUICC_NULL`. It is not a quiet "unsupported".
- `installEsimProfile` can still answer `true` and keep the code stored when no activity is attached or when starting the activation activity throws. With no activity the start is skipped, yet the flow still reports `activation_intent_launched`. Only a throwing start gives a `launch_failed` event.
- `isSupportESim` falls back to a fresh `getSystemService` lookup. `installEsimProfile` uses only the cached manager.
- The bridge passes a String success through unchanged. Any other success value becomes the `Invalid result` envelope.
- A null error message or exception message is rendered as the text `null`, as a Kotlin string template does.

## Model

| member | source | states |
|---|---|---|
| ActivationCodeStore.Initial | flutter_esim/android/src/main/kotlin/com/hiennv/flutter_esim/ActivationCodeStore.kt:4 | Before any write, `get()` answers null. |
| ActivationCodeStore.Set | flutter_esim/android/src/main/kotlin/com/hiennv/flutter_esim/ActivationCodeStore.kt:6-8 | After `set(c)`, `get()` answers exactly `c`, whatever was pending before. |
| ActivationCodeStore.Clear | flutter_esim/android/src/main/kotlin/com/hiennv/flutter_esim/ActivationCodeStore.kt:14-16 | After `clear()`, `get()` answers null. |
| ActivationCodeStore.ReadThenWriteBack | flutter_esim/android/src/main/kotlin/com/hiennv/flutter_esim/ActivationCodeStore.kt:10-12 | `get()` answers exactly the slot's content: setting its answer back, or clearing when it answers null, leaves the slot as it was. Over whole call sequences, every `get()` answers the latest write (`RunMatchesLatestWrite`). |
| ActivationCodeStore.LastWriteWins | flutter_esim/android/src/main/kotlin/com/hiennv/flutter_esim/ActivationCodeStore.kt:6-8 | `set(a); set(b)` leaves the same slot as `set(b)` alone, so no earlier code is retained. |
| ActivationCodeStore.ClearIdempotent | flutter_esim/android/src/main/kotlin/com/hiennv/flutter_esim/ActivationCodeStore.kt:14-16 | Clearing twice is the same as clearing once. |
| ActivationCodeStore.RunMatchesLatestWrite | flutter_esim/android/src/main/kotlin/com/hiennv/flutter_esim/ActivationCodeStore.kt:4-16 | For any sequence of calls, the slot holds the latest `set`/`clear`. Every `get()` answers the latest write before it, so reads never change the slot. |
| ActivationCodeStore.ConsecutiveReadsAgree | flutter_esim/android/src/main/kotlin/com/hiennv/flutter_esim/ActivationCodeStore.kt:10-12 | Two consecutive `get()` calls answer the same value. |
| ActivationCodeStore.ReadBeforeSetIsNull | flutter_esim/android/src/main/kotlin/com/hiennv/flutter_esim/ActivationCodeStore.kt:4-12 | From process start, a `get()` with no earlier `set` answers null, whatever reads and clears came first. |
| EventBus.ReapCollection | flutter_esim/android/src/main/kotlin/com/hiennv/flutter_esim/FlutterEsimPlugin.kt:31-34 | The reaped list keeps only live references and every live handler. It is the live sublist in its original order. |
| EventBus.LiveOfKeepsExactlyLive | flutter_esim/android/src/main/kotlin/com/hiennv/flutter_esim/FlutterEsimPlugin.kt:31-34 | Reaping removes every cleared reference. It keeps each live one as many times as it was registered. |
| EventBus.LiveOfAppend | flutter_esim/android/src/main/kotlin/com/hiennv/flutter_esim/FlutterEsimPlugin.kt:31-34 | Reaping commutes with concatenation, so the relative order of live handlers is preserved. |
| EventBus.LiveOfIdempotent | flutter_esim/android/src/main/kotlin/com/hiennv/flutter_esim/FlutterEsimPlugin.kt:31-34 | Reaping an already reaped list changes nothing. |
| EventBus.SendEvent | flutter_esim/android/src/main/kotlin/com/hiennv/flutter_esim/FlutterEsimPlugin.kt:42-44 | A publish leaves the reaped handler list. It delivers the `{event, body}` message to the live, listening handlers in registration order, once per reference, as listed by the independent `Listeners`. |
| EventBus.ListenersOfLive | flutter_esim/android/src/main/kotlin/com/hiennv/flutter_esim/FlutterEsimPlugin.kt:42-44 | Reaping before the publish does not change which handlers are reached or their order. |
| EventBus.ListenersCountRegistrations | flutter_esim/android/src/main/kotlin/com/hiennv/flutter_esim/FlutterEsimPlugin.kt:42-44 | A listening handler receives an event once per registration of it; a handler without a listener receives nothing. |
| EventBus.PublishWithoutListeners | flutter_esim/android/src/main/kotlin/com/hiennv/flutter_esim/FlutterEsimPlugin.kt:42-44 | A publish with only dead or non-listening handlers delivers nothing and still completes. |
| AndroidPlugin.FirstResolvable | flutter_esim/android/src/main/kotlin/com/hiennv/flutter_esim/FlutterEsimPlugin.kt:303-312 | The index found resolves, and no earlier target does. When none is found, no target resolves. |
| AndroidPlugin.OpenSettingsFallback | flutter_esim/android/src/main/kotlin/com/hiennv/flutter_esim/FlutterEsimPlugin.kt:295-324 | The fallback starts at most one settings screen: the first resolvable one in the order ESIM_SETTINGS, NETWORK_OPERATOR, WIRELESS. When none resolves it emits `settings_not_available`. It never touches the slot. |
| AndroidPlugin.IsSupportEsim | flutter_esim/android/src/main/kotlin/com/hiennv/flutter_esim/FlutterEsimPlugin.kt:87-131 | Below SDK 28 or without a manager (cached, else looked up) the probe answers false. Otherwise it answers the manager's `isEnabled` flag, unless reading `isEnabled` or `eid` throws: then it answers `EXCEPTION` with that exception's message. It has no slot or activity effect, and emits only debug events unless it fails. |
| AndroidPlugin.MethodException | flutter_esim/android/src/main/kotlin/com/hiennv/flutter_esim/FlutterEsimPlugin.kt:212-219 | An exception inside the handler answers `EXCEPTION` with the exception's message and leaves the slot alone. |
| AndroidPlugin.StartActivationFlow | flutter_esim/android/src/main/kotlin/com/hiennv/flutter_esim/FlutterEsimPlugin.kt:222-252 | The activation flow stores the code. It starts the activation activity for request 1001 only with an attached activity that does not throw. Its last event is `launch_failed` exactly when the attached activity's start throws. Otherwise, including when no activity is attached, it is `activation_intent_launched`. |
| AndroidPlugin.InstallEsimProfile | flutter_esim/android/src/main/kotlin/com/hiennv/flutter_esim/FlutterEsimPlugin.kt:132-195 | A null or blank profile gives `EMPTY_CODE`, with no store write and no launch. Install answers true, and stores the code, exactly for SDK ≥ 34 with an enabled manager. False comes exactly below 28, when disabled, or for 28–33; each opens the fallback and leaves the slot untouched. A missing manager from SDK 28 gives `EUICC_NULL` and starts nothing. A throwing `isEnabled` gives `EXCEPTION` with its message and changes neither slot nor launches. The events tell the branches apart. A blank code emits only `empty_activation_code`. Otherwise `install_requested` comes first, and the next event is `unsupport` (`SDK<28`), `EuiccManager_null`, `method_exception`, `unsupport` (`EUICC_DISABLED`), `storing_activation_code` or `fallback_to_settings`, by branch. |
| AndroidPlugin.SupportProbeMatchesInstall | flutter_esim/android/src/main/kotlin/com/hiennv/flutter_esim/FlutterEsimPlugin.kt:87-195 | With a cached manager that reads without exceptions, the probe fails exactly when install fails. A `false` probe means install answers `false`. A `true` probe means install either answers `true` or, for SDK 28 to 33, falls back. |
| AndroidPlugin.InstallEventsRevealOnlyLength | flutter_esim/android/src/main/kotlin/com/hiennv/flutter_esim/FlutterEsimPlugin.kt:144-148 | Install events carry only the code's length: two non-blank codes of equal length yield identical events, launches and answers. |
| AndroidPlugin.OnMethodCall | flutter_esim/android/src/main/kotlin/com/hiennv/flutter_esim/FlutterEsimPlugin.kt:84-220 | The handler routes `isSupportESim`, `installEsimProfile` and `instructions` to their handlers. Every other method is answered not-implemented with no effect. |
| AndroidPlugin.OnActivityResult | flutter_esim/android/src/main/kotlin/com/hiennv/flutter_esim/FlutterEsimPlugin.kt:254-293 | Request 1001 is handled for every result code: the slot is cleared and the event kind is success, fail or unknown for OK, Canceled or other. Any other request answers false, keeps the slot and logs only a debug event. |
| AndroidPlugin.TerminalKindsDistinct | flutter_esim/android/src/main/kotlin/com/hiennv/flutter_esim/FlutterEsimPlugin.kt:265-289 | Each result code maps to exactly one terminal outcome, OK and Canceled are recognised exactly, and the event kinds tell the three outcomes apart. |
| ProvisioningService.GetActivationCode | flutter_esim/android/src/main/kotlin/com/hiennv/flutter_esim/CarrierEuiccProvisioningService.kt:12-39 | A null or blank stored code gets `onFailure(-1, "No activation code available")`; otherwise `onSuccess` gets exactly the stored code. The slot is only read. After a debug event, a status event reports `activation_code_missing`, or `activation_code_provided` with the code's length. |
| ProvisioningService.GetActivationCodeForEid | flutter_esim/android/src/main/kotlin/com/hiennv/flutter_esim/CarrierEuiccProvisioningService.kt:41-70 | This is the same lookup with `onFailure(-2, "No activation code for EID")`. The slot is only read. The status event is `activation_code_missing_for_eid` or `activation_code_provided_for_eid`, and echoes the EID. |
| ProvisioningService.BothEntryPointsAgree | flutter_esim/android/src/main/kotlin/com/hiennv/flutter_esim/CarrierEuiccProvisioningService.kt:29-60 | With a non-blank code pending, both entry points hand over that same code. |
| ProvisioningService.FailuresDistinguishable | flutter_esim/android/src/main/kotlin/com/hiennv/flutter_esim/CarrierEuiccProvisioningService.kt:23-54 | With nothing usable pending, the two entry points fail with different codes. |
| ProvisioningService.EidIgnored | flutter_esim/android/src/main/kotlin/com/hiennv/flutter_esim/CarrierEuiccProvisioningService.kt:41-42 | The answer does not depend on the EID asked for. |
| ProvisioningService.RepeatedLookupsAgree | flutter_esim/android/src/main/kotlin/com/hiennv/flutter_esim/CarrierEuiccProvisioningService.kt:12-13 | A second lookup answers as the first did, because lookups are idempotent. |
| KotlinText.Interpolate | flutter_esim/android/src/main/kotlin/com/hiennv/flutter_esim/FlutterEsimWebViewFactory.kt:201 | A null message is rendered as the text `null`; a present one as itself. |
| JsBridge.CreationUrl | flutter_esim/android/src/main/kotlin/com/hiennv/flutter_esim/FlutterEsimWebViewFactory.kt:25-30 | The view loads the `url` argument when it is a String in a map, and `""` otherwise. |
| JsBridge.ForwardedArgs | flutter_esim/android/src/main/kotlin/com/hiennv/flutter_esim/FlutterEsimWebViewFactory.kt:194 | Empty bridge arguments are forwarded as null, others as the string itself. |
| JsBridge.CallMethodSyncAsWritten | flutter_esim/android/src/main/kotlin/com/hiennv/flutter_esim/FlutterEsimWebViewFactory.kt:188-220 | A String success is returned unchanged, and any other success gives `Invalid result`. Error and exception messages are pasted into the envelope unescaped, whatever they contain. Error, not-implemented, timeout and exception envelopes read back as their message, provided the message needs no JSON escaping. |
| JsBridge.QuoteBreaksRawEnvelope | flutter_esim/android/src/main/kotlin/com/hiennv/flutter_esim/FlutterEsimWebViewFactory.kt:200-201 | An error message containing `"` makes the as-written envelope unreadable to the page. |
| JsBridge.CallMethodSync | flutter_esim/android/src/main/kotlin/com/hiennv/flutter_esim/FlutterEsimWebViewFactory.kt:188-220 | With escaping, a String success passes through. Every other outcome reads back as its message, whatever it contains: the reply's message, `Invalid result`, `Method not implemented`, `Timeout`, or the exception's message. |
| JsBridge.CorrectedAgreesOnPlainMessages | flutter_esim/android/src/main/kotlin/com/hiennv/flutter_esim/FlutterEsimWebViewFactory.kt:200-201 | The escaped and as-written bridges give identical results whenever no message needs escaping. |
| JsBridge.FixedEnvelopesReadBack | flutter_esim/android/src/main/kotlin/com/hiennv/flutter_esim/FlutterEsimWebViewFactory.kt:196-215 | The fixed envelopes read back as `Timeout`, `Invalid result` and `Method not implemented`. |
| JsBridge.IsSupportEsim | flutter_esim/android/src/main/kotlin/com/hiennv/flutter_esim/FlutterEsimWebViewFactory.kt:177-180 | The page's `isSupportESim()` always posts the call with null arguments. It returns the as-written bridge's string: error messages unescaped, plain messages readable by the page. |
| JsBridge.InstallEsimProfile | flutter_esim/android/src/main/kotlin/com/hiennv/flutter_esim/FlutterEsimWebViewFactory.kt:183-186 | The page's `installEsimProfile(code)` posts the code, or null when it is empty. It returns the as-written bridge's string: error messages unescaped, plain messages readable by the page. |
| JsBridge.EntryPointsWithEscaping | flutter_esim/android/src/main/kotlin/com/hiennv/flutter_esim/FlutterEsimWebViewFactory.kt:177-201 | On the corrected bridge both page entry points read back every error message exactly. They coincide with the as-written entry points whenever no message needs escaping. |
| UniversalLink.LinkText | flutter_esim/ios/Classes/FlutterEsimPlugin.swift:122-123 | The link is the fixed `esim_qrcode_provisioning?carddata=` template followed by the percent-encoded code, or the raw code when encoding fails. |
| IosPlugin.StringList | flutter_esim/ios/Classes/FlutterEsimPlugin.swift:65 | The `isSupportESim` argument is read as a list of model names exactly when it is a list made entirely of strings, element by element; `handle` treats anything else as the empty list. |
| IosPlugin.ExtractCode | flutter_esim/ios/Classes/FlutterEsimPlugin.swift:75-82 | The code is taken from a String argument itself, or from a dictionary's `profile` String. Any other shape yields no code. |
| IosPlugin.OpenEsimUniversalLink | flutter_esim/ios/Classes/FlutterEsimPlugin.swift:120-141 | The built link is opened and the system's verdict answered. A link that does not parse answers false and opens nothing. |
| IosPlugin.Handle | flutter_esim/ios/Classes/FlutterEsimPlugin.swift:62-118 | `installEsimProfile` with nil args or a missing or empty code answers false and opens nothing. `openUniversalLink` with a non-String argument gives `INVALID_ARGUMENT` but accepts an empty String. Unknown methods are not implemented. A link is opened only by these two methods. |
| IosPlugin.NilArgumentsRejected | flutter_esim/ios/Classes/FlutterEsimPlugin.swift:70-73 | Nil arguments to install answer false and open nothing. |
| IosPlugin.ArgumentShapesAgree | flutter_esim/ios/Classes/FlutterEsimPlugin.swift:75-98 | A bare String, a `{profile:}` dictionary and `openUniversalLink` all open the same link for the same non-empty code. |
| IosWebView.DidReceive | flutter_esim/ios/Classes/FlutterEsimWebViewFactory.swift:178-200 | Messages on other channels, non-dictionary bodies and bodies without a String method are ignored. `installEsimProfile` or `openUniversalLink` with String args opens the same link the plugin builds; anything else opens nothing. |
| IosWebView.HandleInstallEsimProfile | flutter_esim/ios/Classes/FlutterEsimWebViewFactory.swift:270-294 | The bridge parses the setup template followed by the percent-encoded code, or by the raw code when encoding fails. A text that does not parse opens nothing. |
| IosWebView.BridgeMethodsAlias | flutter_esim/ios/Classes/FlutterEsimWebViewFactory.swift:188-196 | The two bridge methods open the same link for the same code. |
| IosWebView.UnknownMethodIgnored | flutter_esim/ios/Classes/FlutterEsimWebViewFactory.swift:197-198 | An unknown bridge method opens nothing. |
| Scenarios.FullTierHandoff | flutter_esim/android/src/main/kotlin/com/hiennv/flutter_esim/FlutterEsimPlugin.kt:222-293 | On the full tier the OS callback receives exactly the installed code. After an OK result the code is gone and the callback fails with -1. |
| Scenarios.LegacyNeverHandsOff | flutter_esim/android/src/main/kotlin/com/hiennv/flutter_esim/FlutterEsimPlugin.kt:151-158 | Below SDK 28 install answers false, an `unsupport` event follows the request, and the OS callback's answer is unchanged. |
| Scenarios.CancelClearsPending | flutter_esim/android/src/main/kotlin/com/hiennv/flutter_esim/FlutterEsimPlugin.kt:273-280 | A cancelled flow emits a fail event and leaves no code for the callback. |
| Scenarios.NewerInstallReplacesCode | flutter_esim/android/src/main/kotlin/com/hiennv/flutter_esim/FlutterEsimPlugin.kt:229-230 | A second full-tier install replaces the first code in the handoff. |
| Scenarios.ForeignResultKeepsPending | flutter_esim/android/src/main/kotlin/com/hiennv/flutter_esim/FlutterEsimPlugin.kt:264-292 | A result for another request leaves the pending code available to the callback. |
| Scenarios.WebViewLinkIsPluginLink | flutter_esim/ios/Classes/FlutterEsimWebViewFactory.swift:270-278 | The web view bridge opens the same link the plugin opens for the same code. When the link does not parse, neither opens anything and the plugin answers false. |
| Scenarios.WhitespaceCodeAcceptedOnlyOnIos | flutter_esim/ios/Classes/FlutterEsimPlugin.swift:84-87 | A whitespace-only code is `EMPTY_CODE` on Android, while iOS accepts it and builds the link. |

## Left out

- The instruction text of the `instructions` method is not reproduced. The reply carries a host-supplied string.
- Plugin registration, the attach and detach lifecycle, the method and event channel maps, and `initSharedInstance` are left out. The cached manager that attaching sets up is an input.
- Main-thread posting, `CountDownLatch.await(10s)` and other real time are left out. The bridge takes the outcome that arrived within the bound, `None` meaning timeout, so the bound's duration is not modelled.
- Event-sink marshalling onto the main looper is left out. Delivery is recorded as the handler list order.
- Garbage collection is not modelled. A weak reference's liveness is fixed at the moment of a publish.
- Platform calls become inputs: `EuiccManager`, `resolveActivity`, `startActivity(ForResult)` and `SDK_INT`. Exceptions are modelled for the manager reads `isEnabled` and `eid`, which reach the handler-wide catch, and for the two activity starts, which have their own catches. Exceptions from `resolveActivity`, `sendEvent` and the channel's `result` calls are not modelled.
- The service's `onBind`, `onCreate` and `onDestroy` only emit debug events, so they are left out.
- Web view configuration, navigation callbacks, page-event forwarding and the injected JavaScript are left out.
- iOS `EsimChecker.isSupportESim` is not part of this model. Its answer is an input.
- `WeakArray.reap` and iOS `sendEvent` are not part of this model.
- `addingPercentEncoding`, `URL(string:)` and `UIApplication.open` are abstract inputs, and the pre-iOS-10 `openURL` branch behaves like `open`.
- Print and log calls and stack-trace text are left out. A stack trace is an input string.
- Code lengths (`codeLength` in install and service events, `ProvisioningService.CodeLength`) count Unicode scalar values. Kotlin's `String.length` counts UTF-16 code units, so a code with characters outside the Basic Multilingual Plane reports a smaller length here. Lone surrogates cannot be represented at all.
- The handoff slot is one value shared by the plugin and the provisioning service. In the source it is a per-process `object` with a plain field, written on the main thread and read on a binder thread. The `Scenarios` handoff lemmas therefore assume the service runs in the plugin's process; the manifest that decides this is not part of this model. Visibility between threads is not modelled.
- JsonString.ReadBody does not decode surrogate-pair `\u` escapes. No escaped envelope contains one. A raw envelope can, and `PageError` then answers `None` where `JSON.parse` would succeed.

## Findings

| source | as written | input that shows it | evidently intended | confidence | as-written member | corrected member |
|---|---|---|---|---|---|---|
| flutter_esim/android/src/main/kotlin/com/hiennv/flutter_esim/FlutterEsimWebViewFactory.kt:200-201 | The error message is pasted unescaped into `{"success":false,"error":"…"}`. | An error reply or exception whose message is `"` gives `{"success":false,"error":"""}`. The page's `JSON.parse` rejects it, so the page sees a bridge error instead of the message. | The message is escaped as a JSON string, so the page reads back exactly the error message. | medium; not executed | JsBridge.CallMethodSyncAsWritten | JsBridge.CallMethodSync |

The page-facing `JsBridge.IsSupportEsim` and `JsBridge.InstallEsimProfile`
model the code as written, so they return the unescaped envelope.
`JsBridge.EntryPointsWithEscaping` shows what they return on the corrected
`JsBridge.CallMethodSync`: every message reads back, and the result is the
same string as the code as written whenever no message needs escaping.
