/**
 * Whole-flow properties that span the install request, the OS callback
 * endpoint and the activity result, and the two platforms' validation.
 */
module Scenarios {
  import opened Wrappers
  import opened Channel
  import opened KotlinText
  import opened PluginState
  import opened AndroidPlugin
  import opened ProvisioningService
  import ActivationCodeStore
  import IosPlugin
  import IosWebView
  import UniversalLink

  /** A device on the full tier: SDK 34 or later with an enabled manager. */
  predicate FullTier(p: Platform) {
    p.sdk >= VersionUpsideDownCake && p.mgr.Some? && p.mgr.value.isEnabled == Answers(true)
  }

  /**
   * On the full tier, the OS callback hands back exactly the code the
   * install stored; once the activity reports OK the code is gone and the
   * callback fails.
   */
  lemma FullTierHandoff(p: Platform, st: State, code: string)
    requires FullTier(p) && !IsBlank(code)
    ensures InstallEsimProfile(p, st, ProfileArgs(code)).reply == Success(Bool(true))
    ensures GetActivationCode(InstallEsimProfile(p, st, ProfileArgs(code)).state).answer == OnSuccess(code)
    ensures
      var installed := InstallEsimProfile(p, st, ProfileArgs(code)).state;
      var served := GetActivationCodeForEid(installed, "eid").state;
      var done := OnActivityResult(served, RequestCodeInstallEsim, ResultOk, None).state;
      && done.events[|done.events| - 1].kind == "success"
      && GetActivationCode(done).answer == OnFailure(-1, "No activation code available")
  {
  }

  /**
   * Below SDK 28 the install answers false, reports `unsupport` right after
   * the request, and the OS callback still finds nothing new.
   */
  lemma LegacyNeverHandsOff(p: Platform, st: State, code: string)
    requires p.sdk < VersionP && !IsBlank(code)
    ensures InstallEsimProfile(p, st, ProfileArgs(code)).reply == Success(Bool(false))
    ensures InstallEsimProfile(p, st, ProfileArgs(code)).state.events[|st.events| + 1].kind == "unsupport"
    ensures GetActivationCode(InstallEsimProfile(p, st, ProfileArgs(code)).state).answer ==
            GetActivationCode(st).answer
  {
  }

  /** A cancelled OS flow is a fail-class event and leaves nothing pending, whatever was installed. */
  lemma CancelClearsPending(p: Platform, st: State, code: string)
    ensures
      var installed := InstallEsimProfile(p, st, ProfileArgs(code)).state;
      var done := OnActivityResult(installed, RequestCodeInstallEsim, ResultCanceled, None).state;
      && done.events[|done.events| - 1].kind == "fail"
      && GetActivationCode(done).answer.OnFailure?
  {
  }

  /** A second full-tier install replaces the first code: the OS is handed the newer one. */
  lemma NewerInstallReplacesCode(p: Platform, st: State, c1: string, c2: string)
    requires FullTier(p) && !IsBlank(c1) && !IsBlank(c2)
    ensures
      var first := InstallEsimProfile(p, st, ProfileArgs(c1)).state;
      GetActivationCode(InstallEsimProfile(p, first, ProfileArgs(c2)).state).answer == OnSuccess(c2)
  {
  }

  /** A result for another request leaves a pending code in place for the OS callback. */
  lemma ForeignResultKeepsPending(st: State, requestCode: int, resultCode: int)
    requires requestCode != RequestCodeInstallEsim
    ensures GetActivationCode(OnActivityResult(st, requestCode, resultCode, None).state).answer ==
            GetActivationCode(st).answer
  {
  }

  /**
   * The platforms validate differently: a whitespace-only code is rejected
   * on Android with `EMPTY_CODE`, but iOS only rejects the empty string and
   * goes on to open the link.
   */
  lemma WhitespaceCodeAcceptedOnlyOnIos(p: Platform, st: State, u: IosPlugin.Uikit)
    ensures InstallEsimProfile(p, st, ProfileArgs(" ")).reply == Error("EMPTY_CODE", Some("Activation code is empty"))
    ensures IosPlugin.Handle(u, "installEsimProfile", Str(" ")).link == UniversalLink.BuildLink(u.foundation, " ")
  {
  }

  /**
   * The web view's bridge and the plugin build the same link for the same
   * code and open the same URL; when the link does not parse, neither opens
   * anything.
   */
  lemma WebViewLinkIsPluginLink(u: IosPlugin.Uikit, code: string)
    ensures IosWebView.HandleInstallEsimProfile(u.foundation, code) == IosPlugin.OpenEsimUniversalLink(u, code).link
    ensures u.foundation.parseUrl(UniversalLink.LinkText(u.foundation, code)).None? ==>
      && IosWebView.HandleInstallEsimProfile(u.foundation, code).None?
      && IosPlugin.OpenEsimUniversalLink(u, code).reply == Success(Bool(false))
    ensures code != "" ==>
      IosWebView.DidReceive(u.foundation, IosWebView.BridgeName, IosWebView.Message("installEsimProfile", code)) ==
      IosPlugin.Handle(u, "installEsimProfile", Str(code)).link
  {
  }
}
