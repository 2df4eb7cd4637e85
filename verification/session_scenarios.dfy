/**
 * Runs of the session-management helper from a fresh browser, each proved
 * for every input of its shape from the contracts of the helper's methods.
 */
module SessionScenarios {
  import opened Wrappers
  import opened SessionProtocol
  import opened SessionManagement
  import PkceChallenge

  /** A browser before the helper runs: nothing loaded, no timers, the gate open. */
  function FreshBrowser(): (b: Browser)
    ensures HandlesIssued(b)
  {
    Browser("", [], "", "", "", [], [], false, None, [], map[], 1, 0)
  }

  /**
   * With polling disabled (`interval` -1) no probe is ever posted, however
   * many timer ticks follow: the only timer that can exist is the refresh
   * timer, and its ticks never probe.
   */
  method PollingDisabledNeverProbes(clientID: string, checkSessionEndpoint: string, sessionState: string,
                                    sessionRefreshInterval: int, redirectURL: string,
                                    authorizationEndpoint: string, ticks: nat)
    returns (b: Browser)
    ensures b.probesSent == []
    ensures b.opSrc == ""
    ensures forall h :: h in b.timers ==> b.timers[h].task == PromptNoneTask
  {
    var helper := new SessionManagementHelper("state", "silent", "session_state", FreshBrowser());
    helper.Initialize(clientID, checkSessionEndpoint, sessionState, -1, sessionRefreshInterval,
                      redirectURL, authorizationEndpoint);
    var n := 0;
    while n < ticks && helper.browser.timers != map[]
      invariant helper.Valid()
      invariant helper.browser.probesSent == [] && helper.browser.opSrc == ""
      invariant forall h :: h in helper.browser.timers ==> helper.browser.timers[h].task == PromptNoneTask
    {
      var h :| h in helper.browser.timers;
      helper.Tick(h);
      n := n + 1;
    }
    b := helper.browser;
  }

  /**
   * Two "changed" replies in a row load the prompt-none frame once: the first
   * holds the gate and loads the authorisation URL with the ordinary state
   * marker and a 43-character challenge; the second is dropped.
   */
  method ChangedTwiceLoadsOnce(stateMarker: string, clientID: string, checkSessionEndpoint: string,
                               sessionState: string, interval: int, redirectURL: string,
                               authorizationEndpoint: string, origin: string,
                               firstReply: string, secondReply: string, signOutUrl: string)
    returns (b: Browser)
    requires interval > -1 && CheckSessionConfigured(checkSessionEndpoint, clientID, redirectURL)
    requires OriginAccepted(checkSessionEndpoint, origin)
    requires ClassifyReply(firstReply) == Changed && ClassifyReply(secondReply) == Changed
    ensures b.promptNoneSent
    ensures |b.promptNoneLoads| == 1
    ensures exists challenge ::
      && |challenge| == 43
      && b.promptNoneLoads[0]
         == QueryUrl(authorizationEndpoint, PromptNoneParams(clientID, redirectURL, stateMarker, challenge))
  {
    var helper := new SessionManagementHelper(stateMarker, "silent", "session_state", FreshBrowser());
    helper.Initialize(clientID, checkSessionEndpoint, sessionState, interval, -1, redirectURL, authorizationEndpoint);
    helper.ReceiveMessage(origin, firstReply, signOutUrl);
    ghost var challenge :| PkceChallenge.IsChallenge(challenge)
      && helper.browser.promptNoneLoads
         == [PromptNoneUrl(authorizationEndpoint, clientID, redirectURL, stateMarker, challenge)];
    PromptNoneUrlIsQuery(authorizationEndpoint, clientID, redirectURL, stateMarker, challenge);
    helper.ReceiveMessage(origin, secondReply, signOutUrl);
    b := helper.browser;
  }

  /**
   * After Initialize with both timers enabled, Reset (once or twice) stops
   * neither of them: the probe timer and the refresh timer both keep their
   * handles, tasks and periods, because no handle was ever stored.
   */
  method ResetStopsNoTimer(clientID: string, checkSessionEndpoint: string, sessionState: string,
                           interval: int, sessionRefreshInterval: int, redirectURL: string,
                           authorizationEndpoint: string)
    returns (b: Browser)
    requires interval > -1 && CheckSessionConfigured(checkSessionEndpoint, clientID, redirectURL)
    requires sessionRefreshInterval > -1
    ensures b.timers == map[1 := Timer(CheckSessionTask(checkSessionEndpoint, clientID, sessionState), interval * 1000),
                            2 := Timer(PromptNoneTask, sessionRefreshInterval * 1000)]
  {
    var helper := new SessionManagementHelper("state", "silent", "session_state", FreshBrowser());
    helper.Initialize(clientID, checkSessionEndpoint, sessionState, interval, sessionRefreshInterval,
                      redirectURL, authorizationEndpoint);
    helper.Reset();
    helper.Reset();
    b := helper.browser;
  }

  /**
   * A full silent refresh: a "changed" reply holds the gate and loads the
   * prompt-none frame; the OP's callback with a code and a session state is
   * handled, hands that session state to the setter, and opens the gate again.
   */
  method SilentRefreshRoundTrip(stateMarker: string, silentSignInMarker: string, clientID: string,
                                checkSessionEndpoint: string, sessionState: string, redirectURL: string,
                                authorizationEndpoint: string, origin: string, code: string,
                                newSessionState: string, signOutUrl: string, grandparentOrigin: string)
    returns (b: Browser, handled: bool)
    requires stateMarker != silentSignInMarker
    requires CheckSessionConfigured(checkSessionEndpoint, clientID, redirectURL)
    requires OriginAccepted(checkSessionEndpoint, origin)
    requires code != ""
    ensures handled
    ensures |b.promptNoneLoads| == 1 && !b.promptNoneSent
    ensures b.setterCalls == [Some(newSessionState)]
    ensures b.frameHref == AboutBlank && b.grandparentHref == "" && b.relayMessages == []
  {
    var helper := new SessionManagementHelper(stateMarker, silentSignInMarker, "session_state", FreshBrowser());
    helper.Initialize(clientID, checkSessionEndpoint, sessionState, 0, -1, redirectURL, authorizationEndpoint);
    helper.ReceiveMessage(origin, "changed", signOutUrl);
    var query := map["state" := stateMarker, "code" := code, "session_state" := newSessionState];
    assert ClassifyCallback(query, stateMarker, silentSignInMarker) == OrdinaryWithCode;
    handled := helper.ReceivePromptNoneResponse(query, true, signOutUrl, grandparentOrigin);
    b := helper.browser;
  }
}
