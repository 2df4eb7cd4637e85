/**
 * The session-management helper: the Check Session iframe mechanism on the
 * relying party's side (OpenID Connect Session Management 1.0, sections 3.2
 * and 3.3) and silent `prompt=none` re-authorisation with a PKCE challenge.
 *
 * The helper's closure variables are the fields of SessionManagementHelper.
 * Everything the helper does to the browser (frame sources, window
 * locations, posted messages, session storage, timers) is recorded in one
 * value of type Browser, so that each method can say exactly what changed.
 */
module SessionManagement {
  import opened Wrappers
  import opened SessionProtocol
  import PkceChallenge

  /** The location a frame is sent to when it is blanked. */
  const AboutBlank: string := "about:blank"

  /** The value written to the silent-sign-in storage flag. */
  const SilentSignInDone: string := "false"

  /** A message handed to `postMessage`, with the origin it is targeted at. */
  datatype Posted<T> = Posted(data: T, targetOrigin: string)

  /** The messages relayed to the grandparent window in the silent-sign-in flow. */
  datatype RelayMessage =
    | SignedIn(code: string, sessionState: string)  // CHECK_SESSION_SIGNED_IN, with the authorisation info
    | SignedOut                                     // CHECK_SESSION_SIGNED_OUT, without data

  /** What a repeating timer runs on each tick. */
  datatype TimerTask =
    | CheckSessionTask(checkSessionEndpoint: string, clientID: string, sessionState: string)
        // the `checkSession` closure, with the arguments `startCheckSession` was given
    | PromptNoneTask
        // `sendPromptNoneRequest`

  /** A live `setInterval` timer: its task and the delay argument, in milliseconds, as passed. */
  datatype Timer = Timer(task: TimerTask, delayMs: int)

  /** The browser, as far as the helper's effects on it can be observed. */
  datatype Browser = Browser(
    opSrc: string,                               // src of the OP check-session frame
    promptNoneLoads: seq<string>,                // every src given to the prompt-none frame, in order
    parentHref: string,                          // location of the helper window's parent
    grandparentHref: string,                     // location of the callback frame's grandparent
        // (when the application runs top-level, both name the same main window:
        // the two fields may stand for one location)
    frameHref: string,                           // location of the callback frame itself
    probesSent: seq<Posted<string>>,             // probes posted to the OP frame
    relayMessages: seq<Posted<RelayMessage>>,    // messages posted to the callback frame's grandparent
    promptNoneSent: bool,                        // the "prompt-none request sent" gate in session storage
    silentSignInFlag: Option<string>,            // INITIALIZED_SILENT_SIGN_IN in session storage
    setterCalls: seq<Option<string>>,            // arguments the caller's session-state setter received
    timers: map<nat, Timer>,                     // live interval timers, by handle
    nextHandle: nat,                             // the handle the next `setInterval` returns
    messageListeners: nat                        // reply handlers registered on the relay frame
  )

  /** Handles are positive and every live timer's handle was handed out already. */
  ghost predicate HandlesIssued(b: Browser) {
    && 0 < b.nextHandle
    && forall h :: h in b.timers ==> 0 < h < b.nextHandle
  }

  /** `b` with one more interval timer, under the next free handle. */
  function WithInterval(b: Browser, t: Timer): (r: Browser)
    ensures HandlesIssued(b) ==> HandlesIssued(r) && b.nextHandle !in b.timers
  {
    b.(timers := b.timers[b.nextHandle := t], nextHandle := b.nextHandle + 1)
  }

  /** The handles `clearInterval` is given: none when the handle was never set. */
  function HandleSet(handle: Option<nat>): set<nat> {
    if handle.Some? then {handle.value} else {}
  }

  /**
   * The probes one run of `checkSession` posts: one, carrying
   * `"{clientID} {sessionState}"` to the check-session endpoint, when both are
   * non-empty, and none otherwise.
   */
  function CheckSessionProbes(checkSessionEndpoint: string, clientID: string, sessionState: string)
    : seq<Posted<string>>
  {
    if clientID != "" && sessionState != "" then [Posted(ProbeMessage(clientID, sessionState), checkSessionEndpoint)]
    else []
  }

  /**
   * The browser after `startCheckSession`: the OP frame is pointed at the
   * endpoint, one probe round runs at once, the probe timer is scheduled and
   * a reply handler is registered.
   */
  function AfterStartCheckSession(b: Browser, checkSessionEndpoint: string, clientID: string,
                                  redirectURL: string, sessionState: string, interval: int): Browser
  {
    WithInterval(
      b.(opSrc := OPFrameSrc(checkSessionEndpoint, clientID, redirectURL),
         probesSent := b.probesSent + CheckSessionProbes(checkSessionEndpoint, clientID, sessionState),
         messageListeners := b.messageListeners + 1),
      Timer(CheckSessionTask(checkSessionEndpoint, clientID, sessionState), interval * 1000))
  }

  /** The guard of `initiateCheckSession`: the endpoint, the client id and the redirect URL are all set. */
  predicate CheckSessionConfigured(checkSessionEndpoint: string, clientID: string, redirectURL: string) {
    checkSessionEndpoint != "" && clientID != "" && redirectURL != ""
  }

  class SessionManagementHelper {
    // Protocol constants of the surrounding library; their values are not part of this model.
    const stateMarker: string          // STATE
    const silentSignInMarker: string   // SILENT_SIGN_IN_STATE
    const sessionStateKey: string      // SESSION_STATE

    // The session context, set by Initialize.
    var clientID: string
    var checkSessionEndpoint: string
    var sessionState: string
    var interval: int
    var redirectURL: string
    var authorizationEndpoint: string
    var sessionRefreshInterval: int

    // The two interval handles Reset clears. Neither is ever written: see Valid().
    var sessionRefreshIntervalTimeout: Option<nat>
    var checkSessionIntervalTimeout: Option<nat>

    var browser: Browser

    /**
     * The object invariant. Timer handles are fresh when issued, and both
     * stored handles stay unset: `initialize` stores the refresh timer's
     * handle in its own parameter, and `startCheckSession`, re-created by an
     * indirect `eval` in the relay frame, assigns the probe timer's handle to
     * a global of that frame rather than to the helper's closure variable.
     */
    ghost predicate Valid()
      reads this
    {
      && HandlesIssued(browser)
      && checkSessionIntervalTimeout == None
      && sessionRefreshIntervalTimeout == None
    }

    /**
     * One prompt-none attempt, from browser `before` to browser `after`: if
     * the gate is held nothing changes; otherwise the gate becomes held and
     * the prompt-none frame loads the authorisation URL with the ordinary
     * state marker and a fresh challenge.
     */
    ghost predicate PromptNoneAttempt(before: Browser, after: Browser)
      reads this
    {
      if before.promptNoneSent then after == before
      else exists challenge ::
        && PkceChallenge.IsChallenge(challenge)
        && after == before.(promptNoneSent := true,
                            promptNoneLoads := before.promptNoneLoads
                              + [PromptNoneUrl(authorizationEndpoint, clientID, redirectURL, stateMarker, challenge)])
    }

    /**
     * The factory: the frames are already in place in `initial`, and the
     * closure variables are still unset (modelled as "" and 0).
     */
    constructor (stateMarker: string, silentSignInMarker: string, sessionStateKey: string, initial: Browser)
      requires HandlesIssued(initial)
      ensures Valid()
      ensures this.stateMarker == stateMarker && this.silentSignInMarker == silentSignInMarker
      ensures this.sessionStateKey == sessionStateKey
      ensures clientID == "" && checkSessionEndpoint == "" && sessionState == "" && redirectURL == ""
      ensures authorizationEndpoint == "" && interval == 0 && sessionRefreshInterval == 0
      ensures checkSessionIntervalTimeout == None && sessionRefreshIntervalTimeout == None
      ensures browser == initial
    {
      this.stateMarker, this.silentSignInMarker, this.sessionStateKey := stateMarker, silentSignInMarker, sessionStateKey;
      clientID, checkSessionEndpoint, sessionState, redirectURL, authorizationEndpoint := "", "", "", "", "";
      interval, sessionRefreshInterval := 0, 0;
      checkSessionIntervalTimeout, sessionRefreshIntervalTimeout := None, None;
      browser := initial;
    }

    // -------------------------------------------------------------------------
    // Host primitives
    // -------------------------------------------------------------------------

    /** `setInterval`: registers the timer under a fresh handle and returns it. */
    method SetInterval(t: Timer) returns (handle: nat)
      requires HandlesIssued(browser)
      modifies this`browser
      ensures HandlesIssued(browser)
      ensures handle == old(browser.nextHandle) && handle !in old(browser.timers)
      ensures browser == WithInterval(old(browser), t)
    {
      handle := browser.nextHandle;
      browser := WithInterval(browser, t);
    }

    /** `clearInterval`: stops the timer the handle names; an unset handle is a no-op. */
    method ClearInterval(handle: Option<nat>)
      modifies this`browser
      ensures browser == old(browser).(timers := old(browser.timers) - HandleSet(handle))
    {
      browser := browser.(timers := browser.timers - HandleSet(handle));
    }

    // -------------------------------------------------------------------------
    // The helper's operations
    // -------------------------------------------------------------------------

    /**
     * Stores the seven settings; starts session checking when `interval` is
     * above -1 (so 0 starts it), and a periodic prompt-none timer when
     * `sessionRefreshInterval` is above -1. The refresh timer's handle is
     * lost: it is not stored where Reset looks for it.
     */
    method Initialize(clientID: string, checkSessionEndpoint: string, sessionState: string, interval: int,
                      sessionRefreshInterval: int, redirectURL: string, authorizationEndpoint: string)
      requires Valid()
      modifies this
      ensures Valid()
      ensures this.clientID == clientID && this.checkSessionEndpoint == checkSessionEndpoint
      ensures this.sessionState == sessionState && this.interval == interval
      ensures this.sessionRefreshInterval == sessionRefreshInterval && this.redirectURL == redirectURL
      ensures this.authorizationEndpoint == authorizationEndpoint
      ensures sessionRefreshIntervalTimeout == None && checkSessionIntervalTimeout == None
      ensures var started := interval > -1 && CheckSessionConfigured(checkSessionEndpoint, clientID, redirectURL);
        var afterCheck := if started
          then AfterStartCheckSession(old(browser), checkSessionEndpoint, clientID, redirectURL, sessionState, interval)
          else old(browser);
        browser == if sessionRefreshInterval > -1
                      then WithInterval(afterCheck, Timer(PromptNoneTask, sessionRefreshInterval * 1000))
                      else afterCheck
    {
      this.clientID := clientID;
      this.checkSessionEndpoint := checkSessionEndpoint;
      this.sessionState := sessionState;
      this.interval := interval;
      this.redirectURL := redirectURL;
      this.authorizationEndpoint := authorizationEndpoint;
      this.sessionRefreshInterval := sessionRefreshInterval;

      if this.interval > -1 {
        InitiateCheckSession();
      }

      if this.sessionRefreshInterval > -1 {
        // the handle goes to the parameter, not to sessionRefreshIntervalTimeout
        var lostHandle := SetInterval(Timer(PromptNoneTask, this.sessionRefreshInterval * 1000));
      }
    }

    /**
     * Starts session checking, unless the endpoint, the client id or the
     * redirect URL is empty: points the OP frame at the endpoint, runs one
     * probe round at once, then schedules the probe timer and registers the
     * reply handler. The probe timer's handle does not reach the helper.
     */
    method InitiateCheckSession()
      requires Valid()
      modifies this`browser
      ensures Valid()
      ensures browser == if CheckSessionConfigured(checkSessionEndpoint, clientID, redirectURL)
        then AfterStartCheckSession(old(browser), checkSessionEndpoint, clientID, redirectURL, sessionState, interval)
        else old(browser)
    {
      if checkSessionEndpoint == "" || clientID == "" || redirectURL == "" {
        return;
      }
      // startCheckSession, run with the context's current values
      browser := browser.(opSrc := OPFrameSrc(checkSessionEndpoint, clientID, redirectURL));
      CheckSession(checkSessionEndpoint, clientID, sessionState);
      browser := browser.(messageListeners := browser.messageListeners + 1);
      // the handle goes to a global of the relay frame, not to checkSessionIntervalTimeout
      var frameHandle := SetInterval(Timer(CheckSessionTask(checkSessionEndpoint, clientID, sessionState), interval * 1000));
    }

    /**
     * One probe round: posts `"{clientID} {sessionState}"` to the OP frame,
     * targeted at the check-session endpoint, when both are non-empty.
     */
    method CheckSession(checkSessionEndpoint: string, clientID: string, sessionState: string)
      modifies this`browser
      ensures browser == old(browser).(probesSent := old(browser.probesSent)
                                         + CheckSessionProbes(checkSessionEndpoint, clientID, sessionState))
      ensures |browser.probesSent| <= |old(browser.probesSent)| + 1
    {
      if clientID != "" && sessionState != "" {
        var message := ProbeMessage(clientID, sessionState);
        browser := browser.(probesSent := browser.probesSent + [Posted(message, checkSessionEndpoint)]);
      }
    }

    /**
     * Stops the timers under the two stored handles. Since neither handle is
     * ever stored, no timer stops: the probe timer and the refresh timer both
     * keep running, whenever Reset is called.
     */
    method Reset()
      requires Valid()
      modifies this`browser
      ensures Valid()
      ensures browser == old(browser).(timers := old(browser.timers)
                                         - HandleSet(checkSessionIntervalTimeout)
                                         - HandleSet(sessionRefreshIntervalTimeout))
      ensures browser.timers == old(browser.timers)
    {
      ClearInterval(checkSessionIntervalTimeout);
      ClearInterval(sessionRefreshIntervalTimeout);
    }

    /**
     * The OP frame's reply, as the registered handler sees it. A reply whose
     * origin does not occur in the check-session endpoint is dropped;
     * "unchanged" changes nothing; "error" sends the parent window to the
     * sign-out URL; anything else is a changed session and makes a
     * prompt-none attempt.
     */
    method ReceiveMessage(origin: string, data: string, signOutUrl: string)
      requires Valid() && browser.messageListeners > 0
      modifies this`browser
      ensures Valid()
      ensures !OriginAccepted(checkSessionEndpoint, origin) ==> browser == old(browser)
      ensures OriginAccepted(checkSessionEndpoint, origin) ==>
        match ClassifyReply(data)
        case Unchanged => browser == old(browser)
        case Error => browser == old(browser).(parentHref := signOutUrl)
        case Changed => PromptNoneAttempt(old(browser), browser)
    {
      var targetOrigin := checkSessionEndpoint;
      if targetOrigin == "" || IndexOf(targetOrigin, origin) < 0 {
        return;
      }
      if data == "unchanged" {
        // the session at the OP is the one we know
      } else if data == "error" {
        browser := browser.(parentHref := signOutUrl);
      } else {
        SendPromptNoneRequest();
      }
    }

    /**
     * A prompt-none attempt: when the gate is open, holds it and points the
     * prompt-none frame at the authorisation endpoint with a fresh challenge;
     * when it is held, does nothing.
     */
    method SendPromptNoneRequest()
      requires Valid()
      modifies this`browser
      ensures Valid()
      ensures PromptNoneAttempt(old(browser), browser)
      ensures browser.promptNoneSent
      ensures |browser.promptNoneLoads| == |old(browser.promptNoneLoads)| + (if old(browser.promptNoneSent) then 0 else 1)
    {
      if !browser.promptNoneSent {  // canSendPromptNoneRequest
        browser := browser.(promptNoneSent := true);
        var challenge := PkceChallenge.GetRandomPKCEChallenge();
        var url := PromptNoneUrl(authorizationEndpoint, clientID, redirectURL, stateMarker, challenge);
        browser := browser.(promptNoneLoads := browser.promptNoneLoads + [url]);
        assert PkceChallenge.IsChallenge(challenge);
      }
    }

    /**
     * One tick of a live timer: a probe timer runs a probe round with the
     * values it was started with; the refresh timer makes a prompt-none
     * attempt with the context's current values.
     */
    method Tick(handle: nat)
      requires Valid() && handle in browser.timers
      modifies this`browser
      ensures Valid()
      ensures match old(browser.timers[handle].task)
        case CheckSessionTask(endpoint, id, state) =>
          browser == old(browser).(probesSent := old(browser.probesSent) + CheckSessionProbes(endpoint, id, state))
        case PromptNoneTask =>
          PromptNoneAttempt(old(browser), browser)
    {
      match browser.timers[handle].task
      case CheckSessionTask(endpoint, id, state) =>
        CheckSession(endpoint, id, state);
      case PromptNoneTask =>
        SendPromptNoneRequest();
    }

    /**
     * The callback of a prompt-none request, run in the frame the OP
     * redirected back to; `query` holds the frame URL's query parameters.
     * A foreign or missing `state` is not handled and changes nothing. An
     * ordinary callback with a code hands the raw `session_state` to the
     * setter, if there is one; without a code it sends the grandparent to the
     * sign-out URL. A silent-sign-in callback marks silent sign-in as done and
     * relays SignedIn (with the code and the session state, "" when absent) or
     * SignedOut to the grandparent at the grandparent's origin. Every handled
     * callback opens the gate, blanks the frame and returns true.
     */
    method ReceivePromptNoneResponse(query: map<string, string>, hasSetter: bool, signOutUrl: string,
                                     grandparentOrigin: string) returns (handled: bool)
      requires Valid()
      modifies this`browser
      ensures Valid()
      ensures handled <==> ClassifyCallback(query, stateMarker, silentSignInMarker) != NotOurs
      ensures match ClassifyCallback(query, stateMarker, silentSignInMarker)
        case NotOurs =>
          browser == old(browser)
        case OrdinaryWithCode =>
          browser == old(browser).(setterCalls := old(browser.setterCalls)
                                                  + (if hasSetter then [Param(query, "session_state")] else []),
                                   promptNoneSent := false, frameHref := AboutBlank)
        case OrdinaryWithoutCode =>
          browser == old(browser).(promptNoneSent := false, grandparentHref := signOutUrl, frameHref := AboutBlank)
        case SilentWithCode(code) =>
          browser == old(browser).(
            silentSignInFlag := Some(SilentSignInDone),
            relayMessages := old(browser.relayMessages)
              + [Posted(SignedIn(code, Param(query, sessionStateKey).GetOr("")), grandparentOrigin)],
            promptNoneSent := false, frameHref := AboutBlank)
        case SilentWithoutCode =>
          browser == old(browser).(
            silentSignInFlag := Some(SilentSignInDone),
            relayMessages := old(browser.relayMessages) + [Posted(SignedOut, grandparentOrigin)],
            promptNoneSent := false, frameHref := AboutBlank)
      ensures handled ==> !browser.promptNoneSent && browser.frameHref == AboutBlank
    {
      var state := Param(query, "state");
      var sessionStateParam := Param(query, sessionStateKey);

      if state.Some? && (state.value == stateMarker || state.value == silentSignInMarker) {
        var code := Param(query, "code");

        if code.Some? && |code.value| != 0 {
          if state.value == silentSignInMarker {
            var message := SignedIn(code.value, sessionStateParam.GetOr(""));
            browser := browser.(silentSignInFlag := Some(SilentSignInDone));
            browser := browser.(relayMessages := browser.relayMessages + [Posted(message, grandparentOrigin)]);
            browser := browser.(promptNoneSent := false);
            browser := browser.(frameHref := AboutBlank);
            return true;
          }

          var newSessionState := Param(query, "session_state");
          if hasSetter {
            browser := browser.(setterCalls := browser.setterCalls + [newSessionState]);
          }
          browser := browser.(promptNoneSent := false);
          browser := browser.(frameHref := AboutBlank);
          return true;
        } else {
          if state.value == silentSignInMarker {
            browser := browser.(silentSignInFlag := Some(SilentSignInDone));
            browser := browser.(relayMessages := browser.relayMessages + [Posted(SignedOut, grandparentOrigin)]);
            browser := browser.(promptNoneSent := false);
            browser := browser.(frameHref := AboutBlank);
            return true;
          }

          browser := browser.(promptNoneSent := false);
          browser := browser.(grandparentHref := signOutUrl);
          browser := browser.(frameHref := AboutBlank);
          return true;
        }
      }

      return false;
    }
  }
}
