# Session management of an OpenID Connect browser client, in Dafny

This project models the session-management helper of a single-page OpenID
Connect client (`lib/src/helpers/session-management-helper.ts`). The helper is
the relying-party half of the Check Session iframe mechanism (OpenID Connect
Session Management 1.0, sections 3.2 and 3.3). It also runs silent `prompt=none`
re-authorisation with a PKCE challenge (RFC 7636).

The helper does the following:

- `initialize` stores seven settings.
- It then starts polling the OP's check-session frame: it posts
  `"{clientID} {sessionState}"` once immediately and then on every tick of a timer.
- A second timer periodically forces a silent re-authorisation.
- The reply handler filters OP replies by origin. It ignores `"unchanged"`,
  sends the parent window to the sign-out URL on `"error"`, and on anything
  else makes a prompt-none attempt.
- A prompt-none attempt is guarded by an in-flight gate. When the gate is open,
  the attempt holds it and loads the prompt-none frame with an authorisation
  URL carrying a fresh 43-character challenge.
- The callback interpreter runs in the frame the OP redirects back to. It reads
  `state`, `code` and the session state from the query. It then does one of
  three things: hands the new session state to a setter, sends the grandparent
  window to the sign-out URL, or (for the silent-sign-in flow) relays a
  SignedIn or SignedOut message to the grandparent.
- `reset` clears the interval handles it has stored, which turn out to be none.

## Layout

- `wrappers.dfy`: module `Wrappers`. It holds `Option`, used for JavaScript's
  `null`/`undefined` values.
- `pkce_challenge.dfy`: module `PkceChallenge`. It holds the 63-character table
  and the challenge generator, written as a loop. Each random draw is an
  arbitrary index into the table.
- `session_protocol.dfy`: module `SessionProtocol`, the value-level decisions:
  - JavaScript `indexOf` and the origin filter built on it;
  - the three reply classes;
  - the probe message and how the OP parses it back;
  - the two URLs the helper concatenates, each checked against a structured
    `base?k=v&...` reference form;
  - a reader of a URL's address and query parameters, and the round trip of
    the reference form through it.
  - the classification of the callback's query.
- `session_management.dfy`: module `SessionManagement`.
  - Class `SessionManagementHelper` holds the closure variables as fields, and
    one method per operation of the helper.
  - Everything the helper does to the browser is recorded in a `Browser` value:
    - frame sources and window locations;
    - posted probes and relay messages;
    - the prompt-none gate and the silent-sign-in flag in session storage;
    - the setter's calls;
    - live timers by handle.
  - Each method states the whole new browser value.
- `session_scenarios.dfy`: module `SessionScenarios`. Runs of the helper from a
  fresh browser, each proved for every input of its shape.

## Behaviour modelled as written

At these points the model follows the code as written:

- The character table has 63 entries. It has `T` twice and lacks `Y` and `j`.
  It is not the full base64url set (`PkceChallenge.CharsShape`). In the Dafny
  text the literal is split into short pieces so that the verifier can look up
  each position. Joined, the pieces are the source literal.
- The reply handler's origin filter is a substring test (`indexOf(origin) >= 0`),
  not an equality test. Any prefix of the endpoint passes it, including the
  empty origin.
- A timer is started when its interval is `> -1`, so an interval of `0` starts it.
- Neither interval handle reaches the variables `reset` clears.
  - `initialize` stores the refresh timer's handle into its own parameter
    `sessionRefreshInterval`, so `_sessionRefreshIntervalTimeout` is never
    written.
  - `startCheckSession` is re-created from its source text by an indirect
    `eval` in the relay frame (line 103). Its assignment at line 99 therefore
    binds a global of that frame, in sloppy mode, and not the helper's
    `_checkSessionIntervalTimeout`. The timer also lives in that frame.
  - So `reset` stops neither timer. `Valid()` keeps both handles unset.
    `Reset` and `SessionScenarios.ResetStopsNoTimer` show that both timers
    survive.
- Values are concatenated into the two URLs without any encoding. With an
  endpoint free of `?` and `#` and values free of `&` and `#`, each URL reads
  back as exactly its parameters (`SessionProtocol.OPFrameSrcReadsBack`,
  `SessionProtocol.PromptNoneUrlReadsBack`). A redirect URL with its own
  query adds a parameter instead
  (`SessionProtocol.UnencodedRedirectAddsParameter`).
- The ordinary callback gives the setter the raw `session_state` parameter,
  which may be absent. The silent-sign-in callback reads the session state under
  the library's `SESSION_STATE` key and replaces an absent value with `""`.
- The silent-sign-in marker is tested before the ordinary marker. So the
  callback interpreter needs no assumption that the two markers differ.

Assumptions:

- The gate is open exactly when the "prompt-none request sent" flag is not set:
  `canSendPromptNoneRequest()` is modelled as `!promptNoneSent`.
- The values of `STATE`, `SILENT_SIGN_IN_STATE` and `SESSION_STATE` come from
  other files, which are not part of this model. They are constructor
  parameters of the helper.
- The closure variables start unset. They are modelled as `""` and `0`. The
  model covers one factory call per page (see "Left out").

## Model

| member | source | states |
|---|---|---|
| `PkceChallenge.GetRandomPKCEChallenge` | lib/src/helpers/session-management-helper.ts:124-133 | whatever the 43 random draws, the result has exactly 43 characters and every one of them is in the helper's character table |
| `PkceChallenge.CharsShape` | lib/src/helpers/session-management-helper.ts:125 | the table has 63 characters, `T` at positions 29 and 34, and lacks the base64url characters `Y` and `j` |
| `PkceChallenge.CharsAreBase64Url` | lib/src/helpers/session-management-helper.ts:125 | every entry of the table is a base64url character and an RFC 3986 unreserved character |
| `PkceChallenge.ChallengeIsWellFormed` | lib/src/helpers/session-management-helper.ts:124-133 | every string the generator can return has the length and alphabet of an S256 code challenge, and the syntax of an RFC 7636 code verifier |
| `SessionProtocol.IndexOfFrom` | lib/src/helpers/session-management-helper.ts:141 | JavaScript `indexOf` from a start position, clamped to the string's length: the result is -1 exactly when no occurrence exists from there on; otherwise it is an occurrence and no earlier one exists |
| `SessionProtocol.IndexOfFromClamps` | lib/src/helpers/session-management-helper.ts:141 | a start at or past the end finds the empty string at the end, as JavaScript's clamping does |
| `SessionProtocol.IndexOf` | lib/src/helpers/session-management-helper.ts:141 | `indexOf`: -1 if and only if the search string occurs nowhere; otherwise the first position where it occurs |
| `SessionProtocol.OriginAcceptedIffSubstring` | lib/src/helpers/session-management-helper.ts:139-143 | a reply passes the origin filter if and only if the endpoint is non-empty and the origin occurs somewhere inside it |
| `SessionProtocol.PrefixOriginAccepted` | lib/src/helpers/session-management-helper.ts:141 | every prefix of a non-empty endpoint passes the filter, including the empty origin and origins other than the endpoint's own |
| `SessionProtocol.OriginFilterIsNotEquality` | lib/src/helpers/session-management-helper.ts:141 | a concrete origin that is not the endpoint's origin ("https://op.exa") passes the filter |
| `SessionProtocol.LastSpace` | lib/src/helpers/session-management-helper.ts:88 | the last space of a message, as the OP's frame finds it: a space, with no space after it, or -1 when there is none |
| `SessionProtocol.ProbeRoundTrip` | lib/src/helpers/session-management-helper.ts:88 | the probe `"{clientID} {sessionState}"`, split at its last space as the OP does, gives back exactly the client id and session state, whenever the session state has no space |
| `SessionProtocol.OriginAccepted` | lib/src/helpers/session-management-helper.ts:139-143 | the reply handler's origin filter as written: a set endpoint and `indexOf(origin) >= 0`; its meaning is stated by `OriginAcceptedIffSubstring` |
| `SessionProtocol.ClassifyReply` | lib/src/helpers/session-management-helper.ts:145-152 | the three payload classes: `"unchanged"` and `"error"` literally, anything else a changed session |
| `SessionProtocol.ProbeMessage` | lib/src/helpers/session-management-helper.ts:88 | the probe text `"{clientID} {sessionState}"`; `ProbeRoundTrip` states that the OP reads it back |
| `SessionProtocol.OPFrameSrc` | lib/src/helpers/session-management-helper.ts:96 | the OP frame's source, concatenated as the helper does; its reading is stated by `OPFrameSrcReadsBack` |
| `SessionProtocol.PromptNoneUrl` | lib/src/helpers/session-management-helper.ts:168-180 | the authorisation URL, concatenated piece by piece as the helper does; its reading is stated by `PromptNoneUrlReadsBack` |
| `SessionProtocol.ClassifyCallback` | lib/src/helpers/session-management-helper.ts:197-233 | the decision tree over `state` and `code`; its cases are stated by `ClassifyCallbackCases` |
| `SessionProtocol.OPFrameSrcIsQuery` | lib/src/helpers/session-management-helper.ts:96 | the OP frame's concatenated source equals the reference form: the endpoint, `?`, and the `key=value` pieces of `client_id` and `redirect_uri` joined with `&` |
| `SessionProtocol.PromptNoneHead` | lib/src/helpers/session-management-helper.ts:168-175 | the first four pieces of the concatenation are the parameters `response_type=code`, `client_id`, `scope=openid` and `redirect_uri`, the first after `?` |
| `SessionProtocol.PromptNoneTail` | lib/src/helpers/session-management-helper.ts:176-180 | the last four pieces of the concatenation are the parameters `state`, `prompt=none`, `code_challenge_method=S256` and `code_challenge` |
| `SessionProtocol.PromptNoneUrlIsQuery` | lib/src/helpers/session-management-helper.ts:168-180 | the concatenated authorisation URL equals the reference form of the eight parameters of a PKCE prompt-none request, in order, including `state` equal to the ordinary marker |
| `SessionProtocol.QueryUrlRoundTrip` | lib/src/helpers/session-management-helper.ts:168-180 | the reference form reads back as exactly its address and parameters, in order, whenever the address holds no `?` or `#`, no key holds `&`, `=` or `#` and no value holds `&` or `#`; the helper encodes nothing, so these are the conditions under which its URLs mean what they list |
| `SessionProtocol.OPFrameSrcReadsBack` | lib/src/helpers/session-management-helper.ts:96 | under those conditions, the OP frame's source reads back as the check-session endpoint with exactly `client_id` and `redirect_uri` |
| `SessionProtocol.PromptNoneUrlReadsBack` | lib/src/helpers/session-management-helper.ts:168-180 | under those conditions, the prompt-none URL reads back as the authorisation endpoint with exactly the eight parameters in order; a challenge from the helper's table always meets them |
| `SessionProtocol.UnencodedRedirectAddsParameter` | lib/src/helpers/session-management-helper.ts:96 | because nothing is encoded, a redirect URL of the form `prefix&key=value` gives the OP frame three parameters, with `redirect_uri` cut short to the prefix |
| `SessionProtocol.PromptNoneUrlEndsWithChallenge` | lib/src/helpers/session-management-helper.ts:168-180 | the URL starts with the authorisation endpoint and ends with the challenge |
| `SessionProtocol.ClassifyCallbackCases` | lib/src/helpers/session-management-helper.ts:193-260 | a callback is recognised if and only if `state` is present and equals one of the two markers; a recognised callback is granted if and only if `code` is present and non-empty; it is silent if and only if its state is the silent-sign-in marker; a silent grant carries the callback's code |
| `SessionManagement.WithInterval` | lib/src/helpers/session-management-helper.ts:67 | the browser with one more timer under the next handle; that handle was not in use, and handles stay issued in order |
| `SessionManagement.CheckSessionProbes` | lib/src/helpers/session-management-helper.ts:86-93 | the probes one run of `checkSession` posts: one to the endpoint when client id and session state are both set, none otherwise |
| `SessionManagement.AfterStartCheckSession` | lib/src/helpers/session-management-helper.ts:77-113 | the browser after `startCheckSession` and `listenToResponseFromOPIFrame`: OP frame source set, one probe round, the probe timer added, one reply handler registered |
| `SessionManagement.SessionManagementHelper.constructor` | lib/src/helpers/session-management-helper.ts:263-288 | the first factory call of a page leaves the settings unset, both interval handles unset, and the browser as given |
| `SessionManagement.SessionManagementHelper.SetInterval` | lib/src/helpers/session-management-helper.ts:67 | `setInterval` registers the timer under a fresh handle and returns that handle |
| `SessionManagement.SessionManagementHelper.ClearInterval` | lib/src/helpers/session-management-helper.ts:120-121 | `clearInterval` removes exactly the named timer; an unset handle changes nothing |
| `SessionManagement.SessionManagementHelper.Initialize` | lib/src/helpers/session-management-helper.ts:45-71 | all seven arguments are stored. Session checking starts if and only if `interval > -1` and the guard holds. A refresh timer with delay argument `sessionRefreshInterval * 1000`, as passed to `setInterval`, is added if and only if `sessionRefreshInterval > -1`. Neither timer's handle is stored. Nothing else changes |
| `SessionManagement.SessionManagementHelper.InitiateCheckSession` | lib/src/helpers/session-management-helper.ts:73-114 | nothing changes if the endpoint, the client id or the redirect URL is empty. Otherwise the OP frame source becomes the concatenated URL, one probe round runs before the timer is scheduled, the probe timer's handle is not stored, and a reply handler is registered |
| `SessionManagement.SessionManagementHelper.CheckSession` | lib/src/helpers/session-management-helper.ts:86-93 | exactly one probe `"{clientID} {sessionState}"`, targeted at the check-session endpoint, is appended when both values are non-empty; otherwise none is; nothing else changes |
| `SessionManagement.SessionManagementHelper.Reset` | lib/src/helpers/session-management-helper.ts:119-122 | the timers under the two stored handles are removed; since neither handle is ever stored, every live timer survives, the probe timer and the refresh timer alike |
| `SessionManagement.SessionManagementHelper.ReceiveMessage` | lib/src/helpers/session-management-helper.ts:138-153 | a reply whose origin fails the filter changes nothing. `"unchanged"` changes nothing. `"error"` changes only the parent window's location, to the sign-out URL. Any other payload performs exactly one prompt-none attempt |
| `SessionManagement.SessionManagementHelper.SendPromptNoneRequest` | lib/src/helpers/session-management-helper.ts:158-182 | if the gate is held, nothing changes. Otherwise the gate becomes held and exactly one URL is loaded into the prompt-none frame. That URL is the concatenation with the ordinary state marker and some 43-character challenge from the table. The gate is held afterwards in both cases |
| `SessionManagement.SessionManagementHelper.Tick` | lib/src/helpers/session-management-helper.ts:67-99 | a tick of the probe timer runs a probe round with the values captured when it started; a tick of the refresh timer makes one prompt-none attempt with the current settings |
| `SessionManagement.SessionManagementHelper.ReceivePromptNoneResponse` | lib/src/helpers/session-management-helper.ts:190-261 | returns true if and only if the callback is recognised; unrecognised callbacks change nothing. Each of the four recognised branches changes exactly the fields it names: the setter call with the raw `session_state`, or the grandparent sent to sign-out, or the storage flag plus one SignedIn/SignedOut relay to the grandparent's origin. Every one of them also opens the gate and blanks the frame |
| `SessionScenarios.PollingDisabledNeverProbes` | lib/src/helpers/session-management-helper.ts:62-70 | with `interval` -1, no probe is posted and the OP frame is never loaded, however many timer ticks follow |
| `SessionScenarios.ChangedTwiceLoadsOnce` | lib/src/helpers/session-management-helper.ts:158-182 | two "changed" replies load the prompt-none frame once, with the ordinary state marker and a 43-character challenge; the gate stays held |
| `SessionScenarios.ResetStopsNoTimer` | lib/src/helpers/session-management-helper.ts:119-122 | after Initialize with both timers and Reset twice, the probe timer (handle 1, with its captured values) and the refresh timer (handle 2) are both still live |
| `SessionScenarios.SilentRefreshRoundTrip` | lib/src/helpers/session-management-helper.ts:222-231 | "changed" followed by an ordinary callback with a code loads the prompt-none frame once. The setter then receives the callback's session state, and the gate is open again |

## Left out

- Frame creation and attachment, and the frames' style attributes in the factory, are not modelled. Only the frames' sources and the windows' locations are.
- The runtime evaluation of `startCheckSession` inside the relay frame, and the cross-window call to it, are host behaviour. `InitiateCheckSession` performs its effects directly; of the frame's separate realm, it keeps only the consequence that the probe timer's handle is not stored.
- Timers of the relay frame and of the helper's window are kept in one handle map. Their handle numbers are separate in a browser; since no handle is ever stored or cleared, this makes no difference here.
- Timer timing is not modelled. A timer is an entry in a handle map with the delay argument as passed to `setInterval`, and each tick is an explicit `Tick` call. The browser's conversion of that argument to a signed 32-bit integer (2^31 ms or more fires at the minimum delay) is not modelled.
- `await` and the page-redirect wait are left out. So is the asynchronous sign-out call: its result is passed in as `signOutUrl`. Hence the model does not capture events that interleave while the helper waits.
- `postMessage` delivery and `addEventListener` are left out. Posted messages are appended to sequences. One `ReceiveMessage` call is one run of one registered handler; with several handlers registered, the host would run each of them.
- Floating-point `Math.random`/`Math.floor` is left out. Each draw is an arbitrary index into the table.
- URL parsing (`new URL(...).searchParams`) is left out. The callback's query is given as a map, and a missing key reads as null.
- The gate and the silent-sign-in flag live in session storage, through helpers that are not part of this model. They are fields of the browser value. The session-state setter is recorded by its arguments only.
- PkceChallenge.GetRandomPKCEChallenge: states the length and alphabet of the result, not the uniform distribution of the draws.
- SessionManagement.SessionManagementHelper.constructor: models one factory call per page. In the source, the closure variables are created once and shared by every helper the factory returns. A later factory call does not reset them, and it replaces the sign-out callback for all helpers. This sharing is not captured.
- SessionManagement.SessionManagementHelper.Initialize: `interval` and `sessionRefreshInterval` are JavaScript numbers, modelled as integers. Fractional values are not captured: `-0.5 > -1` starts a timer, and 0.5 gives a half-second period. NaN is not captured either: it fails both guards.
- SessionManagement.SessionManagementHelper.ReceivePromptNoneResponse: assumes the awaited promises resolve. If the setter rejects, the source leaves the gate held and the frame not blanked. If the sign-out call rejects, the grandparent is not navigated and the frame is not blanked, although the gate was already cleared. The model always clears the gate and blanks the frame.
- SessionManagement.SessionManagementHelper.ReceiveMessage: assumes the sign-out call resolves. If it rejects on an `"error"` reply, the source does not navigate the parent window; the model always sets the parent's location.
- SessionProtocol.ReadUrl: reads the query without percent-decoding or `+`-to-space conversion, and without the URL Standard's other normalisations. The round-trip lemmas use values free of `&` and `#` only.
- SessionManagement.SessionManagementHelper.CheckSession: assumes the check-session endpoint is an absolute URL. `postMessage` (line 91) throws a SyntaxError on a target origin that does not parse, such as `"oidc/checksession"`; the source then posts no probe, while the model appends one.
- SessionManagement.SessionManagementHelper.InitiateCheckSession: assumes the check-session endpoint is an absolute URL. With an endpoint that does not parse and a non-empty session state, the immediate probe at line 97 throws, so the source neither schedules the probe timer (line 99) nor registers the reply handler (line 113); the model does both.
- SessionManagement.SessionManagementHelper.Initialize: assumes the check-session endpoint is an absolute URL when session checking starts. The SyntaxError of line 91 also leaves `initialize` before lines 66-70, so the source starts no refresh timer; the model starts it whenever `sessionRefreshInterval > -1`.
- SessionManagement.SessionManagementHelper.ReceivePromptNoneResponse: assumes the grandparent window is same-origin. Reading `parent.origin` (lines 212 and 239) on a cross-origin grandparent throws a SecurityError after the storage flag was set (lines 211 and 238); the source then posts no relay message, leaves the gate held and does not blank the frame, while the model does all three.
- Reply payloads are strings. A non-string payload matches neither literal, so it falls in the "anything else" class.
