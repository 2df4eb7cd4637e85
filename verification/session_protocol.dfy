/**
 * The decisions of the session-management helper that depend only on values:
 * the origin filter and payload classes of the OP frame's replies, the probe
 * message, the two URLs the helper builds by concatenation, and the
 * classification of the prompt-none callback's query parameters.
 */
module SessionProtocol {
  import opened Wrappers
  import PkceChallenge

  // ---------------------------------------------------------------------------
  // Substring search, as JavaScript's `String.prototype.indexOf`
  // ---------------------------------------------------------------------------

  /** `sub` occurs in `s` starting at position `k`. */
  predicate OccursAt(s: string, sub: string, k: int) {
    0 <= k && k + |sub| <= |s| && s[k..k + |sub|] == sub
  }

  /**
   * `s.indexOf(sub, from)`: the first position at or after `from` where `sub`
   * occurs, or -1. A start past the end is clamped to the length of `s`, so
   * the empty string is found there.
   */
  function IndexOfFrom(s: string, sub: string, from: nat): (r: int)
    ensures var start := if from <= |s| then from else |s|;
      && (r == -1 || start <= r)
      && (r != -1 ==> OccursAt(s, sub, r))
      && forall k :: start <= k && (r == -1 || k < r) ==> !OccursAt(s, sub, k)
    decreases if from <= |s| then |s| - from else |s| + 1
  {
    if from > |s| then IndexOfFrom(s, sub, |s|)
    else if from + |sub| > |s| then -1
    else if s[from..from + |sub|] == sub then from
    else IndexOfFrom(s, sub, from + 1)
  }

  /** A start past the end is clamped: the empty string is found at the end of `s`. */
  lemma IndexOfFromClamps(s: string, from: nat)
    requires from >= |s|
    ensures IndexOfFrom(s, "", from) == |s|
  {
  }

  /** `s.indexOf(sub)`: the first position where `sub` occurs in `s`, or -1 when it does not occur. */
  function IndexOf(s: string, sub: string): (r: int)
    ensures r == -1 <==> forall k :: !OccursAt(s, sub, k)
    ensures r != -1 ==> OccursAt(s, sub, r) && forall k :: 0 <= k < r ==> !OccursAt(s, sub, k)
  {
    IndexOfFrom(s, sub, 0)
  }

  // ---------------------------------------------------------------------------
  // Replies of the OP's check-session frame
  // ---------------------------------------------------------------------------

  /**
   * The origin filter of the reply handler: a reply is examined only when the
   * check-session endpoint is set and the sender's origin occurs somewhere in
   * it. It is a substring test, not an equality test.
   */
  predicate OriginAccepted(checkSessionEndpoint: string, origin: string) {
    checkSessionEndpoint != "" && IndexOf(checkSessionEndpoint, origin) >= 0
  }

  /** The filter admits exactly the origins that occur inside a non-empty endpoint. */
  lemma OriginAcceptedIffSubstring(checkSessionEndpoint: string, origin: string)
    ensures OriginAccepted(checkSessionEndpoint, origin)
        <==> checkSessionEndpoint != "" && exists k :: OccursAt(checkSessionEndpoint, origin, k)
  {
  }

  /**
   * Every prefix of the endpoint passes the filter: the endpoint's own origin,
   * but also the empty origin and shorter host names such as "https://op.exa"
   * for an endpoint on "https://op.example.com".
   */
  lemma PrefixOriginAccepted(checkSessionEndpoint: string, origin: string)
    requires checkSessionEndpoint != "" && origin <= checkSessionEndpoint
    ensures OriginAccepted(checkSessionEndpoint, origin)
  {
    assert OccursAt(checkSessionEndpoint, origin, 0);
  }

  /** The filter is not an equality test: a origin that differs from the endpoint can pass it. */
  lemma OriginFilterIsNotEquality()
    ensures OriginAccepted("https://op.example.com/oidc/checksession", "https://op.exa")
  {
    PrefixOriginAccepted("https://op.example.com/oidc/checksession", "https://op.exa");
  }

  /** The three classes of reply payload the handler distinguishes. */
  datatype Reply = Unchanged | Error | Changed

  /** `"unchanged"` and `"error"` are recognised literally; any other payload means "changed". */
  function ClassifyReply(data: string): Reply {
    if data == "unchanged" then Unchanged
    else if data == "error" then Error
    else Changed
  }

  // ---------------------------------------------------------------------------
  // The probe message posted to the OP frame
  // ---------------------------------------------------------------------------

  /** `"{clientID} {sessionState}"`. */
  function ProbeMessage(clientID: string, sessionState: string): string {
    clientID + " " + sessionState
  }

  /** The position of the last space in `m`, or -1 (JavaScript's `m.lastIndexOf(" ")`). */
  function LastSpace(m: string): (r: int)
    ensures -1 <= r < |m|
    ensures r != -1 ==> m[r] == ' '
    ensures forall k :: r < k < |m| ==> m[k] != ' '
  {
    if m == [] then -1
    else if m[|m| - 1] == ' ' then |m| - 1
    else LastSpace(m[..|m| - 1])
  }

  /**
   * How the OP's check-session frame reads a probe (OpenID Connect Session
   * Management 1.0, section 3.2): the client id is everything before the last
   * space, the session state everything after it.
   */
  function ParseProbe(m: string): Option<(string, string)> {
    var i := LastSpace(m);
    if i == -1 then None else Some((m[..i], m[i + 1..]))
  }

  /**
   * The probe reaches the OP intact: as long as the session state holds no
   * space (an OP session state is a hash and a salt joined by a dot), the OP
   * recovers exactly the client id and session state the helper sent, even a
   * client id that contains spaces.
   */
  lemma ProbeRoundTrip(clientID: string, sessionState: string)
    requires ' ' !in sessionState
    ensures ParseProbe(ProbeMessage(clientID, sessionState)) == Some((clientID, sessionState))
  {
    var m := ProbeMessage(clientID, sessionState);
    var i := LastSpace(m);
    assert m[|clientID|] == ' ';
    forall k | |clientID| < k < |m|
      ensures m[k] != ' '
    {
      assert m[k] == sessionState[k - |clientID| - 1];
    }
    assert i == |clientID|;
    assert m[..i] == clientID;
    assert m[i + 1..] == sessionState;
  }

  // ---------------------------------------------------------------------------
  // URLs built by concatenation
  // ---------------------------------------------------------------------------

  /**
   * Appends the parameters to `url` one by one, the first after `sep` and the
   * rest after "&", each written `key=value`.
   */
  function AppendParams(url: string, sep: string, params: seq<(string, string)>): string
    decreases |params|
  {
    if params == [] then url
    else AppendParams(url + (sep + params[0].0 + "=" + params[0].1), "&", params[1..])
  }

  /** `base?k1=v1&k2=v2&...`, the reference form against which the concatenations are checked. */
  function QueryUrl(base: string, params: seq<(string, string)>): string {
    AppendParams(base, "?", params)
  }

  // ---------------------------------------------------------------------------
  // Reading a URL's query back
  // ---------------------------------------------------------------------------

  /** Splits `s` at its first `c`: the part before it, and the part after it when there is one. */
  function SplitFirst(s: string, c: char): (r: (string, Option<string>))
    ensures r.1.None? ==> r.0 == s && c !in s
    ensures r.1.Some? ==> s == r.0 + [c] + r.1.value && c !in r.0
  {
    if s == [] then ([], None)
    else if s[0] == c then ([], Some(s[1..]))
    else
      var (before, after) := SplitFirst(s[1..], c);
      ([s[0]] + before, after)
  }

  /** `s.split(c)`: the pieces of `s` between its occurrences of `c`. */
  function Split(s: string, c: char): (r: seq<string>)
    ensures |r| >= 1
    ensures forall i :: 0 <= i < |r| ==> c !in r[i]
    decreases |s|
  {
    var (before, after) := SplitFirst(s, c);
    if after.None? then [before] else [before] + Split(after.value, c)
  }

  /** The pieces joined with `c` between each two of them. */
  function Join(pieces: seq<string>, c: char): string
    decreases |pieces|
  {
    if pieces == [] then ""
    else if |pieces| == 1 then pieces[0]
    else pieces[0] + [c] + Join(pieces[1..], c)
  }

  /** One `key=value` piece of a query. */
  function ParamText(p: (string, string)): string {
    p.0 + "=" + p.1
  }

  /** The `key=value` pieces of the parameters, in order. */
  function ParamTexts(ps: seq<(string, string)>): (r: seq<string>)
    ensures |r| == |ps|
    ensures forall i :: 0 <= i < |ps| ==> r[i] == ParamText(ps[i])
  {
    if ps == [] then [] else [ParamText(ps[0])] + ParamTexts(ps[1..])
  }

  /** A query piece read as a parameter: split at its first `=`; without one, the value is empty. */
  function ReadParam(piece: string): (string, string) {
    var (key, value) := SplitFirst(piece, '=');
    (key, value.GetOr(""))
  }

  /** The query pieces read as parameters, in order; empty pieces are skipped. */
  function ReadParams(pieces: seq<string>): seq<(string, string)> {
    if pieces == [] then []
    else if pieces[0] == "" then ReadParams(pieces[1..])
    else [ReadParam(pieces[0])] + ReadParams(pieces[1..])
  }

  /**
   * How a browser reads a URL's address and query parameters (the URL
   * Standard's `application/x-www-form-urlencoded` parser, without
   * percent-decoding): the fragment, from the first `#`, is dropped; the
   * address ends at the first `?`; the query is cut at every `&`.
   */
  function ReadUrl(url: string): (string, seq<(string, string)>) {
    var (beforeFragment, _) := SplitFirst(url, '#');
    var (address, query) := SplitFirst(beforeFragment, '?');
    if query.None? then (address, []) else (address, ReadParams(Split(query.value, '&')))
  }

  /**
   * The parameters survive unencoded concatenation: no key holds `&`, `=` or
   * `#`, and no value holds `&` or `#`.
   */
  predicate PlainParams(ps: seq<(string, string)>) {
    forall i :: 0 <= i < |ps| ==>
      && '&' !in ps[i].0 && '=' !in ps[i].0 && '#' !in ps[i].0
      && '&' !in ps[i].1 && '#' !in ps[i].1
  }

  /** A string that does not hold `c` is split at a `c` placed after it. */
  lemma {:induction false} SplitFirstAt(a: string, b: string, c: char)
    requires c !in a
    ensures SplitFirst(a + [c] + b, c) == (a, Some(b))
  {
    var s := a + [c] + b;
    if a == [] {
      assert s[1..] == b;
    } else {
      assert s[0] == a[0] && s[1..] == a[1..] + [c] + b;
      SplitFirstAt(a[1..], b, c);
      assert [a[0]] + a[1..] == a;
    }
  }

  /** Pieces free of `c`, joined with `c`, split back into the same pieces. */
  lemma {:induction false} SplitJoin(pieces: seq<string>, c: char)
    requires |pieces| >= 1
    requires forall i :: 0 <= i < |pieces| ==> c !in pieces[i]
    ensures Split(Join(pieces, c), c) == pieces
    decreases |pieces|
  {
    if |pieces| == 1 {
      assert Join(pieces, c) == pieces[0];
    } else {
      SplitFirstAt(pieces[0], Join(pieces[1..], c), c);
      SplitJoin(pieces[1..], c);
      assert [pieces[0]] + pieces[1..] == pieces;
    }
  }

  /** A character that no piece holds, other than the separator, is not in the joined string. */
  lemma {:induction false} JoinAvoids(pieces: seq<string>, c: char, d: char)
    requires c != d
    requires forall i :: 0 <= i < |pieces| ==> d !in pieces[i]
    ensures d !in Join(pieces, c)
    decreases |pieces|
  {
    if |pieces| > 1 {
      JoinAvoids(pieces[1..], c, d);
    }
  }

  /** Each `key=value` piece of plain parameters is read back as its parameter. */
  lemma {:induction false} ReadParamTexts(ps: seq<(string, string)>)
    requires PlainParams(ps)
    ensures ReadParams(ParamTexts(ps)) == ps
  {
    if ps != [] {
      var t := ParamTexts(ps);
      assert ParamText(ps[0]) == ps[0].0 + ['='] + ps[0].1;
      SplitFirstAt(ps[0].0, ps[0].1, '=');
      assert t[0] != "";
      assert t[1..] == ParamTexts(ps[1..]);
      assert PlainParams(ps[1..]) by {
        forall i | 0 <= i < |ps| - 1
          ensures '&' !in ps[1..][i].0 && '=' !in ps[1..][i].0 && '#' !in ps[1..][i].0
                  && '&' !in ps[1..][i].1 && '#' !in ps[1..][i].1
        {
          assert ps[1..][i] == ps[i + 1];
        }
      }
      ReadParamTexts(ps[1..]);
    }
  }

  /** AppendParams writes `url`, then `sep`, then the `key=value` pieces joined with "&". */
  lemma {:induction false} AppendParamsJoin(url: string, sep: string, ps: seq<(string, string)>)
    requires |ps| >= 1
    ensures AppendParams(url, sep, ps) == url + sep + Join(ParamTexts(ps), '&')
    decreases |ps|
  {
    var u := url + (sep + ps[0].0 + "=" + ps[0].1);
    assert u == url + sep + ParamText(ps[0]);
    var t := ParamTexts(ps);
    if |ps| == 1 {
      assert AppendParams(u, "&", ps[1..]) == u;
    } else {
      AppendParamsJoin(u, "&", ps[1..]);
      assert t[1..] == ParamTexts(ps[1..]);
      assert Join(t, '&') == ParamText(ps[0]) + "&" + Join(ParamTexts(ps[1..]), '&');
    }
  }

  /**
   * The reference form reads back as exactly its address and parameters,
   * provided the address holds no `?` or `#` and the parameters are plain:
   * the helper encodes nothing, so these conditions are what keeps its URLs
   * meaning what they list.
   */
  lemma QueryUrlRoundTrip(base: string, ps: seq<(string, string)>)
    requires '?' !in base && '#' !in base && PlainParams(ps)
    ensures ReadUrl(QueryUrl(base, ps)) == (base, ps)
  {
    if ps == [] {
      assert QueryUrl(base, ps) == base;
    } else {
      var t := ParamTexts(ps);
      var joined := Join(t, '&');
      AppendParamsJoin(base, "?", ps);
      forall i | 0 <= i < |t|
        ensures '#' !in t[i] && '&' !in t[i]
      {
        assert t[i] == ps[i].0 + "=" + ps[i].1;
      }
      JoinAvoids(t, '&', '#');
      var url := base + ['?'] + joined;
      assert QueryUrl(base, ps) == url;
      assert '#' !in url;
      SplitFirstAt(base, joined, '?');
      SplitJoin(t, '&');
      ReadParamTexts(ps);
    }
  }

  /** One parameter of AppendParams, taken off the front. */
  lemma AppendOne(url: string, sep: string, p: (string, string), rest: seq<(string, string)>)
    ensures AppendParams(url, sep, [p] + rest) == AppendParams(url + (sep + p.0 + "=" + p.1), "&", rest)
  {
    assert ([p] + rest)[1..] == rest;
  }

  /** The OP frame's source, concatenated as the helper does. */
  function OPFrameSrc(checkSessionEndpoint: string, clientID: string, redirectURL: string): string {
    checkSessionEndpoint + "?client_id=" + clientID + "&redirect_uri=" + redirectURL
  }

  /** The OP frame's source is the endpoint queried with exactly `client_id` and `redirect_uri`. */
  lemma OPFrameSrcIsQuery(checkSessionEndpoint: string, clientID: string, redirectURL: string)
    ensures OPFrameSrc(checkSessionEndpoint, clientID, redirectURL)
         == QueryUrl(checkSessionEndpoint, [("client_id", clientID), ("redirect_uri", redirectURL)])
  {
    var e := checkSessionEndpoint;
    var u0 := e + "?client_id=" + clientID;
    calc {
      QueryUrl(e, [("client_id", clientID), ("redirect_uri", redirectURL)]);
      { AppendOne(e, "?", ("client_id", clientID), [("redirect_uri", redirectURL)]);
        assert [("client_id", clientID), ("redirect_uri", redirectURL)]
            == [("client_id", clientID)] + [("redirect_uri", redirectURL)];
        assert e + ("?" + "client_id" + "=" + clientID) == u0; }
      AppendParams(u0, "&", [("redirect_uri", redirectURL)]);
      { AppendOne(u0, "&", ("redirect_uri", redirectURL), []);
        assert [("redirect_uri", redirectURL)] == [("redirect_uri", redirectURL)] + [];
        assert u0 + ("&" + "redirect_uri" + "=" + redirectURL) == u0 + "&redirect_uri=" + redirectURL; }
      OPFrameSrc(e, clientID, redirectURL);
    }
  }

  /** The prompt-none authorisation URL, concatenated piece by piece as the helper does. */
  function PromptNoneUrl(authorizationEndpoint: string, clientID: string, redirectURL: string,
                         stateMarker: string, challenge: string): string
  {
    authorizationEndpoint
    + "?response_type=code"
    + "&client_id=" + clientID
    + "&scope=openid"
    + "&redirect_uri=" + redirectURL
    + "&state=" + stateMarker
    + "&prompt=none"
    + "&code_challenge_method=S256&code_challenge=" + challenge
  }

  /** The eight query parameters of a prompt-none request, in the order the helper writes them. */
  function PromptNoneParams(clientID: string, redirectURL: string, stateMarker: string, challenge: string)
    : seq<(string, string)>
  {
    [("response_type", "code"), ("client_id", clientID), ("scope", "openid"),
     ("redirect_uri", redirectURL), ("state", stateMarker), ("prompt", "none"),
     ("code_challenge_method", "S256"), ("code_challenge", challenge)]
  }

  /** One parameter of AppendParams, taken off the front, with its `sep key=` text written out as `keyText`. */
  lemma AppendKeyed(url: string, sep: string, keyText: string, key: string, value: string,
                    rest: seq<(string, string)>)
    requires keyText == sep + key + "="
    ensures AppendParams(url, sep, [(key, value)] + rest) == AppendParams(url + keyText + value, "&", rest)
  {
    AppendOne(url, sep, (key, value), rest);
    assert url + (sep + key + "=" + value) == url + keyText + value;
  }

  /** Two pieces of a concatenation merged into one. */
  lemma Regroup(u: string, a: string, b: string, ab: string)
    requires ab == a + b
    ensures u + a + b == u + ab
  {
  }

  /** AppendParams over a split list: the first part, then the rest after "&". */
  lemma {:induction false} AppendConcat(url: string, sep: string, ps: seq<(string, string)>, qs: seq<(string, string)>)
    requires ps != []
    ensures AppendParams(url, sep, ps + qs) == AppendParams(AppendParams(url, sep, ps), "&", qs)
    decreases |ps|
  {
    var u := url + (sep + ps[0].0 + "=" + ps[0].1);
    assert (ps + qs)[1..] == ps[1..] + qs;
    if |ps| > 1 {
      AppendConcat(u, "&", ps[1..], qs);
    }
  }

  /** Four parameters appended, each `key=` text written out. */
  lemma AppendFour(url: string, sep: string, t1: string, k1: string, v1: string, t2: string, k2: string, v2: string,
                   t3: string, k3: string, v3: string, t4: string, k4: string, v4: string)
    requires t1 == sep + k1 + "=" && t2 == "&" + k2 + "=" && t3 == "&" + k3 + "=" && t4 == "&" + k4 + "="
    ensures AppendParams(url, sep, [(k1, v1), (k2, v2), (k3, v3), (k4, v4)])
         == url + t1 + v1 + t2 + v2 + t3 + v3 + t4 + v4
  {
    var p4: seq<(string, string)> := [(k4, v4)];
    var p3 := [(k3, v3)] + p4;
    var p2 := [(k2, v2)] + p3;
    assert [(k1, v1), (k2, v2), (k3, v3), (k4, v4)] == [(k1, v1)] + p2;
    AppendKeyed(url, sep, t1, k1, v1, p2);
    AppendKeyed(url + t1 + v1, "&", t2, k2, v2, p3);
    AppendKeyed(url + t1 + v1 + t2 + v2, "&", t3, k3, v3, p4);
    assert p4 == [(k4, v4)] + [];
    AppendKeyed(url + t1 + v1 + t2 + v2 + t3 + v3, "&", t4, k4, v4, []);
  }

  /** The `key=` texts and merged literals of the last four parameters. */
  lemma PromptNoneTailTexts()
    ensures "&state=" == "&" + "state" + "=" && "&prompt=" == "&" + "prompt" + "="
    ensures "&code_challenge_method=" == "&" + "code_challenge_method" + "="
    ensures "&code_challenge=" == "&" + "code_challenge" + "="
    ensures "&prompt=none" == "&prompt=" + "none"
    ensures "&code_challenge_method=S256" == "&code_challenge_method=" + "S256"
    ensures "&code_challenge_method=S256&code_challenge=" == "&code_challenge_method=S256" + "&code_challenge="
  {
  }

  /** The last four parameters of a prompt-none request, appended to the URL written so far. */
  lemma {:induction false} PromptNoneTail(url: string, stateMarker: string, challenge: string)
    ensures AppendParams(url, "&", [("state", stateMarker), ("prompt", "none"),
                                    ("code_challenge_method", "S256"), ("code_challenge", challenge)])
         == url + "&state=" + stateMarker + "&prompt=none" + "&code_challenge_method=S256&code_challenge=" + challenge
  {
    PromptNoneTailTexts();
    AppendFour(url, "&", "&state=", "state", stateMarker, "&prompt=", "prompt", "none",
               "&code_challenge_method=", "code_challenge_method", "S256", "&code_challenge=", "code_challenge", challenge);
    var u := url + "&state=" + stateMarker;
    Regroup(u, "&prompt=", "none", "&prompt=none");
    var u5 := u + "&prompt=none";
    Regroup(u5, "&code_challenge_method=", "S256", "&code_challenge_method=S256");
    Regroup(u5, "&code_challenge_method=S256", "&code_challenge=", "&code_challenge_method=S256&code_challenge=");
  }

  /** The first four parameters of a prompt-none request, appended to the endpoint. */
  lemma {:induction false} PromptNoneHead(authorizationEndpoint: string, clientID: string, redirectURL: string)
    ensures AppendParams(authorizationEndpoint, "?", [("response_type", "code"), ("client_id", clientID),
                                                      ("scope", "openid"), ("redirect_uri", redirectURL)])
         == authorizationEndpoint + "?response_type=code" + "&client_id=" + clientID + "&scope=openid"
            + "&redirect_uri=" + redirectURL
  {
    var e := authorizationEndpoint;
    AppendFour(e, "?", "?response_type=", "response_type", "code", "&client_id=", "client_id", clientID,
               "&scope=", "scope", "openid", "&redirect_uri=", "redirect_uri", redirectURL);
    Regroup(e, "?response_type=", "code", "?response_type=code");
    Regroup(e + "?response_type=code" + "&client_id=" + clientID, "&scope=", "openid", "&scope=openid");
  }

  /**
   * The concatenation is the authorisation endpoint queried with exactly the
   * eight parameters of a PKCE `prompt=none` request: `response_type=code`,
   * the client id, `scope=openid`, the redirect URI, the ordinary state
   * marker, `prompt=none`, `code_challenge_method=S256` and the challenge.
   */
  lemma {:induction false} PromptNoneUrlIsQuery(authorizationEndpoint: string, clientID: string, redirectURL: string,
                                                stateMarker: string, challenge: string)
    ensures PromptNoneUrl(authorizationEndpoint, clientID, redirectURL, stateMarker, challenge)
         == QueryUrl(authorizationEndpoint, PromptNoneParams(clientID, redirectURL, stateMarker, challenge))
  {
    var head := [("response_type", "code"), ("client_id", clientID), ("scope", "openid"), ("redirect_uri", redirectURL)];
    var tail := [("state", stateMarker), ("prompt", "none"),
                 ("code_challenge_method", "S256"), ("code_challenge", challenge)];
    assert PromptNoneParams(clientID, redirectURL, stateMarker, challenge) == head + tail;
    AppendConcat(authorizationEndpoint, "?", head, tail);
    PromptNoneHead(authorizationEndpoint, clientID, redirectURL);
    PromptNoneTail(AppendParams(authorizationEndpoint, "?", head), stateMarker, challenge);
  }

  /** The challenge is the tail of the URL: whoever reads the URL's end reads the challenge back. */
  lemma PromptNoneUrlEndsWithChallenge(authorizationEndpoint: string, clientID: string, redirectURL: string,
                                       stateMarker: string, challenge: string)
    ensures var url := PromptNoneUrl(authorizationEndpoint, clientID, redirectURL, stateMarker, challenge);
      |url| >= |challenge| && url[|url| - |challenge|..] == challenge
      && url[..|authorizationEndpoint|] == authorizationEndpoint
  {
  }

  /**
   * The OP frame's source reads back as the check-session endpoint with
   * exactly `client_id` and `redirect_uri`, when the endpoint holds no `?` or
   * `#` and neither value holds `&` or `#`.
   */
  lemma OPFrameSrcReadsBack(checkSessionEndpoint: string, clientID: string, redirectURL: string)
    requires '?' !in checkSessionEndpoint && '#' !in checkSessionEndpoint
    requires '&' !in clientID && '#' !in clientID && '&' !in redirectURL && '#' !in redirectURL
    ensures ReadUrl(OPFrameSrc(checkSessionEndpoint, clientID, redirectURL))
         == (checkSessionEndpoint, [("client_id", clientID), ("redirect_uri", redirectURL)])
  {
    OPFrameSrcIsQuery(checkSessionEndpoint, clientID, redirectURL);
    QueryUrlRoundTrip(checkSessionEndpoint, [("client_id", clientID), ("redirect_uri", redirectURL)]);
  }

  /** The eight parameters are plain when the four values are free of `&` and `#`. */
  lemma PromptNoneParamsPlain(clientID: string, redirectURL: string, stateMarker: string, challenge: string)
    requires '&' !in clientID && '#' !in clientID && '&' !in redirectURL && '#' !in redirectURL
    requires '&' !in stateMarker && '#' !in stateMarker && '&' !in challenge && '#' !in challenge
    ensures PlainParams(PromptNoneParams(clientID, redirectURL, stateMarker, challenge))
  {
  }

  /**
   * The prompt-none URL reads back as the authorisation endpoint with exactly
   * the eight parameters of a PKCE `prompt=none` request, in order, when the
   * endpoint holds no `?` or `#` and the client id, redirect URL and state
   * marker hold no `&` or `#`. A challenge from the helper's table never does.
   */
  lemma PromptNoneUrlReadsBack(authorizationEndpoint: string, clientID: string, redirectURL: string,
                               stateMarker: string, challenge: string)
    requires '?' !in authorizationEndpoint && '#' !in authorizationEndpoint
    requires '&' !in clientID && '#' !in clientID && '&' !in redirectURL && '#' !in redirectURL
    requires '&' !in stateMarker && '#' !in stateMarker
    requires PkceChallenge.IsChallenge(challenge)
    ensures ReadUrl(PromptNoneUrl(authorizationEndpoint, clientID, redirectURL, stateMarker, challenge))
         == (authorizationEndpoint, PromptNoneParams(clientID, redirectURL, stateMarker, challenge))
  {
    PkceChallenge.ChallengeIsWellFormed(challenge);
    assert '&' !in challenge && '#' !in challenge;
    PromptNoneParamsPlain(clientID, redirectURL, stateMarker, challenge);
    PromptNoneUrlIsQuery(authorizationEndpoint, clientID, redirectURL, stateMarker, challenge);
    QueryUrlRoundTrip(authorizationEndpoint, PromptNoneParams(clientID, redirectURL, stateMarker, challenge));
  }

  /**
   * Values are concatenated unencoded, so a redirect URL with a query of its
   * own, such as "https://rp/?a=1&b=2", adds a parameter to the OP frame's
   * source: the frame is given three parameters, and its `redirect_uri` is
   * cut short at the `&`.
   */
  lemma UnencodedRedirectAddsParameter(checkSessionEndpoint: string, clientID: string,
                                       redirectPrefix: string, key: string, value: string)
    requires '?' !in checkSessionEndpoint && '#' !in checkSessionEndpoint
    requires '&' !in clientID && '#' !in clientID && '&' !in redirectPrefix && '#' !in redirectPrefix
    requires '&' !in key && '=' !in key && '#' !in key && '&' !in value && '#' !in value
    ensures ReadUrl(OPFrameSrc(checkSessionEndpoint, clientID, redirectPrefix + "&" + key + "=" + value))
         == (checkSessionEndpoint, [("client_id", clientID), ("redirect_uri", redirectPrefix), (key, value)])
  {
    var e, c, r := checkSessionEndpoint, clientID, redirectPrefix;
    var ps := [("client_id", c), ("redirect_uri", r), (key, value)];
    var u0 := e + "?client_id=" + c;
    var u1 := u0 + "&redirect_uri=" + r;
    calc {
      QueryUrl(e, ps);
      { AppendOne(e, "?", ("client_id", c), ps[1..]);
        assert ps == [("client_id", c)] + ps[1..];
        assert e + ("?" + "client_id" + "=" + c) == u0; }
      AppendParams(u0, "&", ps[1..]);
      { AppendOne(u0, "&", ("redirect_uri", r), ps[2..]);
        assert ps[1..] == [("redirect_uri", r)] + ps[2..];
        assert u0 + ("&" + "redirect_uri" + "=" + r) == u1; }
      AppendParams(u1, "&", ps[2..]);
      { AppendOne(u1, "&", (key, value), []);
        assert ps[2..] == [(key, value)] + []; }
      AppendParams(u1 + ("&" + key + "=" + value), "&", []);
      u1 + ("&" + key + "=" + value);
      OPFrameSrc(e, c, r + "&" + key + "=" + value);
    }
    ThreeParamsPlain(c, r, key, value);
    QueryUrlRoundTrip(e, ps);
  }

  /** The client id, the cut-short redirect URL and the added parameter are plain. */
  lemma ThreeParamsPlain(clientID: string, redirectPrefix: string, key: string, value: string)
    requires '&' !in clientID && '#' !in clientID && '&' !in redirectPrefix && '#' !in redirectPrefix
    requires '&' !in key && '=' !in key && '#' !in key && '&' !in value && '#' !in value
    ensures PlainParams([("client_id", clientID), ("redirect_uri", redirectPrefix), (key, value)])
  {
  }

  // ---------------------------------------------------------------------------
  // The prompt-none callback
  // ---------------------------------------------------------------------------

  /** `searchParams.get(key)`: the parameter's value, or None (JavaScript's null) when absent. */
  function Param(query: map<string, string>, key: string): Option<string> {
    if key in query then Some(query[key]) else None
  }

  /** The five ways the callback handler can read a callback. */
  datatype CallbackKind =
    | NotOurs
    | OrdinaryWithCode
    | OrdinaryWithoutCode
    | SilentWithCode(code: string)
    | SilentWithoutCode

  /**
   * The decision tree over `state` and `code`: an absent or foreign `state`
   * is not a response of this helper; otherwise a non-empty `code` marks a
   * granted authorisation, and the silent-sign-in marker is tested before the
   * ordinary one.
   */
  function ClassifyCallback(query: map<string, string>, stateMarker: string, silentSignInMarker: string)
    : CallbackKind
  {
    var state := Param(query, "state");
    if state.Some? && (state.value == stateMarker || state.value == silentSignInMarker) then
      var code := Param(query, "code");
      if code.Some? && |code.value| != 0 then
        if state.value == silentSignInMarker then SilentWithCode(code.value) else OrdinaryWithCode
      else
        if state.value == silentSignInMarker then SilentWithoutCode else OrdinaryWithoutCode
    else
      NotOurs
  }

  /**
   * A callback is recognised exactly when its `state` is present and equals
   * one of the two markers; a recognised callback is classed as granted
   * exactly when its `code` is present and non-empty, and as silent exactly
   * when its state is the silent-sign-in marker; a silent grant carries the
   * callback's code.
   */
  lemma ClassifyCallbackCases(query: map<string, string>, stateMarker: string, silentSignInMarker: string)
    ensures var kind := ClassifyCallback(query, stateMarker, silentSignInMarker);
      && (kind != NotOurs <==> "state" in query && query["state"] in {stateMarker, silentSignInMarker})
      && (kind != NotOurs ==>
            ((kind == OrdinaryWithCode || kind.SilentWithCode?) <==> "code" in query && query["code"] != "")
            && ((kind.SilentWithCode? || kind == SilentWithoutCode) <==> query["state"] == silentSignInMarker))
      && (kind.SilentWithCode? ==> kind.code == query["code"])
  {
  }
}
