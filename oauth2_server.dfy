/** The local redirect listener of the OAuth2 authorization-code grant
    (sections 4.1.2 and 4.1.3 of RFC 6749), src/music/auth/oauth2_server.py.

    The listener thread, the browser and the HTTP traffic are not modelled as
    such: an incoming GET is a `Request` value (its path and its query, already
    split into lists of values as `parse_qs` does) that also carries the reply
    the token endpoint gives to the exchange the handler would post; the
    listener serves a finite sequence of such requests. */
module OAuth2 {
  import opened Wrappers
  import opened Errors
  import opened Strings

  const DefaultPort: int := 8888
  const CallbackPath: string := "/callback"

  const SuccessPage: string := "Authentication successful! You can close this window."
  const ExchangeFailedPage: string := "Token request failed."
  const NoCodePage: string := "No code parameter found."
  const RunningPage: string := "OAuth2 authentication running."
  const NoTokensMessage: string := "Failed to obtain authentication tokens"

  /** A parsed JSON document, as `r.json()` returns it. */
  datatype Json =
    | JNull
    | JBool(b: bool)
    | JNum(n: int)
    | JStr(s: string)
    | JArr(items: seq<Json>)
    | JObj(fields: map<string, Json>)

  /** The token endpoint's answer: its status code and its parsed body. */
  datatype TokenReply = TokenReply(status: int, body: Json)

  /** One GET the listener receives, with the answer the token endpoint would
      give if the handler posts an exchange for it. */
  datatype Request = Request(path: string, query: map<string, seq<string>>, reply: TokenReply)

  /** What the handler writes back to the browser. */
  datatype Response = Response(status: int, body: string)

  /** The form posted to the token endpoint. */
  datatype Exchange = Exchange(tokenUrl: string, form: map<string, string>)

  /** The client's fixed settings, as the handler reads them from its server. */
  datatype Config = Config(clientId: string, clientSecret: string, redirectUri: string, tokenUrl: string)

  /** What the handler reads and writes on the owning flow: the stored tokens,
      whether shutdown was triggered, and the exchanges posted so far. */
  datatype ListenerState = ListenerState(authTokens: Option<Json>, shutdown: bool, exchanges: seq<Exchange>)

  /** The outcome of `get_auth_tokens`: the tokens, an exception, or still
      blocked in `join` because no request triggered shutdown. */
  datatype FlowOutcome = Obtained(tokens: Json) | Raised(error: Error) | StillWaiting

  /** `f"http://localhost:{port}/callback"`. */
  function RedirectUri(port: int): string
  {
    "http://localhost:" + IntToString(port) + CallbackPath
  }

  /** `query.get("code", [None])[0]`, taken as absent when it is falsy. The
      lists `parse_qs` builds are never empty and hold no blank value, so an
      empty list or an empty string stands for no code at all. */
  function CodeOf(query: map<string, seq<string>>): (code: Option<string>)
    ensures code.Some? <==> "code" in query && |query["code"]| > 0 && query["code"][0] != ""
    ensures code.Some? ==> code.value == query["code"][0]
  {
    if "code" in query && |query["code"]| > 0 && query["code"][0] != "" then Some(query["code"][0]) else None
  }

  /** The body of the authorization-code exchange (section 4.1.3 of RFC 6749,
      with the client credentials in the body). */
  function ExchangeForm(cfg: Config, code: string): (form: map<string, string>)
    ensures form.Keys == {"grant_type", "code", "redirect_uri", "client_id", "client_secret"}
    ensures form["grant_type"] == "authorization_code" && form["code"] == code
    ensures form["redirect_uri"] == cfg.redirectUri
    ensures form["client_id"] == cfg.clientId && form["client_secret"] == cfg.clientSecret
  {
    map["grant_type" := "authorization_code", "code" := code, "redirect_uri" := cfg.redirectUri,
        "client_id" := cfg.clientId, "client_secret" := cfg.clientSecret]
  }

  /** A JSON body as it is stored: `null` becomes Python's None. */
  function StoredTokens(body: Json): Option<Json>
  {
    if body == JNull then None else Some(body)
  }

  /** A request that completes the flow: a callback with a code whose
      exchange the endpoint accepts. */
  predicate Completes(req: Request)
  {
    req.path == CallbackPath && CodeOf(req.query).Some? && req.reply.status == 200
  }

  /** The exchange a request makes the handler post: one for a callback that
      carries a code, none otherwise. */
  function Posted(cfg: Config, req: Request): seq<Exchange>
  {
    if req.path == CallbackPath && CodeOf(req.query).Some?
    then [Exchange(cfg.tokenUrl, ExchangeForm(cfg, CodeOf(req.query).value))] else []
  }

  /** `do_GET`: the decision on path, code and exchange status. */
  function Handle(cfg: Config, st: ListenerState, req: Request): (out: (ListenerState, Response))
    ensures Completes(req) ==> out.0.authTokens == StoredTokens(req.reply.body) && out.0.shutdown
    ensures !Completes(req) ==> out.0.authTokens == st.authTokens && out.0.shutdown == st.shutdown
    ensures out.1.status == 200 <==> Completes(req) || req.path != CallbackPath
    ensures out.1.status == 200 || out.1.status == 400
    ensures out.0.exchanges == st.exchanges + Posted(cfg, req)
    ensures req.path != CallbackPath ==> out == (st, Response(200, RunningPage))
    ensures req.path == CallbackPath && CodeOf(req.query).None? ==> out == (st, Response(400, NoCodePage))
    ensures Completes(req) ==> out.1 == Response(200, SuccessPage)
    ensures req.path == CallbackPath && CodeOf(req.query).Some? && req.reply.status != 200 ==>
              out.1 == Response(400, ExchangeFailedPage)
  {
    if req.path == CallbackPath then
      match CodeOf(req.query)
      case Some(code) =>
        var posted := st.exchanges + [Exchange(cfg.tokenUrl, ExchangeForm(cfg, code))];
        if req.reply.status == 200 then
          (ListenerState(StoredTokens(req.reply.body), true, posted), Response(200, SuccessPage))
        else
          (st.(exchanges := posted), Response(400, ExchangeFailedPage))
      case None =>
        (st, Response(400, NoCodePage))
    else
      (st, Response(200, RunningPage))
  }

  /** `serve_forever` over the requests that arrive: each is handled in turn
      until one of them triggers shutdown. */
  function Serve(cfg: Config, st: ListenerState, reqs: seq<Request>): ListenerState
    decreases |reqs|
  {
    if reqs == [] || st.shutdown then st else Serve(cfg, Handle(cfg, st, reqs[0]).0, reqs[1..])
  }

  /** The exchanges posted for the requests `reqs`. */
  function ExchangesOf(cfg: Config, reqs: seq<Request>): seq<Exchange>
  {
    if reqs == [] then [] else Posted(cfg, reqs[0]) + ExchangesOf(cfg, reqs[1..])
  }

  /** A running listener shuts down exactly when some request completes the flow. */
  lemma {:induction false} ServeShutsDownIffCompleted(cfg: Config, st: ListenerState, reqs: seq<Request>)
    requires !st.shutdown
    decreases |reqs|
    ensures Serve(cfg, st, reqs).shutdown <==> exists i :: 0 <= i < |reqs| && Completes(reqs[i])
  {
    if reqs != [] && !Completes(reqs[0]) {
      var next := Handle(cfg, st, reqs[0]).0;
      ServeShutsDownIffCompleted(cfg, next, reqs[1..]);
      if exists i :: 0 <= i < |reqs| && Completes(reqs[i]) {
        var i :| 0 <= i < |reqs| && Completes(reqs[i]);
        assert Completes(reqs[1..][i - 1]);
      }
      if exists i :: 0 <= i < |reqs[1..]| && Completes(reqs[1..][i]) {
        var i :| 0 <= i < |reqs[1..]| && Completes(reqs[1..][i]);
        assert Completes(reqs[i + 1]);
      }
    }
  }

  /** Without a completing request the listener keeps running, the tokens are
      left as they were, and one exchange is posted per callback that carried
      a code. */
  lemma {:induction false} ServeWithoutCompletion(cfg: Config, st: ListenerState, reqs: seq<Request>)
    requires !st.shutdown
    requires forall i :: 0 <= i < |reqs| ==> !Completes(reqs[i])
    decreases |reqs|
    ensures var out := Serve(cfg, st, reqs);
      !out.shutdown && out.authTokens == st.authTokens && out.exchanges == st.exchanges + ExchangesOf(cfg, reqs)
  {
    if reqs != [] {
      var next := Handle(cfg, st, reqs[0]).0;
      assert forall i :: 0 <= i < |reqs[1..]| ==> !Completes(reqs[1..][i]) by {
        forall i | 0 <= i < |reqs[1..]| ensures !Completes(reqs[1..][i]) {
          assert reqs[1..][i] == reqs[i + 1];
        }
      }
      ServeWithoutCompletion(cfg, next, reqs[1..]);
      assert !Completes(reqs[0]);
      Assoc(st.exchanges, Posted(cfg, reqs[0]), ExchangesOf(cfg, reqs[1..]));
    }
  }

  /** The listener stops at the first request that completes the flow and
      then holds that request's tokens; the exchanges are those posted for the
      requests up to and including it. */
  lemma {:induction false} ServeStopsAtFirstCompletion(cfg: Config, st: ListenerState, reqs: seq<Request>, i: nat)
    requires !st.shutdown
    requires i < |reqs| && Completes(reqs[i])
    requires forall j :: 0 <= j < i ==> !Completes(reqs[j])
    decreases i
    ensures var out := Serve(cfg, st, reqs);
      out.shutdown && out.authTokens == StoredTokens(reqs[i].reply.body)
      && out.exchanges == st.exchanges + ExchangesOf(cfg, reqs[..i + 1])
  {
    var next := Handle(cfg, st, reqs[0]).0;
    if i == 0 {
      assert Serve(cfg, st, reqs) == next;
      assert reqs[..1] == [reqs[0]];
      assert ExchangesOf(cfg, [reqs[0]][1..]) == [];
    } else {
      assert !Completes(reqs[0]);
      assert reqs[1..][i - 1] == reqs[i];
      assert forall j :: 0 <= j < i - 1 ==> !Completes(reqs[1..][j]) by {
        forall j | 0 <= j < i - 1 ensures !Completes(reqs[1..][j]) {
          assert reqs[1..][j] == reqs[j + 1];
        }
      }
      ServeStopsAtFirstCompletion(cfg, next, reqs[1..], i - 1);
      assert reqs[..i + 1][0] == reqs[0];
      assert reqs[..i + 1][1..] == reqs[1..][..i];
      assert ExchangesOf(cfg, reqs[..i + 1]) == Posted(cfg, reqs[0]) + ExchangesOf(cfg, reqs[1..][..i]);
      Assoc(st.exchanges, Posted(cfg, reqs[0]), ExchangesOf(cfg, reqs[1..][..i]));
    }
  }

  /** The verdict `get_auth_tokens` reaches once the listener has served. */
  function Verdict(st: ListenerState): (r: FlowOutcome)
    ensures r.Obtained? <==> st.shutdown && st.authTokens.Some?
    ensures r.Obtained? ==> r.tokens == st.authTokens.value
    ensures r == StillWaiting <==> !st.shutdown
  {
    if !st.shutdown then StillWaiting
    else if st.authTokens.None? then Raised(Failed(NoTokensMessage))
    else Obtained(st.authTokens.value)
  }

  /** The authorization URL: the template with `$client_id` and the
      percent-encoded `$redirect_uri` filled in. */
  function AuthorizationUrl(template: string, clientId: string, redirectUri: string): Result<string, Error>
  {
    Substitute(template, map["client_id" := clientId, "redirect_uri" := Quote(redirectUri)])
  }

  /** For a template that names the client id and then the redirect URI, the
      URL is the template's text with the two values in place. */
  lemma AuthorizationUrlFills(before: string, between: string, after: string, clientId: string, redirectUri: string)
    requires '$' !in before && '$' !in between && '$' !in after
    requires between == [] || !IdChar(between[0])
    requires after == [] || !IdChar(after[0])
    ensures AuthorizationUrl(before + "$client_id" + between + "$redirect_uri" + after, clientId, redirectUri)
            == Success(before + clientId + between + Quote(redirectUri) + after)
  {
    assert IsIdentifier("client_id") && IsIdentifier("redirect_uri");
    assert "$client_id" == "$" + "client_id" && "$redirect_uri" == "$" + "redirect_uri";
    SubstituteTwo(before, "$client_id", "client_id", between, "$redirect_uri", "redirect_uri", after,
                  map["client_id" := clientId, "redirect_uri" := Quote(redirectUri)]);
  }

  /** The default redirect URI. */
  lemma DefaultRedirectUri()
    ensures RedirectUri(DefaultPort) == "http://localhost:8888/callback"
  {
    assert NatToString(8888) == NatToString(888) + "8";
    assert NatToString(888) == NatToString(88) + "8";
    assert NatToString(88) == NatToString(8) + "8";
  }

  /** The decimal rendering of an integer uses only characters quote keeps. */
  lemma IntToStringIsSafe(i: int)
    ensures forall k :: 0 <= k < |IntToString(i)| ==> QuoteSafe(IntToString(i)[k])
  {
    var d := NatToString(if i < 0 then -i else i);
    assert forall k :: 0 <= k < |d| ==> QuoteSafe(d[k]) by {
      forall k | 0 <= k < |d| ensures QuoteSafe(d[k]) { assert IsDigit(d[k]); }
    }
    if i < 0 {
      assert IntToString(i) == "-" + d;
      forall k | 0 <= k < |IntToString(i)| ensures QuoteSafe(IntToString(i)[k]) {
        if k > 0 { assert IntToString(i)[k] == d[k - 1]; }
      }
    }
  }

  lemma QuoteColon()
    ensures QuoteChar(':') == "%3A"
  {
  }

  /** `"http://localhost:" + s` and its quoted form, regrouped piece by piece. */
  lemma LocalhostPieces(s: string)
    ensures "http://localhost:" + s == "http" + (":" + ("//localhost" + (":" + s)))
    ensures "http" + ("%3A" + ("//localhost" + ("%3A" + s))) == "http%3A//localhost%3A" + s
  {
    Regroup("http", ":", "//localhost", ":", s);
    Regroup("http", "%3A", "//localhost", "%3A", s);
    assert "http" + ":" + "//localhost" + ":" == "http://localhost:";
    assert "http" + "%3A" + "//localhost" + "%3A" == "http%3A//localhost%3A";
  }

  /** Quoting `http://localhost:` escapes its two colons. */
  lemma QuoteLocalhostPrefix(s: string)
    ensures Quote("http://localhost:" + s) == "http%3A//localhost%3A" + Quote(s)
  {
    QuoteColon();
    var s3 := ":" + s;
    QuoteCons(':', s);
    var s2 := "//localhost" + s3;
    QuoteSafePrefix("//localhost", s3);
    var s1 := ":" + s2;
    QuoteCons(':', s2);
    QuoteSafePrefix("http", s1);
    LocalhostPieces(Quote(s));
    LocalhostPieces(s);
  }

  /** The port and the callback path need no escaping. */
  lemma QuotePortAndPath(port: int)
    ensures Quote(IntToString(port) + CallbackPath) == IntToString(port) + CallbackPath
  {
    var digits := IntToString(port);
    var s4 := digits + CallbackPath;
    IntToStringIsSafe(port);
    assert forall k :: 0 <= k < |s4| ==> QuoteSafe(s4[k]) by {
      forall k | 0 <= k < |s4| ensures QuoteSafe(s4[k]) {
        if k >= |digits| { assert s4[k] == "/callback"[k - |digits|]; }
      }
    }
    QuoteIdentity(s4);
  }

  /** Percent-encoding the redirect URI escapes only the two colons. */
  lemma QuotedRedirectUri(port: int)
    ensures Quote(RedirectUri(port)) == "http%3A//localhost%3A" + IntToString(port) + CallbackPath
  {
    var s4 := IntToString(port) + CallbackPath;
    QuotePortAndPath(port);
    QuoteLocalhostPrefix(s4);
    Assoc("http://localhost:", IntToString(port), CallbackPath);
    Assoc("http%3A//localhost%3A", IntToString(port), CallbackPath);
  }

  class OAuth2Server {
    const clientId: string
    const clientSecret: string
    const port: int
    const redirectUri: string
    const authUrlTemplate: string
    const tokenUrl: string
    var authTokens: Option<Json>
    /** Whether a handler has triggered the listener's shutdown. */
    var shutdownRequested: bool
    /** The exchanges posted to the token endpoint, in order. */
    var exchanges: seq<Exchange>
    /** The URLs handed to the browser, in order. */
    var openedUrls: seq<string>

    constructor (clientId: string, clientSecret: string, authUrlTemplate: string, tokenUrl: string,
                 port: int := DefaultPort)
      ensures this.clientId == clientId && this.clientSecret == clientSecret
      ensures this.authUrlTemplate == authUrlTemplate && this.tokenUrl == tokenUrl && this.port == port
      ensures redirectUri == RedirectUri(port)
      ensures authTokens == None && !shutdownRequested && exchanges == [] && openedUrls == []
    {
      this.clientId := clientId;
      this.clientSecret := clientSecret;
      this.port := port;
      this.redirectUri := RedirectUri(port);
      this.authUrlTemplate := authUrlTemplate;
      this.tokenUrl := tokenUrl;
      authTokens := None;
      shutdownRequested := false;
      exchanges := [];
      openedUrls := [];
    }

    function Settings(): Config
    {
      Config(clientId, clientSecret, redirectUri, tokenUrl)
    }

    function State(): ListenerState
      reads this
    {
      ListenerState(authTokens, shutdownRequested, exchanges)
    }

    /** `_OAuthHandler.do_GET`, writing to this flow. */
    method HandleGet(req: Request) returns (resp: Response)
      modifies this`authTokens, this`shutdownRequested, this`exchanges
      ensures (State(), resp) == Handle(Settings(), old(State()), req)
    {
      if req.path == CallbackPath {
        var code := CodeOf(req.query);
        if code.Some? {
          exchanges := exchanges + [Exchange(tokenUrl, ExchangeForm(Settings(), code.value))];
          if req.reply.status == 200 {
            authTokens := StoredTokens(req.reply.body);
            resp := Response(200, SuccessPage);
            shutdownRequested := true;
          } else {
            resp := Response(400, ExchangeFailedPage);
          }
        } else {
          resp := Response(400, NoCodePage);
        }
      } else {
        resp := Response(200, RunningPage);
      }
    }

    /** `get_auth_tokens`: start a fresh listener, open the authorization URL,
        serve the requests that arrive until one triggers shutdown, then
        return the stored tokens or raise. */
    method GetAuthTokens(reqs: seq<Request>) returns (r: FlowOutcome)
      modifies this`authTokens, this`shutdownRequested, this`exchanges, this`openedUrls
      ensures var url := AuthorizationUrl(authUrlTemplate, clientId, redirectUri);
        if url.Failure? then
          r == Raised(url.error) && authTokens == old(authTokens) && exchanges == old(exchanges)
          && openedUrls == old(openedUrls) && !shutdownRequested
        else
          openedUrls == old(openedUrls) + [url.value]
          && State() == Serve(Settings(), ListenerState(old(authTokens), false, old(exchanges)), reqs)
          && r == Verdict(State())
    {
      shutdownRequested := false;
      var url := AuthorizationUrl(authUrlTemplate, clientId, redirectUri);
      if url.Failure? {
        return Raised(url.error);
      }
      openedUrls := openedUrls + [url.value];
      ghost var start := State();
      var i := 0;
      while i < |reqs| && !shutdownRequested
        invariant 0 <= i <= |reqs|
        invariant Serve(Settings(), start, reqs) == Serve(Settings(), State(), reqs[i..])
        invariant openedUrls == old(openedUrls) + [url.value]
      {
        assert reqs[i..][1..] == reqs[i + 1..];
        var _ := HandleGet(reqs[i]);
        i := i + 1;
      }
      r := Verdict(State());
    }
  }
}
