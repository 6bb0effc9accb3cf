/** Tokens: what WHMCS's token endpoint answers, and how a refresh token travels through a session
    of one code exchange and any number of refreshes. */
module Tokens {
  import opened Basics
  import opened Text
  import opened Settings
  import opened Entitlement

  // ----------------------------------------------------------- the token endpoint

  /** The fields of a token response that are used, as decoded or as normalised. */
  datatype Token = Token(access: string, refresh: string, kind: string)

  datatype Reply = Unreachable(error: string) | Answered(status: int, body: Option<Token>)

  /** What ExchangeCode and RefreshAccessToken accept. */
  function Accept(reply: Reply): Result<Token, string> {
    match reply
    case Unreachable(e) => Err(e)
    case Answered(status, body) =>
      if status >= 400 then Err("status")
      else if body.None? then Err("decode")
      else
        var t := body.value;
        var kind := TrimSpace(t.kind);
        if TrimSpace(t.access) == "" then Err("missing access_token")
        else if kind != "" && !EqualFold(kind, "Bearer") then Err("unsupported token_type")
        else Ok(Token(TrimSpace(t.access), TrimSpace(t.refresh), kind))
  }

  method ReadToken(reply: Reply) returns (r: Result<Token, string>)
    ensures r == Accept(reply)
  {
    if reply.Unreachable? {
      return Err(reply.error);
    }
    if reply.status >= 400 {
      return Err("status");
    }
    if reply.body.None? {
      return Err("decode");
    }
    var tok := reply.body.value;
    tok := tok.(access := TrimSpace(tok.access));
    tok := tok.(refresh := TrimSpace(tok.refresh));
    tok := tok.(kind := TrimSpace(tok.kind));
    if tok.access == "" {
      return Err("missing access_token");
    }
    if tok.kind != "" && !EqualFold(tok.kind, "Bearer") {
      return Err("unsupported token_type");
    }
    r := Ok(tok);
  }

  // ---------------------------------------------------------------- the two calls

  /** Everything a call depends on besides the session: the configuration at that moment and what
      WHMCS answers. */
  datatype World = World(cfg: Config, reply: Reply, userInfo: Result<UserInfo, string>, api: Option<Api>)

  /** The authorize callback: the PKCE verifier and state the host kept, and the state it received. */
  datatype Callback = Callback(verifier: string, expectedState: string, state: string)

  predicate Configured(cfg: Config) { cfg.serverUrl != "" && cfg.clientId != "" && cfg.clientSecret != "" }

  function Finish(w: World, refreshToken: string): Result<Response, Status> {
    match w.userInfo
    case Err(e) => Err(Internal("userinfo: " + e))
    case Ok(ui) => Login(w.cfg, ui, refreshToken, w.api)
  }

  function Exchange(cb: Callback, w: World): Result<Response, Status> {
    if !Configured(w.cfg) then Err(FailedPrecondition)
    else if cb.verifier == "" then Err(InvalidArgument)
    else if cb.expectedState == "" then Err(Unauthenticated("missing state"))
    else if cb.state != cb.expectedState then Err(Unauthenticated("state mismatch"))
    else match Accept(w.reply)
         case Err(e) => Err(Internal("token exchange: " + e))
         case Ok(tok) => Finish(w, tok.refresh)
  }

  /** The refresh token in the claims the host kept. */
  function TokenIn(claims: Claims): string {
    if REFRESH_TOKEN in claims && claims[REFRESH_TOKEN].Text? then claims[REFRESH_TOKEN].text else ""
  }

  function Refresh(claims: Claims, w: World): Result<Response, Status> {
    var current := TrimSpace(TokenIn(claims));
    if !Configured(w.cfg) then Err(FailedPrecondition)
    else if current == "" then Err(Unimplemented)
    else match Accept(w.reply)
         case Err(e) => Err(Unauthenticated("refresh token: " + e))
         case Ok(tok) => Finish(w, if tok.refresh == "" then current else tok.refresh)
  }

  method ExchangeCode(cb: Callback, w: World) returns (r: Result<Response, Status>)
    ensures r == Exchange(cb, w)
    ensures r.Ok? ==> w.userInfo.Ok? && IsIdentityOf(r.value, w.userInfo.value)
  {
    if w.cfg.serverUrl == "" || w.cfg.clientId == "" || w.cfg.clientSecret == "" {
      return Err(FailedPrecondition);
    }
    if cb.verifier == "" {
      return Err(InvalidArgument);
    }
    if cb.expectedState == "" {
      return Err(Unauthenticated("missing state"));
    }
    if cb.state != cb.expectedState {
      return Err(Unauthenticated("state mismatch"));
    }
    var tok := ReadToken(w.reply);
    if tok.Err? {
      return Err(Internal("token exchange: " + tok.error));
    }
    if w.userInfo.Err? {
      return Err(Internal("userinfo: " + w.userInfo.error));
    }
    r := BuildResponse(w.cfg, w.userInfo.value, tok.value.refresh, w.api);
  }

  method RefreshSession(claims: Claims, w: World) returns (r: Result<Response, Status>)
    ensures r == Refresh(claims, w)
    ensures r.Ok? ==> w.userInfo.Ok? && IsIdentityOf(r.value, w.userInfo.value)
  {
    if w.cfg.serverUrl == "" || w.cfg.clientId == "" || w.cfg.clientSecret == "" {
      return Err(FailedPrecondition);
    }
    var refreshToken := "";
    if REFRESH_TOKEN in claims && claims[REFRESH_TOKEN].Text? {
      refreshToken := claims[REFRESH_TOKEN].text;
    }
    refreshToken := TrimSpace(refreshToken);
    if refreshToken == "" {
      return Err(Unimplemented);
    }
    var tok := ReadToken(w.reply);
    if tok.Err? {
      return Err(Unauthenticated("refresh token: " + tok.error));
    }
    var nextRefresh := tok.value.refresh;
    if nextRefresh == "" {
      nextRefresh := refreshToken;
    }
    if w.userInfo.Err? {
      return Err(Internal("userinfo: " + w.userInfo.error));
    }
    r := BuildResponse(w.cfg, w.userInfo.value, nextRefresh, w.api);
  }

  // -------------------------------------------------------------------- sessions

  /** The latest successful response of a session: the host keeps its claims for the next refresh,
      and a failed refresh leaves them. None when the exchange failed. */
  function Latest(cb: Callback, first: World, later: seq<World>): Option<Response> {
    if later == [] then
      match Exchange(cb, first)
      case Ok(r) => Some(r)
      case Err(_) => None
    else
      var before := Latest(cb, first, later[..|later| - 1]);
      if before.None? then None
      else match Refresh(before.value.claims, later[|later| - 1])
           case Ok(r) => Some(r)
           case Err(_) => before
  }

  /** The refresh token WHMCS issues in a call, trimmed; "" for none. */
  function IssuedIn(w: World): string {
    if w.reply.Answered? && w.reply.body.Some? then TrimSpace(w.reply.body.value.refresh) else ""
  }

  /** A call that can succeed, whatever token is carried. */
  predicate Succeeds(w: World) {
    && Configured(w.cfg) && Accept(w.reply).Ok? && w.userInfo.Ok?
    && Login(w.cfg, w.userInfo.value, "", w.api).Ok?
  }

  /** The last non-empty token issued in a successful call. */
  function LastIssued(first: World, later: seq<World>): string {
    if later == [] then IssuedIn(first)
    else
      var w := later[|later| - 1];
      if Succeeds(w) && IssuedIn(w) != "" then IssuedIn(w) else LastIssued(first, later[..|later| - 1])
  }

  predicate SameButToken(a: Claims, b: Claims) { a - {REFRESH_TOKEN} == b - {REFRESH_TOKEN} }

  lemma AddIfKeeps(a: Claims, b: Claims, present: bool, name: string, claim: Claim)
    requires SameButToken(a, b) && name != REFRESH_TOKEN
    ensures SameButToken(AddIf(a, present, name, claim), AddIf(b, present, name, claim))
    ensures TokenIn(AddIf(a, present, name, claim)) == TokenIn(a)
  {
    if present {
      assert a[name := claim] - {REFRESH_TOKEN} == (a - {REFRESH_TOKEN})[name := claim];
      assert b[name := claim] - {REFRESH_TOKEN} == (b - {REFRESH_TOKEN})[name := claim];
    }
  }

  lemma BaseClaimsKeep(cfg: Config, ui: UserInfo, token: string)
    ensures SameButToken(BaseClaims(cfg, ui, token), BaseClaims(cfg, ui, ""))
    ensures TokenIn(BaseClaims(cfg, ui, token)) == TrimSpace(token)
  {
    var start: Claims := map[RAW_USERINFO := Info(ui)];
    var t := TrimSpace(token);
    assert REFRESH_TOKEN !in start;
    assert start[REFRESH_TOKEN := Entitlement.Text(t)] - {REFRESH_TOKEN} == start - {REFRESH_TOKEN};
    var a := AddIf(start, t != "", REFRESH_TOKEN, Entitlement.Text(t));
    AddIfKeeps(a, start, cfg.linkByEmail, LINK_BY_EMAIL, Flag(true));
  }

  lemma AddClaimsKeep(cfg: Config, a: Claims, b: Claims, owned: seq<string>, discord: string)
    requires SameButToken(a, b)
    ensures SameButToken(AddClaims(cfg, a, owned, discord), AddClaims(cfg, b, owned, discord))
    ensures TokenIn(AddClaims(cfg, a, owned, discord)) == TokenIn(a)
  {
    var (a1, b1) := (AddIf(a, Gated(cfg), PRODUCTS, List(owned)), AddIf(b, Gated(cfg), PRODUCTS, List(owned)));
    AddIfKeeps(a, b, Gated(cfg), PRODUCTS, List(owned));
    AddIfKeeps(a1, b1, discord != "", DISCORD_ID, Entitlement.Text(discord));
    var (a2, b2) := (AddIf(a1, discord != "", DISCORD_ID, Entitlement.Text(discord)),
                     AddIf(b1, discord != "", DISCORD_ID, Entitlement.Text(discord)));
    AddIfKeeps(a2, b2, owned != [], SILO_ROLE, Entitlement.Text(Role(owned, Items(cfg.roleMapping))));
  }

  /** A refresh token in hand changes nothing about a login but the claim that carries it. */
  lemma TokenOnlyAddsItsClaim(cfg: Config, ui: UserInfo, token: string, api: Option<Api>)
    ensures var (with, without) := (Login(cfg, ui, token, api), Login(cfg, ui, "", api));
            && (with.Ok? <==> without.Ok?) && (with.Err? ==> with == without)
            && (with.Ok? ==> SameButToken(with.value.claims, without.value.claims)
                             && TokenIn(with.value.claims) == TrimSpace(token))
  {
    BaseClaimsKeep(cfg, ui, token);
    if api.Some? && LoginClient(ui, api.value).Ok? {
      var id := LoginClient(ui, api.value).value;
      var gate := if Gated(cfg) then Gate(cfg, api.value.products(id)) else Ok([]);
      if gate.Ok? {
        AddClaimsKeep(cfg, BaseClaims(cfg, ui, token), BaseClaims(cfg, ui, ""), gate.value,
                      DiscordId(cfg, api.value.details(id)));
      }
    }
  }

  /** A refresh with a token in hand is a login with WHMCS's new answers: it succeeds exactly when
      the call can, and its claims are the login's but for the refresh token. */
  lemma RefreshIsALogin(claims: Claims, w: World)
    requires TrimSpace(TokenIn(claims)) != ""
    ensures Refresh(claims, w).Ok? <==> Succeeds(w)
    ensures Succeeds(w) ==>
              && SameButToken(Refresh(claims, w).value.claims, Login(w.cfg, w.userInfo.value, "", w.api).value.claims)
              && TokenIn(Refresh(claims, w).value.claims)
                 == if IssuedIn(w) != "" then IssuedIn(w) else TrimSpace(TokenIn(claims))
  {
    var tok := Accept(w.reply);
    if Configured(w.cfg) && tok.Ok? && w.userInfo.Ok? {
      var current := TrimSpace(TokenIn(claims));
      TrimSpaceIsTight(TokenIn(claims));
      TrimSpaceIsTight(w.reply.body.value.refresh);
      var next := if tok.value.refresh == "" then current else tok.value.refresh;
      TokenOnlyAddsItsClaim(w.cfg, w.userInfo.value, next, w.api);
    }
  }

  lemma ExchangeCarriesTheToken(cb: Callback, w: World)
    requires Exchange(cb, w).Ok?
    ensures TokenIn(Exchange(cb, w).value.claims) == IssuedIn(w)
  {
    TrimSpaceIsTight(w.reply.body.value.refresh);
    TokenOnlyAddsItsClaim(w.cfg, w.userInfo.value, Accept(w.reply).value.refresh, w.api);
  }

  /** The refresh token of a session is the last one WHMCS issued in a successful call, trimmed;
      a session whose exchange brought none never has one. */
  lemma {:induction false} SessionHoldsTheLastToken(cb: Callback, first: World, later: seq<World>)
    requires Latest(cb, first, later).Some?
    ensures TokenIn(Latest(cb, first, later).value.claims)
         == if IssuedIn(first) == "" then "" else LastIssued(first, later)
    decreases |later|
  {
    if later == [] {
      ExchangeCarriesTheToken(cb, first);
    } else {
      var front, w := later[..|later| - 1], later[|later| - 1];
      SessionHoldsTheLastToken(cb, first, front);
      var claims := Latest(cb, first, front).value.claims;
      LastIssuedIsTight(first, front);
      if IssuedIn(first) != "" { RefreshIsALogin(claims, w); }
    }
  }

  lemma {:induction false} LastIssuedIsTight(first: World, later: seq<World>)
    ensures TrimSpace(LastIssued(first, later)) == LastIssued(first, later)
    ensures IssuedIn(first) != "" ==> LastIssued(first, later) != ""
    decreases |later|
  {
    var w := if later == [] then first else later[|later| - 1];
    if w.reply.Answered? && w.reply.body.Some? { TrimSpaceIsTight(w.reply.body.value.refresh); }
    if later != [] { LastIssuedIsTight(first, later[..|later| - 1]); }
  }

  /** Once a session has a refresh token it is never without one, whatever fails. */
  lemma TheTokenIsNeverLost(cb: Callback, first: World, later: seq<World>)
    requires Exchange(cb, first).Ok? && IssuedIn(first) != ""
    ensures Latest(cb, first, later).Some? && TokenIn(Latest(cb, first, later).value.claims) != ""
  {
    SessionsGoOn(cb, first, later);
    SessionHoldsTheLastToken(cb, first, later);
    LastIssuedIsTight(first, later);
  }

  lemma {:induction false} SessionsGoOn(cb: Callback, first: World, later: seq<World>)
    requires Exchange(cb, first).Ok?
    ensures Latest(cb, first, later).Some?
    decreases |later|
  {
    if later != [] { SessionsGoOn(cb, first, later[..|later| - 1]); }
  }

  /** A session without a token is refused by every refresh, so that the host logs in again. */
  lemma WithoutATokenLogInAgain(cb: Callback, first: World, later: seq<World>, w: World)
    requires Latest(cb, first, later).Some? && IssuedIn(first) == ""
    ensures Refresh(Latest(cb, first, later).value.claims, w)
         == Err(if Configured(w.cfg) then Unimplemented else FailedPrecondition)
  {
    SessionHoldsTheLastToken(cb, first, later);
  }

  function TheTokenAfter(cb: Callback, first: World, later: seq<World>): string {
    if Latest(cb, first, later).Some? then TokenIn(Latest(cb, first, later).value.claims) else ""
  }

  /** A token that WHMCS rotates in a call that then fails is dropped: the session ends up with the
      token issued last exactly when the call succeeds or issued the token it already had. */
  lemma RotationIsKeptIff(cb: Callback, first: World, later: seq<World>, w: World)
    requires Exchange(cb, first).Ok? && IssuedIn(first) != "" && IssuedIn(w) != ""
    ensures TheTokenAfter(cb, first, later + [w]) == IssuedIn(w)
       <==> Succeeds(w) || IssuedIn(w) == TheTokenAfter(cb, first, later)
  {
    SessionsGoOn(cb, first, later);
    SessionsGoOn(cb, first, later + [w]);
    SessionHoldsTheLastToken(cb, first, later);
    SessionHoldsTheLastToken(cb, first, later + [w]);
    assert (later + [w])[..|later|] == later;
  }

  /** The input that shows it: WHMCS rotates r1 to r2, then userinfo fails, and the session keeps r1. */
  lemma RotationCanBeLost(cb: Callback)
    requires cb == Callback("v", "s", "s")
    ensures var cfg := ZERO.(serverUrl := "u", clientId := "c", clientSecret := "k");
            var first := World(cfg, Answered(200, Some(Token("a", "r1", ""))), Ok(UserInfo("", "", "", "")), None);
            var failing := World(cfg, Answered(200, Some(Token("b", "r2", ""))), Err("down"), None);
            && IssuedIn(failing) == "r2"
            && TheTokenAfter(cb, first, []) == TheTokenAfter(cb, first, [failing]) == "r1"
  {
    var cfg := ZERO.(serverUrl := "u", clientId := "c", clientSecret := "k");
    var first := World(cfg, Answered(200, Some(Token("a", "r1", ""))), Ok(UserInfo("", "", "", "")), None);
    var failing := World(cfg, Answered(200, Some(Token("b", "r2", ""))), Err("down"), None);
    assert TrimSpace("a") == "a" && TrimSpace("b") == "b" && TrimSpace("") == "";
    assert TrimSpace("r1") == "r1" && TrimSpace("r2") == "r2";
    assert Exchange(cb, first).Ok?;
    ExchangeCarriesTheToken(cb, first);
    assert [failing][..0] == [];
  }

  // ----------------------------------------------- what the calls demand, clause by clause

  /** A token reply is accepted below status 400, when it carries an access token and is a bearer
      token or does not say. All three texts come back without padding. */
  lemma AcceptIff(reply: Reply)
    ensures Accept(reply).Ok? <==>
              && reply.Answered? && reply.status < 400 && reply.body.Some?
              && TrimSpace(reply.body.value.access) != "" && IsBearer(TrimSpace(reply.body.value.kind))
    ensures Accept(reply).Ok? ==>
              && Accept(reply).value.access == TrimSpace(reply.body.value.access)
              && Accept(reply).value.refresh == TrimSpace(reply.body.value.refresh)
  {
    if reply.Answered? && reply.body.Some? { EqualFoldIff(TrimSpace(reply.body.value.kind), "Bearer"); }
  }

  /** Nothing, or "Bearer" in any case. */
  predicate IsBearer(kind: string) {
    kind == "" || (|kind| == 6 && forall i :: 0 <= i < 6 ==> SameLetter(kind[i], "Bearer"[i]))
  }

  /** A code exchange succeeds exactly when the plugin is configured, the callback carries the verifier
      and the state it was started with, WHMCS accepts the code, userinfo arrives, and the login of
      that user succeeds. */
  lemma ExchangeIff(cb: Callback, w: World)
    ensures Exchange(cb, w).Ok? <==>
              && w.cfg.serverUrl != "" && w.cfg.clientId != "" && w.cfg.clientSecret != ""
              && cb.verifier != "" && cb.expectedState != "" && cb.state == cb.expectedState
              && Accept(w.reply).Ok? && w.userInfo.Ok?
              && Login(w.cfg, w.userInfo.value, "", w.api).Ok?
    ensures Exchange(cb, w).Ok? ==> IsIdentityOf(Exchange(cb, w).value, w.userInfo.value)
  {
    if Accept(w.reply).Ok? && w.userInfo.Ok? {
      TokenOnlyAddsItsClaim(w.cfg, w.userInfo.value, Accept(w.reply).value.refresh, w.api);
      LoginIff(w.cfg, w.userInfo.value, Accept(w.reply).value.refresh, w.api);
    }
  }

  /** The refusals of a callback, whatever WHMCS would answer: in this order, and nothing else is
      asked before them. */
  lemma CallbackRefused(cb: Callback, w: World)
    ensures w.cfg.serverUrl == "" || w.cfg.clientId == "" || w.cfg.clientSecret == "" ==>
              Exchange(cb, w) == Err(FailedPrecondition)
    ensures Configured(w.cfg) && cb.verifier == "" ==> Exchange(cb, w) == Err(InvalidArgument)
    ensures Configured(w.cfg) && cb.verifier != "" && cb.expectedState == "" ==>
              Exchange(cb, w) == Err(Unauthenticated("missing state"))
    ensures Configured(w.cfg) && cb.verifier != "" && cb.expectedState != "" && cb.state != cb.expectedState ==>
              Exchange(cb, w) == Err(Unauthenticated("state mismatch"))
  {}

  /** After those, each failure has its own status. */
  lemma CallFailures(cb: Callback, claims: Claims, w: World)
    requires Configured(w.cfg)
    ensures cb.verifier != "" && cb.expectedState == cb.state != "" ==>
              && (Accept(w.reply).Err? ==> Exchange(cb, w).Err? && Exchange(cb, w).error.Internal?)
              && (Accept(w.reply).Ok? && w.userInfo.Err? ==>
                    Exchange(cb, w) == Err(Internal("userinfo: " + w.userInfo.error)))
    ensures TrimSpace(TokenIn(claims)) == "" ==> Refresh(claims, w) == Err(Unimplemented)
    ensures TrimSpace(TokenIn(claims)) != "" ==>
              && (Accept(w.reply).Err? ==> Refresh(claims, w).Err? && Refresh(claims, w).error.Unauthenticated?)
              && (Accept(w.reply).Ok? && w.userInfo.Err? ==>
                    Refresh(claims, w) == Err(Internal("userinfo: " + w.userInfo.error)))
  {}

  /** The latest response of a session names the user that WHMCS named in one of its calls. */
  lemma {:induction false} LatestIdentity(cb: Callback, first: World, later: seq<World>) returns (w: World)
    requires Latest(cb, first, later).Some?
    ensures (w == first || w in later) && w.userInfo.Ok?
    ensures IsIdentityOf(Latest(cb, first, later).value, w.userInfo.value)
    decreases |later|
  {
    if later == [] {
      w := first;
      ExchangeIff(cb, first);
    } else {
      var front, last := later[..|later| - 1], later[|later| - 1];
      var claims := Latest(cb, first, front).value.claims;
      if Refresh(claims, last).Ok? {
        w := last;
        RefreshIdentity(claims, last);
      } else {
        w := LatestIdentity(cb, first, front);
      }
    }
  }

  lemma RefreshIdentity(claims: Claims, w: World)
    requires Refresh(claims, w).Ok?
    ensures w.userInfo.Ok? && IsIdentityOf(Refresh(claims, w).value, w.userInfo.value)
  {
    var tok, current := Accept(w.reply).value, TrimSpace(TokenIn(claims));
    LoginIff(w.cfg, w.userInfo.value, if tok.refresh == "" then current else tok.refresh, w.api);
  }
}
