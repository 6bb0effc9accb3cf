/** What a login decision rests on: the resolver's answers, in any interleaving of its lookups. */
module Decisions {
  import opened Basics
  import opened Whmcs
  import opened Settings
  import opened LookupTrace
  import Resolver
  import Entitlement

  /** What the two lookups return to the login. */
  function ClientOutcome(r: Result<Option<Client>, string>): Outcome {
    match r
    case Ok(c) => Ok(ClientReply(c))
    case Err(e) => Err(e)
  }

  function ProductsOutcome(r: Result<seq<ClientProduct>, string>): Outcome {
    match r
    case Ok(ps) => Ok(ProductsReply(ps))
    case Err(e) => Err(e)
  }

  /** Lookup `c` of the run was for the key and has returned the outcome. */
  predicate Looked(s: Resolver.State, c: nat, key: Key, o: Outcome) {
    c < |s.callers| && s.callers[c].key == key && s.callers[c].pc == Resolver.Done(o)
  }

  /** The answer is what WHMCS said to a call of a flight that the lookup entered before it closed. */
  ghost predicate Live(ttl: int, h: History, n: nat, ground: Ground)
    requires n < |h| && h[n].Returned?
  {
    Grounds(ttl, h, n, ground) && ground.FromCall? && h[n].outcome == Published(h[n].key, h[ground.back].raw)
  }

  /** The answer is "nothing": live, and then WHMCS said so itself, or from a negative that was at
      most the lifetime old. */
  ghost predicate NothingThere(ttl: int, h: History, n: nat, ground: Ground)
    requires n < |h| && h[n].Returned?
  {
    && Grounds(ttl, h, n, ground) && h[n].outcome == Ok(Nothing(h[n].key))
    && (ground.FromCall? ==> h[ground.back].raw.Ok? && IsNegative(h[ground.back].raw.value))
  }

  lemma GroundedLookup(ttl: int, start: int, ops: seq<Resolver.Op>, c: nat, key: Key, o: Outcome)
    returns (n: nat, ground: Ground)
    requires Resolver.CanRun(ttl, Resolver.Init(start), ops)
    requires Looked(Resolver.Run(ttl, Resolver.Init(start), ops), c, key, o)
    ensures var h := Resolver.Run(ttl, Resolver.Init(start), ops).history;
            n < |h| && h[n] == Returned(c, key, o) && Grounds(ttl, h, n, ground)
  {
    n, ground := Resolver.RunsAreGrounded(ttl, start, ops, c);
  }

  /** A positive answer is live, and a negative one is nothing that is there. */
  lemma AnswerIsGrounded(ttl: int, h: History, n: nat, ground: Ground)
    requires n < |h| && h[n].Returned? && Grounds(ttl, h, n, ground)
    ensures h[n].outcome != Ok(Nothing(h[n].key)) ==> Live(ttl, h, n, ground) && h[ground.back].raw == h[n].outcome
    ensures h[n].outcome == Ok(Nothing(h[n].key)) ==> NothingThere(ttl, h, n, ground)
  {}

  /** No lookup returns a client without an id. */
  lemma NamelessIsNothing(ttl: int, h: History, n: nat, ground: Ground)
    requires n < |h| && h[n].Returned? && Grounds(ttl, h, n, ground) && h[n].key.ByEmail?
    requires h[n].outcome.Ok? && IsNegative(h[n].outcome.value) && h[n].outcome.value.ClientReply?
    ensures h[n].outcome == Ok(Nothing(h[n].key))
  {}

  const NO_CLIENT := Entitlement.PermissionDenied("no client for this email")
  const NO_PRODUCT := Entitlement.PermissionDenied("no allowed active product")

  /** A login that is denied for want of a client rests on WHMCS having no client for the email: as
      a call of a flight that the login's lookup entered said, or as a negative at most the lifetime
      old says. */
  lemma NoClientIsGrounded(ttl: int, start: int, ops: seq<Resolver.Op>, c: nat,
                           cfg: Config, ui: Entitlement.UserInfo, token: string, api: Entitlement.Api)
    returns (n: nat, ground: Ground)
    requires Resolver.CanRun(ttl, Resolver.Init(start), ops)
    requires Looked(Resolver.Run(ttl, Resolver.Init(start), ops), c, ByEmail(ui.email),
                    ClientOutcome(api.byEmail(ui.email)))
    requires Entitlement.Login(cfg, ui, token, Some(api)) == Err(NO_CLIENT)
    ensures var h := Resolver.Run(ttl, Resolver.Init(start), ops).history;
            && n < |h| && h[n] == Returned(c, ByEmail(ui.email), ClientOutcome(api.byEmail(ui.email)))
            && NothingThere(ttl, h, n, ground)
  {
    n, ground := GroundedLookup(ttl, start, ops, c, ByEmail(ui.email), ClientOutcome(api.byEmail(ui.email)));
    var h := Resolver.Run(ttl, Resolver.Init(start), ops).history;
    assert Entitlement.LoginClient(ui, api) == Err(NO_CLIENT);
    assert h[n].outcome.Ok? && IsNegative(h[n].outcome.value);
    NamelessIsNothing(ttl, h, n, ground);
    AnswerIsGrounded(ttl, h, n, ground);
  }

  /** A login that the product gate denies rests on a live list without an allowed active product,
      or on the client having no products at all, which may be a negative at most the lifetime old. */
  lemma NoProductIsGrounded(ttl: int, start: int, ops: seq<Resolver.Op>, c: nat, id: string,
                            cfg: Config, ui: Entitlement.UserInfo, token: string, api: Entitlement.Api)
    returns (n: nat, ground: Ground)
    requires Resolver.CanRun(ttl, Resolver.Init(start), ops)
    requires Entitlement.LoginClient(ui, api) == Ok(id)
    requires Looked(Resolver.Run(ttl, Resolver.Init(start), ops), c, ProductsOf(id), ProductsOutcome(api.products(id)))
    requires Entitlement.Login(cfg, ui, token, Some(api)) == Err(NO_PRODUCT)
    ensures var h := Resolver.Run(ttl, Resolver.Init(start), ops).history;
            && n < |h| && h[n] == Returned(c, ProductsOf(id), ProductsOutcome(api.products(id)))
            && api.products(id).Ok?
            && !Entitlement.Intersects(Items(cfg.allowed), Entitlement.ActiveIds(api.products(id).value))
            && (if api.products(id).value == [] then NothingThere(ttl, h, n, ground) else Live(ttl, h, n, ground))
  {
    n, ground := GroundedLookup(ttl, start, ops, c, ProductsOf(id), ProductsOutcome(api.products(id)));
    AnswerIsGrounded(ttl, Resolver.Run(ttl, Resolver.Init(start), ops).history, n, ground);
  }

  /** Access is live: a login that passes an allow-list, or claims a role, rests on products that
      WHMCS listed in a call of a flight the login's lookup entered before it closed; no cached
      answer grants anything. */
  lemma AccessIsLive(ttl: int, start: int, ops: seq<Resolver.Op>, c: nat, id: string,
                     cfg: Config, ui: Entitlement.UserInfo, token: string, api: Entitlement.Api)
    returns (n: nat, ground: Ground)
    requires Resolver.CanRun(ttl, Resolver.Init(start), ops)
    requires Entitlement.LoginClient(ui, api) == Ok(id)
    requires Looked(Resolver.Run(ttl, Resolver.Init(start), ops), c, ProductsOf(id), ProductsOutcome(api.products(id)))
    requires var login := Entitlement.Login(cfg, ui, token, Some(api));
             login.Ok? && (Items(cfg.allowed) != [] || Entitlement.SILO_ROLE in login.value.claims)
    ensures var h := Resolver.Run(ttl, Resolver.Init(start), ops).history;
            && n < |h| && h[n] == Returned(c, ProductsOf(id), ProductsOutcome(api.products(id)))
            && api.products(id).Ok? && Entitlement.ActiveIds(api.products(id).value) != []
            && Live(ttl, h, n, ground) && h[ground.back].raw == Ok(ProductsReply(api.products(id).value))
  {
    n, ground := GroundedLookup(ttl, start, ops, c, ProductsOf(id), ProductsOutcome(api.products(id)));
    OwnsSomething(cfg, ui, token, api, id);
    AnswerIsGrounded(ttl, Resolver.Run(ttl, Resolver.Init(start), ops).history, n, ground);
  }

  lemma OwnsSomething(cfg: Config, ui: Entitlement.UserInfo, token: string, api: Entitlement.Api, id: string)
    requires Entitlement.LoginClient(ui, api) == Ok(id)
    requires var login := Entitlement.Login(cfg, ui, token, Some(api));
             login.Ok? && (Items(cfg.allowed) != [] || Entitlement.SILO_ROLE in login.value.claims)
    ensures api.products(id).Ok? && Entitlement.ActiveIds(api.products(id).value) != []
  {
    if Entitlement.Gated(cfg) {
      var owned := Entitlement.Gate(cfg, api.products(id)).value;
      Entitlement.ClaimsByName(cfg, ui, token, owned, Entitlement.DiscordId(cfg, api.details(id)));
    } else {
      var discord := if cfg.fetchDiscordId then Entitlement.DiscordId(cfg, api.details(id)) else "";
      Entitlement.ClaimsByName(cfg, ui, token, [], discord);
    }
  }
}
