/** The login decision (buildResponse) and the simulator an administrator previews it with: two
    evaluations of the same rules, written separately, and what makes them agree. */
module Entitlement {
  import opened Basics
  import opened Text
  import opened Whmcs
  import opened Settings

  // ---------------------------------------------------------- shared helpers

  predicate IsActive(p: ClientProduct) {
    p.status.None? || EqualFold(TrimSpace(p.status.value), "Active")
  }

  /** The ids, as text, of the active products, in order. */
  function ActiveIds(prods: seq<ClientProduct>): (ids: seq<string>)
    ensures forall id :: id in ids <==> exists i :: 0 <= i < |prods| && IsActive(prods[i]) && id == Itoa(prods[i].pid)
  {
    if prods == [] then []
    else
      var front, last := prods[..|prods| - 1], prods[|prods| - 1];
      assert forall i :: 0 <= i < |front| ==> front[i] == prods[i];
      ActiveIds(front) + if IsActive(last) then [Itoa(last.pid)] else []
  }

  method ActiveProductIds(prods: seq<ClientProduct>) returns (out: seq<string>)
    ensures out == ActiveIds(prods)
  {
    out := [];
    for i := 0 to |prods|
      invariant out == ActiveIds(prods[..i])
    {
      assert prods[..i + 1][..i] == prods[..i];
      var p := prods[i];
      if p.status.None? || EqualFold(TrimSpace(p.status.value), "Active") {
        out := out + [Itoa(p.pid)];
      }
    }
    assert prods[..|prods|] == prods;
  }

  /** Some wanted id is among those had. */
  predicate Intersects(want: seq<string>, have: seq<string>) {
    exists w :: w in want && w in have
  }

  method AnyMatch(want: seq<string>, have: seq<string>) returns (found: bool)
    ensures found <==> Intersects(want, have)
  {
    for i := 0 to |want|
      invariant forall k :: 0 <= k < i ==> want[k] !in have
    {
      for j := 0 to |have|
        invariant forall k :: 0 <= k < j ==> have[k] != want[i]
      {
        if want[i] == have[j] {
          assert want[i] in want && want[i] in have;
          return true;
        }
      }
    }
    return false;
  }

  predicate AdminMapped(id: string, mapping: seq<RoleMap>) {
    RoleMap(id, "admin") in mapping
  }

  /** "admin" if some product is mapped to admin, else "user". */
  function Role(products: seq<string>, mapping: seq<RoleMap>): string {
    if exists p :: p in products && AdminMapped(p, mapping) then "admin" else "user"
  }

  method RoleFromProducts(products: seq<string>, mapping: seq<RoleMap>) returns (role: string)
    ensures role == Role(products, mapping)
  {
    for i := 0 to |mapping|
      invariant forall k :: 0 <= k < i && mapping[k].role == "admin" ==> mapping[k].productId !in products
    {
      if mapping[i].role == "admin" {
        for j := 0 to |products|
          invariant forall k :: 0 <= k < j ==> products[k] != mapping[i].productId
        {
          if products[j] == mapping[i].productId {
            assert mapping[i] == RoleMap(products[j], "admin");
            assert products[j] in products && AdminMapped(products[j], mapping);
            return "admin";
          }
        }
      }
    }
    return "user";
  }

  // ---------------------------------------------------------------- the login

  /** The admin API's answers, as functions of what is asked. */
  datatype Api = Api(
    byEmail: string -> Result<Option<Client>, string>,
    products: string -> Result<seq<ClientProduct>, string>,
    details: string -> Result<ClientDetails, string>)

  datatype UserInfo = UserInfo(sub: string, id: string, email: string, name: string)

  datatype Claim = Text(text: string) | Flag(on: bool) | List(items: seq<string>) | Info(info: UserInfo)

  type Claims = map<string, Claim>

  const RAW_USERINFO := "raw_userinfo"
  const REFRESH_TOKEN := "whmcs_refresh_token"
  const LINK_BY_EMAIL := "silo_link_by_email"
  const PRODUCTS := "products"
  const DISCORD_ID := "discord_id"
  const SILO_ROLE := "silo_role"

  datatype Response = Response(subject: string, displayName: string, email: string, claims: Claims)

  datatype Status =
    | FailedPrecondition
    | InvalidArgument
    | Unauthenticated(cause: string)
    | Unimplemented
    | PermissionDenied(reason: string)
    | Internal(detail: string)

  predicate Gated(cfg: Config) { Items(cfg.allowed) != [] || Items(cfg.roleMapping) != [] }

  /** The client a login is about: the id from userinfo, else the client with its email. */
  function LoginClient(ui: UserInfo, api: Api): Result<string, Status> {
    if ui.id != "" then Ok(ui.id)
    else if ui.email == "" then Err(PermissionDenied("neither client id nor email"))
    else match api.byEmail(ui.email)
         case Err(e) => Err(Internal("fetch client by email: " + e))
         case Ok(c) =>
           if c.None? || c.value.id == "" then Err(PermissionDenied("no client for this email")) else Ok(c.value.id)
  }

  function CustomField(cd: ClientDetails, name: string): string {
    if name in cd.customFields then cd.customFields[name] else ""
  }

  function AddIf(claims: Claims, present: bool, name: string, claim: Claim): Claims {
    if present then claims[name := claim] else claims
  }

  function BaseClaims(cfg: Config, ui: UserInfo, refreshToken: string): Claims {
    var token := TrimSpace(refreshToken);
    AddIf(AddIf(map[RAW_USERINFO := Info(ui)], token != "", REFRESH_TOKEN, Text(token)),
          cfg.linkByEmail, LINK_BY_EMAIL, Flag(true))
  }

  /** The Discord id to claim; "" for none. A failed lookup is not an error. */
  function DiscordId(cfg: Config, details: Result<ClientDetails, string>): string {
    if cfg.fetchDiscordId && details.Ok? then CustomField(details.value, cfg.discordField) else ""
  }

  /** The active products of the client that the gate admits, or why it does not. */
  function Gate(cfg: Config, prods: Result<seq<ClientProduct>, string>): Result<seq<string>, Status> {
    match prods
    case Err(e) => Err(Internal("fetch client products: " + e))
    case Ok(list) =>
      if Items(cfg.allowed) != [] && !Intersects(Items(cfg.allowed), ActiveIds(list))
      then Err(PermissionDenied("no allowed active product"))
      else Ok(ActiveIds(list))
  }

  /** The claims that come from the admin API, on top of those that do not. */
  function AddClaims(cfg: Config, base: Claims, owned: seq<string>, discord: string): Claims {
    AddIf(AddIf(AddIf(base, Gated(cfg), PRODUCTS, List(owned)), discord != "", DISCORD_ID, Text(discord)),
          owned != [], SILO_ROLE, Text(Role(owned, Items(cfg.roleMapping))))
  }

  function Login(cfg: Config, ui: UserInfo, refreshToken: string, api: Option<Api>): Result<Response, Status> {
    var base := BaseClaims(cfg, ui, refreshToken);
    if !Gated(cfg) && !cfg.fetchDiscordId then Ok(Response(ui.sub, ui.name, ui.email, base))
    else if api.None? then Err(FailedPrecondition)
    else match LoginClient(ui, api.value)
         case Err(e) => Err(e)
         case Ok(id) =>
           match (if Gated(cfg) then Gate(cfg, api.value.products(id)) else Ok([]))
           case Err(e) => Err(e)
           case Ok(owned) =>
             var discord := DiscordId(cfg, api.value.details(id));
             Ok(Response(ui.sub, ui.name, ui.email, AddClaims(cfg, base, owned, discord)))
  }

  /** What the claims hold under each of the names, and that there are no others. */
  lemma ClaimsByName(cfg: Config, ui: UserInfo, refreshToken: string, owned: seq<string>, discord: string)
    ensures var claims := AddClaims(cfg, BaseClaims(cfg, ui, refreshToken), owned, discord);
            && RAW_USERINFO in claims && claims[RAW_USERINFO] == Info(ui)
            && (LINK_BY_EMAIL in claims <==> cfg.linkByEmail)
            && (cfg.linkByEmail ==> claims[LINK_BY_EMAIL] == Flag(true))
            && (PRODUCTS in claims <==> Gated(cfg)) && (Gated(cfg) ==> claims[PRODUCTS] == List(owned))
            && (SILO_ROLE in claims <==> owned != [])
            && (owned != [] ==> claims[SILO_ROLE] == Text(Role(owned, Items(cfg.roleMapping))))
            && (DISCORD_ID in claims <==> discord != "") && (discord != "" ==> claims[DISCORD_ID] == Text(discord))
            && (REFRESH_TOKEN in claims <==> TrimSpace(refreshToken) != "")
            && (REFRESH_TOKEN in claims ==> claims[REFRESH_TOKEN] == Text(TrimSpace(refreshToken)))
            && claims.Keys <= {RAW_USERINFO, LINK_BY_EMAIL, PRODUCTS, SILO_ROLE, DISCORD_ID, REFRESH_TOKEN}
  {}

  // ------------------------------------------------- what a login says, clause by clause

  /** The response is about the user that WHMCS named. */
  predicate IsIdentityOf(r: Response, ui: UserInfo) {
    r.subject == ui.sub && r.displayName == ui.name && r.email == ui.email
  }

  /** A product without a status, or whose status is "Active" in any case and with any padding. */
  lemma ActiveIff(p: ClientProduct)
    ensures IsActive(p) <==>
              || p.status.None?
              || (&& |TrimSpace(p.status.value)| == 6
                  && forall i :: 0 <= i < 6 ==> SameLetter(TrimSpace(p.status.value)[i], "Active"[i]))
  {
    if p.status.Some? { EqualFoldIff(TrimSpace(p.status.value), "Active"); }
  }

  /** The configuration needs the admin API. */
  predicate NeedsLookup(cfg: Config) {
    Items(cfg.allowed) != [] || Items(cfg.roleMapping) != [] || cfg.fetchDiscordId
  }

  predicate LooksUpProducts(cfg: Config) { Items(cfg.allowed) != [] || Items(cfg.roleMapping) != [] }

  /** The client of a login: the id that userinfo carries, else the client with its email. */
  predicate IsClientOf(ui: UserInfo, api: Api, id: string) {
    if ui.id != "" then id == ui.id
    else ui.email != "" && api.byEmail(ui.email).Ok? && api.byEmail(ui.email).value.Some?
         && api.byEmail(ui.email).value.value.id == id != ""
  }

  /** The client owns an active product of the list. */
  predicate OwnsOneOf(prods: seq<ClientProduct>, allowed: seq<string>) {
    exists i :: 0 <= i < |prods| && IsActive(prods[i]) && Itoa(prods[i].pid) in allowed
  }

  predicate Admits(cfg: Config, api: Api, id: string) {
    LooksUpProducts(cfg) ==>
      api.products(id).Ok? && (Items(cfg.allowed) != [] ==> OwnsOneOf(api.products(id).value, Items(cfg.allowed)))
  }

  lemma OwnsIff(prods: seq<ClientProduct>, allowed: seq<string>)
    ensures Intersects(allowed, ActiveIds(prods)) <==> OwnsOneOf(prods, allowed)
  {
    if OwnsOneOf(prods, allowed) {
      var i :| 0 <= i < |prods| && IsActive(prods[i]) && Itoa(prods[i].pid) in allowed;
      assert Itoa(prods[i].pid) in ActiveIds(prods);
    }
  }

  lemma ClientIff(ui: UserInfo, api: Api, id: string)
    ensures LoginClient(ui, api) == Ok(id) <==> IsClientOf(ui, api, id)
  {}

  /** A login succeeds exactly when it needs no lookup, or there is an API, the user is a client, and
      the client's products can be listed and pass the allow-list as far as that is configured. It
      then names the user that WHMCS named. */
  lemma LoginIff(cfg: Config, ui: UserInfo, token: string, api: Option<Api>)
    ensures Login(cfg, ui, token, api).Ok? <==>
              || !NeedsLookup(cfg)
              || (api.Some? && exists id :: IsClientOf(ui, api.value, id) && Admits(cfg, api.value, id))
    ensures Login(cfg, ui, token, api).Ok? ==> IsIdentityOf(Login(cfg, ui, token, api).value, ui)
  {
    if api.Some? {
      var client := LoginClient(ui, api.value);
      forall id ensures client == Ok(id) <==> IsClientOf(ui, api.value, id) { ClientIff(ui, api.value, id); }
      if client.Ok? {
        assert IsClientOf(ui, api.value, client.value);
        var prods := api.value.products(client.value);
        if prods.Ok? { OwnsIff(prods.value, Items(cfg.allowed)); }
      }
    }
  }

  /** Why a login is refused. */
  lemma RefusedIff(cfg: Config, ui: UserInfo, token: string, api: Option<Api>)
    ensures var r := Login(cfg, ui, token, api);
            && (r == Err(FailedPrecondition) <==> NeedsLookup(cfg) && api.None?)
            && (r == Err(PermissionDenied("neither client id nor email")) <==>
                  NeedsLookup(cfg) && api.Some? && ui.id == "" && ui.email == "")
            && (r == Err(PermissionDenied("no client for this email")) <==>
                  && NeedsLookup(cfg) && api.Some? && ui.id == "" && ui.email != ""
                  && api.value.byEmail(ui.email).Ok?
                  && (api.value.byEmail(ui.email).value.None? || api.value.byEmail(ui.email).value.value.id == ""))
            && (NeedsLookup(cfg) && api.Some? && ui.id == "" && ui.email != "" && api.value.byEmail(ui.email).Err? ==>
                  r == Err(Internal("fetch client by email: " + api.value.byEmail(ui.email).error)))
  {}

  lemma RefusedProductsIff(cfg: Config, ui: UserInfo, token: string, api: Api, id: string)
    requires IsClientOf(ui, api, id)
    ensures var r := Login(cfg, ui, token, Some(api));
            && (r == Err(PermissionDenied("no allowed active product")) <==>
                  Items(cfg.allowed) != [] && api.products(id).Ok?
                  && !OwnsOneOf(api.products(id).value, Items(cfg.allowed)))
            && (LooksUpProducts(cfg) && api.products(id).Err? ==>
                  r == Err(Internal("fetch client products: " + api.products(id).error)))
  {
    if api.products(id).Ok? { OwnsIff(api.products(id).value, Items(cfg.allowed)); }
    ClientIff(ui, api, id);
  }

  /** The claims that need no lookup. */
  predicate PlainClaims(claims: Claims, cfg: Config, ui: UserInfo, token: string) {
    && "raw_userinfo" in claims && claims["raw_userinfo"] == Info(ui)
    && ("silo_link_by_email" in claims <==> cfg.linkByEmail)
    && ("silo_link_by_email" in claims ==> claims["silo_link_by_email"] == Flag(true))
    && ("whmcs_refresh_token" in claims <==> TrimSpace(token) != "")
    && ("whmcs_refresh_token" in claims ==> claims["whmcs_refresh_token"] == Text(TrimSpace(token)))
  }

  /** Without allow-list, role mapping and Discord ids those are all the claims there are. */
  lemma PlainLogin(cfg: Config, ui: UserInfo, token: string, api: Option<Api>)
    requires !NeedsLookup(cfg)
    ensures Login(cfg, ui, token, api).Ok?
    ensures var claims := Login(cfg, ui, token, api).value.claims;
            && PlainClaims(claims, cfg, ui, token)
            && claims.Keys <= {"raw_userinfo", "silo_link_by_email", "whmcs_refresh_token"}
  {
    ClaimsByName(cfg, ui, token, [], "");
  }

  /** The client owns an active product that the mapping makes an administrator. */
  predicate OwnsAdmin(prods: seq<ClientProduct>, mapping: seq<RoleMap>) {
    exists i, k :: 0 <= i < |prods| && 0 <= k < |mapping| && IsActive(prods[i])
                   && mapping[k] == RoleMap(Itoa(prods[i].pid), "admin")
  }

  lemma RoleIff(prods: seq<ClientProduct>, mapping: seq<RoleMap>)
    ensures Role(ActiveIds(prods), mapping) == if OwnsAdmin(prods, mapping) then "admin" else "user"
  {
    if OwnsAdmin(prods, mapping) {
      var i, k :| 0 <= i < |prods| && 0 <= k < |mapping| && IsActive(prods[i])
                  && mapping[k] == RoleMap(Itoa(prods[i].pid), "admin");
      assert Itoa(prods[i].pid) in ActiveIds(prods) && AdminMapped(Itoa(prods[i].pid), mapping);
    }
    if p :| p in ActiveIds(prods) && AdminMapped(p, mapping) {
      var i :| 0 <= i < |prods| && IsActive(prods[i]) && p == Itoa(prods[i].pid);
      var k :| 0 <= k < |mapping| && mapping[k] == RoleMap(p, "admin");
    }
  }

  /** What a successful login claims, by the names that the host reads. */
  lemma LoginClaims(cfg: Config, ui: UserInfo, token: string, api: Api, id: string)
    requires Login(cfg, ui, token, Some(api)).Ok? && NeedsLookup(cfg) && IsClientOf(ui, api, id)
    ensures var claims := Login(cfg, ui, token, Some(api)).value.claims;
            && PlainClaims(claims, cfg, ui, token)
            && ("discord_id" in claims <==>
                  && cfg.fetchDiscordId && api.details(id).Ok? && cfg.discordField in api.details(id).value.customFields
                  && api.details(id).value.customFields[cfg.discordField] != "")
            && ("discord_id" in claims ==>
                  claims["discord_id"] == Text(api.details(id).value.customFields[cfg.discordField]))
            && claims.Keys <= {"raw_userinfo", "silo_link_by_email", "whmcs_refresh_token", "products", "discord_id",
                               "silo_role"}
  {
    ClientIff(ui, api, id);
    var owned := if Gated(cfg) then Gate(cfg, api.products(id)).value else [];
    ClaimsByName(cfg, ui, token, owned, DiscordId(cfg, api.details(id)));
  }

  lemma LoginProducts(cfg: Config, ui: UserInfo, token: string, api: Api, id: string)
    requires Login(cfg, ui, token, Some(api)).Ok? && NeedsLookup(cfg) && IsClientOf(ui, api, id)
    ensures var claims := Login(cfg, ui, token, Some(api)).value.claims;
            && ("products" in claims <==> LooksUpProducts(cfg))
            && ("products" in claims ==>
                  api.products(id).Ok? && claims["products"] == List(ActiveIds(api.products(id).value)))
            && ("silo_role" in claims <==>
                  && LooksUpProducts(cfg) && api.products(id).Ok?
                  && exists p :: p in api.products(id).value && IsActive(p))
            && ("silo_role" in claims ==>
                  claims["silo_role"]
                  == Text(if OwnsAdmin(api.products(id).value, Items(cfg.roleMapping)) then "admin" else "user"))
  {
    ClientIff(ui, api, id);
    var owned := if Gated(cfg) then Gate(cfg, api.products(id)).value else [];
    ClaimsByName(cfg, ui, token, owned, DiscordId(cfg, api.details(id)));
    if Gated(cfg) {
      ActiveNonEmpty(api.products(id).value);
      RoleIff(api.products(id).value, Items(cfg.roleMapping));
    }
  }

  /** The positions of the active products, in order and without a gap. */
  predicate ActiveAt(prods: seq<ClientProduct>, at: seq<nat>) {
    && (forall k :: 0 <= k < |at| ==> at[k] < |prods| && IsActive(prods[at[k]]))
    && (forall j, k :: 0 <= j < k < |at| ==> at[j] < at[k])
    && (forall i: nat :: i < |prods| && IsActive(prods[i]) ==> i in at)
  }

  lemma OneMoreActive(prods: seq<ClientProduct>, at: seq<nat>)
    requires prods != [] && ActiveAt(prods[..|prods| - 1], at)
    ensures ActiveAt(prods, at + if IsActive(prods[|prods| - 1]) then [|prods| - 1] else [])
  {
    var n := |prods| - 1;
    var longer := at + if IsActive(prods[n]) then [n] else [];
    forall i: nat | i < |prods| && IsActive(prods[i]) ensures i in longer {
      if i < n { assert prods[..n][i] == prods[i]; }
    }
  }

  /** The ids of exactly the active products, one for one and in the order of the products. */
  lemma {:induction false} ActiveIdsInOrder(prods: seq<ClientProduct>) returns (at: seq<nat>)
    ensures ActiveAt(prods, at)
    ensures |ActiveIds(prods)| == |at| && forall k :: 0 <= k < |at| ==> ActiveIds(prods)[k] == Itoa(prods[at[k]].pid)
  {
    at := [];
    if prods != [] {
      var n := |prods| - 1;
      at := ActiveIdsInOrder(prods[..n]);
      OneMoreActive(prods, at);
      at := at + if IsActive(prods[n]) then [n] else [];
    }
  }

  lemma ActiveNonEmpty(prods: seq<ClientProduct>)
    ensures ActiveIds(prods) != [] <==> exists p :: p in prods && IsActive(p)
  {
    if ActiveIds(prods) != [] {
      assert ActiveIds(prods)[0] in ActiveIds(prods);
      var i :| 0 <= i < |prods| && IsActive(prods[i]) && ActiveIds(prods)[0] == Itoa(prods[i].pid);
      assert prods[i] in prods;
    }
    if p :| p in prods && IsActive(p) {
      var i :| 0 <= i < |prods| && prods[i] == p;
      assert Itoa(prods[i].pid) in ActiveIds(prods);
    }
  }

  /** buildResponse: fills the claims step by step. */
  method BuildResponse(cfg: Config, ui: UserInfo, refreshToken: string, api: Option<Api>)
    returns (r: Result<Response, Status>)
    ensures r == Login(cfg, ui, refreshToken, api)
    ensures r.Ok? ==> IsIdentityOf(r.value, ui)
  {
    var claims: Claims := map[RAW_USERINFO := Info(ui)];
    var token := TrimSpace(refreshToken);
    if token != "" {
      claims := claims[REFRESH_TOKEN := Text(token)];
    }
    if cfg.linkByEmail {
      claims := claims[LINK_BY_EMAIL := Flag(true)];
    }
    if Gated(cfg) || cfg.fetchDiscordId {
      if api.None? {
        return Err(FailedPrecondition);
      }
      var clientId := ui.id;
      if clientId == "" {
        if ui.email == "" {
          return Err(PermissionDenied("neither client id nor email"));
        }
        var found := api.value.byEmail(ui.email);
        if found.Err? {
          return Err(Internal("fetch client by email: " + found.error));
        }
        if found.value.None? || found.value.value.id == "" {
          return Err(PermissionDenied("no client for this email"));
        }
        clientId := found.value.value.id;
      }

      var owned: seq<string> := [];
      if Gated(cfg) {
        var prods := api.value.products(clientId);
        if prods.Err? {
          return Err(Internal("fetch client products: " + prods.error));
        }
        owned := ActiveProductIds(prods.value);
        if Items(cfg.allowed) != [] {
          var matched := AnyMatch(Items(cfg.allowed), owned);
          if !matched {
            return Err(PermissionDenied("no allowed active product"));
          }
        }
        claims := claims[PRODUCTS := List(owned)];
      }
      if cfg.fetchDiscordId {
        var details := api.value.details(clientId);
        if details.Ok? {
          var id := CustomField(details.value, cfg.discordField);
          if id != "" {
            claims := claims[DISCORD_ID := Text(id)];
          }
        }
      }
      if owned != [] {
        var role := RoleFromProducts(owned, Items(cfg.roleMapping));
        claims := claims[SILO_ROLE := Text(role)];
      }
    }
    r := Ok(Response(ui.sub, ui.name, ui.email, claims));
  }
}
