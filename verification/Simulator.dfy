/** The login simulator of the admin API, and its agreement with the login decision. */
module Simulator {
  import opened Basics
  import opened Text
  import opened Whmcs
  import opened ProductIds
  import opened Settings
  import opened Entitlement

  /** Email or client id, and unsaved page state that overrides the configuration. */
  datatype Request = Request(
    email: string,
    clientId: string,
    allowedIds: Option<seq<int>>,
    roleMapping: Option<seq<RoleMap>>,
    fetchDiscordId: Option<bool>)

  datatype Row = Row(pid: int, name: string, status: string, active: bool, allowed: bool, roleHit: string)

  datatype Report =
    | BadRequest
    | NotOk(reason: string, error: string)
    | Report(
        allowed: bool,
        role: string,
        clientId: string,
        resolvedEmail: Option<string>,
        rows: seq<Row>,
        ownedActive: seq<string>,
        allowSet: seq<string>,
        mappingCount: nat,
        details: Result<ClientDetails, string>,
        discordId: Option<string>)

  // -------------------------------------------------------------- the table

  function StatusLabel(p: ClientProduct): string {
    if p.status.None? then "(unspecified)"
    else if TrimSpace(p.status.value) == "" && !IsActive(p) then "(empty)"
    else TrimSpace(p.status.value)
  }

  predicate Decides(m: RoleMap, id: string) { m.productId == id && ValidRole(m.role) }

  /** The role of the first mapping entry for the id that has a valid role; "" for none. */
  function FirstRole(id: string, mapping: seq<RoleMap>): string {
    if mapping == [] then ""
    else if Decides(mapping[0], id) then mapping[0].role
    else FirstRole(id, mapping[1..])
  }

  function RowOf(p: ClientProduct, allowed: seq<string>, mapping: seq<RoleMap>): Row {
    var id := Itoa(p.pid);
    Row(p.pid, p.name, StatusLabel(p), IsActive(p),
        IsActive(p) && id in allowed, if IsActive(p) then FirstRole(id, mapping) else "")
  }

  function Rows(prods: seq<ClientProduct>, allowed: seq<string>, mapping: seq<RoleMap>): (rows: seq<Row>)
    ensures |rows| == |prods| && forall i :: 0 <= i < |prods| ==> rows[i] == RowOf(prods[i], allowed, mapping)
  {
    if prods == [] then []
    else Rows(prods[..|prods| - 1], allowed, mapping) + [RowOf(prods[|prods| - 1], allowed, mapping)]
  }

  lemma {:induction false} FirstRoleSkips(id: string, mapping: seq<RoleMap>, k: nat)
    requires k <= |mapping|
    requires forall i :: 0 <= i < k ==> !Decides(mapping[i], id)
    ensures FirstRole(id, mapping) == FirstRole(id, mapping[k..])
  {
    if k > 0 {
      FirstRoleSkips(id, mapping[1..], k - 1);
      assert mapping[1..][k - 1..] == mapping[k..];
    } else {
      assert mapping[0..] == mapping;
    }
  }

  method BuildRows(prods: seq<ClientProduct>, allowed: seq<string>, mapping: seq<RoleMap>) returns (rows: seq<Row>)
    ensures rows == Rows(prods, allowed, mapping)
  {
    rows := [];
    for i := 0 to |prods|
      invariant |rows| == i && forall k :: 0 <= k < i ==> rows[k] == RowOf(prods[k], allowed, mapping)
    {
      var p := prods[i];
      var statusLabel := "(unspecified)";
      var active := false;
      if p.status.None? {
        active := true;
      } else if EqualFold(TrimSpace(p.status.value), "Active") {
        active := true;
        statusLabel := TrimSpace(p.status.value);
      } else {
        statusLabel := TrimSpace(p.status.value);
        if statusLabel == "" {
          statusLabel := "(empty)";
        }
      }
      var pid := Itoa(p.pid);
      var inAllowed := false;
      if active {
        inAllowed := Contains(allowed, pid);
      }
      var roleHit := "";
      if active {
        roleHit := FindRole(pid, mapping);
      }
      rows := rows + [Row(p.pid, p.name, statusLabel, active, inAllowed, roleHit)];
    }
  }

  /** The inner loop over the allow-list. */
  method Contains(allowed: seq<string>, pid: string) returns (inAllowed: bool)
    ensures inAllowed <==> pid in allowed
  {
    inAllowed := false;
    for j := 0 to |allowed|
      invariant !inAllowed && forall k :: 0 <= k < j ==> allowed[k] != pid
    {
      if allowed[j] == pid {
        inAllowed := true;
        break;
      }
    }
  }

  /** The inner loop over the mapping: the first entry with a valid role wins. */
  method FindRole(pid: string, mapping: seq<RoleMap>) returns (roleHit: string)
    ensures roleHit == FirstRole(pid, mapping)
  {
    roleHit := "";
    for j := 0 to |mapping|
      invariant roleHit == ""
      invariant forall k :: 0 <= k < j ==> !Decides(mapping[k], pid)
    {
      if mapping[j].productId == pid && ValidRole(mapping[j].role) {
        FirstRoleSkips(pid, mapping, j);
        roleHit := mapping[j].role;
        return;
      }
    }
    FirstRoleSkips(pid, mapping, |mapping|);
  }

  // ---------------------------------------------------------- the simulator

  /** The client a simulation is about: the one with the email if given, else the id. */
  function SimulatedClient(req: Request, api: Api): Result<string, Report> {
    var email, id := TrimSpace(req.email), TrimSpace(req.clientId);
    if email == "" then Ok(id)
    else match api.byEmail(email)
         case Err(e) => Err(NotOk("client_lookup_failed", e))
         case Ok(c) =>
           if c.None? || c.value.id == "" then Err(NotOk("client_not_found", "No WHMCS client found for that email."))
           else Ok(c.value.id)
  }

  function ResolvedEmail(req: Request, api: Api): Option<string> {
    match api.byEmail(TrimSpace(req.email))
    case Err(_) => None
    case Ok(c) => if TrimSpace(req.email) == "" || c.None? then None else Some(c.value.email)
  }

  /** The custom field the simulator looks at: unlike the login it has a fallback name. */
  function ShownField(cfg: Config, details: Result<ClientDetails, string>): string {
    if details.Err? then ""
    else CustomField(details.value, if cfg.discordField == "" then DISCORD_FIELD else cfg.discordField)
  }

  /** The settings a simulation runs under: the configuration's, with the request's overrides. */
  datatype Rules = Rules(allowed: seq<string>, mapping: seq<RoleMap>, fetchDiscord: bool)

  function RulesOf(cfg: Config, req: Request): Rules {
    Rules(if req.allowedIds.Some? then ItoaAll(req.allowedIds.value) else Items(cfg.allowed),
          if req.roleMapping.Some? then req.roleMapping.value else Items(cfg.roleMapping),
          if req.fetchDiscordId.Some? then req.fetchDiscordId.value else cfg.fetchDiscordId)
  }

  /** The report on a client that was found. */
  function Verdict(cfg: Config, rules: Rules, id: string, email: Option<string>, api: Api): Report {
    match api.products(id)
    case Err(e) => NotOk("products_lookup_failed", e)
    case Ok(prods) =>
      var owned, details := ActiveIds(prods), api.details(id);
      Report(rules.allowed == [] || Intersects(rules.allowed, owned), Role(owned, rules.mapping), id, email,
             Rows(prods, rules.allowed, rules.mapping), owned, rules.allowed, |rules.mapping|,
             details, if rules.fetchDiscord then Some(ShownField(cfg, details)) else None)
  }

  function Preview(cfg: Config, req: Request, api: Option<Api>): Report {
    if TrimSpace(req.email) == "" && TrimSpace(req.clientId) == "" then BadRequest
    else if cfg.adminApiId == "" || cfg.adminApiSecret == "" || api.None? then
      NotOk("admin_api_required", "admin API credentials are not configured")
    else match SimulatedClient(req, api.value)
         case Err(report) => report
         case Ok(id) => Verdict(cfg, RulesOf(cfg, req), id, ResolvedEmail(req, api.value), api.value)
  }

  /** The second half of HandleSimulateLogin. */
  method ReportOn(cfg: Config, rules: Rules, id: string, email: Option<string>, api: Api) returns (r: Report)
    ensures r == Verdict(cfg, rules, id, email, api)
  {
    var prods := api.products(id);
    if prods.Err? {
      return NotOk("products_lookup_failed", prods.error);
    }
    var owned := ActiveProductIds(prods.value);
    var gatePassed := true;
    if rules.allowed != [] {
      gatePassed := AnyMatch(rules.allowed, owned);
    }
    var role := "user";
    if owned != [] {
      role := RoleFromProducts(owned, rules.mapping);
    }
    var details := api.details(id);
    var discordId := "";
    if details.Ok? && rules.fetchDiscord {
      var field := cfg.discordField;
      if field == "" {
        field := DISCORD_FIELD;
      }
      if field in details.value.customFields {
        discordId := details.value.customFields[field];
      }
    }
    var rows := BuildRows(prods.value, rules.allowed, rules.mapping);
    r := Report(gatePassed, role, id, email, rows, owned, rules.allowed, |rules.mapping|,
                details, if rules.fetchDiscord then Some(discordId) else None);
  }

  /** HandleSimulateLogin */
  method SimulateLogin(cfg: Config, req: Request, api: Option<Api>) returns (r: Report)
    ensures r == Preview(cfg, req, api)
  {
    var email := TrimSpace(req.email);
    var clientId := TrimSpace(req.clientId);
    if email == "" && clientId == "" {
      return BadRequest;
    }
    var allowed := Items(cfg.allowed);
    if req.allowedIds.Some? {
      allowed := StoreIds(req.allowedIds.value);
    }
    var mapping := Items(cfg.roleMapping);
    if req.roleMapping.Some? {
      mapping := req.roleMapping.value;
    }
    var fetchDiscord := cfg.fetchDiscordId;
    if req.fetchDiscordId.Some? {
      fetchDiscord := req.fetchDiscordId.value;
    }
    if cfg.adminApiId == "" || cfg.adminApiSecret == "" || api.None? {
      return NotOk("admin_api_required", "admin API credentials are not configured");
    }
    var resolvedEmail := None;
    if email != "" {
      var c := api.value.byEmail(email);
      if c.Err? {
        return NotOk("client_lookup_failed", c.error);
      }
      if c.value.None? || c.value.value.id == "" {
        return NotOk("client_not_found", "No WHMCS client found for that email.");
      }
      resolvedEmail := Some(c.value.value.email);
      clientId := c.value.value.id;
    }
    r := ReportOn(cfg, Rules(allowed, mapping, fetchDiscord), clientId, resolvedEmail, api.value);
  }

  // ------------------------------------------------- login and simulator agree

  /** The simulation previews the saved configuration. */
  predicate NoOverrides(req: Request) {
    req.allowedIds.None? && req.roleMapping.None? && req.fetchDiscordId.None?
  }

  /** Both evaluations are about the same client, or neither finds one. */
  predicate SameClient(ui: UserInfo, req: Request, api: Api) {
    match LoginClient(ui, api)
    case Ok(id) => SimulatedClient(req, api) == Ok(id)
    case Err(_) => SimulatedClient(req, api).Err?
  }

  /** Asking for the id from userinfo, or for its email when there is no id, is the same client.
      The login prefers the id and the simulator the email, so a request with both may differ. */
  lemma SameQuestionSameClient(ui: UserInfo, req: Request, api: Api)
    requires ui.id != "" ==> TrimSpace(req.email) == "" && TrimSpace(req.clientId) == ui.id
    requires ui.id == "" ==> ui.email != "" && TrimSpace(req.email) == ui.email
    ensures SameClient(ui, req, api)
  {}

  /** The login succeeds exactly when the simulator reports ok and allowed; then its products claim
      is the simulator's list of active products, and it claims a role exactly when that list is
      not empty, namely the simulator's. */
  lemma SimulatorAgrees(cfg: Config, ui: UserInfo, token: string, req: Request, api: Api)
    requires Gated(cfg) && cfg.adminApiId != "" && cfg.adminApiSecret != ""
    requires NoOverrides(req) && !Preview(cfg, req, Some(api)).BadRequest? && SameClient(ui, req, api)
    ensures var login, report := Login(cfg, ui, token, Some(api)), Preview(cfg, req, Some(api));
            && (login.Ok? <==> report.Report? && report.allowed)
            && (login.Ok? ==>
                  var claims := login.value.claims;
                  && PRODUCTS in claims && claims[PRODUCTS] == List(report.ownedActive)
                  && (SILO_ROLE in claims <==> report.ownedActive != [])
                  && (SILO_ROLE in claims ==> claims[SILO_ROLE] == Entitlement.Text(report.role)))
  {
    var client := LoginClient(ui, api);
    if client.Ok? {
      var gate := Gate(cfg, api.products(client.value));
      if gate.Ok? { ClaimsByName(cfg, ui, token, gate.value, DiscordId(cfg, api.details(client.value))); }
    }
  }

  /** What a login claims, an absent claim counting as nothing. */
  function ClaimedDiscordId(r: Response): string {
    if DISCORD_ID in r.claims && r.claims[DISCORD_ID].Text? then r.claims[DISCORD_ID].text else ""
  }

  function ClaimedProducts(r: Response): seq<string> {
    if PRODUCTS in r.claims && r.claims[PRODUCTS].List? then r.claims[PRODUCTS].items else []
  }

  function ClaimedRole(r: Response): string {
    if SILO_ROLE in r.claims && r.claims[SILO_ROLE].Text? then r.claims[SILO_ROLE].text else ""
  }

  /** The products a login looks up; none without an allow-list and a role mapping. */
  function LookedUp(cfg: Config, id: string, api: Api): Result<seq<string>, Status> {
    if Gated(cfg) then Gate(cfg, api.products(id)) else Ok([])
  }

  /** For any configuration: when the simulator reports on a client that the login admits, the
      products and the role they give are the same exactly when the configuration has an allow-list
      or a role mapping, or the client owns nothing active. Without either the simulator still shows
      what the client owns and would be, and the login claims neither. */
  lemma ClaimsAgreeIff(cfg: Config, ui: UserInfo, token: string, req: Request, api: Api)
    requires NoOverrides(req) && SameClient(ui, req, api) && Preview(cfg, req, Some(api)).Report?
    ensures var login, report := Login(cfg, ui, token, Some(api)), Preview(cfg, req, Some(api));
            && (login.Ok? <==> report.allowed)
            && (login.Ok? ==>
                  (ClaimedProducts(login.value) == report.ownedActive
                   && ClaimedRole(login.value) == if report.ownedActive == [] then "" else report.role)
                  <==> Gated(cfg) || report.ownedActive == [])
  {
    var id := LoginClient(ui, api).value;
    var owned := LookedUp(cfg, id, api);
    if owned.Ok? {
      if Gated(cfg) || cfg.fetchDiscordId {
        ClaimsByName(cfg, ui, token, owned.value, DiscordId(cfg, api.details(id)));
      } else {
        ClaimsByName(cfg, ui, token, [], "");
      }
    }
  }

  /** With Discord ids fetched, the login claims the id the simulator shows exactly when the field
      name is set or the client has no "Discord ID": the simulator falls back to that name and the
      login does not. */
  lemma DiscordAgreesIff(cfg: Config, ui: UserInfo, token: string, req: Request, api: Api)
    requires cfg.fetchDiscordId && Preview(cfg, req, Some(api)).Report?
    requires NoOverrides(req) && SameClient(ui, req, api)
    requires Login(cfg, ui, token, Some(api)).Ok?
    requires forall id :: api.details(id).Ok? ==> Named(api.details(id).value)
    ensures var login, report := Login(cfg, ui, token, Some(api)).value, Preview(cfg, req, Some(api));
            && report.discordId.Some?
            && (ClaimedDiscordId(login) == report.discordId.value
                <==> cfg.discordField != "" || report.details.Err?
                     || CustomField(report.details.value, DISCORD_FIELD) == "")
  {
    var id := LoginClient(ui, api).value;
    ClaimsByName(cfg, ui, token, LookedUp(cfg, id, api).value, DiscordId(cfg, api.details(id)));
  }

  /** The client that owns just one product without a status. */
  function Owner(pid: int): seq<ClientProduct> { [ClientProduct(pid, "", None)] }

  /** An API that knows one client with one product and a "Discord ID". */
  function OneClientApi(): Api {
    Api((email: string) => Ok(None), (id: string) => Ok(Owner(1)),
        (id: string) => Ok(ClientDetails("7", "", "", "", map[DISCORD_FIELD := "42"])))
  }

  /** A configuration, handed to both handlers, whose Discord field is blank. */
  const BLANKED := ZERO.(roleMapping := Some([RoleMap("1", "user")]), adminApiId := "a", adminApiSecret := "s",
                         fetchDiscordId := true)

  /** The input that shows it: the simulator shows the client's id and the login claims none. */
  lemma DiscordCanDisagree()
    ensures var login := Login(BLANKED, UserInfo("sub", "7", "", ""), "", Some(OneClientApi()));
            login.Ok? && ClaimedDiscordId(login.value) == ""
    ensures var report := Preview(BLANKED, Request("", "7", None, None, None), Some(OneClientApi()));
            report.Report? && report.discordId == Some("42")
  {
    var ui, api := UserInfo("sub", "7", "", ""), OneClientApi();
    assert TrimSpace("7") == "7" && TrimSpace("") == "";
    assert Items(BLANKED.allowed) == [] && Gate(BLANKED, api.products("7")).Ok?;
    ClaimsByName(BLANKED, ui, "", Gate(BLANKED, api.products("7")).value, DiscordId(BLANKED, api.details("7")));
  }

  /** Likewise without allow-list and role mapping: the simulator shows product 1, and the login
      claims no product. */
  lemma ClaimsCanDisagree()
    ensures var cfg := ZERO.(adminApiId := "a", adminApiSecret := "s");
            var login := Login(cfg, UserInfo("sub", "7", "", ""), "", Some(OneClientApi()));
            var report := Preview(cfg, Request("", "7", None, None, None), Some(OneClientApi()));
            && login.Ok? && ClaimedProducts(login.value) == [] && ClaimedRole(login.value) == ""
            && report.Report? && report.ownedActive == ["1"] && report.role == "user"
  {
    var cfg := ZERO.(adminApiId := "a", adminApiSecret := "s");
    var ui, api := UserInfo("sub", "7", "", ""), OneClientApi();
    assert TrimSpace("7") == "7" && TrimSpace("") == "";
    assert Itoa(1) == "1" && Owner(1)[..0] == [] && ActiveIds(Owner(1)) == ["1"];
    ClaimsByName(cfg, ui, "", [], "");
  }

  // ----------------------------------------------- what a report says, clause by clause

  /** Entry k is the first for the id that has one of the two roles. */
  predicate FirstFor(id: string, mapping: seq<RoleMap>, k: int) {
    && 0 <= k < |mapping| && mapping[k].productId == id && (mapping[k].role == "admin" || mapping[k].role == "user")
    && forall j :: 0 <= j < k && mapping[j].productId == id ==> mapping[j].role != "admin" && mapping[j].role != "user"
  }

  lemma {:induction false} FirstRoleIff(id: string, mapping: seq<RoleMap>)
    ensures FirstRole(id, mapping) == "" <==> forall k :: !FirstFor(id, mapping, k)
    ensures forall k :: FirstFor(id, mapping, k) ==> FirstRole(id, mapping) == mapping[k].role
  {
    if FirstRole(id, mapping) != "" {
      var i := DecidingEntry(id, mapping);
      assert forall j :: 0 <= j < i ==> !Decides(mapping[j], id);
      assert FirstFor(id, mapping, i);
    }
    forall k | FirstFor(id, mapping, k) ensures FirstRole(id, mapping) == mapping[k].role {
      forall j | 0 <= j < k ensures !Decides(mapping[j], id) {}
      FirstRoleSkips(id, mapping, k);
    }
  }

  /** The row of a product: its id and name; whether it is active, with its status as a label; and
      for an active product whether it is allowed and the role of its first entry. */
  ghost predicate RowShows(row: Row, p: ClientProduct, allowed: seq<string>, mapping: seq<RoleMap>) {
    && row.pid == p.pid && row.name == p.name
    && (row.active <==> p.status.None? || EqualFold(TrimSpace(p.status.value), "Active"))
    && (row.status == match p.status
                      case None => "(unspecified)"
                      case Some(s) => if TrimSpace(s) == "" then "(empty)" else TrimSpace(s))
    && (row.allowed <==> row.active && Itoa(p.pid) in allowed)
    && (row.roleHit == "" <==> !row.active || forall k :: !FirstFor(Itoa(p.pid), mapping, k))
    && (row.active ==> forall k :: FirstFor(Itoa(p.pid), mapping, k) ==> row.roleHit == mapping[k].role)
  }

  lemma RowsShow(prods: seq<ClientProduct>, allowed: seq<string>, mapping: seq<RoleMap>, i: nat)
    requires i < |prods|
    ensures |Rows(prods, allowed, mapping)| == |prods|
    ensures RowShows(Rows(prods, allowed, mapping)[i], prods[i], allowed, mapping)
  {
    FirstRoleIff(Itoa(prods[i].pid), mapping);
  }

  /** The client of a simulation: the one with the email, else the id of the request. */
  predicate IsSimulated(req: Request, api: Api, id: string) {
    var email := TrimSpace(req.email);
    if email == "" then id == TrimSpace(req.clientId)
    else api.byEmail(email).Ok? && api.byEmail(email).value.Some? && id == api.byEmail(email).value.value.id != ""
  }

  /** There is a report exactly when the request names a client, credentials are configured, the
      client is found and its products can be listed. */
  lemma ReportIff(cfg: Config, req: Request, api: Option<Api>)
    ensures Preview(cfg, req, api).Report? <==>
              && (TrimSpace(req.email) != "" || TrimSpace(req.clientId) != "")
              && cfg.adminApiId != "" && cfg.adminApiSecret != "" && api.Some?
              && exists id :: IsSimulated(req, api.value, id) && api.value.products(id).Ok?
  {
    if api.Some? {
      forall id ensures SimulatedClient(req, api.value) == Ok(id) <==> IsSimulated(req, api.value, id) {}
    }
  }

  /** Why there is none. */
  lemma NoReportIff(cfg: Config, req: Request, api: Option<Api>)
    ensures var r, email := Preview(cfg, req, api), TrimSpace(req.email);
            var ready := cfg.adminApiId != "" && cfg.adminApiSecret != "" && api.Some?;
            && (r.BadRequest? <==> email == "" && TrimSpace(req.clientId) == "")
            && (r.NotOk? && r.reason == "admin_api_required" <==> !r.BadRequest? && !ready)
            && (r.NotOk? && r.reason == "client_lookup_failed" <==>
                  email != "" && ready && api.value.byEmail(email).Err?)
            && (r.NotOk? && r.reason == "client_not_found" <==>
                  email != "" && ready && api.value.byEmail(email).Ok?
                  && (api.value.byEmail(email).value.None? || api.value.byEmail(email).value.value.id == ""))
            && (r.NotOk? && r.reason == "products_lookup_failed" <==>
                  && !r.BadRequest? && ready
                  && exists id :: IsSimulated(req, api.value, id) && api.value.products(id).Err?)
  {
    if api.Some? {
      forall id ensures SimulatedClient(req, api.value) == Ok(id) <==> IsSimulated(req, api.value, id) {}
    }
  }

  /** The value of the custom field that is looked at, which is "Discord ID" when none is set. */
  function FieldShown(cfg: Config, details: Result<ClientDetails, string>): string {
    var name := if cfg.discordField != "" then cfg.discordField else "Discord ID";
    if details.Ok? && name in details.value.customFields then details.value.customFields[name] else ""
  }

  /** What a report holds, under the settings of the configuration or of the request. */
  lemma ReportHolds(cfg: Config, req: Request, api: Api, id: string)
    requires Preview(cfg, req, Some(api)).Report? && IsSimulated(req, api, id)
    requires NoOverrides(req)
    ensures var report, prods := Preview(cfg, req, Some(api)), api.products(id).value;
            && report.clientId == id && report.details == api.details(id)
            && report.ownedActive == ActiveIds(prods) && report.allowSet == Items(cfg.allowed)
            && report.mappingCount == |Items(cfg.roleMapping)|
            && report.rows == Rows(prods, Items(cfg.allowed), Items(cfg.roleMapping))
            && (report.allowed <==> Items(cfg.allowed) == [] || OwnsOneOf(prods, Items(cfg.allowed)))
            && report.role == (if OwnsAdmin(prods, Items(cfg.roleMapping)) then "admin" else "user")
            && (report.resolvedEmail.Some? <==> TrimSpace(req.email) != "")
            && (report.resolvedEmail.Some? ==>
                  report.resolvedEmail == Some(api.byEmail(TrimSpace(req.email)).value.value.email))
            && report.discordId == (if cfg.fetchDiscordId then Some(FieldShown(cfg, api.details(id))) else None)
  {
    OwnsIff(api.products(id).value, Items(cfg.allowed));
    RoleIff(api.products(id).value, Items(cfg.roleMapping));
  }

  /** The configuration with the request's settings. */
  function Saved(cfg: Config, req: Request): Config {
    cfg.(allowed := if req.allowedIds.Some? then Some(ItoaAll(req.allowedIds.value)) else cfg.allowed,
         roleMapping := if req.roleMapping.Some? then req.roleMapping else cfg.roleMapping,
         fetchDiscordId := if req.fetchDiscordId.Some? then req.fetchDiscordId.value else cfg.fetchDiscordId)
  }

  lemma VerdictReadsOneSetting(a: Config, b: Config, rules: Rules, id: string, email: Option<string>, api: Api)
    requires a.discordField == b.discordField
    ensures Verdict(a, rules, id, email, api) == Verdict(b, rules, id, email, api)
  {
    assert ShownField(a, api.details(id)) == ShownField(b, api.details(id));
  }

  lemma SameClientAsked(a: Request, b: Request, api: Api)
    requires a.email == b.email && a.clientId == b.clientId
    ensures SimulatedClient(a, api) == SimulatedClient(b, api) && ResolvedEmail(a, api) == ResolvedEmail(b, api)
  {}

  /** Unsaved settings are previewed as if they were saved. */
  lemma OverridesPreviewTheSave(cfg: Config, req: Request, api: Option<Api>)
    ensures Preview(cfg, req, api) == Preview(Saved(cfg, req), Request(req.email, req.clientId, None, None, None), api)
  {
    var plain := Request(req.email, req.clientId, None, None, None);
    assert RulesOf(Saved(cfg, req), plain) == RulesOf(cfg, req);
    if api.Some? {
      SameClientAsked(req, plain, api.value);
      var client := SimulatedClient(req, api.value);
      if client.Ok? {
        VerdictReadsOneSetting(cfg, Saved(cfg, req), RulesOf(cfg, req), client.value, ResolvedEmail(req, api.value),
                               api.value);
      }
    }
  }

  // --------------------------------------------- the table explains the verdict

  predicate HasAllowedRow(rows: seq<Row>) { exists i :: 0 <= i < |rows| && rows[i].allowed }

  predicate HasAdminRow(rows: seq<Row>) { exists i :: 0 <= i < |rows| && rows[i].roleHit == "admin" }

  /** The gate passes exactly when there is no allow-list or some row is marked allowed. */
  lemma GateRows(cfg: Config, rules: Rules, id: string, email: Option<string>, api: Api)
    requires api.products(id).Ok?
    ensures var report := Verdict(cfg, rules, id, email, api);
            report.allowed <==> rules.allowed == [] || HasAllowedRow(report.rows)
  {
    var prods := api.products(id).value;
    var rows := Rows(prods, rules.allowed, rules.mapping);
    if Intersects(rules.allowed, ActiveIds(prods)) {
      var w :| w in rules.allowed && w in ActiveIds(prods);
      var i :| 0 <= i < |prods| && IsActive(prods[i]) && w == Itoa(prods[i].pid);
      assert rows[i].allowed;
    }
    if HasAllowedRow(rows) {
      var i :| 0 <= i < |rows| && rows[i].allowed;
      assert Itoa(prods[i].pid) in rules.allowed && Itoa(prods[i].pid) in ActiveIds(prods);
    }
  }

  /** The entry that a row's role comes from. */
  lemma {:induction false} DecidingEntry(id: string, mapping: seq<RoleMap>) returns (i: nat)
    requires FirstRole(id, mapping) != ""
    ensures i < |mapping| && mapping[i] == RoleMap(id, FirstRole(id, mapping)) && ValidRole(mapping[i].role)
    ensures forall k :: 0 <= k < i ==> !Decides(mapping[k], id)
  {
    if Decides(mapping[0], id) {
      i := 0;
    } else {
      i := DecidingEntry(id, mapping[1..]);
      i := i + 1;
      assert forall k :: 0 < k < i ==> mapping[k] == mapping[1..][k - 1];
    }
  }

  lemma {:induction false} SomeEntryDecides(id: string, mapping: seq<RoleMap>, i: nat)
    requires i < |mapping| && Decides(mapping[i], id)
    ensures FirstRole(id, mapping) != ""
  {
    if !Decides(mapping[0], id) { SomeEntryDecides(id, mapping[1..], i - 1); }
  }

  /** Entry i maps its id to user, a later entry maps it to admin, and no earlier one does. */
  predicate Shadows(mapping: seq<RoleMap>, i: int) {
    && 0 <= i < |mapping| && mapping[i].role == "user"
    && AdminMapped(mapping[i].productId, mapping[i..]) && !AdminMapped(mapping[i].productId, mapping[..i])
  }

  predicate NoShadow(mapping: seq<RoleMap>) {
    forall i {:trigger Shadows(mapping, i)} :: 0 <= i < |mapping| ==> !Shadows(mapping, i)
  }

  /** A mapping that names no id twice has no such entry. */
  lemma DistinctIdsDoNotShadow(mapping: seq<RoleMap>)
    requires forall i, j :: 0 <= i < j < |mapping| ==> mapping[i].productId != mapping[j].productId
    ensures NoShadow(mapping)
  {
    forall i | 0 <= i < |mapping| ensures !Shadows(mapping, i) {
      assert forall k :: 0 < k < |mapping[i..]| ==> mapping[i..][k] == mapping[i + k];
    }
  }

  /** No entry for the id shadows a later one. */
  predicate Unshadowed(id: string, mapping: seq<RoleMap>) {
    forall i {:trigger Shadows(mapping, i)} :: 0 <= i < |mapping| && mapping[i].productId == id ==> !Shadows(mapping, i)
  }

  lemma UnshadowedAdminIsFirst(id: string, mapping: seq<RoleMap>)
    requires AdminMapped(id, mapping) && Unshadowed(id, mapping)
    ensures FirstRole(id, mapping) == "admin"
  {
    var j :| 0 <= j < |mapping| && mapping[j] == RoleMap(id, "admin");
    SomeEntryDecides(id, mapping, j);
    var i := DecidingEntry(id, mapping);
    assert j >= i by { assert Decides(mapping[j], id); }
    assert mapping[i..][j - i] == mapping[j];
    assert !AdminMapped(id, mapping[..i]) by {
      assert forall k :: 0 <= k < i ==> !Decides(mapping[..i][k], id);
    }
    assert !Shadows(mapping, i);
  }

  /** An admin row means the login would be an admin. */
  lemma AdminRowMeansAdmin(prods: seq<ClientProduct>, allowed: seq<string>, mapping: seq<RoleMap>)
    requires HasAdminRow(Rows(prods, allowed, mapping))
    ensures Role(ActiveIds(prods), mapping) == "admin"
  {
    var rows := Rows(prods, allowed, mapping);
    var i :| 0 <= i < |rows| && rows[i].roleHit == "admin";
    var k := DecidingEntry(Itoa(prods[i].pid), mapping);
    assert Itoa(prods[i].pid) in ActiveIds(prods);
  }

  /** The table shows why the role is what it is: admin exactly when some row says so. */
  ghost predicate RoleExplained(prods: seq<ClientProduct>, allowed: seq<string>, mapping: seq<RoleMap>) {
    Role(ActiveIds(prods), mapping) == "admin" <==> HasAdminRow(Rows(prods, allowed, mapping))
  }

  lemma UnshadowedRoleIsExplained(prods: seq<ClientProduct>, allowed: seq<string>, mapping: seq<RoleMap>)
    requires forall i :: 0 <= i < |prods| ==> Unshadowed(Itoa(prods[i].pid), mapping)
    ensures RoleExplained(prods, allowed, mapping)
  {
    var rows := Rows(prods, allowed, mapping);
    if HasAdminRow(rows) { AdminRowMeansAdmin(prods, allowed, mapping); }
    if Role(ActiveIds(prods), mapping) == "admin" {
      var p :| p in ActiveIds(prods) && AdminMapped(p, mapping);
      var i :| 0 <= i < |prods| && IsActive(prods[i]) && p == Itoa(prods[i].pid);
      UnshadowedAdminIsFirst(p, mapping);
      assert rows[i].roleHit == "admin";
    }
  }

  lemma ShadowedRoleIsNotExplained(allowed: seq<string>, mapping: seq<RoleMap>, i: nat, pid: int)
    requires i < |mapping| && Shadows(mapping, i) && mapping[i].productId == Itoa(pid)
    ensures !RoleExplained(Owner(pid), allowed, mapping)
  {
    var id := Itoa(pid);
    SomeEntryDecides(id, mapping, i);
    var k := DecidingEntry(id, mapping);
    assert k <= i by { assert Decides(mapping[i], id); }
    assert k < i ==> mapping[..i][k] == mapping[k];
    assert FirstRole(id, mapping) == "user";
    assert Owner(pid)[0] == ClientProduct(pid, "", None);
    var j :| 0 <= j < |mapping[i..]| && mapping[i..][j] == RoleMap(id, "admin");
    assert mapping[i + j] == RoleMap(id, "admin");
    assert id in ActiveIds(Owner(pid)) && AdminMapped(id, mapping);
  }

  /** A product id as WHMCS answers are decoded: a positive int64. */
  predicate PositivePids(prods: seq<ClientProduct>) {
    forall i :: 0 <= i < |prods| ==> 0 < prods[i].pid <= MAX_INT64
  }

  predicate Int64Pids(prods: seq<ClientProduct>) { forall i :: 0 <= i < |prods| ==> IsInt64(prods[i].pid) }

  /** No entry for a positive id, or for any int64, shadows another. */
  predicate NoPidShadows(mapping: seq<RoleMap>) {
    forall i {:trigger Shadows(mapping, i)} ::
      0 <= i < |mapping| && Canonical(mapping[i].productId) ==> !Shadows(mapping, i)
  }

  predicate NoInt64Shadows(mapping: seq<RoleMap>) {
    forall i {:trigger Shadows(mapping, i)} ::
      0 <= i < |mapping| && Decimal(mapping[i].productId) ==> !Shadows(mapping, i)
  }

  lemma IntsAreDecimal(n: int)
    requires IsInt64(n)
    ensures Decimal(Itoa(n)) && (n > 0 ==> Canonical(Itoa(n)))
  {
    AtoiItoa(n);
  }

  lemma ShadowedOwner(allowed: seq<string>, mapping: seq<RoleMap>, i: nat)
    requires i < |mapping| && Shadows(mapping, i) && Decimal(mapping[i].productId)
    ensures !RoleExplained(Owner(Atoi(mapping[i].productId).value), allowed, mapping)
  {
    ShadowedRoleIsNotExplained(allowed, mapping, i, Atoi(mapping[i].productId).value);
  }

  lemma ExplainedFor(prods: seq<ClientProduct>, allowed: seq<string>, mapping: seq<RoleMap>)
    requires Int64Pids(prods) && (NoInt64Shadows(mapping) || (PositivePids(prods) && NoPidShadows(mapping)))
    ensures RoleExplained(prods, allowed, mapping)
  {
    forall i | 0 <= i < |prods| ensures Unshadowed(Itoa(prods[i].pid), mapping) { IntsAreDecimal(prods[i].pid); }
    UnshadowedRoleIsExplained(prods, allowed, mapping);
  }

  ghost predicate ExplainsEveryClient(allowed: seq<string>, mapping: seq<RoleMap>) {
    forall prods {:trigger RoleExplained(prods, allowed, mapping)} ::
      PositivePids(prods) ==> RoleExplained(prods, allowed, mapping)
  }

  ghost predicate ExplainsEveryList(allowed: seq<string>, mapping: seq<RoleMap>) {
    forall prods {:trigger RoleExplained(prods, allowed, mapping)} ::
      Int64Pids(prods) ==> RoleExplained(prods, allowed, mapping)
  }

  /** For any mapping, also an unsaved one that nothing has checked: the rows explain the role of
      every client exactly when no entry for a positive id shadows another, and of every list of
      int64 ids exactly when no entry for one of those does. */
  lemma RolesExplainedIff(allowed: seq<string>, mapping: seq<RoleMap>)
    ensures NoPidShadows(mapping) <==> ExplainsEveryClient(allowed, mapping)
    ensures NoInt64Shadows(mapping) <==> ExplainsEveryList(allowed, mapping)
  {
    ClientsExplainedIff(allowed, mapping);
    ListsExplainedIff(allowed, mapping);
  }

  lemma ClientsExplainedIff(allowed: seq<string>, mapping: seq<RoleMap>)
    ensures NoPidShadows(mapping) <==> ExplainsEveryClient(allowed, mapping)
  {
    if NoPidShadows(mapping) {
      forall prods: seq<ClientProduct> | PositivePids(prods) ensures RoleExplained(prods, allowed, mapping) {
        ExplainedFor(prods, allowed, mapping);
      }
    } else {
      var i :| 0 <= i < |mapping| && Canonical(mapping[i].productId) && Shadows(mapping, i);
      ShadowedOwner(allowed, mapping, i);
      assert PositivePids(Owner(Atoi(mapping[i].productId).value));
    }
  }

  lemma ListsExplainedIff(allowed: seq<string>, mapping: seq<RoleMap>)
    ensures NoInt64Shadows(mapping) <==> ExplainsEveryList(allowed, mapping)
  {
    if NoInt64Shadows(mapping) {
      forall prods: seq<ClientProduct> | Int64Pids(prods) ensures RoleExplained(prods, allowed, mapping) {
        ExplainedFor(prods, allowed, mapping);
      }
    } else {
      var i :| 0 <= i < |mapping| && Decimal(mapping[i].productId) && Shadows(mapping, i);
      ShadowedOwner(allowed, mapping, i);
      assert Int64Pids(Owner(Atoi(mapping[i].productId).value));
    }
  }

  /** The input that shows it: the owner of product 1 is an admin, and the table says user. */
  lemma RolesCanGoUnexplained()
    ensures var mapping := [RoleMap("1", "user"), RoleMap("1", "admin")];
            && Role(ActiveIds(Owner(1)), mapping) == "admin"
            && Rows(Owner(1), [], mapping) == [Row(1, "", "(unspecified)", true, false, "user")]
  {
    var mapping := [RoleMap("1", "user"), RoleMap("1", "admin")];
    assert Itoa(1) == "1" && Owner(1)[0] == ClientProduct(1, "", None) && IsActive(Owner(1)[0]);
    assert "1" in ActiveIds(Owner(1)) && mapping[1] == RoleMap("1", "admin") && AdminMapped("1", mapping);
    assert Rows(Owner(1), [], mapping)[0] == RowOf(Owner(1)[0], [], mapping);
  }
}
