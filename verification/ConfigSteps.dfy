/** What one Configure or one PATCH makes of the row and of the live configuration, field by field
    and without the functions of the machine. */
module ConfigSteps {
  import opened Basics
  import opened Text
  import opened ProductIds
  import opened Settings
  import opened Configuration
  import opened ConfigKeys
  import opened ConfigStore

  // ------------------------------------------------------------------------ PATCH

  /** A text of the request is trimmed; a field that is absent leaves the setting alone. */
  predicate TakesText(given: Option<string>, before: string, after: string) {
    if given.Some? then after == TrimSpace(given.value) else after == before
  }

  predicate Takes<T(==)>(given: Option<T>, before: T, after: T) {
    after == if given.Some? then given.value else before
  }

  /** The URL without trailing slashes. */
  predicate TakesUrl(given: Option<string>, before: string, after: string) {
    if given.Some? then after == TrimRight(IsSlash, TrimSpace(given.value)) else after == before
  }

  /** The ids in decimal, one for one. */
  predicate TakesIds(given: Option<seq<int>>, before: Slice<string>, after: Slice<string>) {
    if given.None? then after == before
    else && after.Some? && |after.value| == |given.value|
         && forall i :: 0 <= i < |given.value| ==> after.value[i] == Itoa(given.value[i])
  }

  /** Every setting but the mapping, which is checked. */
  predicate TakesBody(before: Config, body: PatchBody, after: Config) {
    && TakesUrl(body.serverUrl, before.serverUrl, after.serverUrl)
    && TakesText(body.clientId, before.clientId, after.clientId)
    && TakesText(body.displayName, before.displayName, after.displayName)
    && TakesText(body.iconUrlPath, before.iconUrlPath, after.iconUrlPath)
    && TakesText(body.adminApiId, before.adminApiId, after.adminApiId)
    && TakesText(body.discordField, before.discordField, after.discordField)
    && TakesIds(body.allowedIds, before.allowed, after.allowed)
    && Takes(body.fetchDiscordId, before.fetchDiscordId, after.fetchDiscordId)
    && Takes(body.linkByEmail, before.linkByEmail, after.linkByEmail)
    && after.databaseUrl == "" && after.clientSecret == before.clientSecret
    && after.adminApiSecret == before.adminApiSecret
  }

  function SentSlice(live: Config, body: PatchBody): Slice<RoleMap> {
    if body.roleMapping.Some? then body.roleMapping else live.roleMapping
  }

  predicate EmptyUrl(live: Config, body: PatchBody) {
    match body.serverUrl
    case None => live.serverUrl == ""
    case Some(url) => TrimRight(IsSlash, TrimSpace(url)) == ""
  }

  predicate Clients(s: State) { s.hasApi <==> s.live.adminApiId != "" && s.live.adminApiSecret != "" }

  /** What a row shows: the defaults, or what it holds, with a Discord field in either case. */
  predicate Shows(row: Option<Config>, cfg: Config) {
    match row
    case None => cfg == Config("", "", "", "", "", "", None, "", "", false, "Discord ID", None, false)
    case Some(kept) => cfg == kept.(discordField := if kept.discordField == "" then "Discord ID" else kept.discordField)
  }

  lemma MergedTakes(live: Config, body: PatchBody)
    ensures TakesBody(live, body, Merged(live, body)) && Merged(live, body).roleMapping == SentSlice(live, body)
    ensures Merged(live, body).serverUrl == "" <==> EmptyUrl(live, body)
  {}

  /** A PATCH is accepted exactly when the plugin is set up, its URL and its mapping are good, and the
      database takes it. Refused, it changes nothing. */
  lemma PatchAcceptedIff(s: State, op: Op)
    requires Inv(s) && op.Patch?
    ensures Accepted(s, op) <==>
              && s.ready && (EmptyUrl(s.live, op.body) || op.urlOk) && !op.fault.AtWrite?
              && GoodMapping(SentSlice(s.live, op.body))
    ensures !Accepted(s, op) ==> Step(s, op) == s
  {
    MergedTakes(s.live, op.body);
    GoodIff(Merged(s.live, op.body).roleMapping);
    if op.body.roleMapping.None? { SharedSliceIsFixed(s.live, op.body, op.urlOk); }
  }

  /** Accepted, it sets the fields it names and no others, in the live configuration and in the row. */
  lemma PatchSets(s: State, op: Op)
    requires Inv(s) && op.Patch?
    ensures var after := Step(s, op);
            Accepted(s, op) ==>
              && TakesBody(s.live, op.body, after.live)
              && Normalised(SentSlice(s.live, op.body), after.live.roleMapping)
              && after.row.Some? && Shows(Some(after.live), after.row.value)
              && Clients(after) && after.ready
  {
    MergedTakes(s.live, op.body);
    if Accepted(s, op) { CheckedIsNormalised(Merged(s.live, op.body), op.urlOk); }
  }

  // -------------------------------------------------------------------- Configure

  /** A configuration in which nothing but secrets is set. */
  predicate Untouched(cfg: Config) {
    && cfg.serverUrl == cfg.clientId == cfg.displayName == cfg.iconUrlPath == cfg.adminApiId == ""
    && cfg.allowed.None? && cfg.roleMapping.None? && !cfg.fetchDiscordId && !cfg.linkByEmail
    && (cfg.discordField == "" || cfg.discordField == "Discord ID")
  }

  /** A row that an import may overwrite. */
  predicate MayImport(row: Option<Config>) { row.Some? ==> Untouched(row.value) && NoSecrets(row.value) }

  function WithoutSecrets(cfg: Config): Config { cfg.(databaseUrl := "", clientSecret := "", adminApiSecret := "") }

  lemma LoadedIsWritten(entries: seq<Entry>, urlOk: bool, again: bool)
    requires Loaded(entries, urlOk).Some?
    ensures var cfg := Loaded(entries, urlOk).value;
            && Defaulted(Stripped(cfg)) == WithoutSecrets(cfg)
            && (ProblemIn(WithoutSecrets(cfg), again).None? <==> cfg.serverUrl == "" || again)
            && Written(WithoutSecrets(cfg), again) == WithoutSecrets(cfg)
            && Decoded(Some(WithoutSecrets(cfg))) == WithoutSecrets(cfg)
            && (WithoutSecrets(cfg) == DEFAULT_CONFIG <==> Untouched(cfg))
  {
    LoadedIsProper(entries, urlOk);
    ProperIsFixed(Items(Loaded(entries, urlOk).value.roleMapping));
  }

  lemma MayImportIff(row: Option<Config>)
    ensures Decoded(row) == DEFAULT_CONFIG <==> MayImport(row)
    ensures Shows(row, Decoded(row))
  {}

  /** What a Configure does, for any row and any entries. It needs entries that load, a database URL
      and a readable row. When the row is set already, or the host sends nothing but secrets, the
      row stays and is what runs. Otherwise what was loaded is written, without its secrets, and is
      what runs, unless the database fails at the write or at the read back. */
  lemma ConfigureExactly(s: State, op: Op)
    requires op.Configure?
    ensures var loaded, after := Loaded(op.entries, op.urlOk), Step(s, op);
            if loaded.None? || loaded.value.databaseUrl == "" || op.fault.AtRead? then !Accepted(s, op) && after == s
            else
              var cfg := loaded.value;
              if !MayImport(s.row) || Untouched(cfg) then
                && Accepted(s, op) && after.row == s.row && Shows(s.row, after.live) && Clients(after) && after.ready
              else if (cfg.serverUrl != "" && !op.urlOkAgain) || op.fault.AtWrite? then
                !Accepted(s, op) && after == s
              else if op.fault.AtReread? then
                !Accepted(s, op) && after == s.(row := Some(WithoutSecrets(cfg)))
              else
                && Accepted(s, op) && after.row == Some(WithoutSecrets(cfg)) && after.live == WithoutSecrets(cfg)
                && Clients(after) && after.ready
  {
    if Loaded(op.entries, op.urlOk).Some? {
      LoadedIsWritten(op.entries, op.urlOk, op.urlOkAgain);
      MayImportIff(s.row);
    }
  }
}
