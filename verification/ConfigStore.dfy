/** The life of the configuration: the stored row, the live configuration, the host's Configure
    and the admin page's PATCH. */
module ConfigStore {
  import opened Basics
  import opened JsonValues
  import opened Text
  import opened ProductIds
  import opened Settings
  import opened Configuration

  /** Where the database fails: at the first read (or before), at the write, at the read back. */
  datatype Fault = NoFault | AtRead | AtWrite | AtReread

  // ------------------------------------------------------------------- the store

  function Stripped(cfg: Config): Config {
    cfg.(databaseUrl := "", clientSecret := "", adminApiSecret := "")
  }

  function Defaulted(cfg: Config): Config {
    if cfg.discordField == "" then cfg.(discordField := DISCORD_FIELD) else cfg
  }

  predicate NoSecrets(cfg: Config) {
    cfg.databaseUrl == "" && cfg.clientSecret == "" && cfg.adminApiSecret == ""
  }

  /** What GetConfig makes of the row; the initial row is None, an empty JSON object. */
  function Decoded(row: Option<Config>): Config {
    if row.None? then DEFAULT_CONFIG else Defaulted(row.value)
  }

  /** What UpdateConfig writes. */
  function Written(cfg: Config, urlOk: bool): Config {
    Defaulted(Stripped(cfg)).(roleMapping := Checked(cfg, urlOk))
  }

  predicate Writes(cfg: Config, urlOk: bool, fault: Fault) {
    ProblemIn(cfg, urlOk).None? && !fault.AtWrite?
  }

  function Updated(row: Option<Config>, cfg: Config, urlOk: bool, fault: Fault): Option<Config> {
    if Writes(cfg, urlOk, fault) then Some(Written(cfg, urlOk)) else row
  }

  /** An import writes only over the default configuration, and only when there is a difference. */
  predicate Imports(row: Option<Config>, legacy: Config) {
    Decoded(row) == DEFAULT_CONFIG && Defaulted(Stripped(legacy)) != DEFAULT_CONFIG
  }

  /** The row after ImportLegacyConfig. */
  function ImportedRow(row: Option<Config>, legacy: Config, urlOk: bool, fault: Fault): Option<Config> {
    if fault.AtRead? || !Imports(row, legacy) then row
    else Updated(row, Defaulted(Stripped(legacy)), urlOk, fault)
  }

  /** Its result. */
  function Imported(row: Option<Config>, legacy: Config, urlOk: bool, fault: Fault): Option<Config> {
    if fault.AtRead? then None
    else if !Imports(row, legacy) then Some(Decoded(row))
    else if !Writes(Defaulted(Stripped(legacy)), urlOk, fault) || fault.AtReread? then None
    else Some(Decoded(ImportedRow(row, legacy, urlOk, fault)))
  }

  /** Importing twice is importing once, whatever the second URL check says. */
  lemma ImportIsIdempotent(row: Option<Config>, legacy: Config, urlOk: bool, urlOkAgain: bool)
    requires Imported(row, legacy, urlOk, NoFault).Some?
    ensures var once := ImportedRow(row, legacy, urlOk, NoFault);
            && ImportedRow(once, legacy, urlOkAgain, NoFault) == once
            && Imported(once, legacy, urlOkAgain, NoFault) == Imported(row, legacy, urlOk, NoFault)
  {}

  // ----------------------------------------------------------------- the machine

  /** A PATCH body: a field that is absent is None. */
  datatype PatchBody = PatchBody(
    serverUrl: Option<string>,
    clientId: Option<string>,
    displayName: Option<string>,
    iconUrlPath: Option<string>,
    allowedIds: Option<seq<int>>,
    adminApiId: Option<string>,
    fetchDiscordId: Option<bool>,
    discordField: Option<string>,
    roleMapping: Option<seq<RoleMap>>,
    linkByEmail: Option<bool>)

  /** `hasApi`: admin API clients are set up. `ready`: a Configure has succeeded, so that the store
      and the admin routes exist. */
  datatype State = State(row: Option<Config>, live: Config, hasApi: bool, ready: bool)

  const INITIAL := State(None, ZERO, false, false)

  datatype Op =
    | Configure(entries: seq<Entry>, urlOk: bool, urlOkAgain: bool, fault: Fault)
    | Patch(body: PatchBody, urlOk: bool, fault: Fault)

  predicate NeedsApi(cfg: Config) { cfg.adminApiId != "" && cfg.adminApiSecret != "" }

  function Trimmed(given: Option<string>, otherwise: string): string {
    if given.Some? then TrimSpace(given.value) else otherwise
  }

  function MergedTexts(live: Config, body: PatchBody): Config {
    var url := body.serverUrl;
    live.(serverUrl := if url.Some? then TrimRight(IsSlash, TrimSpace(url.value)) else live.serverUrl,
          clientId := Trimmed(body.clientId, live.clientId),
          displayName := Trimmed(body.displayName, live.displayName),
          iconUrlPath := Trimmed(body.iconUrlPath, live.iconUrlPath),
          adminApiId := Trimmed(body.adminApiId, live.adminApiId),
          discordField := Trimmed(body.discordField, live.discordField))
  }

  /** The live configuration with the request's fields. */
  function Merged(live: Config, body: PatchBody): Config {
    MergedTexts(live, body).(
      databaseUrl := "",
      allowed := if body.allowedIds.Some? then Some(ItoaAll(body.allowedIds.value)) else live.allowed,
      fetchDiscordId := if body.fetchDiscordId.Some? then body.fetchDiscordId.value else live.fetchDiscordId,
      roleMapping := if body.roleMapping.Some? then body.roleMapping else live.roleMapping,
      linkByEmail := if body.linkByEmail.Some? then body.linkByEmail.value else live.linkByEmail)
  }

  predicate Adopts(s: State, cfg: Config, urlOk: bool, fault: Fault) {
    cfg.databaseUrl != "" && Imported(s.row, cfg, urlOk, fault).Some?
  }

  /** The callback of Configure: import what was loaded and run on the result. */
  function Adopted(s: State, cfg: Config, urlOk: bool, fault: Fault): State {
    if cfg.databaseUrl == "" then s
    else
      var row := ImportedRow(s.row, cfg, urlOk, fault);
      var effective := Imported(s.row, cfg, urlOk, fault);
      if effective.None? then s.(row := row)
      else State(row, effective.value, NeedsApi(effective.value), true)
  }

  predicate Accepted(s: State, op: Op) {
    match op
    case Configure(entries, urlOk, urlOkAgain, fault) =>
      var cfg := Loaded(entries, urlOk);
      cfg.Some? && Adopts(s, cfg.value, urlOkAgain, fault)
    case Patch(body, urlOk, fault) =>
      s.ready && Writes(Merged(s.live, body), urlOk, fault)
  }

  function Step(s: State, op: Op): State {
    match op
    case Configure(entries, urlOk, urlOkAgain, fault) =>
      var cfg := Loaded(entries, urlOk);
      if cfg.None? then s else Adopted(s, cfg.value, urlOkAgain, fault)
    case Patch(body, urlOk, fault) =>
      if !s.ready then s
      else
        var next := Merged(s.live, body);
        var checked := next.(roleMapping := Checked(next, urlOk));
        if Writes(next, urlOk, fault) then State(Updated(s.row, next, urlOk, fault), checked, NeedsApi(checked), true)
        else if body.roleMapping.Some? then s
        else s.(live := s.live.(roleMapping := checked.roleMapping))  // the check works on the live slice
  }

  function Run(s: State, ops: seq<Op>): State
    decreases |ops|
  {
    if ops == [] then s else Run(Step(s, ops[0]), ops[1..])
  }

  // -------------------------------------------------------------- what every run keeps

  predicate Sound(cfg: Config) {
    NoSecrets(cfg) && ProperMapping(Items(cfg.roleMapping)) && AllDecimal(Items(cfg.allowed))
  }

  predicate SoundRow(row: Option<Config>) { row.Some? ==> Sound(row.value) && row.value.discordField != "" }

  predicate Inv(s: State) { Sound(s.live) && !s.hasApi && SoundRow(s.row) }

  lemma CanonicalIsDecimal(ids: seq<string>)
    requires AllCanonical(ids)
    ensures AllDecimal(ids)
  {
    forall i | 0 <= i < |ids| ensures Decimal(ids[i]) { assert Canonical(ids[i]); }
  }

  lemma PrintedIsDecimal(ids: seq<int>)
    requires forall i :: 0 <= i < |ids| ==> IsInt64(ids[i])
    ensures AllDecimal(ItoaAll(ids))
  {
    forall i | 0 <= i < |ids| ensures Decimal(ItoaAll(ids)[i]) { AtoiItoa(ids[i]); }
  }

  lemma CheckedIsProper(cfg: Config, urlOk: bool)
    requires ProblemIn(cfg, urlOk).None?
    ensures ProperMapping(Items(Checked(cfg, urlOk)))
  {
    RewrittenIsProper(Items(cfg.roleMapping));
  }

  /** Go ints are 64 bits wide. */
  predicate Int64Body(op: Op) {
    op.Patch? && op.body.allowedIds.Some? ==>
      forall i :: 0 <= i < |op.body.allowedIds.value| ==> IsInt64(op.body.allowedIds.value[i])
  }

  predicate Int64Bodies(ops: seq<Op>) { forall i {:trigger Int64Body(ops[i])} :: 0 <= i < |ops| ==> Int64Body(ops[i]) }

  lemma WrittenIsSound(cfg: Config, urlOk: bool)
    requires ProblemIn(cfg, urlOk).None? && AllDecimal(Items(cfg.allowed))
    ensures SoundRow(Some(Written(cfg, urlOk)))
  {
    CheckedIsProper(cfg, urlOk);
  }

  lemma ImportKeeps(row: Option<Config>, legacy: Config, urlOk: bool, fault: Fault)
    requires SoundRow(row) && AllDecimal(Items(legacy.allowed))
    ensures SoundRow(ImportedRow(row, legacy, urlOk, fault))
    ensures var effective := Imported(row, legacy, urlOk, fault); effective.Some? ==> Sound(effective.value)
  {
    var cfg := Defaulted(Stripped(legacy));
    if Writes(cfg, urlOk, fault) { WrittenIsSound(cfg, urlOk); }
  }

  lemma ConfigureKeeps(s: State, op: Op)
    requires Inv(s) && op.Configure?
    ensures Inv(Step(s, op))
  {
    var cfg := Loaded(op.entries, op.urlOk);
    if cfg.Some? {
      LoadedIsProper(op.entries, op.urlOk);
      CanonicalIsDecimal(Items(cfg.value.allowed));
      ImportKeeps(s.row, cfg.value, op.urlOkAgain, op.fault);
    }
  }

  lemma MergedIsDecimal(live: Config, op: Op)
    requires Sound(live) && op.Patch? && Int64Body(op)
    ensures NoSecrets(Merged(live, op.body)) && AllDecimal(Items(Merged(live, op.body).allowed))
  {
    if op.body.allowedIds.Some? { PrintedIsDecimal(op.body.allowedIds.value); }
  }

  /** The check does not change a live slice that it shares, whatever it finds. */
  lemma SharedSliceIsFixed(live: Config, body: PatchBody, urlOk: bool)
    requires Sound(live) && body.roleMapping.None?
    ensures Checked(Merged(live, body), urlOk) == live.roleMapping
  {
    ProperIsFixed(Items(live.roleMapping));
  }

  lemma PatchKeeps(s: State, op: Op)
    requires Inv(s) && op.Patch? && Int64Body(op)
    ensures Inv(Step(s, op))
  {
    var next := Merged(s.live, op.body);
    MergedIsDecimal(s.live, op);
    if op.body.roleMapping.None? { SharedSliceIsFixed(s.live, op.body, op.urlOk); }
    if ProblemIn(next, op.urlOk).None? {
      WrittenIsSound(next, op.urlOk);
      CheckedIsProper(next, op.urlOk);
    }
  }

  lemma {:induction false} RunKeeps(s: State, ops: seq<Op>)
    requires Inv(s) && Int64Bodies(ops)
    ensures Inv(Run(s, ops))
    decreases |ops|
  {
    if ops != [] {
      assert Int64Body(ops[0]);
      assert forall i :: 0 <= i < |ops| - 1 ==> ops[1..][i] == ops[i + 1];
      if ops[0].Configure? { ConfigureKeeps(s, ops[0]); } else { PatchKeeps(s, ops[0]); }
      RunKeeps(Step(s, ops[0]), ops[1..]);
    }
  }

  /** In every run of Configure and PATCH from the initial row, under any database faults: neither
      the row nor the live configuration ever holds a host secret, so that no admin API client is
      ever set up; both mappings are always canonical positive ids with a known role; and the
      allowed ids are always decimal text. */
  lemma EveryRunIsSound(ops: seq<Op>)
    requires Int64Bodies(ops)
    ensures Inv(Run(INITIAL, ops))
  {
    RunKeeps(INITIAL, ops);
  }

  /** A PATCH is all or nothing. Accepted, it makes the row the live configuration with the Discord
      field defaulted, so that both mappings are the same: the check wrote through the shared
      slice. Rejected, it changes nothing at all. */
  lemma PatchIsAllOrNothing(s: State, op: Op)
    requires Inv(s) && op.Patch? && Int64Body(op)
    ensures var after := Step(s, op);
            if Accepted(s, op)
            then && after.row == Some(Defaulted(after.live)) && after.row.value.roleMapping == after.live.roleMapping
                 && after.live == Merged(s.live, op.body).(roleMapping := after.live.roleMapping)
            else after == s
  {
    MergedIsDecimal(s.live, op);
    if op.body.roleMapping.None? { SharedSliceIsFixed(s.live, op.body, op.urlOk); }
  }

  /** Sending an accepted PATCH again changes nothing. */
  lemma PatchIsIdempotent(s: State, op: Op)
    requires Inv(s) && op.Patch? && Int64Body(op) && Accepted(s, op)
    ensures Accepted(Step(s, op), op) && Step(Step(s, op), op) == Step(s, op)
  {
    PatchKeeps(s, op);
    PatchIsAllOrNothing(s, op);
    var live := Step(s, op).live;
    MergedIsDecimal(s.live, op);
    if op.body.roleMapping.None? { SharedSliceIsFixed(s.live, op.body, op.urlOk); }
    assert Merged(live, op.body).(roleMapping := None) == live.(roleMapping := None);
    ProperIsFixed(Items(live.roleMapping));
  }

  /** The ids of an accepted PATCH are the ids the summary then reports. */
  lemma SummaryShowsThePatch(s: State, op: Op)
    requires op.Patch? && Int64Body(op) && op.body.allowedIds.Some? && Accepted(s, op)
    ensures AtoiAll(Items(Step(s, op).live.allowed)) == op.body.allowedIds.value
  {
    SummaryUndoesStore(op.body.allowedIds.value);
  }

  // ------------------------------------------------------------- live and stored

  /** Once set up, what the store would load is the live configuration, up to the default. */
  predicate InSync(s: State) { s.ready ==> Decoded(s.row) == Defaulted(s.live) }

  /** The one way to part them: a Configure that imports, writes the row, and fails to read it back. */
  predicate Splits(s: State, op: Op) {
    && s.ready && op.Configure? && op.fault.AtReread?
    && Loaded(op.entries, op.urlOk).Some?
    && var cfg := Loaded(op.entries, op.urlOk).value;
       && cfg.databaseUrl != "" && Imports(s.row, cfg)
       && Writes(Defaulted(Stripped(cfg)), op.urlOkAgain, op.fault)
  }

  /** A row that is not the live configuration is not the default either, so that no Configure
      imports over it. */
  predicate SplitOnlyByImport(s: State) { InSync(s) || Decoded(s.row) != DEFAULT_CONFIG }

  lemma AcceptedIsInSync(s: State, op: Op)
    requires Inv(s) && Int64Body(op) && Accepted(s, op)
    ensures InSync(Step(s, op))
  {
    if op.Patch? { PatchIsAllOrNothing(s, op); }
  }

  lemma RefusedConfigure(s: State, op: Op)
    requires op.Configure? && !Accepted(s, op) && SplitOnlyByImport(s)
    ensures InSync(Step(s, op)) <==> InSync(s) && !Splits(s, op)
    ensures SplitOnlyByImport(Step(s, op))
  {
    var cfg := Loaded(op.entries, op.urlOk);
    if Splits(s, op) {
      WrittenDiffers(Defaulted(Stripped(cfg.value)), op.urlOkAgain);
    }
  }

  /** What an import writes is not what it replaces. */
  lemma WrittenDiffers(legacy: Config, urlOk: bool)
    requires Defaulted(Stripped(legacy)) == legacy && legacy != DEFAULT_CONFIG
    ensures Decoded(Some(Written(legacy, urlOk))) != DEFAULT_CONFIG
  {}

  /** A step ends with what is stored running exactly when it is accepted, or when that was so
      before and the step does not split them. */
  lemma StepSyncIff(s: State, op: Op)
    requires Inv(s) && Int64Body(op) && SplitOnlyByImport(s)
    ensures InSync(Step(s, op)) <==> Accepted(s, op) || (InSync(s) && !Splits(s, op))
    ensures SplitOnlyByImport(Step(s, op))
  {
    if Accepted(s, op) {
      AcceptedIsInSync(s, op);
    } else if op.Configure? {
      RefusedConfigure(s, op);
    } else {
      PatchIsAllOrNothing(s, op);
    }
  }

  /** Whether the last step of the run that was accepted or split them was accepted; `before` when
      there is none. */
  predicate LastStepSyncs(s: State, ops: seq<Op>, before: bool)
    decreases |ops|
  {
    if ops == [] then before
    else LastStepSyncs(Step(s, ops[0]), ops[1..], Accepted(s, ops[0]) || (before && !Splits(s, ops[0])))
  }

  lemma {:induction false} RunSyncIff(s: State, ops: seq<Op>)
    requires Inv(s) && Int64Bodies(ops) && SplitOnlyByImport(s)
    ensures InSync(Run(s, ops)) <==> LastStepSyncs(s, ops, InSync(s))
    decreases |ops|
  {
    if ops != [] {
      assert Int64Body(ops[0]);
      assert forall i :: 0 <= i < |ops| - 1 ==> ops[1..][i] == ops[i + 1];
      if ops[0].Configure? { ConfigureKeeps(s, ops[0]); } else { PatchKeeps(s, ops[0]); }
      StepSyncIff(s, ops[0]);
      RunSyncIff(Step(s, ops[0]), ops[1..]);
    }
  }

  /** In every run, under any database faults: a configured plugin runs on what it has stored, up to
      the Discord default, exactly when no import whose read back failed has gone without an accepted
      step since; and then the two are equal exactly when the live Discord field is not empty. */
  lemma LiveIsStoredIff(ops: seq<Op>)
    requires Int64Bodies(ops)
    ensures var s := Run(INITIAL, ops);
            && (InSync(s) <==> LastStepSyncs(INITIAL, ops, true))
            && (s.ready && InSync(s) ==> (Decoded(s.row) == s.live <==> s.live.discordField != ""))
  {
    RunSyncIff(INITIAL, ops);
  }

  /** In particular they are never parted while every read back succeeds. */
  lemma {:induction false} WithoutFailedReadBacks(s: State, ops: seq<Op>)
    requires forall i :: 0 <= i < |ops| ==> !ops[i].fault.AtReread?
    ensures LastStepSyncs(s, ops, true)
    decreases |ops|
  {
    if ops != [] {
      assert forall i :: 0 <= i < |ops| - 1 ==> ops[1..][i] == ops[i + 1];
      WithoutFailedReadBacks(Step(s, ops[0]), ops[1..]);
    }
  }

  /** The host's entries for a database URL and a client id. */
  function Entries(clientId: string): seq<Entry> {
    [Entry(DatabaseUrl, Some(Some(Str("postgres://db"))), None), Entry(ClientId, Some(Some(Str(clientId))), None)]
  }

  lemma EntriesParse(clientId: string)
    ensures Loaded(Entries(clientId), true)
         == Some(DEFAULT_CONFIG.(databaseUrl := "postgres://db", clientId := clientId))
  {
    var es := Entries(clientId);
    assert es[..1] == [es[0]] && es[..1][..0] == [];
    assert Parsed(es[..1]) == Ok(DEFAULT_CONFIG.(databaseUrl := "postgres://db"));
    assert Parsed(es) == Ok(DEFAULT_CONFIG.(databaseUrl := "postgres://db", clientId := clientId));
    assert Items<RoleMap>(None) == [];
  }

  /** Such a run: the second import is stored but is not live. */
  lemma FailedReadBackSplitsThem()
    ensures var ops := [Configure(Entries(""), true, true, NoFault), Configure(Entries("c"), true, true, AtReread)];
            var s := Run(INITIAL, ops);
            s.ready && Decoded(s.row) != Defaulted(s.live)
  {
    var ops := [Configure(Entries(""), true, true, NoFault), Configure(Entries("c"), true, true, AtReread)];
    EntriesParse("");
    EntriesParse("c");
    var s1 := Step(INITIAL, ops[0]);
    assert s1 == State(None, DEFAULT_CONFIG, false, true);
    var s2 := Step(s1, ops[1]);
    assert s2.row == Some(DEFAULT_CONFIG.(clientId := "c")) && s2.live == DEFAULT_CONFIG && s2.ready;
    assert ops[1..] == [ops[1]] && ops[1..][1..] == [];
    assert Run(INITIAL, ops) == Run(s1, ops[1..]) == Run(s2, []) == s2;
  }

  // ---------------------------------------------------------- Configure after PATCH

  predicate AllConfigure(ops: seq<Op>) { forall i :: 0 <= i < |ops| ==> ops[i].Configure? }

  /** An accepted Configure runs on the row, whatever the host sent. */
  lemma ConfigureRunsOnTheRow(s: State, op: Op)
    requires op.Configure? && Accepted(s, op)
    ensures Step(s, op).live == Decoded(Step(s, op).row)
  {}

  /** Once the row is not the default, no sequence of Configure calls changes it, and each accepted
      one makes it the live configuration. */
  lemma {:induction false} ConfigureNeverOverwrites(s: State, ops: seq<Op>)
    requires Decoded(s.row) != DEFAULT_CONFIG && AllConfigure(ops)
    ensures Run(s, ops).row == s.row
    ensures Run(s, ops).live == s.live || Run(s, ops).live == Decoded(s.row)
    decreases |ops|
  {
    if ops != [] {
      assert AllConfigure(ops[1..]);
      ConfigureNeverOverwrites(Step(s, ops[0]), ops[1..]);
    }
  }

  /** A PATCH that sets either list pins the row, even to the empty list: an empty slice is not the
      default's nil. */
  lemma SettingAListPinsTheRow(s: State, op: Op, later: seq<Op>)
    requires op.Patch? && Accepted(s, op) && (op.body.allowedIds.Some? || op.body.roleMapping.Some?)
    requires AllConfigure(later)
    ensures Run(Step(s, op), later).row == Step(s, op).row
  {
    assert Decoded(Step(s, op).row) != DEFAULT_CONFIG;
    ConfigureNeverOverwrites(Step(s, op), later);
  }

  /** And the configuration then keeps the lists it was given. */
  lemma AcceptedListIsPinned(s: State, op: Op, later: seq<Op>)
    requires Inv(s) && op.Patch? && Int64Body(op) && op.body.allowedIds.Some? && AllConfigure(later)
    ensures Accepted(s, op) ==> Run(Step(s, op), later).live.allowed == Step(s, op).live.allowed
  {
    if Accepted(s, op) {
      PatchIsAllOrNothing(s, op);
      assert Decoded(Step(s, op).row) != DEFAULT_CONFIG;
      ConfigureNeverOverwrites(Step(s, op), later);
    }
  }

  // ------------------------------------------------------------------ the program

  /** The store and the pointers main.go keeps. The live configuration is a struct whose mapping is
      a slice on the heap; copies of the struct share it. */
  class ConfigHost {
    var row: Option<Config>
    var settings: Config
    var mapping: array?<RoleMap>
    var hasApi: bool
    var ready: bool

    ghost function Live(): Config
      reads this, mapping
    {
      settings.(roleMapping := View(mapping))
    }

    ghost function Now(): State
      reads this, mapping
    {
      State(row, Live(), hasApi, ready)
    }

    constructor ()
      ensures Now() == INITIAL && mapping == null
    {
      row, settings, mapping, hasApi, ready := None, ZERO, null, false, false;
    }

    method GetConfig() returns (cfg: Config, m: array?<RoleMap>)
      ensures cfg.(roleMapping := View(m)) == Decoded(row) && (m != null ==> fresh(m))
    {
      cfg := DEFAULT_CONFIG;
      if row.Some? {
        cfg := row.value;
      }
      if cfg.discordField == "" {
        cfg := cfg.(discordField := DISCORD_FIELD);
      }
      m := NewSlice(cfg.roleMapping);
    }

    /** Blanks the host's secrets and fills in the Discord field. */
    method Prepare(given: Config) returns (cfg: Config)
      ensures cfg == Defaulted(Stripped(given))
    {
      cfg := given.(databaseUrl := "", clientSecret := "", adminApiSecret := "");
      if cfg.discordField == "" {
        cfg := cfg.(discordField := DISCORD_FIELD);
      }
    }

    method UpdateConfig(given: Config, m: array?<RoleMap>, urlOk: bool, fault: Fault) returns (ok: bool)
      modifies this`row, m
      ensures var cfg := given.(roleMapping := old(View(m)));
              && ok == Writes(cfg, urlOk, fault)
              && row == Updated(old(row), cfg, urlOk, fault)
              && View(m) == Checked(cfg, urlOk)
    {
      var cfg := Prepare(given);
      var problem := ValidateConfig(cfg, m, urlOk);
      if problem.Some? || fault.AtWrite? {
        return false;
      }
      row := Some(cfg.(roleMapping := if m == null then None else Some(m[..])));
      ok := true;
    }

    /** reflect.DeepEqual: a nil slice and an empty one differ. */
    method DeepEqual(a: Config, m: array?<RoleMap>, b: Config) returns (same: bool)
      ensures same <==> a.(roleMapping := View(m)) == b
    {
      same := a.(roleMapping := if m == null then None else Some(m[..])) == b;
    }

    method StoreAndReload(given: Config, m: array?<RoleMap>, urlOk: bool, fault: Fault)
      returns (effective: Option<Config>, em: array?<RoleMap>)
      modifies this`row, m
      ensures em != null ==> fresh(em)
      ensures var cfg := given.(roleMapping := old(View(m)));
              && row == Updated(old(row), cfg, urlOk, fault)
              && (effective.Some? <==> Writes(cfg, urlOk, fault) && !fault.AtReread?)
              && (effective.Some? ==> effective.value.(roleMapping := View(em)) == Decoded(row))
    {
      var ok := UpdateConfig(given, m, urlOk, fault);
      if !ok || fault.AtReread? {
        return None, null;
      }
      var current;
      current, em := GetConfig();
      effective := Some(current);
    }

    method ImportLegacyConfig(given: Config, m: array?<RoleMap>, urlOk: bool, fault: Fault)
      returns (effective: Option<Config>, em: array?<RoleMap>)
      modifies this`row, m
      ensures em != null ==> fresh(em)
      ensures var legacy := given.(roleMapping := old(View(m)));
              && row == ImportedRow(old(row), legacy, urlOk, fault)
              && (match Imported(old(row), legacy, urlOk, fault)
                  case None => effective.None?
                  case Some(c) => effective.Some? && effective.value.(roleMapping := View(em)) == c)
    {
      if fault.AtRead? {
        return None, null;
      }
      var current, cm := GetConfig();
      var untouched := DeepEqual(current, cm, DEFAULT_CONFIG);
      if !untouched {
        return Some(current), cm;
      }
      var legacy := Prepare(given);
      var same := DeepEqual(legacy, m, DEFAULT_CONFIG);
      if same {
        return Some(current), cm;
      }
      effective, em := StoreAndReload(legacy, m, urlOk, fault);
    }

    /** The ids that HandleConfigSummary reports. */
    method Summary() returns (ids: seq<int>)
      ensures ids == AtoiAll(Items(Live().allowed))
    {
      ids := SummaryIds(Items(settings.allowed));
    }

    method ApplyConfig(cfg: Config, m: array?<RoleMap>)
      modifies this`settings, this`mapping, this`hasApi
      ensures settings == cfg && mapping == m && hasApi == NeedsApi(cfg)
    {
      settings, mapping := cfg, m;
      hasApi := cfg.adminApiId != "" && cfg.adminApiSecret != "";
    }

    /** The callback that main.go gives to the runtime server. */
    method Adopt(cfg: Config, m: array?<RoleMap>, urlOk: bool, fault: Fault) returns (ok: bool)
      requires m == null || m != mapping
      modifies this, m
      ensures var legacy := cfg.(roleMapping := old(View(m)));
              Now() == Adopted(old(Now()), legacy, urlOk, fault) && ok == Adopts(old(Now()), legacy, urlOk, fault)
    {
      if cfg.databaseUrl == "" {
        return false;
      }
      var effective, em := ImportLegacyConfig(cfg, m, urlOk, fault);
      if effective.None? {
        return false;
      }
      ApplyConfig(effective.value, em);
      ready := true;
      ok := true;
    }

    /** The host's Configure: loadConfig and the callback. */
    method Configure(entries: seq<Entry>, urlOk: bool, urlOkAgain: bool, fault: Fault) returns (ok: bool)
      modifies this
      ensures var op := Op.Configure(entries, urlOk, urlOkAgain, fault);
              Now() == Step(old(Now()), op) && ok == Accepted(old(Now()), op)
    {
      var cfg, m := LoadConfig(entries, urlOk);
      if cfg.None? {
        return false;
      }
      ok := Adopt(cfg.value, m, urlOkAgain, fault);
    }

    method MergeTexts(given: Config, body: PatchBody) returns (cur: Config)
      ensures cur == MergedTexts(given, body)
    {
      cur := given;
      if body.serverUrl.Some? {
        cur := cur.(serverUrl := TrimRight(IsSlash, TrimSpace(body.serverUrl.value)));
      }
      if body.clientId.Some? {
        cur := cur.(clientId := TrimSpace(body.clientId.value));
      }
      if body.displayName.Some? {
        cur := cur.(displayName := TrimSpace(body.displayName.value));
      }
      if body.iconUrlPath.Some? {
        cur := cur.(iconUrlPath := TrimSpace(body.iconUrlPath.value));
      }
      if body.adminApiId.Some? {
        cur := cur.(adminApiId := TrimSpace(body.adminApiId.value));
      }
      if body.discordField.Some? {
        cur := cur.(discordField := TrimSpace(body.discordField.value));
      }
    }

    method MergeValues(given: Config, body: PatchBody) returns (cur: Config)
      ensures cur == Merged(given, body).(roleMapping := given.roleMapping)
    {
      cur := MergeTexts(given, body);
      if body.allowedIds.Some? {
        var allowed := StoreIds(body.allowedIds.value);
        cur := cur.(allowed := Some(allowed));
      }
      if body.fetchDiscordId.Some? {
        cur := cur.(fetchDiscordId := body.fetchDiscordId.value);
      }
      if body.linkByEmail.Some? {
        cur := cur.(linkByEmail := body.linkByEmail.value);
      }
      cur := cur.(databaseUrl := "");
    }

    /** The request's fields over a copy of the live struct; without a mapping in the request the
        copy shares the live slice. */
    method Merge(body: PatchBody) returns (cur: Config, m: array?<RoleMap>)
      ensures cur.(roleMapping := View(m)) == Merged(Live(), body)
      ensures if body.roleMapping.None? then m == mapping else m != null && fresh(m)
    {
      cur := MergeValues(settings, body);
      m := mapping;
      if body.roleMapping.Some? {
        m := NewSlice(body.roleMapping);
      }
    }

    /** HandleUpdateConfig and UpdateConfigFn. */
    method Patch(body: PatchBody, urlOk: bool, fault: Fault) returns (ok: bool)
      modifies this, mapping
      ensures var op := Op.Patch(body, urlOk, fault);
              Now() == Step(old(Now()), op) && ok == Accepted(old(Now()), op)
    {
      if !ready {
        return false;
      }
      var cur, m := Merge(body);
      ok := UpdateConfig(cur, m, urlOk, fault);
      if ok {
        ApplyConfig(cur, m);
      }
    }
  }
}
