/** Which entry of the host decides which setting, said key by key. */
module ConfigKeys {
  import opened Basics
  import opened JsonValues
  import opened Text
  import opened ProductIds
  import opened Settings
  import opened Configuration

  // ------------------------------------------------------------ what an entry says

  /** The last entry of a key that has a value. */
  function LastEntry(entries: seq<Entry>, key: Key): Option<Entry> {
    if entries == [] then None
    else
      var e := entries[|entries| - 1];
      if e.key == key && e.value.Some? then Some(e) else LastEntry(entries[..|entries| - 1], key)
  }

  /** The text of an entry; no entry, or one that holds something else, says "". */
  function Says(e: Option<Entry>): string {
    match e
    case Some(Entry(_, Some(Some(Str(s))), _)) => s
    case _ => ""
  }

  function LastText(entries: seq<Entry>, key: Key): string { Says(LastEntry(entries, key)) }

  predicate LastIsTrue(entries: seq<Entry>, key: Key) {
    var e := LastEntry(entries, key);
    e.Some? && e.value.value == Some(Some(Bool(true)))
  }

  /** The last text of a key that is not empty. */
  function LastNonEmpty(entries: seq<Entry>, key: Key, otherwise: string): string {
    if entries == [] then otherwise
    else
      var e := entries[|entries| - 1];
      if e.key == key && Says(Some(e)) != "" then Says(Some(e))
      else LastNonEmpty(entries[..|entries| - 1], key, otherwise)
  }

  /** The allowed ids of an entry. */
  function IdsIn(e: Entry): seq<string> {
    if e.key.AllowedProducts? && e.value.Some? && AllowedIds(Says(Some(e))).Ok? then AllowedIds(Says(Some(e))).value
    else []
  }

  /** The allowed ids of all entries, in order. */
  function SentIds(entries: seq<Entry>): seq<string> {
    if entries == [] then [] else SentIds(entries[..|entries| - 1]) + IdsIn(entries[|entries| - 1])
  }

  predicate ReadsAs(item: Json, m: RoleMap) {
    item.Obj? && ShowsText(item.fields, "product_id", m.productId) && ShowsText(item.fields, "role", m.role)
  }

  predicate DecodesAs(item: Json, m: RoleMap) {
    || (item.Null? && m == RoleMap("", ""))
    || (item.Obj? && HasText(item.fields, "product_id", m.productId) && HasText(item.fields, "role", m.role))
  }

  predicate AllRead(items: seq<Json>, ms: seq<RoleMap>) {
    |ms| == |items| && forall i {:trigger ReadsAs(items[i], ms[i])} :: 0 <= i < |ms| ==> ReadsAs(items[i], ms[i])
  }

  predicate AllDecode(items: seq<Json>, ms: seq<RoleMap>) {
    |ms| == |items| && forall i {:trigger DecodesAs(items[i], ms[i])} :: 0 <= i < |ms| ==> DecodesAs(items[i], ms[i])
  }

  /** The mapping an entry gives: a native array of objects, or the text of a JSON array; anything
      else, also a blank text or null, gives none. */
  predicate Gives(v: Option<Json>, document: Option<Json>, ms: Slice<RoleMap>) {
    match v
    case Some(Arr(items)) => ms.Some? && AllRead(items, ms.value)
    case Some(Str(s)) =>
      if TrimSpace(s) == "" then ms.None?
      else document.Some? && if ms.None? then document.value.Null?
                             else document.value.Arr? && AllDecode(document.value.items, ms.value)
    case _ => ms.None?
  }

  lemma ReadsIff(item: Json, m: RoleMap)
    ensures NativeEntry(item) == Ok([m]) <==> ReadsAs(item, m)
    ensures DecodedEntry(item) == Ok([m]) <==> DecodesAs(item, m)
  {
    if item.Obj? {
      TextIff(item.fields, "product_id", m.productId);
      TextIff(item.fields, "role", m.role);
    }
  }

  lemma NativeIff(items: seq<Json>, ms: seq<RoleMap>)
    ensures Collect(NativeEntry, items) == Ok(ms) <==> AllRead(items, ms)
  {
    CollectIff(NativeEntry, items, ms);
    if |ms| == |items| {
      forall i | 0 <= i < |ms| ensures NativeEntry(items[i]) == Ok([ms[i]]) <==> ReadsAs(items[i], ms[i]) {
        ReadsIff(items[i], ms[i]);
      }
    }
  }

  lemma DecodedIff(items: seq<Json>, ms: seq<RoleMap>)
    ensures Collect(DecodedEntry, items) == Ok(ms) <==> AllDecode(items, ms)
  {
    CollectIff(DecodedEntry, items, ms);
    if |ms| == |items| {
      forall i | 0 <= i < |ms| ensures DecodedEntry(items[i]) == Ok([ms[i]]) <==> DecodesAs(items[i], ms[i]) {
        ReadsIff(items[i], ms[i]);
      }
    }
  }

  /** The mapping an entry is parsed to is the one it gives; when it gives none, that is an error. */
  lemma GivesIff(v: Option<Json>, document: Option<Json>, ms: Slice<RoleMap>)
    ensures ParseMapping(v, document) == Ok(ms) <==> Gives(v, document, ms)
  {
    if ms.Some? {
      if v.Some? && v.value.Arr? { NativeIff(v.value.items, ms.value); }
      if document.Some? && document.value.Arr? { DecodedIff(document.value.items, ms.value); }
    }
  }

  // ------------------------------------------------------------ the whole configuration

  /** Texts and flags: what the last entry of the key says. */
  predicate TextsAsSent(entries: seq<Entry>, cfg: Config) {
    && cfg.databaseUrl == LastText(entries, DatabaseUrl)
    && cfg.serverUrl == TrimRight(IsSlash, LastText(entries, ServerUrl))
    && cfg.clientId == LastText(entries, ClientId)
    && cfg.clientSecret == LastText(entries, ClientSecret)
    && cfg.displayName == LastText(entries, DisplayName)
    && cfg.iconUrlPath == TrimSpace(LastText(entries, IconUrlPath))
    && cfg.adminApiId == LastText(entries, AdminApiId)
    && cfg.adminApiSecret == LastText(entries, AdminApiSecret)
  }

  predicate FlagsAsSent(entries: seq<Entry>, cfg: Config) {
    && cfg.fetchDiscordId == LastIsTrue(entries, FetchDiscord)
    && cfg.linkByEmail == LastIsTrue(entries, LinkByEmail)
    && cfg.discordField == LastNonEmpty(entries, DiscordField, "Discord ID")
  }

  predicate IdsAsSent(entries: seq<Entry>, cfg: Config) {
    Items(cfg.allowed) == SentIds(entries) && (cfg.allowed.Some? <==> SentIds(entries) != [])
  }

  /** The mapping of the last entry for it. */
  predicate SentMapping(entries: seq<Entry>, ms: Slice<RoleMap>) {
    match LastEntry(entries, Key.RoleMapping)
    case None => ms.None?
    case Some(e) => e.value.Some? && Gives(e.value.value, e.document, ms)
  }

  predicate SameEntry(sent: RoleMap, kept: RoleMap) {
    ProperEntry(kept) && kept.role == sent.role && ParsePositiveId(kept.productId) == ParsePositiveId(sent.productId)
  }

  /** What the check makes of a mapping: the ids in canonical form, and nothing else changes. */
  predicate Normalised(sent: Slice<RoleMap>, kept: Slice<RoleMap>) {
    && sent.Some? == kept.Some? && |Items(sent)| == |Items(kept)|
    && forall i {:trigger SameEntry(Items(sent)[i], Items(kept)[i])} ::
         0 <= i < |Items(kept)| ==> SameEntry(Items(sent)[i], Items(kept)[i])
  }

  ghost predicate MappingAsSent(entries: seq<Entry>, kept: Slice<RoleMap>) {
    exists sent :: SentMapping(entries, sent) && Normalised(sent, kept)
  }

  /** Every entry of the two keys that can fail is fit to be read. */
  ghost predicate Fit(e: Entry) {
    && (e.key.AllowedProducts? && e.value.Some? && Says(Some(e)) != "" ==> AllReadable(Split(Says(Some(e)), ',')))
    && (e.key.RoleMapping? && e.value.Some? ==> exists ms :: Gives(e.value.value, e.document, ms))
  }

  ghost predicate AllFit(entries: seq<Entry>) {
    forall i {:trigger entries[i]} :: 0 <= i < |entries| ==> Fit(entries[i])
  }

  predicate GoodMapping(ms: Slice<RoleMap>) {
    forall i {:trigger Items(ms)[i]} :: 0 <= i < |Items(ms)| ==>
      && ParsePositiveId(Items(ms)[i].productId).Ok?
      && (Items(ms)[i].role == "user" || Items(ms)[i].role == "admin")
  }

  /** The server URL that counts is good, and so is the mapping that counts. */
  ghost predicate Passes(entries: seq<Entry>, urlOk: bool) {
    && (TrimRight(IsSlash, LastText(entries, ServerUrl)) == "" || urlOk)
    && exists ms :: SentMapping(entries, ms) && GoodMapping(ms)
  }

  lemma FitIff(cfg: Config, e: Entry)
    ensures Applied(cfg, e).Ok? <==> Fit(e)
  {
    if e.value.Some? && e.key.AllowedProducts? {
      AcceptedIff(Split(Says(Some(e)), ','));
    }
    if e.value.Some? && e.key.RoleMapping? {
      var v := e.value.value;
      var r := ParseMapping(v, e.document);
      if r.Ok? { GivesIff(v, e.document, r.value); }
      forall ms | Gives(v, e.document, ms) ensures r == Ok(ms) { GivesIff(v, e.document, ms); }
    }
  }

  lemma {:induction false} ParsesIffFit(entries: seq<Entry>)
    ensures Parsed(entries).Ok? <==> AllFit(entries)
  {
    if entries != [] {
      var front, last := entries[..|entries| - 1], entries[|entries| - 1];
      ParsesIffFit(front);
      if Parsed(front).Ok? { FitIff(Parsed(front).value, last); }
      if AllFit(entries) {
        forall i | 0 <= i < |front| ensures Fit(front[i]) { assert Fit(entries[i]); }
      }
    }
  }

  predicate IsTextKey(key: Key) {
    key.DatabaseUrl? || key.ServerUrl? || key.ClientId? || key.ClientSecret? || key.DisplayName? || key.IconUrlPath?
    || key.AdminApiId? || key.AdminApiSecret?
  }

  /** The setting of a text key. */
  function TextOf(cfg: Config, key: Key): string
    requires IsTextKey(key)
  {
    match key
    case DatabaseUrl => cfg.databaseUrl
    case ServerUrl => cfg.serverUrl
    case ClientId => cfg.clientId
    case ClientSecret => cfg.clientSecret
    case DisplayName => cfg.displayName
    case IconUrlPath => cfg.iconUrlPath
    case AdminApiId => cfg.adminApiId
    case AdminApiSecret => cfg.adminApiSecret
  }

  function Cleaned(key: Key, s: string): string {
    if key.ServerUrl? then TrimRight(IsSlash, s) else if key.IconUrlPath? then TrimSpace(s) else s
  }

  /** An entry changes the setting of its own key and no other. */
  lemma AppliedText(cfg: Config, e: Entry, next: Config, key: Key)
    requires Applied(cfg, e) == Ok(next) && IsTextKey(key)
    ensures TextOf(next, key) == if e.key == key && e.value.Some? then Cleaned(key, Says(Some(e))) else TextOf(cfg, key)
  {}

  lemma AppliedFlags(cfg: Config, e: Entry, next: Config)
    requires Applied(cfg, e) == Ok(next)
    ensures var isTrue := e.value == Some(Some(Bool(true)));
            && next.fetchDiscordId == (if e.key.FetchDiscord? && e.value.Some? then isTrue else cfg.fetchDiscordId)
            && next.linkByEmail == (if e.key.LinkByEmail? && e.value.Some? then isTrue else cfg.linkByEmail)
    ensures next.discordField
         == if e.key.DiscordField? && Says(Some(e)) != "" then Says(Some(e)) else cfg.discordField
  {}

  lemma AppliedIds(cfg: Config, e: Entry, next: Config)
    requires Applied(cfg, e) == Ok(next)
    ensures e.key.AllowedProducts? && e.value.Some? ==> AllowedIds(Says(Some(e))).Ok?
    ensures Items(next.allowed) == Items(cfg.allowed) + IdsIn(e) && (IdsIn(e) == [] ==> next.allowed == cfg.allowed)
    ensures next.allowed.Some? ==> IdsIn(e) != [] || cfg.allowed.Some?
  {
    var none: seq<string> := [];
    assert Items(cfg.allowed) + none == Items(cfg.allowed);
  }

  lemma {:induction false} ParsedText(entries: seq<Entry>, key: Key)
    requires Parsed(entries).Ok? && IsTextKey(key)
    ensures TextOf(Parsed(entries).value, key) == Cleaned(key, LastText(entries, key))
  {
    if entries != [] {
      var front := entries[..|entries| - 1];
      ParsedText(front, key);
      AppliedText(Parsed(front).value, entries[|entries| - 1], Parsed(entries).value, key);
    }
  }

  lemma ParsedTexts(entries: seq<Entry>)
    requires Parsed(entries).Ok?
    ensures TextsAsSent(entries, Parsed(entries).value)
  {
    ParsedText(entries, DatabaseUrl);
    ParsedText(entries, ServerUrl);
    ParsedText(entries, ClientId);
    ParsedText(entries, ClientSecret);
    ParsedText(entries, DisplayName);
    ParsedText(entries, IconUrlPath);
    ParsedText(entries, AdminApiId);
    ParsedText(entries, AdminApiSecret);
  }

  lemma {:induction false} ParsedFlags(entries: seq<Entry>)
    requires Parsed(entries).Ok?
    ensures FlagsAsSent(entries, Parsed(entries).value)
  {
    if entries != [] {
      var front := entries[..|entries| - 1];
      ParsedFlags(front);
      AppliedFlags(Parsed(front).value, entries[|entries| - 1], Parsed(entries).value);
    }
  }

  lemma {:induction false} ParsedIds(entries: seq<Entry>)
    requires Parsed(entries).Ok?
    ensures IdsAsSent(entries, Parsed(entries).value)
  {
    if entries != [] {
      var front, e := entries[..|entries| - 1], entries[|entries| - 1];
      ParsedIds(front);
      AppliedIds(Parsed(front).value, e, Parsed(entries).value);
    }
  }

  lemma AppliedMapping(cfg: Config, e: Entry, next: Config, ms: Slice<RoleMap>)
    requires Applied(cfg, e) == Ok(next)
    ensures next.roleMapping == ms <==>
            if e.key.RoleMapping? && e.value.Some? then Gives(e.value.value, e.document, ms) else cfg.roleMapping == ms
  {
    if e.key.RoleMapping? && e.value.Some? { GivesIff(e.value.value, e.document, ms); }
  }

  lemma {:induction false} ParsedMapping(entries: seq<Entry>, ms: Slice<RoleMap>)
    requires Parsed(entries).Ok?
    ensures SentMapping(entries, ms) <==> ms == Parsed(entries).value.roleMapping
  {
    if entries != [] {
      var front, e := entries[..|entries| - 1], entries[|entries| - 1];
      ParsedMapping(front, ms);
      AppliedMapping(Parsed(front).value, e, Parsed(entries).value, ms);
    }
  }

  lemma GoodIff(ms: Slice<RoleMap>)
    ensures GoodMapping(ms) <==> FirstProblem(Items(ms)).None?
  {
    var k := FirstBad(Items(ms));
    if k < |Items(ms)| { assert BadEntry(Items(ms)[k]); }
    assert forall i :: 0 <= i < k ==> !BadEntry(Items(ms)[i]);
  }

  /** loadConfig accepts exactly the entries that can be read and whose outcome passes the check. */
  lemma LoadsIff(entries: seq<Entry>, urlOk: bool)
    ensures Loaded(entries, urlOk).Some? <==> AllFit(entries) && Passes(entries, urlOk)
  {
    ParsesIffFit(entries);
    if Parsed(entries).Ok? {
      var cfg := Parsed(entries).value;
      ParsedTexts(entries);
      ParsedMapping(entries, cfg.roleMapping);
      GoodIff(cfg.roleMapping);
      forall ms | SentMapping(entries, ms) ensures ms == cfg.roleMapping { ParsedMapping(entries, ms); }
    }
  }

  lemma CheckedIsNormalised(cfg: Config, urlOk: bool)
    requires ProblemIn(cfg, urlOk).None?
    ensures Normalised(cfg.roleMapping, Checked(cfg, urlOk))
  {
    RewrittenIsProper(Items(cfg.roleMapping));
  }

  lemma NormalisedIsUnique(sent: Slice<RoleMap>, a: Slice<RoleMap>, b: Slice<RoleMap>)
    requires Normalised(sent, a) && Normalised(sent, b)
    ensures a == b
  {
    forall i | 0 <= i < |Items(a)| ensures Items(a)[i] == Items(b)[i] {
      assert SameEntry(Items(sent)[i], Items(a)[i]) && SameEntry(Items(sent)[i], Items(b)[i]);
      CanonicalIsPrinted(Items(a)[i].productId);
      CanonicalIsPrinted(Items(b)[i].productId);
    }
    assert Items(a) == Items(b);
  }

  ghost predicate AsSent(entries: seq<Entry>, cfg: Config) {
    && TextsAsSent(entries, cfg) && FlagsAsSent(entries, cfg) && IdsAsSent(entries, cfg)
    && MappingAsSent(entries, cfg.roleMapping)
  }

  lemma LoadedAsSent(entries: seq<Entry>, urlOk: bool)
    requires Loaded(entries, urlOk).Some?
    ensures AsSent(entries, Loaded(entries, urlOk).value)
  {
    var cfg := Parsed(entries).value;
    ParsedTexts(entries);
    ParsedFlags(entries);
    ParsedIds(entries);
    ParsedMapping(entries, cfg.roleMapping);
    CheckedIsNormalised(cfg, urlOk);
  }

  lemma AsSentIsUnique(entries: seq<Entry>, a: Config, b: Config)
    ensures Parsed(entries).Ok? && AsSent(entries, a) && AsSent(entries, b) ==> a == b
  {
    if Parsed(entries).Ok? && AsSent(entries, a) && AsSent(entries, b) {
      var sentA :| SentMapping(entries, sentA) && Normalised(sentA, a.roleMapping);
      var sentB :| SentMapping(entries, sentB) && Normalised(sentB, b.roleMapping);
      ParsedMapping(entries, sentA);
      ParsedMapping(entries, sentB);
      NormalisedIsUnique(sentA, a.roleMapping, b.roleMapping);
    }
  }

  /** What loadConfig loads, for any entries: every setting is what the last entry of its key says
      (the allowed ids are those of all entries), so that no entry touches the setting of another
      key; and it loads whenever the entries can be read and the outcome passes the check. */
  lemma LoadedIff(entries: seq<Entry>, urlOk: bool, cfg: Config)
    ensures Loaded(entries, urlOk) == Some(cfg) <==>
            AllFit(entries) && Passes(entries, urlOk) && AsSent(entries, cfg)
  {
    LoadsIff(entries, urlOk);
    if Loaded(entries, urlOk).Some? {
      LoadedAsSent(entries, urlOk);
      AsSentIsUnique(entries, cfg, Loaded(entries, urlOk).value);
    }
  }

  // ---------------------------------------------------------------- a rejected mapping

  predicate BadAt(m: RoleMap, k: nat, problem: Problem) {
    if ParsePositiveId(m.productId).Err? then problem == BadId(k)
    else m.role != "user" && m.role != "admin" && problem == BadRole(k)
  }

  /** The first bad entry: an unreadable id counts before a bad role. */
  predicate FirstBadAt(ms: seq<RoleMap>, k: int, problem: Problem) {
    0 <= k < |ms| && BadAt(ms[k], k, problem) && GoodMapping(Some(ms[..k]))
  }

  lemma FirstBadIs(ms: seq<RoleMap>, k: nat)
    requires k < |ms| && BadEntry(ms[k]) && FirstProblem(ms[..k]).None?
    ensures FirstBad(ms) == k
  {
    assert forall i :: 0 <= i < k ==> ms[..k][i] == ms[i] && !BadEntry(ms[..k][i]);
  }

  lemma NothingBadBefore(ms: seq<RoleMap>, k: nat)
    requires k <= FirstBad(ms)
    ensures FirstProblem(ms[..k]).None?
  {
    assert forall i :: 0 <= i < k ==> ms[..k][i] == ms[i];
  }

  /** The problem of a mapping is that of its first bad entry. */
  lemma ProblemIff(ms: seq<RoleMap>, problem: Problem)
    ensures FirstProblem(ms) == Some(problem) <==> exists k :: FirstBadAt(ms, k, problem)
  {
    if FirstProblem(ms) == Some(problem) {
      var first := FirstBad(ms);
      NothingBadBefore(ms, first);
      GoodIff(Some(ms[..first]));
      assert FirstBadAt(ms, first, problem);
    }
    forall k | FirstBadAt(ms, k, problem) ensures FirstProblem(ms) == Some(problem) {
      GoodIff(Some(ms[..k]));
      FirstBadIs(ms, k);
    }
  }

  /** What the check leaves of such a mapping: the ids up to the bad entry are rewritten, that of a
      bad role too, and nothing else changes. */
  lemma WhatIsLeft(ms: seq<RoleMap>, k: nat, problem: Problem, i: nat)
    requires FirstBadAt(ms, k, problem) && i < |ms|
    ensures var left := Rewritten(ms)[i];
            if i > k || ParsePositiveId(ms[i].productId).Err? then left == ms[i]
            else left.role == ms[i].role && Canonical(left.productId)
                 && ParsePositiveId(left.productId) == ParsePositiveId(ms[i].productId)
  {
    GoodIff(Some(ms[..k]));
    FirstBadIs(ms, k);
    if ParsePositiveId(ms[i].productId).Ok? { CanonicalOf(ParsePositiveId(ms[i].productId).value); }
  }
}
