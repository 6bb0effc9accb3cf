/** Reading a configuration from the host's entries and checking it. */
module Configuration {
  import opened Basics
  import opened JsonValues
  import opened Text
  import opened ProductIds
  import opened Settings

  // ------------------------------------------------------------ the mapping check

  datatype Problem = BadUrl | BadId(index: nat) | BadRole(index: nat)

  predicate GoodEntry(m: RoleMap) { ParsePositiveId(m.productId).Ok? && ValidRole(m.role) }

  function ProblemWith(m: RoleMap, index: nat): Problem {
    if ParsePositiveId(m.productId).Err? then BadId(index) else BadRole(index)
  }

  /** The entry as the check leaves it: a bad role is found after the id is rewritten. */
  function Touched(m: RoleMap): RoleMap {
    match ParsePositiveId(m.productId)
    case Err(_) => m
    case Ok(n) => RoleMap(Itoa(n), m.role)
  }

  predicate BadEntry(m: RoleMap) { !GoodEntry(m) }

  function FirstBad(ms: seq<RoleMap>): nat { FirstWhere(BadEntry, ms) }

  function FirstProblem(ms: seq<RoleMap>): Option<Problem> {
    var k := FirstBad(ms);
    if k >= |ms| then None else Some(ProblemWith(ms[k], k))
  }

  /** What the check leaves in the slice it works on: the entries behind the first bad one are
      not touched. */
  function Rewritten(ms: seq<RoleMap>): seq<RoleMap> { MapFirst(Touched, ms, FirstBad(ms) + 1) }

  /** One pass of the loop of ValidateConfig. */
  method ValidateEntry(a: array<RoleMap>, i: nat) returns (problem: Option<Problem>)
    requires i < a.Length
    modifies a
    ensures a[..] == old(a[..])[i := Touched(old(a[i]))]
    ensures problem == if GoodEntry(old(a[i])) then None else Some(ProblemWith(old(a[i]), i))
  {
    var m := a[i];
    var parsed := ParsePositiveId(m.productId);
    if parsed.Err? {
      return Some(BadId(i));
    }
    a[i] := RoleMap(Itoa(parsed.value), m.role);
    if m.role != "user" && m.role != "admin" {
      return Some(BadRole(i));
    }
    return None;
  }

  /** The loop of ValidateConfig, in place. */
  method ValidateMapping(a: array<RoleMap>) returns (problem: Option<Problem>)
    modifies a
    ensures a[..] == Rewritten(old(a[..]))
    ensures problem == FirstProblem(old(a[..]))
  {
    ghost var was := a[..];
    for i := 0 to a.Length
      invariant a[..] == MapFirst(Touched, was, i) && i <= FirstBad(was)
    {
      MapOneMore(Touched, was, i);
      assert a[i] == a[..][i];
      problem := ValidateEntry(a, i);
      if problem.Some? {
        assert BadEntry(was[i]);
        return;
      }
      assert !BadEntry(was[i]);
    }
    MapAll(Touched, was, FirstBad(was) + 1);
    return None;
  }

  /** After an accepted check every entry is in canonical form, with its role and its number. */
  lemma RewrittenIsProper(ms: seq<RoleMap>)
    requires FirstProblem(ms).None?
    ensures ProperMapping(Rewritten(ms))
    ensures forall i :: 0 <= i < |ms| ==>
              && Rewritten(ms)[i].role == ms[i].role
              && ParsePositiveId(Rewritten(ms)[i].productId) == ParsePositiveId(ms[i].productId)
  {
    forall i | 0 <= i < |ms|
      ensures ProperEntry(Rewritten(ms)[i]) && Rewritten(ms)[i].role == ms[i].role
      ensures ParsePositiveId(Rewritten(ms)[i].productId) == ParsePositiveId(ms[i].productId)
    {
      assert !BadEntry(ms[i]);
      CanonicalOf(ParsePositiveId(ms[i].productId).value);
    }
  }

  lemma ProperEntryIsFixed(m: RoleMap)
    requires ProperEntry(m)
    ensures GoodEntry(m) && Touched(m) == m
  {
    CanonicalMeansNumber(m.productId, m.productId);
  }

  /** A mapping in canonical form is accepted and is not changed. */
  lemma ProperIsFixed(ms: seq<RoleMap>)
    requires ProperMapping(ms)
    ensures FirstProblem(ms).None? && Rewritten(ms) == ms
  {
    forall i | 0 <= i < |ms| ensures !BadEntry(ms[i]) && Touched(ms[i]) == ms[i] {
      assert ProperEntry(ms[i]);
      ProperEntryIsFixed(ms[i]);
    }
  }

  // -------------------------------------------------------------- whole configs

  /** `urlOk` is the answer of validateServerURL, which may resolve the host name. */
  function ProblemIn(cfg: Config, urlOk: bool): Option<Problem> {
    if cfg.serverUrl != "" && !urlOk then Some(BadUrl) else FirstProblem(Items(cfg.roleMapping))
  }

  /** The slice as ValidateConfig leaves it; a bad URL is found before it is looked at. */
  function Checked(cfg: Config, urlOk: bool): Slice<RoleMap> {
    if cfg.roleMapping.None? || (cfg.serverUrl != "" && !urlOk) then cfg.roleMapping
    else Some(Rewritten(cfg.roleMapping.value))
  }

  /** A Go slice of mapping entries: nil is null. */
  function View(m: array?<RoleMap>): Slice<RoleMap>
    reads m
  {
    if m == null then None else Some(m[..])
  }

  /** ValidateConfig on a config whose mapping is the slice `m`. */
  method ValidateConfig(cfg: Config, m: array?<RoleMap>, urlOk: bool) returns (problem: Option<Problem>)
    modifies m
    ensures var before := cfg.(roleMapping := old(View(m)));
            problem == ProblemIn(before, urlOk) && View(m) == Checked(before, urlOk)
  {
    if cfg.serverUrl != "" && !urlOk {
      return Some(BadUrl);
    }
    problem := None;
    if m != null {
      problem := ValidateMapping(m);
    }
  }

  // ----------------------------------------------------------------- loadConfig

  datatype Key =
    | DatabaseUrl | ServerUrl | ClientId | ClientSecret | DisplayName | IconUrlPath | AllowedProducts
    | AdminApiId | AdminApiSecret | FetchDiscord | LinkByEmail | DiscordField | RoleMapping | Unknown

  /** An entry may have no value, and its value no "value" field. When that is a text, `document` is
      the JSON document it holds, if it holds one. */
  datatype Entry = Entry(key: Key, value: Option<Option<Json>>, document: Option<Json>)

  function StringOf(v: Option<Json>): string {
    match v
    case Some(Str(s)) => s
    case _ => ""
  }

  predicate BoolOf(v: Option<Json>) { v.Some? && v.value.Bool? && v.value.b }

  /** An item of a native array: a field that is no text is empty. */
  function NativeEntry(item: Json): Result<seq<RoleMap>, string> {
    if item.Obj? then Ok([RoleMap(TextIn(item, "product_id"), TextIn(item, "role"))])
    else Err("not an object")
  }

  /** json.Unmarshal into a ClaimRoleMap: null leaves it zero, and a field that is no text is an error. */
  function DecodedEntry(item: Json): Result<seq<RoleMap>, string> {
    match item
    case Null => Ok([RoleMap("", "")])
    case Obj(o) =>
      var id, role := TextField(o, "product_id"), TextField(o, "role");
      if id.None? || role.None? then Err("wrong type") else Ok([RoleMap(id.value, role.value)])
    case _ => Err("wrong type")
  }

  function AsSlice(r: Result<seq<RoleMap>, string>): Result<Slice<RoleMap>, string> {
    match r
    case Ok(ms) => Ok(Some(ms))
    case Err(e) => Err(e)
  }

  /** json.Unmarshal of a text into a slice of ClaimRoleMap: null gives nil. */
  function DecodedMapping(document: Option<Json>): Result<Slice<RoleMap>, string> {
    match document
    case Some(Null) => Ok(None)
    case Some(Arr(items)) => AsSlice(Collect(DecodedEntry, items))
    case _ => Err("decode json")
  }

  /** parseClaimRoleMapping */
  function ParseMapping(v: Option<Json>, document: Option<Json>): Result<Slice<RoleMap>, string> {
    match v
    case Some(Arr(items)) => AsSlice(Collect(NativeEntry, items))
    case Some(Str(s)) => if TrimSpace(s) != "" then DecodedMapping(document) else Ok(None)
    case _ => Ok(None)
  }

  function EntryOf(m: RoleMap): Json { Obj(map["product_id" := Str(m.productId), "role" := Str(m.role)]) }

  lemma EntryReads(m: RoleMap)
    ensures NativeEntry(EntryOf(m)) == Ok([m]) && DecodedEntry(EntryOf(m)) == Ok([m])
  {
    var o := EntryOf(m).fields;
    assert o["product_id"] == Str(m.productId) && o["role"] == Str(m.role);
  }

  /** The native and the JSON form of a list of entries are read alike. */
  lemma FormsAgree(ms: seq<RoleMap>, s: string)
    requires TrimSpace(s) != ""
    ensures var items := MapSeq(EntryOf, ms);
            && ParseMapping(Some(Arr(items)), None) == Ok(Some(ms))
            && ParseMapping(Some(Str(s)), Some(Arr(items))) == Ok(Some(ms))
  {
    var items := MapSeq(EntryOf, ms);
    forall i | 0 <= i < |ms| ensures NativeEntry(items[i]) == Ok([ms[i]]) && DecodedEntry(items[i]) == Ok([ms[i]]) {
      EntryReads(ms[i]);
    }
    CollectOnes(NativeEntry, items, ms);
    CollectOnes(DecodedEntry, items, ms);
  }

  /** One pass of the switch; an entry without a value is skipped. */
  function Applied(cfg: Config, e: Entry): Result<Config, string> {
    if e.value.None? then Ok(cfg)
    else
      var v := e.value.value;
      match e.key
      case DatabaseUrl => Ok(cfg.(databaseUrl := StringOf(v)))
      case ServerUrl => Ok(cfg.(serverUrl := TrimRight(IsSlash, StringOf(v))))
      case ClientId => Ok(cfg.(clientId := StringOf(v)))
      case ClientSecret => Ok(cfg.(clientSecret := StringOf(v)))
      case DisplayName => Ok(cfg.(displayName := StringOf(v)))
      case IconUrlPath => Ok(cfg.(iconUrlPath := TrimSpace(StringOf(v))))
      case AllowedProducts =>
        (match AllowedIds(StringOf(v))
         case Err(e) => Err(e)
         case Ok(ids) => Ok(if ids == [] then cfg else cfg.(allowed := Some(Items(cfg.allowed) + ids))))
      case AdminApiId => Ok(cfg.(adminApiId := StringOf(v)))
      case AdminApiSecret => Ok(cfg.(adminApiSecret := StringOf(v)))
      case FetchDiscord => Ok(cfg.(fetchDiscordId := BoolOf(v)))
      case LinkByEmail => Ok(cfg.(linkByEmail := BoolOf(v)))
      case DiscordField => Ok(if StringOf(v) == "" then cfg else cfg.(discordField := StringOf(v)))
      case RoleMapping =>
        (match ParseMapping(v, e.document)
         case Err(e) => Err("claim_role_mapping: " + e)
         case Ok(ms) => Ok(cfg.(roleMapping := ms)))
      case Unknown => Ok(cfg)
  }

  const DEFAULT_CONFIG := ZERO.(discordField := DISCORD_FIELD)

  function Parsed(entries: seq<Entry>): Result<Config, string> {
    if entries == [] then Ok(DEFAULT_CONFIG)
    else match Parsed(entries[..|entries| - 1])
         case Err(e) => Err(e)
         case Ok(cfg) => Applied(cfg, entries[|entries| - 1])
  }

  function Loaded(entries: seq<Entry>, urlOk: bool): Option<Config> {
    match Parsed(entries)
    case Err(_) => None
    case Ok(cfg) => if ProblemIn(cfg, urlOk).Some? then None else Some(cfg.(roleMapping := Checked(cfg, urlOk)))
  }

  /** What loadConfig lets through has canonical product ids and mapping entries. */
  lemma {:induction false} ParsedIsCanonical(entries: seq<Entry>)
    requires Parsed(entries).Ok?
    ensures AllCanonical(Items(Parsed(entries).value.allowed)) && Parsed(entries).value.discordField != ""
  {
    if entries != [] {
      var front, e := entries[..|entries| - 1], entries[|entries| - 1];
      ParsedIsCanonical(front);
      if e.value.Some? && e.key.AllowedProducts? {
        var raw := StringOf(e.value.value);
        if raw != "" { AcceptedAreCanonical(Split(raw, ',')); }
        AllCanonicalConcat(Items(Parsed(front).value.allowed), AllowedIds(raw).value);
      }
    }
  }

  lemma LoadedIsProper(entries: seq<Entry>, urlOk: bool)
    requires Loaded(entries, urlOk).Some?
    ensures var cfg := Loaded(entries, urlOk).value;
            AllCanonical(Items(cfg.allowed)) && ProperMapping(Items(cfg.roleMapping)) && cfg.discordField != ""
  {
    ParsedIsCanonical(entries);
    RewrittenIsProper(Items(Parsed(entries).value.roleMapping));
  }

  /** The loop over a native array. */
  method NativeMapping(items: seq<Json>) returns (r: Result<Slice<RoleMap>, string>)
    ensures r == AsSlice(Collect(NativeEntry, items))
  {
    var out: seq<RoleMap> := [];
    for i := 0 to |items|
      invariant Collect(NativeEntry, items[..i]) == Ok(out)
    {
      assert items[..i + 1][..i] == items[..i];
      if !items[i].Obj? {
        CollectFails(NativeEntry, items, i + 1);
        return Err("not an object");
      }
      var pid := TextIn(items[i], "product_id");
      var role := TextIn(items[i], "role");
      out := out + [RoleMap(pid, role)];
    }
    assert items[..|items|] == items;
    r := Ok(Some(out));
  }

  method ParseClaimRoleMapping(v: Option<Json>, document: Option<Json>) returns (r: Result<Slice<RoleMap>, string>)
    ensures r == ParseMapping(v, document)
  {
    if v.Some? && v.value.Arr? {
      r := NativeMapping(v.value.items);
    } else if v.Some? && v.value.Str? && TrimSpace(v.value.s) != "" {
      r := DecodedMapping(document);
    } else {
      r := Ok(None);
    }
  }

  method ApplyEntry(cfg: Config, e: Entry) returns (r: Result<Config, string>)
    ensures r == Applied(cfg, e)
  {
    if e.value.Some? && e.key.AllowedProducts? {
      var ids := LoadAllowedIds(StringOf(e.value.value));
      r := match ids
           case Err(m) => Err(m)
           case Ok(more) => Ok(if more == [] then cfg else cfg.(allowed := Some(Items(cfg.allowed) + more)));
    } else if e.value.Some? && e.key.RoleMapping? {
      var mapping := ParseClaimRoleMapping(e.value.value, e.document);
      r := match mapping
           case Err(m) => Err("claim_role_mapping: " + m)
           case Ok(ms) => Ok(cfg.(roleMapping := ms));
    } else {
      r := Applied(cfg, e);
    }
  }

  lemma {:induction false} FirstBadEntryWins(entries: seq<Entry>, i: nat)
    requires i <= |entries| && Parsed(entries[..i]).Err?
    ensures Parsed(entries).Err?
  {
    if i == |entries| {
      assert entries[..i] == entries;
    } else {
      var front := entries[..|entries| - 1];
      assert front[..i] == entries[..i];
      FirstBadEntryWins(front, i);
    }
  }

  /** A fresh slice with the given contents. */
  method NewSlice(contents: Slice<RoleMap>) returns (m: array?<RoleMap>)
    ensures View(m) == contents && (m != null ==> fresh(m))
  {
    if contents.None? {
      return null;
    }
    var ms := contents.value;
    m := new RoleMap[|ms|](i requires 0 <= i < |ms| => ms[i]);
    assert m[..] == ms;
  }

  /** loadConfig; the mapping of the result is the slice `m`. */
  method LoadConfig(entries: seq<Entry>, urlOk: bool) returns (cfg: Option<Config>, m: array?<RoleMap>)
    ensures m != null ==> fresh(m)
    ensures match Loaded(entries, urlOk)
            case None => cfg.None?
            case Some(c) => cfg.Some? && cfg.value.(roleMapping := View(m)) == c
  {
    var parsed := DEFAULT_CONFIG;
    m := null;
    for i := 0 to |entries|
      invariant Parsed(entries[..i]) == Ok(parsed)
    {
      assert entries[..i + 1][..i] == entries[..i];
      var next := ApplyEntry(parsed, entries[i]);
      if next.Err? {
        FirstBadEntryWins(entries, i + 1);
        return None, null;
      }
      parsed := next.value;
    }
    assert entries[..|entries|] == entries;
    m := NewSlice(parsed.roleMapping);
    var problem := ValidateConfig(parsed, m, urlOk);
    cfg := if problem.Some? then None else Some(parsed);
  }
}
