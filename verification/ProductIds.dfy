/** Product ids as text: the comma-separated setting the host delivers, the decimal strings the
    configuration holds, and the integers the admin page sends and receives. */
module ProductIds {
  import opened Basics
  import opened Text

  /** An id in the only spelling the configuration uses. */
  predicate Canonical(id: string) { Decimal(id) && Atoi(id).value > 0 }

  predicate AllCanonical(ids: seq<string>) {
    forall i {:trigger Canonical(ids[i])} :: 0 <= i < |ids| ==> Canonical(ids[i])
  }

  /** The text that Itoa prints for some int64. */
  predicate Decimal(id: string) { Atoi(id).Some? && id == Itoa(Atoi(id).value) }

  predicate AllDecimal(ids: seq<string>) {
    forall i {:trigger Decimal(ids[i])} :: 0 <= i < |ids| ==> Decimal(ids[i])
  }

  /** parsePositiveID */
  function ParsePositiveId(raw: string): Result<int, string> {
    var s := TrimSpace(raw);
    if s == "" then Err("is required")
    else match Atoi(s)
         case None => Err("must be a positive integer")
         case Some(n) => if n <= 0 then Err("must be a positive integer") else Ok(n)
  }

  lemma CanonicalOf(n: int)
    requires 0 < n <= MAX_INT64
    ensures Canonical(Itoa(n)) && ParsePositiveId(Itoa(n)) == Ok(n)
  {
    AtoiItoa(n);
    DigitsValue(n);
    TrimPadded("", Itoa(n), "");
    assert "" + Itoa(n) + "" == Itoa(n);
  }

  /** Canonical ids are equal as strings exactly when they are equal as numbers, and parsing one
      gives its number back. */
  lemma CanonicalMeansNumber(a: string, b: string)
    requires Canonical(a) && Canonical(b)
    ensures a == b <==> Atoi(a) == Atoi(b)
    ensures ParsePositiveId(a) == Ok(Atoi(a).value)
  {
    CanonicalOf(Atoi(a).value);
  }

  lemma CanonicalIsPrinted(id: string)
    requires Canonical(id)
    ensures ParsePositiveId(id).Ok? && id == Itoa(ParsePositiveId(id).value)
  {
    CanonicalOf(Atoi(id).value);
  }

  /** What parsePositiveID accepts: a decimal text of a positive int64, with padding. */
  lemma ParsesIff(raw: string, n: int)
    ensures ParsePositiveId(raw) == Ok(n)
       <==> 0 < n <= MAX_INT64 && exists zeros :: DecimalText(TrimSpace(raw), zeros, n)
  {
    AtoiIff(TrimSpace(raw), n);
  }

  // ------------------------------------------- the allowed_product_ids setting

  /** One field: blank fields give nothing. */
  function ReadField(field: string): Result<seq<string>, string> {
    var p := TrimSpace(field);
    if p == "" then Ok([])
    else match ParsePositiveId(p)
         case Err(m) => Err("allowed_product_ids: " + m)
         case Ok(n) => Ok([Itoa(n)])
  }

  /** All fields in order; the first bad one is the error. */
  function FieldIds(fields: seq<string>): Result<seq<string>, string> { Collect(ReadField, fields) }

  function AllowedIds(raw: string): Result<seq<string>, string> {
    if raw == "" then Ok([]) else FieldIds(Split(raw, ','))
  }

  /** One pass of the loop. */
  method LoadField(field: string) returns (r: Result<seq<string>, string>)
    ensures r == ReadField(field)
  {
    var p := TrimSpace(field);
    if p == "" {
      return Ok([]);
    }
    var parsed := ParsePositiveId(p);
    if parsed.Err? {
      return Err("allowed_product_ids: " + parsed.error);
    }
    r := Ok([Itoa(parsed.value)]);
  }

  /** The case of loadConfig for allowed_product_ids. */
  method LoadAllowedIds(raw: string) returns (r: Result<seq<string>, string>)
    ensures r == AllowedIds(raw)
  {
    var ids: seq<string> := [];
    if raw != "" {
      var fields := Split(raw, ',');
      for i := 0 to |fields|
        invariant FieldIds(fields[..i]) == Ok(ids)
      {
        assert fields[..i + 1][..i] == fields[..i];
        var more := LoadField(fields[i]);
        if more.Err? {
          CollectFails(ReadField, fields, i + 1);
          return more;
        }
        ids := ids + more.value;
      }
      assert fields[..|fields|] == fields;
    }
    r := Ok(ids);
  }

  predicate Readable(field: string) { TrimSpace(field) == "" || ParsePositiveId(field).Ok? }

  predicate AllReadable(fields: seq<string>) {
    forall i {:trigger Readable(fields[i])} :: 0 <= i < |fields| ==> Readable(fields[i])
  }

  lemma AllReadableSnoc(fields: seq<string>)
    requires fields != []
    ensures AllReadable(fields) <==> AllReadable(fields[..|fields| - 1]) && Readable(fields[|fields| - 1])
  {
    var front := fields[..|fields| - 1];
    if AllReadable(fields) {
      forall i | 0 <= i < |front| ensures Readable(front[i]) { assert Readable(fields[i]); }
      assert Readable(fields[|fields| - 1]);
    }
    if AllReadable(front) && Readable(fields[|fields| - 1]) {
      forall i | 0 <= i < |fields| ensures Readable(fields[i]) {
        if i < |front| { assert Readable(front[i]); }
      }
    }
  }

  lemma ReadableIff(field: string)
    ensures ReadField(field).Ok? <==> Readable(field)
  {
    TrimSpaceIsTight(field);
  }

  lemma ReadIsCanonical(field: string)
    requires ReadField(field).Ok?
    ensures AllCanonical(ReadField(field).value)
  {
    var p := TrimSpace(field);
    if p != "" { CanonicalOf(ParsePositiveId(p).value); }
  }

  /** A list is accepted exactly when every field is blank or a positive integer: a bad field is
      never dropped. */
  lemma {:induction false} AcceptedIff(fields: seq<string>)
    ensures FieldIds(fields).Ok? <==> AllReadable(fields)
  {
    if fields != [] {
      var front, last := fields[..|fields| - 1], fields[|fields| - 1];
      AcceptedIff(front);
      ReadableIff(last);
      AllReadableSnoc(fields);
    }
  }

  lemma AllCanonicalConcat(a: seq<string>, b: seq<string>)
    requires AllCanonical(a) && AllCanonical(b)
    ensures AllCanonical(a + b)
  {}

  lemma {:induction false} AcceptedAreCanonical(fields: seq<string>)
    requires FieldIds(fields).Ok?
    ensures AllCanonical(FieldIds(fields).value)
  {
    if fields != [] {
      var front, last := fields[..|fields| - 1], fields[|fields| - 1];
      AcceptedAreCanonical(front);
      ReadIsCanonical(last);
      AllCanonicalConcat(FieldIds(front).value, ReadField(last).value);
    }
  }

  // ------------------------------------------------- every spelling of a list

  /** How a field may be written: blank, or an id with padding, a plus sign and leading zeros. */
  datatype Spelling = Blank(pad: string) | Id(before: string, plus: bool, zeros: string, n: int, after: string)

  predicate Proper(f: Spelling) {
    match f
    case Blank(pad) => AllOf(IsSpace, pad)
    case Id(before, _, zeros, n, after) =>
      AllOf(IsSpace, before) && AllOf(IsSpace, after) && AllZeros(zeros) && 0 < n <= MAX_INT64
  }

  function Core(plus: bool, zeros: string, n: nat): string { (if plus then "+" else "") + (zeros + Itoa(n)) }

  function Spell(f: Spelling): string
    requires Proper(f)
  {
    match f
    case Blank(pad) => pad
    case Id(before, plus, zeros, n, after) => before + Core(plus, zeros, n) + after
  }

  function SpellAll(fs: seq<Spelling>): (r: seq<string>)
    requires forall i :: 0 <= i < |fs| ==> Proper(fs[i])
    ensures |r| == |fs| && forall i :: 0 <= i < |fs| ==> r[i] == Spell(fs[i])
  {
    if fs == [] then [] else SpellAll(fs[..|fs| - 1]) + [Spell(fs[|fs| - 1])]
  }

  /** The ids a list of fields stands for. */
  function Meant(fs: seq<Spelling>): seq<string> {
    if fs == [] then []
    else
      var last := fs[|fs| - 1];
      Meant(fs[..|fs| - 1]) + if last.Blank? then [] else [Itoa(last.n)]
  }

  lemma DigitsRead(digits: string, n: nat)
    requires digits != "" && AllOf(IsDigit, digits) && Value(digits) == n <= MAX_INT64
    ensures Atoi(digits) == Some(n as int) && Atoi("+" + digits) == Some(n as int)
    ensures Tight(IsSpace, digits) && Tight(IsSpace, "+" + digits)
    ensures ',' !in digits && ',' !in "+" + digits
  {
    assert IsDigit(digits[0]) && IsDigit(digits[|digits| - 1]);
    var signed := "+" + digits;
    assert signed[1..] == digits && signed[|signed| - 1] == digits[|digits| - 1];
  }

  lemma CoreReads(plus: bool, zeros: string, n: nat)
    requires AllZeros(zeros) && 0 < n <= MAX_INT64
    ensures var core := Core(plus, zeros, n);
            core != "" && Tight(IsSpace, core) && ',' !in core && Atoi(core) == Some(n as int)
  {
    DigitsValue(n);
    LeadingZeros(zeros, Digits(n));
    DigitsRead(zeros + Digits(n), n);
    assert Core(false, zeros, n) == zeros + Digits(n);
  }

  lemma SpellReads(f: Spelling)
    requires Proper(f)
    ensures ',' !in Spell(f)
    ensures ReadField(Spell(f)) == Ok(if f.Blank? then [] else [Itoa(f.n)])
  {
    match f
    case Blank(pad) =>
      TrimPadded(pad, "", "");
      assert pad + "" + "" == pad;
    case Id(before, plus, zeros, n, after) =>
      CoreReads(plus, zeros, n);
      PaddedReads(before, Core(plus, zeros, n), after, n);
  }

  lemma PaddedReads(before: string, core: string, after: string, n: int)
    requires AllOf(IsSpace, before) && AllOf(IsSpace, after)
    requires core != "" && Tight(IsSpace, core) && ',' !in core && Atoi(core) == Some(n) && n > 0
    ensures ReadField(before + core + after) == Ok([Itoa(n)]) && ',' !in before + core + after
  {
    TrimPadded(before, core, after);
    TrimSpaceIsTight(before + core + after);
  }

  lemma {:induction false} SpelledFieldIds(fs: seq<Spelling>)
    requires forall i :: 0 <= i < |fs| ==> Proper(fs[i])
    ensures FieldIds(SpellAll(fs)) == Ok(Meant(fs))
  {
    if fs != [] {
      var n := |fs| - 1;
      SpellReads(fs[n]);
      assert SpellAll(fs)[..n] == SpellAll(fs[..n]);
      SpelledFieldIds(fs[..n]);
    }
  }

  lemma NothingInBlank()
    ensures FieldIds([""]) == Ok([])
  {
    var fields, none: seq<string> := [""], [];
    assert fields[..|fields| - 1] == [] && none + none == none;
    assert ReadField(fields[|fields| - 1]) == Ok(none);
  }

  /** Padding, plus signs, leading zeros and empty fields do not matter: every spelling of a list
      of ids loads as that list, in canonical form and in order. */
  lemma SpellingDoesNotMatter(fs: seq<Spelling>)
    requires forall i :: 0 <= i < |fs| ==> Proper(fs[i])
    ensures AllowedIds(Join(SpellAll(fs), ',')) == Ok(Meant(fs))
  {
    SpelledFieldIds(fs);
    var fields := SpellAll(fs);
    forall i | 0 <= i < |fields| ensures ',' !in fields[i] { SpellReads(fs[i]); }
    if fields != [] { SplitJoin(fields, ','); }
    if Join(fields, ',') == "" && fields != [] {
      assert fields == [""];
      NothingInBlank();
    }
  }

  lemma CanonicalReadsItself(id: string)
    requires Canonical(id)
    ensures ReadField(id) == Ok([id]) && ',' !in id
  {
    var n := Atoi(id).value;
    CanonicalOf(n);
    DigitsRead(Itoa(n), n) by { DigitsValue(n); }
    TrimPadded("", id, "");
    assert "" + id + "" == id;
  }

  lemma CanonicalReadsThemselves(ids: seq<string>)
    requires AllCanonical(ids)
    ensures FieldIds(ids) == Ok(ids)
  {
    forall i | 0 <= i < |ids| ensures ReadField(ids[i]) == Ok([ids[i]]) {
      assert Canonical(ids[i]);
      CanonicalReadsItself(ids[i]);
    }
    CollectOnes(ReadField, ids, ids);
  }

  /** Loading is idempotent on its own joined output. */
  lemma LoadingIsIdempotent(raw: string)
    requires AllowedIds(raw).Ok?
    ensures AllowedIds(Join(AllowedIds(raw).value, ',')) == AllowedIds(raw)
  {
    var ids := AllowedIds(raw).value;
    if ids != [] {
      AcceptedAreCanonical(Split(raw, ','));
      forall i | 0 <= i < |ids| ensures ',' !in ids[i] {
        assert Canonical(ids[i]);
        CanonicalReadsItself(ids[i]);
      }
      SplitJoin(ids, ',');
      CanonicalReadsThemselves(ids);
      assert Canonical(ids[0]);
    }
  }

  // ------------------------------------------------- between page and config

  function ItoaAll(ids: seq<int>): seq<string> { MapSeq(Itoa, ids) }

  /** The integers among the ids, in order; anything else is skipped. */
  function AtoiAll(ids: seq<string>): seq<int> { FilterMap(Atoi, ids) }

  /** HandleUpdateConfig: the request's integers become the configuration's strings. */
  method StoreIds(ids: seq<int>) returns (allowed: seq<string>)
    ensures allowed == ItoaAll(ids)
  {
    allowed := [];
    for i := 0 to |ids|
      invariant |allowed| == i && forall k :: 0 <= k < i ==> allowed[k] == Itoa(ids[k])
    {
      allowed := allowed + [Itoa(ids[i])];
    }
    assert allowed == ItoaAll(ids);
  }

  /** HandleConfigSummary: the configuration's strings become the integers the page gets. */
  method SummaryIds(allowed: seq<string>) returns (ids: seq<int>)
    ensures ids == AtoiAll(allowed)
  {
    ids := [];
    for i := 0 to |allowed|
      invariant ids == AtoiAll(allowed[..i])
    {
      assert allowed[..i + 1][..i] == allowed[..i];
      match Atoi(allowed[i]) {
        case Some(n) => ids := ids + [n];
        case None =>
      }
    }
    assert allowed[..|allowed|] == allowed;
  }

  /** What the page sends is what it gets back. */
  lemma SummaryUndoesStore(ids: seq<int>)
    requires forall i :: 0 <= i < |ids| ==> IsInt64(ids[i])
    ensures AtoiAll(ItoaAll(ids)) == ids
  {
    forall i | 0 <= i < |ids| ensures Atoi(ItoaAll(ids)[i]) == Some(ids[i]) { AtoiItoa(ids[i]); }
    FilterMapKeepsAll(Atoi, ItoaAll(ids), ids);
  }
}
