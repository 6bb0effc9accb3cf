/** The product picker of the admin page, and the trip of its selection through the CSV text, the
    PATCH request, the configuration and the summary back into the picker. */
module Selector {
  import opened Basics
  import opened Text
  import opened ProductIds
  import opened Settings
  import ConfigStore

  const MAX_SAFE := 0x1F_FFFF_FFFF_FFFF   // 2^53 - 1

  /** A row of the picker; `pid` is a JavaScript number holding an integer. */
  datatype Row = Row(pid: int, name: string)

  // ------------------------------------------------------ sorting and parsing

  function Least(s: set<int>): (m: int)
    requires s != {}
    ensures m in s && forall x :: x in s ==> m <= x
  {
    LeastExists(s);
    var m :| m in s && forall x :: x in s ==> m <= x;
    m
  }

  lemma Member<T>(s: set<T>) returns (y: T)
    requires s != {}
    ensures y in s
  {
    y :| y in s;
  }

  lemma {:induction false} LeastExists(s: set<int>)
    requires s != {}
    ensures exists m :: m in s && forall x :: x in s ==> m <= x
    decreases s
  {
    var y := Member(s);
    if s - {y} == {} {
      assert s == {y};
    } else {
      LeastExists(s - {y});
      var m :| m in s - {y} && forall x :: x in s - {y} ==> m <= x;
      var least := if m <= y then m else y;
      assert forall x :: x in s ==> x == y || x in s - {y};
      assert least in s && forall x :: x in s ==> least <= x;
    }
  }

  predicate Ascending(ids: seq<int>) {
    forall i, j :: 0 <= i < j < |ids| ==> ids[i] < ids[j]
  }

  /** Array.from(enabled).sort((a, b) => a - b) */
  function SortedIds(s: set<int>): (ids: seq<int>)
    ensures Ascending(ids)
    ensures forall x :: x in ids <==> x in s
    decreases s
  {
    if s == {} then [] else [Least(s)] + SortedIds(s - {Least(s)})
  }

  /** Whitespace that String.prototype.trim and Number() ignore. */
  predicate IsJsSpace(c: char) { (IsSpace(c) && c != '\U{0085}') || c == '\U{FEFF}' }

  datatype Number = Integer(n: int) | Other

  /** Number(text) for empty text and plain decimal integers in the safe range. */
  function NumberOf(text: string): Number {
    var t := TrimRight(IsJsSpace, TrimLeft(IsJsSpace, text));
    if t == "" then Integer(0)
    else match Atoi(t)
         case None => Other
         case Some(n) => if -MAX_SAFE <= n <= MAX_SAFE then Integer(n) else Other
  }

  /** The save mutation's parser: split, convert, keep positive integers. */
  function ParseCsv(csv: string): seq<int> { KeepPositive(Split(csv, ',')) }

  function KeepPositive(fields: seq<string>): seq<int> {
    if fields == [] then []
    else
      var n := NumberOf(fields[0]);
      (if n.Integer? && n.n > 0 then [n.n] else []) + KeepPositive(fields[1..])
  }

  predicate SafeIds(ids: seq<int>) { forall i :: 0 <= i < |ids| ==> 0 < ids[i] <= MAX_SAFE }

  lemma NumberOfItoa(n: int)
    requires 0 < n <= MAX_SAFE
    ensures NumberOf(Itoa(n)) == Integer(n) && ',' !in Itoa(n)
  {
    AtoiItoa(n);
    DigitsValue(n);
    var s := Itoa(n);
    assert IsDigit(s[0]) && IsDigit(s[|s| - 1]);
  }

  lemma {:induction false} KeepsPrinted(ids: seq<int>)
    requires SafeIds(ids)
    ensures KeepPositive(ItoaAll(ids)) == ids
  {
    if ids != [] {
      NumberOfItoa(ids[0]);
      assert ItoaAll(ids)[1..] == ItoaAll(ids[1..]);
      KeepsPrinted(ids[1..]);
    }
  }

  /** The page's own CSV text parses back to the ids it was printed from; the empty selection
      prints as the empty text, whose only field is the number 0 and is dropped. */
  lemma CsvRoundTrip(ids: seq<int>)
    requires SafeIds(ids)
    ensures ParseCsv(Join(ItoaAll(ids), ',')) == ids
  {
    if ids == [] {
      assert NumberOf("") == Integer(0);
      assert [""][1..] == [];
    } else {
      forall i | 0 <= i < |ids| ensures ',' !in ItoaAll(ids)[i] { NumberOfItoa(ids[i]); }
      SplitJoin(ItoaAll(ids), ',');
      KeepsPrinted(ids);
    }
  }

  // --------------------------------------------------------------- the widget

  function Filter<T>(p: T -> bool, s: seq<T>): seq<T> {
    if s == [] then [] else (if p(s[0]) then [s[0]] else []) + Filter(p, s[1..])
  }

  /** The left column: rows not enabled whose name matches the search. */
  function Available(products: seq<Row>, enabled: set<int>, matches: string -> bool): seq<Row> {
    Filter((r: Row) => matches(r.name), Filter((r: Row) => r.pid !in enabled, products))
  }

  /** The right column. */
  function EnabledList(products: seq<Row>, enabled: set<int>): seq<Row> {
    Filter((r: Row) => r.pid in enabled, products)
  }

  function Toggled(enabled: set<int>, pid: int): set<int> {
    if pid in enabled then enabled - {pid} else enabled + {pid}
  }

  lemma {:induction false} FilterAll<T>(p: T -> bool, s: seq<T>)
    requires forall x :: x in s ==> p(x)
    ensures Filter(p, s) == s
  {
    if s != [] { FilterAll(p, s[1..]); }
  }

  lemma {:induction false} FilterSplits<T>(p: T -> bool, q: T -> bool, s: seq<T>)
    requires forall x :: x in s ==> (p(x) <==> !q(x))
    ensures multiset(Filter(p, s)) + multiset(Filter(q, s)) == multiset(s)
  {
    if s != [] {
      FilterSplits(p, q, s[1..]);
      assert s == [s[0]] + s[1..];
    }
  }

  /** With an empty search every product is in exactly one column, as often as it is listed. */
  lemma ColumnsPartition(products: seq<Row>, enabled: set<int>, matches: string -> bool)
    requires forall r :: r in products ==> matches(r.name)
    ensures multiset(Available(products, enabled, matches)) + multiset(EnabledList(products, enabled))
         == multiset(products)
  {
    var out := (r: Row) => r.pid !in enabled;
    FilterSplits(out, (r: Row) => r.pid in enabled, products);
    forall r | r in Filter(out, products) ensures r in products { FilterHolds(out, products, r); }
    FilterAll((r: Row) => matches(r.name), Filter(out, products));
  }

  /** What each column holds, whatever the search. */
  lemma ColumnsHold(products: seq<Row>, enabled: set<int>, matches: string -> bool, r: Row)
    ensures r in Available(products, enabled, matches) <==> r in products && r.pid !in enabled && matches(r.name)
    ensures r in EnabledList(products, enabled) <==> r in products && r.pid in enabled
  {
    var out := (r: Row) => r.pid !in enabled;
    FilterHolds(out, products, r);
    FilterHolds((r: Row) => matches(r.name), Filter(out, products), r);
    FilterHolds((r: Row) => r.pid in enabled, products, r);
  }

  lemma {:induction false} FilterHolds<T>(p: T -> bool, s: seq<T>, x: T)
    ensures x in Filter(p, s) <==> x in s && p(x)
  {
    if s != [] { FilterHolds(p, s[1..], x); }
  }

  /** A click moves a product to the other column, and a second click moves it back. */
  lemma ClickTwice(enabled: set<int>, pid: int)
    ensures pid in Toggled(enabled, pid) <==> pid !in enabled
    ensures Toggled(Toggled(enabled, pid), pid) == enabled
  {}

  class ProductSelector {
    var products: seq<Row>
    var enabled: set<int>

    constructor (products: seq<Row>, initialEnabled: seq<int>)
      ensures this.products == products && enabled == set n | n in initialEnabled
    {
      this.products := products;
      this.enabled := set n | n in initialEnabled;
    }

    /** The effect that runs when the server's list arrives. */
    method Reseed(initialEnabled: seq<int>)
      modifies this`enabled
      ensures enabled == set n | n in initialEnabled
    {
      enabled := set n | n in initialEnabled;
    }

    method Toggle(row: Row)
      modifies this`enabled
      ensures enabled == Toggled(old(enabled), row.pid)
    {
      var next := enabled;
      if row.pid in next {
        next := next - {row.pid};
      } else {
        next := next + {row.pid};
      }
      enabled := next;
    }

    method EnableAll()
      modifies this`enabled
      ensures enabled == set r | r in products :: r.pid
    {
      enabled := set r | r in products :: r.pid;
    }

    method DisableAll()
      modifies this`enabled
      ensures enabled == {}
    {
      enabled := {};
    }

    method Save() returns (csv: string)
      ensures csv == Join(ItoaAll(SortedIds(enabled)), ',')
    {
      csv := Join(ItoaAll(SortedIds(enabled)), ',');
    }
  }

  // ------------------------------------------------------------- the whole loop

  /** The strings the configuration ends up with after a save. */
  function Saved(enabled: set<int>): seq<string> {
    ItoaAll(ParseCsv(Join(ItoaAll(SortedIds(enabled)), ',')))
  }

  /** For every set of positive safe integers, saving and re-seeding gives the same set: sort,
      join, split, convert, PATCH, decimal strings, summary. The stored strings are the canonical
      ids in ascending order. */
  lemma SelectionSurvives(enabled: set<int>)
    requires forall x :: x in enabled ==> 0 < x <= MAX_SAFE
    ensures (set n | n in AtoiAll(Saved(enabled))) == enabled
    ensures Saved(enabled) == ItoaAll(SortedIds(enabled))
    ensures AllCanonical(Saved(enabled))
  {
    var ids := SortedIds(enabled);
    assert forall i :: 0 <= i < |ids| ==> ids[i] in ids;
    CsvRoundTrip(ids);
    SummaryUndoesStore(ids);
    forall i | 0 <= i < |ids| ensures Canonical(ItoaAll(ids)[i]) { CanonicalOf(ids[i]); }
  }

  /** The selection that the page re-seeds from the summary of a live configuration. */
  function Summarised(s: ConfigStore.State): set<int> { set n | n in AtoiAll(Items(s.live.allowed)) }

  /** The PATCH that saving sends. */
  predicate Saves(op: ConfigStore.Op, csv: string) { op.Patch? && op.body.allowedIds == Some(ParseCsv(csv)) }

  lemma SavedIsInt64(enabled: set<int>, op: ConfigStore.Op)
    requires (forall x :: x in enabled ==> 0 < x <= MAX_SAFE) && Saves(op, Join(ItoaAll(SortedIds(enabled)), ','))
    ensures op.body.allowedIds == Some(SortedIds(enabled)) && ConfigStore.Int64Body(op)
  {
    var ids := SortedIds(enabled);
    assert forall i :: 0 <= i < |ids| ==> ids[i] in ids;
    CsvRoundTrip(ids);
  }

  lemma SaveIsSummarised(enabled: set<int>, s: ConfigStore.State, op: ConfigStore.Op)
    requires (forall x :: x in enabled ==> 0 < x <= MAX_SAFE) && Saves(op, Join(ItoaAll(SortedIds(enabled)), ','))
    ensures ConfigStore.Accepted(s, op) ==> Summarised(ConfigStore.Step(s, op)) == enabled
  {
    SavedIsInt64(enabled, op);
    if ConfigStore.Accepted(s, op) { ConfigStore.SummaryShowsThePatch(s, op); }
  }

  /** The trip through the configuration: once a PATCH with the page's selection is accepted, the
      summary gives that selection back, also after any sequence of Configure calls. */
  lemma SelectionSurvivesConfigure(enabled: set<int>, s: ConfigStore.State, op: ConfigStore.Op,
                                   later: seq<ConfigStore.Op>)
    requires forall x :: x in enabled ==> 0 < x <= MAX_SAFE
    requires ConfigStore.Inv(s) && Saves(op, Join(ItoaAll(SortedIds(enabled)), ',')) && ConfigStore.AllConfigure(later)
    ensures ConfigStore.Accepted(s, op) ==> Summarised(ConfigStore.Run(ConfigStore.Step(s, op), later)) == enabled
  {
    SavedIsInt64(enabled, op);
    SaveIsSummarised(enabled, s, op);
    ConfigStore.AcceptedListIsPinned(s, op, later);
  }

  /** The PATCH of a selection, with whatever else the body sets. */
  function SaveOp(enabled: set<int>, body: ConfigStore.PatchBody, urlOk: bool, fault: ConfigStore.Fault)
    : ConfigStore.Op
  {
    ConfigStore.Patch(body.(allowedIds := Some(ParseCsv(Join(ItoaAll(SortedIds(enabled)), ',')))), urlOk, fault)
  }

  /** Saving on the objects: the picker's save, the PATCH, the summary and the re-seed; a rejected
      PATCH leaves the picker as it is. */
  method SaveAndReload(picker: ProductSelector, host: ConfigStore.ConfigHost, body: ConfigStore.PatchBody,
                       urlOk: bool, fault: ConfigStore.Fault)
    returns (ok: bool)
    requires forall x :: x in picker.enabled ==> 0 < x <= MAX_SAFE
    modifies picker`enabled, host, host.mapping
    ensures var before, op := old(host.Now()), SaveOp(old(picker.enabled), body, urlOk, fault);
            host.Now() == ConfigStore.Step(before, op) && ok == ConfigStore.Accepted(before, op)
    ensures picker.enabled == old(picker.enabled) && (ok ==> Summarised(host.Now()) == picker.enabled)
  {
    ghost var before, op := host.Now(), SaveOp(picker.enabled, body, urlOk, fault);
    SaveIsSummarised(picker.enabled, before, op);
    var csv := picker.Save();
    ok := host.Patch(body.(allowedIds := Some(ParseCsv(csv))), urlOk, fault);
    if ok {
      var summary := host.Summary();
      picker.Reseed(summary);
    }
  }
}
