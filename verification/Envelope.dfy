/** Decoding what the WHMCS admin API answers, which is loose about shapes and about numbers. */
module Envelope {
  import opened Basics
  import opened Text
  import opened Whmcs
  import opened Entitlement
  import opened JsonValues

  // --------------------------------------------------------- reading single fields

  function ParseOptionalInt(raw: Option<Json>): Result<int, string> {
    match raw
    case None => Ok(0)
    case Some(Null) => Ok(0)
    case Some(Int(n)) => if IsInt64(n) then Ok(n) else Err("not an integer")
    case Some(Str(s)) =>
      if TrimSpace(s) == "" then Ok(0)
      else (match Atoi(TrimSpace(s)) case None => Err("invalid syntax") case Some(n) => Ok(n))
    case Some(_) => Err("not an integer")
  }

  function ParseRequiredPositiveInt(raw: Option<Json>): Result<int, string> {
    match ParseOptionalInt(raw)
    case Err(e) => Err(e)
    case Ok(n) => if n <= 0 then Err("must be a positive integer") else Ok(n)
  }

  // ---------------------------------------------------------------- product rows

  datatype RawProduct = RawProduct(
    pid: Option<Json>, gid: Option<Json>, name: string, kind: string, payType: string, groupName: string,
    status: Option<string>)

  /** json.Unmarshal into a rawProduct: null leaves it zero. */
  function DecodeRow(j: Json): Result<seq<RawProduct>, string> {
    match j
    case Null => Ok([RawProduct(None, None, "", "", "", "", None)])
    case Obj(o) =>
      var name, kind, payType, group, status :=
        TextField(o, "name"), TextField(o, "type"), TextField(o, "paytype"), TextField(o, "groupname"),
        TextField(o, "status");
      if name.None? || kind.None? || payType.None? || group.None? || status.None? then Err("wrong type")
      else
        Ok([RawProduct(RawField(o, "pid"), RawField(o, "gid"), name.value, kind.value, payType.value, group.value,
                       if "status" in o && o["status"].Str? then status else None)])
    case _ => Err("wrong type")
  }

  function ToProduct(r: RawProduct): Result<seq<Product>, string> {
    match ParseRequiredPositiveInt(r.pid)
    case Err(e) => Err("pid: " + e)
    case Ok(pid) =>
      match ParseOptionalInt(r.gid)
      case Err(e) => Err("gid: " + e)
      case Ok(gid) => Ok([Product(pid, gid, r.name, r.kind, r.payType, r.groupName)])
  }

  function ToClientProduct(r: RawProduct): Result<seq<ClientProduct>, string> {
    match ParseRequiredPositiveInt(r.pid)
    case Err(e) => Err("pid: " + e)
    case Ok(pid) => Ok([ClientProduct(pid, r.name, r.status)])
  }

  /** An integer literal, decimal text with padding, or nothing for zero. */
  predicate Spells(j: Json, n: int) {
    || (j == Int(n) && IsInt64(n))
    || (j.Null? && n == 0)
    || (j.Str? && if TrimSpace(j.s) == "" then n == 0 else Atoi(TrimSpace(j.s)) == Some(n))
  }

  predicate HasInt(o: map<string, Json>, key: string, n: int) {
    if key in o then Spells(o[key], n) else n == 0
  }

  /** What a row must be to mean a product, said without decoding it. */
  predicate IsProduct(j: Json, p: Product) {
    && j.Obj? && HasInt(j.fields, "pid", p.pid) && p.pid > 0 && HasInt(j.fields, "gid", p.gid)
    && HasText(j.fields, "name", p.name) && HasText(j.fields, "type", p.kind)
    && HasText(j.fields, "paytype", p.payType) && HasText(j.fields, "groupname", p.groupName)
    && TextOrNothing(j.fields, "status")
  }

  predicate IsOwned(j: Json, p: ClientProduct) {
    && j.Obj? && HasInt(j.fields, "pid", p.pid) && p.pid > 0 && HasText(j.fields, "name", p.name)
    && TextOrNothing(j.fields, "type") && TextOrNothing(j.fields, "paytype") && TextOrNothing(j.fields, "groupname")
    && TextOrNothing(j.fields, "status")
    && p.status == if "status" in j.fields && j.fields["status"].Str? then Some(j.fields["status"].s) else None
  }

  lemma PaddedDecimalSpells(before: string, n: int, after: string)
    requires AllOf(IsSpace, before) && AllOf(IsSpace, after) && IsInt64(n)
    ensures Spells(Str(before + Itoa(n) + after), n) && Spells(Int(n), n)
  {
    AtoiItoa(n);
    DigitsValue(if n < 0 then -n else n);
    TrimPadded(before, Itoa(n), after);
  }

  lemma IntIff(o: map<string, Json>, key: string, n: int)
    ensures ParseOptionalInt(RawField(o, key)) == Ok(n) <==> HasInt(o, key, n)
  {}

  predicate RowGives(j: Json, p: Product) { DecodeRow(j).Ok? && ToProduct(DecodeRow(j).value[0]) == Ok([p]) }

  lemma ProductIff(j: Json, p: Product)
    ensures RowGives(j, p) <==> IsProduct(j, p)
  {
    if j.Obj? {
      var o := j.fields;
      IntIff(o, "pid", p.pid);
      IntIff(o, "gid", p.gid);
      TextIff(o, "name", p.name);
      TextIff(o, "type", p.kind);
      TextIff(o, "paytype", p.payType);
      TextIff(o, "groupname", p.groupName);
      TextIff(o, "status", "");
    }
  }

  lemma OwnedIff(j: Json, p: ClientProduct)
    ensures DecodeRow(j).Ok? && ToClientProduct(DecodeRow(j).value[0]) == Ok([p]) <==> IsOwned(j, p)
  {
    if j.Obj? {
      var o := j.fields;
      IntIff(o, "pid", p.pid);
      TextIff(o, "name", p.name);
      TextIff(o, "type", "");
      TextIff(o, "paytype", "");
      TextIff(o, "groupname", "");
      TextIff(o, "status", "");
    }
  }

  // ----------------------------------------------------------------- the envelope

  /** The check every action makes: result is "success". The message must be text, too. */
  function Succeeded(body: Json): bool {
    && body.Obj? && TextField(body.fields, "result") == Some("success")
    && TextField(body.fields, "message").Some?
  }

  /** The same, said of the fields. */
  predicate IsSuccess(body: Json) {
    body.Obj? && HasText(body.fields, "result", "success") && TextOrNothing(body.fields, "message")
  }

  lemma SuccessIff(body: Json)
    ensures Succeeded(body) <==> IsSuccess(body)
  {
    if body.Obj? {
      TextIff(body.fields, "result", "success");
      TextIff(body.fields, "message", "");
    }
  }

  /** An array, else a single object; null is an empty array. */
  function Entries(j: Json): Result<seq<RawProduct>, string> {
    if j.Null? then Ok([])
    else if j.Arr? && Collect(DecodeRow, j.items).Ok? then Collect(DecodeRow, j.items)
    else if j.Obj? then DecodeRow(j)
    else Err("decode product entries")
  }

  /** extractProductArray */
  function ExtractProductArray(body: Json): Result<seq<RawProduct>, string> {
    if body.Null? then Ok([])
    else if !body.Obj? then Err("decode products envelope")
    else match RawField(body.fields, "products")
         case None => Ok([])
         case Some(Str(_)) => Ok([])
         case Some(Null) => Ok([])
         case Some(Arr(items)) => if items == [] then Ok([]) else Err("unexpected products array envelope")
         case Some(Obj(inner)) =>
           (match RawField(inner, "product") case None => Ok([]) case Some(j) => Entries(j))
         case Some(_) => Err("decode products inner")
  }

  function Convert<T>(f: RawProduct -> Result<seq<T>, string>, body: Json): Result<seq<T>, string> {
    if !Succeeded(body) then Err("whmcs api error")
    else match ExtractProductArray(body)
         case Err(e) => Err(e)
         case Ok(raws) => Collect(f, raws)
  }

  /** GetProducts, after the request. */
  method GetProducts(body: Json) returns (r: Result<seq<Product>, string>)
    ensures r == Convert(ToProduct, body)
  {
    if !Succeeded(body) {
      return Err("whmcs api error");
    }
    var extracted := ExtractProductArray(body);
    if extracted.Err? {
      return Err(extracted.error);
    }
    var raws := extracted.value;
    var products: seq<Product> := [];
    for i := 0 to |raws|
      invariant Collect(ToProduct, raws[..i]) == Ok(products)
    {
      assert raws[..i + 1][..i] == raws[..i];
      var p := ToProduct(raws[i]);
      if p.Err? {
        CollectFails(ToProduct, raws, i + 1);
        return Err(p.error);
      }
      products := products + p.value;
    }
    assert raws[..|raws|] == raws;
    r := Ok(products);
  }

  /** getClientsProducts, after the request. */
  method GetClientsProducts(body: Json) returns (r: Result<seq<ClientProduct>, string>)
    ensures r == Convert(ToClientProduct, body)
  {
    if !Succeeded(body) {
      return Err("whmcs api error");
    }
    var extracted := ExtractProductArray(body);
    if extracted.Err? {
      return Err(extracted.error);
    }
    var raws := extracted.value;
    var products: seq<ClientProduct> := [];
    for i := 0 to |raws|
      invariant Collect(ToClientProduct, raws[..i]) == Ok(products)
    {
      assert raws[..i + 1][..i] == raws[..i];
      var p := ToClientProduct(raws[i]);
      if p.Err? {
        CollectFails(ToClientProduct, raws, i + 1);
        return Err(p.error);
      }
      products := products + p.value;
    }
    assert raws[..|raws|] == raws;
    r := Ok(products);
  }

  // ------------------------------------------------------------ every shape at once

  /** The ways to say that there are no rows, below "products". */
  predicate NoRows(products: Option<Json>) {
    match products
    case None => true
    case Some(Null) => true
    case Some(Str(_)) => true
    case Some(Arr(items)) => items == []
    case Some(Obj(inner)) => "product" !in inner || inner["product"].Null? || inner["product"] == Arr([])
    case Some(_) => false
  }

  /** The ways to give rows: an array, or the row itself when there is one. */
  predicate GivesRows(products: Option<Json>, rows: seq<Json>) {
    && products.Some? && products.value.Obj? && "product" in products.value.fields
    && var product := products.value.fields["product"];
       product == Arr(rows) || (product.Obj? && rows == [product])
  }

  predicate IsEnvelope(body: Json, rows: seq<Json>) {
    && IsSuccess(body)
    && var products := RawField(body.fields, "products");
       (rows == [] && NoRows(products)) || GivesRows(products, rows)
  }

  lemma ExtractOne(row: Json)
    requires row.Obj?
    ensures Collect(DecodeRow, [row]) == DecodeRow(row)
  {
    assert [row][..0] == [];
    if DecodeRow(row).Ok? { assert [] + DecodeRow(row).value == DecodeRow(row).value; }
  }

  lemma EnvelopeExtracts(body: Json, rows: seq<Json>)
    requires IsEnvelope(body, rows)
    ensures ExtractProductArray(body).Ok? <==> Collect(DecodeRow, rows).Ok?
    ensures ExtractProductArray(body).Ok? ==> ExtractProductArray(body) == Collect(DecodeRow, rows)
  {
    var products := RawField(body.fields, "products");
    if GivesRows(products, rows) {
      var product := products.value.fields["product"];
      if product.Obj? { ExtractOne(product); }
    } else if products.Some? && products.value.Obj? && "product" in products.value.fields {
      assert Collect(DecodeRow, []) == Ok([]);
    }
  }

  lemma ExtractedIsAnEnvelope(body: Json)
    requires IsSuccess(body) && ExtractProductArray(body).Ok?
    ensures exists rows :: IsEnvelope(body, rows)
  {
    var products := RawField(body.fields, "products");
    if NoRows(products) {
      assert IsEnvelope(body, []);
    } else {
      var product := products.value.fields["product"];
      assert IsEnvelope(body, if product.Arr? then product.items else [product]);
    }
  }

  predicate Decodes<T(==)>(f: RawProduct -> Result<seq<T>, string>, row: Json, t: T) {
    DecodeRow(row).Ok? && f(DecodeRow(row).value[0]) == Ok([t])
  }

  /** Rows that decode one by one decode as a whole. */
  lemma ChainForward<T>(f: RawProduct -> Result<seq<T>, string>, rows: seq<Json>, out: seq<T>)
    requires |rows| == |out|
    requires forall i {:trigger Decodes(f, rows[i], out[i])} :: 0 <= i < |rows| ==> Decodes(f, rows[i], out[i])
    ensures Collect(DecodeRow, rows).Ok? && Collect(f, Collect(DecodeRow, rows).value) == Ok(out)
  {
    forall i | 0 <= i < |rows| ensures DecodeRow(rows[i]).Ok? && |DecodeRow(rows[i]).value| == 1 {
      assert Decodes(f, rows[i], out[i]);
    }
    var raws := seq(|rows|, i requires 0 <= i < |rows| => DecodeRow(rows[i]).value[0]);
    forall i | 0 <= i < |rows| ensures DecodeRow(rows[i]) == Ok([raws[i]]) && f(raws[i]) == Ok([out[i]]) {
      assert Decodes(f, rows[i], out[i]);
    }
    CollectOnes(DecodeRow, rows, raws);
    CollectOnes(f, raws, out);
  }

  /** And only those. */
  lemma ChainBackward<T>(f: RawProduct -> Result<seq<T>, string>, rows: seq<Json>, out: seq<T>)
    requires forall r :: f(r).Ok? ==> |f(r).value| == 1
    requires Collect(DecodeRow, rows).Ok? && Collect(f, Collect(DecodeRow, rows).value) == Ok(out)
    ensures |rows| == |out|
    ensures forall i {:trigger Decodes(f, rows[i], out[i])} :: 0 <= i < |rows| ==> Decodes(f, rows[i], out[i])
  {
    var raws := Collect(DecodeRow, rows).value;
    CollectIff(DecodeRow, rows, raws);
    CollectIff(f, raws, out);
    forall i | 0 <= i < |rows| ensures Decodes(f, rows[i], out[i]) {
      assert DecodeRow(rows[i]) == Ok([raws[i]]) && f(raws[i]) == Ok([out[i]]);
    }
  }

  lemma ChainIff<T>(f: RawProduct -> Result<seq<T>, string>, rows: seq<Json>, out: seq<T>)
    requires forall r :: f(r).Ok? ==> |f(r).value| == 1
    ensures Collect(DecodeRow, rows).Ok? && Collect(f, Collect(DecodeRow, rows).value) == Ok(out)
       <==> && |rows| == |out|
            && forall i {:trigger Decodes(f, rows[i], out[i])} :: 0 <= i < |rows| ==> Decodes(f, rows[i], out[i])
  {
    if Collect(DecodeRow, rows).Ok? && Collect(f, Collect(DecodeRow, rows).value) == Ok(out) {
      ChainBackward(f, rows, out);
    } else if |rows| == |out| && forall i :: 0 <= i < |rows| ==> Decodes(f, rows[i], out[i]) {
      ChainForward(f, rows, out);
    }
  }

  predicate AllProducts(rows: seq<Json>, ps: seq<Product>) {
    |rows| == |ps| && forall i {:trigger IsProduct(rows[i], ps[i])} :: 0 <= i < |rows| ==> IsProduct(rows[i], ps[i])
  }

  predicate AllOwned(rows: seq<Json>, ps: seq<ClientProduct>) {
    |rows| == |ps| && forall i {:trigger IsOwned(rows[i], ps[i])} :: 0 <= i < |rows| ==> IsOwned(rows[i], ps[i])
  }

  /** In whatever envelope, the rows decode to a list exactly when they are, one for one and in
      order, the rows of that list. */
  lemma ProductsOfRows(body: Json, rows: seq<Json>, ps: seq<Product>)
    requires IsEnvelope(body, rows)
    ensures Convert(ToProduct, body) == Ok(ps) <==> AllProducts(rows, ps)
  {
    SuccessIff(body);
    EnvelopeExtracts(body, rows);
    ChainIff(ToProduct, rows, ps);
    if |rows| == |ps| {
      forall i | 0 <= i < |rows| ensures Decodes(ToProduct, rows[i], ps[i]) <==> IsProduct(rows[i], ps[i]) {
        ProductIff(rows[i], ps[i]);
      }
    }
  }

  lemma OwnedOfRows(body: Json, rows: seq<Json>, ps: seq<ClientProduct>)
    requires IsEnvelope(body, rows)
    ensures Convert(ToClientProduct, body) == Ok(ps) <==> AllOwned(rows, ps)
  {
    SuccessIff(body);
    EnvelopeExtracts(body, rows);
    ChainIff(ToClientProduct, rows, ps);
    if |rows| == |ps| {
      forall i | 0 <= i < |rows| ensures Decodes(ToClientProduct, rows[i], ps[i]) <==> IsOwned(rows[i], ps[i]) {
        OwnedIff(rows[i], ps[i]);
      }
    }
  }

  /** GetProducts gives a list exactly when the answer is an envelope, of any shape, of that list. */
  lemma ProductsIff(body: Json, ps: seq<Product>)
    ensures Convert(ToProduct, body) == Ok(ps) <==> exists rows :: IsEnvelope(body, rows) && AllProducts(rows, ps)
  {
    SuccessIff(body);
    if Convert(ToProduct, body) == Ok(ps) {
      ExtractedIsAnEnvelope(body);
      var rows :| IsEnvelope(body, rows);
      ProductsOfRows(body, rows, ps);
    }
    forall rows | IsEnvelope(body, rows) ensures AllProducts(rows, ps) <==> Convert(ToProduct, body) == Ok(ps) {
      ProductsOfRows(body, rows, ps);
    }
  }

  lemma OwnedProductsIff(body: Json, ps: seq<ClientProduct>)
    ensures Convert(ToClientProduct, body) == Ok(ps) <==> exists rows :: IsEnvelope(body, rows) && AllOwned(rows, ps)
  {
    SuccessIff(body);
    if Convert(ToClientProduct, body) == Ok(ps) {
      ExtractedIsAnEnvelope(body);
      var rows :| IsEnvelope(body, rows);
      OwnedOfRows(body, rows, ps);
    }
    forall rows | IsEnvelope(body, rows) ensures AllOwned(rows, ps) <==> Convert(ToClientProduct, body) == Ok(ps) {
      OwnedOfRows(body, rows, ps);
    }
  }

  /** The shape of the envelope and the spelling of the numbers do not matter. */
  lemma ShapeDoesNotMatter(a: Json, b: Json, rowsA: seq<Json>, rowsB: seq<Json>, ps: seq<Product>)
    requires IsEnvelope(a, rowsA) && AllProducts(rowsA, ps)
    requires IsEnvelope(b, rowsB) && AllProducts(rowsB, ps)
    ensures Convert(ToProduct, a) == Convert(ToProduct, b) == Ok(ps)
  {
    ProductsOfRows(a, rowsA, ps);
    ProductsOfRows(b, rowsB, ps);
  }

  /** A row that is no product at all. */
  ghost predicate Malformed(row: Json) { forall p :: !IsProduct(row, p) }

  /** One bad row is an error, never a shorter list; otherwise there is an entry for every row. */
  lemma NoRowIsDropped(body: Json, rows: seq<Json>)
    requires IsEnvelope(body, rows)
    ensures Convert(ToProduct, body).Ok? <==> forall i {:trigger rows[i]} :: 0 <= i < |rows| ==> !Malformed(rows[i])
    ensures Convert(ToProduct, body).Ok? ==> |Convert(ToProduct, body).value| == |rows|
  {
    var r := Convert(ToProduct, body);
    if r.Ok? {
      ProductsOfRows(body, rows, r.value);
      forall i | 0 <= i < |rows| ensures !Malformed(rows[i]) { assert IsProduct(rows[i], r.value[i]); }
    }
    if forall i {:trigger rows[i]} :: 0 <= i < |rows| ==> !Malformed(rows[i]) {
      var ps := WhatTheyAre(rows);
      ProductsOfRows(body, rows, ps);
    }
  }

  lemma {:induction false} WhatTheyAre(rows: seq<Json>) returns (ps: seq<Product>)
    requires forall i {:trigger rows[i]} :: 0 <= i < |rows| ==> !Malformed(rows[i])
    ensures AllProducts(rows, ps)
  {
    if rows == [] {
      ps := [];
    } else {
      var n := |rows| - 1;
      ps := WhatTheyAre(rows[..n]);
      assert !Malformed(rows[n]);
      var p :| IsProduct(rows[n], p);
      forall i | 0 <= i < n ensures IsProduct(rows[i], ps[i]) { assert IsProduct(rows[..n][i], ps[i]); }
      ps := ps + [p];
    }
  }

  // ------------------------------------------------------------- the client search

  datatype RawClient = RawClient(id: Option<Json>, email: string)

  function DecodeClient(j: Json): Result<seq<RawClient>, string> {
    match j
    case Null => Ok([RawClient(None, "")])
    case Obj(o) =>
      var email := TextField(o, "email");
      if email.None? then Err("wrong type") else Ok([RawClient(RawField(o, "id"), email.value)])
    case _ => Err("wrong type")
  }

  predicate IsQuote(c: char) { c == '"' }

  /** rawToString; `text` gives the source text of a value that is neither text nor an int. */
  function RawToString(raw: Option<Json>, text: Json -> string): string {
    match raw
    case None => ""
    case Some(Null) => ""
    case Some(Str(s)) => s
    case Some(j) =>
      if j.Int? && IsInt64(j.n) then Itoa(j.n) else TrimRight(IsQuote, TrimLeft(IsQuote, text(j)))
  }

  function ExtractClients(body: Json): Result<seq<RawClient>, string>
    requires body.Obj?
  {
    match RawField(body.fields, "clients")
    case None => Ok([])
    case Some(Null) => Ok([])
    case Some(Obj(inner)) =>
      (match RawField(inner, "client")
       case None => Ok([])
       case Some(Null) => Ok([])
       case Some(Arr(items)) =>
         if Collect(DecodeClient, items).Ok? then Collect(DecodeClient, items) else Err("decode client entries")
       case Some(j) => DecodeClient(j))
    case Some(_) => Err("decode clients")
  }

  predicate SameEmail(row: RawClient, email: string) { EqualFold(TrimSpace(row.email), TrimSpace(email)) }

  function HasEmail(email: string): RawClient -> bool { (row: RawClient) => SameEmail(row, email) }

  function FirstWith(rows: seq<RawClient>, email: string): nat { FirstWhere(HasEmail(email), rows) }

  function Found(rows: seq<RawClient>, email: string, text: Json -> string): Option<Client> {
    var k := FirstWith(rows, email);
    if k >= |rows| then None else Some(Client(RawToString(rows[k].id, text), rows[k].email))
  }

  function ClientByEmail(body: Json, email: string, text: Json -> string): Result<Option<Client>, string> {
    if !Succeeded(body) then Err("whmcs api error")
    else match ExtractClients(body)
         case Err(e) => Err(e)
         case Ok(rows) => Ok(Found(rows, email, text))
  }

  /** getClientByEmail, after the request. */
  method GetClientByEmail(body: Json, email: string, text: Json -> string) returns (r: Result<Option<Client>, string>)
    ensures r == ClientByEmail(body, email, text)
  {
    if !Succeeded(body) {
      return Err("whmcs api error");
    }
    var extracted := ExtractClients(body);
    if extracted.Err? {
      return Err(extracted.error);
    }
    var rows := extracted.value;
    for i := 0 to |rows|
      invariant forall j :: 0 <= j < i ==> !SameEmail(rows[j], email)
    {
      if EqualFold(TrimSpace(rows[i].email), TrimSpace(email)) {
        assert SameEmail(rows[i], email) && FirstWith(rows, email) == i;
        return Ok(Some(Client(RawToString(rows[i].id, text), rows[i].email)));
      }
    }
    r := Ok(None);
  }

  predicate IsClientEnvelope(body: Json, rows: seq<Json>) {
    && IsSuccess(body)
    && if "clients" !in body.fields then rows == []
       else
         var clients := body.fields["clients"];
         || (clients.Null? && rows == [])
         || (clients.Obj? && if "client" !in clients.fields || clients.fields["client"].Null? then rows == []
                             else var client := clients.fields["client"];
                                  client == Arr(rows) || (client.Obj? && rows == [client]))
  }

  /** Two spellings of a client row: an integer id or its decimal text, an email absent, null or "". */
  predicate SameClientRow(a: Json, b: Json) {
    && a.Obj? && b.Obj?
    && TextField(a.fields, "email").Some? && TextField(a.fields, "email") == TextField(b.fields, "email")
    && SameId(RawField(a.fields, "id"), RawField(b.fields, "id"))
  }

  predicate SameId(a: Option<Json>, b: Option<Json>) { a == b || IntAndText(a, b) || IntAndText(b, a) }

  predicate IntAndText(a: Option<Json>, b: Option<Json>) {
    a.Some? && a.value.Int? && IsInt64(a.value.n) && b == Some(Str(Itoa(a.value.n)))
  }

  predicate SameClientRows(a: seq<Json>, b: seq<Json>) {
    |a| == |b| && forall i {:trigger SameClientRow(a[i], b[i])} :: 0 <= i < |a| ==> SameClientRow(a[i], b[i])
  }

  predicate ReadableText(j: Json) { j.Obj? && TextField(j.fields, "email").Some? }

  function DecodedClient(j: Json): RawClient
    requires ReadableText(j)
  {
    RawClient(RawField(j.fields, "id"), TextField(j.fields, "email").value)
  }

  lemma ExtractOneClient(row: Json)
    requires row.Obj?
    ensures Collect(DecodeClient, [row]) == DecodeClient(row)
  {
    assert [row][..0] == [];
    if DecodeClient(row).Ok? { assert [] + DecodeClient(row).value == DecodeClient(row).value; }
  }

  lemma ClientsExtract(body: Json, rows: seq<Json>)
    requires IsClientEnvelope(body, rows)
    ensures ExtractClients(body).Ok? <==> Collect(DecodeClient, rows).Ok?
    ensures ExtractClients(body).Ok? ==> ExtractClients(body) == Collect(DecodeClient, rows)
  {
    assert Collect(DecodeClient, []) == Ok([]);
    if |rows| == 1 && rows[0].Obj? { ExtractOneClient(rows[0]); }
  }

  lemma ExtractedIsAClientEnvelope(body: Json)
    requires IsSuccess(body) && ExtractClients(body).Ok?
    ensures exists rows :: IsClientEnvelope(body, rows)
  {
    if "clients" !in body.fields || body.fields["clients"].Null? {
      assert IsClientEnvelope(body, []);
    } else {
      var inner := body.fields["clients"].fields;
      assert IsClientEnvelope(body, if "client" !in inner || inner["client"].Null? then []
                                    else if inner["client"].Arr? then inner["client"].items else [inner["client"]]);
    }
  }

  lemma FoundIsSame(a: seq<RawClient>, b: seq<RawClient>, email: string, text: Json -> string)
    requires |a| == |b| && forall i :: 0 <= i < |a| ==> a[i].email == b[i].email && SameId(a[i].id, b[i].id)
    ensures FirstWith(a, email) == FirstWith(b, email) && Found(a, email, text) == Found(b, email, text)
  {
    forall i | 0 <= i < |a| ensures HasEmail(email)(a[i]) == HasEmail(email)(b[i]) {
      assert a[i].email == b[i].email;
    }
    FirstWhereSame(HasEmail(email), a, b);
  }

  predicate AllDecoded(rows: seq<Json>, raws: seq<RawClient>) {
    |rows| == |raws| && forall i :: 0 <= i < |rows| ==> DecodeClient(rows[i]) == Ok([raws[i]])
  }

  lemma FoundAmong(body: Json, rows: seq<Json>, raws: seq<RawClient>, email: string, text: Json -> string)
    requires IsClientEnvelope(body, rows) && AllDecoded(rows, raws)
    ensures ClientByEmail(body, email, text) == Ok(Found(raws, email, text))
  {
    SuccessIff(body);
    CollectOnes(DecodeClient, rows, raws);
    ClientsExtract(body, rows);
  }

  lemma SameRowsDecode(a: Json, b: Json)
    requires SameClientRow(a, b)
    ensures DecodeClient(a) == Ok([DecodedClient(a)]) && DecodeClient(b) == Ok([DecodedClient(b)])
    ensures DecodedClient(a).email == DecodedClient(b).email && SameId(DecodedClient(a).id, DecodedClient(b).id)
  {}

  /** The search does not depend on the envelope's shape or on how the ids are written. */
  lemma ClientShapeDoesNotMatter(a: Json, b: Json, rowsA: seq<Json>, rowsB: seq<Json>, email: string,
                                 text: Json -> string)
    requires IsClientEnvelope(a, rowsA) && IsClientEnvelope(b, rowsB) && SameClientRows(rowsA, rowsB)
    ensures ClientByEmail(a, email, text).Ok? && ClientByEmail(a, email, text) == ClientByEmail(b, email, text)
  {
    forall i | 0 <= i < |rowsA| ensures ReadableText(rowsA[i]) && ReadableText(rowsB[i]) {
      assert SameClientRow(rowsA[i], rowsB[i]);
    }
    var rawsA := seq(|rowsA|, i requires 0 <= i < |rowsA| => DecodedClient(rowsA[i]));
    var rawsB := seq(|rowsB|, i requires 0 <= i < |rowsB| => DecodedClient(rowsB[i]));
    forall i | 0 <= i < |rowsA|
      ensures DecodeClient(rowsA[i]) == Ok([rawsA[i]]) && DecodeClient(rowsB[i]) == Ok([rawsB[i]])
      ensures rawsA[i].email == rawsB[i].email && SameId(rawsA[i].id, rawsB[i].id)
    {
      SameRowsDecode(rowsA[i], rowsB[i]);
    }
    FoundAmong(a, rowsA, rawsA, email, text);
    FoundAmong(b, rowsB, rawsB, email, text);
    FoundIsSame(rawsA, rawsB, email, text);
  }

  predicate AllQuotes(s: string) { forall i :: 0 <= i < |s| ==> s[i] == '"' }

  /** The text of an id: none, a text, an integer in decimal, or the source text between quotes. */
  ghost predicate IsIdText(raw: Option<Json>, text: Json -> string, id: string) {
    if raw.None? || raw.value.Null? then id == ""
    else if raw.value.Str? then raw == Some(Str(id))
    else if raw.value.Int? && IsInt64(raw.value.n) then id == Itoa(raw.value.n)
    else
      && (id != "" ==> id[0] != '"' && id[|id| - 1] != '"')
      && exists before, after :: AllQuotes(before) && AllQuotes(after) && text(raw.value) == before + id + after
  }

  lemma IdTextIff(raw: Option<Json>, text: Json -> string, id: string)
    ensures RawToString(raw, text) == id <==> IsIdText(raw, text, id)
  {
    if raw.Some? && !raw.value.Null? && !raw.value.Str? && !(raw.value.Int? && IsInt64(raw.value.n)) {
      var s := text(raw.value);
      TrimIff(IsQuote, s, id);
      forall before, after
        ensures Padded(IsQuote, s, before, id, after) <==>
                AllQuotes(before) && AllQuotes(after) && s == before + id + after
      {}
    }
  }

  /** A row with the email `e`; a null row has no email. */
  predicate EmailIs(row: Json, e: string) { (row.Null? && e == "") || (row.Obj? && HasText(row.fields, "email", e)) }

  predicate Matches(row: Json, wanted: string, e: string) {
    EmailIs(row, e) && EqualFold(TrimSpace(e), TrimSpace(wanted))
  }

  ghost predicate NoMatch(row: Json, wanted: string) { forall e :: !Matches(row, wanted, e) }

  function IdOf(row: Json): Option<Json> {
    if row.Obj? && "id" in row.fields then Some(row.fields["id"]) else None
  }

  ghost predicate Readable(row: Json) { exists e :: EmailIs(row, e) }

  /** Row i is the first that matches, and it is the client. */
  ghost predicate FirstMatch(rows: seq<Json>, wanted: string, i: int, c: Client, text: Json -> string) {
    && 0 <= i < |rows| && Matches(rows[i], wanted, c.email) && IsIdText(IdOf(rows[i]), text, c.id)
    && forall j {:trigger rows[j]} :: 0 <= j < i ==> NoMatch(rows[j], wanted)
  }

  ghost predicate IsFound(rows: seq<Json>, wanted: string, text: Json -> string, found: Option<Client>) {
    match found
    case None => forall j {:trigger rows[j]} :: 0 <= j < |rows| ==> NoMatch(rows[j], wanted)
    case Some(c) => exists i :: FirstMatch(rows, wanted, i, c, text)
  }

  ghost predicate AllReadable(rows: seq<Json>) { forall i {:trigger rows[i]} :: 0 <= i < |rows| ==> Readable(rows[i]) }

  lemma DecodedRow(row: Json, raw: RawClient, wanted: string)
    requires DecodeClient(row) == Ok([raw])
    ensures Readable(row) && raw.id == IdOf(row) && (NoMatch(row, wanted) <==> !SameEmail(raw, wanted))
    ensures forall e :: Matches(row, wanted, e) <==> e == raw.email && SameEmail(raw, wanted)
  {
    forall e ensures EmailIs(row, e) <==> e == raw.email {
      if row.Obj? { TextIff(row.fields, "email", e); }
    }
    assert EmailIs(row, raw.email);
    assert Matches(row, wanted, raw.email) <==> SameEmail(raw, wanted);
  }

  lemma ReadableIff(row: Json)
    ensures Readable(row) <==> DecodeClient(row).Ok?
  {
    if row.Obj? {
      forall e ensures HasText(row.fields, "email", e) <==> TextField(row.fields, "email") == Some(e) {
        TextIff(row.fields, "email", e);
      }
    }
    if DecodeClient(row).Ok? { DecodedRow(row, DecodeClient(row).value[0], ""); }
  }

  lemma FoundFirst(raws: seq<RawClient>, wanted: string) returns (k: nat)
    ensures k == FirstWith(raws, wanted) <= |raws| && forall j :: 0 <= j < k ==> !SameEmail(raws[j], wanted)
    ensures k < |raws| ==> SameEmail(raws[k], wanted)
  {
    k := FirstWith(raws, wanted);
    assert forall j :: 0 <= j < k ==> !HasEmail(wanted)(raws[j]);
  }

  lemma FirstMatchIff(rows: seq<Json>, raws: seq<RawClient>, wanted: string, i: int, c: Client, text: Json -> string)
    requires AllDecoded(rows, raws)
    ensures FirstMatch(rows, wanted, i, c, text) <==>
            i == FirstWith(raws, wanted) < |raws| && Found(raws, wanted, text) == Some(c)
  {
    var k := FoundFirst(raws, wanted);
    forall j | 0 <= j < |rows| ensures NoMatch(rows[j], wanted) <==> !SameEmail(raws[j], wanted) {
      DecodedRow(rows[j], raws[j], wanted);
    }
    if 0 <= i < |rows| {
      DecodedRow(rows[i], raws[i], wanted);
      IdTextIff(raws[i].id, text, c.id);
    }
  }

  lemma FoundIff(rows: seq<Json>, raws: seq<RawClient>, wanted: string, text: Json -> string, found: Option<Client>)
    requires AllDecoded(rows, raws)
    ensures Found(raws, wanted, text) == found <==> IsFound(rows, wanted, text, found)
  {
    match found
    case None =>
      var k := FoundFirst(raws, wanted);
      forall j | 0 <= j < |rows| ensures NoMatch(rows[j], wanted) <==> !SameEmail(raws[j], wanted) {
        DecodedRow(rows[j], raws[j], wanted);
      }
    case Some(c) =>
      forall i ensures FirstMatch(rows, wanted, i, c, text) <==>
                       i == FirstWith(raws, wanted) < |raws| && Found(raws, wanted, text) == Some(c) {
        FirstMatchIff(rows, raws, wanted, i, c, text);
      }
      assert Found(raws, wanted, text) == found ==> FirstMatch(rows, wanted, FirstWith(raws, wanted), c, text);
  }

  /** The search finds a client, or none, exactly when the answer is an envelope, of any shape, of
      readable rows in which that client is the first with the email, or there is none. */
  lemma ClientIff(body: Json, wanted: string, text: Json -> string, found: Option<Client>)
    ensures ClientByEmail(body, wanted, text) == Ok(found)
       <==> exists rows :: IsClientEnvelope(body, rows) && AllReadable(rows) && IsFound(rows, wanted, text, found)
  {
    SuccessIff(body);
    if ClientByEmail(body, wanted, text) == Ok(found) {
      ExtractedIsAClientEnvelope(body);
      var rows :| IsClientEnvelope(body, rows);
      ClientOfRows(body, rows, wanted, text, found);
    }
    forall rows | IsClientEnvelope(body, rows)
      ensures AllReadable(rows) && IsFound(rows, wanted, text, found)
         <==> ClientByEmail(body, wanted, text) == Ok(found)
    {
      ClientOfRows(body, rows, wanted, text, found);
    }
  }

  lemma AllReadableIff(rows: seq<Json>)
    ensures AllReadable(rows) <==> Collect(DecodeClient, rows).Ok?
    ensures Collect(DecodeClient, rows).Ok? ==> AllDecoded(rows, Collect(DecodeClient, rows).value)
  {
    forall i | 0 <= i < |rows| ensures Readable(rows[i]) <==> DecodeClient(rows[i]).Ok? { ReadableIff(rows[i]); }
    if AllReadable(rows) {
      assert forall i :: 0 <= i < |rows| ==> DecodeClient(rows[i]).Ok?;
      var raws :=
        seq(|rows|, i requires 0 <= i < |rows| && DecodeClient(rows[i]).Ok? => DecodeClient(rows[i]).value[0]);
      CollectOnes(DecodeClient, rows, raws);
    }
    if Collect(DecodeClient, rows).Ok? { CollectIff(DecodeClient, rows, Collect(DecodeClient, rows).value); }
  }

  lemma ClientOfRows(body: Json, rows: seq<Json>, wanted: string, text: Json -> string, found: Option<Client>)
    requires IsClientEnvelope(body, rows)
    ensures ClientByEmail(body, wanted, text) == Ok(found) <==> AllReadable(rows) && IsFound(rows, wanted, text, found)
  {
    SuccessIff(body);
    ClientsExtract(body, rows);
    AllReadableIff(rows);
    if AllReadable(rows) { FoundIff(rows, Collect(DecodeClient, rows).value, wanted, text, found); }
  }

  // ------------------------------------------------------------- client details

  /** The custom fields by name; rows without a name are dropped. */
  function CustomFields(items: seq<Json>): map<string, string> {
    if items == [] then map[]
    else
      var fields, last := CustomFields(items[..|items| - 1]), items[|items| - 1];
      if TextIn(last, "fieldname") == "" then fields else fields[TextIn(last, "fieldname") := TextIn(last, "value")]
  }

  /** Row i is the last one with the name. */
  predicate LastNamed(items: seq<Json>, name: string, i: int) {
    && 0 <= i < |items| && TextIn(items[i], "fieldname") == name
    && forall j :: i < j < |items| ==> TextIn(items[j], "fieldname") != name
  }

  /** A field holds a value exactly when it has a name and the last row with that name has the value. */
  lemma {:induction false} WhatAFieldHolds(items: seq<Json>, name: string, value: string)
    ensures name in CustomFields(items) && CustomFields(items)[name] == value
       <==> name != "" && exists i :: LastNamed(items, name, i) && TextIn(items[i], "value") == value
  {
    if items != [] {
      var n := |items| - 1;
      var front := items[..n];
      WhatAFieldHolds(front, name, value);
      if TextIn(items[n], "fieldname") == name {
        assert LastNamed(items, name, n);
        assert forall i :: LastNamed(items, name, i) ==> i == n;
      } else {
        assert forall i :: LastNamed(items, name, i) <==> LastNamed(front, name, i);
      }
    }
  }

  predicate AllObjects(items: seq<Json>) { forall i :: 0 <= i < |items| ==> items[i].Obj? || items[i].Null? }

  /** A list of objects; null stands for an object without fields. */
  function ObjectsIn(fields: map<string, Json>, key: string): Option<seq<Json>> {
    if key !in fields || fields[key].Null? then Some([])
    else if fields[key].Arr? && AllObjects(fields[key].items) then Some(fields[key].items)
    else None
  }

  function DetailsIn(o: map<string, Json>, text: Json -> string): Result<ClientDetails, string> {
    var email, first, last, custom :=
      TextField(o, "email"), TextField(o, "firstname"), TextField(o, "lastname"), ObjectsIn(o, "customfields");
    if email.None? || first.None? || last.None? || custom.None? then Err("decode client details")
    else
      Ok(ClientDetails(RawToString(RawField(o, "id"), text), email.value, first.value, last.value,
                       CustomFields(custom.value)))
  }

  /** A client that is absent or null leaves the details empty. */
  function Details(body: Json, text: Json -> string): Result<ClientDetails, string> {
    if !Succeeded(body) then Err("whmcs api error")
    else match RawField(body.fields, "client")
         case None => DetailsIn(map[], text)
         case Some(Null) => DetailsIn(map[], text)
         case Some(Obj(o)) => DetailsIn(o, text)
         case Some(_) => Err("decode client details")
  }

  /** The client of a details answer: no client and null are one without fields. */
  predicate HasClient(body: Json, o: map<string, Json>) {
    body.Obj? && if "client" !in body.fields then o == map[]
                 else body.fields["client"] == Obj(o) || (body.fields["client"].Null? && o == map[])
  }

  predicate HasItems(o: map<string, Json>, key: string, items: seq<Json>) {
    if key in o then o[key] == Arr(items) || (o[key].Null? && items == []) else items == []
  }

  ghost predicate HoldFields(items: seq<Json>, fields: map<string, string>) {
    forall name, value :: Holds(fields, name, value) <==>
                          name != "" && exists i :: LastNamed(items, name, i) && TextIn(items[i], "value") == value
  }

  predicate Holds(fields: map<string, string>, name: string, value: string) { name in fields && fields[name] == value }

  lemma SameHolds(a: map<string, string>, b: map<string, string>)
    requires forall name, value :: Holds(a, name, value) <==> Holds(b, name, value)
    ensures a == b
  {
    forall name ensures name in a <==> name in b {
      assert name in a ==> Holds(a, name, a[name]);
      assert name in b ==> Holds(b, name, b[name]);
    }
    forall name | name in a ensures a[name] == b[name] { assert Holds(b, name, a[name]); }
  }

  lemma FieldsIff(items: seq<Json>, fields: map<string, string>)
    ensures CustomFields(items) == fields <==> HoldFields(items, fields)
  {
    forall name, value
      ensures Holds(CustomFields(items), name, value) <==>
              name != "" && exists i :: LastNamed(items, name, i) && TextIn(items[i], "value") == value
    {
      WhatAFieldHolds(items, name, value);
    }
    if HoldFields(items, fields) { SameHolds(CustomFields(items), fields); }
  }

  /** What the fields of a client must be to mean the details. */
  ghost predicate AreDetails(o: map<string, Json>, text: Json -> string, d: ClientDetails) {
    && IsIdText(IdOf(Obj(o)), text, d.id)
    && HasText(o, "email", d.email) && HasText(o, "firstname", d.firstName) && HasText(o, "lastname", d.lastName)
    && exists items :: HasItems(o, "customfields", items) && AllObjects(items) && HoldFields(items, d.customFields)
  }

  lemma DetailsInIff(o: map<string, Json>, text: Json -> string, d: ClientDetails)
    ensures DetailsIn(o, text) == Ok(d) <==> AreDetails(o, text, d)
  {
    IdTextIff(IdOf(Obj(o)), text, d.id);
    TextIff(o, "email", d.email);
    TextIff(o, "firstname", d.firstName);
    TextIff(o, "lastname", d.lastName);
    forall items
      ensures HasItems(o, "customfields", items) && AllObjects(items)
         <==> ObjectsIn(o, "customfields") == Some(items)
    {}
    forall items ensures CustomFields(items) == d.customFields <==> HoldFields(items, d.customFields) {
      FieldsIff(items, d.customFields);
    }
  }

  /** GetClientsDetails gives details exactly when the answer's client has them, field by field. */
  lemma DetailsIff(body: Json, text: Json -> string, d: ClientDetails)
    ensures Details(body, text) == Ok(d)
       <==> IsSuccess(body) && exists o :: HasClient(body, o) && AreDetails(o, text, d)
  {
    SuccessIff(body);
    if IsSuccess(body) {
      DetailsInIff(map[], text, d);
      if "client" in body.fields && body.fields["client"].Obj? { DetailsInIff(body.fields["client"].fields, text, d); }
    }
  }

  /** getClientsDetails, after the request. */
  method GetClientsDetails(body: Json, text: Json -> string) returns (r: Result<ClientDetails, string>)
    ensures r == Details(body, text)
    ensures r.Ok? ==> Named(r.value)
  {
    if !Succeeded(body) {
      return Err("whmcs api error");
    }
    var client := RawField(body.fields, "client");
    if client.Some? && !client.value.Null? && !client.value.Obj? {
      return Err("decode client details");
    }
    var o := if client.Some? && client.value.Obj? then client.value.fields else map[];
    var email, first, last := TextField(o, "email"), TextField(o, "firstname"), TextField(o, "lastname");
    var custom := ObjectsIn(o, "customfields");
    if email.None? || first.None? || last.None? || custom.None? {
      return Err("decode client details");
    }
    var fields := ReadCustomFields(custom.value);
    r := Ok(ClientDetails(RawToString(RawField(o, "id"), text), email.value, first.value, last.value, fields));
  }

  method ReadCustomFields(items: seq<Json>) returns (fields: map<string, string>)
    ensures fields == CustomFields(items) && "" !in fields
  {
    fields := map[];
    for i := 0 to |items|
      invariant fields == CustomFields(items[..i]) && "" !in fields
    {
      assert items[..i + 1][..i] == items[..i];
      var name := TextIn(items[i], "fieldname");
      var value := TextIn(items[i], "value");
      if name != "" {
        fields := fields[name := value];
      }
    }
    assert items[..|items|] == items;
  }
}
