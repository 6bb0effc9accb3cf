/** The string functions of Go's standard library that the plugin relies on:
    strings.TrimSpace, TrimRight, Split and Join, and strconv.Itoa and Atoi. */
module Text {
  import opened Basics

  const MAX_INT64 := 0x7FFF_FFFF_FFFF_FFFF
  const MIN_INT64 := -0x8000_0000_0000_0000

  predicate IsInt64(n: int) { MIN_INT64 <= n <= MAX_INT64 }

  // ---------------------------------------------------------------- trimming

  /** unicode.IsSpace */
  predicate IsSpace(c: char) {
    || '\t' <= c <= '\r' || c == ' ' || c == '\U{0085}' || c == '\U{00A0}' || c == '\U{1680}'
    || '\U{2000}' <= c <= '\U{200A}' || c == '\U{2028}' || c == '\U{2029}' || c == '\U{202F}'
    || c == '\U{205F}' || c == '\U{3000}'
  }

  predicate IsSlash(c: char) { c == '/' }

  predicate AllOf(p: char -> bool, s: string) {
    forall i :: 0 <= i < |s| ==> p(s[i])
  }

  function TrimLeft(p: char -> bool, s: string): string {
    if s != "" && p(s[0]) then TrimLeft(p, s[1..]) else s
  }

  function TrimRight(p: char -> bool, s: string): string {
    if s != "" && p(s[|s| - 1]) then TrimRight(p, s[..|s| - 1]) else s
  }

  function TrimSpace(s: string): string { TrimRight(IsSpace, TrimLeft(IsSpace, s)) }

  /** Neither end can be trimmed any further. */
  predicate Tight(p: char -> bool, s: string) {
    s != "" ==> !p(s[0]) && !p(s[|s| - 1])
  }

  lemma {:induction false} TrimLeftPad(p: char -> bool, pad: string, s: string)
    requires AllOf(p, pad)
    ensures TrimLeft(p, pad + s) == TrimLeft(p, s)
  {
    if pad == "" {
      assert pad + s == s;
    } else {
      assert (pad + s)[1..] == pad[1..] + s;
      TrimLeftPad(p, pad[1..], s);
    }
  }

  lemma {:induction false} TrimRightPad(p: char -> bool, s: string, pad: string)
    requires AllOf(p, pad)
    ensures TrimRight(p, s + pad) == TrimRight(p, s)
  {
    if pad == "" {
      assert s + pad == s;
    } else {
      assert (s + pad)[..|s + pad| - 1] == s + pad[..|pad| - 1];
      TrimRightPad(p, s, pad[..|pad| - 1]);
    }
  }

  lemma TrimBoth(p: char -> bool, before: string, core: string, after: string)
    requires AllOf(p, before) && AllOf(p, after) && Tight(p, core)
    ensures TrimRight(p, TrimLeft(p, before + core + after)) == core
  {
    assert before + core + after == before + (core + after);
    TrimLeftPad(p, before, core + after);
    if core == "" {
      assert core + after == after + "";
      TrimLeftPad(p, after, "");
    } else {
      TrimRightPad(p, core, after);
    }
  }

  lemma TrimPadded(before: string, core: string, after: string)
    requires AllOf(IsSpace, before) && AllOf(IsSpace, after) && Tight(IsSpace, core)
    ensures TrimSpace(before + core + after) == core
  {
    TrimBoth(IsSpace, before, core, after);
  }

  lemma {:induction false} TrimLeftCuts(p: char -> bool, s: string) returns (before: string)
    ensures AllOf(p, before) && s == before + TrimLeft(p, s)
  {
    before := "";
    if s != "" && p(s[0]) {
      before := TrimLeftCuts(p, s[1..]);
      before := [s[0]] + before;
      assert s == [s[0]] + s[1..];
    }
  }

  lemma {:induction false} TrimRightCuts(p: char -> bool, s: string) returns (after: string)
    ensures AllOf(p, after) && s == TrimRight(p, s) + after
  {
    after := "";
    if s != "" && p(s[|s| - 1]) {
      after := TrimRightCuts(p, s[..|s| - 1]);
      after := after + [s[|s| - 1]];
      assert s == s[..|s| - 1] + [s[|s| - 1]];
    }
  }

  /** The text is the core with something on either side that is trimmed. */
  predicate Padded(p: char -> bool, s: string, before: string, core: string, after: string) {
    s == before + core + after && AllOf(p, before) && AllOf(p, after)
  }

  lemma TrimCuts(p: char -> bool, s: string) returns (before: string, after: string)
    ensures Padded(p, s, before, TrimRight(p, TrimLeft(p, s)), after)
  {
    before := TrimLeftCuts(p, s);
    var rest := TrimLeft(p, s);
    after := TrimRightCuts(p, rest);
    assert before + (TrimRight(p, rest) + after) == before + TrimRight(p, rest) + after;
  }

  lemma TrimIsTight(p: char -> bool, s: string)
    ensures Tight(p, TrimRight(p, TrimLeft(p, s)))
  {
    TrimLeftShape(p, s);
    TrimRightShape(p, TrimLeft(p, s));
  }

  /** Trimming both ends leaves the one core that cannot be trimmed any further. */
  lemma TrimIff(p: char -> bool, s: string, core: string)
    ensures TrimRight(p, TrimLeft(p, s)) == core
       <==> Tight(p, core) && exists before, after :: Padded(p, s, before, core, after)
  {
    TrimIsTight(p, s);
    var cutLeft, cutRight := TrimCuts(p, s);
    forall before, after | Tight(p, core) && Padded(p, s, before, core, after)
      ensures TrimRight(p, TrimLeft(p, s)) == core
    {
      TrimBoth(p, before, core, after);
    }
  }

  lemma {:induction false} TrimLeftShape(p: char -> bool, s: string)
    ensures var t := TrimLeft(p, s); |t| <= |s| && (t != "" ==> !p(t[0]) && t[|t| - 1] == s[|s| - 1])
  {
    if s != "" && p(s[0]) { TrimLeftShape(p, s[1..]); }
  }

  lemma {:induction false} TrimRightShape(p: char -> bool, s: string)
    ensures var t := TrimRight(p, s); |t| <= |s| && (t != "" ==> !p(t[|t| - 1]) && t[0] == s[0])
  {
    if s != "" && p(s[|s| - 1]) { TrimRightShape(p, s[..|s| - 1]); }
  }

  /** What TrimSpace returns has no space at either end, and trimming it again changes nothing. */
  lemma TrimSpaceIsTight(s: string)
    ensures Tight(IsSpace, TrimSpace(s))
    ensures TrimSpace(TrimSpace(s)) == TrimSpace(s)
  {
    TrimIsTight(IsSpace, s);
  }

  /** What follows a text that does not end in a slash is what trimming slashes removes. */
  lemma SlashesGo(core: string, slashes: string)
    requires AllOf(IsSlash, slashes) && (core != "" ==> core[|core| - 1] != '/')
    ensures TrimRight(IsSlash, core + slashes) == core
  {
    TrimRightPad(IsSlash, core, slashes);
  }

  // ------------------------------------------------------------ case folding

  function FoldChar(c: char): char {
    if 'A' <= c <= 'Z' then (c as int - 'A' as int + 'a' as int) as char else c
  }

  /** strings.EqualFold for ASCII letters. */
  predicate EqualFold(a: string, b: string) {
    |a| == |b| && forall i :: 0 <= i < |a| ==> FoldChar(a[i]) == FoldChar(b[i])
  }

  /** The same character, or the two cases of one ASCII letter. */
  predicate SameLetter(c: char, d: char) {
    || c == d
    || ('A' <= c <= 'Z' && d as int == c as int + 32)
    || ('A' <= d <= 'Z' && c as int == d as int + 32)
  }

  lemma EqualFoldIff(a: string, b: string)
    ensures EqualFold(a, b) <==> |a| == |b| && forall i :: 0 <= i < |a| ==> SameLetter(a[i], b[i])
  {
    forall i | 0 <= i < |a| && i < |b| ensures FoldChar(a[i]) == FoldChar(b[i]) <==> SameLetter(a[i], b[i]) {}
  }

  // ------------------------------------------------------- decimal numbers

  predicate IsDigit(c: char) { '0' <= c <= '9' }

  function Digit(d: nat): (c: char)
    requires d < 10
    ensures IsDigit(c) && c as int - '0' as int == d
  {
    (d + '0' as int) as char
  }

  function Digits(n: nat): string {
    if n < 10 then [Digit(n)] else Digits(n / 10) + [Digit(n % 10)]
  }

  /** strconv.Itoa */
  function Itoa(n: int): string {
    if n < 0 then "-" + Digits(-n) else Digits(n)
  }

  function Value(s: string): nat
    requires AllOf(IsDigit, s)
  {
    if s == "" then 0
    else 10 * Value(s[..|s| - 1]) + (s[|s| - 1] as int - '0' as int)
  }

  /** strconv.Atoi on a 64-bit platform: an optional sign, digits, and a range check. */
  function Atoi(s: string): Option<int> {
    var negative := s != "" && s[0] == '-';
    var body := if s != "" && (s[0] == '-' || s[0] == '+') then s[1..] else s;
    if body == "" || !AllOf(IsDigit, body) then None
    else
      var magnitude: int := Value(body);
      var n := if negative then -magnitude else magnitude;
      if IsInt64(n) then Some(n) else None
  }

  lemma {:induction false} DigitsValue(n: nat)
    ensures Digits(n) != "" && AllOf(IsDigit, Digits(n)) && Value(Digits(n)) == n
  {
    if n >= 10 {
      DigitsValue(n / 10);
      var s := Digits(n);
      assert s[..|s| - 1] == Digits(n / 10);
    }
  }

  /** Itoa prints text that Atoi reads back as the same number. */
  lemma AtoiItoa(n: int)
    requires IsInt64(n)
    ensures Atoi(Itoa(n)) == Some(n)
  {
    DigitsValue(if n < 0 then -n else n);
    if n < 0 { assert Itoa(n)[1..] == Digits(-n); }
  }

  lemma ItoaInjective(m: int, n: int)
    ensures Itoa(m) == Itoa(n) <==> m == n
  {
    var (p, q) := (if m < 0 then -m else m, if n < 0 then -n else n);
    DigitsValue(p);
    DigitsValue(q);
    assert IsDigit(Digits(p)[0]) && IsDigit(Digits(q)[0]);
    if m < 0 { assert Itoa(m)[0] == '-' && Itoa(m)[1..] == Digits(p); }
    if n < 0 { assert Itoa(n)[0] == '-' && Itoa(n)[1..] == Digits(q); }
  }

  predicate AllZeros(s: string) { forall i :: 0 <= i < |s| ==> s[i] == '0' }

  lemma {:induction false} LeadingZeros(zeros: string, s: string)
    requires AllZeros(zeros) && AllOf(IsDigit, s)
    ensures AllOf(IsDigit, zeros + s) && Value(zeros + s) == Value(s)
  {
    if s != "" {
      assert (zeros + s)[..|zeros + s| - 1] == zeros + s[..|s| - 1];
      LeadingZeros(zeros, s[..|s| - 1]);
    } else if zeros != "" {
      assert zeros + s == zeros && zeros[..|zeros| - 1] + s == zeros[..|zeros| - 1];
      LeadingZeros(zeros[..|zeros| - 1], s);
    }
  }

  lemma {:induction false} DigitsNormal(body: string) returns (zeros: string)
    requires body != "" && AllOf(IsDigit, body)
    ensures AllZeros(zeros) && body == zeros + Digits(Value(body))
  {
    var front, d := body[..|body| - 1], body[|body| - 1] as int - '0' as int;
    assert body == front + [Digit(d)];
    if front == "" {
      assert Value(front) == 0;
      zeros := "";
    } else {
      zeros := DigitsNormal(front);
      var v := Value(front);
      if v > 0 {
        assert Digits(10 * v + d) == Digits(v) + [Digit(d)];
        assert body == zeros + (Digits(v) + [Digit(d)]);
      } else {
        zeros := zeros + Digits(0);
        assert zeros == front;
      }
    }
  }

  /** A decimal text of the number: leading zeros, and a sign where it fits. */
  predicate DecimalText(s: string, zeros: string, n: int) {
    && AllZeros(zeros)
    && ((n >= 0 && (s == zeros + Digits(n) || s == "+" + (zeros + Digits(n))))
        || (n <= 0 && s == "-" + (zeros + Digits(-n))))
  }

  lemma SignedReads(body: string, n: int)
    requires body != "" && AllOf(IsDigit, body) && Value(body) == n
    ensures n <= MAX_INT64 ==> Atoi(body) == Some(n) && Atoi("+" + body) == Some(n)
    ensures MIN_INT64 <= -n ==> Atoi("-" + body) == Some(-n)
  {
    assert IsDigit(body[0]);
    var plus, minus := "+" + body, "-" + body;
    assert plus[1..] == body && minus[1..] == body;
  }

  lemma WrittenReads(s: string, zeros: string, n: int)
    requires IsInt64(n) && DecimalText(s, zeros, n)
    ensures Atoi(s) == Some(n)
  {
    var m: nat := if n < 0 then -n else n;
    DigitsValue(m);
    LeadingZeros(zeros, Digits(m));
    SignedReads(zeros + Digits(m), m);
  }

  /** Atoi reads exactly the decimal texts of the int64 numbers, with leading zeros and a sign. */
  lemma AtoiIff(s: string, n: int)
    ensures Atoi(s) == Some(n) <==> IsInt64(n) && exists zeros :: DecimalText(s, zeros, n)
  {
    if Atoi(s) == Some(n) {
      var body := if s[0] == '-' || s[0] == '+' then s[1..] else s;
      var zeros := DigitsNormal(body);
      assert s == if s[0] == '-' || s[0] == '+' then [s[0]] + body else body;
      assert DecimalText(s, zeros, n);
    }
    if IsInt64(n) && exists zeros :: DecimalText(s, zeros, n) {
      var zeros :| DecimalText(s, zeros, n);
      WrittenReads(s, zeros, n);
    }
  }

  // -------------------------------------------------------- split and join

  /** strings.Split for a one-character separator; the empty string has one empty field. */
  function Split(s: string, sep: char): (r: seq<string>)
    ensures r != []
  {
    if s == "" then [""]
    else
      var rest := Split(s[1..], sep);
      if s[0] == sep then [""] + rest else [[s[0]] + rest[0]] + rest[1..]
  }

  function Join(parts: seq<string>, sep: char): string {
    if parts == [] then ""
    else if |parts| == 1 then parts[0]
    else parts[0] + [sep] + Join(parts[1..], sep)
  }

  lemma {:induction false} SplitPrefix(head: string, sep: char, tail: string)
    requires sep !in head
    ensures Split(head + [sep] + tail, sep) == [head] + Split(tail, sep)
    ensures Split(head, sep) == [head]
  {
    if head == "" {
      assert (head + [sep] + tail)[1..] == tail;
    } else {
      assert (head + [sep] + tail)[1..] == head[1..] + [sep] + tail;
      SplitPrefix(head[1..], sep, tail);
      assert head[0] != sep && sep !in head[1..];
      assert [head[0]] + head[1..] == head;
    }
  }

  /** Splitting undoes joining, for every non-empty list of separator-free fields. */
  lemma {:induction false} SplitJoin(parts: seq<string>, sep: char)
    requires parts != []
    requires forall i :: 0 <= i < |parts| ==> sep !in parts[i]
    ensures Split(Join(parts, sep), sep) == parts
  {
    if |parts| == 1 {
      SplitPrefix(parts[0], sep, "");
    } else {
      SplitPrefix(parts[0], sep, Join(parts[1..], sep));
      SplitJoin(parts[1..], sep);
    }
  }
}
