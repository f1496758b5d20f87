/** The string functions of Go and Swift that the configuration passes through. */
module Text {
  import opened Prelude

  /** White space as Go's `unicode.IsSpace` has it. */
  predicate IsSpace(c: char) {
    || '\U{09}' <= c <= '\U{0D}' || c == ' ' || c == '\U{85}' || c == '\U{A0}'
    || c == '\U{1680}' || '\U{2000}' <= c <= '\U{200A}' || c == '\U{2028}' || c == '\U{2029}'
    || c == '\U{202F}' || c == '\U{205F}' || c == '\U{3000}'
  }

  predicate NoSpace(s: string) { forall i :: 0 <= i < |s| ==> !IsSpace(s[i]) }

  function TrimLeft(s: string): string {
    if s != "" && IsSpace(s[0]) then TrimLeft(s[1..]) else s
  }

  function TrimRight(s: string): string {
    if s != "" && IsSpace(s[|s| - 1]) then TrimRight(s[..|s| - 1]) else s
  }

  /** `strings.TrimSpace`. */
  function TrimSpace(s: string): string { TrimRight(TrimLeft(s)) }

  lemma TrimKeepsWords(s: string)
    requires NoSpace(s)
    ensures TrimSpace(s) == s
  {}

  /** Nothing is left exactly of a text of white space alone. */
  lemma BlankExactly(s: string)
    ensures TrimSpace(s) == "" <==> forall i :: 0 <= i < |s| ==> IsSpace(s[i])
  {
    LeftOfBlank(s);
    RightOfBlank(TrimLeft(s));
  }

  lemma {:induction false} LeftOfBlank(s: string)
    ensures TrimLeft(s) == "" <==> forall i :: 0 <= i < |s| ==> IsSpace(s[i])
    ensures TrimLeft(s) != "" ==> !IsSpace(TrimLeft(s)[0])
  {
    if s != "" && IsSpace(s[0]) {
      LeftOfBlank(s[1..]);
      assert forall i :: 1 <= i < |s| ==> s[i] == s[1..][i - 1];
    }
  }

  lemma {:induction false} RightOfBlank(s: string)
    requires s != "" ==> !IsSpace(s[0])
    ensures TrimRight(s) == "" <==> s == ""
  {
    if s != "" && IsSpace(s[|s| - 1]) { RightOfBlank(s[..|s| - 1]); }
  }

  /** The white space below 128: tab, newline, vertical tab, form feed, carriage return and blank. */
  lemma AsciiSpaces(c: char)
    requires c as int < 128
    ensures IsSpace(c) <==> c == '\t' || c == '\n' || c == '\U{0B}' || c == '\U{0C}' || c == '\r' || c == ' '
  {}

  predicate HasPrefix(s: string, prefix: string) { prefix <= s }

  /** `strings.Fields`: the words between runs of white space, scanned left to right. */
  function Fields(s: string): seq<string> { Scan("", s) }

  function Scan(word: string, s: string): seq<string>
    decreases s
  {
    if s == "" then Word(word)
    else if IsSpace(s[0]) then Word(word) + Scan("", s[1..])
    else Scan(word + [s[0]], s[1..])
  }

  function Word(word: string): seq<string> { if word == "" then [] else [word] }

  lemma {:induction false} ScanSplits(word: string, left: string, space: char, right: string)
    requires IsSpace(space)
    ensures Scan(word, left + [space] + right) == Scan(word, left) + Scan("", right)
    decreases left
  {
    var s := left + [space] + right;
    if left == "" {
      assert s[1..] == right;
    } else {
      assert s[1..] == left[1..] + [space] + right;
      if IsSpace(left[0]) {
        ScanSplits("", left[1..], space, right);
        assert Word(word) + (Scan("", left[1..]) + Scan("", right)) == Word(word) + Scan("", left[1..]) + Scan("", right);
      } else {
        ScanSplits(word + [left[0]], left[1..], space, right);
      }
    }
  }

  lemma {:induction false} ScanWord(word: string, s: string)
    requires NoSpace(s)
    ensures Scan(word, s) == Word(word + s)
    decreases s
  {
    if s == "" {
      assert word + s == word;
    } else {
      ScanWord(word + [s[0]], s[1..]);
      assert word + [s[0]] + s[1..] == word + s;
    }
  }

  lemma {:induction false} ScanFindsWords(word: string, s: string)
    requires NoSpace(word)
    ensures forall f :: f in Scan(word, s) ==> f != "" && NoSpace(f)
    decreases s
  {
    if s != "" {
      if IsSpace(s[0]) { ScanFindsWords("", s[1..]); } else { ScanFindsWords(word + [s[0]], s[1..]); }
    }
  }

  /** Array joining with one blank. */
  function Join(parts: seq<string>): string {
    if parts == [] then ""
    else if |parts| == 1 then parts[0]
    else parts[0] + [' '] + Join(parts[1..])
  }

  function FieldsOfAll(parts: seq<string>): seq<string> {
    if parts == [] then [] else Fields(parts[0]) + FieldsOfAll(parts[1..])
  }

  /** Splitting what was joined: each part contributes its own words, in order. */
  lemma {:induction false} FieldsOfJoin(parts: seq<string>)
    ensures Fields(Join(parts)) == FieldsOfAll(parts)
  {
    if |parts| == 1 {
      assert parts[1..] == [];
    } else if |parts| > 1 {
      FieldsOfJoin(parts[1..]);
      ScanSplits("", parts[0], ' ', Join(parts[1..]));
    }
  }

  lemma Regroup(a: seq<string>, b: seq<string>, c: seq<string>)
    ensures a + (b + c) == a + b + c
  {}

  lemma {:induction false} FieldsOfAllConcat(a: seq<string>, b: seq<string>)
    ensures FieldsOfAll(a + b) == FieldsOfAll(a) + FieldsOfAll(b)
  {
    if a == [] {
      assert a + b == b;
    } else {
      FieldsOfAllConcat(a[1..], b);
      assert (a + b)[1..] == a[1..] + b;
      Regroup(Fields(a[0]), FieldsOfAll(a[1..]), FieldsOfAll(b));
    }
  }

  lemma FieldsOfWord(s: string)
    requires NoSpace(s) && s != ""
    ensures Fields(s) == [s] && FieldsOfAll([s]) == [s]
  {
    ScanWord("", s);
    assert [s][1..] == [];
    assert "" + s == s;
  }

  // Decimal numbers.

  const MIN_INT64: int := -0x8000_0000_0000_0000
  const MAX_INT64: int := 0x7FFF_FFFF_FFFF_FFFF
  const MAX_UINT64: int := 0xFFFF_FFFF_FFFF_FFFF
  const TWO_32: int := 0x1_0000_0000

  /** Go's `int` and Swift's `Int` on the 64-bit hosts and guests the project builds for. */
  type Int64 = x: int | MIN_INT64 <= x <= MAX_INT64

  /** Go's conversion of an `int` to `uint32`. */
  function ToUInt32(n: int): int { n % TWO_32 }

  function DigitChar(d: nat): char
    requires d < 10
  {
    ('0' as int + d) as char
  }

  function Digits(n: nat): string {
    if n < 10 then [DigitChar(n)] else Digits(n / 10) + [DigitChar(n % 10)]
  }

  /** `strconv.Itoa` and Swift's integer interpolation. */
  function Itoa(n: int): string { if n < 0 then ['-'] + Digits(-n) else Digits(n) }

  function DigitValue(c: char): Option<nat> {
    if '0' <= c <= '9' then Some(c as int - '0' as int) else None
  }

  function ParseDigits(s: string): Option<nat> {
    if s == "" then None
    else if |s| == 1 then DigitValue(s[0])
    else
      match (ParseDigits(s[..|s| - 1]), DigitValue(s[|s| - 1]))
      case (Some(n), Some(d)) => Some(10 * n + d)
      case _ => None
  }

  function InRange(n: Option<int>, low: int, high: int): Option<int> {
    if n.Some? && low <= n.value <= high then n else None
  }

  /** A decimal with an optional sign. */
  function ParseSigned(s: string): Option<int> {
    if s != "" && s[0] == '-' then
      (match ParseDigits(s[1..]) case Some(n) => Some(-(n as int)) case None => None)
    else if s != "" && s[0] == '+' then
      (match ParseDigits(s[1..]) case Some(n) => Some(n as int) case None => None)
    else
      (match ParseDigits(s) case Some(n) => Some(n as int) case None => None)
  }

  /** `strconv.Atoi` and Swift's `Int(_:)`. */
  function ParseInt64(s: string): Option<int> { InRange(ParseSigned(s), MIN_INT64, MAX_INT64) }

  /** Swift's `UInt64(_:)`. */
  function ParseUInt64(s: string): Option<int> { InRange(ParseSigned(s), 0, MAX_UINT64) }

  lemma {:induction false} DigitsAreDigits(n: nat)
    ensures Digits(n) != "" && forall i :: 0 <= i < |Digits(n)| ==> '0' <= Digits(n)[i] <= '9'
  {
    if n >= 10 { DigitsAreDigits(n / 10); }
  }

  lemma {:induction false} DigitsParse(n: nat)
    ensures ParseDigits(Digits(n)) == Some(n)
  {
    if n >= 10 {
      DigitsParse(n / 10);
      var s := Digits(n);
      assert s[..|s| - 1] == Digits(n / 10) && s[|s| - 1] == DigitChar(n % 10);
      DigitsAreDigits(n / 10);
    }
  }

  /** Printing and parsing are inverse on every integer, and a printed integer is one word. */
  lemma ItoaParses(n: int)
    ensures ParseSigned(Itoa(n)) == Some(n)
    ensures Itoa(n) != "" && NoSpace(Itoa(n))
  {
    var m: nat := if n < 0 then -n else n;
    DigitsParse(m);
    DigitsAreDigits(m);
    if n < 0 {
      assert Itoa(n)[1..] == Digits(-n);
    }
  }

  lemma ItoaParsesAsInt64(n: Int64)
    ensures ParseInt64(Itoa(n)) == Some(n)
  {
    ItoaParses(n);
    InRangeIs(ParseSigned(Itoa(n)), n);
  }

  lemma InRangeIs(parsed: Option<int>, n: Int64)
    requires parsed == Some(n)
    ensures InRange(parsed, MIN_INT64, MAX_INT64) == Some(n)
  {}

  lemma SmallUInt32(n: int)
    requires 0 <= n < TWO_32
    ensures ToUInt32(n) == n
  {}
}
