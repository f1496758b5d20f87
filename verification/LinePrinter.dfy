/**
  `linePrinterStream` (vm/container.go:17-69): container output printed line by line. The scanner
  also returns a last line without a newline and drops a carriage return before the line's end,
  while every line is counted with one byte more than its text.
*/
module LinePrinter {
  type Byte = x: int | 0 <= x < 256

  type Bytes = seq<Byte>

  const NL: Byte := 10
  const CR: Byte := 13

  /** The scanner gives up on a line of this many bytes. */
  const MAX_LINE: nat := 16 * 1024 * 1024

  // The scanner.

  /** A line as it stands in the data, without its newline if it has one. */
  datatype Raw = Raw(text: Bytes, ended: bool)

  /** One more byte in front of some lines. */
  function Prepend(c: Byte, raws: seq<Raw>): seq<Raw> {
    if raws == [] then [Raw([c], false)] else [Raw([c] + raws[0].text, raws[0].ended)] + raws[1..]
  }

  function RawLines(s: Bytes): seq<Raw> {
    if s == [] then []
    else if s[0] == NL then [Raw([], true)] + RawLines(s[1..])
    else Prepend(s[0], RawLines(s[1..]))
  }

  /** The place of the first newline, or the length. */
  function IndexOf(s: Bytes): (i: nat)
    ensures i <= |s|
  {
    if s == [] || s[0] == NL then 0 else 1 + IndexOf(s[1..])
  }

  /** What follows the first line. */
  function Following(s: Bytes): Bytes { if IndexOf(s) == |s| then [] else s[IndexOf(s) + 1..] }

  lemma FollowingShifts(s: Bytes)
    requires s != [] && s[0] != NL
    ensures IndexOf(s) == IndexOf(s[1..]) + 1 && Following(s) == Following(s[1..])
    ensures s[..IndexOf(s)] == [s[0]] + s[1..][..IndexOf(s[1..])]
  {
    var x := s[1..];
    Shift(s, x, IndexOf(x));
  }

  lemma Shift(s: Bytes, x: Bytes, i: nat)
    requires s != [] && x == s[1..] && i <= |x|
    ensures s[..i + 1] == [s[0]] + x[..i]
    ensures i < |x| ==> s[i + 2..] == x[i + 1..]
  {}

  lemma {:induction false} FirstLine(s: Bytes)
    requires s != []
    ensures RawLines(s) != [] && RawLines(s)[0].text == s[..IndexOf(s)] && RawLines(s)[1..] == RawLines(Following(s))
  {
    if s[0] == NL {
      assert Following(s) == s[1..];
    } else {
      FollowingShifts(s);
      if s[1..] != [] { FirstLine(s[1..]); }
    }
  }

  predicate EndsInCR(text: Bytes) { text != [] && text[|text| - 1] == CR }

  function DropCR(text: Bytes): Bytes { if EndsInCR(text) then text[..|text| - 1] else text }

  function Texts(raws: seq<Raw>): seq<Bytes> { if raws == [] then [] else [DropCR(raws[0].text)] + Texts(raws[1..]) }

  /** The scanned lines before the first that is too long. */
  function Scannable(raws: seq<Raw>): seq<Raw> {
    if raws == [] || |raws[0].text| >= MAX_LINE then [] else [raws[0]] + Scannable(raws[1..])
  }

  /** What `consumed` adds up to. */
  function Consumed(raws: seq<Raw>): nat {
    if raws == [] then 0 else |DropCR(raws[0].text)| + 1 + Consumed(raws[1..])
  }

  // The stream.

  datatype Outcome = Written | TooLong | Panicked

  datatype Printer = Printer(partial: Bytes, printed: seq<Bytes>, enabled: bool)

  function Print(p: Printer, lines: seq<Bytes>): Printer {
    if p.enabled then p.(printed := p.printed + lines) else p
  }

  function Wrote(p: Printer, chunk: Bytes): (Printer, Outcome) {
    if chunk == [] then (p, Written)
    else
      var data := p.partial + chunk;
      var raws := RawLines(data);
      var scanned := Print(p.(partial := data), Texts(Scannable(raws)));
      if Scannable(raws) != raws then (scanned, TooLong)
      else if Consumed(raws) > |data| then (scanned, Panicked)
      else (scanned.(partial := data[Consumed(raws)..]), Written)
  }

  function Finished(p: Printer): Printer {
    if p.partial == [] then p else Print(p, [p.partial]).(partial := [])
  }

  class LinePrinterStream {
    var partial: Bytes
    var printed: seq<Bytes>
    const enabled: bool

    constructor (enabled: bool)
      ensures Value() == Printer([], [], enabled)
    {
      this.enabled := enabled;
      partial, printed := [], [];
    }

    function Value(): Printer
      reads this
    {
      Printer(partial, printed, enabled)
    }

    /** The scan loop: prints each line and counts it, until the end or a line that is too long. */
    method Scan() returns (consumed: nat, tooLong: bool)
      modifies this`printed
      ensures Value() == Print(old(Value()), Texts(Scannable(RawLines(partial))))
      ensures tooLong <==> Scannable(RawLines(partial)) != RawLines(partial)
      ensures !tooLong ==> consumed == Consumed(RawLines(partial))
    {
      var rest := partial;
      consumed := 0;
      ghost var raws, lines := RawLines(partial), [];
      RestStarts(raws);
      while rest != []
        invariant Rest(raws, consumed, lines, RawLines(rest))
        invariant printed == old(printed) + if enabled then lines else []
        decreases |rest|
      {
        var text := rest[..IndexOf(rest)];
        FirstLine(rest);
        if |text| >= MAX_LINE {
          RestStops(raws, consumed, lines, RawLines(rest));
          return consumed, true;
        }
        var line := DropCR(text);
        RestStep(raws, consumed, lines, RawLines(rest));
        consumed := consumed + |line| + 1;
        if enabled { printed := printed + [line]; }
        lines := lines + [line];
        rest := Following(rest);
      }
      RestStops(raws, consumed, lines, []);
      return consumed, false;
    }

    method Write(chunk: Bytes) returns (outcome: Outcome)
      modifies this
      ensures (Value(), outcome) == Wrote(old(Value()), chunk)
    {
      if chunk == [] { return Written; }
      partial := partial + chunk;
      ConsumesSomething(partial);
      var consumed, tooLong := Scan();
      if tooLong { return TooLong; }
      if consumed > 0 {
        if consumed > |partial| { return Panicked; }
        partial := partial[consumed..];
      }
      return Written;
    }

    method Done()
      modifies this
      ensures Value() == Finished(old(Value()))
    {
      if |partial| > 0 {
        if enabled { printed := printed + [partial]; }
        partial := [];
      }
    }
  }

  /** Part of the lines has been counted and printed, the rest is still to come. */
  ghost predicate Rest(raws: seq<Raw>, consumed: nat, lines: seq<Bytes>, rest: seq<Raw>) {
    && consumed + Consumed(rest) == Consumed(raws)
    && lines + Texts(Scannable(rest)) == Texts(Scannable(raws))
    && (Scannable(rest) == rest <==> Scannable(raws) == raws)
  }

  lemma RestStarts(raws: seq<Raw>)
    ensures Rest(raws, 0, [], raws)
  {
    assert [] + Texts(Scannable(raws)) == Texts(Scannable(raws));
  }

  lemma RestStops(raws: seq<Raw>, consumed: nat, lines: seq<Bytes>, rest: seq<Raw>)
    requires Rest(raws, consumed, lines, rest) && (rest == [] || |rest[0].text| >= MAX_LINE)
    ensures lines == Texts(Scannable(raws)) && (rest == [] <==> Scannable(raws) == raws)
    ensures rest == [] ==> consumed == Consumed(raws)
  {
    assert Texts([]) == [] && lines + [] == lines;
  }

  lemma RestStep(raws: seq<Raw>, consumed: nat, lines: seq<Bytes>, rest: seq<Raw>)
    requires Rest(raws, consumed, lines, rest) && rest != [] && |rest[0].text| < MAX_LINE
    ensures var line := DropCR(rest[0].text); Rest(raws, consumed + |line| + 1, lines + [line], rest[1..])
  {
    var line := DropCR(rest[0].text);
    assert Scannable(rest)[1..] == Scannable(rest[1..]);
    assert rest == [rest[0]] + rest[1..];
    assert lines + ([line] + Texts(Scannable(rest[1..]))) == lines + [line] + Texts(Scannable(rest[1..]));
  }

  lemma ConsumesSomething(data: Bytes)
    requires data != []
    ensures Consumed(RawLines(data)) > 0
  {
    FirstLine(data);
  }
}
