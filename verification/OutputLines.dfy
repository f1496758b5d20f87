/** What the line printer consumes, carries over and prints, chunk after chunk. */
module OutputLines {
  import opened LinePrinter

  // Counting bytes.

  predicate Unterminated(s: Bytes) { s != [] && s[|s| - 1] != NL }

  /** The carriage returns the scanner drops: those right before a newline or at the very end. */
  function Stripped(s: Bytes): nat {
    if s == [] then 0 else (if s[0] == CR && (|s| == 1 || s[1] == NL) then 1 else 0) + Stripped(s[1..])
  }

  function Bit(b: bool): nat { if b then 1 else 0 }

  /** The scanned bytes if nothing were dropped, every line counted with its newline. */
  function Size(raws: seq<Raw>): nat { if raws == [] then 0 else |raws[0].text| + 1 + Size(raws[1..]) }

  function CRs(raws: seq<Raw>): nat { if raws == [] then 0 else Bit(EndsInCR(raws[0].text)) + CRs(raws[1..]) }

  lemma {:induction false} ConsumedIs(raws: seq<Raw>)
    ensures Consumed(raws) + CRs(raws) == Size(raws)
  {
    if raws != [] { ConsumedIs(raws[1..]); }
  }

  lemma PrependCounts(c: Byte, raws: seq<Raw>)
    ensures Size(Prepend(c, raws)) == Size(raws) + if raws == [] then 2 else 1
    ensures CRs(Prepend(c, raws)) == CRs(raws) + Bit(c == CR && (raws == [] || raws[0].text == []))
  {
    var one := Prepend(c, raws);
    if raws == [] {
      assert one[1..] == [];
    } else {
      assert one[1..] == raws[1..];
      if raws[0].text != [] { assert ([c] + raws[0].text)[|raws[0].text|] == raws[0].text[|raws[0].text| - 1]; }
    }
  }

  lemma {:induction false} Counts(s: Bytes)
    ensures Size(RawLines(s)) == |s| + Bit(Unterminated(s)) && CRs(RawLines(s)) == Stripped(s)
    ensures (RawLines(s) == [] <==> s == []) && (s != [] ==> (RawLines(s)[0].text == [] <==> s[0] == NL))
  {
    if s != [] {
      Counts(s[1..]);
      PrependCounts(s[0], RawLines(s[1..]));
      assert ([Raw([], true)] + RawLines(s[1..]))[1..] == RawLines(s[1..]);
    }
  }

  /**
    The byte accounting of `Write`: what is consumed is the whole buffer, less the carriage returns
    dropped, plus one if the last line has no newline.
  */
  lemma {:induction false} ByteAccounting(s: Bytes)
    ensures Consumed(RawLines(s)) + Stripped(s) == |s| + Bit(Unterminated(s))
  {
    Counts(s);
    ConsumedIs(RawLines(s));
  }

  predicate ShortLines(s: Bytes) { Scannable(RawLines(s)) == RawLines(s) }

  /**
    One `Write` of a chunk, exactly, where no line is too long: the slice that keeps the tail is
    valid if and only if a dropped carriage return pays for an unterminated last line, and the tail
    carried over is as long as the difference.
  */
  lemma WriteExactly(p: Printer, chunk: Bytes)
    requires chunk != [] && ShortLines(p.partial + chunk)
    ensures var data := p.partial + chunk;
      var (after, outcome) := Wrote(p, chunk);
      && (outcome == Panicked <==> Unterminated(data) && Stripped(data) == 0)
      && (outcome == Written <==> Bit(Unterminated(data)) <= Stripped(data))
      && (outcome == Written ==>
            |after.partial| <= |data| && after.partial == data[|data| - |after.partial|..]
            && |after.partial| == Stripped(data) - Bit(Unterminated(data)))
  {
    ByteAccounting(p.partial + chunk);
  }

  // Lines that are too long.

  /** 16 MiB in a row without a newline. */
  predicate Stretch(s: Bytes, i: nat) { i + 16_777_216 <= |s| && forall j :: i <= j < i + 16_777_216 ==> s[j] != NL }

  ghost predicate LongStretch(s: Bytes) { exists i: nat :: Stretch(s, i) }

  predicate AllShort(raws: seq<Raw>) { forall k :: 0 <= k < |raws| ==> |raws[k].text| < MAX_LINE }

  lemma {:induction false} ScannableExactly(raws: seq<Raw>)
    ensures Scannable(raws) == raws <==> AllShort(raws)
  {
    if raws != [] {
      ScannableExactly(raws[1..]);
      assert forall k :: 1 <= k < |raws| ==> raws[k] == raws[1..][k - 1];
      if |raws[0].text| < MAX_LINE {
        assert Scannable(raws)[1..] == Scannable(raws[1..]);
        assert raws == [raws[0]] + raws[1..];
      }
    }
  }

  lemma {:induction false} NoNewlineBefore(s: Bytes, j: nat)
    requires j < IndexOf(s)
    ensures s[j] != NL
  {
    if j > 0 { NoNewlineBefore(s[1..], j - 1); }
  }

  lemma {:induction false} NewlineAt(s: Bytes)
    requires IndexOf(s) < |s|
    ensures s[IndexOf(s)] == NL
  {
    if s[0] != NL { NewlineAt(s[1..]); }
  }

  lemma FirstLineLong(s: Bytes)
    requires IndexOf(s) >= MAX_LINE
    ensures Stretch(s, 0)
  {
    forall j: nat | j < MAX_LINE
      ensures s[j] != NL
    {
      NoNewlineBefore(s, j);
    }
  }

  lemma StretchShifts(s: Bytes, n: nat, i: nat)
    requires n <= |s|
    ensures Stretch(s[n..], i) <==> Stretch(s, n + i)
  {
    if Stretch(s, n + i) {
      forall j | i <= j < i + MAX_LINE
        ensures s[n..][j] != NL
      {
        assert s[n..][j] == s[n + j];
      }
    }
    if Stretch(s[n..], i) {
      forall j | n + i <= j < n + i + MAX_LINE
        ensures s[j] != NL
      {
        assert s[n..][j - n] == s[j];
      }
    }
  }

  /** A stretch is in the first line, which is then too long, or after it. */
  lemma StretchIsInALine(s: Bytes, i: nat)
    requires Stretch(s, i)
    ensures IndexOf(s) >= MAX_LINE || (IndexOf(s) < |s| && i > IndexOf(s))
  {
    if IndexOf(s) < |s| { NewlineAt(s); }
  }

  /** Where the second line begins. */
  function SecondLine(s: Bytes): (n: nat)
    ensures n <= |s|
  {
    if IndexOf(s) == |s| then |s| else IndexOf(s) + 1
  }

  lemma LongStretchSplits(s: Bytes)
    ensures LongStretch(s) <==> IndexOf(s) >= MAX_LINE || LongStretch(Following(s))
  {
    var n := SecondLine(s);
    assert Following(s) == s[n..];
    if LongStretch(s) {
      var i: nat :| Stretch(s, i);
      StretchIsInALine(s, i);
      if IndexOf(s) < MAX_LINE { StretchShifts(s, n, i - n); }
    }
    if IndexOf(s) >= MAX_LINE { FirstLineLong(s); }
    if LongStretch(Following(s)) {
      var i: nat :| Stretch(Following(s), i);
      StretchShifts(s, n, i);
    }
  }

  /** The scanner gives up exactly on data with 16 MiB in a row without a newline. */
  lemma {:induction false} ShortLinesExactly(s: Bytes)
    ensures ShortLines(s) <==> !LongStretch(s)
    decreases |s|
  {
    ScannableExactly(RawLines(s));
    if s != [] {
      FirstLine(s);
      FirstOfAll(RawLines(s));
      ScannableExactly(RawLines(Following(s)));
      ShortLinesExactly(Following(s));
      LongStretchSplits(s);
    }
  }

  lemma FirstOfAll(raws: seq<Raw>)
    requires raws != []
    ensures AllShort(raws) <==> |raws[0].text| < MAX_LINE && AllShort(raws[1..])
  {
    assert forall k :: 1 <= k < |raws| ==> raws[k] == raws[1..][k - 1];
  }

  /** Then the write fails, and the buffer keeps everything, the lines already printed included. */
  lemma TooLongExactly(p: Printer, chunk: Bytes)
    requires chunk != []
    ensures var (after, outcome) := Wrote(p, chunk);
      (outcome == TooLong <==> LongStretch(p.partial + chunk)) && (outcome == TooLong ==> after.partial == p.partial + chunk)
  {
    ShortLinesExactly(p.partial + chunk);
  }

  // What `Done` adds.

  lemma FinishedIs(p: Printer)
    requires p.enabled
    ensures Finished(p).partial == []
    ensures Finished(p).printed == p.printed + if p.partial == [] then [] else [p.partial]
  {
    assert p.printed + [] == p.printed;
  }

  /** What one write prints, where it does not fail. */
  lemma WritePrints(p: Printer, chunk: Bytes)
    requires p.enabled && chunk != [] && ShortLines(p.partial + chunk) && Wrote(p, chunk).1 == Written
    ensures Wrote(p, chunk).0.printed == p.printed + Texts(RawLines(p.partial + chunk)) && Wrote(p, chunk).0.enabled
  {}

  /** A chunk that ends in a newline and has CR-LF: the bytes that were not counted are printed again by `Done`. */
  lemma DoneRepeatsTheTail(p: Printer, chunk: Bytes)
    requires p.partial == [] && p.enabled && chunk != [] && ShortLines(chunk) && !Unterminated(chunk)
    ensures var after := Wrote(p, chunk).0;
      && Wrote(p, chunk).1 == Written && |after.partial| == Stripped(chunk)
      && after.printed == p.printed + Texts(RawLines(chunk))
      && Finished(after).partial == []
      && Finished(after).printed == after.printed + (if Stripped(chunk) == 0 then [] else [after.partial])
      && |after.partial| <= |chunk| && after.partial == chunk[|chunk| - |after.partial|..]
  {
    assert p.partial + chunk == chunk;
    WriteExactly(p, chunk);
    WritePrints(p, chunk);
    FinishedIs(Wrote(p, chunk).0);
  }

  /** A printer that is switched off prints nothing, and keeps the same tail. */
  lemma DisabledPrintsNothing(p: Printer, chunk: Bytes)
    requires !p.enabled
    ensures Wrote(p, chunk).0.printed == p.printed && Finished(p).printed == p.printed && Finished(p).partial == []
    ensures Wrote(p, chunk).0.partial == Wrote(p.(enabled := true), chunk).0.partial
    ensures Wrote(p, chunk).1 == Wrote(p.(enabled := true), chunk).1
  {}

  // Chunk after chunk.

  function Concat(chunks: seq<Bytes>): Bytes { if chunks == [] then [] else chunks[0] + Concat(chunks[1..]) }

  /** `Write` calls until one fails. */
  function Writes(p: Printer, chunks: seq<Bytes>): (Printer, Outcome)
    decreases |chunks|
  {
    if chunks == [] then (p, Written)
    else if Wrote(p, chunks[0]).1 != Written then Wrote(p, chunks[0])
    else Writes(Wrote(p, chunks[0]).0, chunks[1..])
  }

  function RawTexts(raws: seq<Raw>): seq<Bytes> { if raws == [] then [] else [raws[0].text] + RawTexts(raws[1..]) }

  /** The lines of a text, whole. */
  function LineSplit(s: Bytes): seq<Bytes> { RawTexts(RawLines(s)) }

  predicate NoCRLF(s: Bytes) { forall i :: 0 <= i < |s| - 1 ==> !(s[i] == CR && s[i + 1] == NL) }

  /** A chunk the printer handles as intended: short lines, a newline at the end, no CR-LF. */
  predicate Good(chunk: Bytes) { chunk != [] && ShortLines(chunk) && !Unterminated(chunk) && NoCRLF(chunk) }

  lemma {:induction false} NothingStripped(s: Bytes)
    ensures Stripped(s) == 0 <==> NoCRLF(s) && !EndsInCR(s)
  {
    if s != [] {
      NothingStripped(s[1..]);
      if NoCRLF(s) && !EndsInCR(s) {
        forall i | 0 <= i < |s[1..]| - 1
          ensures !(s[1..][i] == CR && s[1..][i + 1] == NL)
        {
          assert !(s[i + 1] == CR && s[i + 2] == NL);
        }
      }
      if Stripped(s) == 0 {
        forall i | 0 <= i < |s| - 1
          ensures !(s[i] == CR && s[i + 1] == NL)
        {
          if i > 0 { assert s[i] == s[1..][i - 1] && s[i + 1] == s[1..][i]; }
        }
      }
    }
  }

  lemma PrependConcat(c: Byte, a: seq<Raw>, b: seq<Raw>)
    requires a != []
    ensures Prepend(c, a + b) == Prepend(c, a) + b
  {
    assert (a + b)[1..] == a[1..] + b;
  }

  /** Lines of a text that ends in a newline do not depend on what follows. */
  lemma {:induction false} LinesConcat(a: Bytes, b: Bytes)
    requires !Unterminated(a)
    ensures RawLines(a + b) == RawLines(a) + RawLines(b)
  {
    if a == [] {
      assert a + b == b;
    } else {
      assert (a + b)[1..] == a[1..] + b;
      LinesConcat(a[1..], b);
      if a[0] != NL {
        Counts(a[1..]);
        PrependConcat(a[0], RawLines(a[1..]), RawLines(b));
      } else {
        assert [Raw([], true)] + (RawLines(a[1..]) + RawLines(b)) == [Raw([], true)] + RawLines(a[1..]) + RawLines(b);
      }
    }
  }

  lemma {:induction false} RawTextsConcat(a: seq<Raw>, b: seq<Raw>)
    ensures RawTexts(a + b) == RawTexts(a) + RawTexts(b)
  {
    if a == [] {
      assert a + b == b;
    } else {
      assert (a + b)[1..] == a[1..] + b;
      RawTextsConcat(a[1..], b);
    }
  }

  /** Without anything to strip the scanner returns the lines whole. */
  lemma {:induction false} TextsAreWhole(raws: seq<Raw>)
    requires CRs(raws) == 0
    ensures Texts(raws) == RawTexts(raws)
  {
    if raws != [] { TextsAreWhole(raws[1..]); }
  }

  /** A good chunk is printed line by line and leaves nothing behind. */
  lemma GoodChunk(p: Printer, chunk: Bytes)
    requires p.partial == [] && Good(chunk)
    ensures Wrote(p, chunk) == (Print(p, LineSplit(chunk)), Written)
  {
    assert p.partial + chunk == chunk;
    NothingStripped(chunk);
    ByteAccounting(chunk);
    Counts(chunk);
    TextsAreWhole(RawLines(chunk));
    NewlineAtTheEnd(chunk);
    assert Consumed(RawLines(chunk)) == |chunk| && chunk[|chunk|..] == [];
  }

  lemma NewlineAtTheEnd(s: Bytes)
    requires s != [] && !Unterminated(s)
    ensures !EndsInCR(s)
  {}

  /**
    Chunk independence: however a text is cut into chunks that end in newlines, without CR-LF, the
    lines printed by all writes and the final `Done` are the lines of the text.
  */
  lemma {:induction false} ChunksDoNotMatter(p: Printer, chunks: seq<Bytes>)
    requires p.partial == [] && forall i :: 0 <= i < |chunks| ==> Good(chunks[i])
    ensures Writes(p, chunks) == (Print(p, LineSplit(Concat(chunks))), Written)
    ensures Finished(Writes(p, chunks).0) == Writes(p, chunks).0
    decreases |chunks|
  {
    if chunks != [] {
      GoodChunk(p, chunks[0]);
      ChunksDoNotMatter(Wrote(p, chunks[0]).0, chunks[1..]);
      SplitOfConcat(chunks[0], Concat(chunks[1..]));
      PrintTwice(p, LineSplit(chunks[0]), LineSplit(Concat(chunks[1..])));
    } else {
      assert p.printed + [] == p.printed;
    }
  }

  lemma PrintTwice(p: Printer, a: seq<Bytes>, b: seq<Bytes>)
    ensures Print(Print(p, a), b) == Print(p, a + b)
  {
    assert p.printed + a + b == p.printed + (a + b);
  }

  lemma SplitOfConcat(a: Bytes, b: Bytes)
    requires !Unterminated(a)
    ensures LineSplit(a + b) == LineSplit(a) + LineSplit(b)
  {
    LinesConcat(a, b);
    RawTextsConcat(RawLines(a), RawLines(b));
  }

  // And only then.

  /** The writes succeed and print, with `Done`, the lines of the whole text. */
  predicate PrintsTheLines(p: Printer, chunks: seq<Bytes>) {
    Writes(p, chunks).1 == Written && Finished(Writes(p, chunks).0).printed == p.printed + LineSplit(Concat(chunks))
  }

  lemma {:induction false} PrintedGrows(p: Printer, chunks: seq<Bytes>)
    ensures p.printed <= Writes(p, chunks).0.printed && p.printed <= Finished(Writes(p, chunks).0).printed
    decreases |chunks|
  {
    if chunks != [] { PrintedGrows(Wrote(p, chunks[0]).0, chunks[1..]); }
  }

  lemma {:induction false} StrippedSomewhere(raws: seq<Raw>) returns (k: nat)
    requires CRs(raws) > 0
    ensures k < |raws| && EndsInCR(raws[k].text)
  {
    if EndsInCR(raws[0].text) { return 0; }
    k := StrippedSomewhere(raws[1..]);
    k := k + 1;
  }

  /** The same lines, or longer ones, and perhaps more. */
  predicate Grown(few: seq<Raw>, many: seq<Raw>) {
    |few| <= |many| && forall k :: 0 <= k < |few| ==> |few[k].text| <= |many[k].text|
  }

  lemma PrependGrows(c: Byte, few: seq<Raw>, many: seq<Raw>)
    requires Grown(few, many)
    ensures Grown(Prepend(c, few), Prepend(c, many))
  {}

  /** More text can only lengthen the last line and add lines. */
  lemma {:induction false} LinesOnlyGrow(a: Bytes, b: Bytes)
    ensures Grown(RawLines(a), RawLines(a + b))
  {
    if a != [] {
      assert (a + b)[1..] == a[1..] + b;
      LinesOnlyGrow(a[1..], b);
      if a[0] != NL { PrependGrows(a[0], RawLines(a[1..]), RawLines(a[1..] + b)); }
    }
  }

  lemma {:induction false} TextAt(raws: seq<Raw>, k: nat)
    requires k < |raws|
    ensures |Texts(raws)| == |raws| && Texts(raws)[k] == DropCR(raws[k].text)
    ensures |RawTexts(raws)| == |raws| && RawTexts(raws)[k] == raws[k].text
  {
    TextsLength(raws);
    if k > 0 { TextAt(raws[1..], k - 1); }
  }

  lemma {:induction false} TextsLength(raws: seq<Raw>)
    ensures |Texts(raws)| == |raws| && |RawTexts(raws)| == |raws|
  {
    if raws != [] { TextsLength(raws[1..]); }
  }

  /** A line that lost its carriage return stays wrong in whatever follows. */
  lemma StrippedLineShows(p: Printer, chunk: Bytes, rest: seq<Bytes>)
    requires p.partial == [] && p.enabled && chunk != [] && Stripped(chunk) > 0
    ensures !PrintsTheLines(p, [chunk] + rest)
  {
    var chunks := [chunk] + rest;
    assert chunks[1..] == rest && p.partial + chunk == chunk;
    if PrintsTheLines(p, chunks) {
      var after := Wrote(p, chunk).0;
      var raws, all := RawLines(chunk), LineSplit(Concat(chunks));
      Counts(chunk);
      var k := StrippedSomewhere(raws);
      PrintedGrows(after, rest);
      TextAt(raws, k);
      LinesOnlyGrow(chunk, Concat(rest));
      TextAt(RawLines(Concat(chunks)), k);
      assert after.printed == p.printed + Texts(raws);
      AgreesAt(p.printed, Texts(raws), all, Finished(Writes(p, chunks).0).printed, k);
    }
  }

  lemma AgreesAt(before: seq<Bytes>, some: seq<Bytes>, all: seq<Bytes>, printed: seq<Bytes>, k: nat)
    requires before + some <= printed && printed == before + all && k < |some|
    ensures k < |all| && some[k] == all[k]
  {
    assert (before + some)[|before| + k] == printed[|before| + k];
  }

  /**
    Exactly which outputs an enabled printer gets right: every write succeeds and the lines printed
    are the lines of the whole text, if and only if each chunk by itself has short lines, ends in a
    newline and has no CR-LF.
  */
  lemma {:induction false} OutputIsRightExactly(p: Printer, chunks: seq<Bytes>)
    requires p.partial == [] && p.enabled && forall i :: 0 <= i < |chunks| ==> chunks[i] != []
    ensures PrintsTheLines(p, chunks) <==> forall i :: 0 <= i < |chunks| ==> Good(chunks[i])
    decreases |chunks|
  {
    if forall i :: 0 <= i < |chunks| ==> Good(chunks[i]) {
      ChunksDoNotMatter(p, chunks);
    } else if Good(chunks[0]) {
      GoodChunk(p, chunks[0]);
      OutputIsRightExactly(Wrote(p, chunks[0]).0, chunks[1..]);
      GoodFirstChunk(p, chunks);
    } else {
      BadFirstChunk(p, chunks);
    }
  }

  lemma GoodFirstChunk(p: Printer, chunks: seq<Bytes>)
    requires p.partial == [] && p.enabled && chunks != [] && Good(chunks[0])
    ensures PrintsTheLines(p, chunks) <==> PrintsTheLines(Wrote(p, chunks[0]).0, chunks[1..])
  {
    GoodChunk(p, chunks[0]);
    SplitOfConcat(chunks[0], Concat(chunks[1..]));
    SamePrefix(p.printed, LineSplit(chunks[0]), LineSplit(Concat(chunks[1..])));
  }

  lemma SamePrefix(a: seq<Bytes>, b: seq<Bytes>, c: seq<Bytes>)
    ensures a + b + c == a + (b + c)
  {}

  lemma BadFirstChunk(p: Printer, chunks: seq<Bytes>)
    requires p.partial == [] && p.enabled && chunks != [] && chunks[0] != [] && !Good(chunks[0])
    ensures !PrintsTheLines(p, chunks)
  {
    var chunk := chunks[0];
    assert p.partial + chunk == chunk && chunks == [chunk] + chunks[1..];
    NothingStripped(chunk);
    if Stripped(chunk) > 0 {
      StrippedLineShows(p, chunk, chunks[1..]);
    } else if ShortLines(chunk) {
      WriteExactly(p, chunk);
    }
  }
}
