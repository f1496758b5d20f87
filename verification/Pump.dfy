/**
  `pumpToByteStream` (agent/cmd/agent/container_service.go:338-374): a container's output pipe
  forwarded to the host, and what the host's line printer makes of it.
*/
module Pump {
  import opened LinePrinter
  import opened OutputLines

  const BUFFER: nat := 64 * 1024

  datatype Status = More | Eof | Closed | Failed

  /** One turn: what `Read` returns, and whether the stream then takes the chunk. */
  datatype Turn = Turn(data: Bytes, status: Status, taken: bool)

  predicate Fits(turns: seq<Turn>) { forall i :: 0 <= i < |turns| ==> |turns[i].data| <= BUFFER }

  predicate Refused(t: Turn) { t.data != [] && !t.taken }

  function Chunk(t: Turn): seq<Bytes> { if t.data == [] then [] else [t.data] }

  /** The chunks the stream takes, and whether it is told that it is done. */
  function Pumped(turns: seq<Turn>): (seq<Bytes>, bool) {
    if turns == [] || Refused(turns[0]) then ([], false)
    else if turns[0].status.More? then (Chunk(turns[0]) + Pumped(turns[1..]).0, Pumped(turns[1..]).1)
    else (Chunk(turns[0]), turns[0].status.Eof?)
  }

  /** The receiving end, as a list of calls. */
  class ByteStream {
    var chunks: seq<Bytes>
    var done: bool

    constructor ()
      ensures chunks == [] && !done
    {
      chunks, done := [], false;
    }

    method Write(chunk: Bytes, taken: bool) returns (ok: bool)
      modifies this`chunks
      ensures ok == taken && chunks == if taken then old(chunks) + [chunk] else old(chunks)
    {
      if taken { chunks := chunks + [chunk]; }
      return taken;
    }

    method Done()
      modifies this`done
      ensures done
    {
      done := true;
    }
  }

  /** `Read`: the data goes to the front of the buffer, whose rest keeps older bytes. */
  method ReadInto(buf: array<Byte>, data: Bytes) returns (n: nat)
    requires |data| <= buf.Length
    modifies buf
    ensures n == |data| && buf[..n] == data && buf[n..] == old(buf[n..])
  {
    n := |data|;
    for i := 0 to n
      invariant buf[..i] == data[..i] && buf[n..] == old(buf[n..])
    {
      buf[i] := data[i];
    }
  }

  /** One turn of the loop: read, forward what was read, look at the read's error. */
  method Forward(buf: array<Byte>, t: Turn, dst: ByteStream) returns (more: bool)
    requires |t.data| <= buf.Length && !dst.done
    modifies buf, dst
    ensures dst.chunks == old(dst.chunks) + if Refused(t) then [] else Chunk(t)
    ensures more <==> !Refused(t) && t.status.More?
    ensures dst.done <==> !Refused(t) && t.status.Eof?
  {
    var n := ReadInto(buf, t.data);
    if n > 0 {
      var ok := dst.Write(buf[..n], t.taken);
      if !ok { return false; }
    }
    match t.status {
      case More => return true;
      case Eof =>
        dst.Done();
        return false;
      case Closed => return false;
      case Failed => return false;
    }
  }

  method PumpToByteStream(turns: seq<Turn>, dst: ByteStream)
    requires Fits(turns) && !dst.done
    modifies dst
    ensures dst.chunks == old(dst.chunks) + Pumped(turns).0 && dst.done == Pumped(turns).1
  {
    var buf := new Byte[BUFFER](_ => 0);
    for i := 0 to |turns|
      invariant !dst.done
      invariant dst.chunks + Pumped(turns[i..]).0 == old(dst.chunks) + Pumped(turns).0
      invariant Pumped(turns[i..]).1 == Pumped(turns).1
    {
      PumpedStep(dst.chunks, turns, i);
      var more := Forward(buf, turns[i], dst);
      if !more { return; }
    }
  }

  lemma PumpedStep(sent: seq<Bytes>, turns: seq<Turn>, i: nat)
    requires i < |turns|
    ensures var t, rest := turns[i], turns[i + 1..];
      if Refused(t) then Pumped(turns[i..]) == ([], false) && sent + [] == sent
      else if t.status.More? then
        sent + Pumped(turns[i..]).0 == sent + Chunk(t) + Pumped(rest).0 && Pumped(turns[i..]).1 == Pumped(rest).1
      else Pumped(turns[i..]) == (Chunk(t), t.status.Eof?)
  {
    assert turns[i..][1..] == turns[i + 1..];
    assert sent + (Chunk(turns[i]) + Pumped(turns[i + 1..]).0) == sent + Chunk(turns[i]) + Pumped(turns[i + 1..]).0;
  }

  // What arrives.

  /** Everything read, up to the end of the stream or an error. */
  function ReadBytes(turns: seq<Turn>): Bytes {
    if turns == [] then [] else if turns[0].status.More? then turns[0].data + ReadBytes(turns[1..]) else turns[0].data
  }

  /** The chunks taken are not empty, fit the buffer, and are a prefix of what was read: all of it when none is refused. */
  lemma {:induction false} ChunksAreThePrefix(turns: seq<Turn>)
    requires Fits(turns)
    ensures Concat(Pumped(turns).0) <= ReadBytes(turns)
    ensures forall c :: c in Pumped(turns).0 ==> 0 < |c| <= 65_536
    ensures Pumped(turns).1 ==> Concat(Pumped(turns).0) == ReadBytes(turns)
    ensures (forall i :: 0 <= i < |turns| ==> !Refused(turns[i])) ==> Concat(Pumped(turns).0) == ReadBytes(turns)
  {
    if turns != [] {
      var t, rest := turns[0], turns[1..];
      ChunksAreThePrefix(rest);
      ConcatChunk(t, Pumped(rest).0);
      ConcatChunk(t, []);
    }
  }

  lemma ConcatChunk(t: Turn, rest: seq<Bytes>)
    ensures Concat(Chunk(t) + rest) == t.data + Concat(rest)
    ensures Concat(Chunk(t)) == t.data
  {
    if t.data == [] {
      assert Chunk(t) + rest == rest;
    } else {
      assert (Chunk(t) + rest)[1..] == rest && Chunk(t)[1..] == [];
    }
  }

  /** The stream is told that it is done exactly when the end was reached with every chunk taken. */
  lemma {:induction false} DoneExactly(turns: seq<Turn>)
    ensures Pumped(turns).1 <==>
      exists k :: 0 <= k < |turns| && turns[k].status.Eof? && !Refused(turns[k])
        && forall i :: 0 <= i < k ==> turns[i].status.More? && !Refused(turns[i])
  {
    if turns != [] {
      DoneExactly(turns[1..]);
      var rest := turns[1..];
      if Pumped(turns).1 && turns[0].status.More? {
        var k :| 0 <= k < |rest| && rest[k].status.Eof? && !Refused(rest[k])
                 && forall i :: 0 <= i < k ==> rest[i].status.More? && !Refused(rest[i]);
        assert turns[k + 1] == rest[k];
        assert forall i :: 0 <= i < k + 1 ==> turns[i] == if i == 0 then turns[0] else rest[i - 1];
      }
    }
  }

  /**
    From the container's pipe to the printed lines: where the pump reached the end, the lines
    printed are the lines of everything the container wrote, if and only if every read happened to
    end in a newline, with short lines and without CR-LF.
  */
  lemma OutputArrivesExactly(turns: seq<Turn>)
    requires Fits(turns) && Pumped(turns).1
    ensures var p := Printer([], [], true);
      var chunks := Pumped(turns).0;
      (Writes(p, chunks).1 == Written && Finished(Writes(p, chunks).0).printed == LineSplit(ReadBytes(turns)))
      <==> forall i :: 0 <= i < |chunks| ==> Good(chunks[i])
  {
    ChunksAreThePrefix(turns);
    var p := Printer([], [], true);
    OutputIsRightExactly(p, Pumped(turns).0);
    assert [] + LineSplit(ReadBytes(turns)) == LineSplit(ReadBytes(turns));
  }
}
