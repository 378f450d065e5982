/**
 * The capped line reader of sandbox/supervisor/src/logs.rs. The reader hands out its input in
 * arbitrary non-empty pieces; the lines it yields depend only on the bytes.
 */
module LineReader {
  import opened Prelude

  const MAX_LINE_BYTES: nat := 64 * 1024

  /** One `fill_buf`: some bytes, or an interruption that is simply retried. */
  datatype Fill = Data(bytes: Bytes) | Interrupted

  predicate WellFormed(fills: seq<Fill>) {
    forall i :: 0 <= i < |fills| ==> fills[i].Data? ==> fills[i].bytes != []
  }

  function Stream(fills: seq<Fill>): Bytes {
    if fills == [] then [] else
    (if fills[0].Data? then fills[0].bytes else []) + Stream(fills[1..])
  }

  /** Offset of the first line feed, or the length of `s` when there is none. */
  function LineEnd(s: Bytes): (n: nat)
    ensures n <= |s| && (forall i :: 0 <= i < n ==> s[i] != LF) && (n < |s| ==> s[n] == LF)
  {
    if s == [] || s[0] == LF then 0 else 1 + LineEnd(s[1..])
  }

  function Capped(raw: Bytes): Bytes { raw[..Min(|raw|, MAX_LINE_BYTES)] }

  datatype Line = Line(text: Bytes, truncated: bool)

  /** The first line of a stream and what follows it, told without reference to pieces. */
  function FirstLine(s: Bytes): Line {
    Line(Capped(s[..LineEnd(s)]), LineEnd(s) > MAX_LINE_BYTES)
  }

  function AfterLine(s: Bytes): (rest: Bytes)
    ensures s != [] ==> |rest| < |s|
  {
    if LineEnd(s) < |s| then s[LineEnd(s) + 1..] else []
  }

  function AllLines(s: Bytes): seq<Line>
    decreases |s|
  {
    if s == [] then [] else [FirstLine(s)] + AllLines(AfterLine(s))
  }

  lemma FirstLineMoves(lines: seq<Line>, s: Bytes)
    requires s != []
    ensures lines + AllLines(s) == lines + [FirstLine(s)] + AllLines(AfterLine(s))
  {
  }

  lemma {:induction false} LineEndSkips(raw: Bytes, t: Bytes)
    requires forall i :: 0 <= i < |raw| ==> raw[i] != LF
    ensures LineEnd(raw + t) == |raw| + LineEnd(t)
  {
    if raw == [] {
      assert raw + t == t;
    } else {
      assert (raw + t)[1..] == raw[1..] + t;
      LineEndSkips(raw[1..], t);
    }
  }

  predicate NoLf(s: Bytes) { forall i :: 0 <= i < |s| ==> s[i] != LF }

  /** Appending a piece to the capped copy keeps it the capped copy of all bytes seen. */
  lemma CapStep(raw: Bytes, chunk: Bytes)
    ensures var room := Max(0, MAX_LINE_BYTES - |Capped(raw)|);
      Capped(raw + chunk) == Capped(raw) + if |chunk| > room then chunk[..room] else chunk
  {
  }

  lemma LineDone(raw: Bytes, rest: Bytes)
    requires NoLf(raw)
    ensures FirstLine(raw + [LF] + rest) == Line(Capped(raw), |raw| > MAX_LINE_BYTES)
    ensures AfterLine(raw + [LF] + rest) == rest
  {
    var s := raw + [LF] + rest;
    assert s == raw + ([LF] + rest);
    LineEndSkips(raw, [LF] + rest);
    assert s[..|raw|] == raw && s[|raw| + 1..] == rest;
  }

  lemma LineAtEof(raw: Bytes)
    requires NoLf(raw)
    ensures FirstLine(raw) == Line(Capped(raw), |raw| > MAX_LINE_BYTES) && AfterLine(raw) == []
  {
    assert raw + [] == raw;
    LineEndSkips(raw, []);
    assert raw[..|raw|] == raw;
  }

  class Reader {
    var fills: seq<Fill>

    ghost predicate Valid() reads this { WellFormed(fills) }

    ghost function Pending(): Bytes reads this { Stream(fills) }

    constructor (fills: seq<Fill>)
      requires WellFormed(fills)
      ensures Valid() && Pending() == Stream(fills)
    {
      this.fills := fills;
    }

    /** `fill_buf`, interruptions retried: the next piece, empty only at the end of input. */
    method FillBuf() returns (available: Bytes)
      requires Valid()
      modifies this
      ensures Valid() && Pending() == old(Pending())
      ensures available == [] <==> Pending() == []
      ensures available != [] ==> fills != [] && fills[0] == Data(available)
    {
      while fills != [] && fills[0].Interrupted?
        invariant Valid() && Pending() == old(Pending())
        decreases |fills|
      {
        fills := fills[1..];
      }
      available := if fills == [] then [] else fills[0].bytes;
    }

    method Consume(n: nat)
      requires Valid() && fills != [] && fills[0].Data? && n <= |fills[0].bytes|
      modifies this
      ensures Valid() && Pending() == old(Pending())[n..]
    {
      var piece := fills[0].bytes;
      assert Pending() == piece + Stream(fills[1..]);
      if n == |piece| {
        fills := fills[1..];
      } else {
        fills := [Data(piece[n..])] + fills[1..];
      }
    }

    /** One piece up to its line feed, consumed together with that line feed. */
    method TakePiece() returns (chunk: Bytes, done: bool, eof: bool)
      requires Valid()
      modifies this
      ensures Valid() && NoLf(chunk)
      ensures eof <==> old(Pending()) == []
      ensures done ==> old(Pending()) == chunk + [LF] + Pending()
      ensures !done ==> old(Pending()) == chunk + Pending()
      ensures !eof ==> |Pending()| < |old(Pending())|
      ensures !eof && !done ==> chunk != []
    {
      var available := FillBuf();
      if available == [] {
        return [], false, true;
      }
      ghost var tail := Stream(fills[1..]);
      var index := LineEnd(available);
      chunk, done, eof := available[..index], index < |available|, false;
      assert Pending() == available + tail;
      if done {
        assert available + tail == chunk + [LF] + (available + tail)[index + 1..];
        Consume(index + 1);
      } else {
        assert chunk == available && available + tail == chunk + (available + tail)[index..];
        Consume(|available|);
      }
    }

    /** `None` at the end of input, otherwise exactly the first line of the pending bytes. */
    method ReadLineCapped() returns (line: Option<Line>)
      requires Valid()
      modifies this
      ensures Valid()
      ensures old(Pending()) == [] ==> line == None && Pending() == []
      ensures old(Pending()) != [] ==> line == Some(FirstLine(old(Pending()))) && Pending() == AfterLine(old(Pending()))
    {
      var out: Bytes, truncated, sawInput := [], false, false;
      ghost var raw: Bytes, whole := [], Pending();
      while true
        invariant Valid() && whole == raw + Pending() && NoLf(raw)
        invariant out == Capped(raw) && truncated == (|raw| > MAX_LINE_BYTES) && sawInput == (raw != [])
        decreases |Pending()|
      {
        ghost var before := Pending();
        var chunk, done, eof := TakePiece();
        if eof {
          assert whole == raw;
          LineAtEof(raw);
          return if sawInput then Some(Line(out, truncated)) else None;
        }
        sawInput := true;
        out, truncated := Absorb(out, truncated, chunk, raw);
        raw := raw + chunk;
        if done {
          assert whole == raw + [LF] + Pending();
          LineDone(raw, Pending());
          return Some(Line(out, truncated));
        }
      }
    }

    /** Appends what still fits under the cap and notes whether anything did not. */
    method Absorb(out: Bytes, truncated: bool, chunk: Bytes, ghost raw: Bytes) returns (out': Bytes, truncated': bool)
      requires out == Capped(raw) && truncated == (|raw| > MAX_LINE_BYTES)
      ensures out' == Capped(raw + chunk) && truncated' == (|raw + chunk| > MAX_LINE_BYTES)
    {
      var room := Max(0, MAX_LINE_BYTES - |out|);
      CapStep(raw, chunk);
      if |chunk| > room {
        out', truncated' := out + chunk[..room], true;
      } else {
        out', truncated' := out + chunk, truncated;
      }
    }

    /** `pump`: every line to the end of input, whatever the pieces were. */
    method Pump() returns (lines: seq<Line>)
      requires Valid()
      modifies this
      ensures lines == AllLines(old(Pending())) && Pending() == []
    {
      lines := [];
      ghost var before := Pending();
      var line := ReadLineCapped();
      while line.Some?
        invariant Valid()
        invariant line.Some? ==> before != [] && line.value == FirstLine(before) && Pending() == AfterLine(before)
        invariant line.None? ==> before == [] && Pending() == []
        invariant AllLines(old(Pending())) == lines + AllLines(before)
        decreases |before|
      {
        FirstLineMoves(lines, before);
        lines := lines + [line.value];
        before := Pending();
        line := ReadLineCapped();
      }
    }
  }
}
