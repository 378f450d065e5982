/**
 * Chunking theorems for DapFrames: what a session delivers does not depend on how the byte
 * stream was cut into messages, and printing followed by reassembly is the identity.
 */
module DapChunking {
  import opened Prelude
  import opened DapFrames
  import Decimal

  // ---------------------------------------------------------------- arbitrary streams

  /** A whole session: one `Receive` per chunk, stopping at the first failure. */
  function Serve(buf: Bytes, chunks: seq<Bytes>): Session
    decreases |chunks|
  {
    if chunks == [] then Open([], buf) else
    var s := Received(buf, chunks[0]);
    if s.Failed? then s else Continue(s.frames, Serve(s.rest, chunks[1..]))
  }

  function Flatten(chunks: seq<Bytes>): Bytes
    decreases |chunks|
  {
    if chunks == [] then [] else chunks[0] + Flatten(chunks[1..])
  }

  /** No push of the session meets the buffer bound of twice MAX_FRAME. */
  predicate Fits(buf: Bytes, chunks: seq<Bytes>)
    decreases |chunks|
  {
    chunks == [] ||
    (|buf| + |chunks[0]| <= 2 * MAX_FRAME &&
     var s := Drained(buf + chunks[0]);
     s.Failed? || Fits(s.rest, chunks[1..]))
  }

  /**
   * No blank line of the stream starts at offset 8190, 8191 or 8192 of its frame: there, `next`
   * accepts a complete header but refuses the same header one byte short of its end.
   */
  predicate HeadersClear(s: Bytes)
    decreases |s|
  {
    (Terminator(s, 0).Some? ==>
       Terminator(s, 0).value + 3 <= MAX_HEADER || MAX_HEADER < Terminator(s, 0).value) &&
    (NextFrame(s).Frame? ==> HeadersClear(NextFrame(s).rest))
  }

  lemma TerminatorOfPrefix(b: Bytes, t: Bytes)
    ensures Terminator(b, 0).Some? ==> Terminator(b + t, 0) == Terminator(b, 0)
    ensures Terminator(b, 0).None? && Terminator(b + t, 0).Some? ==> |b| <= Terminator(b + t, 0).value + 3
  {
    var short, long := Terminator(b, 0), Terminator(b + t, 0);
    if short.Some? {
      assert TerminatorAt(b + t, short.value);
      if long.value < short.value {
        assert TerminatorAt(b, long.value);
      }
    } else if long.Some? && long.value + 4 <= |b| {
      assert TerminatorAt(b, long.value);
    }
  }

  lemma {:induction false} FrameAt(buf: Bytes, end: nat, length: nat)
    requires Terminator(buf, 0) == Some(end) && end <= MAX_HEADER && end + 4 + length <= |buf|
    requires ContentLength(buf[..end]) == Ok(length)
    ensures NextFrame(buf) == Frame(buf[end + 4..end + 4 + length], buf[end + 4 + length..])
  {
  }

  lemma SlicesOfPrefix(b: Bytes, t: Bytes, i: nat, j: nat)
    requires i <= j <= |b|
    ensures (b + t)[i..j] == b[i..j] && (b + t)[..i] == b[..i] && (b + t)[j..] == b[j..] + t
  {
  }

  lemma {:induction false} FrameParts(b: Bytes) returns (end: nat, length: nat)
    requires NextFrame(b).Frame?
    ensures Terminator(b, 0) == Some(end) && end <= MAX_HEADER && end + 4 + length <= |b|
    ensures ContentLength(b[..end]) == Ok(length)
    ensures NextFrame(b) == Frame(b[end + 4..end + 4 + length], b[end + 4 + length..])
  {
    end := Terminator(b, 0).value;
    length := ContentLength(b[..end]).value;
  }

  lemma {:induction false} FrameOfPrefix(b: Bytes, t: Bytes)
    requires NextFrame(b).Frame? && Terminator(b + t, 0) == Terminator(b, 0)
    ensures NextFrame(b + t) == Frame(NextFrame(b).body, NextFrame(b).rest + t)
  {
    var end, length := FrameParts(b);
    SlicesOfPrefix(b, t, end, end);
    SlicesOfPrefix(b, t, end + 4, end + 4 + length);
    FrameAt(b + t, end, length);
  }

  /** More input never changes an answer `next` has already given. */
  lemma {:induction false} NextFrameOfPrefix(b: Bytes, t: Bytes)
    requires HeadersClear(b + t)
    ensures NextFrame(b).Invalid? ==> NextFrame(b + t) == NextFrame(b)
    ensures NextFrame(b).Frame? ==> NextFrame(b + t) == Frame(NextFrame(b).body, NextFrame(b).rest + t)
  {
    TerminatorOfPrefix(b, t);
    if NextFrame(b).Frame? {
      FrameOfPrefix(b, t);
    } else if Terminator(b, 0).Some? {
      assert (b + t)[..Terminator(b, 0).value] == b[..Terminator(b, 0).value];
    }
  }

  /** Draining early and continuing later is draining once. */
  lemma {:induction false} DrainedOfPrefix(b: Bytes, t: Bytes)
    requires HeadersClear(b + t)
    ensures Drained(b).Failed? ==> Drained(b + t) == Drained(b)
    ensures Drained(b).Open? ==> HeadersClear(Drained(b).rest + t)
    ensures Drained(b).Open? ==> Drained(b + t) == Continue(Drained(b).frames, Drained(Drained(b).rest + t))
    decreases |b|
  {
    NextFrameOfPrefix(b, t);
    if NextFrame(b).Frame? {
      var p := NextFrame(b);
      DrainedOfPrefix(p.rest, t);
      if Drained(p.rest).Open? {
        PrependContinue(p.body, Drained(p.rest).frames, Drained(Drained(p.rest).rest + t));
      }
    }
  }

  lemma PrependContinue(frame: Bytes, frames: seq<Bytes>, s: Session)
    ensures Prepend(frame, Continue(frames, s)) == Continue([frame] + frames, s)
  {
    assert [frame] + (frames + s.frames) == [frame] + frames + s.frames;
  }

  /** A session equals one drain of the whole stream; only the push bound can tell chunkings apart. */
  lemma {:induction false} ChunkingIrrelevant(buf: Bytes, chunks: seq<Bytes>)
    requires Drained(buf) == Open([], buf) && HeadersClear(buf + Flatten(chunks)) && Fits(buf, chunks)
    ensures Serve(buf, chunks) == Drained(buf + Flatten(chunks))
    decreases |chunks|
  {
    if chunks == [] {
      assert buf + Flatten(chunks) == buf;
    } else {
      var b, t := buf + chunks[0], Flatten(chunks[1..]);
      assert buf + Flatten(chunks) == b + t;
      DrainedOfPrefix(b, t);
      if Drained(b).Open? {
        RestIsDrained(b);
        ChunkingIrrelevant(Drained(b).rest, chunks[1..]);
      }
    }
  }

  lemma {:induction false} RestIsDrained(b: Bytes)
    requires Drained(b).Open?
    ensures Drained(Drained(b).rest) == Open([], Drained(b).rest)
    decreases |b|
  {
    if NextFrame(b).Frame? {
      RestIsDrained(NextFrame(b).rest);
    }
  }

  /** On a stream that is well-formed as a whole, the push bound is the only way to fail. */
  lemma {:induction false} OnlyTheBoundFails(buf: Bytes, chunks: seq<Bytes>)
    requires HeadersClear(buf + Flatten(chunks)) && Drained(buf + Flatten(chunks)).Open? && !Fits(buf, chunks)
    ensures Serve(buf, chunks).Failed? && Serve(buf, chunks).error == InputTooLarge
    decreases |chunks|
  {
    var b, t := buf + chunks[0], Flatten(chunks[1..]);
    assert buf + Flatten(chunks) == b + t;
    if |b| <= 2 * MAX_FRAME {
      DrainedOfPrefix(b, t);
      OnlyTheBoundFails(Drained(b).rest, chunks[1..]);
    }
  }

  // ---------------------------------------------------------------- printed streams

  function DigitBytes(digits: seq<nat>): (s: Bytes)
    requires Decimal.AllDigits(digits)
    ensures |s| == |digits| && forall i :: 0 <= i < |s| ==> s[i] as int == 48 + digits[i]
  {
    seq(|digits|, i requires 0 <= i < |digits| => (48 + digits[i]) as byte)
  }

  function NumberBytes(n: nat): (s: Bytes)
    ensures |s| == |Decimal.Digits(n)| > 0 && Decimal.AllDigits(Decimal.Digits(n))
    ensures forall i :: 0 <= i < |s| ==> IsDigit(s[i]) && DigitValue(s[i]) == Decimal.Digits(n)[i]
  {
    Decimal.ValueOfDigits(n);
    DigitBytes(Decimal.Digits(n))
  }

  /** `Content-Length: N`. */
  function Header(n: nat): Bytes { CONTENT_LENGTH + [COLON, SPACE] + NumberBytes(n) }

  function Printed(body: Bytes): Bytes { Header(|body|) + CRLF2 + body }

  function Stream(bodies: seq<Bytes>): Bytes {
    if bodies == [] then [] else Printed(bodies[0]) + Stream(bodies[1..])
  }

  predicate LegalBody(body: Bytes) { 1 <= |body| <= MAX_FRAME }

  predicate Legal(bodies: seq<Bytes>) { forall i :: 0 <= i < |bodies| ==> LegalBody(bodies[i]) }

  /** A printed header is short printable ASCII with its only colon at offset 14. */
  lemma HeaderShape(n: nat)
    requires n <= MAX_FRAME
    ensures var h := Header(n);
      && 17 <= |h| <= 23
      && (forall i :: 0 <= i < |h| ==> 32 <= h[i] < 128)
      && IndexOf(h, COLON, 0) == Some(14)
      && h[..14] == CONTENT_LENGTH
      && h[15..] == [SPACE] + NumberBytes(n)
  {
    Decimal.SevenDigits(n);
    var h := Header(n);
    assert h[14] == COLON;
  }

  lemma {:induction false} AsciiIsUtf8(s: Bytes)
    requires forall i :: 0 <= i < |s| ==> s[i] < 128
    ensures ValidUtf8(s)
    decreases |s|
  {
    if s != [] {
      assert Utf8Width(s) == 1;
      AsciiIsUtf8(s[1..]);
    }
  }

  lemma TrimDigits(d: Bytes)
    requires d != [] && forall i :: 0 <= i < |d| ==> IsDigit(d[i])
    ensures TrimEnd(TrimStart([SPACE] + d)) == d
  {
    assert ([SPACE] + d)[1..] == d;
    assert TrimStart(d) == d && TrimEnd(d) == d;
  }

  lemma ParsePrinted(n: nat)
    requires n <= MAX_FRAME
    ensures ParseUsize(NumberBytes(n)) == Some(n)
  {
    Decimal.ValueOfDigits(n);
    var d := NumberBytes(n);
    assert DigitValues(d) == Decimal.Digits(n);
  }

  lemma ContentLengthOfHeader(n: nat)
    requires 1 <= n <= MAX_FRAME
    ensures ContentLength(Header(n)) == Ok(n)
  {
    var h, d := Header(n), NumberBytes(n);
    HeaderShape(n);
    AsciiIsUtf8(h);
    assert IndexOf(h, LF, 0) == None;
    assert Lines(h) == [h];
    TrimDigits(d);
    assert [h][1..] == [];
    assert Lengths([h]) == [d];
    ParsePrinted(n);
  }

  lemma TerminatorOfPrinted(n: nat)
    requires n <= MAX_FRAME
    ensures Terminator(Header(n) + CRLF2, 0) == Some(|Header(n)|)
  {
    HeaderShape(n);
    var h, s := Header(n), Header(n) + CRLF2;
    assert forall i :: 0 <= i < |h| ==> s[i] == h[i];
    assert TerminatorAt(s, |h|);
  }

  /** Any header free of blank lines that announces the body's length frames that body. */
  lemma {:induction false} NextOfFrame(h: Bytes, body: Bytes, t: Bytes)
    requires |h| <= MAX_HEADER && Terminator(h + CRLF2, 0) == Some(|h|) && ContentLength(h) == Ok(|body|)
    ensures NextFrame(h + CRLF2 + body + t) == Frame(body, t)
    ensures Terminator(h + CRLF2 + body + t, 0) == Some(|h|)
  {
    var s := h + CRLF2 + body + t;
    assert s == h + CRLF2 + (body + t);
    TerminatorOfPrefix(h + CRLF2, body + t);
    assert s[..|h|] == h;
    assert s[|h| + 4..|h| + 4 + |body|] == body;
    assert s[|h| + 4 + |body|..] == t;
    FrameAt(s, |h|, |body|);
  }

  /** One printed frame followed by anything: `next` returns its body and exactly what follows. */
  lemma NextOfPrinted(body: Bytes, t: Bytes)
    requires LegalBody(body)
    ensures NextFrame(Printed(body) + t) == Frame(body, t)
    ensures Terminator(Printed(body) + t, 0) == Some(|Header(|body|)|)
  {
    HeaderShape(|body|);
    TerminatorOfPrinted(|body|);
    ContentLengthOfHeader(|body|);
    NextOfFrame(Header(|body|), body, t);
  }

  lemma {:induction false} DrainedStream(bodies: seq<Bytes>)
    requires Legal(bodies)
    ensures Drained(Stream(bodies)) == Open(bodies, []) && HeadersClear(Stream(bodies))
  {
    if bodies == [] {
      assert Terminator([], 0) == None;
    } else {
      NextOfPrinted(bodies[0], Stream(bodies[1..]));
      HeaderShape(|bodies[0]|);
      DrainedStream(bodies[1..]);
      assert [bodies[0]] + bodies[1..] == bodies;
    }
  }

  /**
   * Round trip. However a printed stream is cut, the session returns exactly the printed bodies,
   * in order, with nothing left over, if and only if every push fits the buffer bound; when one
   * does not, that bound is the error.
   */
  lemma RoundTrip(bodies: seq<Bytes>, chunks: seq<Bytes>)
    requires Legal(bodies) && Flatten(chunks) == Stream(bodies)
    ensures Fits([], chunks) ==> Serve([], chunks) == Open(bodies, [])
    ensures !Fits([], chunks) ==> Serve([], chunks).Failed? && Serve([], chunks).error == InputTooLarge
  {
    assert [] + Flatten(chunks) == Stream(bodies);
    DrainedStream(bodies);
    assert Terminator([], 0) == None;
    if Fits([], chunks) {
      ChunkingIrrelevant([], chunks);
    } else {
      OnlyTheBoundFails([], chunks);
    }
  }

  // ---------------------------------------------------------------- how tight the conditions are

  /** A frame one or more bytes short is waited for, never misread. */
  lemma PartialFrameWaits(body: Bytes, b: Bytes)
    requires LegalBody(body) && b <= Printed(body) && |b| < |Printed(body)|
    ensures NextFrame(b) == Incomplete
  {
    var f := Printed(body);
    var t := f[|b|..];
    assert b + t == f && f + [] == f;
    assert Stream([body]) == f by { assert [body][1..] == []; }
    DrainedStream([body]);
    NextFrameOfPrefix(b, t);
    NextOfPrinted(body, []);
  }

  /** What a prefix of a printed stream drains to: whole bodies, then less than one more frame. */
  lemma {:induction false} DrainedStreamPrefix(bodies: seq<Bytes>, b: Bytes, t: Bytes)
    requires Legal(bodies) && b + t == Stream(bodies)
    ensures Drained(b).Open? && |Drained(b).frames| <= |bodies|
    ensures Drained(b).rest + t == Stream(bodies[|Drained(b).frames|..])
    ensures |Drained(b).rest| < MAX_FRAME + 27
  {
    if bodies == [] {
      DrainedStream(bodies);
    } else {
      var f := Printed(bodies[0]);
      HeaderShape(|bodies[0]|);
      if |b| < |f| {
        assert b == (b + t)[..|b|] == f[..|b|];
        PartialFrameWaits(bodies[0], b);
        assert bodies[0..] == bodies;
      } else {
        SplitFirst(f, Stream(bodies[1..]), b, t);
        NextOfPrinted(bodies[0], b[|f|..]);
        DrainedStreamPrefix(bodies[1..], b[|f|..], t);
        var d := Drained(b[|f|..]);
        assert bodies[1..][|d.frames|..] == bodies[|d.frames| + 1..];
      }
    }
  }

  lemma SplitFirst(f: Bytes, u: Bytes, b: Bytes, t: Bytes)
    requires b + t == f + u && |f| <= |b|
    ensures b == f + b[|f|..] && b[|f|..] + t == u
  {
    assert b[..|f|] == (b + t)[..|f|] == f;
    assert (b + t)[|f|..] == b[|f|..] + t;
  }

  /** Messages of at most MAX_FRAME - 26 bytes always fit, whatever is printed. */
  lemma {:induction false} SmallMessagesFit(bodies: seq<Bytes>, buf: Bytes, chunks: seq<Bytes>)
    requires Legal(bodies) && buf + Flatten(chunks) == Stream(bodies) && |buf| < MAX_FRAME + 27
    requires forall i :: 0 <= i < |chunks| ==> |chunks[i]| <= MAX_FRAME - 26
    ensures Fits(buf, chunks)
    decreases |chunks|
  {
    if chunks != [] {
      var b, t := buf + chunks[0], Flatten(chunks[1..]);
      assert buf + Flatten(chunks) == b + t;
      DrainedStreamPrefix(bodies, b, t);
      SmallMessagesFit(bodies[|Drained(b).frames|..], Drained(b).rest, chunks[1..]);
    }
  }

  /**
   * The websocket accepts messages of up to MAX_FRAME bytes, and that is too many: two legal
   * bodies printed back to back can be cut into such messages and still be refused.
   */
  lemma {:induction false} LegalMessagesCanBeRefused(body: Bytes) returns (chunks: seq<Bytes>)
    requires |body| == MAX_FRAME
    ensures Flatten(chunks) == Stream([body, body])
    ensures forall i :: 0 <= i < |chunks| ==> |chunks[i]| <= MAX_FRAME
    ensures Serve([], chunks).Failed? && Serve([], chunks).error == InputTooLarge
  {
    HeaderShape(MAX_FRAME);
    StreamOfTwo(body);
    chunks := CutToOverflow(body, Printed(body));
    RoundTrip([body, body], chunks);
  }

  lemma {:induction false} CutToOverflow(body: Bytes, f: Bytes) returns (chunks: seq<Bytes>)
    requires LegalBody(body) && f == Printed(body) && MAX_FRAME + 21 <= |f| <= MAX_FRAME + 27
    ensures Flatten(chunks) == f + f && !Fits([], chunks)
    ensures forall i :: 0 <= i < |chunks| ==> |chunks[i]| <= MAX_FRAME
  {
    var a := |f| - 1 - MAX_FRAME;
    var one, two, three, four := f[..a], f[a..|f| - 1], f[|f| - 1..] + f[..MAX_FRAME - 1], f[MAX_FRAME - 1..];
    chunks := [one, two, three, four];
    FlattenFour(one, two, three, four);
    CutTwice(f, a);
    PartialFrameWaits(body, one);
    PartialFrameWaits(body, one + two);
    ThirdPushOverflows(one, two, three, four);
  }

  lemma CutTwice(f: Bytes, a: nat)
    requires a < |f| && MAX_FRAME - 1 <= |f| - 1
    ensures f[..a] + f[a..|f| - 1] == f[..|f| - 1]
    ensures f[..a] + f[a..|f| - 1] + (f[|f| - 1..] + f[..MAX_FRAME - 1]) + f[MAX_FRAME - 1..] == f + f
  {
    assert f[..|f| - 1] + f[|f| - 1..] == f && f[..MAX_FRAME - 1] + f[MAX_FRAME - 1..] == f;
  }

  lemma StreamOfTwo(body: Bytes)
    ensures Stream([body, body]) == Printed(body) + Printed(body)
  {
    assert [body, body][1..] == [body] && [body][1..] == [];
    assert Stream([body]) == Printed(body) + [];
  }

  lemma FlattenFour(a: Bytes, b: Bytes, c: Bytes, d: Bytes)
    ensures Flatten([a, b, c, d]) == a + b + c + d
  {
    assert [a, b, c, d][1..] == [b, c, d] && [b, c, d][1..] == [c, d];
    assert [c, d][1..] == [d] && [d][1..] == [];
    assert Flatten([d]) == d;
    assert Flatten([c, d]) == c + d;
    assert Flatten([b, c, d]) == b + (c + d);
  }

  lemma ThirdPushOverflows(a: Bytes, b: Bytes, c: Bytes, d: Bytes)
    requires NextFrame(a) == Incomplete && NextFrame(a + b) == Incomplete
    requires |a| + |b| + |c| > 2 * MAX_FRAME
    ensures !Fits([], [a, b, c, d])
  {
    assert [] + a == a;
    assert [a, b, c, d][1..] == [b, c, d] && [b, c, d][1..] == [c, d];
    assert !Fits(a + b, [c, d]);
    assert !Fits(a, [b, c, d]);
  }

  /** `count` copies of the letter a. */
  function Filler(count: nat): (s: Bytes)
    ensures |s| == count && forall i :: 0 <= i < count ==> s[i] == 97
  {
    seq(count, i => 97)
  }

  /** A field without a colon after `Content-Length: N` does not change the announced length. */
  lemma {:induction false} SecondFieldIgnored(n: nat, fill: Bytes)
    requires 1 <= n <= MAX_FRAME && fill != [] && forall i :: 0 <= i < |fill| ==> 58 < fill[i] < 128
    ensures ContentLength(Header(n) + [CR, LF] + fill) == Ok(n)
    ensures Terminator(Header(n) + [CR, LF] + fill + CRLF2, 0) == Some(|Header(n)| + 2 + |fill|)
  {
    HeaderShape(n);
    var h := Header(n);
    TwoLines(h, fill);
    AsciiIsUtf8(h + [CR, LF] + fill);
    ContentLengthOfHeader(n);
    assert Lines(h) == [h] by { assert IndexOf(h, LF, 0) == None; }
    LengthsOfTwo(h, fill);
  }

  lemma {:induction false} TwoLines(h: Bytes, fill: Bytes)
    requires h != [] && fill != []
    requires forall i :: 0 <= i < |h| ==> 32 <= h[i] < 128
    requires forall i :: 0 <= i < |fill| ==> 32 <= fill[i] < 128
    ensures Lines(h + [CR, LF] + fill) == [h, fill]
    ensures Terminator(h + [CR, LF] + fill + CRLF2, 0) == Some(|h| + 2 + |fill|)
  {
    var s := h + [CR, LF] + fill;
    assert IndexOf(s, LF, 0) == Some(|h| + 1) by { assert s[|h| + 1] == LF; }
    assert s[..|h|] == h && s[|h| + 2..] == fill && s[|h|] == CR;
    assert Lines(fill) == [fill] by { assert IndexOf(fill, LF, 0) == None; }
    assert TerminatorAt(s + CRLF2, |s|);
  }

  lemma {:induction false} LengthsOfTwo(h: Bytes, fill: Bytes)
    requires forall i :: 0 <= i < |fill| ==> fill[i] != COLON
    ensures Lengths([h, fill]) == Lengths([h])
  {
    assert [h, fill][1..] == [fill] && [fill][1..] == [] && [h][1..] == [];
    assert IndexOf(fill, COLON, 0) == None;
    assert Lengths([fill]) == [];
  }

  /** A header ending at one of the last three offsets is refused when only 8193 bytes have arrived. */
  lemma {:induction false} RefusedEarly(s: Bytes)
    requires Terminator(s, 0).Some? && MAX_HEADER - 2 <= Terminator(s, 0).value <= MAX_HEADER
    ensures MAX_HEADER + 2 <= |s| && Drained(s[..MAX_HEADER + 1]) == Failed([], HeaderTooLarge)
  {
    var early := s[..MAX_HEADER + 1];
    assert s == early + s[MAX_HEADER + 1..];
    TerminatorOfPrefix(early, s[MAX_HEADER + 1..]);
  }

  lemma {:induction false} ServeRefused(first: Bytes, second: Bytes, e: Error)
    requires |first| <= 2 * MAX_FRAME && Drained(first) == Failed([], e)
    ensures Serve([], [first, second]) == Failed([], e) && Fits([], [first, second])
  {
    assert [] + first == first;
  }

  /** Taken whole, such a stream is never answered with the header error before its first frame. */
  lemma {:induction false} NotRefusedWhole(s: Bytes)
    requires Terminator(s, 0).Some? && Terminator(s, 0).value <= MAX_HEADER
    ensures Drained(s) != Failed([], HeaderTooLarge)
  {
    var header := s[..Terminator(s, 0).value];
    assert ContentLength(header).Err? ==> ContentLength(header).error != HeaderTooLarge;
    if NextFrame(s).Frame? {
      assert |Drained(s).frames| > 0;
    }
  }

  /** A complete frame on its own, which always fits. */
  lemma {:induction false} FirstFrame(s: Bytes) returns (f: Bytes)
    requires NextFrame(s).Frame?
    ensures s == f + NextFrame(s).rest && |f| <= 2 * MAX_FRAME && Drained(f) == Open([NextFrame(s).body], [])
  {
    var end, length := FrameParts(s);
    LengthInRange(s[..end]);
    var total := end + 4 + length;
    f := s[..total];
    assert s == f + s[total..];
    TerminatorOfPrefix(f, s[total..]);
    assert f[..end] == s[..end] && f[end + 4..total] == s[end + 4..total] && f[total..] == [];
    assert TerminatorAt(f, end);
    FrameAt(f, end, length);
    assert Drained([]) == Open([], []) by { assert Terminator([], 0) == None; }
    assert [NextFrame(s).body] + [] == [NextFrame(s).body];
  }

  lemma LengthInRange(header: Bytes)
    requires ContentLength(header).Ok?
    ensures 1 <= ContentLength(header).value <= MAX_FRAME
  {
  }

  lemma {:induction false} ServeCons(f: Bytes, body: Bytes, chunks: seq<Bytes>)
    requires |f| <= 2 * MAX_FRAME && Drained(f) == Open([body], [])
    ensures Serve([], [f] + chunks) == Prepend(body, Serve([], chunks))
    ensures Fits([], [f] + chunks) == Fits([], chunks) && Flatten([f] + chunks) == f + Flatten(chunks)
  {
    assert [] + f == f && ([f] + chunks)[1..] == chunks;
  }

  /** Where a header ends at one of the three offsets, some cutting that fits changes the outcome. */
  lemma {:induction false} BadCutting(s: Bytes) returns (chunks: seq<Bytes>)
    requires !HeadersClear(s)
    ensures Flatten(chunks) == s && Fits([], chunks) && Serve([], chunks) != Drained(s)
    decreases |s|
  {
    if Terminator(s, 0).Some? && MAX_HEADER - 2 <= Terminator(s, 0).value <= MAX_HEADER {
      RefusedEarly(s);
      NotRefusedWhole(s);
      chunks := [s[..MAX_HEADER + 1], s[MAX_HEADER + 1..]];
      ServeRefused(chunks[0], chunks[1], HeaderTooLarge);
      FlattenTwo(chunks[0], chunks[1]);
      assert chunks[0] + chunks[1] == s;
    } else {
      var body, rest := NextFrame(s).body, NextFrame(s).rest;
      var f := FirstFrame(s);
      var inner := BadCutting(rest);
      ServeCons(f, body, inner);
      if Prepend(body, Serve([], inner)) == Prepend(body, Drained(rest)) {
        PrependInjective(body, Serve([], inner), Drained(rest));
      }
      chunks := [f] + inner;
    }
  }

  lemma PrependInjective(frame: Bytes, a: Session, b: Session)
    requires Prepend(frame, a) == Prepend(frame, b)
    ensures a == b
  {
    assert ([frame] + a.frames)[1..] == a.frames && ([frame] + b.frames)[1..] == b.frames;
  }

  /** Chunking is irrelevant exactly when no header of the stream ends at offset 8190, 8191 or 8192. */
  lemma {:induction false} ChunkingIrrelevantExactly(s: Bytes)
    ensures HeadersClear(s) <==>
      forall chunks :: Flatten(chunks) == s && Fits([], chunks) ==> Serve([], chunks) == Drained(s)
  {
    if HeadersClear(s) {
      forall chunks | Flatten(chunks) == s && Fits([], chunks)
        ensures Serve([], chunks) == Drained(s)
      {
        assert [] + Flatten(chunks) == s;
        assert Drained([]) == Open([], []) by { assert Terminator([], 0) == None; }
        ChunkingIrrelevant([], chunks);
      }
    } else {
      var chunks := BadCutting(s);
    }
  }

  /** Streams with such a header exist at each of the three offsets: one extra field of the right length. */
  lemma {:induction false} LongHeaderExists(end: nat, body: Bytes, t: Bytes) returns (h: Bytes)
    requires MAX_HEADER - 2 <= end <= MAX_HEADER && LegalBody(body)
    ensures |h| == end && NextFrame(h + CRLF2 + body + t) == Frame(body, t) && !HeadersClear(h + CRLF2 + body + t)
  {
    h := LongHeader(|body|, end);
    LongHeaderFrames(h, body, t);
  }

  lemma {:induction false} LongHeader(n: nat, end: nat) returns (h: Bytes)
    requires 1 <= n <= MAX_FRAME && MAX_HEADER - 2 <= end <= MAX_HEADER
    ensures |h| == end && Terminator(h + CRLF2, 0) == Some(end) && ContentLength(h) == Ok(n)
  {
    HeaderShape(n);
    var fill := Filler(end - 2 - |Header(n)|);
    SecondFieldIgnored(n, fill);
    h := Header(n) + [CR, LF] + fill;
  }

  lemma {:induction false} LongHeaderFrames(h: Bytes, body: Bytes, t: Bytes)
    requires MAX_HEADER - 2 <= |h| <= MAX_HEADER && Terminator(h + CRLF2, 0) == Some(|h|) && ContentLength(h) == Ok(|body|)
    ensures NextFrame(h + CRLF2 + body + t) == Frame(body, t) && !HeadersClear(h + CRLF2 + body + t)
  {
    NextOfFrame(h, body, t);
  }

  lemma FlattenTwo(a: Bytes, b: Bytes)
    ensures Flatten([a, b]) == a + b && Flatten([a + b]) == a + b
  {
    assert [a, b][1..] == [b] && [b][1..] == [] && [a + b][1..] == [];
    assert Flatten([b]) == b;
  }

  // ---------------------------------------------------------------- which headers are accepted

  /** Two spellings that differ in the case of letters only. */
  predicate SameLetters(a: Bytes, b: Bytes) {
    |a| == |b| && forall i :: 0 <= i < |a| ==>
      a[i] == b[i] || (65 <= a[i] <= 90 && b[i] == a[i] + 32) || (65 <= b[i] <= 90 && a[i] == b[i] + 32)
  }

  /** The field's name may be written in any case. */
  lemma {:induction false} AnyCaseAccepted(name: Bytes, n: nat)
    requires SameLetters(name, CONTENT_LENGTH) && 1 <= n <= MAX_FRAME
    ensures ContentLength(name + [COLON, SPACE] + NumberBytes(n)) == Ok(n)
  {
    var d := NumberBytes(n);
    var h := name + [COLON, SPACE] + d;
    assert forall i :: 0 <= i < |name| ==> name[i] != COLON && name[i] != LF && name[i] < 128;
    AsciiIsUtf8(h);
    assert IndexOf(h, LF, 0) == None;
    var one: seq<Bytes> := [h];
    assert Lines(h) == one && one[1..] == [];
    assert h[|name|] == COLON && IndexOf(h, COLON, 0) == Some(|name|);
    assert h[..|name|] == name && h[|name| + 1..] == [SPACE] + d;
    TrimDigits(d);
    assert Lengths([h]) == [d];
    ParsePrinted(n);
  }

  /** A header that announces its length twice, even the same one, is refused. */
  lemma {:induction false} TwoLengthsRefused(n: nat, m: nat)
    requires n <= MAX_FRAME && m <= MAX_FRAME
    ensures ContentLength(Header(n) + [CR, LF] + Header(m)) == Err(ContentLengthCount)
  {
    var g, h := Header(n), Header(m);
    HeaderShape(n);
    HeaderShape(m);
    TwoLines(g, h);
    AsciiIsUtf8(g + [CR, LF] + h);
    assert [g, h][1..] == [h] && [h][1..] == [];
    EqIgnoreCaseSelf(CONTENT_LENGTH);
    assert |Lengths([h])| == 1 && |Lengths([g, h])| == 2;
  }

  lemma EqIgnoreCaseSelf(a: Bytes)
    ensures EqIgnoreCase(a, a)
  {
  }

  /** A header without any length is refused. */
  lemma {:induction false} NoLengthRefused(h: Bytes)
    requires forall i :: 0 <= i < |h| ==> 32 <= h[i] < 128 && h[i] != COLON
    ensures ContentLength(h) == Err(ContentLengthCount)
  {
    AsciiIsUtf8(h);
    if h != [] {
      var one: seq<Bytes> := [h];
      assert IndexOf(h, LF, 0) == None && IndexOf(h, COLON, 0) == None;
      assert Lines(h) == one && one[1..] == [];
      assert Lengths([h]) == [];
    }
  }

  /** A printed length is accepted exactly when it is positive: an empty body is refused. */
  lemma {:induction false} PrintedLengthExactly(n: nat)
    requires n <= MAX_FRAME
    ensures ContentLength(Header(n)) == if n > 0 then Ok(n) else Err(ContentLengthRange)
  {
    var h, d := Header(n), NumberBytes(n);
    HeaderShape(n);
    AsciiIsUtf8(h);
    assert IndexOf(h, LF, 0) == None;
    var one: seq<Bytes> := [h];
    assert Lines(h) == one && one[1..] == [];
    TrimDigits(d);
    assert Lengths([h]) == [d];
    ParsePrinted(n);
  }
}
