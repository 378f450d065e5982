/**
 * Incremental reassembly of Debug Adapter Protocol messages
 * (sandbox/supervisor/src/debugger/node_attach.rs) and the writer that prints them
 * (sandbox/supervisor/src/debugger.rs). The framing is the header part and content part of the
 * Base Protocol section of the Debug Adapter Protocol. A body is a byte sequence; decoding it as
 * JSON happens after the frame has been split off.
 */
module DapFrames {
  import opened Prelude
  import Decimal

  const CR: byte := 13
  const COLON: byte := 58
  const SPACE: byte := 32
  const CRLF2: Bytes := [CR, LF, CR, LF]
  /** `Content-Length` in ASCII. */
  const CONTENT_LENGTH: Bytes := [67, 111, 110, 116, 101, 110, 116, 45, 76, 101, 110, 103, 116, 104]
  const MAX_FRAME: nat := 8 * 1024 * 1024
  const MAX_HEADER: nat := 8192
  const USIZE_MAX: nat := 0xFFFF_FFFF_FFFF_FFFF

  datatype Error =
    | InputTooLarge
    | HeaderTooLarge
    | HeaderNotUtf8
    | ContentLengthCount
    | ContentLengthSyntax
    | ContentLengthRange

  // ---------------------------------------------------------------- header parsing

  predicate Continuation(b: byte) { 0x80 <= b <= 0xBF }

  /** Length of the UTF-8 sequence at the head of `s`, or 0 when it is ill-formed. */
  function Utf8Width(s: Bytes): (w: nat)
    requires s != []
    ensures w <= |s|
  {
    var b := s[0];
    if b < 0x80 then 1
    else if 0xC2 <= b <= 0xDF && |s| >= 2 && Continuation(s[1]) then 2
    else if 0xE0 <= b <= 0xEF && |s| >= 3 && Continuation(s[1]) && Continuation(s[2])
         && (b == 0xE0 ==> s[1] >= 0xA0) && (b == 0xED ==> s[1] <= 0x9F) then 3
    else if 0xF0 <= b <= 0xF4 && |s| >= 4 && Continuation(s[1]) && Continuation(s[2]) && Continuation(s[3])
         && (b == 0xF0 ==> s[1] >= 0x90) && (b == 0xF4 ==> s[1] <= 0x8F) then 4
    else 0
  }

  predicate ValidUtf8(s: Bytes) {
    s == [] || (Utf8Width(s) > 0 && ValidUtf8(s[Utf8Width(s)..]))
  }

  /** Index of the first `b` at or after `from`. */
  function IndexOf(s: Bytes, b: byte, from: nat): (r: Option<nat>)
    requires from <= |s|
    ensures r.None? ==> forall i :: from <= i < |s| ==> s[i] != b
    ensures r.Some? ==> from <= r.value < |s| && s[r.value] == b && forall i :: from <= i < r.value ==> s[i] != b
    decreases |s| - from
  {
    if from == |s| then None else if s[from] == b then Some(from) else IndexOf(s, b, from + 1)
  }

  /** `str::lines`: split at `\n`, one `\r` before it dropped, no empty last line. */
  function Lines(s: Bytes): seq<Bytes>
    decreases |s|
  {
    if s == [] then [] else
    match IndexOf(s, LF, 0)
    case None => [s]
    case Some(i) =>
      var line := if i > 0 && s[i - 1] == CR then s[..i - 1] else s[..i];
      [line] + Lines(s[i + 1..])
  }

  function Lower(b: byte): byte { if 65 <= b <= 90 then b + 32 else b }

  predicate EqIgnoreCase(a: Bytes, b: Bytes) {
    |a| == |b| && forall i :: 0 <= i < |a| ==> Lower(a[i]) == Lower(b[i])
  }

  predicate White(b: byte) { b == SPACE || 9 <= b <= 13 }

  function TrimStart(s: Bytes): Bytes { if s != [] && White(s[0]) then TrimStart(s[1..]) else s }

  function TrimEnd(s: Bytes): Bytes { if s != [] && White(s[|s| - 1]) then TrimEnd(s[..|s| - 1]) else s }

  /** The trimmed values of the `Content-Length` lines. */
  function Lengths(lines: seq<Bytes>): seq<Bytes> {
    if lines == [] then [] else
    var line := lines[0];
    match IndexOf(line, COLON, 0)
    case None => Lengths(lines[1..])
    case Some(i) =>
      if EqIgnoreCase(line[..i], CONTENT_LENGTH)
      then [TrimEnd(TrimStart(line[i + 1..]))] + Lengths(lines[1..])
      else Lengths(lines[1..])
  }

  predicate IsDigit(b: byte) { 48 <= b <= 57 }

  function DigitValue(b: byte): nat
    requires IsDigit(b)
  {
    b as int - 48
  }

  function DigitValues(s: Bytes): seq<nat>
    requires forall i :: 0 <= i < |s| ==> IsDigit(s[i])
  {
    seq(|s|, i requires 0 <= i < |s| => DigitValue(s[i]))
  }

  /** `str::parse::<usize>`: an optional `+`, then at least one digit, no overflow. */
  function ParseUsize(s: Bytes): Option<nat> {
    var digits := if s != [] && s[0] == 43 then s[1..] else s;
    if digits == [] || exists i :: 0 <= i < |digits| && !IsDigit(digits[i]) then None else
    var n := Decimal.Value(DigitValues(digits));
    if n <= USIZE_MAX then Some(n) else None
  }

  function ContentLength(header: Bytes): Result<nat, Error> {
    if !ValidUtf8(header) then Err(HeaderNotUtf8) else
    var lengths := Lengths(Lines(header));
    if |lengths| != 1 then Err(ContentLengthCount) else
    match ParseUsize(lengths[0])
    case None => Err(ContentLengthSyntax)
    case Some(n) => if 0 < n <= MAX_FRAME then Ok(n) else Err(ContentLengthRange)
  }

  // ---------------------------------------------------------------- the parser

  predicate TerminatorAt(buf: Bytes, i: int) {
    0 <= i && i + 4 <= |buf| && buf[i] == CR && buf[i + 1] == LF && buf[i + 2] == CR && buf[i + 3] == LF
  }

  /** `windows(4).position(..)`: the first blank line. */
  function Terminator(buf: Bytes, from: nat): (r: Option<nat>)
    requires from <= |buf|
    ensures r.None? ==> forall i :: from <= i ==> !TerminatorAt(buf, i)
    ensures r.Some? ==> from <= r.value && TerminatorAt(buf, r.value)
    ensures r.Some? ==> forall i :: from <= i < r.value ==> !TerminatorAt(buf, i)
    decreases |buf| - from
  {
    if from == |buf| then None else if TerminatorAt(buf, from) then Some(from) else Terminator(buf, from + 1)
  }

  datatype Parsed = Incomplete | Frame(body: Bytes, rest: Bytes) | Invalid(error: Error)

  /** What one call of `next` does to a buffer. */
  function NextFrame(buf: Bytes): (p: Parsed)
    ensures p.Frame? ==> |p.rest| < |buf|
  {
    match Terminator(buf, 0)
    case None => if |buf| <= MAX_HEADER then Incomplete else Invalid(HeaderTooLarge)
    case Some(end) =>
      if end > MAX_HEADER then Invalid(HeaderTooLarge) else
      match ContentLength(buf[..end])
      case Err(e) => Invalid(e)
      case Ok(length) =>
        var total := end + 4 + length;
        if |buf| < total then Incomplete else Frame(buf[end + 4..total], buf[total..])
  }

  datatype Session = Open(frames: seq<Bytes>, rest: Bytes) | Failed(frames: seq<Bytes>, error: Error)

  function Prepend(frame: Bytes, s: Session): Session { s.(frames := [frame] + s.frames) }

  /** Every frame `next` yields from a buffer, in order, and what is left. */
  function Drained(buf: Bytes): Session
    decreases |buf|
  {
    match NextFrame(buf)
    case Incomplete => Open([], buf)
    case Invalid(e) => Failed([], e)
    case Frame(body, rest) => Prepend(body, Drained(rest))
  }

  class Requests {
    var buf: Bytes

    constructor ()
      ensures buf == []
    {
      buf := [];
    }

    method Push(bytes: Bytes) returns (ok: bool)
      modifies this
      ensures ok <==> |old(buf)| + |bytes| <= 2 * MAX_FRAME
      ensures buf == if ok then old(buf) + bytes else old(buf)
    {
      if |buf| + |bytes| > 2 * MAX_FRAME {
        return false;
      }
      buf := buf + bytes;
      ok := true;
    }

    method Next() returns (r: Result<Option<Bytes>, Error>)
      modifies this
      ensures match NextFrame(old(buf))
        case Incomplete => r == Ok(None) && buf == old(buf)
        case Invalid(e) => r == Err(e) && buf == old(buf)
        case Frame(body, rest) => r == Ok(Some(body)) && buf == rest
    {
      var found := Terminator(buf, 0);
      if found.None? {
        if |buf| > MAX_HEADER {
          return Err(HeaderTooLarge);
        }
        return Ok(None);
      }
      var end := found.value;
      if end > MAX_HEADER {
        return Err(HeaderTooLarge);
      }
      var length := ContentLength(buf[..end]);
      if length.Err? {
        return Err(length.error);
      }
      var total := end + 4 + length.value;
      if |buf| < total {
        return Ok(None);
      }
      var frame := buf[..total];
      buf := buf[total..];
      assert frame[end + 4..] == old(buf)[end + 4..total];
      r := Ok(Some(frame[end + 4..]));
    }

    /** One binary message of the tunnel: push it, then take every complete request. */
    method Receive(bytes: Bytes) returns (s: Session)
      modifies this
      ensures s == Received(old(buf), bytes)
      ensures s.Open? ==> buf == s.rest
    {
      var ok := Push(bytes);
      if !ok {
        return Failed([], InputTooLarge);
      }
      s := TakeAll();
    }

    /** Every request `next` can take from the buffer as it stands. */
    method TakeAll() returns (s: Session)
      modifies this
      ensures s == Drained(old(buf))
      ensures s.Open? ==> buf == s.rest
    {
      var frames: seq<Bytes> := [];
      while true
        invariant Drained(old(buf)) == Continue(frames, Drained(buf))
        decreases |buf|
      {
        ContinueStep(frames, buf);
        var r := Next();
        if r.Err? {
          return Failed(frames, r.error);
        }
        if r.value.None? {
          return Open(frames, buf);
        }
        frames := frames + [r.value.value];
      }
    }
  }

  function Continue(frames: seq<Bytes>, s: Session): Session { s.(frames := frames + s.frames) }

  function Received(buf: Bytes, bytes: Bytes): Session {
    if |buf| + |bytes| > 2 * MAX_FRAME then Failed([], InputTooLarge) else Drained(buf + bytes)
  }

  lemma {:induction false} ContinueStep(frames: seq<Bytes>, buf: Bytes)
    ensures match NextFrame(buf)
      case Incomplete => Continue(frames, Drained(buf)) == Open(frames, buf)
      case Invalid(e) => Continue(frames, Drained(buf)) == Failed(frames, e)
      case Frame(body, rest) => Continue(frames, Drained(buf)) == Continue(frames + [body], Drained(rest))
  {
    var p := NextFrame(buf);
    if p.Frame? {
      ContinuePrepend(frames, p.body, Drained(p.rest));
    } else {
      assert frames + [] == frames;
    }
  }

  lemma ContinuePrepend(frames: seq<Bytes>, body: Bytes, s: Session)
    ensures Continue(frames, Prepend(body, s)) == Continue(frames + [body], s)
  {
    assert frames + ([body] + s.frames) == frames + [body] + s.frames;
  }
}
