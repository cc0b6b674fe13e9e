/** The bounded line reader over a child's stdout, and the message reader and writer on
    top of it. */
module Codec {
  import opened Wrappers

  newtype byte = x: int | 0 <= x < 256

  type Bytes = seq<byte>

  const LF: byte := 10
  const CR: byte := 13
  const MAX_MESSAGE_SIZE: nat := 16 * 1024 * 1024

  datatype CodecError = InvalidUtf8 | BufferOverflow(size: nat, limit: nat)

  /** What one JSON-RPC text means is not looked into: `utf8` says which bytes are text,
      `parse` and `print` stand for the JSON library. */
  datatype Format<!M> = Format(utf8: Bytes -> bool, parse: Bytes -> Option<M>, print_: M -> Bytes)

  // ── Lines of a stream ─────────────────────────────────────────────────

  /** Length of the first line: up to the first LF or the end. */
  function LineLength(s: Bytes): (n: nat)
    ensures n <= |s| && LF !in s[..n]
    ensures n < |s| ==> s[n] == LF
  {
    if s == [] || s[0] == LF then 0
    else
      var n := LineLength(s[1..]);
      assert s[..n + 1] == [s[0]] + s[1..][..n];
      n + 1
  }

  /** What follows the first line and its LF. */
  function Behind(s: Bytes): (rest: Bytes)
    ensures |rest| <= |s|
    ensures s != [] ==> |rest| < |s|
  {
    if LineLength(s) == |s| then [] else s[LineLength(s) + 1..]
  }

  datatype Line = Eof | Text(bytes: Bytes) | TooLong(at: nat)

  /** One read of a stream with the limit `max`: the lengths the reader happens to get
      play no part in it. */
  function ReadLine(s: Bytes, max: nat): Line {
    if s == [] then Eof
    else if LineLength(s) >= max then TooLong(LineLength(s))
    else Text(s[..LineLength(s)])
  }

  lemma LineLengthIs(s: Bytes, n: nat)
    requires n <= |s| && LF !in s[..n] && (n < |s| ==> s[n] == LF)
    ensures LineLength(s) == n
  {
    var m := LineLength(s);
    assert forall k :: 0 <= k < n ==> s[k] != LF by {
      assert forall k :: 0 <= k < n ==> s[..n][k] == s[k];
    }
    assert forall k :: 0 <= k < m ==> s[k] != LF by {
      assert forall k :: 0 <= k < m ==> s[..m][k] == s[k];
    }
  }

  /** `r` is the outcome of one read of `stream`, and `rest` is left behind it. An
      overflow reports some size from the limit up to the length of the line, and what is
      left then is not promised: the caller ends the session. */
  ghost predicate Delivers(stream: Bytes, max: nat, r: Result<Option<Bytes>, CodecError>, rest: Bytes) {
    match ReadLine(stream, max)
    case Eof => r == Ok(None) && rest == []
    case Text(line) => r == Ok(Some(line)) && rest == Behind(stream)
    case TooLong(n) => r.Err? && r.error.BufferOverflow? && r.error.limit == max && max <= r.error.size <= n
  }

  lemma LineEnds(stream: Bytes, max: nat)
    requires LF !in stream && (stream == [] || |stream| < max)
    ensures Delivers(stream, max, Ok(if stream == [] then None else Some(stream)), [])
  {
    assert stream[..|stream|] == stream;
    LineLengthIs(stream, |stream|);
  }

  /** `buf` has been read, and the first LF of what is left is at `pos`. */
  lemma LineFound(buf: Bytes, left: Bytes, pos: nat, max: nat)
    requires LF !in buf && pos < |left| && left[pos] == LF && LF !in left[..pos]
    ensures if |buf| + pos >= max
      then Delivers(buf + left, max, Err(BufferOverflow(|buf| + pos, max)), left)
      else Delivers(buf + left, max, Ok(Some(buf + left[..pos])), left[pos + 1..])
  {
    var stream := buf + left;
    var n := |buf| + pos;
    assert stream[..n] == buf + left[..pos];
    LineLengthIs(stream, n);
    assert stream[n + 1..] == left[pos + 1..];
  }

  /** `buf` has been read, and the next `n` bytes hold no LF. */
  lemma LineGoesOn(buf: Bytes, left: Bytes, n: nat, max: nat)
    requires LF !in buf && 0 < n <= |left| && LF !in left[..n]
    ensures |buf| + n >= max ==>
      Delivers(buf + left, max, Err(BufferOverflow(|buf| + n, max)), left)
  {
    var stream := buf + left;
    var k := LineLength(stream);
    assert forall i :: 0 <= i < |buf| + n ==> stream[i] != LF by {
      assert forall i :: 0 <= i < n ==> left[..n][i] == left[i];
      assert stream[..|buf| + n] == buf + left[..n];
      assert forall i :: 0 <= i < |buf| + n ==> stream[..|buf| + n][i] == stream[i];
    }
  }

  /** The same two steps as the reader sees them: `available` is what it was given of the
      bytes left. */
  lemma LineTaken(buf: Bytes, left: Bytes, available: Bytes, pos: nat, max: nat)
    requires LF !in buf && |available| <= |left| && available == left[..|available|]
    requires pos < |available| && available[pos] == LF && LF !in available[..pos]
    ensures if |buf| + pos >= max
      then Delivers(buf + left, max, Err(BufferOverflow(|buf| + pos, max)), left)
      else Delivers(buf + left, max, Ok(Some(buf + available[..pos])), left[pos + 1..])
  {
    hide Delivers;
    assert available[..pos] == left[..pos];
    LineFound(buf, left, pos, max);
  }

  lemma LineContinues(buf: Bytes, left: Bytes, available: Bytes, max: nat)
    requires LF !in buf && 0 < |available| <= |left| && available == left[..|available|] && LF !in available
    ensures |buf| + |available| >= max ==>
      Delivers(buf + left, max, Err(BufferOverflow(|buf| + |available|, max)), left)
    ensures LF !in buf + available && buf + left == buf + available + left[|available|..]
  {
    hide Delivers;
    LineGoesOn(buf, left, |available|, max);
    assert left == available + left[|available|..];
  }

  // ── The reader ────────────────────────────────────────────────────────

  /** A buffered reader: `rest` is everything not consumed, `filled` of it is already in
      the buffer, and `sizes` is how much each further read of the source would return. */
  class BufReader {
    var rest: Bytes
    var filled: nat
    var sizes: seq<nat>

    ghost predicate Valid()
      reads this
    {
      filled <= |rest|
    }

    constructor (stream: Bytes, sizes: seq<nat>)
      ensures Valid() && rest == stream
    {
      this.rest, this.filled, this.sizes := stream, 0, sizes;
    }

    /** Some of the unread bytes; none only at the end of the stream. */
    method FillBuf() returns (available: Bytes)
      requires Valid()
      modifies this`filled, this`sizes
      ensures Valid() && filled == |available|
      ensures available == rest[..|available|]
      ensures available == [] <==> rest == []
    {
      if filled == 0 && rest != [] {
        var n := if sizes == [] then |rest| else sizes[0];
        if sizes != [] {
          sizes := sizes[1..];
        }
        filled := if n == 0 then 1 else if n > |rest| then |rest| else n;
      }
      available := rest[..filled];
    }

    method Consume(n: nat)
      requires Valid() && n <= filled
      modifies this`rest, this`filled
      ensures Valid() && rest == old(rest)[n..]
    {
      rest := rest[n..];
      filled := filled - n;
    }
  }

  method Position(s: Bytes, b: byte) returns (r: Option<nat>)
    ensures r.None? ==> b !in s
    ensures r.Some? ==> r.value < |s| && s[r.value] == b && b !in s[..r.value]
  {
    var i := 0;
    while i < |s|
      invariant i <= |s| && b !in s[..i]
    {
      if s[i] == b {
        return Some(i);
      }
      assert s[..i + 1] == s[..i] + [s[i]];
      i := i + 1;
    }
    assert s[..i] == s;
    return None;
  }

  // ── Messages of a stream ──────────────────────────────────────────────

  predicate IsAsciiWhitespace(b: byte) {
    b == 32 || b == 9 || b == 10 || b == 12 || b == 13
  }

  /** Only spaces, tabs, line feeds, form feeds and carriage returns. */
  predicate Blank(s: Bytes): (r: bool)
    ensures r <==> forall b :: b in s ==> b in {9, 10, 12, 13, 32}
  {
    assert forall i :: 0 <= i < |s| ==> s[i] in s;
    forall i :: 0 <= i < |s| ==> IsAsciiWhitespace(s[i])
  }

  /** The line less one CR at its end. */
  function StripCr(s: Bytes): (r: Bytes)
    ensures r <= s && |s| - |r| == if s != [] && s[|s| - 1] == CR then 1 else 0
  {
    if s != [] && s[|s| - 1] == CR then s[..|s| - 1] else s
  }

  datatype Verdict<M> = Skip | Bad | Fatal | Good(message: M)

  /** What becomes of one line. */
  function Judge<M>(f: Format<M>, line: Bytes): Verdict<M> {
    var raw := StripCr(line);
    if Blank(raw) then Skip
    else if !f.utf8(raw) then Fatal
    else if |raw| > MAX_MESSAGE_SIZE then Bad
    else match f.parse(raw)
      case Some(m) => Good(m)
      case None => Bad
  }

  /** One call of `read_message`: its result, the stream left, and the errors counted. */
  datatype Reading<M> = Reading(result: Result<Option<M>, CodecError>, rest: Bytes, counted: nat)

  ghost predicate SameOutcome<M>(a: Result<Option<M>, CodecError>, b: Result<Option<M>, CodecError>) {
    || a == b
    || (a.Err? && b.Err? && a.error.BufferOverflow? && b.error.BufferOverflow?)
  }

  function NextMessage<M>(f: Format<M>, s: Bytes, max: nat): Reading<M>
    decreases |s|
  {
    match ReadLine(s, max)
    case Eof => Reading(Ok(None), s, 0)
    case TooLong(n) => Reading(Err(BufferOverflow(n, max)), s, 0)
    case Text(line) =>
      match Judge(f, line)
      case Good(m) => Reading(Ok(Some(m)), Behind(s), 0)
      case Fatal => Reading(Err(InvalidUtf8), Behind(s), 1)
      case Skip => NextMessage(f, Behind(s), max)
      case Bad =>
        var r := NextMessage(f, Behind(s), max);
        r.(counted := r.counted + 1)
  }

  /** A message read is one line judged, and the rest unless the line settles it. */
  lemma {:induction false} NextMessageStep<M>(f: Format<M>, s: Bytes, max: nat)
    ensures ReadLine(s, max).Eof? ==> s == [] && NextMessage(f, s, max) == Reading(Ok(None), s, 0)
    ensures ReadLine(s, max).TooLong? ==>
      NextMessage(f, s, max) == Reading(Err(BufferOverflow(ReadLine(s, max).at, max)), s, 0)
    ensures ReadLine(s, max).Text? ==>
      |Behind(s)| < |s| && NextMessage(f, s, max) == AfterLine(f, Judge(f, ReadLine(s, max).bytes), Behind(s), max)
  {
  }

  function AfterLine<M>(f: Format<M>, v: Verdict<M>, rest: Bytes, max: nat): Reading<M> {
    match v
    case Good(m) => Reading(Ok(Some(m)), rest, 0)
    case Fatal => Reading(Err(InvalidUtf8), rest, 1)
    case Skip => NextMessage(f, rest, max)
    case Bad => var r := NextMessage(f, rest, max); r.(counted := r.counted + 1)
  }

  class StdoutCodec {
    const reader: BufReader
    const maxBuffer: nat
    var buf: Bytes
    var decodeErrors: nat
    ghost var peak: nat // the longest the buffer has ever been

    /** The buffer stays below the limit at all times. */
    ghost predicate Valid()
      reads this, reader
    {
      reader.Valid() && |buf| <= peak && (peak == 0 || peak < maxBuffer)
    }

    constructor (reader: BufReader, maxBuffer: nat)
      requires reader.Valid()
      ensures Valid() && this.reader == reader && this.maxBuffer == maxBuffer && decodeErrors == 0
    {
      this.reader, this.maxBuffer := reader, maxBuffer;
      buf, decodeErrors, peak := [], 0, 0;
    }

    method ReadLineRaw() returns (r: Result<Option<Bytes>, CodecError>)
      requires Valid()
      modifies this`buf, this`peak, reader
      ensures Valid()
      ensures Delivers(old(reader.rest), maxBuffer, r, reader.rest)
    {
      hide Delivers, LineLength, Behind;
      buf := [];
      ghost var stream := reader.rest;
      while true
        invariant Valid()
        invariant stream == buf + reader.rest
        invariant LF !in buf
        decreases |reader.rest|
      {
        var available := reader.FillBuf();
        ghost var left := reader.rest;
        if available == [] {
          assert stream == buf + [] == buf;
          LineEnds(stream, maxBuffer);
          r := Ok(if buf == [] then None else Some(buf));
          buf := [];
          return;
        }
        var pos := Position(available, LF);
        if pos.Some? {
          LineTaken(buf, left, available, pos.value, maxBuffer);
          if |buf| + pos.value >= maxBuffer {
            return Err(BufferOverflow(|buf| + pos.value, maxBuffer));
          }
          Keep(available[..pos.value]);
          reader.Consume(pos.value + 1);
          r := Ok(Some(buf));
          buf := [];
          return;
        }
        LineContinues(buf, left, available, maxBuffer);
        if |buf| + |available| >= maxBuffer {
          return Err(BufferOverflow(|buf| + |available|, maxBuffer));
        }
        Keep(available);
        reader.Consume(|available|);
      }
    }

    method Keep(bytes: Bytes)
      requires Valid() && |buf| + |bytes| < maxBuffer
      modifies this`buf, this`peak
      ensures Valid() && buf == old(buf) + bytes
    {
      buf := buf + bytes;
      peak := if |buf| > peak then |buf| else peak;
    }

    /** The result and the rest of the stream; an overflow stops the session, so what is
        left then is not promised. */
    method ReadMessage<M>(f: Format<M>) returns (r: Result<Option<M>, CodecError>)
      requires Valid()
      modifies this`buf, this`peak, this`decodeErrors, reader
      ensures Valid()
      ensures var spec := NextMessage(f, old(reader.rest), maxBuffer);
        && SameOutcome(r, spec.result)
        && decodeErrors == old(decodeErrors) + spec.counted
        && (r.Ok? || r.error.InvalidUtf8? ==> reader.rest == spec.rest)
    {
      hide NextMessage, ReadLine, Behind;
      ghost var spec := NextMessage(f, reader.rest, maxBuffer);
      ghost var before := decodeErrors;
      while true
        invariant Valid()
        invariant var now := NextMessage(f, reader.rest, maxBuffer);
          && now.result == spec.result && now.rest == spec.rest
          && decodeErrors + now.counted == before + spec.counted
        decreases |reader.rest|
      {
        NextMessageStep(f, reader.rest, maxBuffer);
        var read := ReadLineRaw();
        if read.Err? {
          return Err(read.error);
        }
        if read.value.None? {
          return Ok(None);
        }
        var raw := read.value.value;
        if raw != [] && raw[|raw| - 1] == CR {
          raw := raw[..|raw| - 1];
        }
        if Blank(raw) {
          continue;
        }
        if !f.utf8(raw) {
          decodeErrors := decodeErrors + 1;
          return Err(InvalidUtf8);
        }
        if |raw| > MAX_MESSAGE_SIZE {
          decodeErrors := decodeErrors + 1;
          continue;
        }
        match f.parse(raw) {
          case Some(m) => return Ok(Some(m));
          case None =>
            decodeErrors := decodeErrors + 1;
            continue;
        }
      }
    }
  }

}
