/** Newline-delimited frames read from a byte stream that arrives in arbitrary pieces. */
module Framing {
  import opened Options

  newtype byte = x: int | 0 <= x < 256

  const NEWLINE: byte := 10

  const MAX_WIRE_MESSAGE_BYTES: nat := 4 * 1024 * 1024

  function Joined(chunks: seq<seq<byte>>): (s: seq<byte>) {
    if chunks == [] then [] else chunks[0] + Joined(chunks[1..])
  }

  /** The position of the first newline, or the length if there is none. */
  function FirstNewline(s: seq<byte>): (n: nat)
    ensures n <= |s| && NEWLINE !in s[..n] && (n < |s| ==> s[n] == NEWLINE)
  {
    if s == [] then 0
    else if s[0] == NEWLINE then 0
    else
      var n := FirstNewline(s[1..]);
      assert s[..n + 1] == [s[0]] + s[1..][..n];
      n + 1
  }

  function Min(a: nat, b: nat): (m: nat) { if a < b then a else b }

  /** How much a read takes: through the newline, but never more than the limit and one. */
  function LineLength(s: seq<byte>, limit: nat): (n: nat)
    ensures n <= |s| && n <= limit + 1
  {
    Min(Min(FirstNewline(s) + 1, limit + 1), |s|)
  }

  // ---------------------------------------------------------------- the reader

  /** A buffered reader: the pieces not yet consumed, none of them empty. */
  class Reader {
    var chunks: seq<seq<byte>>

    constructor (chunks: seq<seq<byte>>)
      requires [] !in chunks
      ensures Valid() && Stream() == Joined(chunks)
    {
      this.chunks := chunks;
    }

    ghost predicate Valid()
      reads this
    {
      [] !in chunks
    }

    ghost function Stream(): (s: seq<byte>)
      reads this
    {
      Joined(chunks)
    }

    /** What is buffered now; nothing means the stream has ended. */
    method FillBuf() returns (available: seq<byte>)
      requires Valid()
      ensures available <= Stream()
      ensures available == [] <==> Stream() == []
      ensures available != [] ==> chunks != [] && available == chunks[0]
    {
      available := if chunks == [] then [] else chunks[0];
      assert chunks != [] ==> chunks[0] in chunks;
    }

    method Consume(n: nat)
      requires Valid() && chunks != [] && n <= |chunks[0]|
      modifies this
      ensures Valid() && Stream() == old(Stream())[n..]
    {
      var rest := chunks[0][n..];
      if rest == [] {
        chunks := chunks[1..];
      } else {
        chunks := [rest] + chunks[1..];
        assert chunks[1..] == old(chunks)[1..];
      }
    }
  }

  lemma {:induction false} FirstNewlineUnique(s: seq<byte>, n: nat)
    requires n <= |s| && NEWLINE !in s[..n] && (n < |s| ==> s[n] == NEWLINE)
    ensures FirstNewline(s) == n
  {
    if n > 0 {
      assert s[..n][0] == s[0];
      assert s[1..][..n - 1] == s[..n][1..];
      FirstNewlineUnique(s[1..], n - 1);
    }
  }

  lemma FirstNewlineIn(s: seq<byte>, n: nat)
    requires n <= |s|
    ensures FirstNewline(s[..n]) == Min(FirstNewline(s), n)
  {
    var m := Min(FirstNewline(s), n);
    assert s[..n][..m] == s[..m] && s[..m] == s[..FirstNewline(s)][..m];
    FirstNewlineUnique(s[..n], m);
  }

  lemma FirstNewlineAfter(s: seq<byte>, n: nat)
    requires n <= FirstNewline(s)
    ensures FirstNewline(s[n..]) + n == FirstNewline(s)
  {
    var m := FirstNewline(s) - n;
    assert s[n..][..m] == s[..FirstNewline(s)][n..];
    FirstNewlineUnique(s[n..], m);
  }

  lemma Slices(whole: seq<byte>, done: nat, n: nat)
    requires done + n <= |whole|
    ensures whole[..done] + whole[done..][..n] == whole[..done + n]
    ensures whole[done..][n..] == whole[done + n..]
  {
  }

  /** Reads one line, however the bytes arrive: exactly what `LineLength` says is taken, and the rest
      stays. */
  method ReadBoundedLine(reader: Reader, limit: nat) returns (line: seq<byte>)
    requires reader.Valid()
    modifies reader
    ensures reader.Valid()
    ensures var n := LineLength(old(reader.Stream()), limit);
      line == old(reader.Stream())[..n] && reader.Stream() == old(reader.Stream())[n..]
  {
    ghost var whole := reader.Stream();
    line := [];
    while true
      invariant reader.Valid() && |line| <= |whole|
      invariant line == whole[..|line|] && reader.Stream() == whole[|line|..]
      invariant |line| <= limit && |line| <= FirstNewline(whole)
      decreases |whole| - |line|
    {
      FirstNewlineAfter(whole, |line|);
      var piece, found := TakePiece(reader, limit + 1 - |line|);
      Slices(whole, |line|, |piece|);
      line := line + piece;
      if piece == [] || found || |line| > limit { return; }
    }
  }

  /** Takes what is buffered, through a newline and up to `room` bytes. */
  method TakePiece(reader: Reader, room: nat) returns (piece: seq<byte>, found: bool)
    requires reader.Valid() && room > 0
    modifies reader
    ensures reader.Valid()
    ensures |piece| <= |old(reader.Stream())| && |piece| <= room
    ensures piece == old(reader.Stream())[..|piece|] && reader.Stream() == old(reader.Stream())[|piece|..]
    ensures piece == [] <==> old(reader.Stream()) == []
    ensures found ==> |piece| == FirstNewline(old(reader.Stream())) + 1
    ensures !found ==> |piece| <= FirstNewline(old(reader.Stream()))
  {
    var buffer := reader.FillBuf();
    if buffer == [] { return [], false; }
    var available := buffer[..Min(|buffer|, room)];
    FirstNewlineIn(reader.Stream(), |available|);
    assert available == reader.Stream()[..|available|];
    var newline := FirstNewline(available);
    found := newline < |available|;
    piece := available[..if found then newline + 1 else |available|];
    reader.Consume(|piece|);
  }

  // ---------------------------------------------------------------- frames

  /** What the server makes of its input: a request, or an error that ends the connection. */
  datatype Input = Frame(bytes: seq<byte>) | FramingError

  predicate IsWhite(b: byte) { b == 32 || b == 9 || b == 10 || b == 12 || b == 13 }

  predicate Blank(s: seq<byte>) { forall b <- s :: IsWhite(b) }

  /** The line is terminated and not too long. */
  predicate Accepted(line: seq<byte>, limit: nat) {
    line != [] && line[|line| - 1] == NEWLINE && |line| - 1 <= limit
  }

  function Frames(s: seq<byte>, limit: nat): (r: seq<Input>)
    decreases |s|
  {
    if s == [] then []
    else
      var n := LineLength(s, limit);
      if !Accepted(s[..n], limit) then [FramingError]
      else (if Blank(s[..n]) then [] else [Frame(s[..n - 1])]) + Frames(s[n..], limit)
  }

  /** The server's reading loop. */
  method ReadFrames(reader: Reader, limit: nat) returns (inputs: seq<Input>)
    requires reader.Valid()
    modifies reader
    ensures inputs == Frames(old(reader.Stream()), limit)
  {
    inputs := [];
    ghost var stream := reader.Stream();
    while true
      invariant reader.Valid() && stream == reader.Stream()
      invariant inputs + Frames(stream, limit) == Frames(old(reader.Stream()), limit)
      decreases |stream|
    {
      FramesOnce(inputs, stream, limit);
      var line := ReadBoundedLine(reader, limit);
      stream := reader.Stream();
      if line == [] { return; }
      if !Accepted(line, limit) { return inputs + [FramingError]; }
      inputs := Noted(inputs, line);
    }
  }

  function Noted(inputs: seq<Input>, line: seq<byte>): (r: seq<Input>)
    requires line != []
  {
    if Blank(line) then inputs else inputs + [Frame(line[..|line| - 1])]
  }

  lemma FramesOnce(inputs: seq<Input>, s: seq<byte>, limit: nat)
    ensures
      var n := LineLength(s, limit);
      && (s[..n] == [] <==> s == [])
      && (s == [] ==> Frames(s, limit) == [])
      && (s != [] && !Accepted(s[..n], limit) ==> Frames(s, limit) == [FramingError])
      && (s != [] && Accepted(s[..n], limit) ==>
        Noted(inputs, s[..n]) + Frames(s[n..], limit) == inputs + Frames(s, limit))
  {
    var n := LineLength(s, limit);
    if s != [] && Accepted(s[..n], limit) {
      assert s[..n][..n - 1] == s[..n - 1];
      assert Frames(s, limit) == (if Blank(s[..n]) then [] else [Frame(s[..n - 1])]) + Frames(s[n..], limit);
    }
  }

  // ---------------------------------------------------------------- what the stream says

  function Terminated(lines: seq<seq<byte>>): (s: seq<byte>) {
    if lines == [] then [] else lines[0] + [NEWLINE] + Terminated(lines[1..])
  }

  ghost predicate Lines(lines: seq<seq<byte>>) { forall l <- lines :: NEWLINE !in l }

  /** Reading line by line without a bound: every line in turn until one is too long, and an error for
      that one or for a last line that is not terminated. */
  function Judge(lines: seq<seq<byte>>, tail: seq<byte>, limit: nat): (r: seq<Input>) {
    if lines == [] then (if tail == [] then [] else [FramingError])
    else if |lines[0]| > limit then [FramingError]
    else (if Blank(lines[0]) then [] else [Frame(lines[0])]) + Judge(lines[1..], tail, limit)
  }

  lemma FirstNewlineIs(line: seq<byte>, rest: seq<byte>)
    requires NEWLINE !in line
    ensures FirstNewline(line + [NEWLINE] + rest) == |line|
  {
    assert (line + [NEWLINE] + rest)[..|line|] == line;
    FirstNewlineUnique(line + [NEWLINE] + rest, |line|);
  }

  /** One terminated line of an incoming stream is taken whole and alone, unless it is too long; then
      it is an error. */
  lemma LineIsTaken(line: seq<byte>, rest: seq<byte>, limit: nat)
    requires NEWLINE !in line
    ensures
      var s := line + [NEWLINE] + rest;
      var n := LineLength(s, limit);
      && (Accepted(s[..n], limit) <==> |line| <= limit)
      && (|line| <= limit ==> s[..n] == line + [NEWLINE] && s[n..] == rest)
  {
    FirstNewlineIs(line, rest);
    var s := line + [NEWLINE] + rest;
    var n := LineLength(s, limit);
    if |line| > limit {
      assert s[..n][limit] == line[limit];
    } else {
      assert s[..n] == line + [NEWLINE];
    }
  }

  lemma TailIsRefused(tail: seq<byte>, limit: nat)
    requires NEWLINE !in tail && tail != []
    ensures Frames(tail, limit) == [FramingError]
  {
    var n := LineLength(tail, limit);
    assert tail[..n][n - 1] in tail;
  }

  lemma BlankLine(line: seq<byte>)
    ensures Blank(line + [NEWLINE]) <==> Blank(line)
  {
    if Blank(line + [NEWLINE]) { assert forall b <- line :: b in line + [NEWLINE]; }
  }

  lemma FramesStep(line: seq<byte>, rest: seq<byte>, limit: nat)
    requires NEWLINE !in line
    ensures Frames(line + [NEWLINE] + rest, limit) ==
      if |line| > limit then [FramingError] else (if Blank(line) then [] else [Frame(line)]) + Frames(rest, limit)
  {
    var s := line + [NEWLINE] + rest;
    var n := LineLength(s, limit);
    LineIsTaken(line, rest, limit);
    BlankLine(line);
    if |line| <= limit { assert s[..n - 1] == line; }
  }

  /** The bounded reader sees what an unbounded one would: for every stream, its lines in order up to
      the first that is too long or not terminated. */
  lemma {:induction false} FramesAreLines(lines: seq<seq<byte>>, tail: seq<byte>, limit: nat)
    requires Lines(lines) && NEWLINE !in tail
    ensures Frames(Terminated(lines) + tail, limit) == Judge(lines, tail, limit)
    decreases |lines|
  {
    var s := Terminated(lines) + tail;
    if lines == [] {
      assert s == tail;
      if tail != [] { TailIsRefused(tail, limit); }
    } else {
      var line, rest := lines[0], Terminated(lines[1..]) + tail;
      assert s == line + [NEWLINE] + rest;
      assert line in lines;
      FramesAreLines(lines[1..], tail, limit);
      FramesStep(line, rest, limit);
    }
  }

  /** Every stream is its lines and a rest. */
  lemma {:induction false} StreamHasLines(s: seq<byte>) returns (lines: seq<seq<byte>>, tail: seq<byte>)
    ensures Lines(lines) && NEWLINE !in tail && s == Terminated(lines) + tail
    decreases |s|
  {
    var n := FirstNewline(s);
    if n == |s| {
      lines, tail := [], s;
      assert s[..n] == s;
    } else {
      var more;
      more, tail := StreamHasLines(s[n + 1..]);
      lines := [s[..n]] + more;
      assert lines[1..] == more;
      assert s == s[..n] + [NEWLINE] + s[n + 1..];
    }
  }

  // ---------------------------------------------------------------- writing

  /** A frame as it is written, or None when it is too long to be sent. */
  function Written(frame: seq<byte>): (r: Option<seq<byte>>) {
    if |frame| + 1 > MAX_WIRE_MESSAGE_BYTES then None else Some(frame + [NEWLINE])
  }

  function WrittenAll(frames: seq<seq<byte>>): (s: seq<byte>)
    requires forall f <- frames :: Written(f).Some?
  {
    if frames == [] then [] else Written(frames[0]).value + WrittenAll(frames[1..])
  }

  function AsFrames(frames: seq<seq<byte>>): (r: seq<Input>) {
    seq(|frames|, i requires 0 <= i < |frames| => Frame(frames[i]))
  }

  lemma {:induction false} WrittenIsTerminated(frames: seq<seq<byte>>)
    requires forall f <- frames :: Written(f).Some?
    ensures WrittenAll(frames) == Terminated(frames)
  {
    if frames != [] { WrittenIsTerminated(frames[1..]); }
  }

  lemma {:induction false} JudgeAccepts(frames: seq<seq<byte>>, limit: nat)
    requires forall f <- frames :: |f| <= limit && !Blank(f)
    ensures Judge(frames, [], limit) == AsFrames(frames)
  {
    if frames != [] {
      assert frames[0] in frames;
      JudgeAccepts(frames[1..], limit);
      assert AsFrames(frames) == [Frame(frames[0])] + AsFrames(frames[1..]);
    }
  }

  /** What is written is read: any frames that can be sent, without newlines and not blank, arrive
      unchanged and in order. */
  lemma WriteThenRead(frames: seq<seq<byte>>)
    requires forall f <- frames :: Written(f).Some? && NEWLINE !in f && !Blank(f)
    ensures Frames(WrittenAll(frames), MAX_WIRE_MESSAGE_BYTES) == AsFrames(frames)
  {
    WrittenIsTerminated(frames);
    FramesAreLines(frames, [], MAX_WIRE_MESSAGE_BYTES);
    assert Terminated(frames) + [] == Terminated(frames);
    JudgeAccepts(frames, MAX_WIRE_MESSAGE_BYTES);
  }
}
