/** The line framer of the serial I/O device: received bytes are collected in a
    50 byte buffer that is searched for an end of line and shifted in place. */
module SerialFramer {

  newtype Byte = x: int | 0 <= x < 256

  const MAX_COMMAND_LEN: nat := 50

  predicate IsEol(b: Byte) {
    b == 10 || b == 13
  }

  predicate NoEol(s: seq<Byte>) {
    forall k :: 0 <= k < |s| ==> !IsEol(s[k])
  }

  /** Bytes still waiting for their end of line, and the commands emitted. */
  datatype Framing = Framing(pending: seq<Byte>, commands: seq<seq<Byte>>) {
    /** The same framing with commands that were emitted earlier in front. */
    function After(earlier: seq<seq<Byte>>): Framing {
      Framing(pending, earlier + commands)
    }

    lemma AfterAfter(a: seq<seq<Byte>>, b: seq<seq<Byte>>)
      ensures After(a).After(b) == After(b + a)
    {
      assert b + (a + commands) == (b + a) + commands;
    }
  }

  /** Byte-at-a-time reference machine: one byte. */
  function Feed(pending: seq<Byte>, b: Byte): Framing {
    var line := pending + [b];
    if IsEol(b) then Framing([], [line])
    else if |line| == MAX_COMMAND_LEN then Framing([], [])
    else Framing(line, [])
  }

  /** Byte-at-a-time reference machine: a whole stream. */
  function FeedAll(pending: seq<Byte>, stream: seq<Byte>): Framing
    decreases |stream|
  {
    if stream == [] then Framing(pending, [])
    else
      var first := Feed(pending, stream[0]);
      var rest := FeedAll(first.pending, stream[1..]);
      rest.After(first.commands)
  }

  class Receiver {
    const buf: array<Byte>
    var index: nat
    var i: nat

    ghost predicate Valid()
      reads this, buf
    {
      buf.Length == MAX_COMMAND_LEN && i == index < MAX_COMMAND_LEN && NoEol(buf[..index])
    }

    ghost function Pending(): seq<Byte>
      requires Valid()
      reads this, buf
    {
      buf[..index]
    }

    constructor ()
      ensures Valid() && fresh(buf) && Pending() == []
    {
      buf := new Byte[MAX_COMMAND_LEN](_ => 0);
      index, i := 0, 0;
    }

    method Reset()
      requires buf.Length == MAX_COMMAND_LEN
      modifies this`index, buf
      ensures index == 0 && forall k :: 0 <= k < MAX_COMMAND_LEN ==> buf[k] == 0
    {
      for k := 0 to MAX_COMMAND_LEN
        invariant forall i :: 0 <= i < k ==> buf[i] == 0
      {
        buf[k] := 0;
      }
      index := 0;
    }

    /** Moves the bytes after a command to the front of the buffer. */
    method Shift(len: nat)
      requires buf.Length == MAX_COMMAND_LEN && len < index <= MAX_COMMAND_LEN
      modifies this`index, buf
      ensures index == old(index) - len
      ensures buf[..index] == old(buf[len..index])
    {
      var j := 0;
      while j < index - len
        modifies buf
        invariant 0 <= j <= index - len
        invariant forall k :: 0 <= k < j ==> buf[k] == old(buf[len + k])
        invariant forall k :: j <= k < MAX_COMMAND_LEN ==> buf[k] == old(buf[k])
      {
        buf[j] := buf[len + j];
        j := j + 1;
      }
      index := j;
    }

    /** Emits the first bytes as a command and keeps the ones behind it. */
    method TakeCommand(len: nat) returns (command: seq<Byte>)
      requires buf.Length == MAX_COMMAND_LEN && len <= index <= MAX_COMMAND_LEN
      modifies this`index, buf
      ensures command == old(buf[..index][..len])
      ensures index == old(index) - len
      ensures buf[..index] == old(buf[..index][len..])
    {
      command := buf[..len];
      if index > len {
        Shift(len);
      } else {
        Reset();
      }
    }

    /** Appends what the driver holds, up to the free room. */
    method Receive(driver: seq<Byte>) returns (received: nat)
      requires Valid()
      modifies this`index, buf
      ensures received == if |driver| < MAX_COMMAND_LEN - old(index) then |driver| else MAX_COMMAND_LEN - old(index)
      ensures index == old(index) + received
      ensures buf[..index] == old(Pending()) + driver[..received]
    {
      received := if |driver| < MAX_COMMAND_LEN - index then |driver| else MAX_COMMAND_LEN - index;
      for k := 0 to received
        modifies buf
        invariant buf[..index + k] == old(Pending()) + driver[..k]
      {
        buf[index + k] := driver[k];
        assert buf[..index + k + 1] == buf[..index + k] + [driver[k]];
        assert driver[..k + 1] == driver[..k] + [driver[k]];
      }
      index := index + received;
    }

    /** The first i bytes were searched and hold no end of line. */
    ghost predicate Searching()
      reads this, buf
    {
      buf.Length == MAX_COMMAND_LEN && i <= index <= MAX_COMMAND_LEN && i < MAX_COMMAND_LEN && NoEol(buf[..i])
    }

    /** Looks at one byte: an end of line emits a command, a full buffer is erased. */
    method SearchByte() returns (found: seq<seq<Byte>>)
      requires Searching() && i < index
      modifies this, buf
      ensures Searching()
      ensures index < old(index) || (index == old(index) && i > old(i))
      ensures old(Scan(buf[..index], i)) == Scan(buf[..index], i).After(found)
    {
      ghost var data := buf[..index];
      assert data[..i] == buf[..i];
      found := [];
      if IsEol(buf[i]) {
        ScanEol(data, i);
        var command := TakeCommand(i + 1);
        found := [command];
        i := 0;
      } else {
        ScanOther(data, i);
        i := i + 1;
        if i == MAX_COMMAND_LEN {
          Reset();
          i := 0;
        }
        assert Scan(buf[..index], i).After([]) == Scan(buf[..index], i);
      }
    }

    /** Searches the unread part of the buffer and emits every command found. */
    method Parse() returns (commands: seq<seq<Byte>>)
      requires Searching()
      modifies this, buf
      ensures Valid()
      ensures old(Scan(buf[..index], i)) == Framing(Pending(), commands)
    {
      commands := [];
      while i < index
        invariant Searching()
        invariant old(Scan(buf[..index], i)) == Scan(buf[..index], i).After(commands)
        decreases index, index - i
      {
        var found := SearchByte();
        Scan(buf[..index], i).AfterAfter(found, commands);
        commands := commands + found;
      }
      assert buf[..index][index..] == [];
    }

    /** One pass of the receive task over the bytes waiting in the driver. */
    method Pass(driver: seq<Byte>) returns (received: nat, commands: seq<seq<Byte>>)
      requires Valid()
      modifies this, buf
      ensures Valid()
      ensures received == if |driver| < MAX_COMMAND_LEN - old(index) then |driver| else MAX_COMMAND_LEN - old(index)
      ensures FeedAll(old(Pending()), driver[..received]) == Framing(Pending(), commands)
    {
      received := Receive(driver);
      ghost var data := buf[..index];
      assert data[..i] == old(Pending()) && data[i..] == driver[..received];
      assert buf[..i] == data[..i];
      commands := Parse();
    }

    /** The receive task over any arrivals: bytes that found no room in a pass
        stay in the driver for the next one. */
    method Task(arrivals: seq<seq<Byte>>) returns (driver: seq<Byte>, commands: seq<seq<Byte>>)
      requires Valid()
      modifies this, buf
      ensures Valid()
      ensures FeedAll(old(Pending()), Flatten(arrivals)) == FeedAll(Pending(), driver).After(commands)
      ensures (forall n :: 0 <= n < |arrivals| ==> |arrivals[n]| <= 1) ==> driver == []
    {
      driver, commands := [], [];
      ghost var before := Pending();
      for n := 0 to |arrivals|
        invariant Valid()
        invariant FeedAll(before, Flatten(arrivals[..n])) == FeedAll(Pending(), driver).After(commands)
        invariant (forall k :: 0 <= k < n ==> |arrivals[k]| <= 1) ==> driver == []
      {
        FlattenPrefix(arrivals, n);
        ArrivalStep(before, Flatten(arrivals[..n]), arrivals[n], Pending(), driver, commands);
        driver := driver + arrivals[n];
        ghost var pending := Pending();
        var received, found := Pass(driver);
        PassStep(pending, driver, received, Pending(), found, commands);
        driver, commands := driver[received..], commands + found;
      }
      assert arrivals[..|arrivals|] == arrivals;
    }
  }

  lemma FlattenPrefix<T>(parts: seq<seq<T>>, n: nat)
    requires n < |parts|
    ensures Flatten(parts[..n + 1]) == Flatten(parts[..n]) + parts[n]
  {
    assert parts[..n + 1] == parts[..n] + [parts[n]];
    FlattenConcat(parts[..n], [parts[n]]);
    FlattenOne(parts[n]);
  }

  lemma ArrivalStep(before: seq<Byte>, stream: seq<Byte>, more: seq<Byte>,
                    pending: seq<Byte>, driver: seq<Byte>, commands: seq<seq<Byte>>)
    requires FeedAll(before, stream) == FeedAll(pending, driver).After(commands)
    ensures FeedAll(before, stream + more) == FeedAll(pending, driver + more).After(commands)
  {
    FeedAllSplit(before, stream, more);
    FeedAllSplit(pending, driver, more);
    var mid := FeedAll(pending, driver);
    FeedAll(mid.pending, more).AfterAfter(mid.commands, commands);
  }

  lemma PassStep(pending: seq<Byte>, driver: seq<Byte>, received: nat, after: seq<Byte>,
                 found: seq<seq<Byte>>, commands: seq<seq<Byte>>)
    requires received <= |driver|
    requires FeedAll(pending, driver[..received]) == Framing(after, found)
    ensures FeedAll(pending, driver).After(commands) == FeedAll(after, driver[received..]).After(commands + found)
  {
    assert driver == driver[..received] + driver[received..];
    FeedAllSplit(pending, driver[..received], driver[received..]);
    FeedAll(after, driver[received..]).AfterAfter(found, commands);
  }

  /** What is left to do on a buffer whose first i bytes hold no end of line. */
  function Scan(data: seq<Byte>, i: nat): Framing
    requires i <= |data|
  {
    FeedAll(data[..i], data[i..])
  }

  lemma ScanEol(data: seq<Byte>, i: nat)
    requires i < |data| && IsEol(data[i])
    ensures Scan(data, i) == Scan(data[i + 1..], 0).After([data[..i + 1]])
  {
    assert data[..i] + [data[i]] == data[..i + 1];
    assert data[i..][1..] == data[i + 1..];
    assert data[i + 1..][..0] == [] && data[i + 1..][0..] == data[i + 1..];
  }

  lemma ScanOther(data: seq<Byte>, i: nat)
    requires i < |data| <= MAX_COMMAND_LEN && !IsEol(data[i])
    ensures Scan(data, i) == if i + 1 == MAX_COMMAND_LEN then Framing([], []) else Scan(data, i + 1)
  {
    assert data[..i] + [data[i]] == data[..i + 1];
    assert data[i..][1..] == data[i + 1..];
    var rest := FeedAll(Feed(data[..i], data[i]).pending, data[i + 1..]);
    assert [] + rest.commands == rest.commands;
  }

  /** What a series of passes does to the pending bytes and the commands. */
  function FeedChunks(pending: seq<Byte>, chunks: seq<seq<Byte>>): Framing
    decreases |chunks|
  {
    if chunks == [] then Framing(pending, [])
    else
      var first := FeedAll(pending, chunks[0]);
      var rest := FeedChunks(first.pending, chunks[1..]);
      rest.After(first.commands)
  }

  function Flatten<T>(parts: seq<seq<T>>): seq<T> {
    if parts == [] then [] else parts[0] + Flatten(parts[1..])
  }

  lemma {:induction false} FlattenConcat<T>(a: seq<seq<T>>, b: seq<seq<T>>)
    ensures Flatten(a + b) == Flatten(a) + Flatten(b)
  {
    if a == [] {
      assert a + b == b;
    } else {
      assert (a + b)[1..] == a[1..] + b;
      FlattenConcat(a[1..], b);
    }
  }

  lemma {:induction false} FeedAllSplit(pending: seq<Byte>, a: seq<Byte>, b: seq<Byte>)
    ensures var first := FeedAll(pending, a);
            var second := FeedAll(first.pending, b);
            FeedAll(pending, a + b) == second.After(first.commands)
    decreases |a|
  {
    if a == [] {
      assert a + b == b;
    } else {
      assert (a + b)[1..] == a[1..] + b;
      FeedAllSplit(Feed(pending, a[0]).pending, a[1..], b);
    }
  }

  /** The way the stream is cut into receive chunks does not matter. */
  lemma {:induction false} ChunkingIrrelevant(pending: seq<Byte>, chunks: seq<seq<Byte>>)
    ensures FeedChunks(pending, chunks) == FeedAll(pending, Flatten(chunks))
    decreases |chunks|
  {
    if chunks != [] {
      FeedAllSplit(pending, chunks[0], Flatten(chunks[1..]));
      ChunkingIrrelevant(FeedAll(pending, chunks[0]).pending, chunks[1..]);
    }
  }

  predicate IsCommand(c: seq<Byte>) {
    0 < |c| <= MAX_COMMAND_LEN && IsEol(c[|c| - 1]) && NoEol(c[..|c| - 1])
  }

  /** No line feed and no carriage return among the bytes. */
  predicate Plain(s: seq<Byte>) {
    forall k :: 0 <= k < |s| ==> s[k] != 10 && s[k] != 13
  }

  lemma {:induction false} PlainWaits(pending: seq<Byte>, s: seq<Byte>)
    requires Plain(s) && |pending| + |s| < 50
    ensures FeedAll(pending, s) == Framing(pending + s, [])
    decreases |s|
  {
    if s == [] {
      assert pending + s == pending;
    } else {
      PlainWaits(pending + [s[0]], s[1..]);
      assert pending + [s[0]] + s[1..] == pending + s;
    }
  }

  lemma LastByte(pending: seq<Byte>, s: seq<Byte>, b: Byte)
    requires Plain(s) && |pending| + |s| < 50
    ensures FeedAll(pending, s + [b]) == Feed(pending + s, b)
  {
    PlainWaits(pending, s);
    FeedAllSplit(pending, s, [b]);
    assert [b][1..] == [];
  }

  /** A line feed or a carriage return ends the line and emits it whole, at once. */
  lemma LineEnds(pending: seq<Byte>, s: seq<Byte>, end: Byte)
    requires Plain(s) && |pending| + |s| < 50 && (end == 10 || end == 13)
    ensures FeedAll(pending, s + [end]) == Framing([], [pending + s + [end]])
  {
    LastByte(pending, s, end);
  }

  /** Fifty bytes without either are erased, and nothing is emitted. */
  lemma LineErased(pending: seq<Byte>, s: seq<Byte>)
    requires Plain(s) && s != [] && |pending| + |s| == 50
    ensures FeedAll(pending, s) == Framing([], [])
  {
    var n := |s| - 1;
    assert s == s[..n] + [s[n]];
    LastByte(pending, s[..n], s[n]);
  }

  /** Every emitted command is exactly one line, and what stays pending is a
      line without its end that still leaves room for one byte. */
  lemma {:induction false} CommandsAreLines(pending: seq<Byte>, stream: seq<Byte>)
    requires NoEol(pending) && |pending| < MAX_COMMAND_LEN
    ensures var r := FeedAll(pending, stream);
            NoEol(r.pending) && |r.pending| < MAX_COMMAND_LEN &&
            forall k :: 0 <= k < |r.commands| ==> IsCommand(r.commands[k])
    decreases |stream|
  {
    if stream != [] {
      var line := pending + [stream[0]];
      assert line[..|line| - 1] == pending;
      CommandsAreLines(Feed(pending, stream[0]).pending, stream[1..]);
    }
  }

  /** What becomes of the bytes, in their order: a line, or a buffer that was erased
      full without an end of line. */
  datatype Piece = Line(bytes: seq<Byte>) | Erased(bytes: seq<Byte>)

  function Pieces(pending: seq<Byte>, stream: seq<Byte>): seq<Piece>
    decreases |stream|
  {
    if stream == [] then []
    else
      var line := pending + [stream[0]];
      var rest := Pieces(Feed(pending, stream[0]).pending, stream[1..]);
      if IsEol(stream[0]) then [Line(line)] + rest
      else if |line| == MAX_COMMAND_LEN then [Erased(line)] + rest
      else rest
  }

  function Bytes(pieces: seq<Piece>): seq<Byte> {
    if pieces == [] then [] else pieces[0].bytes + Bytes(pieces[1..])
  }

  function Lines(pieces: seq<Piece>): seq<seq<Byte>> {
    if pieces == [] then []
    else (if pieces[0].Line? then [pieces[0].bytes] else []) + Lines(pieces[1..])
  }

  lemma FirstPiece(piece: Piece, rest: seq<Piece>)
    ensures Bytes([piece] + rest) == piece.bytes + Bytes(rest)
    ensures Lines([piece] + rest) == (if piece.Line? then [piece.bytes] else []) + Lines(rest)
  {
    assert ([piece] + rest)[1..] == rest;
  }

  lemma Regroup<T>(a: seq<T>, b: seq<T>, c: seq<T>)
    ensures (a + b) + c == a + (b + c)
  {
  }

  lemma FlattenOne<T>(part: seq<T>)
    ensures Flatten([part]) == part
  {
  }

  ghost predicate ErasedFull(pieces: seq<Piece>) {
    forall k :: 0 <= k < |pieces| && pieces[k].Erased? ==>
      |pieces[k].bytes| == MAX_COMMAND_LEN && NoEol(pieces[k].bytes)
  }

  /** The pieces and what stays pending are the stream itself, in order; the commands
      are the lines among the pieces. */
  lemma {:induction false} PiecesAreStream(pending: seq<Byte>, stream: seq<Byte>)
    requires |pending| < MAX_COMMAND_LEN
    ensures var r, pieces := FeedAll(pending, stream), Pieces(pending, stream);
            Bytes(pieces) + r.pending == pending + stream && Lines(pieces) == r.commands
    decreases |stream|
  {
    if stream == [] {
      assert pending + stream == pending;
    } else {
      var line, tail := pending + [stream[0]], stream[1..];
      var first := Feed(pending, stream[0]);
      var rest, after := Pieces(first.pending, tail), FeedAll(first.pending, tail);
      PiecesAreStream(first.pending, tail);
      assert line + tail == pending + stream;
      if first.pending == [] {
        FirstPiece(if IsEol(stream[0]) then Line(line) else Erased(line), rest);
        Regroup(line, Bytes(rest), after.pending);
        assert [] + tail == tail;
      }
    }
  }

  /** Each erased piece is a full buffer without an end of line. */
  lemma {:induction false} ErasedAreFull(pending: seq<Byte>, stream: seq<Byte>)
    requires |pending| < MAX_COMMAND_LEN && NoEol(pending)
    ensures ErasedFull(Pieces(pending, stream))
    decreases |stream|
  {
    if stream != [] {
      ErasedAreFull(Feed(pending, stream[0]).pending, stream[1..]);
    }
  }

  lemma {:induction false} LinesOfPieces(pieces: seq<Piece>)
    requires ErasedFull(pieces)
    ensures |Flatten(Lines(pieces))| <= |Bytes(pieces)|
    ensures if forall k :: 0 <= k < |pieces| ==> pieces[k].Line? then Flatten(Lines(pieces)) == Bytes(pieces)
            else |Flatten(Lines(pieces))| < |Bytes(pieces)|
  {
    if pieces != [] {
      var rest := pieces[1..];
      LinesOfPieces(rest);
      if pieces[0].Line? {
        FlattenConcat([pieces[0].bytes], Lines(rest));
        FlattenOne(pieces[0].bytes);
      } else {
        assert Lines(pieces) == Lines(rest);
      }
      assert forall k :: 0 <= k < |rest| ==> rest[k] == pieces[k + 1];
    }
  }

  /** Conservation: every byte of the stream is, in order, in a command, in an erased
      buffer or still pending; commands and pending bytes alone are the whole stream
      exactly when no buffer was erased. */
  lemma BytesConserved(pending: seq<Byte>, stream: seq<Byte>)
    requires |pending| < MAX_COMMAND_LEN && NoEol(pending)
    ensures var r, pieces := FeedAll(pending, stream), Pieces(pending, stream);
            && Bytes(pieces) + r.pending == pending + stream && Lines(pieces) == r.commands && ErasedFull(pieces)
            && (Flatten(r.commands) + r.pending == pending + stream <==>
                forall k :: 0 <= k < |pieces| ==> pieces[k].Line?)
  {
    var r, pieces := FeedAll(pending, stream), Pieces(pending, stream);
    PiecesAreStream(pending, stream);
    ErasedAreFull(pending, stream);
    LinesOfPieces(pieces);
    if !(forall k :: 0 <= k < |pieces| ==> pieces[k].Line?) {
      assert |Flatten(r.commands) + r.pending| < |pending + stream|;
    }
  }
}
