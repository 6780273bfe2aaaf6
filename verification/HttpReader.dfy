/** Reading one HTTP message from a byte stream that arrives in arbitrary pieces, and writing
    one in arbitrary pieces. Bytes are characters 0 to 255. */
module HttpReader {
  import opened Basics

  const MAX_HEADER_BYTES := 64 * 1024
  const RECV_BYTES := 8192
  const BLANK_LINE := ['\r', '\n', '\r', '\n']

  /** What reading ends in. Waiting for more bytes ends when the connection is closed, or
      breaks when recv fails. */
  datatype Outcome = Message(header: string, body: string) | TooLarge | Malformed | Closed | Broken

  /** What one recv comes back with. */
  datatype Received = Piece(bytes: string) | Interruption | Failure

  /** A blank line, that is two line ends, starts at i. */
  predicate EndsAt(b: string, i: nat) {
    i + 4 <= |b| && b[i] == '\r' && b[i + 1] == '\n' && b[i + 2] == '\r' && b[i + 3] == '\n'
  }

  function HeaderEnd(b: string): Option<nat> {
    if |b| < 4 then None
    else if EndsAt(b, 0) then Some(0)
    else match HeaderEnd(b[1..]) case None => None case Some(h) => Some(h + 1)
  }

  lemma {:induction false} FirstBlankLine(b: string)
    ensures HeaderEnd(b).Some? ==> EndsAt(b, HeaderEnd(b).value)
    ensures HeaderEnd(b).Some? ==> forall i: nat :: i < HeaderEnd(b).value ==> !EndsAt(b, i)
    ensures HeaderEnd(b).None? ==> forall i: nat :: !EndsAt(b, i)
  {
    if |b| >= 4 && !EndsAt(b, 0) {
      var t := b[1..];
      FirstBlankLine(t);
      assert HeaderEnd(b) == match HeaderEnd(t) case None => None case Some(h) => Some(h + 1);
      hide HeaderEnd;
      forall i: nat | i > 0 ensures EndsAt(b, i) <==> EndsAt(t, i - 1) {}
    }
  }

  method FindHeaderEnd(b: string) returns (r: Option<nat>)
    ensures r == HeaderEnd(b)
  {
    FirstBlankLine(b);
    hide HeaderEnd;
    var i := 0;
    while i + 3 < |b|
      invariant 0 <= i
      invariant forall j: nat :: j < i ==> !EndsAt(b, j)
    {
      if b[i] == '\r' && b[i + 1] == '\n' && b[i + 2] == '\r' && b[i + 3] == '\n' {
        assert EndsAt(b, i);
        return Some(i);
      }
      i := i + 1;
    }
    return None;
  }

  /** A prefix shows the end of the header exactly when it contains it. */
  lemma HeaderEndOfPrefix(s: string, k: nat)
    requires k <= |s|
    ensures HeaderEnd(s[..k]) == match HeaderEnd(s) case None => None case Some(h) => if h + 4 <= k then Some(h) else None
  {
    FirstBlankLine(s);
    FirstBlankLine(s[..k]);
    hide HeaderEnd;
    forall i: nat ensures EndsAt(s[..k], i) <==> i + 4 <= k && EndsAt(s, i) {}
  }

  function Joined(chunks: seq<string>): string {
    if chunks == [] then "" else chunks[0] + Joined(chunks[1..])
  }

  /** One way in which recv can deliver a stream. */
  ghost predicate Splits(chunks: seq<string>, s: string) {
    Joined(chunks) == s && forall i :: 0 <= i < |chunks| ==> 0 < |chunks[i]| <= RECV_BYTES
  }

  /** The reader after the header: it waits for the announced bytes. The response reader
      takes what it has when the connection closes, the request reader gives up. */
  function ReadBody(b: string, h: nat, size: nat, takesShort: bool, rest: seq<string>): Outcome
    requires h + 4 <= |b|
    decreases |rest|
  {
    if |b| - h - 4 >= size then Message(b[..h], b[h + 4..h + 4 + size])
    else if rest == [] then if takesShort then Message(b[..h], b[h + 4..]) else Closed
    else ReadBody(b + rest[0], h, size, takesShort, rest[1..])
  }

  /** The reader before it has seen the header's end. bodySize is what the header announces,
      or nothing for a header that does not parse. */
  function Read(b: string, bodySize: string -> Option<nat>, takesShort: bool, rest: seq<string>): Outcome
    decreases |rest|
  {
    if rest == [] then Closed
    else
      var next := b + rest[0];
      HeaderFits(next);
      match HeaderEnd(next)
      case None => if |next| > MAX_HEADER_BYTES then TooLarge else Read(next, bodySize, takesShort, rest[1..])
      case Some(h) =>
        match bodySize(next[..h])
        case None => Malformed
        case Some(size) => ReadBody(next, h, size, takesShort, rest[1..])
  }

  lemma HeaderFits(b: string)
    ensures HeaderEnd(b).Some? ==> HeaderEnd(b).value + 4 <= |b|
  {
    FirstBlankLine(b);
  }

  /** The pieces that arrive before recv fails, if it does. */
  function Arrived(received: seq<Received>): seq<string> {
    if received == [] then []
    else match received[0]
      case Piece(bytes) => [bytes] + Arrived(received[1..])
      case Interruption => Arrived(received[1..])
      case Failure => []
  }

  predicate Fails(received: seq<Received>) {
    Failure in received
  }

  /** Pieces arrive as they are; interruptions are as if they had not been; nothing arrives
      after a failure. */
  lemma {:induction false} PiecesArrive(received: seq<Received>, pieces: seq<string>)
    requires |received| == |pieces| && forall i :: 0 <= i < |pieces| ==> received[i] == Piece(pieces[i])
    ensures Arrived(received) == pieces && !Fails(received)
  {
    if received != [] { PiecesArrive(received[1..], pieces[1..]); }
  }

  lemma {:induction false} InterruptionsAreNothing(x: seq<Received>, y: seq<Received>)
    ensures Arrived(x + ([Interruption] + y)) == Arrived(x + y)
    ensures Fails(x + ([Interruption] + y)) <==> Fails(x + y)
    decreases |x|
  {
    if x == [] {
      assert x + ([Interruption] + y) == [Interruption] + y && x + y == y && ([Interruption] + y)[1..] == y;
    } else {
      assert (x + ([Interruption] + y))[1..] == x[1..] + ([Interruption] + y) && (x + y)[1..] == x[1..] + y;
      InterruptionsAreNothing(x[1..], y);
    }
  }

  lemma {:induction false} NothingAfterFailure(x: seq<Received>, y: seq<Received>)
    requires Failure !in x
    ensures Arrived(x + ([Failure] + y)) == Arrived(x) && Fails(x + ([Failure] + y)) && !Fails(x)
    decreases |x|
  {
    if x == [] {
      assert x + ([Failure] + y) == [Failure] + y;
    } else {
      assert (x + ([Failure] + y))[1..] == x[1..] + ([Failure] + y);
      NothingAfterFailure(x[1..], y);
      assert (x + ([Failure] + y))[|x|] == Failure;
    }
  }

  /** The reader still waits after these pieces: without a close to go by it has nothing. */
  predicate Waits(b: string, bodySize: string -> Option<nat>, rest: seq<string>) {
    Read(b, bodySize, false, rest) == Closed
  }

  lemma ReceivedTurn(received: seq<Received>, i: nat)
    requires i < |received|
    ensures Fails(received[i..]) <==> received[i].Failure? || Fails(received[i + 1..])
    ensures Arrived(received[i..]) ==
      match received[i]
      case Piece(bytes) => [bytes] + Arrived(received[i + 1..])
      case Interruption => Arrived(received[i + 1..])
      case Failure => []
  {
    assert received[i..][0] == received[i] && received[i..][1..] == received[i + 1..];
    assert received[i..] == [received[i]] + received[i + 1..];
  }

  /** One more piece, before the header's end is known and after. */
  lemma ReadTurn(b: string, bodySize: string -> Option<nat>, takesShort: bool, piece: string, rest: seq<string>)
    ensures HeaderEnd(b + piece).Some? ==> HeaderEnd(b + piece).value + 4 <= |b + piece|
    ensures Read(b, bodySize, takesShort, [piece] + rest) ==
      match HeaderEnd(b + piece)
      case None => if |b + piece| > MAX_HEADER_BYTES then TooLarge else Read(b + piece, bodySize, takesShort, rest)
      case Some(h) =>
        match bodySize((b + piece)[..h])
        case None => Malformed
        case Some(size) => ReadBody(b + piece, h, size, takesShort, rest)
  {
    HeaderFits(b + piece);
    hide HeaderEnd;
    assert ([piece] + rest)[1..] == rest;
  }

  lemma ReadBodyTurn(b: string, h: nat, size: nat, takesShort: bool, piece: string, rest: seq<string>)
    requires h + 4 <= |b| && |b| - h - 4 < size
    ensures ReadBody(b, h, size, takesShort, [piece] + rest) == ReadBody(b + piece, h, size, takesShort, rest)
  {
    assert ([piece] + rest)[1..] == rest;
  }

  /** With all the announced bytes there the body is complete; without more pieces the wait ends. */
  lemma BodyIsThere(b: string, h: nat, size: nat, takesShort: bool, rest: seq<string>)
    requires h + 4 <= |b|
    ensures |b| - h - 4 >= size ==> ReadBody(b, h, size, takesShort, rest) == Message(b[..h], b[h + 4..h + 4 + size])
    ensures |b| - h - 4 < size && rest == [] ==>
      ReadBody(b, h, size, takesShort, rest) == if takesShort then Message(b[..h], b[h + 4..]) else Closed
  {}

  lemma NothingToRead(b: string, bodySize: string -> Option<nat>, takesShort: bool)
    ensures Read(b, bodySize, takesShort, []) == Closed
  {}

  /** The receive loop. A failing recv breaks it exactly when it still waits for bytes then;
      otherwise it reads the pieces as if nothing else had happened. */
  method ReadHttpMessage(received: seq<Received>, bodySize: string -> Option<nat>, takesShort: bool) returns (r: Outcome)
    ensures r == if Fails(received) && Waits("", bodySize, Arrived(received)) then Broken
                 else Read("", bodySize, takesShort, Arrived(received))
  {
    hide HeaderEnd, Arrived, Fails, Read, ReadBody;
    var buffer := "";
    var headerEnd: Option<nat> := None;
    var expected := 0;
    ghost var all := Arrived(received);
    assert received[0..] == received;
    for i := 0 to |received|
      invariant Fails(received) == Fails(received[i..])
      invariant headerEnd.None? ==> forall short: bool ::
        Read("", bodySize, short, all) == Read(buffer, bodySize, short, Arrived(received[i..]))
      invariant headerEnd.Some? ==> headerEnd.value + 4 <= |buffer| && |buffer| - headerEnd.value - 4 < expected
      invariant headerEnd.Some? ==> forall short: bool ::
        Read("", bodySize, short, all) == ReadBody(buffer, headerEnd.value, expected, short, Arrived(received[i..]))
    {
      ReceivedTurn(received, i);
      if received[i].Failure? {
        NothingToRead(buffer, bodySize, false);
        if headerEnd.Some? { BodyIsThere(buffer, headerEnd.value, expected, false, []); }
        return Broken;
      }
      if received[i].Interruption? { continue; }
      ghost var rest := Arrived(received[i + 1..]);
      forall short: bool { ReadTurn(buffer, bodySize, short, received[i].bytes, rest); }
      if headerEnd.Some? {
        forall short: bool { ReadBodyTurn(buffer, headerEnd.value, expected, short, received[i].bytes, rest); }
      }
      buffer := buffer + received[i].bytes;
      if headerEnd.None? {
        HeaderFits(buffer);
        headerEnd := FindHeaderEnd(buffer);
        if headerEnd.None? && |buffer| > MAX_HEADER_BYTES { return TooLarge; }
        if headerEnd.Some? {
          var size := bodySize(buffer[..headerEnd.value]);
          if size.None? { return Malformed; }
          expected := size.value;
          forall short: bool { BodyIsThere(buffer, headerEnd.value, expected, short, rest); }
          if |buffer| - headerEnd.value - 4 >= expected {
            return Message(buffer[..headerEnd.value], buffer[headerEnd.value + 4..headerEnd.value + 4 + expected]);
          }
        }
      } else if |buffer| - headerEnd.value - 4 >= expected {
        BodyIsThere(buffer, headerEnd.value, expected, takesShort, rest);
        BodyIsThere(buffer, headerEnd.value, expected, false, rest);
        return Message(buffer[..headerEnd.value], buffer[headerEnd.value + 4..headerEnd.value + 4 + expected]);
      }
    }
    NothingReceived(received[|received|..]);
    NothingToRead(buffer, bodySize, takesShort);
    if headerEnd.Some? { BodyIsThere(buffer, headerEnd.value, expected, takesShort, []); }
    if headerEnd.None? || !takesShort { return Closed; }
    return Message(buffer[..headerEnd.value], buffer[headerEnd.value + 4..]);
  }

  lemma NothingReceived(received: seq<Received>)
    requires received == []
    ensures Arrived(received) == [] && !Fails(received)
  {}

  /** What a whole stream with its header's end at h says. */
  function Finished(s: string, h: nat, bodySize: string -> Option<nat>, takesShort: bool): Outcome
    requires h + 4 <= |s|
  {
    match bodySize(s[..h])
    case None => Malformed
    case Some(size) =>
      if |s| - h - 4 >= size then Message(s[..h], s[h + 4..h + 4 + size])
      else if takesShort then Message(s[..h], s[h + 4..]) else Closed
  }

  function Whole(s: string, bodySize: string -> Option<nat>, takesShort: bool): Outcome {
    HeaderFits(s);
    match HeaderEnd(s)
    case None => if |s| > MAX_HEADER_BYTES then TooLarge else Closed
    case Some(h) => Finished(s, h, bodySize, takesShort)
  }

  lemma {:induction false} ReadBodyWhole(b: string, h: nat, size: nat, takesShort: bool, rest: seq<string>)
    requires h + 4 <= |b|
    ensures var s := b + Joined(rest);
      ReadBody(b, h, size, takesShort, rest)
        == if |s| - h - 4 >= size then Message(s[..h], s[h + 4..h + 4 + size])
           else if takesShort then Message(s[..h], s[h + 4..]) else Closed
    decreases |rest|
  {
    var s := b + Joined(rest);
    assert s[..h] == b[..h];
    if |b| - h - 4 >= size {
      assert s[h + 4..h + 4 + size] == b[h + 4..h + 4 + size];
    } else if rest == [] {
      assert s == b;
    } else {
      ReadBodyWhole(b + rest[0], h, size, takesShort, rest[1..]);
      assert b + rest[0] + Joined(rest[1..]) == s;
    }
  }

  lemma ReadFrom(b: string, h: nat, bodySize: string -> Option<nat>, takesShort: bool, rest: seq<string>)
    requires rest != [] && HeaderEnd(b + rest[0]) == Some(h) && h + 4 <= |b + rest[0]|
    ensures |b + Joined(rest)| >= h + 4
    ensures Read(b, bodySize, takesShort, rest) == Finished(b + Joined(rest), h, bodySize, takesShort)
  {
    var next, s := b + rest[0], b + Joined(rest);
    assert s == next + Joined(rest[1..]);
    assert s[..h] == next[..h];
    var size := bodySize(next[..h]);
    if size.Some? { ReadBodyWhole(next, h, size.value, takesShort, rest[1..]); }
  }

  /** With the header's end within 64 KiB, or without one, only the stream matters. */
  lemma {:induction false} ReadIsWhole(b: string, rest: seq<string>, bodySize: string -> Option<nat>, takesShort: bool)
    requires HeaderEnd(b).None? && |b| <= MAX_HEADER_BYTES
    requires var e := HeaderEnd(b + Joined(rest)); e.Some? ==> e.value + 4 <= MAX_HEADER_BYTES + 1
    ensures Read(b, bodySize, takesShort, rest) == Whole(b + Joined(rest), bodySize, takesShort)
    decreases |rest|
  {
    hide HeaderEnd, Finished, ReadBody;
    var s := b + Joined(rest);
    if rest == [] {
      assert s == b;
    } else {
      var next := b + rest[0];
      assert s == next + Joined(rest[1..]);
      assert s[..|next|] == next;
      HeaderEndOfPrefix(s, |next|);
      HeaderFits(s);
      if HeaderEnd(next).Some? {
        ReadFrom(b, HeaderEnd(next).value, bodySize, takesShort, rest);
      } else if |next| <= MAX_HEADER_BYTES {
        ReadIsWhole(next, rest[1..], bodySize, takesShort);
      }
    }
  }

  /** With the header's end out of reach of the last allowed recv, reading fails. */
  lemma {:induction false} ReadFails(b: string, rest: seq<string>, bodySize: string -> Option<nat>, takesShort: bool)
    requires |b| <= MAX_HEADER_BYTES && forall i :: 0 <= i < |rest| ==> |rest[i]| <= RECV_BYTES
    requires var e := HeaderEnd(b + Joined(rest)); e.Some? && e.value + 4 > MAX_HEADER_BYTES + RECV_BYTES
    ensures Read(b, bodySize, takesShort, rest) == TooLarge
    decreases |rest|
  {
    hide HeaderEnd, ReadBody;
    var s := b + Joined(rest);
    HeaderFits(s);
    assert |s| == |b| + |Joined(rest)|;
    if rest == [] {
      assert false;
    } else {
      var next := b + rest[0];
      assert s == next + Joined(rest[1..]);
      assert s[..|next|] == next;
      HeaderEndOfPrefix(s, |next|);
      if |next| <= MAX_HEADER_BYTES { ReadFails(next, rest[1..], bodySize, takesShort); }
    }
  }

  function Pieces(s: string, k: nat): seq<string>
    requires k > 0
  {
    if s == "" then [] else if |s| <= k then [s] else [s[..k]] + Pieces(s[k..], k)
  }

  lemma SplitsCons(c: string, rest: seq<string>, s: string)
    requires 0 < |c| <= RECV_BYTES && Splits(rest, s)
    ensures Splits([c] + rest, c + s)
  {
    assert ([c] + rest)[1..] == rest;
  }

  lemma {:induction false} PiecesSplit(s: string, k: nat)
    requires 0 < k <= RECV_BYTES
    ensures Splits(Pieces(s, k), s)
  {
    assert Splits([], "");
    if |s| > k {
      PiecesSplit(s[k..], k);
      hide Splits;
      SplitsCons(s[..k], Pieces(s[k..], k), s[k..]);
      assert s[..k] + s[k..] == s;
    } else if s != "" {
      hide Splits;
      SplitsCons(s, [], "");
      assert [s] + [] == [s] && s + "" == s;
    }
  }

  lemma NextPiece(s: string, at: nat, k: nat)
    requires 0 < k && at < |s|
    ensures var p := Pieces(s[at..], k);
      var end := if at + k <= |s| then at + k else |s|;
      && p != [] && p[1..] == Pieces(s[end..], k) && s[..at] + p[0] == s[..end]
  {
    var t := s[at..];
    if |t| > k {
      assert t[k..] == s[at + k..];
      assert s[..at] + t[..k] == s[..at + k];
    } else {
      assert s[..at] + t == s && s[..|s|] == s;
      assert s[|s|..] == "";
    }
  }

  /** One byte at a time: a header that ends later than 64 KiB is refused. */
  lemma {:induction false} ByteByByteFails(s: string, at: nat, bodySize: string -> Option<nat>, takesShort: bool)
    requires at <= MAX_HEADER_BYTES && at < |s|
    requires HeaderEnd(s).Some? && HeaderEnd(s).value + 4 > MAX_HEADER_BYTES + 1
    ensures Read(s[..at], bodySize, takesShort, Pieces(s[at..], 1)) == TooLarge
    decreases |s| - at
  {
    hide HeaderEnd, Pieces, ReadBody;
    NextPiece(s, at, 1);
    HeaderFits(s);
    HeaderEndOfPrefix(s, at + 1);
    if at < MAX_HEADER_BYTES { ByteByByteFails(s, at + 1, bodySize, takesShort); }
  }

  /** Full buffers: one read past the limit still counts. */
  lemma {:induction false} FullBuffersReach(s: string, m: nat, bodySize: string -> Option<nat>, takesShort: bool)
    requires m <= 8 && m * RECV_BYTES < |s|
    requires var e := HeaderEnd(s); e.Some? && MAX_HEADER_BYTES + 1 < e.value + 4 <= MAX_HEADER_BYTES + RECV_BYTES && e.value + 4 <= |s|
    ensures Read(s[..m * RECV_BYTES], bodySize, takesShort, Pieces(s[m * RECV_BYTES..], RECV_BYTES))
         == Finished(s, HeaderEnd(s).value, bodySize, takesShort)
    decreases 8 - m
  {
    hide HeaderEnd, Pieces, ReadBody, Finished, Joined;
    var at := m * RECV_BYTES;
    NextPiece(s, at, RECV_BYTES);
    HeaderFits(s);
    var p := Pieces(s[at..], RECV_BYTES);
    if m < 8 {
      HeaderEndOfPrefix(s, at + RECV_BYTES);
      FullBuffersReach(s, m + 1, bodySize, takesShort);
    } else {
      var end := if at + RECV_BYTES <= |s| then at + RECV_BYTES else |s|;
      HeaderEndOfPrefix(s, end);
      PiecesSplit(s[at..], RECV_BYTES);
      assert s[..at] + s[at..] == s;
      ReadFrom(s[..at], HeaderEnd(s).value, bodySize, takesShort, p);
    }
  }

  ghost predicate SplitIndependent(s: string, bodySize: string -> Option<nat>, takesShort: bool) {
    forall x, y :: Splits(x, s) && Splits(y, s) ==> Read("", bodySize, takesShort, x) == Read("", bodySize, takesShort, y)
  }

  lemma NothingRead()
    ensures HeaderEnd("").None?
    ensures forall s: string :: "" + s == s
  {}

  /** What a reader returns does not depend on how the stream is split exactly when the
      header's end is missing, within 64 KiB, or more than one full buffer beyond. */
  lemma SplitIndependence(s: string, bodySize: string -> Option<nat>, takesShort: bool)
    ensures SplitIndependent(s, bodySize, takesShort) <==>
      var e := HeaderEnd(s);
      e.None? || e.value + 4 <= 65_537 || e.value + 4 > 73_728
  {
    hide HeaderEnd, Read, Whole, Finished, Joined;
    var e := HeaderEnd(s);
    NothingRead();
    if e.None? || e.value + 4 <= MAX_HEADER_BYTES + 1 {
      forall x | Splits(x, s) ensures Read("", bodySize, takesShort, x) == Whole(s, bodySize, takesShort) {
        assert "" + Joined(x) == s;
        ReadIsWhole("", x, bodySize, takesShort);
      }
    } else if e.value + 4 > MAX_HEADER_BYTES + RECV_BYTES {
      forall x | Splits(x, s) ensures Read("", bodySize, takesShort, x) == TooLarge {
        assert "" + Joined(x) == s;
        ReadFails("", x, bodySize, takesShort);
      }
    } else {
      HeaderFits(s);
      FullAgainstSingle(s, bodySize, takesShort);
      PiecesSplit(s, 1);
      PiecesSplit(s, RECV_BYTES);
    }
  }

  /** A header that ends too late, or does not end, is refused in every split, once there is
      more than 64 KiB of it. */
  lemma LateHeaderIsRefused(s: string, chunks: seq<string>, bodySize: string -> Option<nat>, takesShort: bool)
    requires Splits(chunks, s)
    ensures HeaderEnd(s).Some? && HeaderEnd(s).value + 4 > 73_728 ==> Read("", bodySize, takesShort, chunks) == TooLarge
    ensures HeaderEnd(s).None? ==> Read("", bodySize, takesShort, chunks) == if |s| > 65_536 then TooLarge else Closed
  {
    NothingRead();
    assert "" + Joined(chunks) == s;
    hide HeaderEnd, Read, Finished, Joined;
    if HeaderEnd(s).None? {
      ReadIsWhole("", chunks, bodySize, takesShort);
    } else if HeaderEnd(s).value + 4 > 73_728 {
      ReadFails("", chunks, bodySize, takesShort);
    }
  }

  lemma FullAgainstSingle(s: string, bodySize: string -> Option<nat>, takesShort: bool)
    requires var e := HeaderEnd(s); e.Some? && MAX_HEADER_BYTES + 1 < e.value + 4 <= MAX_HEADER_BYTES + RECV_BYTES && e.value + 4 <= |s|
    ensures Read("", bodySize, takesShort, Pieces(s, 1)) != Read("", bodySize, takesShort, Pieces(s, RECV_BYTES))
  {
    hide HeaderEnd, Pieces, Read;
    ByteByByteFails(s, 0, bodySize, takesShort);
    FullBuffersReach(s, 0, bodySize, takesShort);
    assert s[..0] == "" && s[0..] == s;
  }

  lemma ReadSplit(s: string, chunks: seq<string>, bodySize: string -> Option<nat>, takesShort: bool)
    requires Splits(chunks, s)
    requires HeaderEnd(s).Some? && HeaderEnd(s).value + 4 <= MAX_HEADER_BYTES + 1
    ensures HeaderEnd(s).value + 4 <= |s|
    ensures Read("", bodySize, takesShort, chunks) == Finished(s, HeaderEnd(s).value, bodySize, takesShort)
  {
    NothingRead();
    HeaderFits(s);
    assert "" + Joined(chunks) == s;
    hide HeaderEnd, Read, Finished, Joined;
    ReadIsWhole("", chunks, bodySize, takesShort);
  }

  /** A message within the limits is read back from any split of its bytes. */
  lemma MessageIsRead(header: string, body: string, chunks: seq<string>, bodySize: string -> Option<nat>,
      takesShort: bool)
    requires Splits(chunks, header + BLANK_LINE + body)
    requires HeaderEnd(header + BLANK_LINE + body) == Some(|header|) && |header| + 4 <= MAX_HEADER_BYTES + 1
    requires bodySize(header) == Some(|body|)
    ensures Read("", bodySize, takesShort, chunks) == Message(header, body)
  {
    var s := header + BLANK_LINE + body;
    assert s[..|header|] == header && s[|header| + 4..|header| + 4 + |body|] == body;
    hide HeaderEnd, Read, Splits;
    ReadSplit(s, chunks, bodySize, takesShort);
  }

  /** A message cut short by a closed connection. */
  lemma CutMessageIsRead(header: string, part: string, chunks: seq<string>, bodySize: string -> Option<nat>, size: nat)
    requires Splits(chunks, header + BLANK_LINE + part)
    requires HeaderEnd(header + BLANK_LINE + part) == Some(|header|) && |header| + 4 <= MAX_HEADER_BYTES + 1
    requires bodySize(header) == Some(size) && |part| < size
    ensures Read("", bodySize, true, chunks) == Message(header, part)
    ensures Read("", bodySize, false, chunks) == Closed
  {
    var s := header + BLANK_LINE + part;
    assert s[..|header|] == header && s[|header| + 4..] == part;
    hide HeaderEnd, Read, Splits;
    ReadSplit(s, chunks, bodySize, true);
    ReadSplit(s, chunks, bodySize, false);
  }

  /** What one send call can do. */
  datatype Sent = Took(count: nat) | Interrupted | Failed

  /** The write loop: whatever sizes the kernel takes, what is delivered is a prefix, and the
      loop reports success exactly when everything was. */
  method SendAll(data: string, kernel: seq<Sent>) returns (ok: bool, delivered: string)
    ensures delivered <= data
    ensures ok ==> delivered == data
    ensures |kernel| >= |data| + multiset(kernel)[Interrupted] && Failed !in kernel && Took(0) !in kernel ==> ok
  {
    InterruptionsAreCounted(kernel);
    delivered := "";
    var sent, i := 0, 0;
    while sent < |data| && i < |kernel|
      invariant 0 <= i <= |kernel| && 0 <= sent <= |data| && delivered == data[..sent]
      invariant (forall k :: 0 <= k < i ==> kernel[k] != Failed && kernel[k] != Took(0))
      invariant i <= sent + Interruptions(kernel[..i])
    {
      assert kernel[..i + 1][..i] == kernel[..i];
      match kernel[i] {
        case Interrupted =>
        case Failed => return false, delivered;
        case Took(count) =>
          if count == 0 { return false, delivered; }
          var n := if count <= |data| - sent then count else |data| - sent;
          sent := sent + n;
          delivered := data[..sent];
      }
      i := i + 1;
    }
    InterruptionsGrow(kernel, i);
    ok := sent == |data|;
  }

  function Interruptions(kernel: seq<Sent>): nat {
    if kernel == [] then 0
    else Interruptions(kernel[..|kernel| - 1]) + if kernel[|kernel| - 1] == Interrupted then 1 else 0
  }

  lemma {:induction false} InterruptionsAreCounted(kernel: seq<Sent>)
    ensures Interruptions(kernel) == multiset(kernel)[Interrupted]
  {
    if kernel != [] {
      InterruptionsAreCounted(kernel[..|kernel| - 1]);
      assert kernel == kernel[..|kernel| - 1] + [kernel[|kernel| - 1]];
    }
  }

  lemma {:induction false} InterruptionsGrow(kernel: seq<Sent>, i: nat)
    requires i <= |kernel|
    ensures Interruptions(kernel[..i]) <= Interruptions(kernel)
    decreases |kernel|
  {
    if i < |kernel| {
      InterruptionsGrow(kernel[..|kernel| - 1], i);
      assert kernel[..|kernel| - 1][..i] == kernel[..i];
    } else {
      assert kernel[..i] == kernel;
    }
  }
}
