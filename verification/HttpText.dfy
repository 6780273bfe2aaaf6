/** The text of HTTP messages: what the senders print and what the readers understand
    (Content-Length framing, sections 6.2 and 6.3 of RFC 9112). */
module HttpText {
  import opened Basics
  import opened Decimal
  import opened TextLines
  import opened HttpReader

  const MAX_BODY_BYTES := 512 * 1024 * 1024

  function TrimEnd(s: string): string {
    if s != "" && IsSpace(s[|s| - 1]) then TrimEnd(s[..|s| - 1]) else s
  }

  function TrimSpace(s: string): string {
    TrimEnd(SkipSpace(s))
  }

  function LowerChar(c: char): char {
    if 'A' <= c <= 'Z' then 'a' + (c - 'A') else c
  }

  function Lower(s: string): string {
    seq(|s|, i requires 0 <= i < |s| => LowerChar(s[i]))
  }

  predicate NoSpace(s: string) {
    forall i :: 0 <= i < |s| ==> !IsSpace(s[i])
  }

  /** The length of the run of non-blanks at the start. */
  function WordRun(s: string): (k: nat)
    ensures k <= |s| && NoSpace(s[..k])
  {
    if s == "" || IsSpace(s[0]) then 0
    else
      var k := WordRun(s[1..]);
      assert s[..k + 1] == [s[0]] + s[1..][..k];
      k + 1
  }

  /** stream >> word: the next word and what follows it. */
  function NextWord(s: string): (r: (string, string))
    ensures NoSpace(r.0)
  {
    var t := SkipSpace(s);
    (t[..WordRun(t)], t[WordRun(t)..])
  }

  function DropCr(line: string): string {
    if line != "" && line[|line| - 1] == '\r' then line[..|line| - 1] else line
  }

  function CleanLines(header: string): seq<string> {
    var ls := Lines(header);
    seq(|ls|, i requires 0 <= i < |ls| => DropCr(ls[i]))
  }

  function ColonAt(line: string): Option<nat> {
    if line == "" then None
    else if line[0] == ':' then Some(0)
    else match ColonAt(line[1..]) case None => None case Some(k) => Some(k + 1)
  }

  lemma {:induction false} ColonFound(line: string)
    ensures ColonAt(line).Some? ==> ColonAt(line).value < |line|
  {
    if line != "" { ColonFound(line[1..]); }
  }

  /** The value of a header field: the last one given before an empty line counts. */
  function HeaderValue(lines: seq<string>, key: string): Option<string> {
    if lines == [] || lines[0] == "" then None
    else
      match HeaderValue(lines[1..], key)
      case Some(v) => Some(v)
      case None =>
        ColonFound(lines[0]);
        match ColonAt(lines[0])
        case None => None
        case Some(k) =>
          if Lower(TrimSpace(lines[0][..k])) == key then Some(TrimSpace(lines[0][k + 1..])) else None
  }

  const TWO_64 := 0x1_0000_0000_0000_0000

  /** std::stoull on the whole text: a minus sign wraps around. */
  function Stoull(s: string): Option<nat> {
    var t := SkipSpace(s);
    var signed := t != "" && (t[0] == '-' || t[0] == '+');
    var u := if signed then t[1..] else t;
    if u == "" || DigitRun(u) != |u| then None
    else
      assert u[..|u|] == u;
      var v := Value(u);
      if v >= TWO_64 then None
      else if signed && t[0] == '-' then Some((TWO_64 - v) % TWO_64) else Some(v)
  }

  function ContentLength(lines: seq<string>): Option<nat> {
    match HeaderValue(lines, "content-length")
    case None => Some(0)
    case Some(text) =>
      match Stoull(text) case None => None
      case Some(n) => if n > MAX_BODY_BYTES then None else Some(n)
  }

  datatype Request = Request(verb: string, path: string, fields: seq<string>)

  function ParseRequest(header: string): Option<Request> {
    var ls := CleanLines(header);
    if ls == [] then None
    else
      var verb := NextWord(ls[0]);
      var path := NextWord(verb.1);
      var version := NextWord(path.1);
      if verb.0 == "" || path.0 == "" || version.0 == "" then None
      else Some(Request(verb.0, path.0, ls[1..]))
  }

  function RequestSize(header: string): Option<nat> {
    match ParseRequest(header) case None => None case Some(r) => ContentLength(r.fields)
  }

  datatype Response = Response(status: int, reason: string, fields: seq<string>)

  /** stream >> int: no digits leave 0, a value out of range is clipped, and both stop the
      stream, so that nothing is read after them. */
  function NextInt(s: string): (int, Option<string>) {
    var t := SkipSpace(s);
    var signed := t != "" && (t[0] == '-' || t[0] == '+');
    var u := if signed then t[1..] else t;
    var k := DigitRun(u);
    var v: int := if signed && t[0] == '-' then -(Value(u[..k]) as int) else Value(u[..k]);
    if k == 0 then (0, None)
    else if v > INT_MAX then (INT_MAX, None)
    else if v < INT_MIN then (INT_MIN, None)
    else (v, Some(u[k..]))
  }

  function ParseResponse(header: string): Option<Response> {
    var ls := CleanLines(header);
    if ls == [] then None
    else
      var version := NextWord(ls[0]);
      var status := NextInt(version.1);
      var reason := match status.1 case None => "" case Some(rest) => TrimSpace(rest);
      if version.0 == "" || status.0 <= 0 then None
      else Some(Response(status.0, reason, ls[1..]))
  }

  function ResponseSize(header: string): Option<nat> {
    match ParseResponse(header) case None => None case Some(r) => ContentLength(r.fields)
  }

  // ---- the senders ----

  function Join(lines: seq<string>): string
    requires lines != []
  {
    if |lines| == 1 then lines[0] else lines[0] + "\r\n" + Join(lines[1..])
  }

  function Connection(keepAlive: bool): string { if keepAlive then "keep-alive" else "close" }

  /** The last fields that both senders print. */
  function SharedFields(size: nat, keepAlive: bool): seq<string> {
    ["Content-Length" + ": " + ToString(size)] + (["Connection" + ": " + Connection(keepAlive)] + [])
  }

  function RequestFields(host: string, port: int, size: nat, keepAlive: bool): seq<string> {
    ["Host" + ": " + (host + ":" + ToString(port))] +
    (["Content-Type" + ": " + "application/octet-stream"] + SharedFields(size, keepAlive))
  }

  function RequestLines(path: string, host: string, port: int, size: nat, keepAlive: bool): seq<string> {
    ["POST" + (" " + (path + (" " + ("HTTP/1.1" + ""))))] + RequestFields(host, port, size, keepAlive)
  }

  function ResponseFields(kind: string, size: nat, keepAlive: bool): seq<string> {
    ["Content-Type" + ": " + kind] + SharedFields(size, keepAlive)
  }

  function ResponseLines(status: int, reason: string, kind: string, size: nat, keepAlive: bool): seq<string> {
    ["HTTP/1.1" + (" " + (ToString(status) + (" " + reason)))] + ResponseFields(kind, size, keepAlive)
  }

  /** Lines that a header can be made of. */
  ghost predicate Printable(lines: seq<string>) {
    && lines != []
    && (forall i :: 0 <= i < |lines| ==> lines[i] != "" && OneLine(lines[i]) && lines[i][0] != '\r')
    && lines[|lines| - 1][|lines[|lines| - 1]| - 1] != '\r'
  }

  /** The first blank line of a printed message is the one after its header. */
  lemma {:induction false} HeaderEndsHere(lines: seq<string>, body: string, i: nat)
    requires Printable(lines) && i < |Join(lines)|
    ensures !EndsAt(Join(lines) + BLANK_LINE + body, i)
    decreases |lines|
  {
    var s, l := Join(lines) + BLANK_LINE + body, lines[0];
    if i < |l| {
      assert s[i + 1] == if i + 1 < |l| then l[i + 1] else '\r';
    } else {
      var rest := lines[1..];
      var t := Join(rest) + BLANK_LINE + body;
      assert s == l + "\r\n" + t;
      if i == |l| {
        assert s[i + 2] == t[0] == rest[0][0];
      } else if i >= |l| + 2 {
        HeaderEndsHere(rest, body, i - |l| - 2);
      }
    }
  }

  lemma HeaderEndOfMessage(lines: seq<string>, body: string)
    requires Printable(lines)
    ensures HeaderEnd(Join(lines) + BLANK_LINE + body) == Some(|Join(lines)|)
  {
    var s := Join(lines) + BLANK_LINE + body;
    FirstBlankLine(s);
    hide HeaderEnd, Join, Printable;
    assert EndsAt(s, |Join(lines)|);
    forall i: nat | i < |Join(lines)| ensures !EndsAt(s, i) {
      HeaderEndsHere(lines, body, i);
    }
  }

  lemma CleanLinesCons(l: string, rest: string)
    requires OneLine(l)
    ensures CleanLines(l + "\r\n" + rest) == [l] + CleanLines(rest)
  {
    assert l + "\r\n" + rest == (l + "\r") + "\n" + rest;
    LinesFromLine("", l + "\r", rest);
    assert "" + (l + "\r") == l + "\r";
    assert Lines(l + "\r\n" + rest) == [l + "\r"] + Lines(rest);
    assert DropCr(l + "\r") == l;
    hide Lines, DropCr;
  }

  lemma CleanLastLine(l: string)
    requires l != "" && OneLine(l) && l[|l| - 1] != '\r'
    ensures CleanLines(l) == [l]
  {
    LastLine("", l);
    assert "" + l == l;
  }

  /** Reading the printed lines gives them back. */
  lemma {:induction false} CleanLinesOfJoin(lines: seq<string>)
    requires Printable(lines)
    ensures CleanLines(Join(lines)) == lines
    decreases |lines|
  {
    hide CleanLines;
    if |lines| == 1 {
      CleanLastLine(lines[0]);
    } else {
      CleanLinesOfJoin(lines[1..]);
      CleanLinesCons(lines[0], Join(lines[1..]));
    }
  }

  lemma {:induction false} LastLine(line: string, s: string)
    requires OneLine(s)
    ensures LinesFrom(line, s) == [line + s]
    decreases |s|
  {
    if s == "" {
      assert line + s == line;
    } else {
      LastLine(line + [s[0]], s[1..]);
      assert line + [s[0]] + s[1..] == line + s;
    }
  }

  lemma {:induction false} TakeWord(w: string, rest: string)
    requires w != "" && NoSpace(w) && (rest == "" || IsSpace(rest[0]))
    ensures NextWord(w + rest) == (w, rest)
  {
    assert SkipSpace(w + rest) == w + rest;
    WordRunOf(w, rest);
  }

  lemma {:induction false} WordRunOf(w: string, rest: string)
    requires NoSpace(w) && (rest == "" || IsSpace(rest[0]))
    ensures WordRun(w + rest) == |w|
  {
    if w == "" {
      assert w + rest == rest;
    } else {
      assert (w + rest)[1..] == w[1..] + rest;
      WordRunOf(w[1..], rest);
    }
  }

  lemma SkipOne(s: string)
    requires s != "" && !IsSpace(s[0])
    ensures SkipSpace(" " + s) == s && NextWord(" " + s) == NextWord(s)
  {
    assert (" " + s)[1..] == s;
    assert SkipSpace(" " + s) == SkipSpace(s) == s;
  }

  lemma {:induction false} ColonAfter(name: string, rest: string)
    requires ':' !in name
    ensures ColonAt(name + ":" + rest) == Some(|name|)
  {
    if name == "" {
      assert name + ":" + rest == ":" + rest;
    } else {
      assert (name + ":" + rest)[1..] == name[1..] + ":" + rest;
      ColonAfter(name[1..], rest);
    }
  }

  lemma TrimAfterBlank(s: string)
    ensures TrimSpace(" " + s) == TrimSpace(s)
  {
    assert (" " + s)[1..] == s;
  }

  lemma FieldRead(name: string, value: string, rest: seq<string>, key: string)
    requires ':' !in name && TrimSpace(name) == name
    ensures HeaderValue([name + ": " + value] + rest, key) ==
      match HeaderValue(rest, key) case Some(v) => Some(v)
      case None => if Lower(name) == key then Some(TrimSpace(value)) else None
  {
    var line := name + ": " + value;
    assert ([line] + rest)[1..] == rest;
    assert line == name + ":" + (" " + value);
    ColonAfter(name, " " + value);
    assert line[..|name|] == name && line[|name| + 1..] == " " + value;
    TrimAfterBlank(value);
    hide TrimSpace, Lower, ColonAt;
  }

  lemma FieldNames()
    ensures TrimSpace("Host") == "Host" && TrimSpace("Content-Type") == "Content-Type"
    ensures TrimSpace("Content-Length") == "Content-Length" && TrimSpace("Connection") == "Connection"
    ensures Lower("Content-Length") == "content-length" && Lower("Connection") == "connection"
    ensures |Lower("Host")| == 4 && |Lower("Content-Type")| == 12
  {}

  lemma NumberField(n: nat)
    ensures TrimSpace(ToString(n)) == ToString(n)
    ensures Stoull(ToString(n)) == if n < TWO_64 then Some(n) else None
  {
    hide Digits, Value, DigitRun;
    PrintedNumber(n);
    ValueOfDigits(n);
    DigitRunAll(ToString(n));
    var d := ToString(n);
    assert d[..|d|] == d;
    assert SkipSpace(d) == d;
  }

  lemma ConnectionField(keepAlive: bool)
    ensures TrimSpace(Connection(keepAlive)) == Connection(keepAlive)
  {}

  lemma SharedFieldsRead(size: nat, keepAlive: bool)
    ensures HeaderValue(SharedFields(size, keepAlive), "content-length") == Some(ToString(size))
    ensures HeaderValue(SharedFields(size, keepAlive), "connection") == Some(Connection(keepAlive))
  {
    hide TrimSpace, Lower, ToString, Connection;
    FieldNames();
    NumberField(size);
    ConnectionField(keepAlive);
    var tail := ["Connection" + ": " + Connection(keepAlive)] + [];
    FieldRead("Connection", Connection(keepAlive), [], "content-length");
    FieldRead("Connection", Connection(keepAlive), [], "connection");
    FieldRead("Content-Length", ToString(size), tail, "content-length");
    FieldRead("Content-Length", ToString(size), tail, "connection");
    hide HeaderValue;
    assert "Connection" + ": " == "Connection: ";
  }

  lemma LengthRead(lines: seq<string>, size: nat)
    requires HeaderValue(lines, "content-length") == Some(ToString(size))
    ensures ContentLength(lines) == if size <= MAX_BODY_BYTES then Some(size) else None
  {
    hide HeaderValue, ToString;
    NumberField(size);
  }

  lemma PrintableCons(line: string, rest: seq<string>)
    requires line != "" && OneLine(line) && line[0] != '\r'
    requires rest != [] ==> Printable(rest)
    requires rest == [] ==> line[|line| - 1] != '\r'
    ensures Printable([line] + rest)
  {
    var s := [line] + rest;
    assert rest != [] ==> s[|s| - 1] == rest[|rest| - 1];
  }

  lemma SharedPrintable(size: nat, keepAlive: bool)
    ensures Printable(SharedFields(size, keepAlive))
  {
    hide ToString, Printable;
    PrintedNumber(size);
    var last := "Connection" + ": " + Connection(keepAlive);
    assert last[|last| - 1] == 'e' && last[0] == 'C' && OneLine(last);
    PrintableCons(last, []);
    var d := "Content-Length" + ": " + ToString(size);
    assert d[0] == 'C' && OneLine(d);
    PrintableCons(d, [last] + []);
  }

  lemma NumberOneLine(i: int)
    ensures OneLine(ToString(i))
  {
    DigitsAreDigits(if i < 0 then -i else i);
  }

  lemma RequestFieldsPrintable(host: string, port: int, size: nat, keepAlive: bool)
    requires OneLine(host)
    ensures Printable(RequestFields(host, port, size, keepAlive))
  {
    SharedPrintable(size, keepAlive);
    hide ToString, Printable, SharedFields;
    NumberOneLine(port);
    var shared := SharedFields(size, keepAlive);
    var kind := "Content-Type" + ": " + "application/octet-stream";
    assert kind[0] == 'C' && OneLine(kind);
    PrintableCons(kind, shared);
    var at := "Host" + ": " + (host + ":" + ToString(port));
    assert at[0] == 'H' && OneLine(at);
    PrintableCons(at, [kind] + shared);
  }

  lemma RequestFieldsRead(host: string, port: int, size: nat, keepAlive: bool)
    ensures var f := RequestFields(host, port, size, keepAlive);
      && HeaderValue(f, "content-length") == Some(ToString(size))
      && HeaderValue(f, "connection") == Some(Connection(keepAlive))
  {
    SharedFieldsRead(size, keepAlive);
    hide TrimSpace, Lower, ToString, Connection, SharedFields, HeaderValue;
    FieldNames();
    var shared := SharedFields(size, keepAlive);
    var tail := ["Content-Type" + ": " + "application/octet-stream"] + shared;
    FieldRead("Content-Type", "application/octet-stream", shared, "content-length");
    FieldRead("Content-Type", "application/octet-stream", shared, "connection");
    FieldRead("Host", host + ":" + ToString(port), tail, "content-length");
    FieldRead("Host", host + ":" + ToString(port), tail, "connection");
  }

  lemma RequestLineRead(path: string)
    requires path != "" && NoSpace(path)
    ensures var line := "POST" + (" " + (path + (" " + ("HTTP/1.1" + ""))));
      && NextWord(line).0 == "POST"
      && NextWord(NextWord(line).1).0 == path
      && NextWord(NextWord(NextWord(line).1).1).0 == "HTTP/1.1"
  {
    hide NextWord;
    var end := " " + ("HTTP/1.1" + "");
    TakeWord("POST", " " + (path + end));
    SkipOne(path + end);
    TakeWord(path, end);
    SkipOne("HTTP/1.1" + "");
    TakeWord("HTTP/1.1", "");
  }

  /** The server understands what the client prints. */
  lemma RequestIsParsed(path: string, host: string, port: int, size: nat, keepAlive: bool)
    requires path != "" && NoSpace(path) && OneLine(host)
    ensures var ls := RequestLines(path, host, port, size, keepAlive);
      && Printable(ls)
      && ParseRequest(Join(ls)) == Some(Request("POST", path, RequestFields(host, port, size, keepAlive)))
      && RequestSize(Join(ls)) == (if size <= MAX_BODY_BYTES then Some(size) else None)
  {
    hide Join, Printable, CleanLines, RequestFields, NextWord, HeaderValue, ContentLength, ToString;
    var ls, fields := RequestLines(path, host, port, size, keepAlive), RequestFields(host, port, size, keepAlive);
    var line := "POST" + (" " + (path + (" " + ("HTTP/1.1" + ""))));
    RequestFieldsPrintable(host, port, size, keepAlive);
    assert line[0] == 'P' && OneLine(line);
    PrintableCons(line, fields);
    CleanLinesOfJoin(ls);
    RequestLineRead(path);
    assert ls[1..] == fields;
    RequestFieldsRead(host, port, size, keepAlive);
    LengthRead(fields, size);
  }

  /** A path survives exactly when it is one word. */
  lemma PathSurvives(path: string, host: string, port: int, size: nat, keepAlive: bool)
    requires OneLine(host)
    ensures var r := ParseRequest(Join(RequestLines(path, host, port, size, keepAlive)));
      (r.Some? && r.value.path == path) <==> path != "" && NoSpace(path)
  {
    if path != "" && NoSpace(path) {
      RequestIsParsed(path, host, port, size, keepAlive);
    }
    hide Join, CleanLines, RequestLines;
  }

  /** However the request is split on its way, the server gets its path and its body. */
  lemma RequestRoundTrip(path: string, host: string, port: int, body: string, keepAlive: bool, chunks: seq<string>)
    requires path != "" && NoSpace(path) && OneLine(host) && |body| <= MAX_BODY_BYTES
    requires var header := Join(RequestLines(path, host, port, |body|, keepAlive));
      |header| + 4 <= MAX_HEADER_BYTES + 1 && Splits(chunks, header + BLANK_LINE + body)
    ensures var header := Join(RequestLines(path, host, port, |body|, keepAlive));
      && Read("", RequestSize, false, chunks) == Message(header, body)
      && ParseRequest(header) == Some(Request("POST", path, RequestFields(host, port, |body|, keepAlive)))
  {
    hide Join, Printable, RequestFields, ParseRequest, RequestSize, Read, HeaderEnd, Splits;
    RequestIsParsed(path, host, port, |body|, keepAlive);
    HeaderEndOfMessage(RequestLines(path, host, port, |body|, keepAlive), body);
    MessageIsRead(Join(RequestLines(path, host, port, |body|, keepAlive)), body, chunks, RequestSize, false);
  }

  lemma {:induction false} DigitRunOf(d: string, rest: string)
    requires AllDigits(d) && (rest == "" || !IsDigit(rest[0]))
    ensures DigitRun(d + rest) == |d|
  {
    if d == "" {
      assert d + rest == rest;
    } else {
      assert (d + rest)[1..] == d[1..] + rest;
      DigitRunOf(d[1..], rest);
    }
  }

  lemma StatusRead(status: nat, rest: string)
    requires status <= INT_MAX && (rest == "" || !IsDigit(rest[0]))
    ensures NextInt(" " + (ToString(status) + rest)) == (status, Some(rest))
  {
    hide Digits, Value, DigitRun;
    var d := ToString(status);
    PrintedNumber(status);
    ValueOfDigits(status);
    DigitRunOf(d, rest);
    assert (" " + (d + rest))[1..] == d + rest;
    assert SkipSpace(" " + (d + rest)) == SkipSpace(d + rest) == d + rest;
    assert (d + rest)[..|d|] == d && (d + rest)[|d|..] == rest;
  }

  lemma ResponseFieldsGood(kind: string, size: nat, keepAlive: bool)
    requires OneLine(kind)
    ensures var f := ResponseFields(kind, size, keepAlive);
      && f != [] && Printable(f)
      && HeaderValue(f, "content-length") == Some(ToString(size))
      && HeaderValue(f, "connection") == Some(Connection(keepAlive))
  {
    SharedPrintable(size, keepAlive);
    SharedFieldsRead(size, keepAlive);
    hide TrimSpace, Lower, ToString, Connection, SharedFields, HeaderValue, Printable;
    FieldNames();
    var shared, line := SharedFields(size, keepAlive), "Content-Type" + ": " + kind;
    assert line[0] == 'C' && OneLine(line);
    assert shared != [] by { SharedNotEmpty(size, keepAlive); }
    PrintableCons(line, shared);
    FieldRead("Content-Type", kind, shared, "content-length");
    FieldRead("Content-Type", kind, shared, "connection");
  }

  lemma SharedNotEmpty(size: nat, keepAlive: bool)
    ensures SharedFields(size, keepAlive) != []
  {}

  /** The client understands what the server prints; the reason comes back trimmed. */
  lemma ResponseIsParsed(status: nat, reason: string, kind: string, size: nat, keepAlive: bool)
    requires 0 < status <= INT_MAX && OneLine(reason) && OneLine(kind)
    ensures var ls := ResponseLines(status, reason, kind, size, keepAlive);
      && Printable(ls)
      && ParseResponse(Join(ls)) == Some(Response(status, TrimSpace(reason), ResponseFields(kind, size, keepAlive)))
      && ResponseSize(Join(ls)) == (if size <= MAX_BODY_BYTES then Some(size) else None)
  {
    hide Join, Printable, CleanLines, ResponseFields, NextWord, NextInt, HeaderValue, ContentLength, ToString, TrimSpace;
    var ls, fields := ResponseLines(status, reason, kind, size, keepAlive), ResponseFields(kind, size, keepAlive);
    var afterVersion := " " + (ToString(status) + (" " + reason));
    var line := "HTTP/1.1" + afterVersion;
    ResponseFieldsGood(kind, size, keepAlive);
    NumberOneLine(status);
    assert line[0] == 'H' && OneLine(line);
    PrintableCons(line, fields);
    CleanLinesOfJoin(ls);
    TakeWord("HTTP/1.1", afterVersion);
    StatusRead(status, " " + reason);
    TrimAfterBlank(reason);
    assert ls[1..] == fields;
    LengthRead(fields, size);
  }

  /** However the response is split on its way, the client gets its status and its body. */
  lemma ResponseRoundTrip(status: nat, reason: string, kind: string, body: string, keepAlive: bool, chunks: seq<string>)
    requires 0 < status <= INT_MAX && OneLine(reason) && OneLine(kind) && |body| <= MAX_BODY_BYTES
    requires var header := Join(ResponseLines(status, reason, kind, |body|, keepAlive));
      |header| + 4 <= MAX_HEADER_BYTES + 1 && Splits(chunks, header + BLANK_LINE + body)
    ensures var header := Join(ResponseLines(status, reason, kind, |body|, keepAlive));
      && Read("", ResponseSize, true, chunks) == Message(header, body)
      && ParseResponse(header) == Some(Response(status, TrimSpace(reason), ResponseFields(kind, |body|, keepAlive)))
  {
    hide Join, Printable, ResponseFields, ParseResponse, ResponseSize, Read, HeaderEnd, Splits;
    ResponseIsParsed(status, reason, kind, |body|, keepAlive);
    HeaderEndOfMessage(ResponseLines(status, reason, kind, |body|, keepAlive), body);
    MessageIsRead(Join(ResponseLines(status, reason, kind, |body|, keepAlive)), body, chunks, ResponseSize, true);
  }

  /** A response cut short by a closed connection is taken as whole, without an error; a
      request cut short is refused. */
  lemma CutResponseIsAccepted(status: nat, reason: string, kind: string, size: nat, part: string, chunks: seq<string>)
    requires 0 < status <= INT_MAX && OneLine(reason) && OneLine(kind) && |part| < size <= MAX_BODY_BYTES
    requires var header := Join(ResponseLines(status, reason, kind, size, true));
      |header| + 4 <= MAX_HEADER_BYTES + 1 && Splits(chunks, header + BLANK_LINE + part)
    ensures Read("", ResponseSize, true, chunks) == Message(Join(ResponseLines(status, reason, kind, size, true)), part)
    ensures Read("", ResponseSize, false, chunks) == Closed
  {
    hide Join, Printable, ResponseFields, ParseResponse, ResponseSize, Read, HeaderEnd, Splits;
    var ls := ResponseLines(status, reason, kind, size, true);
    ResponseIsParsed(status, reason, kind, size, true);
    HeaderEndOfMessage(ls, part);
    CutMessageIsRead(Join(ls), part, chunks, ResponseSize, size);
  }

  predicate WantsKeepAlive(fields: seq<string>) {
    match HeaderValue(fields, "connection") case None => true case Some(v) => Lower(TrimSpace(v)) != "close"
  }

  /** The server keeps a connection exactly when the client asked it to, and the client drops
      it exactly when the server said so. */
  lemma KeepAliveAgreed(host: string, port: int, kind: string, size: nat, keepAlive: bool)
    requires OneLine(kind)
    ensures WantsKeepAlive(RequestFields(host, port, size, keepAlive)) == keepAlive
    ensures WantsKeepAlive(ResponseFields(kind, size, keepAlive)) == keepAlive
  {
    RequestFieldsRead(host, port, size, keepAlive);
    ResponseFieldsGood(kind, size, keepAlive);
    hide HeaderValue, RequestFields, ResponseFields;
    ConnectionField(keepAlive);
    hide TrimSpace;
    assert Lower("close") == "close" && |Lower("keep-alive")| == 10;
  }
}
