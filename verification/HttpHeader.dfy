/** What a header says, whoever printed it: the words of the request line, and the fields in
    any spelling, of any number, in any order. */
module HttpHeader {
  import opened Basics
  import opened Decimal
  import opened TextLines
  import opened HttpReader
  import opened HttpText

  // ----- Spelling -----

  predicate Blanks(s: string) {
    forall i :: 0 <= i < |s| ==> IsSpace(s[i])
  }

  /** No blank at either end. */
  predicate Bare(s: string) {
    s != "" ==> !IsSpace(s[0]) && !IsSpace(s[|s| - 1])
  }

  /** A name in any mixture of cases; `lower` is how it is spelled in small letters. */
  predicate Spells(name: string, lower: string) {
    && |name| == |lower|
    && forall i :: 0 <= i < |name| ==>
         if 'A' <= name[i] <= 'Z' then name[i] as int + 32 == lower[i] as int else name[i] == lower[i]
  }

  /** A field line: a name, a colon and a value, with blanks around each. */
  datatype Field = Field(before: string, name: string, after: string, lead: string, value: string, trail: string)

  function Text(f: Field): string {
    f.before + f.name + f.after + ":" + (f.lead + f.value + f.trail)
  }

  predicate WellSpelled(f: Field) {
    && Blanks(f.before) && Blanks(f.after) && Blanks(f.lead) && Blanks(f.trail)
    && Bare(f.name) && Bare(f.value) && ':' !in f.name
  }

  /** The line gives no field of this name, however spelled. */
  ghost predicate Lacks(line: string, key: string) {
    forall f :: WellSpelled(f) && Text(f) == line ==> !Spells(f.name, key)
  }

  lemma {:induction false} SkipBlanks(a: string, s: string)
    requires Blanks(a)
    ensures SkipSpace(a + s) == SkipSpace(s)
  {
    if a == "" {
      assert a + s == s;
    } else {
      assert (a + s)[1..] == a[1..] + s;
      SkipBlanks(a[1..], s);
    }
  }

  lemma {:induction false} TrimEndBlanks(s: string, b: string)
    requires Blanks(b)
    ensures TrimEnd(s + b) == TrimEnd(s)
  {
    if b == "" {
      assert s + b == s;
    } else {
      assert (s + b)[..|s + b| - 1] == s + b[..|b| - 1];
      TrimEndBlanks(s, b[..|b| - 1]);
    }
  }

  /** Trimming takes off the blanks around a bare text. */
  lemma TrimIs(a: string, t: string, b: string)
    requires Blanks(a) && Blanks(b) && Bare(t)
    ensures TrimSpace(a + t + b) == t
  {
    assert a + t + b == a + (t + b);
    SkipBlanks(a, t + b);
    if t == "" {
      assert t + b == b;
      AllBlank(b);
    } else {
      assert SkipSpace(t + b) == t + b;
      TrimEndBlanks(t, b);
    }
  }

  lemma {:induction false} AllBlank(b: string)
    requires Blanks(b)
    ensures SkipSpace(b) == ""
  {
    if b != "" { AllBlank(b[1..]); }
  }

  lemma LowerIs(name: string, lower: string)
    ensures Lower(name) == lower <==> Spells(name, lower)
  {
    if Spells(name, lower) {
      assert forall i :: 0 <= i < |name| ==> LowerChar(name[i]) == lower[i];
    }
  }

  // ----- Fields -----

  lemma {:induction false} FirstColon(s: string, rest: string)
    requires ':' !in s
    ensures ColonAt(s + ":" + rest) == Some(|s|)
  {
    ColonAfter(s, rest);
  }

  lemma {:induction false} ColonSplits(line: string)
    ensures match ColonAt(line)
      case None => ':' !in line
      case Some(k) => k < |line| && line[k] == ':' && ':' !in line[..k] && line == line[..k] + ":" + line[k + 1..]
  {
    if line == "" || line[0] == ':' {
    } else {
      ColonSplits(line[1..]);
      if ColonAt(line[1..]).Some? {
        var k := ColonAt(line[1..]).value;
        assert line[..k + 1] == [line[0]] + line[1..][..k] && line[k + 2..] == line[1..][k + 1..];
      }
    }
  }

  /** A text with the blanks at its ends taken off. */
  lemma {:induction false} Strip(s: string) returns (a: string, t: string, b: string)
    ensures s == a + t + b && Blanks(a) && Blanks(b) && Bare(t)
    decreases |s|
  {
    if s == "" {
      a, t, b := "", "", "";
    } else if IsSpace(s[0]) {
      a, t, b := Strip(s[1..]);
      assert s == ([s[0]] + a) + t + b;
      a := [s[0]] + a;
    } else if IsSpace(s[|s| - 1]) {
      a, t, b := Strip(s[..|s| - 1]);
      assert s == a + t + (b + [s[|s| - 1]]);
      b := b + [s[|s| - 1]];
    } else {
      a, t, b := "", s, "";
      assert s == a + t + b;
    }
  }

  lemma TextSplits(f: Field)
    requires WellSpelled(f)
    ensures Text(f) == (f.before + f.name + f.after) + ":" + (f.lead + f.value + f.trail)
    ensures ':' !in f.before + f.name + f.after
    ensures ColonAt(Text(f)) == Some(|f.before + f.name + f.after|)
    ensures TrimSpace(f.before + f.name + f.after) == f.name && TrimSpace(f.lead + f.value + f.trail) == f.value
  {
    forall i | 0 <= i < |f.before| ensures f.before[i] != ':' { assert IsSpace(f.before[i]); }
    forall i | 0 <= i < |f.after| ensures f.after[i] != ':' { assert IsSpace(f.after[i]); }
    hide IsSpace, TrimSpace;
    FirstColon(f.before + f.name + f.after, f.lead + f.value + f.trail);
    TrimIs(f.before, f.name, f.after);
    TrimIs(f.lead, f.value, f.trail);
  }

  /** What one line says for a key. */
  function LineValue(line: string, key: string): Option<string> {
    ColonFound(line);
    match ColonAt(line)
    case None => None
    case Some(k) => if Lower(TrimSpace(line[..k])) == key then Some(TrimSpace(line[k + 1..])) else None
  }

  lemma FieldSays(f: Field, key: string)
    requires WellSpelled(f)
    ensures LineValue(Text(f), key) == if Spells(f.name, key) then Some(f.value) else None
  {
    TextSplits(f);
    LowerIs(f.name, key);
    var head, tail := f.before + f.name + f.after, f.lead + f.value + f.trail;
    assert Text(f)[..|head|] == head && Text(f)[|head| + 1..] == tail;
    hide TrimSpace, Lower, ColonAt, Spells;
  }

  lemma LackingSaysNothing(line: string, key: string)
    requires Lacks(line, key)
    ensures LineValue(line, key).None?
  {
    ColonSplits(line);
    if ColonAt(line).Some? {
      var k := ColonAt(line).value;
      var a, n, b := Strip(line[..k]);
      var c, v, d := Strip(line[k + 1..]);
      var f := Field(a, n, b, c, v, d);
      assert forall i :: 0 <= i < |n| ==> n[i] == line[..k][|a| + i];
      assert ':' !in n;
      assert Text(f) == line;
      hide ColonAt, TrimSpace, Lower, Spells;
      FieldSays(f, key);
    }
  }

  lemma HeaderValueTurn(line: string, rest: seq<string>, key: string)
    requires line != ""
    ensures HeaderValue([line] + rest, key) == if HeaderValue(rest, key).Some? then HeaderValue(rest, key) else LineValue(line, key)
  {
    assert ([line] + rest)[1..] == rest;
    hide TrimSpace, Lower, ColonAt;
  }

  ghost predicate AllLack(lines: seq<string>, key: string) {
    forall i :: 0 <= i < |lines| ==> lines[i] != "" && Lacks(lines[i], key)
  }

  /** A field that no line gives has no value. */
  lemma {:induction false} NoFieldNoValue(lines: seq<string>, key: string)
    requires AllLack(lines, key)
    ensures HeaderValue(lines, key).None?
  {
    if lines == [] {
    } else {
      hide HeaderValue, Lacks, LineValue;
      assert lines == [lines[0]] + lines[1..];
      NoFieldNoValue(lines[1..], key);
      LackingSaysNothing(lines[0], key);
      HeaderValueTurn(lines[0], lines[1..], key);
    }
  }

  /** The last line that gives a field decides its value, however it is spelled. */
  lemma {:induction false} LastFieldCounts(before: seq<string>, f: Field, after: seq<string>, key: string)
    requires WellSpelled(f) && Spells(f.name, key) && AllLack(after, key)
    requires forall i :: 0 <= i < |before| ==> before[i] != ""
    ensures HeaderValue(before + ([Text(f)] + after), key) == Some(f.value)
    decreases |before|
  {
    hide HeaderValue, Lacks, LineValue, Text, Spells, WellSpelled;
    if before == [] {
      assert before + ([Text(f)] + after) == [Text(f)] + after;
      NoFieldNoValue(after, key);
      FieldSays(f, key);
      TextNotEmpty(f);
      HeaderValueTurn(Text(f), after, key);
    } else {
      LastFieldCounts(before[1..], f, after, key);
      assert before + ([Text(f)] + after) == [before[0]] + (before[1..] + ([Text(f)] + after));
      HeaderValueTurn(before[0], before[1..] + ([Text(f)] + after), key);
    }
  }

  lemma TextNotEmpty(f: Field)
    ensures Text(f) != ""
  {
    assert Text(f)[|f.before + f.name + f.after|] == ':';
  }

  // ----- The announced length -----

  /** A number as stoull takes it: digits, with a sign perhaps; a minus sign counts down from
      2 to the 64th. */
  ghost predicate Announces(text: string, n: nat) {
    exists sign: string, digits: string :: AnnouncedBy(text, n, sign, digits)
  }

  predicate AnnouncedBy(text: string, n: nat, sign: string, digits: string) {
    SignedDigits(text, sign, digits) && Value(digits) < 0x1_0000_0000_0000_0000 && n == Announced(sign, digits)
  }

  predicate SignedDigits(text: string, sign: string, digits: string) {
    text == sign + digits && (sign == "" || sign == "+" || sign == "-") && digits != "" && AllDigits(digits)
  }

  lemma {:induction false} FullRun(s: string)
    ensures DigitRun(s) == |s| <==> AllDigits(s)
  {
    if s != "" {
      FullRun(s[1..]);
      assert AllDigits(s) <==> IsDigit(s[0]) && AllDigits(s[1..]) by {
        assert forall i :: 1 <= i < |s| ==> s[i] == s[1..][i - 1];
      }
    }
  }

  function Announced(sign: string, digits: string): nat
    requires AllDigits(digits) && Value(digits) < 0x1_0000_0000_0000_0000
  {
    if sign == "-" && Value(digits) > 0 then 0x1_0000_0000_0000_0000 - Value(digits) else Value(digits)
  }

  /** What stoull makes of the digits after the sign. */
  function Signed(minus: bool, digits: string): Option<nat>
    requires AllDigits(digits)
  {
    if Value(digits) >= 0x1_0000_0000_0000_0000 then None
    else Some(Announced(if minus then "-" else "", digits))
  }

  lemma StoullUnsigned(digits: string)
    requires digits != "" && AllDigits(digits)
    ensures Stoull(digits) == Signed(false, digits)
  {
    assert IsDigit(digits[0]);
    assert SkipSpace(digits) == digits;
    FullRun(digits);
    assert digits[..|digits|] == digits;
    hide DigitRun, Value, SkipSpace, AllDigits;
  }

  lemma StoullSigned(sign: char, digits: string)
    requires (sign == '+' || sign == '-') && digits != "" && AllDigits(digits)
    ensures Stoull([sign] + digits) == Signed(sign == '-', digits)
  {
    var text := [sign] + digits;
    assert SkipSpace(text) == text && text[1..] == digits;
    FullRun(digits);
    assert digits[..|digits|] == digits;
    hide DigitRun, Value, SkipSpace, AllDigits;
  }

  lemma StoullOf(text: string, sign: string, digits: string)
    requires SignedDigits(text, sign, digits)
    ensures Stoull(text) == if Value(digits) < 0x1_0000_0000_0000_0000 then Some(Announced(sign, digits)) else None
  {
    hide Stoull, Value, AllDigits;
    if sign == "" {
      assert text == digits;
      StoullUnsigned(digits);
    } else {
      assert sign == [sign[0]];
      StoullSigned(sign[0], digits);
    }
  }

  lemma StoullForm(text: string) returns (sign: string, digits: string)
    requires Bare(text) && Stoull(text).Some?
    ensures SignedDigits(text, sign, digits)
  {
    assert SkipSpace(text) == text;
    var signed := text != "" && (text[0] == '-' || text[0] == '+');
    sign, digits := if signed then [text[0]] else "", if signed then text[1..] else text;
    FullRun(digits);
    hide DigitRun, Value, SkipSpace, AllDigits;
    assert text == sign + digits;
  }

  lemma StoullReads(text: string, n: nat)
    requires Bare(text)
    ensures Stoull(text) == Some(n) <==> Announces(text, n)
  {
    hide Stoull, Bare, Value, AllDigits;
    if Stoull(text) == Some(n) {
      var sign, digits := StoullForm(text);
      StoullOf(text, sign, digits);
      assert AnnouncedBy(text, n, sign, digits);
    }
    if Announces(text, n) {
      var sign: string, digits: string :| AnnouncedBy(text, n, sign, digits);
      StoullOf(text, sign, digits);
    }
  }

  /** What the fields announce as the body's length: nothing given means none; a number of at
      most 512 MiB means itself; and anything else is refused. */
  lemma LengthIs(lines: seq<string>)
    ensures ContentLength(lines) ==
      match HeaderValue(lines, "content-length")
      case None => Some(0)
      case Some(text) => match Stoull(text) case None => None case Some(n) => if n <= 536_870_912 then Some(n) else None
  {
    hide HeaderValue, Stoull;
  }

  // ----- The whole request -----

  /** A request as it is on the wire. */
  function RequestHeader(verb: string, path: string, version: string, fields: seq<string>): string {
    Join([verb + " " + path + " " + version] + fields)
  }

  ghost predicate WellFormed(verb: string, path: string, version: string, fields: seq<string>) {
    && verb != "" && path != "" && version != "" && NoSpace(verb) && NoSpace(path) && NoSpace(version)
    && forall i :: 0 <= i < |fields| ==>
         fields[i] != "" && OneLine(fields[i]) && fields[i][0] != '\r' && fields[i][|fields[i]| - 1] != '\r'
  }

  lemma WordsAreOneLine(verb: string, path: string, version: string)
    requires verb != "" && path != "" && version != "" && NoSpace(verb) && NoSpace(path) && NoSpace(version)
    ensures var line := verb + " " + path + " " + version;
      line != "" && OneLine(line) && line[0] != '\r' && line[|line| - 1] != '\r'
  {
    var line := verb + " " + path + " " + version;
    assert line[0] == verb[0] && !IsSpace(verb[0]);
    assert line[|line| - 1] == version[|version| - 1] && !IsSpace(version[|version| - 1]);
    forall i | 0 <= i < |line| ensures line[i] != '\n' {
      assert line[i] == ' ' || (exists j :: 0 <= j < |verb| && line[i] == verb[j])
        || (exists j :: 0 <= j < |path| && line[i] == path[j]) || (exists j :: 0 <= j < |version| && line[i] == version[j]);
    }
  }

  lemma WordsAreRead(verb: string, path: string, version: string)
    requires verb != "" && path != "" && version != "" && NoSpace(verb) && NoSpace(path) && NoSpace(version)
    ensures var line := verb + " " + path + " " + version;
      && NextWord(line).0 == verb && NextWord(NextWord(line).1).0 == path
      && NextWord(NextWord(NextWord(line).1).1).0 == version
  {
    assert !IsSpace(path[0]) && !IsSpace(version[0]);
    hide NextWord, NoSpace;
    assert verb + " " + path + " " + version == verb + (" " + (path + (" " + version)));
    TakeWord(verb, " " + (path + (" " + version)));
    SkipOne(path + (" " + version));
    TakeWord(path, " " + version);
    SkipOne(version);
    TakeWord(version, "");
    assert version + "" == version;
  }

  lemma RequestIsWords(verb: string, path: string, version: string, fields: seq<string>)
    requires WellFormed(verb, path, version, fields)
    ensures Printable([verb + " " + path + " " + version] + fields)
    ensures ParseRequest(RequestHeader(verb, path, version, fields)) == Some(Request(verb, path, fields))
  {
    var line := verb + " " + path + " " + version;
    WordsAreOneLine(verb, path, version);
    WordsAreRead(verb, path, version);
    hide Join, CleanLines, NextWord, OneLine, NoSpace;
    var ls := [line] + fields;
    assert Printable(ls);
    CleanLinesOfJoin(ls);
    assert ls[1..] == fields;
  }

  /** A request line of two words is refused, whatever follows it. */
  lemma TwoWordsAreRefused(verb: string, path: string, end: string, fields: seq<string>)
    requires verb != "" && path != "" && NoSpace(verb) && NoSpace(path) && Blanks(end)
    requires Printable([verb + (" " + (path + end))] + fields)
    ensures ParseRequest(Join([verb + (" " + (path + end))] + fields)).None?
  {
    var line := verb + (" " + (path + end));
    TakeWord(verb, " " + (path + end));
    SkipOne(path + end);
    TakeWord(path, end);
    AllBlank(end);
    CleanLinesOfJoin([line] + fields);
    hide Join, CleanLines, Printable, NoSpace, Blanks;
  }

  lemma PartsOfWhole(header: string, body: string, n: nat)
    ensures var whole := header + BLANK_LINE + body;
      && |whole| == |header| + 4 + |body| && whole[..|header|] == header
      && (n <= |body| ==> whole[|header| + 4..|header| + 4 + n] == body[..n])
  {}

  /** What the server makes of any request within the header's limit, in any split: it goes by
      the length that the fields announce. */
  lemma RequestGoesByLength(verb: string, path: string, version: string, fields: seq<string>, body: string, chunks: seq<string>)
    requires WellFormed(verb, path, version, fields)
    requires var header := RequestHeader(verb, path, version, fields);
      |header| + 4 <= 65_537 && Splits(chunks, header + BLANK_LINE + body)
    ensures var header := RequestHeader(verb, path, version, fields);
      Read("", RequestSize, false, chunks) ==
        match ContentLength(fields)
        case None => Malformed
        case Some(n) => if n <= |body| then Message(header, body[..n]) else Closed
  {
    var header := RequestHeader(verb, path, version, fields);
    var whole := header + BLANK_LINE + body;
    RequestIsWords(verb, path, version, fields);
    assert RequestSize(header) == ContentLength(fields);
    hide *;
    HeaderEndOfMessage([verb + " " + path + " " + version] + fields, body);
    ReadSplit(whole, chunks, RequestSize, false);
    PartsOfWhole(header, body, if ContentLength(fields).Some? then ContentLength(fields).value else 0);
  }

  /** A request without a Content-Length has no body: the server answers it from its header
      alone, whatever follows, in any split. */
  lemma NoLengthNoBody(verb: string, path: string, version: string, fields: seq<string>, rest: string, chunks: seq<string>)
    requires WellFormed(verb, path, version, fields) && AllLack(fields, "content-length")
    requires var header := RequestHeader(verb, path, version, fields);
      |header| + 4 <= 65_537 && Splits(chunks, header + "\r\n\r\n" + rest)
    ensures Read("", RequestSize, false, chunks) == Message(RequestHeader(verb, path, version, fields), "")
  {
    assert BLANK_LINE == "\r\n\r\n";
    hide WellFormed, Splits, Read, RequestHeader, ContentLength, AllLack, HeaderValue;
    NoFieldNoValue(fields, "content-length");
    LengthIs(fields);
    RequestGoesByLength(verb, path, version, fields, rest, chunks);
  }

  /** A request with a Content-Length, however spelled and wherever it stands, is read with
      exactly the bytes that the last one announces, waits for more if there are fewer, and
      is refused if that is no number or more than 512 MiB. */
  lemma LastLengthDecides(verb: string, path: string, version: string, before: seq<string>, f: Field, after: seq<string>,
                          body: string, chunks: seq<string>)
    requires WellSpelled(f) && Spells(f.name, "content-length") && AllLack(after, "content-length")
    requires WellFormed(verb, path, version, before + ([Text(f)] + after))
    requires var header := RequestHeader(verb, path, version, before + ([Text(f)] + after));
      |header| + 4 <= 65_537 && Splits(chunks, header + "\r\n\r\n" + body)
    ensures var header, r := RequestHeader(verb, path, version, before + ([Text(f)] + after)), Read("", RequestSize, false, chunks);
      && (forall n: nat :: Announces(f.value, n) && n <= 536_870_912 ==>
            r == if n <= |body| then Message(header, body[..n]) else Closed)
      && (forall n: nat :: Announces(f.value, n) && n > 536_870_912 ==> r == Malformed)
      && ((forall n: nat :: !Announces(f.value, n)) ==> r == Malformed)
  {
    var fields := before + ([Text(f)] + after);
    forall i | 0 <= i < |before| ensures before[i] != "" { assert fields[i] == before[i]; }
    assert BLANK_LINE == "\r\n\r\n";
    hide WellFormed, Splits, Read, RequestHeader, ContentLength, AllLack, HeaderValue, Announces, Stoull, Spells, Text;
    LastFieldCounts(before, f, after, "content-length");
    LengthIs(fields);
    RequestGoesByLength(verb, path, version, fields, body, chunks);
    forall n: nat ensures Stoull(f.value) == Some(n) <==> Announces(f.value, n) {
      StoullReads(f.value, n);
    }
  }

  /** A connection is kept unless the last Connection field says close, in any mixture of cases. */
  lemma KeptUnlessClosed(before: seq<string>, f: Field, after: seq<string>)
    requires WellSpelled(f) && Spells(f.name, "connection") && AllLack(after, "connection")
    requires forall i :: 0 <= i < |before| ==> before[i] != ""
    ensures WantsKeepAlive(before + ([Text(f)] + after)) <==> !Spells(f.value, "close")
    ensures WantsKeepAlive(after)
  {
    LastFieldCounts(before, f, after, "connection");
    NoFieldNoValue(after, "connection");
    assert "" + f.value + "" == f.value;
    TrimIs("", f.value, "");
    LowerIs(f.value, "close");
    hide HeaderValue, TrimSpace, Lower;
  }

  // ----- The whole response -----

  ghost predicate StatusFormed(version: string, digits: string, rest: string, fields: seq<string>) {
    && version != "" && NoSpace(version) && digits != "" && AllDigits(digits)
    && OneLine(rest) && (rest != "" ==> !IsDigit(rest[0]) && rest[|rest| - 1] != '\r')
    && forall i :: 0 <= i < |fields| ==>
         fields[i] != "" && OneLine(fields[i]) && fields[i][0] != '\r' && fields[i][|fields[i]| - 1] != '\r'
  }

  function StatusLine(version: string, digits: string, rest: string): string {
    version + (" " + (digits + rest))
  }

  lemma StatusIsOneLine(version: string, digits: string, rest: string)
    requires version != "" && NoSpace(version) && digits != "" && AllDigits(digits)
    requires OneLine(rest) && (rest != "" ==> rest[|rest| - 1] != '\r')
    ensures var line := StatusLine(version, digits, rest);
      line != "" && OneLine(line) && line[0] != '\r' && line[|line| - 1] != '\r'
  {
    var line := StatusLine(version, digits, rest);
    assert line[0] == version[0] && !IsSpace(version[0]);
    assert line[|line| - 1] == if rest != "" then rest[|rest| - 1] else digits[|digits| - 1];
    assert IsDigit(digits[|digits| - 1]);
    forall i | 0 <= i < |line| ensures line[i] != '\n' {
      assert line[i] == ' ' || (exists j :: 0 <= j < |version| && line[i] == version[j])
        || (exists j :: 0 <= j < |digits| && line[i] == digits[j]) || (exists j :: 0 <= j < |rest| && line[i] == rest[j]);
    }
  }

  lemma NumberIsTaken(digits: string, rest: string)
    requires digits != "" && AllDigits(digits) && (rest != "" ==> !IsDigit(rest[0]))
    ensures NextInt(" " + (digits + rest)) == if Value(digits) > 2_147_483_647 then (2_147_483_647, None) else (Value(digits), Some(rest))
  {
    assert IsDigit(digits[0]);
    DigitRunOf(digits, rest);
    var t := digits + rest;
    assert (" " + t)[1..] == t && SkipSpace(t) == t && SkipSpace(" " + t) == SkipSpace(t);
    assert t[0] == digits[0] && t[..|digits|] == digits && t[|digits|..] == rest;
    hide DigitRun, Value, SkipSpace, AllDigits;
  }

  /** The client takes a status above zero, clipped at 2147483647, and nothing else. A clipped
      status has no reason. */
  lemma StatusIsRead(version: string, digits: string, rest: string, fields: seq<string>)
    requires StatusFormed(version, digits, rest, fields)
    ensures Printable([StatusLine(version, digits, rest)] + fields)
    ensures ParseResponse(Join([StatusLine(version, digits, rest)] + fields)) ==
      if Value(digits) == 0 then None
      else if Value(digits) > 2_147_483_647 then Some(Response(2_147_483_647, "", fields))
      else Some(Response(Value(digits), TrimSpace(rest), fields))
  {
    StatusIsOneLine(version, digits, rest);
    NumberIsTaken(digits, rest);
    TakeWord(version, " " + (digits + rest));
    var ls := [StatusLine(version, digits, rest)] + fields;
    assert ls[1..] == fields;
    assert Printable(ls);
    CleanLinesOfJoin(ls);
    hide Join, CleanLines, NextWord, NextInt, Value, TrimSpace;
  }

  lemma FinishedIs(header: string, body: string, bodySize: string -> Option<nat>)
    ensures |header| + 4 <= |header + BLANK_LINE + body|
    ensures Finished(header + BLANK_LINE + body, |header|, bodySize, true) ==
      match bodySize(header)
      case None => Malformed
      case Some(n) => Message(header, if n <= |body| then body[..n] else body)
  {
    var whole := header + BLANK_LINE + body;
    assert whole[..|header|] == header && whole[|header| + 4..] == body;
    PartsOfWhole(header, body, if bodySize(header).Some? then bodySize(header).value else 0);
  }

  /** What the client makes of any response, in any split: as many bytes as the fields
      announce, or all there are before the connection closes. */
  lemma ResponseGoesByLength(version: string, digits: string, rest: string, fields: seq<string>, body: string, chunks: seq<string>)
    requires StatusFormed(version, digits, rest, fields)
    requires var header := Join([StatusLine(version, digits, rest)] + fields);
      |header| + 4 <= 65_537 && Splits(chunks, header + "\r\n\r\n" + body)
    ensures var header := Join([StatusLine(version, digits, rest)] + fields);
      Read("", ResponseSize, true, chunks) ==
        if Value(digits) == 0 then Malformed
        else match ContentLength(fields)
          case None => Malformed
          case Some(n) => Message(header, if n <= |body| then body[..n] else body)
  {
    assert BLANK_LINE == "\r\n\r\n";
    var ls := [StatusLine(version, digits, rest)] + fields;
    StatusIsRead(version, digits, rest, fields);
    var header := Join(ls);
    var whole := header + BLANK_LINE + body;
    assert ResponseSize(header) == if Value(digits) == 0 then None else ContentLength(fields);
    hide *;
    HeaderEndOfMessage(ls, body);
    ReadSplit(whole, chunks, ResponseSize, true);
    FinishedIs(header, body, ResponseSize);
  }

  // ----- What the senders put on the wire -----

  lemma JoinCons(line: string, rest: seq<string>)
    requires rest != []
    ensures Join([line] + rest) == line + "\r\n" + Join(rest)
  {
    assert ([line] + rest)[1..] == rest;
  }

  lemma JoinOne(line: string)
    ensures Join([line]) == line
  {}

  function Ending(size: nat, keepAlive: bool): string {
    "Content-Length: " + ToString(size) + "\r\n" + ("Connection: " + if keepAlive then "keep-alive" else "close")
  }

  lemma SharedOnTheWire(size: nat, keepAlive: bool)
    ensures Join(SharedFields(size, keepAlive)) == Ending(size, keepAlive)
  {
    hide Join, ToString;
    var last := "Connection" + ": " + Connection(keepAlive);
    JoinCons("Content-Length" + ": " + ToString(size), [last]);
    JoinOne(last);
    assert [last] + [] == [last];
    assert "Content-Length" + ": " == "Content-Length: ";
  }

  /** The client's request, byte by byte. */
  lemma RequestOnTheWire(path: string, host: string, port: int, size: nat, keepAlive: bool)
    ensures Join(RequestLines(path, host, port, size, keepAlive))
         == "POST " + path + " HTTP/1.1" + "\r\n" + ("Host: " + (host + ":" + ToString(port)) + "\r\n"
          + ("Content-Type: application/octet-stream" + "\r\n" + Ending(size, keepAlive)))
  {
    SharedOnTheWire(size, keepAlive);
    SharedNotEmpty(size, keepAlive);
    hide Join, ToString, SharedFields, Ending;
    var shared := SharedFields(size, keepAlive);
    var kind, to := "Content-Type" + ": " + "application/octet-stream", "Host" + ": " + (host + ":" + ToString(port));
    var line := "POST" + (" " + (path + (" " + ("HTTP/1.1" + ""))));
    JoinCons(kind, shared);
    JoinCons(to, [kind] + shared);
    JoinCons(line, [to] + ([kind] + shared));
    RequestSpelled(path);
    assert "Host" + ": " == "Host: ";
  }

  lemma RequestSpelled(path: string)
    ensures "POST" + (" " + (path + (" " + ("HTTP/1.1" + "")))) == "POST " + path + " HTTP/1.1"
    ensures "Content-Type" + ": " + "application/octet-stream" == "Content-Type: application/octet-stream"
    ensures "Content-Type" + ": " == "Content-Type: "
  {}

  lemma StatusSpelled(status: string, reason: string)
    ensures "HTTP/1.1" + (" " + (status + (" " + reason))) == "HTTP/1.1 " + status + " " + reason
  {}

  /** The server's response, byte by byte. */
  lemma ResponseOnTheWire(status: int, reason: string, kind: string, size: nat, keepAlive: bool)
    ensures Join(ResponseLines(status, reason, kind, size, keepAlive))
         == "HTTP/1.1 " + ToString(status) + " " + reason + "\r\n" + ("Content-Type: " + kind + "\r\n" + Ending(size, keepAlive))
  {
    SharedOnTheWire(size, keepAlive);
    SharedNotEmpty(size, keepAlive);
    hide Join, ToString, SharedFields, Ending;
    var shared := SharedFields(size, keepAlive);
    JoinCons("Content-Type" + ": " + kind, shared);
    JoinCons("HTTP/1.1" + (" " + (ToString(status) + (" " + reason))), ["Content-Type" + ": " + kind] + shared);
    StatusSpelled(ToString(status), reason);
    RequestSpelled("");
  }
}
