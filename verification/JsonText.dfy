/** Printing a string inside JSON quotes, finding where the quoted string ends again, and
    undoing the escapes. */
module JsonText {
  import opened Basics

  const HEX := "0123456789abcdef"

  function EscapeChar(c: char): string {
    if c == '"' then "\\\""
    else if c == '\\' then "\\\\"
    else if c == '\U{0008}' then "\\b"
    else if c == '\U{000C}' then "\\f"
    else if c == '\n' then "\\n"
    else if c == '\r' then "\\r"
    else if c == '\t' then "\\t"
    else if c < ' ' then "\\u00" + [HEX[c as int / 16], HEX[c as int % 16]]
    else [c]
  }

  function Escape(s: string): string {
    if s == "" then "" else EscapeChar(s[0]) + Escape(s[1..])
  }

  lemma {:induction false} EscapeSnoc(s: string, c: char)
    ensures Escape(s + [c]) == Escape(s) + EscapeChar(c)
  {
    if s == "" {
      assert [c][1..] == "" && EscapeChar(c) + "" == EscapeChar(c);
    } else {
      assert (s + [c])[1..] == s[1..] + [c];
      EscapeSnoc(s[1..], c);
      assert EscapeChar(s[0]) + (Escape(s[1..]) + EscapeChar(c)) == EscapeChar(s[0]) + Escape(s[1..]) + EscapeChar(c);
    }
  }

  method JsonEscape(value: string) returns (out: string)
    ensures out == Escape(value)
  {
    hide EscapeChar;
    out := "";
    for i := 0 to |value|
      invariant out == Escape(value[..i])
    {
      EscapeSnoc(value[..i], value[i]);
      assert value[..i + 1] == value[..i] + [value[i]];
      out := out + EscapeChar(value[i]);
    }
    assert value[..|value|] == value;
  }

  /** What one escaped character stands for; an unknown escape stands for both characters. */
  function Unescaped(c: char): string {
    if c in "\"\\/" then [c]
    else if c == 'b' then "\U{0008}"
    else if c == 'f' then "\U{000C}"
    else if c == 'n' then "\n"
    else if c == 'r' then "\r"
    else if c == 't' then "\t"
    else ['\\', c]
  }

  function Unescape(s: string): string
    decreases |s|
  {
    if s == "" then ""
    else if s[0] != '\\' || |s| == 1 then [s[0]] + Unescape(s[1..])
    else Unescaped(s[1]) + Unescape(s[2..])
  }

  /** One turn of the unescaping loop, at position i. */
  lemma UnescapeTurn(value: string, i: nat)
    requires i < |value|
    ensures value[i] != '\\' || i + 1 == |value| ==>
              Unescape(value[i..]) == [value[i]] + Unescape(value[i + 1..])
    ensures value[i] == '\\' && i + 1 < |value| ==>
              Unescape(value[i..]) == Unescaped(value[i + 1]) + Unescape(value[i + 2..])
  {
    hide Unescaped;
    assert value[i..][1..] == value[i + 1..];
    if i + 1 < |value| {
      assert value[i..][2..] == value[i + 2..];
    }
  }

  method UnescapeJsonString(value: string) returns (out: string)
    ensures out == Unescape(value)
  {
    hide Unescaped, Unescape;
    out := "";
    var i := 0;
    assert value[0..] == value;
    while i < |value|
      invariant 0 <= i <= |value|
      invariant out + Unescape(value[i..]) == Unescape(value)
    {
      UnescapeTurn(value, i);
      if value[i] != '\\' || i + 1 >= |value| {
        assert out + ([value[i]] + Unescape(value[i + 1..])) == out + [value[i]] + Unescape(value[i + 1..]);
        out := out + [value[i]];
        i := i + 1;
      } else {
        var plain := Unescaped(value[i + 1]);
        assert out + (plain + Unescape(value[i + 2..])) == out + plain + Unescape(value[i + 2..]);
        out := out + plain;
        i := i + 2;
      }
    }
    UnescapeEmpty(value[i..]);
    assert out + "" == out;
  }

  lemma UnescapeEmpty(s: string)
    requires s == ""
    ensures Unescape(s) == ""
  {}

  /** The string-field pattern after the opening quote: escape pairs and plain characters
      up to a quote. The two alternatives start with different characters and neither
      starts with a quote, so there is one way to match. A dot matches no line end. */
  function ScanString(s: string): Option<(string, string)>
    decreases |s|
  {
    if s == "" then None
    else if s[0] == '"' then Some(("", s[1..]))
    else if s[0] == '\\' then
      if |s| == 1 || s[1] == '\n' || s[1] == '\r' then None
      else match ScanString(s[2..])
        case None => None
        case Some(r) => Some((s[..2] + r.0, r.1))
    else match ScanString(s[1..])
      case None => None
      case Some(r) => Some((s[..1] + r.0, r.1))
  }

  /** What the scan does with s, with e before the matched part. */
  function Prefixed(e: string, r: Option<(string, string)>): Option<(string, string)> {
    match r
    case None => None
    case Some(m) => Some((e + m.0, m.1))
  }

  lemma PrefixedTwice(d: string, e: string, r: Option<(string, string)>)
    ensures Prefixed(d, Prefixed(e, r)) == Prefixed(d + e, r)
  {
    if r.Some? { assert d + (e + r.value.0) == d + e + r.value.0; }
  }

  predicate NeedsNoEscape(h: string) {
    forall i :: 0 <= i < |h| ==> h[i] != '"' && h[i] != '\\'
  }

  lemma {:induction false} ScanPlain(h: string, s: string)
    requires NeedsNoEscape(h)
    ensures ScanString(h + s) == Prefixed(h, ScanString(s))
  {
    if h == "" {
      assert h + s == s;
      if ScanString(s).Some? { assert "" + ScanString(s).value.0 == ScanString(s).value.0; }
    } else {
      var t := h[1..] + s;
      ScanPlain(h[1..], s);
      assert (h + s)[1..] == t && (h + s)[..1] == h[..1];
      assert ScanString(h + s) == Prefixed(h[..1], ScanString(t));
      PrefixedTwice(h[..1], h[1..], ScanString(s));
      assert h[..1] + h[1..] == h;
    }
  }

  lemma ScanPair(c: char, s: string)
    requires c != '\n' && c != '\r'
    ensures ScanString(['\\', c] + s) == Prefixed(['\\', c], ScanString(s))
  {
    assert (['\\', c] + s)[2..] == s && (['\\', c] + s)[..2] == ['\\', c];
  }

  /** A control character with no short escape. */
  predicate Unrestorable(c: char) {
    c < ' ' && c !in "\U{0008}\U{000C}\n\r\t"
  }

  /** The three shapes an escaped character has. */
  lemma EscapeShape(c: char)
    ensures var e := EscapeChar(c);
            || (e == [c] && NeedsNoEscape(e) && !Unrestorable(c))
            || (|e| == 2 && e == ['\\', e[1]] && e[1] in "\"\\bfnrt" && Unescaped(e[1]) == [c] && !Unrestorable(c))
            || (|e| == 6 && e == ['\\', 'u'] + e[2..] && NeedsNoEscape(e[2..]) && Unrestorable(c))
  {
    var e := EscapeChar(c);
    if |e| == 6 {
      assert e[2..] == "00" + [HEX[c as int / 16], HEX[c as int % 16]];
      assert forall i :: 0 <= i < |HEX| ==> HEX[i] != '"' && HEX[i] != '\\';
    }
  }

  lemma ScanEscapedChar(c: char, s: string)
    ensures ScanString(EscapeChar(c) + s) == Prefixed(EscapeChar(c), ScanString(s))
  {
    hide EscapeChar, ScanString, Prefixed, Unescaped, Unrestorable;
    var e := EscapeChar(c);
    EscapeShape(c);
    if e == [c] {
      ScanPlain(e, s);
    } else if |e| == 2 {
      ScanPair(e[1], s);
    } else {
      ScanPlain(e[2..], s);
      ScanPair('u', e[2..] + s);
      PrefixedTwice(['\\', 'u'], e[2..], ScanString(s));
      assert e + s == ['\\', 'u'] + (e[2..] + s);
    }
  }

  /** The scan of a printed string stops at its own closing quote, whatever follows. */
  lemma {:induction false} ScanStopsAtClosingQuote(s: string, rest: string)
    ensures ScanString(Escape(s) + "\"" + rest) == Some((Escape(s), rest))
  {
    if s == "" {
      assert "" + "\"" + rest == "\"" + rest && ("\"" + rest)[1..] == rest;
    } else {
      ScanStopsAtClosingQuote(s[1..], rest);
      ScanEscapedChar(s[0], Escape(s[1..]) + "\"" + rest);
      assert Escape(s) + "\"" + rest == EscapeChar(s[0]) + (Escape(s[1..]) + "\"" + rest);
    }
  }

  function CountUnrestorable(s: string): nat {
    if s == "" then 0 else (if Unrestorable(s[0]) then 1 else 0) + CountUnrestorable(s[1..])
  }

  lemma {:induction false} UnescapePlain(h: string, s: string)
    requires NeedsNoEscape(h)
    ensures Unescape(h + s) == h + Unescape(s)
  {
    if h == "" {
      assert h + s == s;
    } else {
      UnescapePlain(h[1..], s);
      assert (h + s)[1..] == h[1..] + s;
      hide Unescape;
      assert [h[0]] + (h[1..] + Unescape(s)) == h + Unescape(s);
    }
  }

  lemma UnescapePair(c: char, s: string)
    ensures Unescape(['\\', c] + s) == Unescaped(c) + Unescape(s)
  {
    assert (['\\', c] + s)[2..] == s;
  }

  lemma UnescapeEscapedChar(c: char, s: string)
    ensures Unescape(EscapeChar(c) + s) == (if Unrestorable(c) then EscapeChar(c) else [c]) + Unescape(s)
  {
    var e := EscapeChar(c);
    EscapeShape(c);
    hide EscapeChar, Unescape, Unrestorable;
    if e == [c] {
      UnescapePlain(e, s);
    } else if |e| == 2 {
      hide Unescaped;
      UnescapePair(e[1], s);
    } else {
      UnescapePlain(e[2..], s);
      UnescapePair('u', e[2..] + s);
      assert e + s == ['\\', 'u'] + (e[2..] + s);
      assert e + Unescape(s) == ['\\', 'u'] + (e[2..] + Unescape(s));
    }
  }

  lemma EscapeUnfolds(s: string)
    requires s != ""
    ensures Escape(s) == EscapeChar(s[0]) + Escape(s[1..]) && s == [s[0]] + s[1..]
    ensures CountUnrestorable(s) == (if Unrestorable(s[0]) then 1 else 0) + CountUnrestorable(s[1..])
  {
    hide EscapeChar, Unrestorable;
  }

  lemma EscapedLength(c: char)
    ensures Unrestorable(c) ==> |EscapeChar(c)| == 6
  {
    EscapeShape(c);
  }

  lemma {:induction false} UnescapeEscape(s: string)
    ensures |Unescape(Escape(s))| == |s| + 5 * CountUnrestorable(s)
    ensures CountUnrestorable(s) == 0 ==> Unescape(Escape(s)) == s
  {
    if s == "" {
    } else {
      hide *;
      EscapeUnfolds(s);
      EscapedLength(s[0]);
      UnescapeEscape(s[1..]);
      UnescapeEscapedChar(s[0], Escape(s[1..]));
    }
  }

  lemma {:induction false} CountZero(s: string)
    ensures CountUnrestorable(s) == 0 <==> forall i :: 0 <= i < |s| ==> !Unrestorable(s[i])
  {
    if s == "" {
    } else {
      CountZero(s[1..]);
      assert forall i :: 1 <= i < |s| ==> s[i] == s[1..][i - 1];
    }
  }

  /** Printing then undoing gives the string back exactly when it has no control character
      beyond \b \f \n \r \t: those are printed as \u00XX and not undone. */
  lemma RestoredExactlyWithoutOtherControls(s: string)
    ensures Unescape(Escape(s)) == s <==> forall i :: 0 <= i < |s| ==> !Unrestorable(s[i])
  {
    UnescapeEscape(s);
    CountZero(s);
  }

  // ----- Against a standard reader (section 7 of RFC 8259) -----

  function HexDigit(c: char): Option<nat> {
    if '0' <= c <= '9' then Some((c - '0') as nat)
    else if 'a' <= c <= 'f' then Some((c - 'a') as nat + 10)
    else if 'A' <= c <= 'F' then Some((c - 'A') as nat + 10)
    else None
  }

  function HexNumber(s: string): Option<nat> {
    if s == "" then Some(0)
    else match (HexNumber(s[..|s| - 1]), HexDigit(s[|s| - 1]))
      case (Some(n), Some(d)) => Some(16 * n + d)
      case _ => None
  }

  /** The character of a two-character escape. */
  function ShortEscape(c: char): Option<char> {
    match c
    case '"' => Some('"') case '\\' => Some('\\') case '/' => Some('/')
    case 'b' => Some('\U{0008}') case 'f' => Some('\U{000C}')
    case 'n' => Some('\n') case 'r' => Some('\r') case 't' => Some('\t')
    case _ => None
  }

  /** What the text between two quotes stands for, if it is one; pairs of surrogates, which
      stand for one character together, are not read. */
  function Standard(s: string): Option<string>
    decreases |s|
  {
    if s == "" then Some("")
    else if s[0] == '"' || s[0] < ' ' then None
    else if s[0] != '\\' then Before([s[0]], Standard(s[1..]))
    else if |s| == 1 then None
    else if s[1] != 'u' then
      match ShortEscape(s[1]) case None => None case Some(c) => Before([c], Standard(s[2..]))
    else if |s| < 6 then None
    else match HexNumber(s[2..6])
      case None => None
      case Some(n) => if n < 0xD800 || 0xE000 <= n < 0x1_0000 then Before([n as char], Standard(s[6..])) else None
  }

  function Before(e: string, r: Option<string>): Option<string> {
    match r case None => None case Some(t) => Some(e + t)
  }

  lemma PrintedHex(n: nat)
    requires n < 32
    ensures HexNumber("00" + [HEX[n / 16], HEX[n % 16]]) == Some(n)
  {
    var s := "00" + [HEX[n / 16], HEX[n % 16]];
    assert s[..3] == "00" + [HEX[n / 16]] && s[..3][..2] == "00" && "00"[..1] == "0" && "0"[..0] == "";
    assert HexNumber("0") == Some(0) && HexNumber("00") == Some(0);
    HexOf(n / 16);
    HexOf(n % 16);
    hide HEX, HexDigit;
  }

  lemma HexOf(d: nat)
    requires d < 16
    ensures HexDigit(HEX[d]) == Some(d)
  {
    assert HEX[0] == '0' && HEX[1] == '1' && HEX[2] == '2' && HEX[3] == '3' && HEX[4] == '4' && HEX[5] == '5';
    assert HEX[6] == '6' && HEX[7] == '7' && HEX[8] == '8' && HEX[9] == '9' && HEX[10] == 'a' && HEX[11] == 'b';
    assert HEX[12] == 'c' && HEX[13] == 'd' && HEX[14] == 'e' && HEX[15] == 'f';
  }

  lemma StandardHex(n: nat, rest: string)
    requires n < 32
    ensures Standard("\\u00" + [HEX[n / 16], HEX[n % 16]] + rest) == Before([n as char], Standard(rest))
  {
    PrintedHex(n);
    hide HexNumber;
    var s := "\\u00" + [HEX[n / 16], HEX[n % 16]] + rest;
    assert s[0] == '\\' && s[1] == 'u';
    assert s[2..6] == "00" + [HEX[n / 16], HEX[n % 16]] && s[6..] == rest;
  }

  lemma StandardChar(c: char, rest: string)
    ensures Standard(EscapeChar(c) + rest) == Before([c], Standard(rest))
  {
    var e := EscapeChar(c);
    if |e| == 1 {
      assert (e + rest)[1..] == rest;
    } else if |e| == 2 {
      assert (e + rest)[0] == '\\' && (e + rest)[1] == e[1] && (e + rest)[2..] == rest;
    } else {
      StandardHex(c as int, rest);
    }
    hide Standard;
  }

  /** What is printed means itself to a standard reader, control characters and all. */
  lemma {:induction false} EscapeIsStandard(s: string)
    ensures Standard(Escape(s)) == Some(s)
  {
    if s == "" {
    } else {
      hide Standard, EscapeChar;
      EscapeIsStandard(s[1..]);
      StandardChar(s[0], Escape(s[1..]));
      assert [s[0]] + s[1..] == s;
    }
  }

  /** How many \u escapes a text has. */
  function UnicodeEscapes(s: string): nat
    decreases |s|
  {
    if s == "" then 0
    else if s[0] != '\\' || |s| == 1 then UnicodeEscapes(s[1..])
    else (if s[1] == 'u' then 1 else 0) + UnicodeEscapes(s[2..])
  }

  lemma {:induction false} UnicodeEscapesSkip(h: string, s: string)
    requires NeedsNoEscape(h)
    ensures UnicodeEscapes(h + s) == UnicodeEscapes(s)
  {
    if h == "" {
      assert h + s == s;
    } else {
      assert (h + s)[1..] == h[1..] + s;
      UnicodeEscapesSkip(h[1..], s);
    }
  }

  lemma {:induction false} HexNeedsNoEscape(s: string)
    requires HexNumber(s).Some?
    ensures NeedsNoEscape(s)
  {
    if s == "" {
    } else {
      HexNeedsNoEscape(s[..|s| - 1]);
      assert forall i :: 0 <= i < |s| - 1 ==> s[i] == s[..|s| - 1][i];
    }
  }

  lemma UnescapedIsShort(c: char)
    ensures ShortEscape(c).Some? ==> Unescaped(c) == [ShortEscape(c).value]
    ensures ShortEscape(c).None? ==> Unescaped(c) == ['\\', c]
  {}

  lemma UnicodePair(c: char, s: string)
    ensures UnicodeEscapes(['\\', c] + s) == (if c == 'u' then 1 else 0) + UnicodeEscapes(s)
  {
    assert (['\\', c] + s)[2..] == s;
  }

  lemma UnicodeKept(hex: string, rest: string)
    requires HexNumber(hex).Some?
    ensures Unescape(['\\', 'u'] + (hex + rest)) == (['\\', 'u'] + hex) + Unescape(rest)
    ensures UnicodeEscapes(['\\', 'u'] + (hex + rest)) == 1 + UnicodeEscapes(rest)
  {
    assert Unescaped('u') == ['\\', 'u'];
    hide *;
    HexNeedsNoEscape(hex);
    UnescapePair('u', hex + rest);
    UnicodePair('u', hex + rest);
    UnescapePlain(hex, rest);
    UnicodeEscapesSkip(hex, rest);
    Regroup(['\\', 'u'], hex, Unescape(rest));
  }

  lemma Regroup(a: string, b: string, c: string)
    ensures a + (b + c) == (a + b) + c
  {}

  lemma SplitUnicode(s: string)
    requires |s| >= 6 && s[0] == '\\' && s[1] == 'u'
    ensures s == ['\\', 'u'] + (s[2..6] + s[6..])
  {}

  lemma {:induction false} UnescapeAgainst(s: string)
    requires Standard(s).Some?
    ensures |Unescape(s)| == |Standard(s).value| + 5 * UnicodeEscapes(s)
    ensures UnicodeEscapes(s) == 0 ==> Unescape(s) == Standard(s).value
    decreases |s|
  {
    hide ShortEscape, Unescaped, HexNumber;
    if s == "" {
    } else if s[0] != '\\' {
      UnescapeAgainst(s[1..]);
    } else if s[1] != 'u' {
      UnescapedIsShort(s[1]);
      UnescapeAgainst(s[2..]);
    } else {
      SplitUnicode(s);
      UnicodeKept(s[2..6], s[6..]);
      UnescapeAgainst(s[6..]);
    }
  }

  /** The readers of the repository agree with a standard one on the texts without \u escapes,
      and on no other. */
  lemma UnescapeIsStandardExactly(s: string)
    requires Standard(s).Some?
    ensures Unescape(s) == Standard(s).value <==> UnicodeEscapes(s) == 0
  {
    UnescapeAgainst(s);
  }
}
