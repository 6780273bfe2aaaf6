/** Looking a key up in printed JSON by the leftmost match of a pattern, and what that finds:
    the first field with the key and a value of the asked-for kind. */
module JsonFields {
  import opened Basics
  import opened JsonText

  predicate IsWordChar(c: char) {
    'a' <= c <= 'z' || 'A' <= c <= 'Z' || '0' <= c <= '9' || c == '_'
  }

  predicate IsWord(key: string) {
    key != "" && forall i :: 0 <= i < |key| ==> IsWordChar(key[i])
  }

  /** The pattern at the start of s: the quoted key, a colon between blanks, and a value that
      accept takes. */
  function MatchAt<R>(s: string, key: string, accept: string -> Option<R>): Option<R> {
    var quoted := "\"" + key + "\"";
    if !(quoted <= s) then None
    else
      var t := SkipSpace(s[|quoted|..]);
      if t == "" || t[0] != ':' then None else accept(SkipSpace(t[1..]))
  }

  /** The pattern with alternatives for the key, tried in order. */
  function MatchAny<R>(s: string, keys: seq<string>, accept: string -> Option<R>): Option<R> {
    if keys == [] then None
    else
      var here := MatchAt(s, keys[0], accept);
      if here.Some? then here else MatchAny(s, keys[1..], accept)
  }

  /** regex_search: the leftmost position that matches. */
  function Search<R>(s: string, keys: seq<string>, accept: string -> Option<R>): Option<R> {
    if s == "" then None
    else
      var here := MatchAny(s, keys, accept);
      if here.Some? then here else Search(s[1..], keys, accept)
  }

  /** A value as it is printed: an escaped string in quotes, or text without quotes, such as a
      number, a truth value, a list of numbers or the opening brace of an object. */
  datatype Value = Quoted(text: string) | Bare(text: string)

  /** A field with the punctuation before it. */
  datatype Field = Field(before: string, key: string, value: Value)

  function ValueText(v: Value): string {
    match v case Quoted(text) => "\"" + Escape(text) + "\"" case Bare(text) => text
  }

  function Print(fields: seq<Field>, tail: string): string {
    if fields == [] then tail
    else fields[0].before + ("\"" + fields[0].key + "\":") + ValueText(fields[0].value) + Print(fields[1..], tail)
  }

  predicate NoQuote(s: string) {
    forall i :: 0 <= i < |s| ==> s[i] != '"'
  }

  /** What may follow a quoted value: punctuation, as opposed to a colon, a blank, a quote or
      a word. */
  predicate EndsValue(next: string) {
    next != "" && !IsWordChar(next[0]) && !IsSpace(next[0]) && next[0] != ':' && next[0] != '"'
  }

  predicate WellPrinted(fields: seq<Field>, tail: string) {
    if fields == [] then NoQuote(tail)
    else
      var f := fields[0];
      && NoQuote(f.before) && NoQuote(f.key)
      && (f.value.Bare? ==> f.value.text != "" && NoQuote(f.value.text) && !IsSpace(f.value.text[0]))
      && (f.value.Quoted? ==> EndsValue(if |fields| > 1 then fields[1].before else tail))
      && WellPrinted(fields[1..], tail)
  }

  /** The first field with one of the keys whose value, with the text after it, is accepted. */
  function FirstField<R>(fields: seq<Field>, tail: string, keys: seq<string>, accept: string -> Option<R>): Option<R> {
    if fields == [] then None
    else
      var found := accept(ValueText(fields[0].value) + Print(fields[1..], tail));
      if fields[0].key in keys && found.Some? then found else FirstField(fields[1..], tail, keys, accept)
  }

  predicate Words(keys: seq<string>) {
    forall i :: 0 <= i < |keys| ==> IsWord(keys[i])
  }

  /** No match starts inside the first part. */
  ghost predicate NoMatchIn<R>(p: string, rest: string, key: string, accept: string -> Option<R>) {
    forall i :: 0 <= i < |p| ==> MatchAt(p[i..] + rest, key, accept).None?
  }

  lemma {:induction false} NoneOfThem<R>(s: string, keys: seq<string>, accept: string -> Option<R>)
    requires forall i :: 0 <= i < |keys| ==> MatchAt(s, keys[i], accept).None?
    ensures MatchAny(s, keys, accept).None?
  {
    hide MatchAt;
    if keys == [] {
    } else {
      NoneOfThem(s, keys[1..], accept);
    }
  }

  lemma {:induction false} SearchSkips<R>(p: string, rest: string, keys: seq<string>, accept: string -> Option<R>)
    requires forall i :: 0 <= i < |keys| ==> NoMatchIn(p, rest, keys[i], accept)
    ensures Search(p + rest, keys, accept) == Search(rest, keys, accept)
  {
    hide MatchAt, MatchAny;
    if p == "" {
      assert p + rest == rest;
    } else {
      assert p[0..] == p;
      assert (p + rest)[1..] == p[1..] + rest;
      forall j | 0 <= j < |keys| ensures MatchAt(p + rest, keys[j], accept).None? && NoMatchIn(p[1..], rest, keys[j], accept) {
        assert NoMatchIn(p, rest, keys[j], accept);
        assert MatchAt(p[0..] + rest, keys[j], accept).None?;
        forall i | 0 <= i < |p[1..]| ensures MatchAt(p[1..][i..] + rest, keys[j], accept).None? {
          assert p[1..][i..] == p[i + 1..];
        }
      }
      NoneOfThem(p + rest, keys, accept);
      SearchSkips(p[1..], rest, keys, accept);
    }
  }

  lemma MatchNeedsQuote<R>(s: string, key: string, accept: string -> Option<R>)
    requires MatchAt(s, key, accept).Some?
    ensures |s| > |key| + 1 && s[0] == '"' && s[1..|key| + 1] == key && s[|key| + 1] == '"'
    ensures |s| > |key| + 2 && (s[|key| + 2] == ':' || IsSpace(s[|key| + 2]))
  {
    var quoted := "\"" + key + "\"";
    assert s[0] == quoted[0] && s[|key| + 1] == quoted[|key| + 1];
    assert s[1..|key| + 1] == quoted[1..|key| + 1] == key;
    assert |s| > |quoted| && s[|quoted|..][0] == s[|quoted|];
  }

  lemma NoQuoteNoMatch<R>(p: string, rest: string, key: string, accept: string -> Option<R>)
    requires NoQuote(p)
    ensures NoMatchIn(p, rest, key, accept)
  {
    hide MatchAt;
    forall i | 0 <= i < |p| ensures MatchAt(p[i..] + rest, key, accept).None? {
      if MatchAt(p[i..] + rest, key, accept).Some? {
        MatchNeedsQuote(p[i..] + rest, key, accept);
      }
    }
  }

  /** Inside an escaped string every quote has a backslash before it. */
  lemma {:induction false} EscapedQuotes(s: string, i: nat)
    requires i < |Escape(s)| && Escape(s)[i] == '"'
    ensures i > 0 && Escape(s)[i - 1] == '\\'
  {
    EscapeShape(s[0]);
    hide EscapeChar, Unescaped, Unrestorable;
    var e := EscapeChar(s[0]);
    if i >= |e| {
      EscapedQuotes(s[1..], i - |e|);
    }
  }

  ghost predicate QuotesEscaped(e: string) {
    forall i :: 0 <= i < |e| && e[i] == '"' ==> i > 0 && e[i - 1] == '\\'
  }

  /** A quoted key and what a match needs right after it. */
  predicate LooksLikeKey(s: string, key: string) {
    && |s| > |key| + 2 && s[1..|key| + 1] == key && s[|key| + 1] == '"'
    && (s[|key| + 2] == ':' || IsSpace(s[|key| + 2]))
  }

  /** From no position of a printed string: the quote after the key would have to be an
      escaped one or the closing one. */
  lemma NoKeyInString(e: string, rest: string, key: string, q: nat)
    requires IsWord(key) && EndsValue(rest) && QuotesEscaped(e) && q < |e| + 2
    ensures !LooksLikeKey(("\"" + e + "\"")[q..] + rest, key)
  {
    var v := "\"" + e + "\"";
    var s, n, close := v[q..] + rest, |key|, |e| + 1;
    var p := q + n + 1;
    if |s| > n + 2 {
      assert key[n - 1] != '\\' && forall i :: 0 <= i < n ==> key[i] != '"';
      assert s[1..n + 1][n - 1] == s[n];
      if p < close {
        assert s[n + 1] == v[p] == e[p - 1] && s[n] == v[p - 1] == e[p - 2];
      } else if p == close {
        assert s[n + 2] == rest[0];
      } else if q < close {
        assert s[1..n + 1][close - q - 1] == s[close - q] == v[close] == '"';
      } else {
        assert s[1..n + 1][0] == s[1] == rest[0];
      }
    }
  }

  lemma NoMatchInString<R>(text: string, rest: string, key: string, accept: string -> Option<R>)
    requires IsWord(key) && EndsValue(rest)
    ensures NoMatchIn(ValueText(Quoted(text)), rest, key, accept)
  {
    hide MatchAt, Escape, EndsValue, IsWord;
    var e := Escape(text);
    forall i | 0 <= i < |e| && e[i] == '"' ensures i > 0 && e[i - 1] == '\\' {
      EscapedQuotes(text, i);
    }
    var v := ValueText(Quoted(text));
    assert |v| == |e| + 2;
    forall q | 0 <= q < |v| ensures MatchAt(v[q..] + rest, key, accept).None? {
      NoKeyInString(e, rest, key, q);
      if MatchAt(v[q..] + rest, key, accept).Some? {
        MatchNeedsQuote(v[q..] + rest, key, accept);
      }
    }
  }

  /** A key and its colon contain one possible match: at the opening quote. */
  lemma NoMatchAfterKey<R>(k: string, rest: string, key: string, accept: string -> Option<R>)
    requires NoQuote(k) && IsWord(key)
    ensures NoMatchIn(k + "\":", rest, key, accept)
  {
    hide MatchAt;
    var p := k + "\":";
    forall i | 0 <= i < |p| ensures MatchAt(p[i..] + rest, key, accept).None? {
      var s := p[i..] + rest;
      assert s[0] == p[i] && (i == |k| ==> s[1] == ':');
      assert |s| > |key| + 1 ==> s[1..|key| + 1][0] == s[1];
      if MatchAt(s, key, accept).Some? { MatchNeedsQuote(s, key, accept); }
    }
  }

  /** At the opening quote of a field's key. */
  lemma MatchAtKey<R>(k: string, after: string, key: string, accept: string -> Option<R>)
    requires NoQuote(k) && IsWord(key) && after != "" && !IsSpace(after[0])
    ensures MatchAt("\"" + k + "\":" + after, key, accept) == if k == key then accept(after) else None
  {
    var s := "\"" + k + "\":" + after;
    var quoted := "\"" + key + "\"";
    if k == key {
      assert s[..|quoted|] == quoted && s[|quoted|..] == ":" + after;
      assert (":" + after)[1..] == after;
    } else if quoted <= s {
      SameWord(k, key, ":" + after);
    }
  }

  lemma SameWord(k: string, key: string, after: string)
    requires NoQuote(k) && IsWord(key) && "\"" + key + "\"" <= "\"" + k + "\"" + after
    ensures k == key
  {
    var s, quoted := "\"" + k + "\"" + after, "\"" + key + "\"";
    assert forall i :: 0 <= i < |quoted| ==> s[i] == quoted[i];
    assert s[|k| + 1] == '"' && quoted[|key| + 1] == '"';
    assert forall i :: 0 <= i < |k| ==> s[i + 1] == k[i];
    assert forall i :: 0 <= i < |key| ==> quoted[i + 1] == key[i];
    assert |key| >= |k|;
    assert |k| >= |key|;
  }

  /** At the opening quote of a field's key, for a pattern with alternatives. */
  lemma {:induction false} MatchAnyAtKey<R>(k: string, after: string, keys: seq<string>, accept: string -> Option<R>)
    requires NoQuote(k) && Words(keys) && after != "" && !IsSpace(after[0])
    ensures MatchAny("\"" + k + "\":" + after, keys, accept) == if k in keys then accept(after) else None
  {
    hide MatchAt, IsWord;
    if keys == [] {
    } else {
      MatchAtKey(k, after, keys[0], accept);
      MatchAnyAtKey(k, after, keys[1..], accept);
    }
  }

  lemma SearchOne<R>(s: string, keys: seq<string>, accept: string -> Option<R>)
    requires s != ""
    ensures Search(s, keys, accept)
         == if MatchAny(s, keys, accept).Some? then MatchAny(s, keys, accept) else Search(s[1..], keys, accept)
  {}

  lemma NextStarts(fields: seq<Field>, tail: string)
    requires fields != [] && WellPrinted(fields, tail) && fields[0].value.Quoted?
    ensures EndsValue(Print(fields[1..], tail))
  {}

  /** Searching printed JSON finds the first field with one of the keys and an acceptable value,
      for every list of keys and every kind of value. */
  lemma {:induction false} SearchFindsFirstField<R>(fields: seq<Field>, tail: string, keys: seq<string>,
      accept: string -> Option<R>)
    requires WellPrinted(fields, tail) && Words(keys)
    ensures Search(Print(fields, tail), keys, accept) == FirstField(fields, tail, keys, accept)
    decreases |fields|
  {
    if fields == [] {
      SearchSkipsPlain(tail, "", keys, accept);
      assert tail + "" == tail;
    } else {
      var f, rest := fields[0], Print(fields[1..], tail);
      SearchFindsFirstField(fields[1..], tail, keys, accept);
      if f.value.Quoted? {
        NextStarts(fields, tail);
      }
      OneField(f, rest, keys, accept);
    }
  }

  lemma SearchSkipsPlain<R>(p: string, rest: string, keys: seq<string>, accept: string -> Option<R>)
    requires NoQuote(p)
    ensures Search(p + rest, keys, accept) == Search(rest, keys, accept)
  {
    hide NoMatchIn, Search;
    forall i | 0 <= i < |keys| ensures NoMatchIn(p, rest, keys[i], accept) {
      NoQuoteNoMatch(p, rest, keys[i], accept);
    }
    SearchSkips(p, rest, keys, accept);
  }

  lemma SearchSkipsKey<R>(k: string, rest: string, keys: seq<string>, accept: string -> Option<R>)
    requires NoQuote(k) && Words(keys)
    ensures Search(k + "\":" + rest, keys, accept) == Search(rest, keys, accept)
  {
    hide NoMatchIn, Search, IsWord;
    forall i | 0 <= i < |keys| ensures NoMatchIn(k + "\":", rest, keys[i], accept) {
      NoMatchAfterKey(k, rest, keys[i], accept);
    }
    SearchSkips(k + "\":", rest, keys, accept);
  }

  lemma SearchSkipsString<R>(text: string, rest: string, keys: seq<string>, accept: string -> Option<R>)
    requires Words(keys) && EndsValue(rest)
    ensures Search(ValueText(Quoted(text)) + rest, keys, accept) == Search(rest, keys, accept)
  {
    hide NoMatchIn, Search, IsWord, EndsValue, ValueText;
    forall i | 0 <= i < |keys| ensures NoMatchIn(ValueText(Quoted(text)), rest, keys[i], accept) {
      NoMatchInString(text, rest, keys[i], accept);
    }
    SearchSkips(ValueText(Quoted(text)), rest, keys, accept);
  }

  /** One field, whatever follows. */
  lemma OneField<R>(f: Field, rest: string, keys: seq<string>, accept: string -> Option<R>)
    requires NoQuote(f.before) && NoQuote(f.key) && Words(keys)
    requires f.value.Bare? ==> f.value.text != "" && NoQuote(f.value.text) && !IsSpace(f.value.text[0])
    requires f.value.Quoted? ==> EndsValue(rest)
    ensures Search(f.before + ("\"" + f.key + "\":") + ValueText(f.value) + rest, keys, accept) ==
      var found := accept(ValueText(f.value) + rest);
      if f.key in keys && found.Some? then found else Search(rest, keys, accept)
  {
    hide MatchAny, Search, Escape, EndsValue, IsWord;
    var v := ValueText(f.value);
    assert v != "" && !IsSpace(v[0]);
    var after := v + rest;
    assert after[0] == v[0];
    var body := "\"" + f.key + "\":" + after;
    SearchSkipsPlain(f.before, body, keys, accept);
    assert f.before + ("\"" + f.key + "\":") + v + rest == f.before + body;
    MatchAnyAtKey(f.key, after, keys, accept);
    SearchOne(body, keys, accept);
    assert body[1..] == f.key + "\":" + after;
    SearchSkipsKey(f.key, after, keys, accept);
    if f.value.Quoted? { SearchSkipsString(f.value.text, rest, keys, accept); } else { SearchSkipsPlain(v, rest, keys, accept); }
  }

  // ---- string fields ----

  /** The string pattern's value: a quoted string, with its escapes undone. */
  function QuotedString(s: string): Option<string> {
    if s == "" || s[0] != '"' then None
    else match ScanString(s[1..]) case None => None case Some(m) => Some(Unescape(m.0))
  }

  lemma QuotedStringRead(text: string, rest: string)
    requires forall j :: 0 <= j < |text| ==> !Unrestorable(text[j])
    ensures QuotedString(ValueText(Quoted(text)) + rest) == Some(text)
  {
    hide Escape, Unescape, ScanString, Unrestorable;
    ScanStopsAtClosingQuote(text, rest);
    RestoredExactlyWithoutOtherControls(text);
    assert (ValueText(Quoted(text)) + rest)[1..] == Escape(text) + "\"" + rest;
  }
}
