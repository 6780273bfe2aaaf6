/** Chain metrics in the text of a frame's metadata: the patterns that take them out, and the
    way a stage puts its own in. */
module ChainText {
  import opened Basics
  import Json = JsonFields
  import JsonText
  import opened Metadata
  import opened MetadataText
  import opened MetadataPrint

  /** A pattern, as what is left of a text behind a match at its start. */
  type Pattern = string -> Option<string>

  /** `-?(?:\d+\.?\d*|\.\d+)(?:[eE][+-]?\d+)?` */
  function NumberRest(s: string): Option<string> {
    match DoubleText(s)
    case None => None
    case Some(t) => if |t| <= |s| then Some(s[|t|..]) else None
  }

  function UpToBrace(s: string): Option<string> {
    if s == "" || s[0] == '{' then None else if s[0] == '}' then Some(s[1..]) else UpToBrace(s[1..])
  }

  /** `\{[^{}]*\}` */
  function ObjectRest(s: string): Option<string> {
    if s == "" || s[0] != '{' then None else UpToBrace(s[1..])
  }

  /** A field with the comma before it. */
  function Middle(key: string, value: Pattern): Pattern {
    s => if s == "" || s[0] != ',' then None else Json.MatchAt(SkipSpace(s[1..]), key, value)
  }

  /** A field with the comma behind it. */
  function Leading(key: string, value: Pattern): Pattern {
    s => match Json.MatchAt(s, key, value)
      case None => None
      case Some(rest) => var t := SkipSpace(rest); if t == "" || t[0] != ',' then None else Some(t[1..])
  }

  function Only(key: string, value: Pattern): Pattern {
    s => Json.MatchAt(s, key, value)
  }

  /** `regex_replace` with nothing: every match is taken out, from left to right. */
  function Cut(s: string, p: Pattern): string
    decreases |s|
  {
    if s == "" then ""
    else match p(s)
      case None => [s[0]] + Cut(s[1..], p)
      case Some(rest) => if |rest| < |s| then Cut(rest, p) else [s[0]] + Cut(s[1..], p)
  }

  /** `remove_object_field` and `remove_number_field`. */
  function RemoveField(s: string, key: string, value: Pattern): string {
    Cut(Cut(Cut(s, Middle(key, value)), Leading(key, value)), Only(key, value))
  }

  function RemoveNumbers(s: string, keys: seq<string>): string
    decreases |keys|
  {
    if keys == [] then s else RemoveNumbers(RemoveField(s, keys[0], NumberRest), keys[1..])
  }

  const FLAT_KEYS := ["chain_compute_time_ms", "chain_rpc_wall_time_ms", "chain_true_comm_ms",
                      "chain_transport_payload_bytes", "chain_stage_count", "chain_hops"]

  const SHORT_KEYS := ["ccm", "crw", "ctc", "cpb", "csc"]

  /** `remove_chain_metric_fields` */
  function RemoveChain(s: string): string {
    RemoveNumbers(RemoveField(s, "chain_metrics", ObjectRest), FLAT_KEYS + SHORT_KEYS)
  }

  /** The metrics, as they are printed. */
  datatype Chain = Chain(compute: string, wall: string, comm: string, bytes: string, count: string)

  function Texts(m: Chain): seq<string> {
    [m.compute, m.wall, m.comm, m.bytes, m.count, m.count]
  }

  /** Numbers under these keys, each behind a comma but perhaps the first. */
  function Numbers(keys: seq<string>, texts: seq<string>, before: string): seq<Json.Field>
    requires |keys| <= |texts|
  {
    if keys == [] then []
    else [Json.Field(before, keys[0], Json.Bare(texts[0]))] + Numbers(keys[1..], texts[1..], ",")
  }

  const OBJECT_KEYS := ["compute_ms", "rpc_wall_ms", "true_comm_ms", "transport_payload_bytes", "stage_count"]

  /** The numbers within the object. */
  function ObjectText(m: Chain): string {
    Json.Print(Numbers(OBJECT_KEYS, Texts(m), ""), "")
  }

  /** The numbers behind the object, and what ends the text. */
  function FlatText(m: Chain, tail: string): string {
    Json.Print(Numbers(FLAT_KEYS, Texts(m), ","), tail)
  }

  /** `chain_metrics_json`, with the text that follows. */
  function ChainJson(m: Chain, tail: string): string {
    "\"chain_metrics\":" + ("{" + ObjectText(m) + "}" + FlatText(m, tail))
  }

  function LastBrace(s: string): Option<nat> {
    if s == "" then None else if s[|s| - 1] == '}' then Some(|s| - 1) else LastBrace(s[..|s| - 1])
  }

  /** `put_chain_metrics_in_metadata` */
  function PutChain(s: string, m: Chain): string {
    var t := RemoveChain(s);
    match LastBrace(t)
    case None => t
    case Some(n) =>
      if n < |t| then t[..n] + (if n > 0 && t[n - 1] != '{' then "," else "") + ChainJson(m, t[n..]) else t
  }

  // ----- What is not there is not taken out -----

  /** No field of this key starts anywhere in the text, whatever follows it. */
  ghost predicate Lacks(s: string, key: string, value: Pattern) {
    forall rest :: Json.NoMatchIn(s, rest, key, value)
  }

  lemma LacksUnfolds(s: string, key: string, value: Pattern, rest: string, i: nat)
    requires Lacks(s, key, value) && i < |s|
    ensures Json.MatchAt(s[i..] + rest, key, value).None?
  {
    hide Json.MatchAt;
    assert Json.NoMatchIn(s, rest, key, value);
  }

  lemma LacksJoin(a: string, b: string, key: string, value: Pattern)
    requires Lacks(a, key, value) && Lacks(b, key, value)
    ensures Lacks(a + b, key, value)
  {
    hide Json.MatchAt;
    forall rest ensures Json.NoMatchIn(a + b, rest, key, value) {
      forall i | 0 <= i < |a + b| ensures Json.MatchAt((a + b)[i..] + rest, key, value).None? {
        if i < |a| {
          assert (a + b)[i..] + rest == a[i..] + (b + rest);
          LacksUnfolds(a, key, value, b + rest, i);
        } else {
          assert (a + b)[i..] == b[i - |a|..];
          LacksUnfolds(b, key, value, rest, i - |a|);
        }
      }
    }
  }

  lemma {:induction false} SkipSpaceJoin(s: string, rest: string) returns (n: nat)
    requires rest != "" ==> !IsSpace(rest[0])
    ensures n <= |s| && SkipSpace(s + rest) == s[n..] + rest
  {
    hide IsSpace;
    if s == "" {
      n := 0;
      assert s + rest == rest;
    } else if IsSpace(s[0]) {
      assert (s + rest)[1..] == s[1..] + rest;
      var k := SkipSpaceJoin(s[1..], rest);
      n := k + 1;
      assert s[1..][k..] == s[n..];
    } else {
      n := 0;
      assert s[0..] == s;
    }
  }

  lemma NeedsQuote(s: string, key: string, value: Pattern)
    requires s != "" ==> s[0] != '"'
    ensures Json.MatchAt(s, key, value).None?
  {
    hide Json.MatchAt;
    if Json.MatchAt(s, key, value).Some? { Json.MatchNeedsQuote(s, key, value); }
  }

  /** A pattern with a comma before the field finds the field itself. */
  lemma MiddleNoneAt(s: string, rest: string, key: string, value: Pattern, i: nat)
    requires Lacks(s, key, value) && i < |s| && (rest != "" ==> rest[0] != '"' && !IsSpace(rest[0]))
    ensures Middle(key, value)(s[i..] + rest).None?
  {
    hide Json.MatchAt, SkipSpace, IsSpace, Lacks;
    assert (s[i..] + rest)[1..] == s[i + 1..] + rest;
    var n := SkipSpaceJoin(s[i + 1..], rest);
    assert s[i + 1..][n..] == s[i + 1 + n..];
    if i + 1 + n < |s| {
      LacksUnfolds(s, key, value, rest, i + 1 + n);
    } else {
      assert s[i + 1 + n..] + rest == rest;
      NeedsQuote(rest, key, value);
    }
  }

  lemma NoneAt(s: string, rest: string, key: string, value: Pattern, i: nat)
    requires Lacks(s, key, value) && i < |s| && (rest != "" ==> rest[0] != '"' && !IsSpace(rest[0]))
    ensures Only(key, value)(s[i..] + rest).None? && Leading(key, value)(s[i..] + rest).None?
    ensures Middle(key, value)(s[i..] + rest).None?
  {
    MiddleNoneAt(s, rest, key, value, i);
    LacksUnfolds(s, key, value, rest, i);
    hide Json.MatchAt, SkipSpace, IsSpace, Lacks;
  }

  /** What matches nowhere stays. */
  lemma {:induction false} CutKeeps(s: string, rest: string, p: Pattern)
    requires forall i :: 0 <= i < |s| ==> p(s[i..] + rest).None?
    ensures Cut(s + rest, p) == s + Cut(rest, p)
  {
    if s == "" {
      assert s + rest == rest;
    } else {
      assert s[0..] == s && (s + rest)[1..] == s[1..] + rest;
      forall i | 0 <= i < |s[1..]| ensures p(s[1..][i..] + rest).None? {
        assert s[1..][i..] == s[i + 1..];
      }
      CutKeeps(s[1..], rest, p);
      assert [s[0]] + s[1..] == s;
    }
  }

  lemma CutAll(s: string, p: Pattern)
    requires forall i :: 0 <= i < |s| ==> p(s[i..] + "").None?
    ensures Cut(s, p) == s
  {
    CutKeeps(s, "", p);
    assert s + "" == s;
  }

  lemma RemovesNothing(s: string, key: string, value: Pattern)
    requires Lacks(s, key, value)
    ensures RemoveField(s, key, value) == s
  {
    hide Middle, Leading, Only, Cut, Lacks;
    forall i | 0 <= i < |s|
      ensures Only(key, value)(s[i..] + "").None? && Leading(key, value)(s[i..] + "").None?
      ensures Middle(key, value)(s[i..] + "").None?
    {
      NoneAt(s, "", key, value, i);
    }
    CutAll(s, Middle(key, value));
    CutAll(s, Leading(key, value));
    CutAll(s, Only(key, value));
  }

  function FieldText(key: string, v: string): string {
    ",\"" + key + "\":" + v
  }

  lemma MiddleMatches(key: string, v: string, more: string, value: Pattern)
    requires v != "" && !IsSpace(v[0]) && value(v + more) == Some(more)
    ensures Middle(key, value)(FieldText(key, v) + more) == Some(more)
  {
    var s := FieldText(key, v) + more;
    var quoted := "\"" + key + "\"";
    assert s[1..] == quoted + (":" + (v + more));
    assert SkipSpace(s[1..]) == s[1..];
    assert s[1..][..|quoted|] == quoted && s[1..][|quoted|..] == ":" + (v + more);
    assert (":" + (v + more))[1..] == v + more;
  }

  /** A field behind its comma is taken out, and nothing else. */
  lemma RemovesField(s: string, key: string, v: string, more: string, value: Pattern)
    requires Lacks(s, key, value) && Lacks(more, key, value)
    requires v != "" && !IsSpace(v[0]) && value(v + more) == Some(more)
    ensures RemoveField(s + (FieldText(key, v) + more), key, value) == s + more
  {
    hide Middle, Leading, Only, Cut, Lacks, FieldText, IsSpace;
    var p, rest := Middle(key, value), FieldText(key, v) + more;
    FieldTextStarts(key, v, more);
    forall i | 0 <= i < |s| ensures p(s[i..] + rest).None? { NoneAt(s, rest, key, value, i); }
    CutKeeps(s, rest, p);
    MiddleMatches(key, v, more, value);
    forall i | 0 <= i < |more| ensures p(more[i..] + "").None? { NoneAt(more, "", key, value, i); }
    CutAll(more, p);
    CutTurn(rest, p, more);
    LacksJoin(s, more, key, value);
    forall i | 0 <= i < |s + more|
      ensures Only(key, value)((s + more)[i..] + "").None? && Leading(key, value)((s + more)[i..] + "").None?
    {
      NoneAt(s + more, "", key, value, i);
    }
    CutAll(s + more, Leading(key, value));
    CutAll(s + more, Only(key, value));
  }

  lemma FieldTextStarts(key: string, v: string, more: string)
    ensures var s := FieldText(key, v) + more; |s| > |more| && s[0] == ',' && s[0] != '"' && !IsSpace(s[0])
  {}

  lemma CutTurn(s: string, p: Pattern, more: string)
    requires |more| < |s| && p(s) == Some(more)
    ensures Cut(s, p) == Cut(more, p)
  {}

  // ----- Printed texts -----

  lemma NoMatchJoin(a: string, b: string, rest: string, key: string, value: Pattern)
    requires Json.NoMatchIn(a, b + rest, key, value) && Json.NoMatchIn(b, rest, key, value)
    ensures Json.NoMatchIn(a + b, rest, key, value)
  {
    hide Json.MatchAt;
    forall i | 0 <= i < |a + b| ensures Json.MatchAt((a + b)[i..] + rest, key, value).None? {
      if i < |a| {
        assert (a + b)[i..] + rest == a[i..] + (b + rest);
      } else {
        assert (a + b)[i..] == b[i - |a|..];
      }
    }
  }

  /** The key of a field, and its colon. */
  lemma OtherKey(k: string, after: string, key: string, value: Pattern)
    requires Json.NoQuote(k) && Json.IsWord(key) && k != key && after != "" && !IsSpace(after[0])
    ensures Json.NoMatchIn("\"" + k + "\":", after, key, value)
  {
    hide Json.MatchAt, Json.NoQuote, Json.IsWord, IsSpace;
    Json.MatchAtKey(k, after, key, value);
    Json.NoMatchAfterKey(k, after, key, value);
    var q := "\"" + k + "\":";
    forall i | 0 <= i < |q| ensures Json.MatchAt(q[i..] + after, key, value).None? {
      if i == 0 {
        assert q[0..] + after == "\"" + k + "\":" + after;
      } else {
        assert q[i..] == (k + "\":")[i - 1..];
      }
    }
  }

  lemma OtherField(f: Json.Field, rest: string, key: string, value: Pattern)
    requires Json.NoQuote(f.before) && Json.NoQuote(f.key) && Json.IsWord(key) && f.key != key
    requires f.value.Bare? ==> f.value.text != "" && Json.NoQuote(f.value.text) && !IsSpace(f.value.text[0])
    requires f.value.Quoted? ==> Json.EndsValue(rest)
    ensures Json.NoMatchIn(f.before + ("\"" + f.key + "\":") + Json.ValueText(f.value), rest, key, value)
  {
    var v, q := Json.ValueText(f.value), "\"" + f.key + "\":";
    assert v != "" && !IsSpace(v[0]);
    hide Json.NoMatchIn, Json.NoQuote, Json.IsWord, IsSpace, Json.EndsValue;
    if f.value.Quoted? {
      Json.NoMatchInString(f.value.text, rest, key, value);
    } else {
      Json.NoQuoteNoMatch(v, rest, key, value);
    }
    hide Json.ValueText;
    assert (v + rest)[0] == v[0];
    OtherKey(f.key, v + rest, key, value);
    NoMatchJoin(q, v, rest, key, value);
    Json.NoQuoteNoMatch(f.before, (q + v) + rest, key, value);
    NoMatchJoin(f.before, q + v, rest, key, value);
    assert f.before + q + v == f.before + (q + v);
  }

  lemma EndsBefore(t: string, rest: string)
    requires Json.EndsValue(t)
    ensures Json.EndsValue(t + rest)
  {}

  predicate HasNot(fields: seq<Json.Field>, key: string) {
    forall i :: 0 <= i < |fields| ==> fields[i].key != key
  }

  lemma {:induction false} PrintedHasNoMatch(fields: seq<Json.Field>, tail: string, rest: string, key: string, value: Pattern)
    requires Json.WellPrinted(fields, tail) && Json.IsWord(key) && HasNot(fields, key)
    ensures Json.NoMatchIn(Json.Print(fields, tail), rest, key, value)
    decreases |fields|
  {
    hide Json.NoMatchIn, Json.NoQuote, Json.IsWord, Json.EndsValue, Json.ValueText;
    if fields == [] {
      Json.NoQuoteNoMatch(tail, rest, key, value);
    } else {
      var f, more := fields[0], Json.Print(fields[1..], tail);
      PrintedHasNoMatch(fields[1..], tail, rest, key, value);
      if f.value.Quoted? {
        Json.NextStarts(fields, tail);
        EndsBefore(more, rest);
      }
      OtherField(f, more + rest, key, value);
      NoMatchJoin(f.before + ("\"" + f.key + "\":") + Json.ValueText(f.value), more, rest, key, value);
    }
  }

  /** A printed text lacks the keys that none of its fields has. */
  lemma PrintedLacks(fields: seq<Json.Field>, tail: string, key: string, value: Pattern)
    requires Json.WellPrinted(fields, tail) && Json.IsWord(key) && HasNot(fields, key)
    ensures Lacks(Json.Print(fields, tail), key, value)
  {
    hide Json.NoMatchIn, Json.IsWord, Json.WellPrinted;
    forall rest ensures Json.NoMatchIn(Json.Print(fields, tail), rest, key, value) {
      PrintedHasNoMatch(fields, tail, rest, key, value);
    }
  }

  // ----- A stage's metrics in the text -----

  /** The text before the last brace has no chain metrics. */
  ghost predicate Free(s: string) {
    && Lacks(s, "chain_metrics", ObjectRest)
    && forall i :: 0 <= i < |FLAT_KEYS + SHORT_KEYS| ==> Lacks(s, (FLAT_KEYS + SHORT_KEYS)[i], NumberRest)
  }

  /** Numbers as they are printed. */
  predicate AreNumbers(texts: seq<string>) {
    forall i :: 0 <= i < |texts| ==> NumberLike(texts[i])
  }

  predicate EndsText(tail: string) {
    Json.NoQuote(tail) && tail != "" && !IsNumberChar(tail[0])
  }

  lemma NumberTextIsPlain(t: string)
    requires NumberLike(t)
    ensures t != "" && Json.NoQuote(t) && !IsSpace(t[0])
  {
    hide IntText, DoubleText;
    assert IsNumberChar(t[0]);
  }

  lemma NumberIsCut(t: string, more: string)
    requires NumberLike(t) && more != "" && !IsNumberChar(more[0])
    ensures NumberRest(t + more) == Some(more)
  {
    hide IntText, DoubleText;
    DoubleTextStops(t, more);
    assert (t + more)[|t|..] == more;
  }

  lemma WordHasNoQuote(k: string)
    requires Json.IsWord(k)
    ensures Json.NoQuote(k)
  {}

  lemma {:induction false} NumbersAreWellPrinted(keys: seq<string>, texts: seq<string>, before: string, tail: string)
    requires |keys| <= |texts| && AreNumbers(texts) && Json.Words(keys) && Json.NoQuote(before) && Json.NoQuote(tail)
    ensures Json.WellPrinted(Numbers(keys, texts, before), tail)
    decreases |keys|
  {
    assert Json.NoQuote(",");
    hide Json.NoQuote, NumberLike, Json.IsWord, IsSpace;
    if keys == [] {
    } else {
      NumberTextIsPlain(texts[0]);
      WordHasNoQuote(keys[0]);
      NumbersAreWellPrinted(keys[1..], texts[1..], ",", tail);
    }
  }

  lemma {:induction false} NumbersHaveKeys(keys: seq<string>, texts: seq<string>, before: string, key: string)
    requires |keys| <= |texts| && key !in keys
    ensures HasNot(Numbers(keys, texts, before), key)
    decreases |keys|
  {
    if keys == [] {
    } else {
      NumbersHaveKeys(keys[1..], texts[1..], ",", key);
    }
  }

  lemma NumbersLack(keys: seq<string>, texts: seq<string>, tail: string, key: string, value: Pattern)
    requires |keys| <= |texts| && AreNumbers(texts) && Json.Words(keys) && Json.NoQuote(tail)
    requires Json.IsWord(key) && key !in keys
    ensures Lacks(Json.Print(Numbers(keys, texts, ","), tail), key, value)
  {
    assert Json.NoQuote(",");
    hide *;
    NumbersAreWellPrinted(keys, texts, ",", tail);
    NumbersHaveKeys(keys, texts, ",", key);
    PrintedLacks(Numbers(keys, texts, ","), tail, key, value);
  }

  lemma OneNumber(keys: seq<string>, texts: seq<string>, before: string, tail: string)
    requires |keys| <= |texts| && keys != []
    ensures Json.Print(Numbers(keys, texts, before), tail) ==
      before + ("\"" + keys[0] + "\":") + texts[0] + Json.Print(Numbers(keys[1..], texts[1..], ","), tail)
  {
    assert Numbers(keys, texts, before)[1..] == Numbers(keys[1..], texts[1..], ",");
  }

  lemma FieldTextIs(key: string, v: string, more: string)
    ensures "," + ("\"" + key + "\":") + v + more == FieldText(key, v) + more
  {
    assert ",\"" == "," + "\"";
    assert "," + ("\"" + key + "\":") == ",\"" + key + "\":";
  }

  lemma NumbersStart(keys: seq<string>, texts: seq<string>, tail: string)
    requires |keys| <= |texts| && EndsText(tail)
    ensures var s := Json.Print(Numbers(keys, texts, ","), tail); s != "" && !IsNumberChar(s[0])
  {
    if keys == [] {
    } else {
      OneNumber(keys, texts, ",", tail);
      NotANumber();
      hide IsNumberChar;
    }
  }

  lemma NumbersUnfold(keys: seq<string>, texts: seq<string>, tail: string)
    requires |keys| <= |texts| && keys != [] && EndsText(tail)
    ensures var more := Json.Print(Numbers(keys[1..], texts[1..], ","), tail);
      && Json.Print(Numbers(keys, texts, ","), tail) == FieldText(keys[0], texts[0]) + more
      && more != "" && !IsNumberChar(more[0])
  {
    hide *;
    OneNumber(keys, texts, ",", tail);
    FieldTextIs(keys[0], texts[0], Json.Print(Numbers(keys[1..], texts[1..], ","), tail));
    NumbersStart(keys[1..], texts[1..], tail);
  }

  lemma NotANumber()
    ensures !IsNumberChar(',') && !IsNumberChar('}')
  {}

  lemma RemoveNumbersTurn(s: string, keys: seq<string>, more: seq<string>)
    requires keys != []
    ensures RemoveNumbers(s, keys + more) == RemoveNumbers(RemoveField(s, keys[0], NumberRest), keys[1..] + more)
  {
    hide RemoveField;
    assert (keys + more)[1..] == keys[1..] + more;
  }

  /** The flat metrics are taken out one after the other. */
  lemma {:induction false} RemovesNumbers(s: string, keys: seq<string>, texts: seq<string>, tail: string, more: seq<string>)
    requires |keys| <= |texts| && AreNumbers(texts) && Json.Words(keys) && EndsText(tail) && Distinct(keys)
    requires forall i :: 0 <= i < |keys| ==> Lacks(s, keys[i], NumberRest)
    ensures RemoveNumbers(s + Json.Print(Numbers(keys, texts, ","), tail), keys + more) == RemoveNumbers(s + tail, more)
    decreases |keys|
  {
    hide Lacks, Json.IsWord, NumberLike, RemoveField, RemoveNumbers, EndsText, Json.Print, Numbers, NumberRest, IsSpace,
      IsNumberChar;
    if keys == [] {
      NoNumbers(texts, tail);
      assert keys + more == more;
    } else {
      TailHasNoQuote(tail);
      var rest := Json.Print(Numbers(keys[1..], texts[1..], ","), tail);
      RemoveNumbersTurn(s + Json.Print(Numbers(keys, texts, ","), tail), keys, more);
      NumbersUnfold(keys, texts, tail);
      NumberTextIsPlain(texts[0]);
      NumberIsCut(texts[0], rest);
      NumbersLack(keys[1..], texts[1..], tail, keys[0], NumberRest);
      RemovesField(s, keys[0], texts[0], rest, NumberRest);
      RemovesNumbers(s, keys[1..], texts[1..], tail, more);
    }
  }

  lemma NoNumbers(texts: seq<string>, tail: string)
    ensures Json.Print(Numbers([], texts, ","), tail) == tail
  {}

  lemma TailHasNoQuote(tail: string)
    requires EndsText(tail)
    ensures Json.NoQuote(tail)
  {}

  lemma {:induction false} RemovesNoNumbers(s: string, keys: seq<string>)
    requires forall i :: 0 <= i < |keys| ==> Lacks(s, keys[i], NumberRest)
    ensures RemoveNumbers(s, keys) == s
    decreases |keys|
  {
    hide Lacks, RemoveField, NumberRest;
    if keys == [] {
    } else {
      RemovesNothing(s, keys[0], NumberRest);
      RemovesNoNumbers(s, keys[1..]);
    }
  }

  // The names.

  lemma FlatKeysAreWords()
    ensures Json.IsWord("chain_compute_time_ms") && Json.IsWord("chain_rpc_wall_time_ms") && Json.IsWord("chain_true_comm_ms")
  {}

  lemma MoreFlatKeysAreWords()
    ensures Json.IsWord("chain_transport_payload_bytes") && Json.IsWord("chain_stage_count") && Json.IsWord("chain_hops")
  {}

  lemma ShortKeysAreWords()
    ensures Json.IsWord("ccm") && Json.IsWord("crw") && Json.IsWord("ctc") && Json.IsWord("cpb") && Json.IsWord("csc")
    ensures Json.IsWord("chain_metrics")
  {}

  lemma ObjectKeysAreWords()
    ensures Json.IsWord("compute_ms") && Json.IsWord("rpc_wall_ms") && Json.IsWord("true_comm_ms")
    ensures Json.IsWord("stage_count")
  {}

  lemma PayloadIsWord()
    ensures Json.IsWord("transport_payload_bytes")
  {}

  lemma FlatWords()
    ensures Json.Words(FLAT_KEYS) && Json.Words(SHORT_KEYS) && Json.Words(OBJECT_KEYS) && Json.IsWord("chain_metrics")
    ensures |FLAT_KEYS| == 6 && |OBJECT_KEYS| == 5
  {
    hide Json.IsWord;
    FlatKeysAreWords();
    MoreFlatKeysAreWords();
    ShortKeysAreWords();
    ObjectKeysAreWords();
    PayloadIsWord();
  }

  lemma FlatKeysDiffer()
    ensures Distinct(FLAT_KEYS) && "chain_metrics" !in FLAT_KEYS
  {
    assert |FLAT_KEYS[0]| == 21 && |FLAT_KEYS[1]| == 22 && |FLAT_KEYS[2]| == 18;
    assert |FLAT_KEYS[3]| == 29 && |FLAT_KEYS[4]| == 17 && |FLAT_KEYS[5]| == 10 && |"chain_metrics"| == 13;
  }

  // The object.

  predicate NoBrace(s: string) {
    forall i :: 0 <= i < |s| ==> s[i] != '{' && s[i] != '}'
  }

  lemma {:induction false} UpToBraceStops(s: string, more: string)
    requires NoBrace(s)
    ensures UpToBrace(s + "}" + more) == Some(more)
  {
    if s == "" {
      assert s + "}" + more == "}" + more && ("}" + more)[1..] == more;
    } else {
      assert (s + "}" + more)[1..] == s[1..] + "}" + more;
      UpToBraceStops(s[1..], more);
    }
  }

  lemma ObjectIsCut(s: string, more: string)
    requires NoBrace(s)
    ensures ObjectRest("{" + s + "}" + more) == Some(more)
  {
    assert ("{" + s + "}" + more)[1..] == s + "}" + more;
    UpToBraceStops(s, more);
  }

  lemma WordHasNoBrace(k: string)
    requires Json.IsWord(k)
    ensures NoBrace(k)
  {}

  lemma NumberHasNoBrace(t: string)
    requires NumberLike(t)
    ensures NoBrace(t)
  {
    hide IntText, DoubleText;
  }

  lemma JoinNoBrace(a: string, b: string)
    requires NoBrace(a) && NoBrace(b)
    ensures NoBrace(a + b)
  {}

  lemma {:induction false} NumbersHaveNoBrace(keys: seq<string>, texts: seq<string>, before: string)
    requires |keys| <= |texts| && AreNumbers(texts) && Json.Words(keys) && NoBrace(before)
    ensures NoBrace(Json.Print(Numbers(keys, texts, before), ""))
    decreases |keys|
  {
    assert NoBrace(",") && NoBrace("\"") && NoBrace("\":") && NoBrace("");
    hide NumberLike, Json.IsWord, NoBrace;
    if keys == [] {
    } else {
      var more := Json.Print(Numbers(keys[1..], texts[1..], ","), "");
      NumbersHaveNoBrace(keys[1..], texts[1..], ",");
      assert Numbers(keys, texts, before)[1..] == Numbers(keys[1..], texts[1..], ",");
      WordHasNoBrace(keys[0]);
      NumberHasNoBrace(texts[0]);
      JoinNoBrace("\"", keys[0]);
      JoinNoBrace("\"" + keys[0], "\":");
      JoinNoBrace(before, "\"" + keys[0] + "\":");
      JoinNoBrace(before + ("\"" + keys[0] + "\":"), texts[0]);
      JoinNoBrace(before + ("\"" + keys[0] + "\":") + texts[0], more);
    }
  }

  predicate IsChain(m: Chain) {
    NumberLike(m.compute) && NumberLike(m.wall) && NumberLike(m.comm) && NumberLike(m.bytes) && NumberLike(m.count)
  }

  lemma ChainNumbers(m: Chain)
    requires IsChain(m)
    ensures AreNumbers(Texts(m)) && |Texts(m)| == 6
  {
    hide NumberLike;
  }

  /** With the comma before it, the object is a field. */
  lemma ChainIsField(m: Chain, tail: string)
    ensures "," + ChainJson(m, tail) == FieldText("chain_metrics", "{" + ObjectText(m) + "}") + FlatText(m, tail)
  {
    hide ObjectText, FlatText;
    assert ",\"" + "chain_metrics" + "\":" == "," + "\"chain_metrics\":";
    var a, b, c := "\"chain_metrics\":", "{" + ObjectText(m) + "}", FlatText(m, tail);
    assert "," + (a + (b + c)) == (("," + a) + b) + c;
  }

  /** Whatever metrics a text ends with, they are taken out, and nothing else. */
  lemma RemovesChain(s: string, m: Chain, tail: string)
    requires Free(s) && IsChain(m) && EndsText(tail) && Free(s + tail)
    ensures RemoveChain(s + ("," + ChainJson(m, tail))) == s + tail
  {
    hide Lacks, NumberLike, EndsText, RemoveField, RemoveNumbers, NumberRest, ObjectRest, ObjectText, ChainJson, FieldText,
      Json.IsWord, Distinct, NoBrace, IsSpace, Numbers, Json.Print, Texts;
    FlatWords();
    FlatKeysDiffer();
    ChainNumbers(m);
    TailHasNoQuote(tail);
    NumbersLack(FLAT_KEYS, Texts(m), tail, "chain_metrics", ObjectRest);
    ObjectTextHasNoBrace(m);
    ObjectIsCut(ObjectText(m), FlatText(m, tail));
    ChainIsField(m, tail);
    OpenStarts(ObjectText(m));
    RemovesField(s, "chain_metrics", "{" + ObjectText(m) + "}", FlatText(m, tail), ObjectRest);
    FreeOfFlat(s);
    RemovesNumbers(s, FLAT_KEYS, Texts(m), tail, SHORT_KEYS);
    FreeOfShort(s + tail);
    RemovesNoNumbers(s + tail, SHORT_KEYS);
  }

  lemma OpenStarts(s: string)
    ensures "{" + s + "}" != "" && !IsSpace(("{" + s + "}")[0])
  {}

  lemma ObjectTextHasNoBrace(m: Chain)
    requires IsChain(m)
    ensures NoBrace(ObjectText(m))
  {
    assert NoBrace("");
    hide NumberLike, Json.IsWord, NoBrace, Texts;
    FlatWords();
    ChainNumbers(m);
    NumbersHaveNoBrace(OBJECT_KEYS, Texts(m), "");
  }

  lemma FreeOfFlat(s: string)
    requires Free(s)
    ensures forall i :: 0 <= i < |FLAT_KEYS| ==> Lacks(s, FLAT_KEYS[i], NumberRest)
  {
    hide Lacks, NumberRest;
    forall i | 0 <= i < |FLAT_KEYS| ensures Lacks(s, FLAT_KEYS[i], NumberRest) {
      assert (FLAT_KEYS + SHORT_KEYS)[i] == FLAT_KEYS[i];
    }
  }

  lemma FreeOfShort(s: string)
    requires Free(s)
    ensures forall i :: 0 <= i < |SHORT_KEYS| ==> Lacks(s, SHORT_KEYS[i], NumberRest)
  {
    hide Lacks, NumberRest;
    forall i | 0 <= i < |SHORT_KEYS| ensures Lacks(s, SHORT_KEYS[i], NumberRest) {
      assert (FLAT_KEYS + SHORT_KEYS)[|FLAT_KEYS| + i] == SHORT_KEYS[i];
    }
  }

  lemma RemovesNoChain(s: string)
    requires Free(s)
    ensures RemoveChain(s) == s
  {
    hide Lacks, NumberRest, ObjectRest, RemoveField, RemoveNumbers;
    RemovesNothing(s, "chain_metrics", ObjectRest);
    RemovesNoNumbers(s, FLAT_KEYS + SHORT_KEYS);
  }

  lemma FreeJoin(s: string, tail: string)
    requires Free(s) && Json.NoQuote(tail)
    ensures Free(s + tail)
  {
    hide Lacks, Json.NoQuote, NumberRest, ObjectRest;
    PlainLacks(tail, "chain_metrics", ObjectRest);
    LacksJoin(s, tail, "chain_metrics", ObjectRest);
    forall i | 0 <= i < |FLAT_KEYS + SHORT_KEYS| ensures Lacks(s + tail, (FLAT_KEYS + SHORT_KEYS)[i], NumberRest) {
      PlainLacks(tail, (FLAT_KEYS + SHORT_KEYS)[i], NumberRest);
      LacksJoin(s, tail, (FLAT_KEYS + SHORT_KEYS)[i], NumberRest);
    }
  }

  lemma PlainLacks(s: string, key: string, value: Pattern)
    requires Json.NoQuote(s)
    ensures Lacks(s, key, value)
  {
    hide Json.NoMatchIn, Json.NoQuote;
    forall rest ensures Json.NoMatchIn(s, rest, key, value) { Json.NoQuoteNoMatch(s, rest, key, value); }
  }

  /** A text that ends as an object with something in it. */
  predicate Filled(s: string) {
    s != "" && s[|s| - 1] != '{'
  }

  lemma BraceEnds()
    ensures EndsText("}")
  {}

  lemma PutBehind(text: string, s: string, m: Chain)
    requires RemoveChain(text) == s + "}" && Filled(s)
    ensures PutChain(text, m) == s + ("," + ChainJson(m, "}"))
  {
    hide RemoveChain, ChainJson;
    assert (s + "}")[|s|] == '}' && (s + "}")[..|s|] == s && (s + "}")[|s|..] == "}";
    assert LastBrace(s + "}") == Some(|s|);
  }

  /** A text with what some stages have put into it, one after the other. */
  function Merged(text: string, ms: seq<Chain>): string {
    if ms == [] then text else PutChain(Merged(text, ms[..|ms| - 1]), ms[|ms| - 1])
  }

  /** Along a chain the metrics never pile up: whatever the stages put in, one after the other,
      the text is the first one with the last one's metrics at its end. */
  lemma {:induction false} MergedHasLastMetrics(s: string, ms: seq<Chain>)
    requires Free(s) && Filled(s) && forall i :: 0 <= i < |ms| ==> IsChain(ms[i])
    ensures Merged(s + "}", ms) == if ms == [] then s + "}" else s + ("," + ChainJson(ms[|ms| - 1], "}"))
  {
    if ms == [] {
    } else {
      hide Free, Filled, IsChain, PutChain, ChainJson, EndsText, RemoveChain;
      var before, last := ms[..|ms| - 1], ms[|ms| - 1];
      MergedHasLastMetrics(s, before);
      BraceEnds();
      TailHasNoQuote("}");
      FreeJoin(s, "}");
      if before == [] {
        RemovesNoChain(s + "}");
      } else {
        RemovesChain(s, before[|before| - 1], "}");
      }
      PutBehind(Merged(s + "}", before), s, last);
    }
  }

  // ----- What a reader makes of it -----

  /** The numbers as entries that no reader asks for. */
  function NumberEntries(keys: seq<string>, texts: seq<string>, before: string): seq<Entry>
    requires |keys| <= |texts|
  {
    if keys == [] then []
    else [Entry(before, Pair(ChainMetric(keys[0]), Nothing), Json.Bare(texts[0]))] + NumberEntries(keys[1..], texts[1..], ",")
  }

  function ChainLayout(m: Chain, before: string): seq<Entry> {
    [Entry(before, Pair(ChainMetric("chain_metrics"), Nothing), OPEN)]
    + (NumberEntries(OBJECT_KEYS, Texts(m), "") + NumberEntries(FLAT_KEYS, Texts(m), "},"))
  }

  lemma {:induction false} NumberFields(number: Printer, keys: seq<string>, texts: seq<string>, before: string)
    requires |keys| <= |texts|
    ensures Fields(number, NumberEntries(keys, texts, before)) == Numbers(keys, texts, before)
    decreases |keys|
  {
    if keys == [] {
    } else {
      NumberFields(number, keys[1..], texts[1..], ",");
      var e := Entry(before, Pair(ChainMetric(keys[0]), Nothing), Json.Bare(texts[0]));
      FieldsCons(number, e, NumberEntries(keys[1..], texts[1..], ","));
    }
  }

  lemma FieldsCons(number: Printer, e: Entry, es: seq<Entry>)
    ensures Fields(number, [e] + es) == [Json.Field(e.before, Name(e.pair.key), Shown(number, e))] + Fields(number, es)
  {
    hide Name, Shown;
    assert ([e] + es)[1..] == es;
  }

  lemma {:induction false} FieldsJoin(number: Printer, a: seq<Entry>, b: seq<Entry>)
    ensures Fields(number, a + b) == Fields(number, a) + Fields(number, b)
    decreases |a|
  {
    hide Name, Shown, Fields;
    if a == [] {
      assert a + b == b;
      NoFields(number);
    } else {
      FieldsJoin(number, a[1..], b);
      assert a + b == [a[0]] + (a[1..] + b) && a == [a[0]] + a[1..];
      FieldsCons(number, a[0], a[1..] + b);
      FieldsCons(number, a[0], a[1..]);
    }
  }

  lemma NoFields(number: Printer)
    ensures Fields(number, []) == []
  {}

  lemma PrintCons(f: Json.Field, fs: seq<Json.Field>, tail: string)
    ensures Json.Print([f] + fs, tail) == f.before + ("\"" + f.key + "\":") + Json.ValueText(f.value) + Json.Print(fs, tail)
  {
    hide Json.ValueText;
    assert ([f] + fs)[1..] == fs;
  }

  lemma {:induction false} PrintJoin(a: seq<Json.Field>, b: seq<Json.Field>, tail: string)
    ensures Json.Print(a + b, tail) == Json.Print(a, "") + Json.Print(b, tail)
    decreases |a|
  {
    hide *;
    if a == [] {
      assert a + b == b;
      PrintNothing();
      assert "" + Json.Print(b, tail) == Json.Print(b, tail);
    } else {
      PrintJoin(a[1..], b, tail);
      assert a + b == [a[0]] + (a[1..] + b) && a == [a[0]] + a[1..];
      PrintCons(a[0], a[1..] + b, tail);
      PrintCons(a[0], a[1..], "");
      var head := a[0].before + ("\"" + a[0].key + "\":") + Json.ValueText(a[0].value);
      assert head + (Json.Print(a[1..], "") + Json.Print(b, tail)) == (head + Json.Print(a[1..], "")) + Json.Print(b, tail);
    }
  }

  lemma PrintNothing()
    ensures Json.Print([], "") == ""
  {}

  lemma PrintTail(a: seq<Json.Field>, tail: string)
    ensures Json.Print(a, tail) == Json.Print(a, "") + tail
  {
    PrintJoin(a, [], tail);
    assert a + [] == a;
  }

  /** The layout prints what the stage puts in. */
  lemma LayoutPrints(number: Printer, m: Chain, close: string, tail: string)
    ensures Printed(number, ChainLayout(m, close + ","), tail) == close + ("," + ChainJson(m, tail))
  {
    assert |OBJECT_KEYS| <= |Texts(m)| && |FLAT_KEYS| <= |Texts(m)|;
    hide Json.Print, Numbers, NumberEntries, Texts, Fields, Printed;
    var inner, flat := NumberEntries(OBJECT_KEYS, Texts(m), ""), NumberEntries(FLAT_KEYS, Texts(m), "},");
    var e := Entry(close + ",", Pair(ChainMetric("chain_metrics"), Nothing), OPEN);
    PrintedUnfolds(number, [e] + (inner + flat), tail);
    FieldsCons(number, e, inner + flat);
    FieldsJoin(number, inner, flat);
    NumberFields(number, OBJECT_KEYS, Texts(m), "");
    NumberFields(number, FLAT_KEYS, Texts(m), "},");
    var f := Json.Field(close + ",", "chain_metrics", OPEN);
    PrintCons(f, Fields(number, inner + flat), tail);
    PrintJoin(Numbers(OBJECT_KEYS, Texts(m), ""), Numbers(FLAT_KEYS, Texts(m), "},"), tail);
    BraceFirst(FLAT_KEYS, Texts(m), tail);
    Pieces(close, ObjectText(m), FlatText(m, tail));
  }

  lemma PrintedUnfolds(number: Printer, es: seq<Entry>, tail: string)
    ensures Printed(number, es, tail) == Json.Print(Fields(number, es), tail)
  {}

  lemma BraceFirst(keys: seq<string>, texts: seq<string>, tail: string)
    requires |keys| <= |texts| && keys != []
    ensures Json.Print(Numbers(keys, texts, "},"), tail) == "}" + Json.Print(Numbers(keys, texts, ","), tail)
  {
    OneNumber(keys, texts, "},", tail);
    OneNumber(keys, texts, ",", tail);
    hide Json.Print, Numbers;
    var more := Json.Print(Numbers(keys[1..], texts[1..], ","), tail);
    var k := "\"" + keys[0] + "\":";
    assert "}," == "}" + ",";
    assert "}," + k + texts[0] + more == "}" + ("," + k + texts[0] + more);
  }

  lemma Pieces(close: string, inner: string, flat: string)
    ensures (close + ",") + ("\"" + "chain_metrics" + "\":") + "{" + (inner + ("}" + flat))
         == close + ("," + ("\"chain_metrics\":" + ("{" + inner + "}" + flat)))
  {
    assert "\"" + "chain_metrics" + "\":" == "\"chain_metrics\":";
  }

  lemma MetricNames()
    ensures Unasked("chain_metrics") && Unasked("chain_compute_time_ms") && Unasked("chain_rpc_wall_time_ms")
    ensures Unasked("chain_true_comm_ms")
  {}

  lemma MoreMetricNames()
    ensures Unasked("chain_transport_payload_bytes") && Unasked("chain_stage_count") && Unasked("chain_hops")
    ensures Unasked("compute_ms")
  {}

  lemma ObjectNames()
    ensures Unasked("rpc_wall_ms") && Unasked("true_comm_ms") && Unasked("transport_payload_bytes") && Unasked("stage_count")
  {}

  ghost predicate AllUnasked(names: seq<string>) {
    forall i :: 0 <= i < |names| ==> Unasked(names[i])
  }

  lemma NamesAreUnasked()
    ensures AllUnasked(OBJECT_KEYS) && AllUnasked(FLAT_KEYS) && Unasked("chain_metrics")
  {
    hide Unasked;
    MetricNames();
    MoreMetricNames();
    ObjectNames();
  }

  lemma ChainKeyIsProper(name: string)
    requires Unasked(name)
    ensures ProperKey(ChainMetric(name))
  {
    hide Unasked;
    UnaskedIsProper(ChainMetric(name));
  }

  lemma NumberIsLaid(number: Printer, e: Entry, next: string)
    requires e.pair.value.Nothing? && e.pair.key.ChainMetric? && e.filler.Bare?
    requires e.filler == OPEN || NumberLike(e.filler.text)
    ensures ProperValue(number, e, next)
  {
    if e.filler == OPEN {
      assert OPEN.text[0] == '{';
    } else {
      NumberTextIsPlain(e.filler.text);
    }
    hide NumberLike;
  }

  lemma {:induction false} NumbersAreLaid(number: Printer, keys: seq<string>, texts: seq<string>, before: string, tail: string)
    requires |keys| <= |texts| && AreNumbers(texts) && AllUnasked(keys) && Json.NoQuote(before) && Json.NoQuote(tail)
    ensures Laid(number, NumberEntries(keys, texts, before), tail)
    ensures Pairs(NumberEntries(keys, texts, before)) == ChainEntries(keys)
    decreases |keys|
  {
    assert Json.NoQuote(",");
    hide Json.NoQuote, NumberLike, Unasked, ProperKey, ProperValue;
    if keys == [] {
    } else {
      var es := NumberEntries(keys[1..], texts[1..], ",");
      NumbersAreLaid(number, keys[1..], texts[1..], ",", tail);
      ChainKeyIsProper(keys[0]);
      var e := Entry(before, Pair(ChainMetric(keys[0]), Nothing), Json.Bare(texts[0]));
      NumberIsLaid(number, e, Next(es, tail));
      hide Laid, Pairs;
      LaidConsNext(number, e, es, tail);
    }
  }

  lemma {:induction false} EntriesJoin(a: seq<string>, b: seq<string>)
    ensures ChainEntries(a + b) == ChainEntries(a) + ChainEntries(b)
    decreases |a|
  {
    if a == [] {
      assert a + b == b;
    } else {
      assert (a + b)[1..] == a[1..] + b;
      EntriesJoin(a[1..], b);
    }
  }

  const METRIC_NAMES := ["chain_metrics"] + (OBJECT_KEYS + FLAT_KEYS)

  lemma LayoutIsLaid(number: Printer, m: Chain, before: string, tail: string)
    requires IsChain(m) && Json.NoQuote(before) && Json.NoQuote(tail)
    ensures Laid(number, ChainLayout(m, before), tail) && Pairs(ChainLayout(m, before)) == ChainEntries(METRIC_NAMES)
  {
    assert |OBJECT_KEYS| <= |Texts(m)| && 0 < |FLAT_KEYS| <= |Texts(m)|;
    assert Json.NoQuote("},") && Json.NoQuote("");
    hide *;
    NamesAreUnasked();
    ChainNumbers(m);
    var a, b := NumberEntries(OBJECT_KEYS, Texts(m), ""), NumberEntries(FLAT_KEYS, Texts(m), "},");
    NextNumber(FLAT_KEYS, Texts(m), "},", tail);
    NumbersAreLaid(number, FLAT_KEYS, Texts(m), "},", tail);
    NumbersAreLaid(number, OBJECT_KEYS, Texts(m), "", "},");
    LaidJoin(number, a, b, tail);
    EntriesJoin(OBJECT_KEYS, FLAT_KEYS);
    OpenIsLaid(number, before, a + b, tail);
    LayoutUnfolds(m, before);
    EntriesJoin(["chain_metrics"], OBJECT_KEYS + FLAT_KEYS);
    OneEntry("chain_metrics");
  }

  lemma NextNumber(keys: seq<string>, texts: seq<string>, before: string, tail: string)
    requires 0 < |keys| <= |texts|
    ensures Next(NumberEntries(keys, texts, before), tail) == before
  {}

  lemma LayoutUnfolds(m: Chain, before: string)
    ensures |OBJECT_KEYS| <= |Texts(m)| && |FLAT_KEYS| <= |Texts(m)|
    ensures ChainLayout(m, before) == [Entry(before, Pair(ChainMetric("chain_metrics"), Nothing), OPEN)]
      + (NumberEntries(OBJECT_KEYS, Texts(m), "") + NumberEntries(FLAT_KEYS, Texts(m), "},"))
    ensures METRIC_NAMES == ["chain_metrics"] + (OBJECT_KEYS + FLAT_KEYS)
  {
    hide NumberEntries;
  }

  lemma OpenIsLaid(number: Printer, before: string, es: seq<Entry>, tail: string)
    requires Json.NoQuote(before) && Unasked("chain_metrics") && Laid(number, es, tail)
    ensures var e := Entry(before, Pair(ChainMetric("chain_metrics"), Nothing), OPEN);
      Laid(number, [e] + es, tail) && Pairs([e] + es) == [Pair(ChainMetric("chain_metrics"), Nothing)] + Pairs(es)
  {
    hide Json.NoQuote, Unasked, Laid, Pairs, ProperKey, ProperValue;
    var e := Entry(before, Pair(ChainMetric("chain_metrics"), Nothing), OPEN);
    ChainKeyIsProper("chain_metrics");
    NumberIsLaid(number, e, Next(es, tail));
    LaidConsNext(number, e, es, tail);
  }

  lemma OneEntry(name: string)
    ensures ChainEntries([name]) == [Pair(ChainMetric(name), Nothing)]
  {
    assert [name][1..] == [];
  }

  /** A list without chain metrics. */
  predicate Unmerged(m: seq<Pair>) {
    forall i :: 0 <= i < |m| ==> !m[i].key.ChainMetric?
  }

  lemma {:induction false} NothingToTakeOut(m: seq<Pair>)
    requires Unmerged(m)
    ensures WithoutChainMetrics(m) == m
    decreases |m|
  {
    if m == [] {
    } else {
      NothingToTakeOut(m[1..]);
    }
  }

  lemma SameFirsts(m: seq<Pair>, names: seq<string>, k: Key)
    ensures First(MergeChainMetrics(m, names), k) == First(m, k)
  {
    hide First, WithoutChainMetrics, ChainEntries;
    ChainEntriesUnread(names, k);
    FirstWithout(m, ChainEntries(names), k);
  }

  lemma MergedDecodes(nm: Numerics, d: Doubles, number: Printer, m: seq<Pair>, names: seq<string>)
    requires ListDecodes(nm, d, number, m)
    ensures ListDecodes(nm, d, number, MergeChainMetrics(m, names))
  {
    hide First, MergeChainMetrics, Decodes;
    forall k | First(MergeChainMetrics(m, names), k).Some?
      ensures Decodes(nm, d, number, k, First(MergeChainMetrics(m, names), k).value)
    {
      SameFirsts(m, names, k);
    }
  }

  /** Another end behind the same entries. */
  lemma {:induction false} LaidBefore(number: Printer, es: seq<Entry>, tail: string, other: string)
    requires Laid(number, es, tail) && Json.NoQuote(other) && EndsNumber(other)
    ensures Laid(number, es, other)
    decreases |es|
  {
    hide ProperKey, NumberLike, Json.NoQuote, JsonText.Unrestorable;
    if es == [] {
    } else {
      LaidBefore(number, es[1..], tail, other);
    }
  }

  predicate IsMetricName(name: string) {
    name == "chain_metrics" || name in FLAT_KEYS || name in SHORT_KEYS
  }

  /** No entry has a chain metric's name. */
  predicate Unmetred(m: seq<Pair>) {
    forall i :: 0 <= i < |m| ==> !m[i].key.ChainMetric? && !IsMetricName(Name(m[i].key))
  }

  lemma {:induction false} PairsAre(es: seq<Entry>)
    ensures |Pairs(es)| == |es| && forall i :: 0 <= i < |es| ==> Pairs(es)[i] == es[i].pair
    decreases |es|
  {
    if es == [] {
    } else {
      PairsAre(es[1..]);
    }
  }

  lemma {:induction false} FieldsHaveNames(number: Printer, es: seq<Entry>)
    ensures |Fields(number, es)| == |es| && forall i :: 0 <= i < |es| ==> Fields(number, es)[i].key == Name(es[i].pair.key)
    decreases |es|
  {
    hide Name, Shown;
    if es == [] {
    } else {
      FieldsHaveNames(number, es[1..]);
    }
  }

  lemma LayoutHasNot(number: Printer, es: seq<Entry>, key: string)
    requires Unmetred(Pairs(es)) && IsMetricName(key)
    ensures HasNot(Fields(number, es), key)
  {
    hide Name, Fields, Pairs, IsMetricName;
    PairsAre(es);
    FieldsHaveNames(number, es);
    forall i | 0 <= i < |Fields(number, es)| ensures Fields(number, es)[i].key != key {
      assert Pairs(es)[i] == es[i].pair;
    }
  }

  lemma LayoutIsFree(number: Printer, es: seq<Entry>, tail: string)
    requires Laid(number, es, tail) && Unmetred(Pairs(es))
    ensures Free(Printed(number, es, tail))
  {
    hide Laid, Json.WellPrinted, Fields, Pairs, Unmetred, HasNot, Lacks, Json.IsWord, Json.Print;
    LaidIsWellPrinted(number, es, tail);
    FlatWords();
    LayoutHasNot(number, es, "chain_metrics");
    PrintedLacks(Fields(number, es), tail, "chain_metrics", ObjectRest);
    forall i | 0 <= i < |FLAT_KEYS + SHORT_KEYS|
      ensures Lacks(Printed(number, es, tail), (FLAT_KEYS + SHORT_KEYS)[i], NumberRest)
    {
      var key := (FLAT_KEYS + SHORT_KEYS)[i];
      LayoutHasNot(number, es, key);
      PrintedLacks(Fields(number, es), tail, key, NumberRest);
    }
  }

  lemma LayoutIsFilled(number: Printer, es: seq<Entry>, close: string)
    requires Filled(close)
    ensures Filled(Printed(number, es, close)) && Printed(number, es, close + "}") == Printed(number, es, close) + "}"
  {
    hide Json.Print, Fields;
    PrintTail(Fields(number, es), close);
    PrintTail(Fields(number, es), close + "}");
  }

  lemma EndsLonger(close: string, more: string)
    requires EndsNumber(close)
    ensures EndsNumber(close + more)
  {}

  lemma QuotesJoin(a: string, b: string)
    requires Json.NoQuote(a) && Json.NoQuote(b)
    ensures Json.NoQuote(a + b)
  {}

  lemma MergedIsLaid(number: Printer, es: seq<Entry>, close: string, m: Chain)
    requires Laid(number, es, close) && EndsNumber(close) && Json.NoQuote(close) && Unmetred(Pairs(es)) && IsChain(m)
    ensures var merged := es + ChainLayout(m, close + ",");
      Laid(number, merged, "}") && Pairs(merged) == MergeChainMetrics(Pairs(es), METRIC_NAMES)
  {
    assert Unmerged(Pairs(es));
    hide *;
    PunctuationEnds();
    EndsLonger(close, ",");
    QuotesJoin(close, ",");
    LaidBefore(number, es, close, close + ",");
    LayoutIsLaid(number, m, close + ",", "}");
    LayoutStarts(m, close + ",");
    LaidJoin(number, es, ChainLayout(m, close + ","), "}");
    NothingToTakeOut(Pairs(es));
    MergeUnfolds(Pairs(es));
  }

  /** The merged text prints the merged list. */
  lemma MergedPrints(number: Printer, es: seq<Entry>, close: string, m: Chain)
    ensures Printed(number, es + ChainLayout(m, close + ","), "}") == Printed(number, es, close) + ("," + ChainJson(m, "}"))
  {
    hide *;
    var layout := ChainLayout(m, close + ",");
    FieldsJoin(number, es, layout);
    PrintJoin(Fields(number, es), Fields(number, layout), "}");
    PrintTail(Fields(number, es), close);
    LayoutPrints(number, m, close, "}");
    PrintedUnfolds(number, es + layout, "}");
    PrintedUnfolds(number, layout, "}");
    PrintedUnfolds(number, es, close);
    Regroup(Json.Print(Fields(number, es), ""), close, "," + ChainJson(m, "}"));
  }

  lemma Regroup(a: string, b: string, c: string)
    ensures a + (b + c) == (a + b) + c
  {}

  lemma LayoutStarts(m: Chain, before: string)
    ensures forall tail :: Next(ChainLayout(m, before), tail) == before
  {
    hide NumberEntries;
  }

  lemma MergeUnfolds(m: seq<Pair>)
    ensures MergeChainMetrics(m, METRIC_NAMES) == WithoutChainMetrics(m) + ChainEntries(METRIC_NAMES)
  {}

  /** A stage's text that has come back along a chain ends with the last stage's metrics only,
      and its reader understands what it would have understood without any. */
  lemma MergedTextIsRead(nm: Numerics, d: Doubles, number: Printer, es: seq<Entry>, close: string, ms: seq<Chain>)
    requires Laid(number, es, close) && EndsNumber(close) && Json.NoQuote(close) && Filled(close) && Unmetred(Pairs(es))
    requires ListDecodes(nm, d, number, Pairs(es)) && forall i :: 0 <= i < |ms| ==> IsChain(ms[i])
    ensures var text := Merged(Printed(number, es, close + "}"), ms);
      && text == (if ms == [] then Printed(number, es, close + "}")
                  else Printed(number, es, close) + ("," + ChainJson(ms[|ms| - 1], "}")))
      && ParseText(d, text) == Ok(Parse(nm, Pairs(es)))
  {
    hide *;
    LayoutIsFree(number, es, close);
    LayoutIsFilled(number, es, close);
    MergedHasLastMetrics(Printed(number, es, close), ms);
    if ms == [] {
      PunctuationEnds();
      EndsLonger(close, "}");
      QuotesJoin(close, "}");
      LaidBefore(number, es, close, close + "}");
      TextIsParsed(nm, d, number, es, close + "}");
    } else {
      var m := ms[|ms| - 1];
      MergedIsLaid(number, es, close, m);
      MergedPrints(number, es, close, m);
      MergedDecodes(nm, d, number, Pairs(es), METRIC_NAMES);
      TextIsParsed(nm, d, number, es + ChainLayout(m, close + ","), "}");
      MergeKeepsMeaning(nm, Pairs(es), METRIC_NAMES);
    }
  }

  // ----- A stage's own text -----

  lemma MetricNameStarts(name: string)
    requires IsMetricName(name)
    ensures name != "" && name[0] == 'c' && |name| != 15
  {}

  predicate StartsOtherwise(s: string) {
    s != "" && s[0] != 'c'
  }

  lemma TextNameStarts(k: Key)
    requires KindOf(k) == IsText
    ensures StartsOtherwise(Name(k))
  {}

  lemma OtherNameStarts(k: Key)
    requires IsReadable(k) && KindOf(k) != IsText
    ensures StartsOtherwise(Name(k))
  {}

  lemma ListedIsUnmetred(m: seq<Pair>)
    requires AllListed(m)
    ensures Unmetred(m)
  {
    hide IsMetricName, Unasked, Name;
    forall i | 0 <= i < |m| ensures !m[i].key.ChainMetric? && !IsMetricName(Name(m[i].key)) {
      assert Listed(m[i]);
      if !IsReadable(m[i].key) {
        NameOfSkipped(m[i].key);
      } else if KindOf(m[i].key) == IsText {
        TextNameStarts(m[i].key);
      } else {
        OtherNameStarts(m[i].key);
      }
      if IsMetricName(Name(m[i].key)) { MetricNameStarts(Name(m[i].key)); }
    }
  }

  lemma NameOfSkipped(k: Key)
    requires k.Unread?
    ensures Name(k) == k.name
  {}

  lemma StageIsUnmetred(nm: Numerics, p: Parsed, r: Reply)
    requires Unmetred(r.backend)
    ensures Unmetred(StageMeta(nm, p, r))
  {
    hide AllListed, AllSkippable, StageMeta, StageTop, SkippedAll, IsMetricName, Name;
    StageSplits(nm, p, r);
    TopIsListed(nm, p, r);
    MetricKeys();
    SkippedAreListed(METRIC_KEYS);
    ListedIsUnmetred(StageTop(nm, p, r));
    ListedIsUnmetred(SkippedAll(METRIC_KEYS));
  }

  /** Through any chain of stages, the text that the last stage printed is still parsed into
      what it was printed from. */
  lemma MergedStageIsRead(nm: Numerics, d: Doubles, number: Printer, p: Parsed, r: Reply, own: Key -> Json.Value,
                          metric: Key -> Json.Value, backend: seq<Entry>, close: string, ms: seq<Chain>)
    requires AllPrintable(number, StageTop(nm, p, r)) && ListDecodes(nm, d, number, StageMeta(nm, p, r))
    requires forall k :: Plain(own(k)) && Plain(metric(k))
    requires Laid(number, backend, close) && Pairs(backend) == r.backend && Unmetred(r.backend)
    requires EndsNumber(close) && Json.NoQuote(close) && Filled(close) && forall i :: 0 <= i < |ms| ==> IsChain(ms[i])
    ensures ParseText(d, Merged(StageText(nm, number, p, r, own, metric, backend, close), ms)) == Ok(Onward(nm, p, r))
  {
    hide Laid, Printed, ParseText, StageTop, StageLayout, StageMeta, Plain, Pairs, ListDecodes, AllPrintable, Merged, Unmetred,
      EndsNumber, Json.NoQuote, Filled, IsChain, ChainJson, Parse, Onward;
    StageIsLaid(nm, number, p, r, own, metric, backend, close);
    StageIsUnmetred(nm, p, r);
    MergedTextIsRead(nm, d, number, StageLayout(nm, p, r, own, metric, backend), close, ms);
    StageMetaIsRead(nm, p, r);
  }
}
