/** Frame metadata as text: the patterns that read it, and that on a printed list of keys and
    values each of them finds what the list's first match says. */
module MetadataText {
  import opened Basics
  import opened Decimal
  import Json = JsonFields
  import JsonText
  import opened Metadata

  // ----- What the patterns accept -----

  /** `-?\d+` */
  function IntText(s: string): (r: Option<string>)
    ensures r.Some? ==> 0 < |r.value| <= |s|
  {
    var n := if s != "" && s[0] == '-' then 1 else 0;
    var k := DigitRun(s[n..]);
    if k == 0 then None else Some(s[..n + k])
  }

  /** How far `(?:[eE][+-]?\d+)?` reads. */
  function Exponent(s: string): (n: nat)
    ensures n <= |s|
  {
    if s == "" || (s[0] != 'e' && s[0] != 'E') then 0
    else
      var n := if |s| > 1 && (s[1] == '+' || s[1] == '-') then 2 else 1;
      var k := DigitRun(s[n..]);
      if k == 0 then 0 else n + k
  }

  /** How far `\d+\.?\d*|\.\d+` reads; 0 for nothing. */
  function Mantissa(s: string): (n: nat)
    ensures n <= |s|
  {
    var k := DigitRun(s);
    if k < |s| && s[k] == '.' then
      var more := DigitRun(s[k + 1..]);
      if k == 0 && more == 0 then 0 else k + 1 + more
    else k
  }

  /** `-?(?:\d+\.?\d*|\.\d+)(?:[eE][+-]?\d+)?` */
  function DoubleText(s: string): Option<string> {
    var n := if s != "" && s[0] == '-' then 1 else 0;
    var m := Mantissa(s[n..]);
    if m == 0 then None else Some(s[..n + m + Exponent(s[n + m..])])
  }

  function UpToBracket(s: string): Option<string> {
    if s == "" then None
    else if s[0] == ']' then Some("")
    else match UpToBracket(s[1..]) case None => None case Some(t) => Some([s[0]] + t)
  }

  /** The text that each kind of pattern captures. */
  function Captured(kind: Kind, s: string): Option<string> {
    match kind
    case IsText =>
      if s == "" || s[0] != '"' then None
      else (match JsonText.ScanString(s[1..]) case None => None case Some(m) => Some(m.0))
    case IsWhole => IntText(s)
    case IsNumber => DoubleText(s)
    case IsFlag => if "true" <= s then Some("true") else if "false" <= s then Some("false") else None
    case IsDims => if s == "" || s[0] != '[' then None else UpToBracket(s[1..])
    case IsUnread => None
  }

  function Pattern(kind: Kind): string -> Option<string> {
    s => Captured(kind, s)
  }

  function Name(k: Key): string {
    match k
    case RequestId => "request_id" case Rid => "rid" case TokenIndex => "token_index" case Ti => "ti"
    case NextTokenId => "next_token_id" case Nt => "nt" case GenerationMode => "generation_mode" case Gm => "gm"
    case Precision => "activation_precision" case Ap => "ap" case Transport => "transport_mode" case Tm => "tm"
    case Rebalance => "rebalance_profile" case Sessions => "persistent_sessions_enabled" case Ps => "ps"
    case Topology => "topology_aware_routing" case Level => "metadata_level" case Ml => "ml"
    case Chaining => "native_stage_chaining_enabled" case Nsc => "nsc" case Dtype => "dtype" case Dt => "dt"
    case ByteOrder => "byte_order" case Bo => "bo" case Shape => "shape" case Sh => "sh"
    case KvCache => "kv_cache_enabled" case Kv => "kv" case Temperature => "temperature" case TopK => "top_k"
    case TopP => "top_p" case Seed => "seed"
    case ChainMetric(name) => name
    case Unread(name) => name
  }

  /** The names that the pattern for a key lists. */
  function Names(k: Key): seq<string> {
    if k == Shape then [Name(Shape), Name(Sh)] else [Name(k)]
  }

  /** What a reader's search for a key captures in a text. */
  function SearchText(json: string, k: Key): Option<string> {
    Json.Search(json, Names(k), Pattern(KindOf(k)))
  }

  // ----- A printed list -----

  /** An entry with the punctuation before it; `filler` is what stands for a value that is
      not modelled. */
  datatype Entry = Entry(before: string, pair: Pair, filler: Json.Value)

  function Joined(dims: seq<int>): string {
    if dims == [] then ""
    else if |dims| == 1 then ToString(dims[0])
    else ToString(dims[0]) + ("," + Joined(dims[1..]))
  }

  /** How the double of a key is printed: as an ostream does, or as to_string does. */
  type Printer = (Key, real) -> string

  function Shown(number: Printer, e: Entry): Json.Value {
    match e.pair.value
    case Text(t) => Json.Quoted(t)
    case Whole(i) => Json.Bare(ToString(i))
    case Number(x) => Json.Bare(number(e.pair.key, x))
    case Flag(on) => Json.Bare(if on then "true" else "false")
    case Dims(dims) => Json.Bare("[" + Joined(dims) + "]")
    case Nothing => e.filler
  }

  function Fields(number: Printer, es: seq<Entry>): seq<Json.Field> {
    if es == [] then []
    else [Json.Field(es[0].before, Name(es[0].pair.key), Shown(number, es[0]))] + Fields(number, es[1..])
  }

  function Pairs(es: seq<Entry>): seq<Pair> {
    if es == [] then [] else [es[0].pair] + Pairs(es[1..])
  }

  function Printed(number: Printer, es: seq<Entry>, tail: string): string {
    Json.Print(Fields(number, es), tail)
  }

  predicate IsNumberChar(c: char) {
    IsDigit(c) || c == '.' || c == 'e' || c == 'E' || c == '+' || c == '-'
  }

  /** A double's text: one number, which starts with a digit, after a minus or not. */
  predicate NumberLike(t: string) {
    && t != "" && (forall i :: 0 <= i < |t| ==> IsNumberChar(t[i]))
    && IntText(t).Some? && DoubleText(t) == Some(t)
  }

  predicate EndsNumber(next: string) {
    Json.EndsValue(next) && !IsNumberChar(next[0])
  }

  predicate IsReadable(k: Key) {
    !k.Unread? && !k.ChainMetric?
  }

  ghost predicate ProperKey(k: Key) {
    IsReadable(k) || (Json.NoQuote(Name(k)) && forall q: Key :: IsReadable(q) ==> Name(q) != Name(k))
  }

  /** A printed value and what follows it. A readable key without a value has a null. */
  predicate ProperValue(number: Printer, e: Entry, next: string) {
    match e.pair.value
    case Text(t) => EndsNumber(next) && forall j :: 0 <= j < |t| ==> !JsonText.Unrestorable(t[j])
    case Number(x) => EndsNumber(next) && NumberLike(number(e.pair.key, x))
    case Nothing =>
      if IsReadable(e.pair.key) then e.filler == Json.Bare("null")
      else if e.filler.Quoted? then Json.EndsValue(next)
      else e.filler.text != "" && Json.NoQuote(e.filler.text) && !IsSpace(e.filler.text[0])
    case _ => EndsNumber(next)
  }

  ghost predicate Laid(number: Printer, es: seq<Entry>, tail: string) {
    if es == [] then Json.NoQuote(tail)
    else
      && Json.NoQuote(es[0].before) && ProperKey(es[0].pair.key)
      && ProperValue(number, es[0], if |es| > 1 then es[1].before else tail)
      && Laid(number, es[1..], tail)
  }

  /** What is captured of a key's value. */
  function CapturedOf(number: Printer, k: Key, v: Value): Option<string> {
    if !Fits(KindOf(k), v) then None
    else match v
      case Text(t) => Some(JsonText.Escape(t))
      case Whole(i) => Some(ToString(i))
      case Number(x) => if KindOf(k) == IsWhole then IntText(number(k, x)) else Some(number(k, x))
      case Flag(on) => Some(if on then "true" else "false")
      case Dims(dims) => Some(Joined(dims))
      case Nothing => None
  }

  // ----- The patterns on printed values -----

  lemma {:induction false} DigitRunStops(s: string, rest: string)
    requires rest == "" || !IsDigit(rest[0])
    ensures DigitRun(s + rest) == DigitRun(s)
  {
    if s == "" {
      assert s + rest == rest;
    } else {
      assert (s + rest)[1..] == s[1..] + rest;
      DigitRunStops(s[1..], rest);
    }
  }

  lemma IntTextStops(s: string, rest: string)
    requires s != "" && (rest == "" || !IsDigit(rest[0]))
    ensures IntText(s + rest) == IntText(s)
  {
    var n := if s[0] == '-' then 1 else 0;
    assert (s + rest)[n..] == s[n..] + rest;
    DigitRunStops(s[n..], rest);
    var k := DigitRun(s[n..]);
    assert (s + rest)[..n + k] == s[..n + k];
  }

  lemma ExponentStops(s: string, rest: string)
    requires rest == "" || !IsNumberChar(rest[0])
    ensures Exponent(s + rest) == Exponent(s)
  {
    if s == "" {
      assert s + rest == rest;
    } else if s[0] == 'e' || s[0] == 'E' {
      var n := if |s| > 1 && (s[1] == '+' || s[1] == '-') then 2 else 1;
      assert |s| == 1 && rest != "" ==> (s + rest)[1] == rest[0];
      assert (s + rest)[n..] == s[n..] + rest;
      DigitRunStops(s[n..], rest);
    }
  }

  lemma MantissaStops(s: string, rest: string)
    requires rest == "" || !IsNumberChar(rest[0])
    ensures Mantissa(s + rest) == Mantissa(s)
  {
    DigitRunStops(s, rest);
    var k := DigitRun(s);
    if k < |s| {
      assert (s + rest)[k + 1..] == s[k + 1..] + rest;
      DigitRunStops(s[k + 1..], rest);
    } else if rest != "" {
      assert (s + rest)[k] == rest[0];
    }
  }

  lemma DoubleTextStops(s: string, rest: string)
    requires s != "" && (rest == "" || !IsNumberChar(rest[0]))
    ensures DoubleText(s + rest) == DoubleText(s)
  {
    hide Mantissa, Exponent;
    var n := if s[0] == '-' then 1 else 0;
    assert (s + rest)[n..] == s[n..] + rest;
    MantissaStops(s[n..], rest);
    var m := n + Mantissa(s[n..]);
    assert (s + rest)[m..] == s[m..] + rest;
    ExponentStops(s[m..], rest);
    var e := Exponent(s[m..]);
    assert (s + rest)[..m + e] == s[..m + e];
  }

  /** A printed int, and how the number patterns read it. */
  lemma PrintedInt(i: int)
    ensures var t := ToString(i);
      && t != "" && (t[0] == '-' || IsDigit(t[0])) && (forall j :: 0 <= j < |t| ==> IsDigit(t[j]) || t[j] == '-')
      && IntText(t) == Some(t) && DoubleText(t) == Some(t)
  {
    hide Digits;
    var t, n := ToString(i), if i < 0 then 1 else 0;
    var digits := Digits(if i < 0 then -i else i);
    DigitsAreDigits(if i < 0 then -i else i);
    DigitRunAll(digits);
    assert t[n..] == digits && t[..|t|] == t && t[|t|..] == "";
    assert t[0] == '-' <==> i < 0;
  }

  lemma {:induction false} BracketFound(s: string, rest: string)
    requires ']' !in s
    ensures UpToBracket(s + "]" + rest) == Some(s)
  {
    if s == "" {
      assert s + "]" + rest == "]" + rest;
    } else {
      assert (s + "]" + rest)[1..] == s[1..] + "]" + rest;
      BracketFound(s[1..], rest);
      assert [s[0]] + s[1..] == s;
    }
  }

  lemma {:induction false} JoinedChars(dims: seq<int>)
    ensures forall j :: 0 <= j < |Joined(dims)| ==> IsDigit(Joined(dims)[j]) || Joined(dims)[j] == '-' || Joined(dims)[j] == ','
  {
    if dims == [] {
    } else {
      PrintedInt(dims[0]);
      if |dims| > 1 { JoinedChars(dims[1..]); }
      hide ToString;
    }
  }

  /** What each pattern captures of a printed value. */
  lemma ValueIsCaptured(number: Printer, e: Entry, next: string, more: string, k: Key)
    requires ProperValue(number, e, next) && next <= more && IsReadable(e.pair.key) && (e.pair.key == k || k == Shape)
    ensures Captured(KindOf(k), Json.ValueText(Shown(number, e)) + more) == CapturedOf(number, k, e.pair.value)
  {
    var v, kind := e.pair.value, KindOf(k);
    assert kind == IsWhole || kind == IsNumber ==> k != Shape;
    hide KindOf, Captured, ToString, Joined, IntText, DoubleText, JsonText.Escape, JsonText.Unrestorable, IsNumberChar;
    if v.Nothing? {
      NullIsRefused(more, kind);
    } else {
      assert more[0] == next[0];
      match v
      case Text(t) => TextIsCaptured(t, more, kind);
      case Whole(i) => IntIsCaptured(i, more, kind);
      case Number(x) => NumberIsCaptured(number(e.pair.key, x), more, kind);
      case Flag(on) => FlagIsCaptured(on, more, kind);
      case Dims(dims) => DimsAreCaptured(dims, more, kind);
    }
  }

  lemma NullIsRefused(more: string, kind: Kind)
    ensures Captured(kind, "null" + more).None?
  {
    var s := "null" + more;
    assert s[0] == 'n' && s[0..] == s;
  }

  lemma TextIsCaptured(t: string, more: string, kind: Kind)
    ensures Captured(kind, Json.ValueText(Json.Quoted(t)) + more) == if kind == IsText then Some(JsonText.Escape(t)) else None
  {
    hide JsonText.Escape, JsonText.ScanString, UpToBracket, Exponent;
    var s := "\"" + (JsonText.Escape(t) + "\"" + more);
    assert Json.ValueText(Json.Quoted(t)) + more == s;
    assert s[0] == '"' && s[0..] == s && s[1..] == JsonText.Escape(t) + "\"" + more;
    JsonText.ScanStopsAtClosingQuote(t, more);
  }

  lemma IntIsCaptured(i: int, more: string, kind: Kind)
    requires more != "" && !IsNumberChar(more[0])
    ensures Captured(kind, ToString(i) + more) == if kind == IsWhole || kind == IsNumber then Some(ToString(i)) else None
  {
    var s := ToString(i) + more;
    PrintedInt(i);
    assert s[0] == ToString(i)[0];
    hide ToString, IntText, DoubleText;
    IntTextStops(ToString(i), more);
    DoubleTextStops(ToString(i), more);
  }

  lemma NumberIsCaptured(t: string, more: string, kind: Kind)
    requires NumberLike(t) && more != "" && !IsNumberChar(more[0])
    ensures Captured(kind, t + more) == if kind == IsWhole then IntText(t) else if kind == IsNumber then Some(t) else None
  {
    var s := t + more;
    assert s[0] == t[0] && IsNumberChar(t[0]);
    assert t[0] == 'e' ==> t[0..] == t;
    IntTextStops(t, more);
    DoubleTextStops(t, more);
    hide IntText, DoubleText;
  }

  lemma FlagIsCaptured(on: bool, more: string, kind: Kind)
    ensures Captured(kind, (if on then "true" else "false") + more) ==
      if kind == IsFlag then Some(if on then "true" else "false") else None
  {
    var s := (if on then "true" else "false") + more;
    assert s[0] == (if on then 't' else 'f') && s[0..] == s;
    assert on ==> "true" <= s;
    assert !on ==> "false" <= s;
  }

  lemma DimsAreCaptured(dims: seq<int>, more: string, kind: Kind)
    ensures Captured(kind, "[" + Joined(dims) + "]" + more) == if kind == IsDims then Some(Joined(dims)) else None
  {
    var s := "[" + Joined(dims) + "]" + more;
    JoinedChars(dims);
    assert s[0] == '[' && s[0..] == s && s[1..] == Joined(dims) + "]" + more;
    BracketFound(Joined(dims), more);
    hide Joined, UpToBracket;
  }

  // ----- Names -----

  /** A readable name is known by its length, its first and its last character. */
  function KeyNamed(n: nat, c: char, d: char): Key {
    if n == 2 then
      if c == 't' then (if d == 'i' then Ti else Tm)
      else if c == 'n' then Nt else if c == 'g' then Gm else if c == 'a' then Ap else if c == 'p' then Ps
      else if c == 'm' then Ml else if c == 'd' then Dt else if c == 'b' then Bo else if c == 's' then Sh else Kv
    else if n == 3 then (if c == 'r' then Rid else Nsc)
    else if n == 4 then Seed
    else if n == 5 then
      if c == 'd' then Dtype else if c == 's' then Shape else if d == 'k' then TopK else TopP
    else if n == 10 then (if c == 'r' then RequestId else ByteOrder)
    else if n == 11 then (if d == 'x' then TokenIndex else Temperature)
    else if n == 13 then NextTokenId
    else if n == 14 then (if c == 't' then Transport else Level)
    else if n == 15 then GenerationMode
    else if n == 16 then KvCache
    else if n == 17 then Rebalance
    else if n == 20 then Precision
    else if n == 22 then Topology
    else if n == 27 then Sessions
    else Chaining
  }

  predicate Known(k: Key, s: string) {
    s != "" && KeyNamed(|s|, s[0], s[|s| - 1]) == k
  }

  lemma TextNameIsKnown(k: Key)
    requires KindOf(k) == IsText
    ensures Known(k, Name(k))
  {}

  lemma FlagNameIsKnown(k: Key)
    requires KindOf(k) == IsFlag
    ensures Known(k, Name(k))
  {}

  lemma OtherNameIsKnown(k: Key)
    requires KindOf(k) != IsText && KindOf(k) != IsFlag && IsReadable(k)
    ensures Known(k, Name(k))
  {}

  lemma NameIsKnown(k: Key)
    requires IsReadable(k)
    ensures Known(k, Name(k))
  {
    hide Known, Name;
    if KindOf(k) == IsText {
      TextNameIsKnown(k);
    } else if KindOf(k) == IsFlag {
      FlagNameIsKnown(k);
    } else {
      OtherNameIsKnown(k);
    }
  }

  predicate IsLong(k: Key) {
    k in {Sessions, Topology, Chaining, KvCache, RequestId, GenerationMode, Precision, Transport, Rebalance, Level}
  }

  lemma SessionsAndLevelAreWords(k: Key)
    requires k == Sessions || k == Level
    ensures Json.IsWord(Name(k))
  {}

  lemma TopologyAndKvCacheAreWords(k: Key)
    requires k == Topology || k == KvCache
    ensures Json.IsWord(Name(k))
  {}

  lemma ChainingAndRequestIdAreWords(k: Key)
    requires k == Chaining || k == RequestId
    ensures Json.IsWord(Name(k))
  {}

  lemma GenerationModeAndPrecisionAreWords(k: Key)
    requires k == GenerationMode || k == Precision
    ensures Json.IsWord(Name(k))
  {}

  lemma TransportAndRebalanceAreWords(k: Key)
    requires k == Transport || k == Rebalance
    ensures Json.IsWord(Name(k))
  {}

  lemma OtherTextNameIsWord(k: Key)
    requires KindOf(k) == IsText && !IsLong(k)
    ensures Json.IsWord(Name(k))
  {}

  lemma OtherNameIsWord(k: Key)
    requires IsReadable(k) && KindOf(k) != IsText && !IsLong(k)
    ensures Json.IsWord(Name(k))
  {}

  lemma NameIsWord(k: Key)
    requires IsReadable(k)
    ensures Json.IsWord(Name(k))
  {
    hide Name, Json.IsWord;
    if k == Sessions || k == Level {
      SessionsAndLevelAreWords(k);
    } else if k == Topology || k == KvCache {
      TopologyAndKvCacheAreWords(k);
    } else if k == Chaining || k == RequestId {
      ChainingAndRequestIdAreWords(k);
    } else if k == GenerationMode || k == Precision {
      GenerationModeAndPrecisionAreWords(k);
    } else if k == Transport || k == Rebalance {
      TransportAndRebalanceAreWords(k);
    } else if KindOf(k) == IsText {
      OtherTextNameIsWord(k);
    } else {
      OtherNameIsWord(k);
    }
  }

  lemma NameHasNoQuote(k: Key)
    requires IsReadable(k)
    ensures Json.NoQuote(Name(k))
  {
    hide Name;
    NameIsWord(k);
  }

  lemma SameName(k: Key, q: Key)
    requires IsReadable(k) && ProperKey(q)
    ensures Name(k) == Name(q) <==> k == q
  {
    hide Name, KeyNamed, Json.IsWord;
    if IsReadable(q) {
      NameIsKnown(k);
      NameIsKnown(q);
    }
  }

  lemma NamesRead(k: Key, e: Pair)
    requires KindOf(k) != IsUnread && ProperKey(e.key)
    ensures Name(e.key) in Names(k) <==> e.key == k || (k == Shape && e.key == Sh)
    ensures Name(e.key) in Names(k) ==> IsReadable(e.key)
  {
    hide Name, ProperKey;
    SameName(k, e.key);
    SameName(Sh, e.key);
  }

  lemma NamesAreWords(k: Key)
    requires KindOf(k) != IsUnread
    ensures Json.Words(Names(k))
  {
    hide Name, Json.IsWord;
    NameIsWord(k);
    NameIsWord(Sh);
  }

  // ----- The list and its text -----

  lemma {:induction false} LaidIsWellPrinted(number: Printer, es: seq<Entry>, tail: string)
    requires Laid(number, es, tail)
    ensures Json.WellPrinted(Fields(number, es), tail) && |Fields(number, es)| == |es|
    decreases |es|
  {
    if es == [] {
    } else {
      LaidIsWellPrinted(number, es[1..], tail);
      FieldIsWellPrinted(number, es[0], if |es| > 1 then es[1].before else tail);
      if IsReadable(es[0].pair.key) { NameHasNoQuote(es[0].pair.key); }
      hide Name, ProperValue, Shown, Json.IsWord, Json.EndsValue, Json.NoQuote, ProperKey;
    }
  }

  lemma FieldIsWellPrinted(number: Printer, e: Entry, next: string)
    requires ProperValue(number, e, next)
    ensures var v := Shown(number, e);
      && (v.Bare? ==> v.text != "" && Json.NoQuote(v.text) && !IsSpace(v.text[0]))
      && (v.Quoted? ==> Json.EndsValue(next))
  {
    hide IntText, DoubleText, Json.EndsValue, JsonText.Unrestorable;
    match e.pair.value
    case Whole(i) => PrintedInt(i); hide ToString;
    case Dims(dims) => JoinedChars(dims); hide Joined;
    case _ =>
  }

  /** What follows a value in the printed text starts with what stands before the next key. */
  lemma NextStarts(number: Printer, es: seq<Entry>, tail: string)
    requires es != []
    ensures (if |es| > 1 then es[1].before else tail) <= Json.Print(Fields(number, es[1..]), tail)
  {
    hide Shown, Json.ValueText, Name;
  }

  /** One turn of the two searches. */
  lemma FirstFieldTurn(number: Printer, es: seq<Entry>, tail: string, k: Key)
    requires es != []
    ensures var found := Captured(KindOf(k), Json.ValueText(Shown(number, es[0])) + Json.Print(Fields(number, es[1..]), tail));
      Json.FirstField(Fields(number, es), tail, Names(k), Pattern(KindOf(k))) ==
        if Name(es[0].pair.key) in Names(k) && found.Some? then found
        else Json.FirstField(Fields(number, es[1..]), tail, Names(k), Pattern(KindOf(k)))
    ensures First(Pairs(es), k) == if Reads(k, es[0].pair) then Some(es[0].pair.value) else First(Pairs(es[1..]), k)
  {
    hide First, Reads, Captured, Name, Names, KindOf, Shown, Json.ValueText, Json.Print;
    FirstCons(es[0].pair, Pairs(es[1..]), k);
    assert Fields(number, es)[1..] == Fields(number, es[1..]);
    assert Pattern(KindOf(k))(Json.ValueText(Shown(number, es[0])) + Json.Print(Fields(number, es[1..]), tail))
      == Captured(KindOf(k), Json.ValueText(Shown(number, es[0])) + Json.Print(Fields(number, es[1..]), tail));
  }

  lemma LaidUnfolds(number: Printer, es: seq<Entry>, tail: string)
    requires Laid(number, es, tail) && es != []
    ensures Json.NoQuote(es[0].before) && ProperKey(es[0].pair.key)
    ensures ProperValue(number, es[0], if |es| > 1 then es[1].before else tail) && Laid(number, es[1..], tail)
  {
    hide ProperKey, ProperValue;
  }

  lemma {:induction false} FirstFieldIsFirst(number: Printer, es: seq<Entry>, tail: string, k: Key)
    requires Laid(number, es, tail) && KindOf(k) != IsUnread
    ensures Json.FirstField(Fields(number, es), tail, Names(k), Pattern(KindOf(k))) ==
      match First(Pairs(es), k) case None => None case Some(v) => CapturedOf(number, k, v)
    decreases |es|
  {
    if es == [] {
    } else {
      hide *;
      LaidUnfolds(number, es, tail);
      FirstFieldIsFirst(number, es[1..], tail, k);
      FirstFieldTurn(number, es, tail, k);
      var e, more := es[0], Json.Print(Fields(number, es[1..]), tail);
      NamesRead(k, e.pair);
      ReadsUnfolds(k, e.pair);
      if Name(e.pair.key) in Names(k) {
        NextStarts(number, es, tail);
        ValueIsCaptured(number, e, if |es| > 1 then es[1].before else tail, more, k);
        CapturedFits(number, k, e, if |es| > 1 then es[1].before else tail);
      }
    }
  }

  lemma ReadsUnfolds(k: Key, e: Pair)
    ensures Reads(k, e) <==> (e.key == k || (k == Shape && e.key == Sh)) && Fits(KindOf(k), e.value)
  {}

  lemma CapturedFits(number: Printer, k: Key, e: Entry, next: string)
    requires ProperValue(number, e, next) && (e.pair.key == k || k == Shape)
    ensures CapturedOf(number, k, e.pair.value).Some? <==> Fits(KindOf(k), e.pair.value)
  {
    hide DoubleText, IntText;
  }

  /** On every text that prints a list of metadata, whatever its punctuation and the values
      that no reader asks for, the search for a key captures the printed form of the list's
      first match, or nothing if there is none. */
  lemma TextIsRead(number: Printer, es: seq<Entry>, tail: string, k: Key)
    requires Laid(number, es, tail) && KindOf(k) != IsUnread
    ensures SearchText(Printed(number, es, tail), k) ==
      match First(Pairs(es), k) case None => None case Some(v) => CapturedOf(number, k, v)
  {
    hide *;
    NamesAreWords(k);
    LaidIsWellPrinted(number, es, tail);
    Json.SearchFindsFirstField(Fields(number, es), tail, Names(k), Pattern(KindOf(k)));
    FirstFieldIsFirst(number, es, tail, k);
    SearchTextUnfolds(number, es, tail, k);
  }

  lemma SearchTextUnfolds(number: Printer, es: seq<Entry>, tail: string, k: Key)
    ensures SearchText(Printed(number, es, tail), k) ==
      Json.Search(Json.Print(Fields(number, es), tail), Names(k), Pattern(KindOf(k)))
  {}

  // ----- The reader of a text -----

  /** stod, and the cast of a double to an integer. */
  datatype Doubles = Doubles(stod: string -> real, cast: real -> int)

  function StringField(json: string, k: Key): Option<string> {
    match SearchText(json, k) case None => None case Some(t) => Some(JsonText.Unescape(t))
  }

  function BoolField(json: string, k: Key): Option<bool> {
    match SearchText(json, k) case None => None case Some(t) => Some(t == "true")
  }

  function DoubleField(d: Doubles, json: string, k: Key): Option<real> {
    match SearchText(json, k) case None => None case Some(t) => Some(d.stod(t))
  }

  /** An int field, if there is one; an int that does not fit is an exception. */
  function IntField(json: string, k: Key): Result<Option<int>, string> {
    match SearchText(json, k)
    case None => Ok(None)
    case Some(t) => match Stoi(t) case None => Err("invalid integer metadata field") case Some(i) => Ok(Some(i))
  }

  /** The matches of `-?\d+`, from left to right. */
  function IntsIn(s: string): seq<string>
    decreases |s|
  {
    if s == "" then []
    else match IntText(s)
      case None => IntsIn(s[1..])
      case Some(t) => [t] + IntsIn(s[|t|..])
  }

  function Longs(ts: seq<string>): Result<seq<int>, string> {
    if ts == [] then Ok([])
    else match Stoll(ts[0])
      case None => Err("invalid tensor shape dimension")
      case Some(i) => match Longs(ts[1..]) case Err(e) => Err(e) case Ok(more) => Ok([i] + more)
  }

  function ShapeField(json: string): Result<seq<int>, string> {
    match SearchText(json, Shape) case None => Ok([]) case Some(t) => Longs(IntsIn(t))
  }

  function StringAlias(json: string, long: Key, short: Key): Option<string> {
    if StringField(json, long).Some? then StringField(json, long) else StringField(json, short)
  }

  function BoolAlias(json: string, long: Key, short: Key): bool {
    var v := if BoolField(json, long).Some? then BoolField(json, long) else BoolField(json, short);
    v == Some(true)
  }

  function IntAlias(json: string, long: Key, short: Key): Result<Option<int>, string> {
    var v := IntField(json, long);
    if v == Ok(None) then IntField(json, short) else v
  }

  function Or(v: Option<string>, default: string): string {
    if v.Some? then v.value else default
  }

  function FeaturesOf(json: string): Features {
    Features(
      BoolAlias(json, KvCache, Kv),
      Or(StringAlias(json, Precision, Ap), "fp32"),
      Or(StringAlias(json, Transport, Tm), "binary_octet_stream"),
      Or(StringField(json, Rebalance), "baseline"),
      BoolAlias(json, Sessions, Ps),
      BoolField(json, Topology) == Some(true),
      Or(StringAlias(json, Level, Ml), "debug"))
  }

  function TensorOf(json: string, shape: seq<int>): Tensor {
    Tensor(Or(StringAlias(json, Dtype, Dt), ""), shape, Or(StringAlias(json, ByteOrder, Bo), "little"))
  }

  function SamplingOf(d: Doubles, json: string, topK: Option<int>): Sampling {
    Sampling(DoubleField(d, json, Temperature), topK, DoubleField(d, json, TopP),
             match DoubleField(d, json, Seed) case None => None case Some(x) => Some(d.cast(x)))
  }

  /** `parse_request_metadata`. */
  function ParseText(d: Doubles, json: string): Result<Parsed, string> {
    var index, next, topK := IntAlias(json, TokenIndex, Ti), IntAlias(json, NextTokenId, Nt), IntField(json, TopK);
    var shape := ShapeField(json);
    if index.Err? then Err(index.error)
    else if next.Err? then Err(next.error)
    else if shape.Err? then Err(shape.error)
    else if topK.Err? then Err(topK.error)
    else
      Ok(Parsed(
        Call(Or(StringAlias(json, RequestId, Rid), ""), if index.value.Some? then index.value.value else 0,
             Or(StringAlias(json, GenerationMode, Gm), "unknown"), next.value),
        TensorOf(json, shape.value),
        FeaturesOf(json),
        SamplingOf(d, json, topK.value),
        BoolAlias(json, Chaining, Nsc)))
  }

  /** The values of a list are what their texts are read as. */
  predicate Decodes(nm: Numerics, d: Doubles, number: Printer, k: Key, v: Value) {
    match v
    case Text(t) => forall j :: 0 <= j < |t| ==> !JsonText.Unrestorable(t[j])
    case Whole(i) =>
      && (KindOf(k) == IsWhole ==> INT_MIN <= i <= INT_MAX)
      && (k == Seed ==> d.cast(d.stod(ToString(i))) == nm.viaDouble(i))
      && (k == Temperature || k == TopP ==> d.stod(ToString(i)) == i as real)
    case Number(x) =>
      && (KindOf(k) == IsWhole ==> IntText(number(k, x)).Some? && Stoi(IntText(number(k, x)).value) == Some(nm.whole(x)))
      && d.stod(number(k, x)) == x && (k == Seed ==> d.cast(x) == nm.truncated(x))
    case Dims(dims) => forall j :: 0 <= j < |dims| ==> LONG_MIN <= dims[j] <= LONG_MAX
    case _ => true
  }

  /** What first matches find is decoded as it was printed. */
  ghost predicate ListDecodes(nm: Numerics, d: Doubles, number: Printer, m: seq<Pair>) {
    forall k :: First(m, k).Some? ==> Decodes(nm, d, number, k, First(m, k).value)
  }

  lemma CapturedText(nm: Numerics, d: Doubles, number: Printer, es: seq<Entry>, tail: string, k: Key)
    requires Laid(number, es, tail) && KindOf(k) != IsUnread && ListDecodes(nm, d, number, Pairs(es))
    ensures var v, t := First(Pairs(es), k), SearchText(Printed(number, es, tail), k);
      if v.None? then t.None?
      else Decodes(nm, d, number, k, v.value) && Fits(KindOf(k), v.value) && t == CapturedOf(number, k, v.value)
  {
    TextIsRead(number, es, tail, k);
    hide SearchText, Printed, Laid, Decodes, CapturedOf, KindOf;
  }

  lemma StringFieldDecodes(nm: Numerics, d: Doubles, number: Printer, es: seq<Entry>, tail: string, k: Key)
    requires Laid(number, es, tail) && KindOf(k) == IsText && ListDecodes(nm, d, number, Pairs(es))
    ensures var v := First(Pairs(es), k);
      && (v.Some? ==> v.value.Text?)
      && StringField(Printed(number, es, tail), k) == if v.Some? then Some(v.value.text) else None
  {
    hide SearchText, First, Pairs, Printed, Laid, ListDecodes, JsonText.Escape, JsonText.Unescape, KindOf;
    CapturedText(nm, d, number, es, tail, k);
    var v := First(Pairs(es), k);
    if v.Some? { JsonText.RestoredExactlyWithoutOtherControls(v.value.text); }
  }

  lemma BoolFieldDecodes(nm: Numerics, d: Doubles, number: Printer, es: seq<Entry>, tail: string, k: Key)
    requires Laid(number, es, tail) && KindOf(k) == IsFlag && ListDecodes(nm, d, number, Pairs(es))
    ensures var v := First(Pairs(es), k);
      && (v.Some? ==> v.value.Flag?)
      && BoolField(Printed(number, es, tail), k) == if v.Some? then Some(v.value.on) else None
  {
    hide SearchText, First, Pairs, Printed, Laid, ListDecodes, Decodes, KindOf;
    CapturedText(nm, d, number, es, tail, k);
    assert "true" != "false" by { assert |"true"| != |"false"|; }
  }

  lemma IntFieldDecodes(nm: Numerics, d: Doubles, number: Printer, es: seq<Entry>, tail: string, k: Key)
    requires Laid(number, es, tail) && KindOf(k) == IsWhole && ListDecodes(nm, d, number, Pairs(es))
    ensures IntField(Printed(number, es, tail), k) == Ok(IntOf(nm, First(Pairs(es), k)))
  {
    hide SearchText, First, Pairs, Printed, Laid, ListDecodes, IntText, ToString, Stoi, KindOf;
    CapturedText(nm, d, number, es, tail, k);
    var v := First(Pairs(es), k);
    if v.Some? && v.value.Whole? { StoiToString(v.value.i); }
  }

  lemma DoubleFieldDecodes(nm: Numerics, d: Doubles, number: Printer, es: seq<Entry>, tail: string, k: Key)
    requires Laid(number, es, tail) && KindOf(k) == IsNumber && ListDecodes(nm, d, number, Pairs(es))
    ensures var x, v := DoubleField(d, Printed(number, es, tail), k), First(Pairs(es), k);
      && (k != Seed ==> x == RealOf(v))
      && (k == Seed ==> SeedOf(nm, v) == match x case None => None case Some(y) => Some(d.cast(y)))
  {
    hide SearchText, First, Pairs, Printed, Laid, ListDecodes, IntText, ToString;
    CapturedText(nm, d, number, es, tail, k);
  }

  lemma LongsCons(t: string, i: int, ts: seq<string>, dims: seq<int>)
    requires Stoll(t) == Some(i) && Longs(ts) == Ok(dims)
    ensures Longs([t] + ts) == Ok([i] + dims)
  {
    hide Stoll;
    assert ([t] + ts)[1..] == ts;
  }

  lemma JoinedUnfolds(dims: seq<int>)
    requires dims != []
    ensures Joined(dims) == if |dims| == 1 then ToString(dims[0]) else ToString(dims[0]) + ("," + Joined(dims[1..]))
    ensures dims == [dims[0]] + dims[1..] && (|dims| == 1 ==> dims[1..] == [])
  {
    hide ToString;
  }

  lemma NothingJoined()
    ensures Longs(IntsIn(Joined([]))) == Ok([]) && IntsIn(Joined([])) == []
  {}

  lemma {:induction false} IntsInJoined(dims: seq<int>)
    requires forall j :: 0 <= j < |dims| ==> LONG_MIN <= dims[j] <= LONG_MAX
    ensures Longs(IntsIn(Joined(dims))) == Ok(dims)
    decreases |dims|
  {
    hide *;
    NothingJoined();
    if dims == [] {
    } else {
      var t, rest := ToString(dims[0]), dims[1..];
      PrintedInt(dims[0]);
      StoiToString(dims[0]);
      JoinedUnfolds(dims);
      IntsInJoined(rest);
      IntsTurn(t, Joined(rest));
      LongsCons(t, dims[0], IntsIn(Joined(rest)), rest);
      if |dims| == 1 { assert [t] + [] == [t]; }
    }
  }

  /** One printed int, at the end or before a comma. */
  lemma IntsTurn(t: string, more: string)
    requires t != "" && IntText(t) == Some(t)
    ensures IntsIn(t) == [t]
    ensures IntsIn(t + ("," + more)) == [t] + IntsIn(more)
  {
    var s := t + ("," + more);
    IntTextStops(t, "," + more);
    assert s[|t|..] == "," + more && ("," + more)[1..] == more;
    assert IntText("," + more).None?;
    hide IntText;
    assert t[|t|..] == "";
  }

  lemma ShapeDecodes(nm: Numerics, d: Doubles, number: Printer, es: seq<Entry>, tail: string)
    requires Laid(number, es, tail) && ListDecodes(nm, d, number, Pairs(es))
    ensures ShapeField(Printed(number, es, tail)) == Ok(DimsOf(First(Pairs(es), Shape)))
  {
    hide SearchText, First, Pairs, Printed, Laid, ListDecodes, Longs, IntsIn, Joined;
    CapturedText(nm, d, number, es, tail, Shape);
    var v := First(Pairs(es), Shape);
    if v.Some? { IntsInJoined(v.value.dims); }
  }

  lemma StringAliasDecodes(nm: Numerics, d: Doubles, number: Printer, es: seq<Entry>, tail: string, k: Key, q: Key,
      default: string)
    requires Laid(number, es, tail) && KindOf(k) == KindOf(q) == IsText && ListDecodes(nm, d, number, Pairs(es))
    ensures Or(StringAlias(Printed(number, es, tail), k, q), default) == TextOr(Either(Pairs(es), k, q), default)
  {
    StringFieldDecodes(nm, d, number, es, tail, k);
    StringFieldDecodes(nm, d, number, es, tail, q);
    hide StringField, First, Pairs, Printed, Laid, ListDecodes, KindOf, Fits;
  }

  lemma BoolAliasDecodes(nm: Numerics, d: Doubles, number: Printer, es: seq<Entry>, tail: string, k: Key, q: Key)
    requires Laid(number, es, tail) && KindOf(k) == KindOf(q) == IsFlag && ListDecodes(nm, d, number, Pairs(es))
    ensures BoolAlias(Printed(number, es, tail), k, q) == FlagOr(Either(Pairs(es), k, q))
  {
    BoolFieldDecodes(nm, d, number, es, tail, k);
    BoolFieldDecodes(nm, d, number, es, tail, q);
    hide BoolField, First, Pairs, Printed, Laid, ListDecodes, KindOf, Fits;
  }

  lemma IntAliasDecodes(nm: Numerics, d: Doubles, number: Printer, es: seq<Entry>, tail: string, k: Key, q: Key)
    requires Laid(number, es, tail) && KindOf(k) == KindOf(q) == IsWhole && ListDecodes(nm, d, number, Pairs(es))
    ensures IntAlias(Printed(number, es, tail), k, q) == Ok(IntOf(nm, Either(Pairs(es), k, q)))
  {
    IntFieldDecodes(nm, d, number, es, tail, k);
    IntFieldDecodes(nm, d, number, es, tail, q);
    FirstIsWhole(Pairs(es), k);
    FirstIsWhole(Pairs(es), q);
    hide IntField, First, Pairs, Printed, Laid, ListDecodes, KindOf, Fits;
  }

  lemma FirstIsWhole(m: seq<Pair>, k: Key)
    requires KindOf(k) == IsWhole
    ensures First(m, k).Some? ==> Fits(IsWhole, First(m, k).value)
  {
    hide First, KindOf, Fits;
  }

  /** A key with one name is an alias of itself. */
  lemma OneName(json: string, m: seq<Pair>)
    ensures Either(m, Topology, Topology) == First(m, Topology) && Either(m, Rebalance, Rebalance) == First(m, Rebalance)
    ensures BoolAlias(json, Topology, Topology) <==> BoolField(json, Topology) == Some(true)
    ensures StringAlias(json, Rebalance, Rebalance) == StringField(json, Rebalance)
  {
    hide First, BoolField, StringField;
  }

  lemma FeaturesDecode(nm: Numerics, d: Doubles, number: Printer, es: seq<Entry>, tail: string)
    requires Laid(number, es, tail) && ListDecodes(nm, d, number, Pairs(es))
    ensures FeaturesOf(Printed(number, es, tail)) == ParseFeatures(Pairs(es))
  {
    hide Printed, Pairs, Laid, ListDecodes, Or, TextOr, StringAlias, StringField, BoolAlias, BoolField, FlagOr, Either, First;
    OneName(Printed(number, es, tail), Pairs(es));
    BoolAliasDecodes(nm, d, number, es, tail, KvCache, Kv);
    BoolAliasDecodes(nm, d, number, es, tail, Sessions, Ps);
    BoolAliasDecodes(nm, d, number, es, tail, Topology, Topology);
    StringAliasDecodes(nm, d, number, es, tail, Precision, Ap, "fp32");
    StringAliasDecodes(nm, d, number, es, tail, Transport, Tm, "binary_octet_stream");
    StringAliasDecodes(nm, d, number, es, tail, Rebalance, Rebalance, "baseline");
    StringAliasDecodes(nm, d, number, es, tail, Level, Ml, "debug");
  }

  lemma SamplingDecodes(nm: Numerics, d: Doubles, number: Printer, es: seq<Entry>, tail: string)
    requires Laid(number, es, tail) && ListDecodes(nm, d, number, Pairs(es))
    ensures var json, m := Printed(number, es, tail), Pairs(es);
      && IntField(json, TopK) == Ok(IntOf(nm, First(m, TopK)))
      && SamplingOf(d, json, IntOf(nm, First(m, TopK))) == ParseSampling(nm, m)
  {
    hide Printed, Pairs, Laid, ListDecodes, First, IntField, IntOf, DoubleField, RealOf, SeedOf;
    IntFieldDecodes(nm, d, number, es, tail, TopK);
    DoubleFieldDecodes(nm, d, number, es, tail, Temperature);
    DoubleFieldDecodes(nm, d, number, es, tail, TopP);
    DoubleFieldDecodes(nm, d, number, es, tail, Seed);
  }

  lemma TensorDecodes(nm: Numerics, d: Doubles, number: Printer, es: seq<Entry>, tail: string)
    requires Laid(number, es, tail) && ListDecodes(nm, d, number, Pairs(es))
    ensures var json, m := Printed(number, es, tail), Pairs(es);
      ShapeField(json) == Ok(ParseTensor(m).shape) && TensorOf(json, ParseTensor(m).shape) == ParseTensor(m)
  {
    hide Printed, Pairs, Laid, ListDecodes, First, Or, TextOr, StringAlias, Either, ShapeField, DimsOf;
    ShapeDecodes(nm, d, number, es, tail);
    StringAliasDecodes(nm, d, number, es, tail, Dtype, Dt, "");
    StringAliasDecodes(nm, d, number, es, tail, ByteOrder, Bo, "little");
  }

  /** The reader of frame metadata, on every text that prints a list, understands what the
      list's first matches say, and throws nothing, if each of them decodes as printed. */
  lemma TextIsParsed(nm: Numerics, d: Doubles, number: Printer, es: seq<Entry>, tail: string)
    requires Laid(number, es, tail) && ListDecodes(nm, d, number, Pairs(es))
    ensures ParseText(d, Printed(number, es, tail)) == Ok(Parse(nm, Pairs(es)))
  {
    hide Printed, Pairs, Laid, ListDecodes, Or, TextOr, StringAlias, BoolAlias, FlagOr, Either, First, IntAlias, IntField,
      IntOf, ShapeField, FeaturesOf, TensorOf, SamplingOf, ParseTensor, ParseFeatures, ParseSampling;
    FeaturesDecode(nm, d, number, es, tail);
    TensorDecodes(nm, d, number, es, tail);
    SamplingDecodes(nm, d, number, es, tail);
    IntAliasDecodes(nm, d, number, es, tail, TokenIndex, Ti);
    IntAliasDecodes(nm, d, number, es, tail, NextTokenId, Nt);
    StringAliasDecodes(nm, d, number, es, tail, RequestId, Rid, "");
    StringAliasDecodes(nm, d, number, es, tail, GenerationMode, Gm, "unknown");
    BoolAliasDecodes(nm, d, number, es, tail, Chaining, Nsc);
  }

  /** The gateway's request, read from its text. */
  lemma RequestTextIsRead(nm: Numerics, d: Doubles, number: Printer, es: seq<Entry>, tail: string, s: Settings, c: Call,
      shape: seq<int>)
    requires Laid(number, es, tail) && ListDecodes(nm, d, number, Pairs(es)) && Pairs(es) == RequestMeta(nm, s, c, shape)
    ensures ParseText(d, Printed(number, es, tail)) == Ok(Asked(nm, s, c, shape))
  {
    hide *;
    TextIsParsed(nm, d, number, es, tail);
    RequestMetaIsRead(nm, s, c, shape);
  }

  /** A stage's frame, read from its text. */
  lemma StageTextIsRead(nm: Numerics, d: Doubles, number: Printer, es: seq<Entry>, tail: string, p: Parsed, r: Reply)
    requires Laid(number, es, tail) && ListDecodes(nm, d, number, Pairs(es)) && Pairs(es) == StageMeta(nm, p, r)
    ensures ParseText(d, Printed(number, es, tail)) == Ok(Onward(nm, p, r))
  {
    hide *;
    TextIsParsed(nm, d, number, es, tail);
    StageMetaIsRead(nm, p, r);
  }
}
