/** The texts that the gateway and a stage print: nested objects, with the punctuation that
    they have, of the very lists that `Metadata` describes; and that the reader understands
    from each text what its list says. */
module MetadataPrint {
  import opened Basics
  import opened Decimal
  import Json = JsonFields
  import JsonText
  import opened Metadata
  import opened MetadataText

  // ----- Nested printing -----

  /** What a key does to the nesting: its value is an object that it opens, or it is the last
      key of its object. */
  datatype Place = Inner | Opener | Closer

  function Behind(p: Place): string {
    match p case Inner => "," case Opener => "" case Closer => "},"
  }

  const OPEN := Json.Bare("{")

  /** The list, printed with nested objects; `filler` is what stands for the values that no
      reader asks for. */
  function Nested(m: seq<Pair>, opening: string, place: Key -> Place, filler: Key -> Json.Value): seq<Entry> {
    if m == [] then []
    else [Placed(m[0], opening, place, filler)] + Nested(m[1..], Behind(place(m[0].key)), place, filler)
  }

  function Placed(e: Pair, before: string, place: Key -> Place, filler: Key -> Json.Value): Entry {
    Entry(before, e, if IsReadable(e.key) then Json.Bare("null") else if place(e.key).Opener? then OPEN else filler(e.key))
  }

  /** What is printed behind the list: what stands before the next key. */
  function Closing(m: seq<Pair>, opening: string, place: Key -> Place): string {
    if m == [] then opening else Behind(place(m[|m| - 1].key))
  }

  predicate Plain(v: Json.Value) {
    v.Quoted? || (v.text != "" && Json.NoQuote(v.text) && !IsSpace(v.text[0]))
  }

  predicate Printable(number: Printer, e: Pair) {
    match e.value
    case Text(t) => forall j :: 0 <= j < |t| ==> !JsonText.Unrestorable(t[j])
    case Number(x) => NumberLike(number(e.key, x))
    case _ => true
  }

  /** An entry that can be printed at its place. */
  ghost predicate Proper(number: Printer, e: Pair, place: Key -> Place, filler: Key -> Json.Value) {
    && ProperKey(e.key) && Printable(number, e) && Plain(filler(e.key))
    && (place(e.key).Opener? ==> e.value.Nothing? && !IsReadable(e.key))
    && (!IsReadable(e.key) ==> e.value.Nothing?)
  }

  ghost predicate AllProper(number: Printer, m: seq<Pair>, place: Key -> Place, filler: Key -> Json.Value) {
    forall i :: 0 <= i < |m| ==> Proper(number, m[i], place, filler)
  }

  lemma PunctuationEnds()
    ensures EndsNumber(",") && EndsNumber("},") && EndsNumber("}") && EndsNumber("}}")
    ensures Json.NoQuote("") && Json.NoQuote(",") && Json.NoQuote("{")
    ensures Json.NoQuote("},") && Json.NoQuote("}") && Json.NoQuote("}}")
  {}

  lemma ProperIsLaid(number: Printer, e: Pair, before: string, place: Key -> Place, filler: Key -> Json.Value, next: string)
    requires Proper(number, e, place, filler)
    requires place(e.key).Opener? || next == Behind(place(e.key)) || EndsNumber(next)
    ensures ProperKey(e.key) && ProperValue(number, Placed(e, before, place, filler), next)
  {
    hide ProperKey, NumberLike, JsonText.Unrestorable;
    PunctuationEnds();
    assert Json.NoQuote("{") && !IsSpace("{"[0]);
  }

  lemma LaidCons(number: Printer, e: Entry, es: seq<Entry>, tail: string)
    requires Json.NoQuote(e.before) && ProperKey(e.pair.key) && Laid(number, es, tail)
    requires ProperValue(number, e, if es == [] then tail else es[0].before)
    ensures Laid(number, [e] + es, tail)
  {
    hide ProperKey, ProperValue;
    assert ([e] + es)[1..] == es;
  }

  lemma OneNested(m: seq<Pair>, opening: string, place: Key -> Place, filler: Key -> Json.Value, tail: string)
    requires m != []
    ensures var before := Behind(place(m[0].key));
      && Nested(m, opening, place, filler) == [Placed(m[0], opening, place, filler)] + Nested(m[1..], before, place, filler)
      && Next(Nested(m[1..], before, place, filler), tail) == (if m[1..] == [] then tail else before)
      && Nested(m, opening, place, filler) != [] && Nested(m, opening, place, filler)[0].before == opening
      && Placed(m[0], opening, place, filler).before == opening && Placed(m[0], opening, place, filler).pair == m[0]
      && m == [m[0]] + m[1..]
  {}

  lemma NothingNested(number: Printer, opening: string, place: Key -> Place, filler: Key -> Json.Value, tail: string)
    requires Json.NoQuote(tail)
    ensures Laid(number, Nested([], opening, place, filler), tail) && Pairs(Nested([], opening, place, filler)) == []
  {}

  lemma AllProperUnfolds(number: Printer, m: seq<Pair>, place: Key -> Place, filler: Key -> Json.Value)
    requires AllProper(number, m, place, filler) && m != []
    ensures Proper(number, m[0], place, filler) && AllProper(number, m[1..], place, filler)
  {
    hide Proper;
  }

  /** Whatever is nested in whatever, the printed text is one that the patterns can read. */
  lemma {:induction false} NestedIsLaid(number: Printer, m: seq<Pair>, opening: string, place: Key -> Place,
      filler: Key -> Json.Value, tail: string)
    requires AllProper(number, m, place, filler) && Json.NoQuote(opening) && Json.NoQuote(tail)
    requires m != [] ==> place(m[|m| - 1].key).Opener? || EndsNumber(tail)
    ensures Laid(number, Nested(m, opening, place, filler), tail) && Pairs(Nested(m, opening, place, filler)) == m
    decreases |m|
  {
    hide *;
    if m == [] {
      NothingNested(number, opening, place, filler, tail);
    } else {
      var before := Behind(place(m[0].key));
      AllProperUnfolds(number, m, place, filler);
      BehindHasNoQuote(place(m[0].key));
      OneNested(m, opening, place, filler, tail);
      NestedIsLaid(number, m[1..], before, place, filler, tail);
      ProperIsLaid(number, m[0], opening, place, filler, if m[1..] == [] then tail else before);
      LaidConsNext(number, Placed(m[0], opening, place, filler), Nested(m[1..], before, place, filler), tail);
    }
  }

  lemma BehindHasNoQuote(p: Place)
    ensures Json.NoQuote(Behind(p))
  {}

  /** What stands before the next key. */
  function Next(es: seq<Entry>, tail: string): string {
    if es == [] then tail else es[0].before
  }

  lemma NextOfJoin(a: seq<Entry>, b: seq<Entry>, tail: string)
    requires a != []
    ensures a == [a[0]] + a[1..] && a + b == [a[0]] + (a[1..] + b)
    ensures Next(a[1..] + b, tail) == if |a| > 1 then a[1].before else Next(b, tail)
  {
    if |a| == 1 { assert a[1..] + b == b; }
  }

  lemma NothingJoins(number: Printer, a: seq<Entry>, b: seq<Entry>, tail: string)
    requires a == [] && Laid(number, b, tail)
    ensures Laid(number, a + b, tail) && Pairs(a + b) == Pairs(a) + Pairs(b)
  {
    hide Laid;
    assert a + b == b;
  }

  lemma LaidConsNext(number: Printer, e: Entry, es: seq<Entry>, tail: string)
    requires Json.NoQuote(e.before) && ProperKey(e.pair.key) && Laid(number, es, tail)
    requires ProperValue(number, e, Next(es, tail))
    ensures Laid(number, [e] + es, tail) && Pairs([e] + es) == [e.pair] + Pairs(es)
  {
    hide ProperKey, ProperValue, Laid, Json.NoQuote;
    LaidCons(number, e, es, tail);
    assert ([e] + es)[1..] == es;
  }

  lemma PairsTurn(es: seq<Entry>)
    requires es != []
    ensures Pairs(es) == [es[0].pair] + Pairs(es[1..])
  {}

  /** One printed part behind another. */
  lemma {:induction false} LaidJoin(number: Printer, a: seq<Entry>, b: seq<Entry>, tail: string)
    requires Laid(number, a, Next(b, tail)) && Laid(number, b, tail)
    ensures Laid(number, a + b, tail) && Pairs(a + b) == Pairs(a) + Pairs(b)
    decreases |a|
  {
    hide *;
    if a == [] {
      NothingJoins(number, a, b, tail);
    } else {
      LaidUnfolds(number, a, Next(b, tail));
      LaidJoin(number, a[1..], b, tail);
      NextOfJoin(a, b, tail);
      LaidConsNext(number, a[0], a[1..] + b, tail);
      PairsTurn(a);
      assert ([a[0].pair] + Pairs(a[1..])) + Pairs(b) == [a[0].pair] + (Pairs(a[1..]) + Pairs(b));
    }
  }

  // ----- The keys that no reader asks for -----

  /** Whether a reader's key may have a name of this length between these characters. */
  predicate NameShape(n: nat, c: char, d: char) {
    match n
    case 2 => c != 'o'
    case 3 => true
    case 4 => true
    case 5 => true
    case 10 => (c == 'r' && d == 'd') || c == 'b'
    case 11 => c == 't'
    case 13 => c == 'n'
    case 14 => c == 't' || (c == 'm' && d == 'l')
    case 15 => c == 'g'
    case 16 => c == 'k'
    case 17 => c == 'r'
    case 20 => c == 'a'
    case 22 => c == 't'
    case 27 => true
    case 29 => c == 'n'
    case _ => false
  }

  lemma TextKeyIsAsked(k: Key)
    requires KindOf(k) == IsText
    ensures Name(k) != "" && NameShape(|Name(k)|, Name(k)[0], Name(k)[|Name(k)| - 1])
  {}

  lemma OtherKeyIsAsked(k: Key)
    requires KindOf(k) != IsText && IsReadable(k)
    ensures Name(k) != "" && NameShape(|Name(k)|, Name(k)[0], Name(k)[|Name(k)| - 1])
  {}

  /** A name that no reader's key has, told by its length and its ends. */
  predicate Unasked(name: string) {
    name != "" && Json.NoQuote(name) && !NameShape(|name|, name[0], name[|name| - 1])
  }

  /** Nor a chain metric: their names start with a c, and none has this length. */
  predicate Skippable(name: string) {
    Unasked(name) && (name[0] != 'c' || |name| == 15)
  }

  ghost predicate AllSkippable(names: seq<string>) {
    forall i :: 0 <= i < |names| ==> Skippable(names[i])
  }

  lemma NotAsked(name: string, q: Key)
    requires Unasked(name) && IsReadable(q)
    ensures Name(q) != name
  {
    hide NameShape, Name, Json.NoQuote;
    if KindOf(q) == IsText { TextKeyIsAsked(q); } else { OtherKeyIsAsked(q); }
  }

  lemma UnaskedIsProper(k: Key)
    requires !IsReadable(k) && Unasked(Name(k))
    ensures ProperKey(k)
  {
    hide NameShape, Json.NoQuote, Name;
    forall q: Key | IsReadable(q) ensures Name(q) != Name(k) {
      NotAsked(Name(k), q);
    }
  }

  lemma SkippableIsProper(name: string)
    requires Skippable(name)
    ensures ProperKey(Unread(name))
  {
    hide NameShape, Json.NoQuote, KeyNamed;
    assert Name(Unread(name)) == name;
    hide Name;
    UnaskedIsProper(Unread(name));
  }

  lemma JoinSkippable(a: seq<string>, b: seq<string>)
    requires AllSkippable(a) && AllSkippable(b)
    ensures AllSkippable(a + b)
  {
    hide Skippable;
  }

  lemma RequestKeys()
    ensures Skippable("sequence_length") && Skippable("tensor") && Skippable("feature_flags")
    ensures Skippable("sampling") && Skippable("m")
  {}

  lemma MoreRequestKeys()
    ensures Skippable("min_new_tokens") && Skippable("apply_chat_template")
  {}

  lemma StageKeys()
    ensures AllSkippable(STAGE_KEYS)
  {
    assert Skippable("ok") && Skippable("service") && Skippable("runtime");
    assert Skippable("backend") && Skippable("status") && Skippable("stage_id");
    hide Skippable;
  }

  lemma StageSizeKeys()
    ensures Skippable("input_metadata_bytes") && Skippable("input_tensor_bytes") && Skippable("output_tensor_bytes")
    ensures Skippable("is_final_stage")
  {}

  lemma TimeKeys()
    ensures AllSkippable(TIME_KEYS)
  {
    assert Skippable("metrics") && Skippable("backend") && Skippable("status");
    assert Skippable("compute_time_ms") && Skippable("true_comm_ms") && Skippable("rpc_wall_time_ms");
    hide Skippable;
  }

  lemma TensorKeys()
    ensures AllSkippable(TENSOR_KEYS)
  {
    assert Skippable("input_tensor_bytes") && Skippable("output_tensor_bytes") && Skippable("stage_input_token_count");
    assert Skippable("stage_output_token_count");
    hide Skippable;
  }

  lemma CacheKeys()
    ensures AllSkippable(CACHE_KEYS)
  {
    assert Skippable("kv_cache_step_valid") && Skippable("kv_cache_seq_before") && Skippable("kv_cache_seq_after");
    assert Skippable("kv_cache_bytes") && Skippable("kv_cache_valid");
    hide Skippable;
  }

  lemma MemoryKeys()
    ensures AllSkippable(MEMORY_KEYS)
  {
    assert Skippable("model_load_ms") && Skippable("memory_rss_mb") && Skippable("memory_cgroup_current_mb");
    assert Skippable("memory_cgroup_limit_mb");
    hide Skippable;
  }

  lemma SessionKeys()
    ensures AllSkippable(SESSION_KEYS)
  {
    assert Skippable("memory_cgroup_percent") && Skippable("model_file_size_mb") && Skippable("session_count");
    assert Skippable("session_kv_cache_bytes");
    hide Skippable;
  }

  lemma ProcessKeys()
    ensures AllSkippable(PROCESS_KEYS)
  {
    assert Skippable("process_cpu_percent") && Skippable("system_cpu_percent") && Skippable("process_threads");
    assert Skippable("process_context_switches");
    hide Skippable;
  }

  lemma SwitchKeys()
    ensures AllSkippable(SWITCH_KEYS)
  {
    assert Skippable("voluntary") && Skippable("involuntary") && Skippable("process_io_delta");
    assert Skippable("read_bytes") && Skippable("write_bytes");
    hide Skippable;
  }

  lemma KernelKeys()
    ensures AllSkippable(KERNEL_KEYS)
  {
    assert Skippable("read_count") && Skippable("write_count") && Skippable("matmul_ms");
    assert Skippable("attention_ms") && Skippable("ggml_threads") && Skippable("backend_metadata");
    hide Skippable;
  }

  lemma MetricKeys()
    ensures AllSkippable(METRIC_KEYS)
  {
    hide Skippable, AllSkippable;
    TimeKeys();
    TensorKeys();
    JoinSkippable(TIME_KEYS, TENSOR_KEYS);
    CacheKeys();
    JoinSkippable(TIME_KEYS + TENSOR_KEYS, CACHE_KEYS);
    MemoryKeys();
    JoinSkippable(TIME_KEYS + TENSOR_KEYS + CACHE_KEYS, MEMORY_KEYS);
    SessionKeys();
    JoinSkippable(TIME_KEYS + TENSOR_KEYS + CACHE_KEYS + MEMORY_KEYS, SESSION_KEYS);
    ProcessKeys();
    JoinSkippable(TIME_KEYS + TENSOR_KEYS + CACHE_KEYS + MEMORY_KEYS + SESSION_KEYS, PROCESS_KEYS);
    SwitchKeys();
    JoinSkippable(TIME_KEYS + TENSOR_KEYS + CACHE_KEYS + MEMORY_KEYS + SESSION_KEYS + PROCESS_KEYS, SWITCH_KEYS);
    KernelKeys();
    JoinSkippable(TIME_KEYS + TENSOR_KEYS + CACHE_KEYS + MEMORY_KEYS + SESSION_KEYS + PROCESS_KEYS + SWITCH_KEYS, KERNEL_KEYS);
  }

  // ----- Lists whose keys are readers' keys or skipped ones -----

  predicate Listed(e: Pair) {
    IsReadable(e.key) || (e.value.Nothing? && e.key.Unread? && Skippable(e.key.name))
  }

  ghost predicate AllListed(m: seq<Pair>) {
    forall i :: 0 <= i < |m| ==> Listed(m[i])
  }

  ghost predicate AllPrintable(number: Printer, m: seq<Pair>) {
    forall i :: 0 <= i < |m| ==> Printable(number, m[i])
  }

  /** Only objects that no reader asks for are opened, and every other such value has a text. */
  ghost predicate Fitting(place: Key -> Place, filler: Key -> Json.Value) {
    && (forall k :: place(k).Opener? ==> k.Unread?)
    && (forall k :: Plain(filler(k)))
  }

  lemma ListedIsProper(number: Printer, e: Pair, place: Key -> Place, filler: Key -> Json.Value)
    requires Listed(e) && Printable(number, e) && Fitting(place, filler)
    ensures Proper(number, e, place, filler)
  {
    hide Skippable, Plain, NumberLike;
    if !IsReadable(e.key) {
      SkippableIsProper(e.key.name);
      hide ProperKey;
    }
  }

  lemma ListIsProper(number: Printer, m: seq<Pair>, place: Key -> Place, filler: Key -> Json.Value)
    requires AllListed(m) && AllPrintable(number, m) && Fitting(place, filler)
    ensures AllProper(number, m, place, filler)
  {
    hide Listed, Printable, Proper, Fitting;
    forall i | 0 <= i < |m| ensures Proper(number, m[i], place, filler) {
      ListedIsProper(number, m[i], place, filler);
    }
  }

  lemma JoinListed(a: seq<Pair>, b: seq<Pair>)
    ensures AllListed(a + b) <==> AllListed(a) && AllListed(b)
  {
    hide Listed;
    if AllListed(a + b) {
      assert forall i :: 0 <= i < |a| ==> (a + b)[i] == a[i];
      assert forall i :: 0 <= i < |b| ==> (a + b)[|a| + i] == b[i];
    }
  }

  lemma SkippedAreListed(names: seq<string>)
    requires AllSkippable(names)
    ensures AllListed(SkippedAll(names))
  {
    hide Skippable;
  }

  lemma OptionalIsListed(k: Key, v: Option<Value>)
    requires IsReadable(k)
    ensures AllListed(Optional(k, v))
  {}

  lemma ControlsAreListed(temperature: Option<Value>, topK: Option<Value>, topP: Option<Value>, seed: Option<Value>,
                          rest: seq<Pair>)
    requires AllListed(rest)
    ensures AllListed(Controls(temperature, topK, topP, seed, rest))
  {
    hide AllListed, Optional;
    OptionalIsListed(Temperature, temperature);
    OptionalIsListed(TopK, topK);
    OptionalIsListed(TopP, topP);
    OptionalIsListed(Seed, seed);
    JoinListed(Optional(Seed, seed), rest);
    JoinListed(Optional(TopP, topP), Optional(Seed, seed) + rest);
    JoinListed(Optional(TopK, topK), Optional(TopP, topP) + (Optional(Seed, seed) + rest));
    JoinListed(Optional(Temperature, temperature), Optional(TopK, topK) + (Optional(TopP, topP) + (Optional(Seed, seed) + rest)));
  }

  // ----- The gateway's text -----

  function FullPlace(k: Key): Place {
    match k
    case ByteOrder => Closer
    case Unread(name) =>
      if name == "tensor" || name == "feature_flags" || name == "sampling" then Opener
      else if name == "apply_chat_template" then Closer else Inner
    case _ => Inner
  }

  function FlatPlace(k: Key): Place { Inner }

  /** What the gateway prints that no reader asks for. */
  datatype Extra = Extra(minNew: int, template: bool)

  function ExtraText(x: Extra, shape: seq<int>, k: Key): Json.Value {
    if k == Unread("sequence_length") then Json.Bare(ToString(if |shape| >= 2 then shape[1] else 0))
    else if k == Unread("apply_chat_template") then Json.Bare(if x.template then "true" else "false")
    else Json.Bare(ToString(x.minNew))
  }

  function ExtraTexts(x: Extra, shape: seq<int>): Key -> Json.Value {
    k => ExtraText(x, shape, k)
  }

  /** `request_metadata_json`: one object under short names, nested ones under long names. */
  function RequestText(nm: Numerics, number: Printer, s: Settings, c: Call, shape: seq<int>, x: Extra): string {
    if IsCompact(s.level) then Printed(number, Nested(RequestMeta(nm, s, c, shape), "{", FlatPlace, ExtraTexts(x, shape)), "}")
    else Printed(number, Nested(RequestMeta(nm, s, c, shape), "{", FullPlace, ExtraTexts(x, shape)), "}}")
  }

  lemma IntIsPlain(i: int)
    ensures Plain(Json.Bare(ToString(i)))
  {
    PrintedInt(i);
    hide ToString, IntText, DoubleText;
  }

  lemma ExtraIsPlain(x: Extra, shape: seq<int>, k: Key)
    ensures Plain(ExtraText(x, shape, k))
  {
    IntIsPlain(if |shape| >= 2 then shape[1] else 0);
    IntIsPlain(x.minNew);
    hide ToString;
  }

  lemma RequestFits(x: Extra, shape: seq<int>)
    ensures Fitting(FullPlace, ExtraTexts(x, shape)) && Fitting(FlatPlace, ExtraTexts(x, shape))
  {
    hide Plain, ExtraText;
    forall k ensures Plain(ExtraTexts(x, shape)(k)) { ExtraIsPlain(x, shape, k); }
  }

  lemma EntriesAreListed(s: Settings, c: Call, shape: seq<int>)
    ensures AllListed(RequestEntries(s, c, shape))
  {
    hide Skippable, IsCompact;
    RequestKeys();
    MoreRequestKeys();
    if IsCompact(s.level) {
      assert AllListed(CompactEntries(s, c, shape));
    } else {
      assert AllListed(FullEntries(s, c, shape));
    }
  }

  lemma RequestIsListed(nm: Numerics, s: Settings, c: Call, shape: seq<int>)
    ensures AllListed(RequestMeta(nm, s, c, shape))
  {
    hide RequestEntries, Skippable, Controls, AllListed;
    RequestKeys();
    MoreRequestKeys();
    EntriesAreListed(s, c, shape);
    var last := Skipped(if IsCompact(s.level) then "m" else "min_new_tokens");
    LastIsListed(last);
    ControlsAreListed(Some(Number(nm.shown(s.temperature))), Some(Whole(s.topK)), Some(TopPText(nm, s)), Counted(s.seed), [last]);
    JoinListed(RequestEntries(s, c, shape), GatewayControls(nm, s, [last]));
  }

  lemma LastIsListed(e: Pair)
    requires Listed(e)
    ensures AllListed([e])
  {
    hide Listed;
  }

  /** What the gateway prints for a request is parsed into the request, step, mode, tensor,
      flags and controls that it was printed from. */
  lemma PrintedRequestIsRead(nm: Numerics, d: Doubles, number: Printer, s: Settings, c: Call, shape: seq<int>, x: Extra)
    requires AllPrintable(number, RequestMeta(nm, s, c, shape)) && ListDecodes(nm, d, number, RequestMeta(nm, s, c, shape))
    ensures ParseText(d, RequestText(nm, number, s, c, shape, x)) == Ok(Asked(nm, s, c, shape))
  {
    hide AllPrintable, ListDecodes, RequestMeta, Laid, Printed, ParseText, Asked, IsCompact, Fitting, AllListed, AllProper,
      EndsNumber, Json.NoQuote, Nested, Pairs;
    var m := RequestMeta(nm, s, c, shape);
    PunctuationEnds();
    RequestFits(x, shape);
    RequestIsListed(nm, s, c, shape);
    if IsCompact(s.level) {
      ListIsProper(number, m, FlatPlace, ExtraTexts(x, shape));
      NestedIsLaid(number, m, "{", FlatPlace, ExtraTexts(x, shape), "}");
      RequestTextIsRead(nm, d, number, Nested(m, "{", FlatPlace, ExtraTexts(x, shape)), "}", s, c, shape);
    } else {
      ListIsProper(number, m, FullPlace, ExtraTexts(x, shape));
      NestedIsLaid(number, m, "{", FullPlace, ExtraTexts(x, shape), "}}");
      RequestTextIsRead(nm, d, number, Nested(m, "{", FullPlace, ExtraTexts(x, shape)), "}}", s, c, shape);
    }
  }

  // ----- A stage's text -----

  function StagePlace(k: Key): Place {
    match k
    case ByteOrder => Closer
    case Level => Closer
    case Unread(name) => if name == "tensor" || name == "feature_flags" then Opener else Inner
    case _ => Inner
  }

  function MetricPlace(k: Key): Place {
    match k
    case Unread(name) =>
      if name == "metrics" || name == "process_context_switches" || name == "process_io_delta" || name == "backend_metadata"
      then Opener
      else if name == "involuntary" || name == "write_count" || name == "ggml_threads" then Closer else Inner
    case _ => Inner
  }

  /** The entries up to the metrics. */
  function StageTop(nm: Numerics, p: Parsed, r: Reply): seq<Pair> {
    SkippedAll(STAGE_KEYS) + (StageEntries(p, r) +
      Controls(Sampled(nm, p.sampling.temperature), Counted(p.sampling.topK),
               Sampled(nm, p.sampling.topP), Counted(p.sampling.seed), []))
  }

  /** `runtime_response_metadata_json` with `metrics_json` in it; `own` and `metric` are the
      values of the two that no reader asks for, `backend` is what the backend prints between
      its braces. */
  function StageLayout(nm: Numerics, p: Parsed, r: Reply, own: Key -> Json.Value, metric: Key -> Json.Value,
      backend: seq<Entry>): seq<Entry>
  {
    Nested(StageTop(nm, p, r), "{", StagePlace, own)
    + (Nested(SkippedAll(METRIC_KEYS), Closing(StageTop(nm, p, r), "{", StagePlace), MetricPlace, metric) + backend)
  }

  function StageText(nm: Numerics, number: Printer, p: Parsed, r: Reply, own: Key -> Json.Value, metric: Key -> Json.Value,
      backend: seq<Entry>, close: string): string
  {
    Printed(number, StageLayout(nm, p, r, own, metric, backend), close + "}")
  }

  lemma ControlsRest(temperature: Option<Value>, topK: Option<Value>, topP: Option<Value>, seed: Option<Value>,
                     rest: seq<Pair>)
    ensures Controls(temperature, topK, topP, seed, rest) == Controls(temperature, topK, topP, seed, []) + rest
  {
    hide Optional;
    var a, b, c, d := Optional(Temperature, temperature), Optional(TopK, topK), Optional(TopP, topP), Optional(Seed, seed);
    assert a + (b + (c + (d + rest))) == (a + (b + (c + (d + [])))) + rest;
  }

  lemma StageSplits(nm: Numerics, p: Parsed, r: Reply)
    ensures StageMeta(nm, p, r) == StageTop(nm, p, r) + (SkippedAll(METRIC_KEYS) + r.backend)
  {
    hide Controls, StageEntries, SkippedAll, Sampled, Counted;
    var s, rest := p.sampling, SkippedAll(METRIC_KEYS) + r.backend;
    var none := Controls(Sampled(nm, s.temperature), Counted(s.topK), Sampled(nm, s.topP), Counted(s.seed), []);
    ControlsRest(Sampled(nm, s.temperature), Counted(s.topK), Sampled(nm, s.topP), Counted(s.seed), rest);
    var a, b := SkippedAll(STAGE_KEYS), StageEntries(p, r);
    assert a + (b + (none + rest)) == (a + (b + none)) + rest;
  }

  lemma StageEntriesAreListed(p: Parsed, r: Reply)
    ensures AllListed(StageEntries(p, r))
  {
    hide Skippable, OutTensor;
    RequestKeys();
    StageSizeKeys();
  }

  lemma TopIsListed(nm: Numerics, p: Parsed, r: Reply)
    ensures AllListed(StageTop(nm, p, r))
  {
    assert AllListed([]);
    hide AllListed, Controls, StageEntries, SkippedAll, Sampled, Counted, AllSkippable;
    var s := p.sampling;
    StageKeys();
    SkippedAreListed(STAGE_KEYS);
    StageEntriesAreListed(p, r);
    ControlsAreListed(Sampled(nm, s.temperature), Counted(s.topK), Sampled(nm, s.topP), Counted(s.seed), []);
    var controls := Controls(Sampled(nm, s.temperature), Counted(s.topK), Sampled(nm, s.topP), Counted(s.seed), []);
    JoinListed(StageEntries(p, r), controls);
    JoinListed(SkippedAll(STAGE_KEYS), StageEntries(p, r) + controls);
  }

  lemma LastMetricOpens()
    ensures var m := SkippedAll(METRIC_KEYS); m != [] && MetricPlace(m[|m| - 1].key).Opener?
  {
    assert KERNEL_KEYS[5] == "backend_metadata";
  }

  lemma SkippedArePrintable(number: Printer, names: seq<string>)
    ensures AllPrintable(number, SkippedAll(names))
  {}

  /** The metrics and the backend's metadata. */
  lemma MetricsAreLaid(number: Printer, opening: string, metric: Key -> Json.Value, backend: seq<Entry>, tail: string)
    requires Json.NoQuote(opening) && Laid(number, backend, tail) && forall k :: Plain(metric(k))
    ensures var es := Nested(SkippedAll(METRIC_KEYS), opening, MetricPlace, metric);
      && Laid(number, es + backend, tail) && Pairs(es + backend) == SkippedAll(METRIC_KEYS) + Pairs(backend)
      && es != [] && es[0].before == opening
  {
    assert Fitting(MetricPlace, metric);
    hide Fitting, AllListed, AllPrintable, AllProper, SkippedAll, Skippable, AllSkippable, Pairs, Plain, MetricPlace;
    MetricKeys();
    SkippedAreListed(METRIC_KEYS);
    SkippedArePrintable(number, METRIC_KEYS);
    ListIsProper(number, SkippedAll(METRIC_KEYS), MetricPlace, metric);
    LastMetricOpens();
    var next := if backend == [] then tail else backend[0].before;
    if backend != [] { LaidUnfolds(number, backend, tail); }
    NestedIsLaid(number, SkippedAll(METRIC_KEYS), opening, MetricPlace, metric, next);
    LaidJoin(number, Nested(SkippedAll(METRIC_KEYS), opening, MetricPlace, metric), backend, tail);
    OneNested(SkippedAll(METRIC_KEYS), opening, MetricPlace, metric, next);
  }

  lemma StageFits(own: Key -> Json.Value)
    requires forall k :: Plain(own(k))
    ensures Fitting(StagePlace, own)
  {
    hide Plain;
  }

  lemma StageIsLaid(nm: Numerics, number: Printer, p: Parsed, r: Reply, own: Key -> Json.Value, metric: Key -> Json.Value,
                    backend: seq<Entry>, tail: string)
    requires AllPrintable(number, StageTop(nm, p, r)) && (forall k :: Plain(own(k)) && Plain(metric(k)))
    requires Laid(number, backend, tail) && Pairs(backend) == r.backend
    ensures var es := StageLayout(nm, p, r, own, metric, backend);
      Laid(number, es, tail) && Pairs(es) == StageMeta(nm, p, r)
  {
    hide Fitting, AllListed, AllPrintable, AllProper, StageTop, SkippedAll, Pairs, Laid, Nested, Plain, EndsNumber, StageMeta;
    var top := StageTop(nm, p, r);
    var opening := Closing(top, "{", StagePlace);
    PunctuationEnds();
    if top != [] { BehindHasNoQuote(StagePlace(top[|top| - 1].key)); }
    hide Json.NoQuote;
    StageFits(own);
    TopIsListed(nm, p, r);
    ListIsProper(number, top, StagePlace, own);
    MetricsAreLaid(number, opening, metric, backend, tail);
    NestedIsLaid(number, top, "{", StagePlace, own, opening);
    var metrics := Nested(SkippedAll(METRIC_KEYS), opening, MetricPlace, metric);
    LaidJoin(number, Nested(top, "{", StagePlace, own), metrics + backend, tail);
    StageSplits(nm, p, r);
  }

  /** What a stage prints is parsed into the stage's own request with the new token, tensor
      and backend fields, whatever metrics it prints and for every backend that prints a list. */
  lemma PrintedStageIsRead(nm: Numerics, d: Doubles, number: Printer, p: Parsed, r: Reply, own: Key -> Json.Value,
                           metric: Key -> Json.Value, backend: seq<Entry>, close: string)
    requires AllPrintable(number, StageTop(nm, p, r)) && ListDecodes(nm, d, number, StageMeta(nm, p, r))
    requires forall k :: Plain(own(k)) && Plain(metric(k))
    requires Laid(number, backend, close + "}") && Pairs(backend) == r.backend
    ensures ParseText(d, StageText(nm, number, p, r, own, metric, backend, close)) == Ok(Onward(nm, p, r))
  {
    hide AllPrintable, ListDecodes, StageMeta, Laid, Printed, ParseText, Onward, StageTop, StageLayout, Plain, Pairs;
    StageIsLaid(nm, number, p, r, own, metric, backend, close + "}");
    StageTextIsRead(nm, d, number, StageLayout(nm, p, r, own, metric, backend), close + "}", p, r);
  }
}
