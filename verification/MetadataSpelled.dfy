/** The text that the gateway prints with every frame, key by key, with its punctuation; and
    what a reader takes from a text that says nothing. */
module MetadataSpelled {
  import opened Basics
  import opened Decimal
  import Json = JsonFields
  import JsonText
  import opened Metadata
  import opened MetadataText
  import opened MetadataPrint
  import Chain = ChainText

  /** A field with what stands before it and all that follows it. */
  function Put(before: string, key: string, value: string, rest: string): string {
    before + ("\"" + key + "\":") + value + rest
  }

  function Quoted(text: string): string {
    "\"" + JsonText.Escape(text) + "\""
  }

  function Truth(on: bool): string {
    if on then "true" else "false"
  }

  // ----- The texts -----

  /** The controls behind the key before them; top_p is null and seed absent if not set. */
  function SamplingPart(nm: Numerics, number: Printer, s: Settings, opening: string, last: string): string {
    Put(opening, "temperature", number(Temperature, nm.shown(s.temperature)),
    Put(",", "top_k", ToString(s.topK),
    Put(",", "top_p", if s.topP.None? then "null" else number(TopP, nm.fixed(s.topP.value)),
    if s.seed.None? then last else Put(",", "seed", ToString(s.seed.value), last))))
  }

  /** One object under short names. */
  function ShortText(nm: Numerics, number: Printer, s: Settings, c: Call, shape: seq<int>, minNew: int): string {
    Put("{", "rid", Quoted(c.requestId),
    Put(",", "ti", ToString(c.tokenIndex),
    Put(",", "gm", Quoted(c.mode),
    Put(",", "dt", Quoted("int64"),
    Put(",", "sh", "[" + Joined(shape) + "]",
    Put(",", "bo", Quoted("little"),
    Put(",", "ap", Quoted(s.precision),
    Put(",", "kv", "true",
    Put(",", "ps", Truth(s.sessions),
    Put(",", "nsc", Truth(s.chaining),
    SamplingPart(nm, number, s, ",", Put(",", "m", ToString(minNew), "}"))))))))))))
  }

  /** Three objects in one under long names. */
  function LongText(nm: Numerics, number: Printer, s: Settings, c: Call, shape: seq<int>, minNew: int, template: bool): string {
    Put("{", "request_id", Quoted(c.requestId),
    Put(",", "token_index", ToString(c.tokenIndex),
    Put(",", "generation_mode", Quoted(c.mode),
    Put(",", "sequence_length", ToString(if |shape| >= 2 then shape[1] else 0),
    Put(",", "tensor", "{",
    Put("", "dtype", Quoted("int64"),
    Put(",", "shape", "[" + Joined(shape) + "]",
    Put(",", "byte_order", Quoted("little"),
    FlagsText(nm, number, s, minNew, template)))))))))
  }

  function FlagsText(nm: Numerics, number: Printer, s: Settings, minNew: int, template: bool): string {
    Put("},", "feature_flags", "{",
    Put("", "kv_cache_enabled", "true",
    Put(",", "transport_mode", Quoted("binary_octet_stream"),
    Put(",", "activation_precision", Quoted(s.precision),
    Put(",", "persistent_sessions_enabled", Truth(s.sessions),
    Put(",", "native_stage_chaining_enabled", Truth(s.chaining),
    Put(",", "metadata_level", Quoted(s.level),
    Put(",", "apply_chat_template", Truth(template),
    Put("},", "sampling", "{",
    SamplingPart(nm, number, s, "", Put(",", "min_new_tokens", ToString(minNew), "}}")))))))))))
  }

  // ----- One entry after the other -----

  lemma CallNames()
    ensures Name(RequestId) == "request_id" && Name(TokenIndex) == "token_index"
    ensures Name(GenerationMode) == "generation_mode" && Name(NextTokenId) == "next_token_id"
  {}

  lemma ShortCallNames()
    ensures Name(Rid) == "rid" && Name(Ti) == "ti"
    ensures Name(Gm) == "gm" && Name(Nt) == "nt"
  {}

  lemma FlagNames()
    ensures Name(KvCache) == "kv_cache_enabled" && Name(Sessions) == "persistent_sessions_enabled"
    ensures Name(Chaining) == "native_stage_chaining_enabled" && Name(Topology) == "topology_aware_routing"
  {}

  lemma LevelNames()
    ensures Name(Precision) == "activation_precision" && Name(Transport) == "transport_mode"
    ensures Name(Level) == "metadata_level" && Name(Rebalance) == "rebalance_profile"
  {}

  lemma ShortFlagNames()
    ensures Name(Kv) == "kv" && Name(Ps) == "ps"
    ensures Name(Nsc) == "nsc"
  {}

  lemma ShortLevelNames()
    ensures Name(Ap) == "ap" && Name(Tm) == "tm"
    ensures Name(Ml) == "ml"
  {}

  lemma TensorNames()
    ensures Name(Dtype) == "dtype" && Name(Shape) == "shape"
    ensures Name(ByteOrder) == "byte_order"
  {}

  lemma ShortTensorNames()
    ensures Name(Dt) == "dt" && Name(Sh) == "sh"
    ensures Name(Bo) == "bo"
  {}

  lemma ControlNames()
    ensures Name(Temperature) == "temperature" && Name(TopK) == "top_k"
    ensures Name(TopP) == "top_p" && Name(Seed) == "seed"
  {}

  lemma Step(number: Printer, e: Pair, rest: seq<Pair>, opening: string, place: Key -> Place, filler: Key -> Json.Value, tail: string)
    ensures Printed(number, Nested([e] + rest, opening, place, filler), tail)
         == Put(opening, Name(e.key), Json.ValueText(Shown(number, Placed(e, opening, place, filler))),
                Printed(number, Nested(rest, Behind(place(e.key)), place, filler), tail))
  {
    assert ([e] + rest)[1..] == rest;
    var es := Nested(rest, Behind(place(e.key)), place, filler);
    var p := Placed(e, opening, place, filler);
    assert ([p] + es)[1..] == es;
    hide Name, Shown, Placed, Json.ValueText, Behind;
  }

  lemma Nothings(number: Printer, opening: string, place: Key -> Place, filler: Key -> Json.Value, tail: string)
    ensures Printed(number, Nested([], opening, place, filler), tail) == tail
  {}

  /** An entry whose value is printed as it is. */
  lemma StepValue(number: Printer, k: Key, v: Value, rest: seq<Pair>, opening: string, place: Key -> Place,
                  filler: Key -> Json.Value, tail: string)
    requires IsReadable(k)
    ensures Printed(number, Nested([Pair(k, v)] + rest, opening, place, filler), tail)
         == Put(opening, Name(k), match v case Text(t) => Quoted(t) case Whole(i) => ToString(i) case Number(x) => number(k, x)
                                   case Flag(on) => Truth(on) case Dims(dims) => "[" + Joined(dims) + "]" case Nothing => "null",
                Printed(number, Nested(rest, Behind(place(k)), place, filler), tail))
  {
    Step(number, Pair(k, v), rest, opening, place, filler, tail);
    hide Name, Nested, Printed, Joined, ToString, Put, JsonText.Escape, IsReadable, Behind;
  }

  lemma StepNumber(number: Printer, k: Key, x: real, rest: seq<Pair>, opening: string, place: Key -> Place,
                   filler: Key -> Json.Value, tail: string)
    requires IsReadable(k) && place(k).Inner?
    ensures Printed(number, Nested([Pair(k, Number(x))] + rest, opening, place, filler), tail)
         == Put(opening, Name(k), number(k, x), Printed(number, Nested(rest, ",", place, filler), tail))
  {
    StepValue(number, k, Number(x), rest, opening, place, filler, tail);
    hide Name, Nested, Printed, Put, IsReadable;
  }

  lemma StepWhole(number: Printer, k: Key, i: int, rest: seq<Pair>, opening: string, place: Key -> Place,
                  filler: Key -> Json.Value, tail: string)
    requires IsReadable(k) && place(k).Inner?
    ensures Printed(number, Nested([Pair(k, Whole(i))] + rest, opening, place, filler), tail)
         == Put(opening, Name(k), ToString(i), Printed(number, Nested(rest, ",", place, filler), tail))
  {
    StepValue(number, k, Whole(i), rest, opening, place, filler, tail);
    hide Name, Nested, Printed, Put, IsReadable, ToString;
  }

  lemma StepText(number: Printer, k: Key, t: string, rest: seq<Pair>, opening: string, place: Key -> Place,
                 filler: Key -> Json.Value, tail: string)
    requires IsReadable(k)
    ensures Printed(number, Nested([Pair(k, Text(t))] + rest, opening, place, filler), tail)
         == Put(opening, Name(k), Quoted(t), Printed(number, Nested(rest, Behind(place(k)), place, filler), tail))
  {
    StepValue(number, k, Text(t), rest, opening, place, filler, tail);
    hide Name, Nested, Printed, Put, IsReadable, Quoted, Behind;
  }

  lemma StepFlag(number: Printer, k: Key, on: bool, rest: seq<Pair>, opening: string, place: Key -> Place,
                 filler: Key -> Json.Value, tail: string)
    requires IsReadable(k) && place(k).Inner?
    ensures Printed(number, Nested([Pair(k, Flag(on))] + rest, opening, place, filler), tail)
         == Put(opening, Name(k), Truth(on), Printed(number, Nested(rest, ",", place, filler), tail))
  {
    StepValue(number, k, Flag(on), rest, opening, place, filler, tail);
    hide Name, Nested, Printed, Put, IsReadable;
  }

  lemma StepDims(number: Printer, k: Key, dims: seq<int>, rest: seq<Pair>, opening: string, place: Key -> Place,
                 filler: Key -> Json.Value, tail: string)
    requires IsReadable(k) && place(k).Inner?
    ensures Printed(number, Nested([Pair(k, Dims(dims))] + rest, opening, place, filler), tail)
         == Put(opening, Name(k), "[" + Joined(dims) + "]", Printed(number, Nested(rest, ",", place, filler), tail))
  {
    StepValue(number, k, Dims(dims), rest, opening, place, filler, tail);
    hide Name, Nested, Printed, Put, IsReadable, Joined;
  }

  /** top_p is printed as null if it is not set. */
  lemma StepTopP(number: Printer, nm: Numerics, s: Settings, rest: seq<Pair>, opening: string, place: Key -> Place,
                 filler: Key -> Json.Value, tail: string)
    requires place(TopP).Inner?
    ensures Printed(number, Nested([Pair(TopP, TopPText(nm, s))] + rest, opening, place, filler), tail)
         == Put(opening, "top_p", if s.topP.None? then "null" else number(TopP, nm.fixed(s.topP.value)),
                Printed(number, Nested(rest, ",", place, filler), tail))
  {
    ControlNames();
    StepValue(number, TopP, TopPText(nm, s), rest, opening, place, filler, tail);
    hide Name, Nested, Printed, Put;
  }

  /** An entry that no reader asks for. */
  lemma StepSkipped(number: Printer, name: string, rest: seq<Pair>, opening: string, place: Key -> Place,
                    filler: Key -> Json.Value, tail: string)
    requires place(Unread(name)).Opener? || filler(Unread(name)).Bare?
    ensures Printed(number, Nested([Skipped(name)] + rest, opening, place, filler), tail)
         == Put(opening, name, if place(Unread(name)).Opener? then "{" else filler(Unread(name)).text,
                Printed(number, Nested(rest, Behind(place(Unread(name))), place, filler), tail))
  {
    Step(number, Skipped(name), rest, opening, place, filler, tail);
    hide Nested, Printed, Put, Behind;
  }

  function SeedAndLast(s: Settings, name: string): seq<Pair> {
    if s.seed.None? then [Skipped(name)] + [] else [Pair(Seed, Whole(s.seed.value))] + ([Skipped(name)] + [])
  }

  lemma SeedIsPrinted(number: Printer, s: Settings, name: string, place: Key -> Place, filler: Key -> Json.Value, tail: string)
    requires place(Seed) == place(Unread(name)) == Inner && filler(Unread(name)).Bare?
    ensures var last := Put(",", name, filler(Unread(name)).text, tail);
      Printed(number, Nested(SeedAndLast(s, name), ",", place, filler), tail)
        == if s.seed.None? then last else Put(",", "seed", ToString(s.seed.value), last)
  {
    ControlNames();
    Steps();
    hide Name, Nested, Printed, Put, ToString, Skipped, Behind;
    if s.seed.Some? { StepWhole(number, Seed, s.seed.value, [Skipped(name)] + [], ",", place, filler, tail); }
    StepSkipped(number, name, [], ",", place, filler, tail);
    Nothings(number, ",", place, filler, tail);
  }

  lemma SamplingIsPrinted(nm: Numerics, number: Printer, s: Settings, name: string, opening: string, place: Key -> Place,
                          filler: Key -> Json.Value, tail: string)
    requires place(Temperature) == place(TopK) == place(TopP) == place(Seed) == place(Unread(name)) == Inner
    requires filler(Unread(name)).Bare?
    ensures Printed(number, Nested(GatewayControls(nm, s, [Skipped(name)]), opening, place, filler), tail)
         == SamplingPart(nm, number, s, opening, Put(",", name, filler(Unread(name)).text, tail))
  {
    ControlsAre(nm, s, name);
    ControlNames();
    Steps();
    SeedIsPrinted(number, s, name, place, filler, tail);
    assert IsReadable(Temperature) && IsReadable(TopK);
    hide Name, Nested, Printed, Put, GatewayControls, ToString, Behind, SeedAndLast, TopPText, IsReadable;
    var l2 := [Pair(TopP, TopPText(nm, s))] + SeedAndLast(s, name);
    var l1 := [Pair(TopK, Whole(s.topK))] + l2;
    StepNumber(number, Temperature, nm.shown(s.temperature), l1, opening, place, filler, tail);
    StepWhole(number, TopK, s.topK, l2, ",", place, filler, tail);
    StepTopP(number, nm, s, SeedAndLast(s, name), ",", place, filler, tail);
  }

  lemma Steps()
    ensures Behind(Inner) == "," && Behind(Opener) == "" && Behind(Closer) == "},"
  {}

  lemma ControlsAre(nm: Numerics, s: Settings, name: string)
    ensures GatewayControls(nm, s, [Skipped(name)])
         == [Pair(Temperature, Number(nm.shown(s.temperature)))]
          + ([Pair(TopK, Whole(s.topK))] + ([Pair(TopP, TopPText(nm, s))] + SeedAndLast(s, name)))
  {
    assert [Skipped(name)] + [] == [Skipped(name)];
    if s.seed.None? { assert Optional(Seed, Counted(s.seed)) + [Skipped(name)] == [Skipped(name)]; }
  }

  // ----- The whole texts -----

  lemma Five(a: Pair, b: Pair, c: Pair, d: Pair, e: Pair, t: seq<Pair>)
    ensures [a, b, c, d, e] + t == [a] + ([b] + ([c] + ([d] + ([e] + t))))
  {}

  lemma Four(a: Pair, b: Pair, c: Pair, d: Pair, t: seq<Pair>)
    ensures [a, b, c, d] + t == [a] + ([b] + ([c] + ([d] + t)))
  {}

  lemma ShortKeysAreRead()
    ensures IsReadable(Rid) && IsReadable(Ti) && IsReadable(Gm) && IsReadable(Dt) && IsReadable(Sh)
    ensures IsReadable(Bo) && IsReadable(Ap) && IsReadable(Kv) && IsReadable(Ps) && IsReadable(Nsc)
  {}

  lemma ShortFlagsArePrinted(nm: Numerics, number: Printer, s: Settings, place: Key -> Place, filler: Key -> Json.Value)
    requires filler(Unread("m")).Bare? && forall k :: place(k) == Inner
    ensures var flags := [Pair(Bo, Text("little")), Pair(Ap, Text(s.precision)), Pair(Kv, Flag(true)),
                          Pair(Ps, Flag(s.sessions)), Pair(Nsc, Flag(s.chaining))];
      Printed(number, Nested(flags + GatewayControls(nm, s, [Skipped("m")]), ",", place, filler), "}")
        == Put(",", "bo", Quoted("little"),
           Put(",", "ap", Quoted(s.precision),
           Put(",", "kv", "true",
           Put(",", "ps", Truth(s.sessions),
           Put(",", "nsc", Truth(s.chaining),
           SamplingPart(nm, number, s, ",", Put(",", "m", filler(Unread("m")).text, "}")))))))
  {
    assert Truth(true) == "true";
    hide *;
    ShortKeysAreRead();
    ShortTensorNames();
    ShortFlagNames();
    ShortLevelNames();
    Steps();
    var t := GatewayControls(nm, s, [Skipped("m")]);
    Five(Pair(Bo, Text("little")), Pair(Ap, Text(s.precision)), Pair(Kv, Flag(true)), Pair(Ps, Flag(s.sessions)),
         Pair(Nsc, Flag(s.chaining)), t);
    var l4 := [Pair(Nsc, Flag(s.chaining))] + t;
    var l3 := [Pair(Ps, Flag(s.sessions))] + l4;
    var l2 := [Pair(Kv, Flag(true))] + l3;
    var l1 := [Pair(Ap, Text(s.precision))] + l2;
    StepText(number, Bo, "little", l1, ",", place, filler, "}");
    StepText(number, Ap, s.precision, l2, ",", place, filler, "}");
    StepFlag(number, Kv, true, l3, ",", place, filler, "}");
    StepFlag(number, Ps, s.sessions, l4, ",", place, filler, "}");
    StepFlag(number, Nsc, s.chaining, t, ",", place, filler, "}");
    SamplingIsPrinted(nm, number, s, "m", ",", place, filler, "}");
  }

  lemma ShortCallIsPrinted(number: Printer, c: Call, shape: seq<int>, l: seq<Pair>, place: Key -> Place, filler: Key -> Json.Value)
    requires forall k :: place(k) == Inner
    ensures Printed(number, Nested([Pair(Rid, Text(c.requestId)), Pair(Ti, Whole(c.tokenIndex)), Pair(Gm, Text(c.mode)),
                                    Pair(Dt, Text("int64")), Pair(Sh, Dims(shape))] + l, "{", place, filler), "}")
         == Put("{", "rid", Quoted(c.requestId),
            Put(",", "ti", ToString(c.tokenIndex),
            Put(",", "gm", Quoted(c.mode),
            Put(",", "dt", Quoted("int64"),
            Put(",", "sh", "[" + Joined(shape) + "]", Printed(number, Nested(l, ",", place, filler), "}"))))))
  {
    hide *;
    ShortKeysAreRead();
    ShortTensorNames();
    ShortCallNames();
    Steps();
    Five(Pair(Rid, Text(c.requestId)), Pair(Ti, Whole(c.tokenIndex)), Pair(Gm, Text(c.mode)), Pair(Dt, Text("int64")),
         Pair(Sh, Dims(shape)), l);
    var l4 := [Pair(Sh, Dims(shape))] + l;
    var l3 := [Pair(Dt, Text("int64"))] + l4;
    var l2 := [Pair(Gm, Text(c.mode))] + l3;
    var l1 := [Pair(Ti, Whole(c.tokenIndex))] + l2;
    StepText(number, Rid, c.requestId, l1, "{", place, filler, "}");
    StepWhole(number, Ti, c.tokenIndex, l2, ",", place, filler, "}");
    StepText(number, Gm, c.mode, l3, ",", place, filler, "}");
    StepText(number, Dt, "int64", l4, ",", place, filler, "}");
    StepDims(number, Sh, shape, l, ",", place, filler, "}");
  }

  lemma ShortMeta(nm: Numerics, s: Settings, c: Call, shape: seq<int>)
    requires IsCompact(s.level)
    ensures RequestMeta(nm, s, c, shape) ==
      [Pair(Rid, Text(c.requestId)), Pair(Ti, Whole(c.tokenIndex)), Pair(Gm, Text(c.mode)), Pair(Dt, Text("int64")),
       Pair(Sh, Dims(shape))]
      + ([Pair(Bo, Text("little")), Pair(Ap, Text(s.precision)), Pair(Kv, Flag(true)), Pair(Ps, Flag(s.sessions)),
          Pair(Nsc, Flag(s.chaining))] + GatewayControls(nm, s, [Skipped("m")]))
  {
    hide GatewayControls;
  }

  /** Under short names. */
  lemma ShortIsPrinted(nm: Numerics, number: Printer, s: Settings, c: Call, shape: seq<int>, x: Extra)
    requires IsCompact(s.level)
    ensures RequestText(nm, number, s, c, shape, x) == ShortText(nm, number, s, c, shape, x.minNew)
  {
    var filler := ExtraTexts(x, shape);
    assert filler(Unread("m")) == Json.Bare(ToString(x.minNew)) && forall k :: FlatPlace(k) == Inner;
    ShortMeta(nm, s, c, shape);
    ShortFlagsArePrinted(nm, number, s, FlatPlace, filler);
    ShortCallIsPrinted(number, c, shape, RequestMeta(nm, s, c, shape)[5..], FlatPlace, filler);
    hide Nested, Printed, Put, GatewayControls, ToString, Quoted, Joined, Truth, SamplingPart, RequestMeta, ExtraTexts;
  }

  /** Where the long names stand. */
  ghost predicate Places(place: Key -> Place) {
    && place(ByteOrder) == place(Unread("apply_chat_template")) == Closer
    && place(Unread("tensor")) == place(Unread("feature_flags")) == place(Unread("sampling")) == Opener
    && place(Unread("sequence_length")) == place(Unread("min_new_tokens")) == Inner
    && (forall k :: IsReadable(k) && k != ByteOrder ==> place(k) == Inner)
  }

  lemma InnerPlaces()
    ensures FullPlace(Unread("sequence_length")) == Inner && FullPlace(Unread("min_new_tokens")) == Inner
  {
    assert |"sequence_length"| == 15 && |"min_new_tokens"| == 14;
  }

  lemma LongPlaces()
    ensures Places(FullPlace)
  {
    InnerPlaces();
    assert FullPlace(Unread("tensor")) == FullPlace(Unread("feature_flags")) == FullPlace(Unread("sampling")) == Opener;
    assert FullPlace(ByteOrder) == Closer;
    assert FullPlace(Unread("apply_chat_template")) == Closer by {
      assert |"apply_chat_template"| == 19 && |"tensor"| == 6 && |"feature_flags"| == 13 && |"sampling"| == 8;
    }
    assert forall k :: IsReadable(k) && k != ByteOrder ==> FullPlace(k) == Inner;
    hide FullPlace, IsReadable;
  }

  lemma LongFillers(x: Extra, shape: seq<int>)
    ensures var filler := ExtraTexts(x, shape);
      && filler(Unread("sequence_length")) == Json.Bare(ToString(if |shape| >= 2 then shape[1] else 0))
      && filler(Unread("apply_chat_template")) == Json.Bare(Truth(x.template))
      && filler(Unread("min_new_tokens")) == Json.Bare(ToString(x.minNew))
  {
    hide ToString;
    assert |"sequence_length"| == 15 && |"apply_chat_template"| == 19;
    LastFiller(x, shape);
  }

  lemma LastFiller(x: Extra, shape: seq<int>)
    ensures ExtraTexts(x, shape)(Unread("min_new_tokens")) == Json.Bare(ToString(x.minNew))
  {
    hide ToString;
    assert |"sequence_length"| == 15 && |"min_new_tokens"| == 14 && |"apply_chat_template"| == 19;
  }

  lemma LongKeysAreRead()
    ensures IsReadable(RequestId) && IsReadable(TokenIndex) && IsReadable(GenerationMode) && IsReadable(Dtype)
    ensures IsReadable(Shape) && IsReadable(ByteOrder) && IsReadable(KvCache) && IsReadable(Transport) && IsReadable(Precision)
    ensures IsReadable(Sessions) && IsReadable(Chaining) && IsReadable(Level) && IsReadable(Temperature) && IsReadable(TopK)
    ensures IsReadable(TopP) && IsReadable(Seed)
  {}

  lemma LongCallIsPrinted(number: Printer, c: Call, l: seq<Pair>, place: Key -> Place, filler: Key -> Json.Value, tail: string)
    requires Places(place) && filler(Unread("sequence_length")).Bare?
    ensures Printed(number, Nested([Pair(RequestId, Text(c.requestId)), Pair(TokenIndex, Whole(c.tokenIndex)),
                                    Pair(GenerationMode, Text(c.mode)), Skipped("sequence_length"), Skipped("tensor")] + l,
                                   "{", place, filler), tail)
         == Put("{", "request_id", Quoted(c.requestId),
            Put(",", "token_index", ToString(c.tokenIndex),
            Put(",", "generation_mode", Quoted(c.mode),
            Put(",", "sequence_length", filler(Unread("sequence_length")).text,
            Put(",", "tensor", "{", Printed(number, Nested(l, "", place, filler), tail))))))
  {
    LongKeysAreRead();
    hide *;
    PlacesAre(place);
    CallNames();
    Steps();
    Five(Pair(RequestId, Text(c.requestId)), Pair(TokenIndex, Whole(c.tokenIndex)), Pair(GenerationMode, Text(c.mode)),
         Skipped("sequence_length"), Skipped("tensor"), l);
    var l4 := [Skipped("tensor")] + l;
    var l3 := [Skipped("sequence_length")] + l4;
    var l2 := [Pair(GenerationMode, Text(c.mode))] + l3;
    var l1 := [Pair(TokenIndex, Whole(c.tokenIndex))] + l2;
    StepText(number, RequestId, c.requestId, l1, "{", place, filler, tail);
    StepWhole(number, TokenIndex, c.tokenIndex, l2, ",", place, filler, tail);
    StepText(number, GenerationMode, c.mode, l3, ",", place, filler, tail);
    StepSkipped(number, "sequence_length", l4, ",", place, filler, tail);
    StepSkipped(number, "tensor", l, ",", place, filler, tail);
  }

  lemma PlacesAre(place: Key -> Place)
    requires Places(place)
    ensures place(RequestId) == place(TokenIndex) == place(GenerationMode) == place(Dtype) == place(Shape) == Inner
    ensures place(KvCache) == place(Transport) == place(Precision) == place(Sessions) == place(Chaining) == place(Level) == Inner
    ensures place(Temperature) == place(TopK) == place(TopP) == place(Seed) == Inner
    ensures place(Unread("sequence_length")) == place(Unread("min_new_tokens")) == Inner
    ensures place(ByteOrder) == place(Unread("apply_chat_template")) == Closer
    ensures place(Unread("tensor")) == place(Unread("feature_flags")) == place(Unread("sampling")) == Opener
  {
    LongKeysAreRead();
    hide IsReadable;
  }

  lemma Three(a: Pair, b: Pair, c: Pair, t: seq<Pair>)
    ensures [a, b, c] + t == [a] + ([b] + ([c] + t))
  {}

  lemma LongTensorIsPrinted(number: Printer, shape: seq<int>, l: seq<Pair>, place: Key -> Place, filler: Key -> Json.Value, tail: string)
    requires Places(place)
    ensures Printed(number, Nested([Pair(Dtype, Text("int64")), Pair(Shape, Dims(shape)), Pair(ByteOrder, Text("little"))] + l,
                                   "", place, filler), tail)
         == Put("", "dtype", Quoted("int64"),
            Put(",", "shape", "[" + Joined(shape) + "]",
            Put(",", "byte_order", Quoted("little"), Printed(number, Nested(l, "},", place, filler), tail))))
  {
    LongKeysAreRead();
    hide *;
    PlacesAre(place);
    TensorNames();
    Steps();
    Three(Pair(Dtype, Text("int64")), Pair(Shape, Dims(shape)), Pair(ByteOrder, Text("little")), l);
    var l2 := [Pair(ByteOrder, Text("little"))] + l;
    var l1 := [Pair(Shape, Dims(shape))] + l2;
    StepText(number, Dtype, "int64", l1, "", place, filler, tail);
    StepDims(number, Shape, shape, l2, ",", place, filler, tail);
    StepText(number, ByteOrder, "little", l, ",", place, filler, tail);
  }

  lemma LongFlagsArePrinted(number: Printer, s: Settings, l: seq<Pair>, place: Key -> Place, filler: Key -> Json.Value, tail: string)
    requires Places(place)
    ensures Printed(number, Nested([Skipped("feature_flags"), Pair(KvCache, Flag(true)), Pair(Transport, Text("binary_octet_stream")),
                                    Pair(Precision, Text(s.precision))] + l, "},", place, filler), tail)
         == Put("},", "feature_flags", "{",
            Put("", "kv_cache_enabled", "true",
            Put(",", "transport_mode", Quoted("binary_octet_stream"),
            Put(",", "activation_precision", Quoted(s.precision), Printed(number, Nested(l, ",", place, filler), tail)))))
  {
    LongKeysAreRead();
    assert Truth(true) == "true";
    hide *;
    PlacesAre(place);
    FlagNames();
    LevelNames();
    Steps();
    Four(Skipped("feature_flags"), Pair(KvCache, Flag(true)), Pair(Transport, Text("binary_octet_stream")),
         Pair(Precision, Text(s.precision)), l);
    var l3 := [Pair(Precision, Text(s.precision))] + l;
    var l2 := [Pair(Transport, Text("binary_octet_stream"))] + l3;
    var l1 := [Pair(KvCache, Flag(true))] + l2;
    StepSkipped(number, "feature_flags", l1, "},", place, filler, tail);
    StepFlag(number, KvCache, true, l2, "", place, filler, tail);
    StepText(number, Transport, "binary_octet_stream", l3, ",", place, filler, tail);
    StepText(number, Precision, s.precision, l, ",", place, filler, tail);
  }

  lemma LongRestIsPrinted(nm: Numerics, number: Printer, s: Settings, place: Key -> Place, filler: Key -> Json.Value)
    requires Places(place) && filler(Unread("apply_chat_template")).Bare? && filler(Unread("min_new_tokens")).Bare?
    ensures Printed(number, Nested([Pair(Sessions, Flag(s.sessions)), Pair(Chaining, Flag(s.chaining)), Pair(Level, Text(s.level)),
                                    Skipped("apply_chat_template"), Skipped("sampling")]
                                   + GatewayControls(nm, s, [Skipped("min_new_tokens")]), ",", place, filler), "}}")
         == Put(",", "persistent_sessions_enabled", Truth(s.sessions),
            Put(",", "native_stage_chaining_enabled", Truth(s.chaining),
            Put(",", "metadata_level", Quoted(s.level),
            Put(",", "apply_chat_template", filler(Unread("apply_chat_template")).text,
            Put("},", "sampling", "{",
            SamplingPart(nm, number, s, "", Put(",", "min_new_tokens", filler(Unread("min_new_tokens")).text, "}}")))))))
  {
    LongKeysAreRead();
    hide *;
    PlacesAre(place);
    FlagNames();
    LevelNames();
    Steps();
    var t := GatewayControls(nm, s, [Skipped("min_new_tokens")]);
    Five(Pair(Sessions, Flag(s.sessions)), Pair(Chaining, Flag(s.chaining)), Pair(Level, Text(s.level)),
         Skipped("apply_chat_template"), Skipped("sampling"), t);
    var l4 := [Skipped("sampling")] + t;
    var l3 := [Skipped("apply_chat_template")] + l4;
    var l2 := [Pair(Level, Text(s.level))] + l3;
    var l1 := [Pair(Chaining, Flag(s.chaining))] + l2;
    StepFlag(number, Sessions, s.sessions, l1, ",", place, filler, "}}");
    StepFlag(number, Chaining, s.chaining, l2, ",", place, filler, "}}");
    StepText(number, Level, s.level, l3, ",", place, filler, "}}");
    StepSkipped(number, "apply_chat_template", l4, ",", place, filler, "}}");
    StepSkipped(number, "sampling", t, "},", place, filler, "}}");
    SamplingIsPrinted(nm, number, s, "min_new_tokens", "", place, filler, "}}");
  }

  function CallList(c: Call): seq<Pair> {
    [Pair(RequestId, Text(c.requestId)), Pair(TokenIndex, Whole(c.tokenIndex)),
     Pair(GenerationMode, Text(c.mode)), Skipped("sequence_length"), Skipped("tensor")]
  }

  function TensorList(shape: seq<int>): seq<Pair> {
    [Pair(Dtype, Text("int64")), Pair(Shape, Dims(shape)), Pair(ByteOrder, Text("little"))]
  }

  function FlagList(s: Settings): seq<Pair> {
    [Skipped("feature_flags"), Pair(KvCache, Flag(true)), Pair(Transport, Text("binary_octet_stream")), Pair(Precision, Text(s.precision))]
  }

  function RestList(nm: Numerics, s: Settings): seq<Pair> {
    [Pair(Sessions, Flag(s.sessions)), Pair(Chaining, Flag(s.chaining)), Pair(Level, Text(s.level)),
     Skipped("apply_chat_template"), Skipped("sampling")] + GatewayControls(nm, s, [Skipped("min_new_tokens")])
  }

  lemma LongMeta(nm: Numerics, s: Settings, c: Call, shape: seq<int>)
    requires !IsCompact(s.level)
    ensures RequestMeta(nm, s, c, shape) == CallList(c) + (TensorList(shape) + (FlagList(s) + RestList(nm, s)))
  {
    hide GatewayControls;
  }

  lemma LongParts(nm: Numerics, number: Printer, s: Settings, c: Call, shape: seq<int>, place: Key -> Place, filler: Key -> Json.Value)
    requires Places(place) && filler(Unread("sequence_length")) == Json.Bare(ToString(if |shape| >= 2 then shape[1] else 0))
    requires filler(Unread("apply_chat_template")).Bare? && filler(Unread("min_new_tokens")).Bare?
    ensures var rest := FlagList(s) + RestList(nm, s);
      Printed(number, Nested(CallList(c) + (TensorList(shape) + rest), "{", place, filler), "}}")
        == Put("{", "request_id", Quoted(c.requestId),
           Put(",", "token_index", ToString(c.tokenIndex),
           Put(",", "generation_mode", Quoted(c.mode),
           Put(",", "sequence_length", ToString(if |shape| >= 2 then shape[1] else 0),
           Put(",", "tensor", "{",
           Put("", "dtype", Quoted("int64"),
           Put(",", "shape", "[" + Joined(shape) + "]",
           Put(",", "byte_order", Quoted("little"), Printed(number, Nested(rest, "},", place, filler), "}}")))))))))
  {
    var rest := FlagList(s) + RestList(nm, s);
    LongCallIsPrinted(number, c, TensorList(shape) + rest, place, filler, "}}");
    LongTensorIsPrinted(number, shape, rest, place, filler, "}}");
    hide Places, Printed, Nested, Put, Quoted, ToString, Joined, FlagList, RestList;
  }

  /** Under long names. */
  lemma LongIsPrinted(nm: Numerics, number: Printer, s: Settings, c: Call, shape: seq<int>, x: Extra)
    requires !IsCompact(s.level)
    ensures RequestText(nm, number, s, c, shape, x) == LongText(nm, number, s, c, shape, x.minNew, x.template)
  {
    LongMeta(nm, s, c, shape);
    LongPlaces();
    LongFillers(x, shape);
    var filler := ExtraTexts(x, shape);
    LongParts(nm, number, s, c, shape, FullPlace, filler);
    LongFlagsArePrinted(number, s, RestList(nm, s), FullPlace, filler, "}}");
    LongRestIsPrinted(nm, number, s, FullPlace, filler);
    hide Places, Printed, Nested, Put, Quoted, ToString, Joined, CallList, TensorList, Truth, RequestMeta, SamplingPart, ExtraTexts, GatewayControls;
  }

  /** What the gateway prints, for every level. */
  lemma RequestIsPrinted(nm: Numerics, number: Printer, s: Settings, c: Call, shape: seq<int>, x: Extra)
    ensures RequestText(nm, number, s, c, shape, x) ==
      if s.level == "compact" || s.level == "minimal" then ShortText(nm, number, s, c, shape, x.minNew)
      else LongText(nm, number, s, c, shape, x.minNew, x.template)
  {
    hide RequestText, ShortText, LongText;
    if IsCompact(s.level) {
      ShortIsPrinted(nm, number, s, c, shape, x);
    } else {
      LongIsPrinted(nm, number, s, c, shape, x);
    }
  }

  /** What a reader takes a request for that says nothing. */
  lemma SilenceIsRead(nm: Numerics)
    ensures Parse(nm, []) == Parsed(
      Call("", 0, "unknown", None), Tensor("", [], "little"),
      Features(false, "fp32", "binary_octet_stream", "baseline", false, false, "debug"),
      Sampling(None, None, None, None), false)
  {}

  // ----- A stage's text -----

  function Own(own: Key -> Json.Value, name: string): string {
    Json.ValueText(own(Unread(name)))
  }

  /** What a stage says of itself, and of the request. */
  function StageHead(own: Key -> Json.Value, p: Parsed, r: Reply, rest: string): string {
    Put("{", "ok", Own(own, "ok"),
    Put(",", "service", Own(own, "service"),
    Put(",", "runtime", Own(own, "runtime"),
    Put(",", "backend", Own(own, "backend"),
    Put(",", "status", Own(own, "status"),
    Put(",", "stage_id", Own(own, "stage_id"), StageCall(own, p, r, rest)))))))
  }

  function StageCall(own: Key -> Json.Value, p: Parsed, r: Reply, rest: string): string {
    Put(",", "request_id", Quoted(p.call.requestId),
    Put(",", "token_index", ToString(p.call.tokenIndex),
    Put(",", "generation_mode", Quoted(p.call.mode),
    Put(",", "input_metadata_bytes", Own(own, "input_metadata_bytes"),
    Put(",", "input_tensor_bytes", Own(own, "input_tensor_bytes"),
    Put(",", "output_tensor_bytes", Own(own, "output_tensor_bytes"),
    Put(",", "is_final_stage", Own(own, "is_final_stage"),
    Put(",", "next_token_id", ToString(r.nextToken), rest))))))))
  }

  /** The tensor's description and the flags. */
  function StageBody(t: Tensor, p: Parsed, rest: string): string {
    Put(",", "tensor", "{",
    Put("", "dtype", Quoted(t.dtype),
    Put(",", "shape", "[" + Joined(t.shape) + "]",
    Put(",", "byte_order", Quoted(t.byteOrder), StageFlags(p, rest)))))
  }

  function StageFlags(p: Parsed, rest: string): string {
    Put("},", "feature_flags", "{",
    Put("", "kv_cache_enabled", Truth(p.features.kvCache),
    Put(",", "native_stage_chaining_enabled", Truth(p.chaining),
    Put(",", "transport_mode", Quoted(p.features.transport),
    Put(",", "activation_precision", Quoted(p.features.precision),
    Put(",", "persistent_sessions_enabled", Truth(p.features.sessions),
    Put(",", "metadata_level", Quoted(p.features.level), rest)))))))
  }

  /** The controls that are set. */
  function StageControls(nm: Numerics, number: Printer, s: Sampling, tail: string): string {
    var b1 := if s.temperature.Some? then "," else "},";
    var b2 := if s.topK.Some? then "," else b1;
    var b3 := if s.topP.Some? then "," else b2;
    var t3 := if s.seed.Some? then Put(b3, "seed", ToString(s.seed.value), tail) else tail;
    var t2 := if s.topP.Some? then Put(b2, "top_p", number(TopP, nm.shown(s.topP.value)), t3) else t3;
    var t1 := if s.topK.Some? then Put(b1, "top_k", ToString(s.topK.value), t2) else t2;
    if s.temperature.Some? then Put("},", "temperature", number(Temperature, nm.shown(s.temperature.value)), t1) else t1
  }

  ghost predicate StagePlaces(place: Key -> Place) {
    && place(ByteOrder) == place(Level) == Closer
    && place(Unread("tensor")) == place(Unread("feature_flags")) == Opener
    && (forall k :: IsReadable(k) && k != ByteOrder && k != Level ==> place(k) == Inner)
  }

  lemma StagePlacesAre()
    ensures StagePlaces(StagePlace)
  {}

  lemma StepOwn(number: Printer, name: string, rest: seq<Pair>, opening: string, place: Key -> Place,
                own: Key -> Json.Value, tail: string)
    requires place(Unread(name)).Inner?
    ensures Printed(number, Nested([Skipped(name)] + rest, opening, place, own), tail)
         == Put(opening, name, Own(own, name), Printed(number, Nested(rest, ",", place, own), tail))
  {
    Step(number, Skipped(name), rest, opening, place, own, tail);
    hide Nested, Printed, Put, Json.ValueText;
  }

  lemma StageHeadIsPrinted(number: Printer, l: seq<Pair>, place: Key -> Place, own: Key -> Json.Value, p: Parsed, r: Reply, tail: string)
    requires forall name :: name in STAGE_KEYS ==> place(Unread(name)) == Inner
    ensures Printed(number, Nested(SkippedAll(STAGE_KEYS) + l, "{", place, own), tail)
         == Put("{", "ok", Own(own, "ok"),
            Put(",", "service", Own(own, "service"),
            Put(",", "runtime", Own(own, "runtime"),
            Put(",", "backend", Own(own, "backend"),
            Put(",", "status", Own(own, "status"),
            Put(",", "stage_id", Own(own, "stage_id"), Printed(number, Nested(l, ",", place, own), tail)))))))
  {
    var l5 := [Skipped("stage_id")] + l;
    assert SkippedAll(STAGE_KEYS) + l == [Skipped("ok"), Skipped("service"), Skipped("runtime"), Skipped("backend"), Skipped("status")] + l5;
    assert STAGE_KEYS[0] == "ok" && STAGE_KEYS[1] == "service" && STAGE_KEYS[2] == "runtime" && STAGE_KEYS[3] == "backend"
      && STAGE_KEYS[4] == "status" && STAGE_KEYS[5] == "stage_id";
    hide *;
    Five(Skipped("ok"), Skipped("service"), Skipped("runtime"), Skipped("backend"), Skipped("status"), l5);
    var l4 := [Skipped("status")] + l5;
    var l3 := [Skipped("backend")] + l4;
    var l2 := [Skipped("runtime")] + l3;
    var l1 := [Skipped("service")] + l2;
    StepOwn(number, "ok", l1, "{", place, own, tail);
    StepOwn(number, "service", l2, ",", place, own, tail);
    StepOwn(number, "runtime", l3, ",", place, own, tail);
    StepOwn(number, "backend", l4, ",", place, own, tail);
    StepOwn(number, "status", l5, ",", place, own, tail);
    StepOwn(number, "stage_id", l, ",", place, own, tail);
  }

  lemma StageKeysAreInner()
    ensures forall name :: name in STAGE_KEYS ==> StagePlace(Unread(name)) == Inner
  {
    assert |"tensor"| == 6 && |"feature_flags"| == 13 && "status"[0] == 's' && "tensor"[0] == 't';
    assert |"ok"| == 2 && |"service"| == |"runtime"| == |"backend"| == 7 && |"stage_id"| == 8;
  }

  lemma SizesAreInner()
    ensures StagePlace(Unread("input_metadata_bytes")) == Inner && StagePlace(Unread("input_tensor_bytes")) == Inner
    ensures StagePlace(Unread("output_tensor_bytes")) == Inner && StagePlace(Unread("is_final_stage")) == Inner
  {
    assert |"tensor"| == 6 && |"feature_flags"| == 13;
    assert |"input_metadata_bytes"| == 20 && |"input_tensor_bytes"| == 18 && |"output_tensor_bytes"| == 19 && |"is_final_stage"| == 14;
  }

  ghost predicate SizePlaces(place: Key -> Place) {
    && place(Unread("input_metadata_bytes")) == place(Unread("input_tensor_bytes")) == Inner
    && place(Unread("output_tensor_bytes")) == place(Unread("is_final_stage")) == Inner
  }

  lemma ReadablePlaces(place: Key -> Place)
    requires StagePlaces(place)
    ensures place(RequestId) == place(TokenIndex) == place(GenerationMode) == place(NextTokenId) == Inner
    ensures place(Dtype) == place(Shape) == place(KvCache) == place(Chaining) == place(Transport) == Inner
    ensures place(Precision) == place(Sessions) == place(Temperature) == place(TopK) == place(TopP) == place(Seed) == Inner
    ensures place(ByteOrder) == place(Level) == Closer
    ensures place(Unread("tensor")) == place(Unread("feature_flags")) == Opener
  {
    LongKeysAreRead();
    assert IsReadable(NextTokenId);
    hide IsReadable;
  }

  lemma StageCallIsPrinted(number: Printer, l: seq<Pair>, place: Key -> Place, own: Key -> Json.Value, p: Parsed, tail: string)
    requires StagePlaces(place) && SizePlaces(place)
    ensures Printed(number, Nested([Pair(RequestId, Text(p.call.requestId)), Pair(TokenIndex, Whole(p.call.tokenIndex)),
              Pair(GenerationMode, Text(p.call.mode)), Skipped("input_metadata_bytes")] + l, ",", place, own), tail)
         == Put(",", "request_id", Quoted(p.call.requestId),
            Put(",", "token_index", ToString(p.call.tokenIndex),
            Put(",", "generation_mode", Quoted(p.call.mode),
            Put(",", "input_metadata_bytes", Own(own, "input_metadata_bytes"), Printed(number, Nested(l, ",", place, own), tail)))))
  {
    LongKeysAreRead();
    assert place(Unread("input_metadata_bytes")) == Inner;
    hide *;
    ReadablePlaces(place);
    CallNames();
    Steps();
    Four(Pair(RequestId, Text(p.call.requestId)), Pair(TokenIndex, Whole(p.call.tokenIndex)),
         Pair(GenerationMode, Text(p.call.mode)), Skipped("input_metadata_bytes"), l);
    var l3 := [Skipped("input_metadata_bytes")] + l;
    var l2 := [Pair(GenerationMode, Text(p.call.mode))] + l3;
    var l1 := [Pair(TokenIndex, Whole(p.call.tokenIndex))] + l2;
    StepText(number, RequestId, p.call.requestId, l1, ",", place, own, tail);
    StepWhole(number, TokenIndex, p.call.tokenIndex, l2, ",", place, own, tail);
    StepText(number, GenerationMode, p.call.mode, l3, ",", place, own, tail);
    StepOwn(number, "input_metadata_bytes", l, ",", place, own, tail);
  }

  lemma StageSizesArePrinted(number: Printer, l: seq<Pair>, place: Key -> Place, own: Key -> Json.Value, r: Reply, tail: string)
    requires StagePlaces(place) && SizePlaces(place)
    ensures Printed(number, Nested([Skipped("input_tensor_bytes"), Skipped("output_tensor_bytes"), Skipped("is_final_stage"),
              Pair(NextTokenId, Whole(r.nextToken))] + l, ",", place, own), tail)
         == Put(",", "input_tensor_bytes", Own(own, "input_tensor_bytes"),
            Put(",", "output_tensor_bytes", Own(own, "output_tensor_bytes"),
            Put(",", "is_final_stage", Own(own, "is_final_stage"),
            Put(",", "next_token_id", ToString(r.nextToken), Printed(number, Nested(l, ",", place, own), tail)))))
  {
    assert IsReadable(NextTokenId);
    assert place(Unread("input_tensor_bytes")) == place(Unread("output_tensor_bytes")) == place(Unread("is_final_stage")) == Inner;
    hide *;
    ReadablePlaces(place);
    CallNames();
    Four(Skipped("input_tensor_bytes"), Skipped("output_tensor_bytes"), Skipped("is_final_stage"),
         Pair(NextTokenId, Whole(r.nextToken)), l);
    var l3 := [Pair(NextTokenId, Whole(r.nextToken))] + l;
    var l2 := [Skipped("is_final_stage")] + l3;
    var l1 := [Skipped("output_tensor_bytes")] + l2;
    StepOwn(number, "input_tensor_bytes", l1, ",", place, own, tail);
    StepOwn(number, "output_tensor_bytes", l2, ",", place, own, tail);
    StepOwn(number, "is_final_stage", l3, ",", place, own, tail);
    StepWhole(number, NextTokenId, r.nextToken, l, ",", place, own, tail);
  }

  lemma StageTensorIsPrinted(number: Printer, t: Tensor, l: seq<Pair>, place: Key -> Place, own: Key -> Json.Value, tail: string)
    requires StagePlaces(place)
    ensures Printed(number, Nested([Skipped("tensor"), Pair(Dtype, Text(t.dtype)), Pair(Shape, Dims(t.shape)),
                                    Pair(ByteOrder, Text(t.byteOrder))] + l, ",", place, own), tail)
         == Put(",", "tensor", "{",
            Put("", "dtype", Quoted(t.dtype),
            Put(",", "shape", "[" + Joined(t.shape) + "]",
            Put(",", "byte_order", Quoted(t.byteOrder), Printed(number, Nested(l, "},", place, own), tail)))))
  {
    LongKeysAreRead();
    hide *;
    ReadablePlaces(place);
    TensorNames();
    Steps();
    Four(Skipped("tensor"), Pair(Dtype, Text(t.dtype)), Pair(Shape, Dims(t.shape)), Pair(ByteOrder, Text(t.byteOrder)), l);
    var l3 := [Pair(ByteOrder, Text(t.byteOrder))] + l;
    var l2 := [Pair(Shape, Dims(t.shape))] + l3;
    var l1 := [Pair(Dtype, Text(t.dtype))] + l2;
    StepSkipped(number, "tensor", l1, ",", place, own, tail);
    StepText(number, Dtype, t.dtype, l2, "", place, own, tail);
    StepDims(number, Shape, t.shape, l3, ",", place, own, tail);
    StepText(number, ByteOrder, t.byteOrder, l, ",", place, own, tail);
  }

  lemma StageFlagsArePrinted(number: Printer, p: Parsed, l: seq<Pair>, place: Key -> Place, own: Key -> Json.Value, tail: string)
    requires StagePlaces(place)
    ensures Printed(number, Nested([Skipped("feature_flags"), Pair(KvCache, Flag(p.features.kvCache)), Pair(Chaining, Flag(p.chaining)),
              Pair(Transport, Text(p.features.transport))]
              + ([Pair(Precision, Text(p.features.precision)), Pair(Sessions, Flag(p.features.sessions)),
                  Pair(Level, Text(p.features.level))] + l), "},", place, own), tail)
         == StageFlags(p, Printed(number, Nested(l, "},", place, own), tail))
  {
    LongKeysAreRead();
    FlagNames();
    LevelNames();
    Steps();
    hide Printed, Nested, Put, Quoted, Name, Skipped, Behind, Truth, IsReadable, StagePlaces;
    ReadablePlaces(place);
    var l7 := [Pair(Level, Text(p.features.level))] + l;
    var l6 := [Pair(Sessions, Flag(p.features.sessions))] + l7;
    var l5 := [Pair(Precision, Text(p.features.precision))] + l6;
    Three(Pair(Precision, Text(p.features.precision)), Pair(Sessions, Flag(p.features.sessions)), Pair(Level, Text(p.features.level)), l);
    Four(Skipped("feature_flags"), Pair(KvCache, Flag(p.features.kvCache)), Pair(Chaining, Flag(p.chaining)),
         Pair(Transport, Text(p.features.transport)), l5);
    var l4 := [Pair(Transport, Text(p.features.transport))] + l5;
    var l3 := [Pair(Chaining, Flag(p.chaining))] + l4;
    var l2 := [Pair(KvCache, Flag(p.features.kvCache))] + l3;
    StepSkipped(number, "feature_flags", l2, "},", place, own, tail);
    StepFlag(number, KvCache, p.features.kvCache, l3, "", place, own, tail);
    StepFlag(number, Chaining, p.chaining, l4, ",", place, own, tail);
    StepText(number, Transport, p.features.transport, l5, ",", place, own, tail);
    StepText(number, Precision, p.features.precision, l6, ",", place, own, tail);
    StepFlag(number, Sessions, p.features.sessions, l7, ",", place, own, tail);
    StepText(number, Level, p.features.level, l, ",", place, own, tail);
  }

  lemma NumberIfSet(number: Printer, nm: Numerics, k: Key, x: Option<real>, l: seq<Pair>, opening: string, place: Key -> Place,
                    own: Key -> Json.Value, tail: string)
    requires IsReadable(k) && place(k).Inner?
    ensures Printed(number, Nested(Optional(k, Sampled(nm, x)) + l, opening, place, own), tail)
         == if x.None? then Printed(number, Nested(l, opening, place, own), tail)
            else Put(opening, Name(k), number(k, nm.shown(x.value)), Printed(number, Nested(l, ",", place, own), tail))
  {
    if x.Some? { StepNumber(number, k, nm.shown(x.value), l, opening, place, own, tail); } else { assert [] + l == l; }
    hide Nested, Printed, Put, Name, IsReadable;
  }

  lemma WholeIfSet(number: Printer, k: Key, i: Option<int>, l: seq<Pair>, opening: string, place: Key -> Place,
                   own: Key -> Json.Value, tail: string)
    requires IsReadable(k) && place(k).Inner?
    ensures Printed(number, Nested(Optional(k, Counted(i)) + l, opening, place, own), tail)
         == if i.None? then Printed(number, Nested(l, opening, place, own), tail)
            else Put(opening, Name(k), ToString(i.value), Printed(number, Nested(l, ",", place, own), tail))
  {
    if i.Some? { StepWhole(number, k, i.value, l, opening, place, own, tail); } else { assert [] + l == l; }
    hide Nested, Printed, Put, Name, IsReadable, ToString;
  }

  lemma StageControlsArePrinted(nm: Numerics, number: Printer, s: Sampling, place: Key -> Place, own: Key -> Json.Value, tail: string)
    requires StagePlaces(place)
    ensures Printed(number, Nested(Controls(Sampled(nm, s.temperature), Counted(s.topK), Sampled(nm, s.topP), Counted(s.seed), []),
                                   "},", place, own), tail)
         == StageControls(nm, number, s, tail)
  {
    LongKeysAreRead();
    ReadablePlaces(place);
    ControlNames();
    var b1 := if s.temperature.Some? then "," else "},";
    var b2 := if s.topK.Some? then "," else b1;
    var b3 := if s.topP.Some? then "," else b2;
    var l3 := Optional(Seed, Counted(s.seed)) + [];
    var l2 := Optional(TopP, Sampled(nm, s.topP)) + l3;
    var l1 := Optional(TopK, Counted(s.topK)) + l2;
    hide Nested, Printed, Put, Name, IsReadable, ToString, Optional, StagePlaces;
    NumberIfSet(number, nm, Temperature, s.temperature, l1, "},", place, own, tail);
    WholeIfSet(number, TopK, s.topK, l2, b1, place, own, tail);
    NumberIfSet(number, nm, TopP, s.topP, l3, b2, place, own, tail);
    WholeIfSet(number, Seed, s.seed, [], b3, place, own, tail);
    Nothings(number, ",", place, own, tail);
    Nothings(number, "},", place, own, tail);
  }

  function StageCallList(p: Parsed): seq<Pair> {
    [Pair(RequestId, Text(p.call.requestId)), Pair(TokenIndex, Whole(p.call.tokenIndex)),
     Pair(GenerationMode, Text(p.call.mode)), Skipped("input_metadata_bytes")]
  }

  function StageSizeList(r: Reply): seq<Pair> {
    [Skipped("input_tensor_bytes"), Skipped("output_tensor_bytes"), Skipped("is_final_stage"), Pair(NextTokenId, Whole(r.nextToken))]
  }

  function StageTensorList(t: Tensor): seq<Pair> {
    [Skipped("tensor"), Pair(Dtype, Text(t.dtype)), Pair(Shape, Dims(t.shape)), Pair(ByteOrder, Text(t.byteOrder))]
  }

  function StageFlagList(p: Parsed, l: seq<Pair>): seq<Pair> {
    [Skipped("feature_flags"), Pair(KvCache, Flag(p.features.kvCache)), Pair(Chaining, Flag(p.chaining)),
     Pair(Transport, Text(p.features.transport))]
    + ([Pair(Precision, Text(p.features.precision)), Pair(Sessions, Flag(p.features.sessions)), Pair(Level, Text(p.features.level))] + l)
  }

  lemma StageTopParts(number: Printer, p: Parsed, r: Reply, t: Tensor, c: seq<Pair>, place: Key -> Place, own: Key -> Json.Value,
                      tail: string)
    requires StagePlaces(place) && SizePlaces(place) && forall name :: name in STAGE_KEYS ==> place(Unread(name)) == Inner
    ensures Printed(number, Nested(SkippedAll(STAGE_KEYS) + (StageCallList(p) + (StageSizeList(r)
                            + (StageTensorList(t) + StageFlagList(p, c)))), "{", place, own), tail)
         == StageHead(own, p, r, StageBody(t, p, Printed(number, Nested(c, "},", place, own), tail)))
  {
    var flags := StageFlagList(p, c);
    var l3 := StageTensorList(t) + flags;
    var l2 := StageSizeList(r) + l3;
    var l1 := StageCallList(p) + l2;
    hide Printed, Nested, Put, Quoted, ToString, Own, Joined, StageFlags, StagePlaces, SizePlaces, SkippedAll;
    StageFlagsArePrinted(number, p, c, place, own, tail);
    StageTensorIsPrinted(number, t, flags, place, own, tail);
    StageSizesArePrinted(number, l3, place, own, r, tail);
    StageCallIsPrinted(number, l2, place, own, p, tail);
    StageHeadIsPrinted(number, l1, place, own, p, r, tail);
  }

  lemma TopIs(nm: Numerics, p: Parsed, r: Reply)
    ensures StageTop(nm, p, r) == SkippedAll(STAGE_KEYS) + (StageCallList(p) + (StageSizeList(r) + (StageTensorList(OutTensor(p, r))
      + StageFlagList(p, Controls(Sampled(nm, p.sampling.temperature), Counted(p.sampling.topK),
                                  Sampled(nm, p.sampling.topP), Counted(p.sampling.seed), [])))))
  {
    hide Controls, Sampled, Counted, OutTensor, SkippedAll;
  }

  /** What a stage prints before its metrics. */
  lemma StageTopIsPrinted(nm: Numerics, number: Printer, p: Parsed, r: Reply, own: Key -> Json.Value, tail: string)
    ensures Printed(number, Nested(StageTop(nm, p, r), "{", StagePlace, own), tail)
         == StageHead(own, p, r, StageBody(OutTensor(p, r), p, StageControls(nm, number, p.sampling, tail)))
  {
    var s := p.sampling;
    var c := Controls(Sampled(nm, s.temperature), Counted(s.topK), Sampled(nm, s.topP), Counted(s.seed), []);
    StageKeysAreInner();
    SizesAreInner();
    assert SizePlaces(StagePlace) && forall name :: name in STAGE_KEYS ==> StagePlace(Unread(name)) == Inner;
    hide *;
    TopIs(nm, p, r);
    StagePlacesAre();
    StageTopParts(number, p, r, OutTensor(p, r), c, StagePlace, own, tail);
    StageControlsArePrinted(nm, number, s, StagePlace, own, tail);
  }

  lemma {:induction false} PrintedAppend(number: Printer, x: seq<Entry>, y: seq<Entry>, tail: string)
    ensures Printed(number, x + y, tail) == Printed(number, x, Printed(number, y, tail))
    decreases |x|
  {
    hide *;
    NothingPrinted(number, Printed(number, y, tail));
    if x == [] {
      assert x + y == y;
    } else {
      PrintedAppend(number, x[1..], y, tail);
      assert (x + y)[1..] == x[1..] + y && (x + y)[0] == x[0];
      FirstPrinted(number, x, Printed(number, y, tail));
      FirstPrinted(number, x + y, tail);
    }
  }

  lemma NothingPrinted(number: Printer, tail: string)
    ensures Printed(number, [], tail) == tail
  {}

  lemma FirstPrinted(number: Printer, es: seq<Entry>, tail: string)
    requires es != []
    ensures Printed(number, es, tail)
         == Put(es[0].before, Name(es[0].pair.key), Json.ValueText(Shown(number, es[0])), Printed(number, es[1..], tail))
  {
    var f := Json.Field(es[0].before, Name(es[0].pair.key), Shown(number, es[0]));
    assert ([f] + Fields(number, es[1..]))[1..] == Fields(number, es[1..]);
    hide Name, Shown, Json.ValueText;
  }

  /** What a stage prints: itself, the request, the tensor, the flags and the controls that are
      set, and behind them its metrics and its backend's own. */
  lemma StageIsPrinted(nm: Numerics, number: Printer, p: Parsed, r: Reply, own: Key -> Json.Value, metric: Key -> Json.Value,
                       backend: seq<Entry>, close: string)
    ensures var metrics := Nested(SkippedAll(METRIC_KEYS), Closing(StageTop(nm, p, r), "{", StagePlace), MetricPlace, metric);
      StageText(nm, number, p, r, own, metric, backend, close)
        == StageHead(own, p, r, StageBody(OutTensor(p, r), p,
             StageControls(nm, number, p.sampling, Printed(number, metrics + backend, close + "}"))))
  {
    var metrics := Nested(SkippedAll(METRIC_KEYS), Closing(StageTop(nm, p, r), "{", StagePlace), MetricPlace, metric);
    var top := Nested(StageTop(nm, p, r), "{", StagePlace, own);
    assert StageText(nm, number, p, r, own, metric, backend, close) == Printed(number, top + (metrics + backend), close + "}");
    hide *;
    PrintedAppend(number, top, metrics + backend, close + "}");
    StageTopIsPrinted(nm, number, p, r, own, Printed(number, metrics + backend, close + "}"));
  }

  // ----- Numbers -----

  /** Digits, with a point among them or at an end perhaps. */
  predicate IsMantissa(m: string, whole: string, fraction: string) {
    && AllDigits(whole) && AllDigits(fraction)
    && (m == whole || m == whole + "." + fraction) && (m == whole ==> whole != "") && whole + fraction != ""
  }

  predicate IsExponent(x: string, sign: string, digits: string) {
    x == "" || ((x == "e" + sign + digits || x == "E" + sign + digits)
                && (sign == "" || sign == "+" || sign == "-") && digits != "" && AllDigits(digits))
  }

  lemma RunIs(digits: string, rest: string)
    requires AllDigits(digits) && (rest == "" || !IsDigit(rest[0]))
    ensures DigitRun(digits + rest) == |digits|
  {
    DigitRunStops(digits, rest);
    DigitRunAll(digits);
  }

  lemma MantissaIs(m: string, whole: string, fraction: string, rest: string)
    requires IsMantissa(m, whole, fraction) && (rest == "" || (!IsDigit(rest[0]) && rest[0] != '.'))
    ensures Mantissa(m + rest) == |m|
  {
    if m == whole {
      RunIs(whole, rest);
    } else {
      assert m + rest == whole + ("." + (fraction + rest));
      RunIs(whole, "." + (fraction + rest));
      assert (m + rest)[|whole| + 1..] == fraction + rest;
      RunIs(fraction, rest);
    }
  }

  lemma ExponentIs(x: string, sign: string, digits: string, rest: string)
    requires IsExponent(x, sign, digits) && (rest == "" || !IsNumberChar(rest[0]))
    ensures Exponent(x + rest) == |x|
  {
    if x == "" {
      assert x + rest == rest;
    } else {
      assert IsDigit(digits[0]);
      RunIs(digits, rest);
      hide DigitRun, AllDigits;
      var n := 1 + |sign|;
      assert (x + rest)[n..] == digits + rest && |x| == n + |digits|;
      assert (x + rest)[1] == if sign == "" then digits[0] else sign[0];
      assert (x + rest)[0] == x[0];
    }
  }

  lemma DoubleBehindMinus(head: string, t: string)
    requires (head == "" || head == "-") && t != "" && t[0] != '-'
    ensures DoubleText(head + t)
         == if Mantissa(t) == 0 then None else Some(head + t[..Mantissa(t) + Exponent(t[Mantissa(t)..])])
  {
    hide Mantissa, Exponent, DigitRun;
    var s, m := head + t, Mantissa(t);
    assert s[|head|..] == t && (s[0] == '-') == (head == "-");
    SameParts(head, t, m);
    SameParts(head, t, m + Exponent(t[m..]));
  }

  lemma IntBehindMinus(head: string, t: string)
    requires (head == "" || head == "-") && t != "" && t[0] != '-'
    ensures IntText(head + t) == if DigitRun(t) == 0 then None else Some(head + t[..DigitRun(t)])
  {
    hide DigitRun;
    var s := head + t;
    assert s[|head|..] == t && (s[0] == '-') == (head == "-");
    SameParts(head, t, DigitRun(t));
  }

  lemma SameParts(head: string, t: string, n: nat)
    requires n <= |t|
    ensures (head + t)[|head| + n..] == t[n..] && (head + t)[..|head| + n] == head + t[..n]
  {}

  lemma UnsignedIsTaken(m: string, whole: string, fraction: string, x: string, sign: string, digits: string, rest: string)
    requires IsMantissa(m, whole, fraction) && IsExponent(x, sign, digits) && (rest == "" || !IsNumberChar(rest[0]))
    ensures var t := m + (x + rest);
      && t != "" && t[0] != '-' && Mantissa(t) == |m| > 0 && Exponent(t[|m|..]) == |x|
      && t[..|m| + |x|] == m + x && DigitRun(t) == |whole| && t[..|whole|] == whole
  {
    var t := m + (x + rest);
    assert m != "" && m[0] != '-' by {
      if whole != "" { assert IsDigit(whole[0]) && m[0] == whole[0]; } else { assert m[0] == '.'; }
    }
    assert x + rest != "" ==> (x + rest)[0] == if x != "" then x[0] else rest[0];
    assert t[|m|..] == x + rest;
    MantissaIs(m, whole, fraction, x + rest);
    ExponentIs(x, sign, digits, rest);
    WholeIs(m, whole, fraction, x + rest);
    hide Mantissa, Exponent, DigitRun;
  }

  lemma WholeIs(m: string, whole: string, fraction: string, rest: string)
    requires IsMantissa(m, whole, fraction) && (rest == "" || (!IsDigit(rest[0]) && rest[0] != '.'))
    ensures DigitRun(m + rest) == |whole| && (m + rest)[..|whole|] == whole
  {
    hide DigitRun, AllDigits;
    if m == whole {
      RunIs(whole, rest);
    } else {
      assert m + rest == whole + ("." + (fraction + rest));
      RunIs(whole, "." + (fraction + rest));
    }
  }

  /** The pattern for a double takes exactly a number with its minus sign and its exponent, and
      the pattern for an int its digits before the point. */
  lemma NumberIsTaken(minus: bool, m: string, whole: string, fraction: string, x: string, sign: string, digits: string, rest: string)
    requires IsMantissa(m, whole, fraction) && IsExponent(x, sign, digits) && (rest == "" || !IsNumberChar(rest[0]))
    ensures var head := if minus then "-" else "";
      && DoubleText(head + (m + (x + rest))) == Some(head + (m + x))
      && IntText(head + (m + (x + rest))) == if whole == "" then None else Some(head + whole)
  {
    hide *;
    UnsignedIsTaken(m, whole, fraction, x, sign, digits, rest);
    DoubleBehindMinus(if minus then "-" else "", m + (x + rest));
    IntBehindMinus(if minus then "-" else "", m + (x + rest));
  }

  /** The pattern that takes numbers out leaves what is behind them, and be it nothing. */
  lemma NumberIsTakenOut(minus: bool, m: string, whole: string, fraction: string, x: string, sign: string, digits: string,
                         rest: string)
    requires IsMantissa(m, whole, fraction) && IsExponent(x, sign, digits) && (rest == "" || !IsNumberChar(rest[0]))
    ensures Chain.NumberRest((if minus then "-" else "") + (m + (x + rest))) == Some(rest)
  {
    hide DoubleText, IsMantissa, IsExponent;
    NumberIsTaken(minus, m, whole, fraction, x, sign, digits, rest);
    var head := if minus then "-" else "";
    assert head + (m + (x + rest)) == (head + (m + x)) + rest;
  }

  // ----- Chain metrics -----

  lemma NumbersStep(keys: seq<string>, texts: seq<string>, before: string, tail: string)
    requires 0 < |keys| <= |texts|
    ensures Json.Print(Chain.Numbers(keys, texts, before), tail)
         == Put(before, keys[0], texts[0], Json.Print(Chain.Numbers(keys[1..], texts[1..], ","), tail))
  {
    var rest := Chain.Numbers(keys[1..], texts[1..], ",");
    var f := Json.Field(before, keys[0], Json.Bare(texts[0]));
    assert ([f] + rest)[1..] == rest && ([f] + rest)[0] == f;
  }

  lemma {:induction false} NumbersEnd(texts: seq<string>, before: string, tail: string)
    ensures Json.Print(Chain.Numbers([], texts, before), tail) == tail
  {}

  function FiveNumbers(before: string, k: seq<string>, t: seq<string>, rest: string): string
    requires |k| == 5 <= |t|
  {
    Put(before, k[0], t[0], Put(",", k[1], t[1], Put(",", k[2], t[2], Put(",", k[3], t[3], Put(",", k[4], t[4], rest)))))
  }

  lemma FiveArePrinted(before: string, k: seq<string>, more: seq<string>, t: seq<string>, tail: string)
    requires |k| == 5 && |k + more| <= |t|
    ensures Json.Print(Chain.Numbers(k + more, t, before), tail)
         == FiveNumbers(before, k, t, Json.Print(Chain.Numbers(more, t[5..], ","), tail))
  {
    hide Json.Print, Chain.Numbers, Put;
    var ks := k + more;
    NumbersStep(ks, t, before, tail);
    NumbersStep(ks[1..], t[1..], ",", tail);
    assert ks[1..][1..] == ks[2..] && t[1..][1..] == t[2..];
    NumbersStep(ks[2..], t[2..], ",", tail);
    assert ks[2..][1..] == ks[3..] && t[2..][1..] == t[3..];
    NumbersStep(ks[3..], t[3..], ",", tail);
    assert ks[3..][1..] == ks[4..] && t[3..][1..] == t[4..];
    NumbersStep(ks[4..], t[4..], ",", tail);
    assert ks[4..][1..] == more && t[4..][1..] == t[5..];
  }

  /** The metrics that a stage adds: once in an object, and once behind it. */
  lemma ChainIsPrinted(m: Chain.Chain, tail: string)
    ensures Chain.ChainJson(m, tail) == "\"chain_metrics\":" + ("{"
      + FiveNumbers("", ["compute_ms", "rpc_wall_ms", "true_comm_ms", "transport_payload_bytes", "stage_count"],
                    [m.compute, m.wall, m.comm, m.bytes, m.count], "")
      + "}"
      + FiveNumbers(",", ["chain_compute_time_ms", "chain_rpc_wall_time_ms", "chain_true_comm_ms",
                          "chain_transport_payload_bytes", "chain_stage_count"],
                    [m.compute, m.wall, m.comm, m.bytes, m.count], Put(",", "chain_hops", m.count, tail)))
  {
    var t := Chain.Texts(m);
    var flat := ["chain_compute_time_ms", "chain_rpc_wall_time_ms", "chain_true_comm_ms",
                 "chain_transport_payload_bytes", "chain_stage_count"];
    var inner := ["compute_ms", "rpc_wall_ms", "true_comm_ms", "transport_payload_bytes", "stage_count"];
    assert Chain.OBJECT_KEYS == inner + [] && Chain.FLAT_KEYS == flat + ["chain_hops"];
    assert t[..5] == [m.compute, m.wall, m.comm, m.bytes, m.count] && t[5..] == [m.count];
    hide Json.Print, Chain.Numbers, Put, Chain.Texts;
    FiveArePrinted("", inner, [], t, "");
    NumbersEnd(t[5..], ",", "");
    FiveArePrinted(",", flat, ["chain_hops"], t, tail);
    NumbersStep(["chain_hops"], t[5..], ",", tail);
    assert ["chain_hops"][1..] == [] && t[5..][1..] == [];
    NumbersEnd([], ",", tail);
  }

  /** The keys whose numbers are taken out of a text, with their short names. */
  lemma KeysTakenOut(s: string)
    ensures Chain.RemoveChain(s) == Chain.RemoveNumbers(Chain.RemoveField(s, "chain_metrics", Chain.ObjectRest),
      ["chain_compute_time_ms", "chain_rpc_wall_time_ms", "chain_true_comm_ms", "chain_transport_payload_bytes",
       "chain_stage_count", "chain_hops", "ccm", "crw", "ctc", "cpb", "csc"])
  {
    assert Chain.FLAT_KEYS + Chain.SHORT_KEYS ==
      ["chain_compute_time_ms", "chain_rpc_wall_time_ms", "chain_true_comm_ms", "chain_transport_payload_bytes",
       "chain_stage_count", "chain_hops", "ccm", "crw", "ctc", "cpb", "csc"];
    hide Chain.RemoveNumbers, Chain.RemoveField, Chain.ObjectRest;
  }
}
