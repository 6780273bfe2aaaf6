/** The line-based reading of the stage map shared by the gateway and the stage loaders. */
module ConfigText {
  import opened Basics
  import opened Decimal
  import opened TextLines

  predicate IsBlank(c: char) { c == ' ' || c == '\t' }

  function TrimLeft(s: string): string {
    if s != "" && IsBlank(s[0]) then TrimLeft(s[1..]) else s
  }

  function TrimRight(s: string): string {
    if s != "" && (IsBlank(s[|s| - 1]) || s[|s| - 1] == '\r') then TrimRight(s[..|s| - 1]) else s
  }

  function Trim(s: string): string {
    TrimRight(TrimLeft(s))
  }

  predicate StartsWith(s: string, prefix: string) {
    prefix <= s
  }

  function Indent(line: string): nat {
    if line != "" && line[0] == ' ' then 1 + Indent(line[1..]) else 0
  }

  function Unquote(quote: char, v: string): string {
    if |v| >= 2 && v[0] == quote && v[|v| - 1] == quote then v[1..|v| - 1] else v
  }

  /** A value as the loaders understand it: trimmed, null for nothing, one pair of quotes
      of each kind stripped. */
  function Scalar(text: string): string {
    var v := Trim(text);
    if v == "null" then "" else Unquote('\'', Unquote('"', v))
  }

  function AfterColon(line: string): string {
    if line == "" then ""
    else if line[0] == ':' then Scalar(line[1..])
    else AfterColon(line[1..])
  }

  predicate ParseBool(v: string) {
    v == "true" || v == "True" || v == "yes" || v == "1"
  }

  /** The keys a stage map uses. */
  datatype Key =
    | ModelName | ModelSlug | ModelPath | NumLayers
    | InferenceGateway | ServiceName | Port | FirstStageUrl
    | InferenceStages | StageId | PartitionId | PhysicalNode | PartitionFile | NativePartitionFile
    | Backend | ComponentsOf | Embedding | Layers | Norm | LmHead | NextStageUrl
    | Topology

  function Name(k: Key): string {
    match k
    case ModelName => "model_name"
    case ModelSlug => "model_slug"
    case ModelPath => "model_path"
    case NumLayers => "num_layers"
    case InferenceGateway => "inference_gateway"
    case ServiceName => "service_name"
    case Port => "port"
    case FirstStageUrl => "first_stage_url"
    case InferenceStages => "inference_stages"
    case StageId => "- stage_id"
    case PartitionId => "partition_id"
    case PhysicalNode => "physical_node"
    case PartitionFile => "partition_file"
    case NativePartitionFile => "native_partition_file"
    case Backend => "backend"
    case ComponentsOf => "components"
    case Embedding => "embedding"
    case Layers => "layers"
    case Norm => "norm"
    case LmHead => "lm_head"
    case NextStageUrl => "next_stage_url"
    case Topology => "topology"
  }

  /** The loaders' test for a key at the start of a trimmed line. */
  predicate IsField(trimmed: string, k: Key) {
    StartsWith(trimmed, Name(k) + ":")
  }

  lemma NameHead(k: Key)
    ensures var n := Name(k);
      && n != "" && n[0] != '#' && !IsBlank(n[0])
      && (n[0] == '-' <==> k == StageId)
  {
    match k
    case _ =>
  }

  lemma NameIsWord(k: Key)
    ensures forall c :: c in Name(k) ==> c == '_' || 'a' <= c <= 'z' || c == '-' || c == ' '
  {
    match k
    case _ =>
  }

  lemma NamesDiffer(j: Key, k: Key)
    requires Name(j) == Name(k)
    ensures j == k
  {
    match j
    case _ =>
  }

  predicate IsComment(trimmed: string) { StartsWith(trimmed, "#") }
  predicate IsDash(trimmed: string) { StartsWith(trimmed, "-") }

  /** A line that the loaders see as one key with a value. */
  ghost predicate Shows(line: string, indent: nat, k: Key, value: string) {
    var t := Trim(line);
    && Indent(line) == indent
    && t != "" && !IsComment(t)
    && (forall j :: IsField(t, j) <==> j == k)
    && AfterColon(t) == value
    && (IsDash(t) <==> k == StageId)
  }

  /** A line that the loaders see as a list item. */
  ghost predicate ShowsItem(line: string, indent: nat, item: string) {
    var t := Trim(line);
    && Indent(line) == indent
    && t != "" && !IsComment(t)
    && (forall j :: !IsField(t, j))
    && IsDash(t) && Trim(t[1..]) == item
  }

  function Spaces(n: nat): string {
    if n == 0 then "" else " " + Spaces(n - 1)
  }

  function Field(indent: nat, k: Key, text: string): string {
    Spaces(indent) + (Name(k) + ":" + text)
  }

  lemma {:induction false} AfterSpaces(n: nat, s: string)
    requires s != "" && !IsBlank(s[0])
    ensures TrimLeft(Spaces(n) + s) == s && Indent(Spaces(n) + s) == n
  {
    if n == 0 {
      assert "" + s == s;
    } else {
      assert (Spaces(n) + s)[1..] == Spaces(n - 1) + s;
      AfterSpaces(n - 1, s);
    }
  }

  lemma {:induction false} TrimRightAfter(s: string, w: string)
    requires s != "" && !IsBlank(s[|s| - 1]) && s[|s| - 1] != '\r'
    ensures TrimRight(s + w) == s + TrimRight(w)
  {
    if w == "" {
      assert s + w == s && s + "" == s;
    } else if IsBlank(w[|w| - 1]) || w[|w| - 1] == '\r' {
      assert (s + w)[..|s + w| - 1] == s + w[..|w| - 1];
      TrimRightAfter(s, w[..|w| - 1]);
    }
  }

  lemma {:induction false} TrimLeftSnoc(s: string, c: char)
    ensures TrimLeft(s + [c]) == if TrimLeft(s) == "" then TrimLeft([c]) else TrimLeft(s) + [c]
  {
    if s == "" {
      assert s + [c] == [c];
    } else {
      assert (s + [c])[1..] == s[1..] + [c];
      TrimLeftSnoc(s[1..], c);
    }
  }

  lemma {:induction false} TrimAfterTrimRight(w: string)
    ensures Trim(TrimRight(w)) == Trim(w)
  {
    if w != "" && (IsBlank(w[|w| - 1]) || w[|w| - 1] == '\r') {
      var init, c := w[..|w| - 1], w[|w| - 1];
      TrimAfterTrimRight(init);
      TrimLeftSnoc(init, c);
      assert w == init + [c];
      if TrimLeft(init) == "" {
        assert TrimRight(TrimLeft([c])) == "";
      } else {
        assert (TrimLeft(init) + [c])[..|TrimLeft(init)|] == TrimLeft(init);
      }
    }
  }

  lemma {:induction false} AfterColonOf(name: string, w: string)
    requires ':' !in name
    ensures AfterColon(name + ":" + w) == Scalar(w)
  {
    if name == "" {
      assert (name + ":" + w)[1..] == w;
    } else {
      assert (name + ":" + w)[1..] == name[1..] + ":" + w;
      AfterColonOf(name[1..], w);
    }
  }

  /** Two colon-ended names at the start of one text are the same name. */
  lemma SameName(a: string, b: string, w: string)
    requires ':' !in a && ':' !in b
    requires StartsWith(a + ":" + w, b + ":")
    ensures a == b
  {
    var t := a + ":" + w;
    assert t[|a|] == ':' && (b + ":")[|b|] == ':';
    assert forall i :: 0 <= i < |b| + 1 ==> t[i] == (b + ":")[i];
    assert |b| >= |a|;
    assert |a| >= |b|;
    assert forall i :: 0 <= i < |a| ==> a[i] == t[i];
    assert forall i :: 0 <= i < |b| ==> b[i] == t[i];
  }

  /** A printed key line is seen as that key, with the scalar of its text. */
  lemma FieldIsSeen(indent: nat, k: Key, text: string)
    ensures Shows(Field(indent, k, text), indent, k, Scalar(text))
  {
    hide Name, Scalar;
    var name := Name(k);
    NameHead(k);
    NameIsWord(k);
    var s := name + ":" + text;
    AfterSpaces(indent, s);
    assert s == (name + ":") + text;
    TrimRightAfter(name + ":", text);
    var w := TrimRight(text);
    var t := Trim(Field(indent, k, text));
    assert t == name + ":" + w;
    AfterColonOf(name, w);
    ScalarAfterTrimRight(text);
    forall j ensures IsField(t, j) <==> j == k {
      if IsField(t, j) {
        NameIsWord(j);
        SameName(name, Name(j), w);
        NamesDiffer(k, j);
      }
    }
    assert t[0] == name[0];
  }

  lemma ScalarAfterTrimRight(text: string)
    ensures Scalar(TrimRight(text)) == Scalar(text)
  {
    hide Unquote;
    TrimAfterTrimRight(text);
  }

  lemma NoColonNoField(t: string, j: Key)
    requires ':' !in t
    ensures !IsField(t, j)
  {
    hide Name;
    assert (Name(j) + ":")[|Name(j)|] == ':';
  }

  /** A printed list item is seen as an item. */
  lemma ItemIsSeen(indent: nat, i: nat)
    ensures ShowsItem(Spaces(indent) + ("- " + ToString(i)), indent, ToString(i))
  {
    hide ToString, Name;
    var d := ToString(i);
    PrintedNumber(i);
    var s := "- " + d;
    AfterSpaces(indent, s);
    assert s[|s| - 1] == d[|d| - 1];
    assert Trim(Spaces(indent) + s) == s;
    assert s[1..] == " " + d && (" " + d)[1..] == d;
    assert TrimLeft(" " + d) == TrimLeft(d) == d;
    assert Trim(s[1..]) == d;
    forall j ensures !IsField(s, j) {
      NoColonNoField(s, j);
    }
  }

  /** A scalar means its own text exactly when it has no blanks at its ends, is not null
      and is not quoted. */
  predicate Plain(v: string) {
    && (v != "" ==> !IsBlank(v[0]) && !IsBlank(v[|v| - 1]) && v[|v| - 1] != '\r')
    && v != "null"
    && (|v| >= 2 ==> !(v[0] == v[|v| - 1] == '"') && !(v[0] == v[|v| - 1] == '\''))
  }

  lemma {:induction false} TrimShortens(s: string)
    ensures if s == "" || !IsBlank(s[0]) then TrimLeft(s) == s else |TrimLeft(s)| < |s|
  {
    if s != "" { TrimShortens(s[1..]); }
  }

  lemma {:induction false} TrimRightShortens(s: string)
    ensures if s == "" || !(IsBlank(s[|s| - 1]) || s[|s| - 1] == '\r') then TrimRight(s) == s
            else |TrimRight(s)| < |s|
  {
    if s != "" { TrimRightShortens(s[..|s| - 1]); }
  }

  lemma PlainScalar(v: string)
    ensures Scalar(v) == v <==> Plain(v)
  {
    TrimShortens(v);
    TrimRightShortens(TrimLeft(v));
    assert Plain(v) ==> Trim(v) == v;
    assert |Scalar(v)| <= |Trim(v)|;
  }

  /** Blanks around a value do not count: spaces and tabs, and line ends after it. */
  lemma {:induction false} TrimLeftAfter(lead: string, v: string)
    requires (forall i :: 0 <= i < |lead| ==> IsBlank(lead[i])) && (v != "" ==> !IsBlank(v[0]))
    ensures TrimLeft(lead + v) == v
  {
    if lead == "" {
      assert lead + v == v;
    } else {
      assert (lead + v)[1..] == lead[1..] + v;
      TrimLeftAfter(lead[1..], v);
    }
  }

  lemma {:induction false} AllTrimmed(w: string)
    requires forall i :: 0 <= i < |w| ==> IsBlank(w[i]) || w[i] == '\r'
    ensures TrimRight(w) == ""
  {
    if w != "" { AllTrimmed(w[..|w| - 1]); }
  }

  lemma TrimIs(lead: string, v: string, trail: string)
    requires forall i :: 0 <= i < |lead| ==> IsBlank(lead[i])
    requires forall i :: 0 <= i < |trail| ==> IsBlank(trail[i]) || trail[i] == '\r'
    requires v != "" && !IsBlank(v[0]) && !IsBlank(v[|v| - 1]) && v[|v| - 1] != '\r'
    ensures Trim(lead + (v + trail)) == v
  {
    TrimLeftAfter(lead, v + trail);
    TrimRightAfter(v, trail);
    AllTrimmed(trail);
    assert v + "" == v;
  }

  /** One pair of double quotes goes, then one pair of single quotes. */
  lemma QuotedScalar(lead: string, v: string, trail: string)
    requires forall i :: 0 <= i < |lead| ==> IsBlank(lead[i])
    requires forall i :: 0 <= i < |trail| ==> IsBlank(trail[i]) || trail[i] == '\r'
    ensures Scalar(lead + ("'" + v + "'" + trail)) == v
    ensures Scalar(lead + ("\"'" + v + "'\"" + trail)) == v
    ensures !(|v| >= 2 && v[0] == v[|v| - 1] == '\'') ==> Scalar(lead + ("\"" + v + "\"" + trail)) == v
    ensures Scalar(lead + ("null" + trail)) == ""
  {
    TrimIs(lead, "'" + v + "'", trail);
    TrimIs(lead, "\"'" + v + "'\"", trail);
    TrimIs(lead, "\"" + v + "\"", trail);
    TrimIs(lead, "null", trail);
    hide Trim;
    var single, double, both := "'" + v + "'", "\"" + v + "\"", "\"'" + v + "'\"";
    assert single[0] == '\'' && single[1..|single| - 1] == v;
    assert double[0] == '"' && double[1..|double| - 1] == v;
    assert both[0] == '"' && both[1..|both| - 1] == single;
  }

  /** The same with the blank that follows the colon. */
  lemma ScalarAfterBlank(v: string)
    ensures Scalar(" " + v) == Scalar(v)
  {
    assert (" " + v)[1..] == v;
  }
}
