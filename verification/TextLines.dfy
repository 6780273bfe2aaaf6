/** Text as lines: std::getline and its inverse. */
module TextLines {

  /** std::getline until the end of the text: a last line without a newline counts, an
      empty one does not. */
  function Lines(text: string): seq<string>
    decreases |text|, 1
  {
    if text == "" then [] else LinesFrom("", text)
  }

  function LinesFrom(line: string, text: string): seq<string>
    decreases |text|, 0
  {
    if text == "" then [line]
    else if text[0] == '\n' then [line] + Lines(text[1..])
    else LinesFrom(line + [text[0]], text[1..])
  }

  function Render(lines: seq<string>): string {
    if lines == [] then "" else Render(lines[..|lines| - 1]) + lines[|lines| - 1] + "\n"
  }

  predicate OneLine(s: string) {
    '\n' !in s
  }

  lemma {:induction false} LinesFromLine(line: string, s: string, rest: string)
    requires OneLine(s)
    ensures LinesFrom(line, s + "\n" + rest) == [line + s] + Lines(rest)
    decreases |s|
  {
    if s == "" {
      assert s + "\n" + rest == "\n" + rest && line + s == line && ("\n" + rest)[1..] == rest;
    } else {
      assert (s + "\n" + rest)[1..] == s[1..] + "\n" + rest;
      assert line + [s[0]] + s[1..] == line + s;
      LinesFromLine(line + [s[0]], s[1..], rest);
    }
  }

  lemma {:induction false} LinesOfRenderThen(lines: seq<string>, rest: string)
    requires forall i :: 0 <= i < |lines| ==> OneLine(lines[i])
    ensures Lines(Render(lines) + rest) == lines + Lines(rest)
  {
    if lines == [] {
      assert Render(lines) + rest == rest && lines + Lines(rest) == Lines(rest);
    } else {
      var init, last := lines[..|lines| - 1], lines[|lines| - 1];
      LinesOfRenderThen(init, last + "\n" + rest);
      assert Render(lines) + rest == Render(init) + (last + "\n" + rest);
      assert "" + last == last;
      LinesFromLine("", last, rest);
      assert init + ([last] + Lines(rest)) == lines + Lines(rest);
    }
  }

  /** Splitting printed lines gives the lines back. */
  lemma LinesOfRender(lines: seq<string>)
    requires forall i :: 0 <= i < |lines| ==> OneLine(lines[i])
    ensures Lines(Render(lines)) == lines
  {
    LinesOfRenderThen(lines, "");
    assert Render(lines) + "" == Render(lines);
  }

  lemma {:induction false} RenderAppend(a: seq<string>, b: seq<string>)
    ensures Render(a + b) == Render(a) + Render(b)
  {
    if b == [] {
      assert a + b == a && Render(a) + "" == Render(a);
    } else {
      var init, last := b[..|b| - 1], b[|b| - 1];
      RenderAppend(a, init);
      assert (a + b)[..|a + b| - 1] == a + init && (a + b)[|a + b| - 1] == last;
      assert Render(a) + Render(init) + last + "\n" == Render(a) + (Render(init) + last + "\n");
    }
  }
}
