/** The incremental reader of `data:` lines against the reading of the whole text at once. */
module SseReader {
  import opened Options
  import opened Text

  // ---------- lines ----------

  /** The pieces between line feeds; never empty. */
  function Split(text: string): (lines: seq<string>)
    ensures |lines| >= 1
  {
    if text == "" then [""]
    else if text[0] == '\n' then [""] + Split(text[1..])
    else
      var rest := Split(text[1..]);
      [[text[0]] + rest[0]] + rest[1..]
  }

  function Join(lines: seq<string>): string
    requires |lines| >= 1
  {
    if |lines| == 1 then lines[0] else lines[0] + "\n" + Join(lines[1..])
  }

  function Last(lines: seq<string>): string
    requires |lines| >= 1
  {
    lines[|lines| - 1]
  }

  function Init(lines: seq<string>): seq<string>
    requires |lines| >= 1
  {
    lines[..|lines| - 1]
  }

  /** `Split` is the inverse of `Join` on lines without line feeds. */
  lemma {:induction false} JoinSplit(text: string)
    ensures Join(Split(text)) == text
    ensures forall i :: 0 <= i < |Split(text)| ==> '\n' !in Split(text)[i]
  {
    if text != "" {
      JoinSplit(text[1..]);
      var rest := Split(text[1..]);
      if text[0] == '\n' {
        assert Split(text)[1..] == rest;
        assert text == "\n" + text[1..];
      } else {
        assert Split(text)[1..] == rest[1..];
        assert text == [text[0]] + text[1..];
      }
    }
  }

  lemma {:induction false} SplitJoin(lines: seq<string>)
    requires |lines| >= 1 && forall i :: 0 <= i < |lines| ==> '\n' !in lines[i]
    ensures Split(Join(lines)) == lines
    decreases |lines|, |lines[0]|
  {
    if lines[0] == "" {
      if |lines| > 1 {
        SplitJoin(lines[1..]);
        assert Join(lines)[1..] == Join(lines[1..]);
      }
    } else {
      var shorter := [lines[0][1..]] + lines[1..];
      assert '\n' !in shorter[0] by { assert forall c :: c in lines[0][1..] ==> c in lines[0]; }
      SplitJoin(shorter);
      assert shorter[1..] == lines[1..];
      assert lines[0] == [lines[0][0]] + lines[0][1..];
      assert Join(lines)[0] == lines[0][0] && Join(lines)[1..] == Join(shorter);
      assert lines[0][0] in lines[0];
    }
  }

  /** `Split` by one more character in front. */
  function Before(c: char, rest: seq<string>): seq<string>
    requires |rest| >= 1
  {
    if c == '\n' then [""] + rest else [[c] + rest[0]] + rest[1..]
  }

  lemma SplitStep(c: char, text: string)
    ensures Split([c] + text) == Before(c, Split(text))
  {
    assert ([c] + text)[1..] == text;
  }

  lemma BeforeAppend(c: char, rest: seq<string>, more: seq<string>)
    requires |rest| > 1 && |more| >= 1
    ensures Before(c, Init(rest) + more) == Init(Before(c, rest)) + more && Last(Before(c, rest)) == Last(rest)
  {
  }

  /** A character in front of text that has only one line so far. */
  lemma BeforeOne(c: char, line: string, b: string)
    ensures Before(c, Split(line + b)) == Init(Before(c, [line])) + Split(Last(Before(c, [line])) + b)
  {
    if c == '\n' {
      assert Before(c, [line]) == ["", line];
    } else {
      assert Before(c, [line]) == [[c] + line];
      assert [c] + (line + b) == ([c] + line) + b;
      SplitStep(c, line + b);
    }
  }

  /** More text changes only the last piece. */
  lemma {:induction false} SplitAppend(a: string, b: string)
    ensures Split(a + b) == Init(Split(a)) + Split(Last(Split(a)) + b)
  {
    if a == "" {
      assert a + b == b && "" + b == b;
    } else {
      var c, t := a[0], a[1..];
      assert a == [c] + t && a + b == [c] + (t + b);
      SplitAppend(t, b);
      SplitStep(c, t);
      SplitStep(c, t + b);
      OneMore(c, t, b);
    }
  }

  lemma OneMore(c: char, t: string, b: string)
    requires Split(t + b) == Init(Split(t)) + Split(Last(Split(t)) + b)
    ensures Before(c, Split(t + b)) == Init(Before(c, Split(t))) + Split(Last(Before(c, Split(t))) + b)
  {
    var rest := Split(t);
    hide Split;
    if |rest| > 1 {
      BeforeAppend(c, rest, Split(Last(rest) + b));
    } else {
      assert rest == [rest[0]] && Init(rest) == [];
      BeforeOne(c, rest[0], b);
    }
  }

  // ---------- the line rule ----------

  const DATA := "data:"
  const DONE := "[DONE]"

  /** The value of a line, if the line carries one: anything that is not a `data:` line,
      is empty, is the end marker or does not parse is passed over. */
  function LineValue<J>(raw: string, parse: string -> Option<J>): Option<J> {
    var line := Trim(raw);
    if !(DATA <= line) then None
    else
      var payload := Trim(line[5..]);
      if payload == "" || payload == DONE then None else parse(payload)
  }

  /** Lines may end in CR LF as well: trailing white space does not change what a line
      carries. */
  lemma TrailingSpaceIgnored<J>(raw: string, c: char, parse: string -> Option<J>)
    requires IsSpace(c)
    ensures LineValue(raw + [c], parse) == LineValue(raw, parse)
  {
    TrimMore(raw, c);
    hide Trim;
  }

  function Values<J>(lines: seq<string>, parse: string -> Option<J>): seq<J> {
    if lines == [] then []
    else
      match LineValue(lines[0], parse)
      case None => Values(lines[1..], parse)
      case Some(value) => [value] + Values(lines[1..], parse)
  }

  lemma {:induction false} ValuesAppend<J>(a: seq<string>, b: seq<string>, parse: string -> Option<J>)
    ensures Values(a + b, parse) == Values(a, parse) + Values(b, parse)
  {
    hide LineValue;
    if a == [] {
      assert a + b == b;
    } else {
      ValuesAppend(a[1..], b, parse);
      assert (a + b)[1..] == a[1..] + b && (a + b)[0] == a[0];
    }
  }

  // ---------- decoding ----------

  /** A streaming decoder: at every byte it may give characters and changes its state. */
  type Decoder<!D> = (D, bv8) -> (string, D)

  function Decode<D>(step: Decoder<D>, d: D, bytes: seq<bv8>): (string, D) {
    if bytes == [] then ("", d)
    else
      var (text, next) := step(d, bytes[0]);
      var (more, last) := Decode(step, next, bytes[1..]);
      (text + more, last)
  }

  lemma {:induction false} DecodeAppend<D>(step: Decoder<D>, d: D, a: seq<bv8>, b: seq<bv8>)
    ensures var (first, middle) := Decode(step, d, a);
      var (second, last) := Decode(step, middle, b);
      Decode(step, d, a + b) == (first + second, last)
  {
    if a == [] {
      assert a + b == b && "" + Decode(step, d, b).0 == Decode(step, d, b).0;
    } else {
      var (text, next) := step(d, a[0]);
      DecodeAppend(step, next, a[1..], b);
      assert (a + b)[1..] == a[1..] + b;
      var (more, middle) := Decode(step, next, a[1..]);
      assert (text + more) + Decode(step, middle, b).0 == text + (more + Decode(step, middle, b).0);
    }
  }

  function Flatten(chunks: seq<seq<bv8>>): seq<bv8> {
    if chunks == [] then [] else Flatten(chunks[..|chunks| - 1]) + chunks[|chunks| - 1]
  }

  /** Reading everything at once: decode all bytes, split once, apply the rule per line.
      What the decoder still holds back at the end is not part of the text. */
  function WholeText<D, J>(step: Decoder<D>, start: D, bytes: seq<bv8>, parse: string -> Option<J>): seq<J> {
    Values(Split(Decode(step, start, bytes).0), parse)
  }

  /** The values of the finished lines only. */
  function FinishedLines<D, J>(step: Decoder<D>, start: D, bytes: seq<bv8>, parse: string -> Option<J>): seq<J> {
    Values(Init(Split(Decode(step, start, bytes).0)), parse)
  }

  // ---------- the incremental reader ----------

  /** The body of the loop over lines: the callback is called at most once per line. */
  method OnLine<J>(raw: string, parse: string -> Option<J>, emitted: seq<J>) returns (after: seq<J>)
    ensures after == emitted + Values([raw], parse)
  {
    hide Trim;
    var line := Trim(raw);
    if !(DATA <= line) {
      return emitted;
    }
    var payload := Trim(line[5..]);
    if payload == "" || payload == DONE {
      return emitted;
    }
    match parse(payload)
    case None => return emitted;
    case Some(value) => return emitted + [value];
  }

  method OnLines<J>(lines: seq<string>, parse: string -> Option<J>, emitted: seq<J>) returns (after: seq<J>)
    ensures after == emitted + Values(lines, parse)
  {
    after := emitted;
    for j := 0 to |lines|
      invariant after == emitted + Values(lines[..j], parse)
    {
      ValuesNext(lines, j, parse, emitted);
      after := OnLine(lines[j], parse, after);
    }
    assert lines[..|lines|] == lines;
  }

  lemma ValuesNext<J>(lines: seq<string>, j: nat, parse: string -> Option<J>, emitted: seq<J>)
    requires j < |lines|
    ensures emitted + Values(lines[..j], parse) + Values([lines[j]], parse) == emitted + Values(lines[..j + 1], parse)
  {
    hide Values, LineValue;
    ValuesAppend(lines[..j], [lines[j]], parse);
    assert lines[..j + 1] == lines[..j] + [lines[j]];
  }

  /** What the loop knows after the bytes `seen`: the text so far, its unfinished last
      line in the buffer, and the values of all its finished lines emitted. */
  ghost predicate Progress<D, J>(
    step: Decoder<D>, start: D, parse: string -> Option<J>, seen: seq<bv8>,
    text: string, decoder: D, buffer: string, emitted: seq<J>)
  {
    && Decode(step, start, seen) == (text, decoder)
    && buffer == Last(Split(text)) && emitted == Values(Init(Split(text)), parse)
  }

  /** One more chunk: only the buffered line and the new text have to be split again. */
  lemma ProgressStep<D, J>(
    step: Decoder<D>, start: D, parse: string -> Option<J>, seen: seq<bv8>,
    text: string, decoder: D, buffer: string, emitted: seq<J>, chunk: seq<bv8>)
    requires Progress(step, start, parse, seen, text, decoder, buffer, emitted)
    ensures var (more, next) := Decode(step, decoder, chunk);
      var lines := Split(buffer + more);
      Progress(step, start, parse, seen + chunk, text + more, next, Last(lines), emitted + Values(Init(lines), parse))
  {
    var (more, next) := Decode(step, decoder, chunk);
    var lines := Split(buffer + more);
    DecodeAppend(step, start, seen, chunk);
    SplitAppend(text, more);
    var done := Init(Split(text));
    hide Split, Decode, Values;
    assert Split(text + more) == done + lines;
    assert Init(done + lines) == done + Init(lines) && Last(done + lines) == Last(lines);
    ValuesAppend(done, Init(lines), parse);
  }

  /** At the end the buffered line is treated like any other. */
  lemma ProgressEnd<D, J>(
    step: Decoder<D>, start: D, parse: string -> Option<J>, seen: seq<bv8>,
    text: string, decoder: D, buffer: string, emitted: seq<J>)
    requires Progress(step, start, parse, seen, text, decoder, buffer, emitted)
    ensures emitted + Values([buffer], parse) == WholeText(step, start, seen, parse)
  {
    var lines := Split(text);
    hide Split, Decode, Values;
    assert lines == Init(lines) + [buffer];
    ValuesAppend(Init(lines), [buffer], parse);
  }

  /** A response body: its chunks, and whether reading on after them ends in an error. */
  datatype Body = Body(chunks: seq<seq<bv8>>, broken: bool)

  /** `emitted` are the arguments of the callback, in order. The reader throws without a
      body, and when reading fails; then the unfinished line is lost. */
  method ForEachSSEData<D, J>(body: Option<Body>, step: Decoder<D>, start: D, parse: string -> Option<J>)
    returns (thrown: bool, emitted: seq<J>)
    ensures thrown <==> body.None? || body.value.broken
    ensures body.None? ==> emitted == []
    ensures body.Some? ==>
      var bytes := Flatten(body.value.chunks);
      emitted == if thrown then FinishedLines(step, start, bytes, parse) else WholeText(step, start, bytes, parse)
  {
    emitted := [];
    if body.None? {
      return true, [];
    }
    thrown := false;
    var chunks := body.value.chunks;
    var buffer, decoder := "", start;
    ghost var text := "";
    assert chunks[..0] == [];
    for i := 0 to |chunks|
      invariant Progress(step, start, parse, Flatten(chunks[..i]), text, decoder, buffer, emitted)
    {
      var (more, next) := Decode(step, decoder, chunks[i]);
      ProgressStep(step, start, parse, Flatten(chunks[..i]), text, decoder, buffer, emitted, chunks[i]);
      hide Progress, Split, Decode, Values;
      assert chunks[..i + 1][..i] == chunks[..i];
      decoder := next;
      text := text + more;
      var lines := Split(buffer + more);
      buffer := Last(lines);
      emitted := OnLines(Init(lines), parse, emitted);
    }
    assert chunks[..|chunks|] == chunks;
    if body.value.broken {
      return true, emitted;
    }
    ProgressEnd(step, start, parse, Flatten(chunks), text, decoder, buffer, emitted);
    emitted := OnLine(buffer, parse, emitted);
  }
}
