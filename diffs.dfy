/** Colouring the lines of a patch (diffs.rs). Each line of a patch is classified by its
    first characters, and rendering a line wraps it in colour escapes without changing its
    text. The escapes are kept as tokens of their own, so the text of a rendering is what is
    left when they are dropped. */
module Diffs {

  import opened Wrappers

  /** `DiffLine`. */
  datatype DiffLine =
    | HunkStart(offset: string, line: string)
    | Deletion(line: string)
    | Addition(line: string)
    | Other(line: string)

  /** The separator `@@` starts at position `k` of `s`. */
  predicate SepAt(s: string, k: nat) {
    k + 2 <= |s| && s[k] == '@' && s[k + 1] == '@'
  }

  /** The first separator at or after position `from`. */
  function FindSep(s: string, from: nat): (k: Option<nat>)
    requires from <= |s|
    ensures k.Some? ==> from <= k.value && SepAt(s, k.value) && forall j :: from <= j < k.value ==> !SepAt(s, j)
    ensures k.None? ==> forall j :: from <= j < |s| ==> !SepAt(s, j)
    decreases |s| - from
  {
    if from + 2 > |s| then None
    else if SepAt(s, from) then Some(from)
    else FindSep(s, from + 1)
  }

  /** `str::split_once("@@")`: the text before the first separator and the text after it. */
  function SplitOnce(s: string): (r: Option<(string, string)>)
    ensures r.Some? ==> s == r.value.0 + "@@" + r.value.1
    ensures r.Some? ==> SepAt(s, |r.value.0|) && forall k :: 0 <= k < |r.value.0| ==> !SepAt(s, k)
    ensures r.None? <==> forall k :: 0 <= k < |s| ==> !SepAt(s, k)
  {
    match FindSep(s, 0)
    case None => None
    case Some(k) =>
      assert s == s[..k] + "@@" + s[k + 2..] by {
        assert s[k..k + 2] == "@@";
        assert s == s[..k] + s[k..k + 2] + s[k + 2..];
      }
      Some((s[..k], s[k + 2..]))
  }

  /** The line is a hunk header: it starts with `@@` and a further `@@` follows. */
  predicate StartsHunk(s: string) {
    |s| >= 2 && s[0] == '@' && s[1] == '@' && exists k :: 2 <= k < |s| && SepAt(s, k)
  }

  /** `DiffLine::new`: `+` is checked first, then `-`, then a hunk header; anything else,
      including a line that starts with `@@` and has no second `@@`, is kept whole. */
  function New(body: string): (r: DiffLine)
    ensures r.Addition? <==> |body| > 0 && body[0] == '+'
    ensures r.Deletion? <==> |body| > 0 && body[0] == '-'
    ensures r.HunkStart? ==> body == "@@" + r.offset + "@@" + r.line
    ensures r.HunkStart? ==> forall k :: 2 <= k < |r.offset| + 2 ==> !SepAt(body, k)
    ensures r.Other? ==> r.line == body
  {
    if |body| > 0 && body[0] == '+' then
      Addition(body[1..])
    else if |body| > 0 && body[0] == '-' then
      Deletion(body[1..])
    else if |body| >= 2 && body[0] == '@' && body[1] == '@' then
      match SplitOnce(body[2..])
      case Some((offset, line)) =>
        assert forall k :: 2 <= k < |body| ==> (SepAt(body, k) <==> SepAt(body[2..], k - 2));
        HunkStart(offset, line)
      case None => Other(body)
    else
      Other(body)
  }

  /** A line is a hunk header exactly when it starts with `@@` and contains a further `@@`. */
  lemma NewHunk(body: string)
    ensures New(body).HunkStart? <==> StartsHunk(body)
  {
    if |body| >= 2 && body[0] == '@' && body[1] == '@' {
      var rest := body[2..];
      assert forall k :: 2 <= k < |body| ==> (SepAt(body, k) <==> SepAt(rest, k - 2));
      match SplitOnce(rest)
      case Some((offset, _)) =>
        assert SepAt(body, |offset| + 2);
      case None =>
    }
  }

  // ---------------------------------------------------------------------------------------
  // Rendering

  /** The terminal colours used; the escape sequences themselves are not modelled. */
  datatype Colour = Cyan | Red | Green | Reset

  /** A piece of output: text, or a switch of the foreground colour. */
  datatype Piece = Text(text: string) | Fg(colour: Colour)

  /** The text of an output, colour switches dropped. */
  function Plain(out: seq<Piece>): string
    decreases |out|
  {
    if |out| == 0 then ""
    else (if out[0].Text? then out[0].text else "") + Plain(out[1..])
  }

  lemma {:induction false} PlainAppend(a: seq<Piece>, b: seq<Piece>)
    ensures Plain(a + b) == Plain(a) + Plain(b)
    decreases |a|
  {
    if |a| == 0 {
      assert a + b == b;
    } else {
      assert (a + b)[1..] == a[1..] + b;
      PlainAppend(a[1..], b);
    }
  }

  /** The colour a line of each kind is written in; an unchanged line has none. */
  function KindColour(d: DiffLine): Colour
  {
    match d
    case HunkStart(_, _) => Cyan
    case Deletion(_) => Red
    case Addition(_) => Green
    case Other(_) => Reset
  }

  /** `Display for DiffLine`: a hunk header, a deletion or an addition opens with its colour and
      resets it afterwards; an unchanged line is written without any colour switch. */
  function Render(d: DiffLine): (out: seq<Piece>)
    ensures forall k :: 0 <= k < |out| && out[k].Fg? ==>
              out[k].colour == Reset || out[k].colour == KindColour(d)
    ensures d.Other? ==> forall k :: 0 <= k < |out| ==> !out[k].Fg?
    ensures !d.Other? ==> |out| >= 2 && out[0] == Fg(KindColour(d)) && Fg(Reset) in out[1..]
  {
    match d
    case HunkStart(offset, line) => [Fg(Cyan), Text("@@" + offset + "@@"), Fg(Reset), Text(line)]
    case Deletion(line) => [Fg(Red), Text("-" + line), Fg(Reset)]
    case Addition(line) => [Fg(Green), Text("+" + line), Fg(Reset)]
    case Other(line) => [Text(line)]
  }

  lemma PlainCons(p: Piece, rest: seq<Piece>)
    ensures Plain([p] + rest) == (if p.Text? then p.text else "") + Plain(rest)
  {
    assert ([p] + rest)[1..] == rest;
  }

  /** Rendering a classified line and dropping the colours gives back the line. */
  lemma RenderNew(body: string)
    ensures Plain(Render(New(body))) == body
  {
    PlainCons(Fg(Reset), []);
    match New(body)
    case HunkStart(offset, line) =>
      PlainCons(Text(line), []);
      PlainCons(Fg(Reset), [Text(line)]);
      PlainCons(Text("@@" + offset + "@@"), [Fg(Reset), Text(line)]);
      PlainCons(Fg(Cyan), [Text("@@" + offset + "@@"), Fg(Reset), Text(line)]);
    case Deletion(line) =>
      PlainCons(Text("-" + line), [Fg(Reset)]);
      PlainCons(Fg(Red), [Text("-" + line), Fg(Reset)]);
    case Addition(line) =>
      PlainCons(Text("+" + line), [Fg(Reset)]);
      PlainCons(Fg(Green), [Text("+" + line), Fg(Reset)]);
    case Other(line) =>
      PlainCons(Text(line), []);
  }

  /** `Display for PrettyPatch`, as a value: every line rendered in order, each followed by
      a newline. */
  function RenderLines(lines: seq<DiffLine>): seq<Piece>
    decreases |lines|
  {
    if |lines| == 0 then []
    else RenderLines(lines[..|lines| - 1]) + Render(lines[|lines| - 1]) + [Text("\n")]
  }

  /** `PrettyPatch`: the classified lines of one patch. */
  datatype PrettyPatch = PrettyPatch(lines: seq<DiffLine>)

  /** `Display for PrettyPatch`: the loop writing one line after another. A failing write
      to the formatter is not modelled. */
  method RenderPatch(patch: PrettyPatch) returns (out: seq<Piece>)
    ensures out == RenderLines(patch.lines)
  {
    out := [];
    var i := 0;
    while i < |patch.lines|
      invariant i <= |patch.lines|
      invariant out == RenderLines(patch.lines[..i])
    {
      assert patch.lines[..i + 1][..i] == patch.lines[..i];
      out := out + Render(patch.lines[i]) + [Text("\n")];
      i := i + 1;
    }
    assert patch.lines[..i] == patch.lines;
  }

  /** The lines of a text joined back, each followed by a newline. */
  function Unlines(texts: seq<string>): string
    decreases |texts|
  {
    if |texts| == 0 then ""
    else Unlines(texts[..|texts| - 1]) + texts[|texts| - 1] + "\n"
  }

  function Classify(texts: seq<string>): (lines: seq<DiffLine>)
    ensures |lines| == |texts|
    ensures forall k :: 0 <= k < |texts| ==> lines[k] == New(texts[k])
  {
    seq(|texts|, k requires 0 <= k < |texts| => New(texts[k]))
  }

  /** Dropping the colours of a rendered patch, one line at a time. */
  lemma PlainRenderLines(lines: seq<DiffLine>)
    requires |lines| > 0
    ensures Plain(RenderLines(lines)) ==
            Plain(RenderLines(lines[..|lines| - 1])) + Plain(Render(lines[|lines| - 1])) + "\n"
  {
    var n := |lines| - 1;
    PlainAppend(RenderLines(lines[..n]) + Render(lines[n]), [Text("\n")]);
    PlainAppend(RenderLines(lines[..n]), Render(lines[n]));
    PlainCons(Text("\n"), []);
  }

  /** A patch built from lines of text renders, colours dropped, to those lines each followed
      by a newline: colouring never changes the text. */
  lemma {:induction false} RenderPatchText(texts: seq<string>)
    ensures Plain(RenderLines(Classify(texts))) == Unlines(texts)
    decreases |texts|
  {
    if |texts| > 0 {
      var n := |texts| - 1;
      var lines := Classify(texts);
      assert lines[..n] == Classify(texts[..n]);
      PlainRenderLines(lines);
      RenderPatchText(texts[..n]);
      RenderNew(texts[n]);
    }
  }
}
