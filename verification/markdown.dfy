/** The line-oriented renderer of components/MarkdownRenderer.tsx: the text
    is split on line feeds and every line is classified by the first rule
    that applies, in this order: `###` heading, `##` heading, paragraph with
    `**` bold runs, bullet item, numbered item, spacer, plain paragraph. */
module Markdown {
  import opened Wrappers
  import opened Text

  /** A run of text inside a paragraph that uses `**`. */
  datatype Span = Span(text: string, bold: bool)

  /** One display block. */
  datatype Block =
    | Heading3(text: string)
    | Heading2(text: string)
    | Emphasized(spans: seq<Span>)
    | Bullet(text: string)
    | Numbered(marker: Option<string>, text: string)
    | Spacer
    | Paragraph(text: string)

  // ---------------------------------------------------------------------
  // the regular expressions of the list rules

  /** `s` starts with one or more digits followed by a dot at index `k`. */
  predicate DotAfterDigits(s: string, k: int) {
    0 < k < |s| && s[k] == '.' && forall i | 0 <= i < k :: IsDigit(s[i])
  }

  /** Length of the run of digits at the start of `s`. */
  function DigitRun(s: string): nat {
    if |s| > 0 && IsDigit(s[0]) then 1 + DigitRun(s[1..]) else 0
  }

  /** The run is maximal: all digits, and not followed by one. */
  lemma {:induction false} DigitRunSpec(s: string)
    ensures var n := DigitRun(s);
      && n <= |s|
      && (forall i | 0 <= i < n :: IsDigit(s[i]))
      && (n < |s| ==> !IsDigit(s[n]))
  {
    if |s| > 0 && IsDigit(s[0]) {
      DigitRunSpec(s[1..]);
      forall i | 1 <= i < DigitRun(s) ensures IsDigit(s[i]) {
        assert s[i] == s[1..][i - 1];
      }
    }
  }

  /** `s.match(/^\d+\./)?.[0]`: the leading digits with the dot after them. */
  function NumberMarker(s: string): Option<string> {
    var n := DigitRun(s);
    if 0 < n < |s| && s[n] == '.' then Some(s[..n + 1]) else None
  }

  /** The marker is present exactly when `s` starts with digits and a dot,
      and then it is those digits and that dot. */
  lemma NumberMarkerSpec(s: string)
    ensures NumberMarker(s).Some? <==> exists k :: DotAfterDigits(s, k)
    ensures NumberMarker(s).Some? ==>
              DotAfterDigits(s, |NumberMarker(s).value| - 1) && StartsWith(s, NumberMarker(s).value)
  {
    var n := DigitRun(s);
    DigitRunSpec(s);
    if 0 < n < |s| && s[n] == '.' {
      assert DotAfterDigits(s, n);
    }
  }

  /** `s.replace(/^\d+\.\s/, '')`: drops the leading number marker only when
      a whitespace character follows it. */
  function StripNumberMarker(s: string): string {
    match NumberMarker(s)
    case Some(m) => if |m| < |s| && IsSpace(s[|m|]) then s[|m| + 1..] else s
    case None => s
  }

  /** `s.replace(/^[-*]\s/, '')`: drops a dash or star and the whitespace
      character after it, only at the very start of `s`. */
  function StripBulletMarker(s: string): string {
    if |s| >= 2 && (s[0] == '-' || s[0] == '*') && IsSpace(s[1]) then s[2..] else s
  }

  /** The bullet test, made on the trimmed line: it starts with a dash or a
      star followed by a literal space. */
  predicate IsBulletLine(line: string) {
    StartsWith(Trim(line), "- ") || StartsWith(Trim(line), "* ")
  }

  /** The numbered-item test, made on the trimmed line. */
  predicate IsNumberedLine(line: string) {
    NumberMarker(Trim(line)).Some?
  }

  /** The texts of a paragraph's spans, in order. */
  function SpanTexts(spans: seq<Span>): seq<string> {
    seq(|spans|, i requires 0 <= i < |spans| => spans[i].text)
  }

  /** Spans from the pieces of `line.split('**')`: every odd-indexed piece is bold. */
  function Alternate(pieces: seq<string>): seq<Span> {
    seq(|pieces|, i requires 0 <= i < |pieces| => Span(pieces[i], i % 2 == 1))
  }

  lemma SpanTextsAlternate(pieces: seq<string>)
    ensures SpanTexts(Alternate(pieces)) == pieces
  {
  }

  /** An all-whitespace line matches none of the earlier rules. */
  lemma BlankMatchesNoMarker(line: string)
    ensures AllSpace(line) ==> !StartsWith(line, "##") && !Occurs(line, "**")
    ensures AllSpace(line) ==> !IsBulletLine(line) && !IsNumberedLine(line)
  {
    TrimEmpty(line);
    NumberMarkerSpec([]);
    if |line| >= 2 {
      assert line[..2][0] == line[0];
    }
    forall i | OccursAt(line, "**", i) ensures line[i] == '*' {
      assert line[i..i + 2][0] == line[i];
    }
  }

  /** A line holding the separator splits into at least two pieces. */
  lemma SplitNeedsSep(s: string, sep: string)
    requires |sep| > 0 && Occurs(s, sep)
    ensures |Split(s, sep)| >= 2
  {
    SplitPiecesAvoidSep(s, sep);
    SplitJoin(s, sep);
  }

  // ---------------------------------------------------------------------
  // one line

  /** The block for one line: the first rule that applies decides. */
  function Classify(line: string): Block
  {
    if StartsWith(line, "###") then
      Heading3(RemoveAll(line, "###"))
    else if StartsWith(line, "##") then
      Heading2(RemoveAll(line, "##"))
    else if Includes(line, "**") then
      Emphasized(Alternate(Split(line, "**")))
    else if IsBulletLine(line) then
      Bullet(StripBulletMarker(line))
    else if IsNumberedLine(line) then
      Numbered(NumberMarker(line), StripNumberMarker(line))
    else if Trim(line) == [] then
      Spacer
    else
      Paragraph(line)
  }

  /** Which kind of block a line becomes: each rule applies exactly when its
      own test passes and no earlier rule's does, and a line of whitespace
      only is a spacer. */
  lemma RulePrecedence(line: string)
    ensures var b := Classify(line);
      && (b.Heading3? <==> StartsWith(line, "###"))
      && (b.Heading2? <==> StartsWith(line, "##") && !StartsWith(line, "###"))
      && (b.Emphasized? <==> !StartsWith(line, "##") && Occurs(line, "**"))
      && (b.Bullet? <==> !StartsWith(line, "##") && !Occurs(line, "**") && IsBulletLine(line))
      && (b.Numbered? <==>
            !StartsWith(line, "##") && !Occurs(line, "**") && !IsBulletLine(line) && IsNumberedLine(line))
      && (b.Spacer? <==> AllSpace(line))
      && (b.Paragraph? ==> b.text == line)
  {
    BlankMatchesNoMarker(line);
    IncludesSpec(line, "**");
    TrimEmpty(line);
  }

  /** Heading text is the line with every `###` (resp. `##`) deleted, left to
      right and without overlap; nothing is trimmed and no other `#` goes. */
  lemma HeadingText(line: string)
    ensures Classify(line).Heading3? ==> Classify(line).text == Concat(Split(line, "###"))
    ensures Classify(line).Heading2? ==> Classify(line).text == Concat(Split(line, "##"))
  {
    if StartsWith(line, "###") {
      RemoveAllIsSplitConcat(line, "###");
    } else if StartsWith(line, "##") {
      RemoveAllIsSplitConcat(line, "##");
    }
  }

  /** A line with bold markers becomes at least two spans, alternating plain
      and bold starting with plain; joined with `**` the spans give the line
      back, and the markers are taken leftmost first: no span holds `**`,
      and no span before the last ends in a `*` that would pair with the
      marker after it (so `***b***` bolds `*b`, not `b*`). */
  lemma EmphasisSpans(line: string)
    requires Classify(line).Emphasized?
    ensures var spans := Classify(line).spans;
      && |spans| >= 2
      && (forall i | 0 <= i < |spans| :: spans[i].bold <==> i % 2 == 1)
      && (forall i | 0 <= i < |spans| :: !Occurs(spans[i].text, "**"))
      && (forall i | 0 <= i < |spans| - 1 :: NoEarlierCut(spans[i].text, "**"))
      && Join(SpanTexts(spans), "**") == line
  {
    var pieces := Split(line, "**");
    assert Classify(line) == Emphasized(Alternate(pieces));
    IncludesSpec(line, "**");
    SplitPiecesAvoidSep(line, "**");
    SplitLeftmost(line, "**");
    SplitNeedsSep(line, "**");
    SplitJoin(line, "**");
    SpanTextsAlternate(pieces);
  }

  /** A list item's text is the line itself or a suffix of it that drops
      only its leading marker: for a bullet, exactly the first two
      characters, a dash or star and a whitespace character; for a numbered
      item, exactly its marker and the whitespace character after it. */
  lemma ListTextIsSuffix(line: string)
    ensures var b := Classify(line);
      && (b.Bullet? ==>
            || b.text == line
            || (|line| >= 2 && (line[0] == '-' || line[0] == '*') && IsSpace(line[1]) && b.text == line[2..]))
      && (b.Numbered? ==>
            || b.text == line
            || (&& b.marker.Some? && |b.marker.value| < |line| && StartsWith(line, b.marker.value)
                && IsSpace(line[|b.marker.value|]) && b.text == line[|b.marker.value| + 1..]))
  {
    NumberMarkerSpec(line);
    if Classify(line).Bullet? {
      assert Classify(line) == Bullet(StripBulletMarker(line));
    } else if Classify(line).Numbered? {
      assert Classify(line) == Numbered(NumberMarker(line), StripNumberMarker(line));
    }
  }

  /** An indented line never loses a list marker: as a bullet or a numbered
      item its text is the whole line, and a numbered item has no marker,
      because the markers are matched on the untrimmed line. */
  lemma IndentedItemKeepsLine(line: string)
    requires |line| > 0 && IsSpace(line[0])
    ensures Classify(line).Bullet? ==> Classify(line).text == line
    ensures Classify(line).Numbered? ==> Classify(line) == Numbered(None, line)
  {
    NumberMarkerSpec(line);
    assert !IsDigit(line[0]);
    if Classify(line).Bullet? {
      assert Classify(line) == Bullet(StripBulletMarker(line));
    } else if Classify(line).Numbered? {
      assert Classify(line) == Numbered(NumberMarker(line), StripNumberMarker(line));
    }
  }

  /** The dot after a run of digits is the first non-digit, so it is unique. */
  lemma DotAfterDigitsUnique(s: string, j: int, k: int)
    requires DotAfterDigits(s, j) && DotAfterDigits(s, k)
    ensures j == k
  {
  }

  /** Trimming a line that starts with a non-space keeps every character up
      to its last non-space one. */
  lemma TrimKeeps(s: string, j: int)
    requires 0 <= j < |s| && !IsSpace(s[0]) && !IsSpace(s[j])
    ensures j < |Trim(s)| <= |s| && Trim(s) == s[..|Trim(s)|]
  {
    TrimKeepsFront(s);
    var r := Trim(s);
    forall i | |r| <= i < |s| ensures IsSpace(s[i]) {
      assert s[i] == s[|r|..][i - |r|];
    }
  }

  /** A dash or star, a space and some non-blank text keep their first two
      characters through trimming. */
  lemma MarkerSurvivesTrim(m: char, x: string)
    requires (m == '-' || m == '*') && !AllSpace(x)
    ensures StartsWith(Trim([m, ' '] + x), [m, ' '])
  {
    var y := [m, ' '] + x;
    var j :| 0 <= j < |x| && !IsSpace(x[j]);
    assert y[j + 2] == x[j];
    TrimKeeps(y, j + 2);
  }

  /** After optional indentation, a dash or star, a space and some
      non-blank text pass the bullet test. */
  lemma BulletTest(w: string, m: char, x: string)
    requires AllSpace(w) && (m == '-' || m == '*') && !AllSpace(x)
    ensures IsBulletLine(w + [m, ' '] + x)
  {
    var y := [m, ' '] + x;
    assert w + [m, ' '] + x == w + y;
    TrimLeadingSpace(w, y);
    MarkerSurvivesTrim(m, x);
    if m == '-' {
      assert StartsWith(Trim(y), "- ");
    } else {
      assert StartsWith(Trim(y), "* ");
    }
  }

  /** A line that reaches the bullet rule becomes a bullet. */
  lemma BulletRule(line: string)
    requires !StartsWith(line, "##") && !Occurs(line, "**") && IsBulletLine(line)
    ensures Classify(line) == Bullet(StripBulletMarker(line))
  {
    IncludesSpec(line, "**");
  }

  /** A dash or star followed by a space and some non-blank text is a bullet,
      indented or not; the marker leaves the text only when it is the very
      first character of the line. */
  lemma BulletItem(w: string, m: char, x: string)
    requires AllSpace(w) && (m == '-' || m == '*') && !AllSpace(x)
    requires !Occurs(w + [m, ' '] + x, "**")
    ensures Classify(w + [m, ' '] + x) == Bullet(if w == [] then x else w + [m, ' '] + x)
  {
    var line := w + [m, ' '] + x;
    BulletTest(w, m, x);
    assert !StartsWith(line, "##") by {
      if w == [] { assert line[0] == m; } else { assert line[0] == w[0]; }
    }
    BulletRule(line);
    if w == [] {
      assert line[2..] == x;
    } else {
      assert line[0] == w[0];
    }
  }

  /** Digits and a dot keep the dot through trimming. */
  lemma DotSurvivesTrim(d: string, x: string)
    requires |d| > 0 && forall i | 0 <= i < |d| :: IsDigit(d[i])
    ensures DotAfterDigits(Trim(d + "." + x), |d|)
  {
    var y := d + "." + x;
    assert y[|d|] == '.';
    assert y[0] == d[0];
    TrimKeeps(y, |d|);
    assert Trim(y)[..|d| + 1] == y[..|d| + 1];
  }

  /** After optional indentation, digits and a dot pass the numbered-item
      test and fail the bullet test. */
  lemma NumberedTest(w: string, d: string, x: string)
    requires AllSpace(w) && |d| > 0 && forall i | 0 <= i < |d| :: IsDigit(d[i])
    ensures IsNumberedLine(w + d + "." + x) && !IsBulletLine(w + d + "." + x)
  {
    var y := d + "." + x;
    assert w + d + "." + x == w + y;
    TrimLeadingSpace(w, y);
    DotSurvivesTrim(d, x);
    var t := Trim(y);
    assert Trim(w + d + "." + x) == t;
    assert DotAfterDigits(t, |d|);
    NumberMarkerSpec(t);
    assert IsDigit(t[0]);
  }

  /** A line that reaches the numbered rule becomes a numbered item. */
  lemma NumberedRule(line: string)
    requires !StartsWith(line, "##") && !Occurs(line, "**") && !IsBulletLine(line) && IsNumberedLine(line)
    ensures Classify(line) == Numbered(NumberMarker(line), StripNumberMarker(line))
  {
    IncludesSpec(line, "**");
  }

  /** An unindented line of digits and a dot, without bold markers, is a
      numbered item whose marker is the digits and the dot; they leave the
      text together with one whitespace character only when one follows. */
  lemma NumberedUnindented(d: string, x: string)
    requires |d| > 0 && forall i | 0 <= i < |d| :: IsDigit(d[i])
    requires !Occurs(d + "." + x, "**")
    ensures var line := d + "." + x;
      Classify(line) ==
        if |x| > 0 && IsSpace(x[0]) then Numbered(Some(d + "."), x[1..])
        else Numbered(Some(d + "."), line)
  {
    var line := d + "." + x;
    NumberedTest([], d, x);
    assert [] + d + "." + x == line;
    assert !StartsWith(line, "##") by {
      assert line[0] == d[0];
    }
    NumberedRule(line);
    LeadingMarker(d, x);
    if |x| > 0 {
      assert line[|d| + 1] == x[0];
      assert line[|d| + 2..] == x[1..];
    }
  }

  /** The marker of a line that starts with digits and a dot is those digits
      and that dot. */
  lemma LeadingMarker(d: string, x: string)
    requires |d| > 0 && forall i | 0 <= i < |d| :: IsDigit(d[i])
    ensures NumberMarker(d + "." + x) == Some(d + ".")
  {
    var line := d + "." + x;
    assert DotAfterDigits(line, |d|);
    NumberMarkerSpec(line);
    var m := NumberMarker(line).value;
    DotAfterDigitsUnique(line, |d|, |m| - 1);
    assert m == line[..|d| + 1] == d + ".";
  }

  /** An indented line of digits and a dot, without bold markers, is a
      numbered item with no marker whose text is the whole line. */
  lemma NumberedIndented(w: string, d: string, x: string)
    requires AllSpace(w) && w != [] && |d| > 0 && forall i | 0 <= i < |d| :: IsDigit(d[i])
    requires !Occurs(w + d + "." + x, "**")
    ensures var line := w + d + "." + x;
      Classify(line) == Numbered(None, line)
  {
    var line := w + d + "." + x;
    NumberedTest(w, d, x);
    IncludesSpec(line, "**");
    assert line[0] == w[0];
    assert !StartsWith(line, "##") by {
      assert line[0] == w[0];
    }
    IndentedItemKeepsLine(line);
  }

  /** Digits and a dot, not followed by bold markers, make a numbered item.
      Unindented, the marker is the digits and the dot, and they leave the
      text together with one whitespace character only when one follows;
      indented, there is no marker and the text is the whole line. */
  lemma NumberedItem(w: string, d: string, x: string)
    requires AllSpace(w) && |d| > 0 && forall i | 0 <= i < |d| :: IsDigit(d[i])
    requires !Occurs(w + d + "." + x, "**")
    ensures var line := w + d + "." + x;
      Classify(line) ==
        if w != [] then Numbered(None, line)
        else if |x| > 0 && IsSpace(x[0]) then Numbered(Some(d + "."), x[1..])
        else Numbered(Some(d + "."), line)
  {
    if w == [] {
      assert w + d + "." + x == d + "." + x;
      NumberedUnindented(d, x);
    } else {
      NumberedIndented(w, d, x);
    }
  }

  // ---------------------------------------------------------------------
  // the whole text

  /** `text.split('\n')`, one block per line. There is one block more than
      there are line feeds. */
  function Render(text: string): (blocks: seq<Block>)
    ensures |blocks| == CountChar(text, '\n') + 1
  {
    var lines := Split(text, "\n");
    SplitCharCount(text, '\n');
    seq(|lines|, i requires 0 <= i < |lines| => Classify(lines[i]))
  }

  /** Rendering lines joined with line feeds gives one block per line, in
      order, each classified on its own. */
  lemma RenderLines(lines: seq<string>)
    requires |lines| >= 1
    requires forall k | 0 <= k < |lines| :: '\n' !in lines[k]
    ensures |Render(Join(lines, "\n"))| == |lines|
    ensures forall k | 0 <= k < |lines| :: Render(Join(lines, "\n"))[k] == Classify(lines[k])
  {
    SplitJoinChar(lines, '\n');
  }

  /** No line sees its neighbours: rendering two texts joined by a line feed
      gives their two renderings one after the other. */
  lemma RenderAppend(x: string, y: string)
    ensures Render(x + "\n" + y) == Render(x) + Render(y)
  {
    SplitCharAppend(x, y, '\n');
  }

  /** A single line renders to its own block. */
  lemma RenderLine(line: string)
    requires '\n' !in line
    ensures Render(line) == [Classify(line)]
  {
    RenderLines([line]);
  }

  /** A pattern made of `c` cannot occur where `c` does not. */
  lemma NoOccurrenceWithout(t: string, p: string, c: char)
    requires |p| > 0 && p[0] == c && c !in t
    ensures !Occurs(t, p)
  {
    OccurrenceStartsWith(t, p);
  }

  /** An occurrence of `p` starts with the first character of `p`. */
  lemma OccurrenceStartsWith(t: string, p: string)
    requires |p| > 0
    ensures forall i | OccursAt(t, p, i) :: t[i] == p[0]
  {
    forall i | OccursAt(t, p, i) ensures t[i] == p[0] {
      assert t[i..i + |p|][0] == t[i];
    }
  }

  /** A line that does not start with `##` and holds `**` becomes the spans
      of its `**`-separated pieces. */
  lemma BoldLine(line: string)
    requires !StartsWith(line, "##") && Occurs(line, "**")
    ensures Classify(line) == Emphasized(Alternate(Split(line, "**")))
  {
    IncludesSpec(line, "**");
  }

  /** A `###` heading keeps the rest of the line as it is, leading space
      and bold markers included, when no further `#` follows. */
  lemma Heading3Untrimmed(t: string)
    requires '#' !in t
    ensures Classify("###" + t) == Heading3(t)
  {
    var line := "###" + t;
    assert line[..3] == "###";
    assert line[3..] == t;
    NoOccurrenceWithout(t, "###", '#');
    RemoveAllAbsent(t, "###");
  }

  /** A `##` heading keeps the rest of the line as it is when no further
      `#` follows. */
  lemma Heading2Untrimmed(t: string)
    requires '#' !in t
    ensures Classify("##" + t) == Heading2(t)
  {
    var line := "##" + t;
    assert line[..2] == "##";
    assert line[2..] == t;
    if |t| > 0 {
      assert line[..3][2] == t[0];
    }
    NoOccurrenceWithout(t, "##", '#');
    RemoveAllAbsent(t, "##");
  }

  /** Text wrapped in one pair of `**` is a plain empty span, the bold text
      and another plain empty span. */
  lemma BoldRun(x: string)
    requires '*' !in x
    ensures Classify("**" + x + "**") ==
      Emphasized([Span("", false), Span(x, true), Span("", false)])
  {
    var line := "**" + x + "**";
    assert OccursAt(line, "**", 0);
    BoldLine(line);
    SplitBoldRun(x);
    assert Alternate(["", x, ""]) == [Span("", false), Span(x, true), Span("", false)];
  }

  /** `**x**` splits on `**` into an empty piece, `x` and an empty piece. */
  lemma SplitBoldRun(x: string)
    requires '*' !in x
    ensures Split("**" + x + "**", "**") == ["", x, ""]
  {
    assert "**" + x + "**" == [] + "**" + (x + "**" + []);
    SplitAfterPrefix([], "**", x + "**" + []);
    SplitAfterPrefix(x, "**", []);
    SplitNoSep([], "**");
  }

  // ---------------------------------------------------------------------
  // worked examples

  /** A heading rule beats the bold rule: the `**` markers stay in the text,
      and so does the space after the hashes. */
  lemma HeadingBeatsBold()
    ensures Classify("### **B**") == Heading3(" **B**")
  {
    assert "### **B**" == "###" + " **B**";
    Heading3Untrimmed(" **B**");
  }

  /** Four lines render to their four blocks. */
  lemma RenderFour(a: string, b: string, c: string, d: string)
    requires '\n' !in a && '\n' !in b && '\n' !in c && '\n' !in d
    ensures Render(a + "\n" + (b + "\n" + (c + "\n" + d))) ==
      [Classify(a), Classify(b), Classify(c), Classify(d)]
  {
    RenderAppend(a, b + "\n" + (c + "\n" + d));
    RenderAppend(b, c + "\n" + d);
    RenderAppend(c, d);
    RenderLine(a);
    RenderLine(b);
    RenderLine(c);
    RenderLine(d);
  }

  /** A bullet, a bold paragraph, a blank line and a level-2 heading render
      to four blocks in that order; the heading keeps the space after `##`.
      With `x`, `y`, `z` = "Buy AAPL", "Risk: High", " Summary" this is
      `- Buy AAPL\n**Risk: High**\n\n## Summary`. */
  lemma FourLines(x: string, y: string, z: string)
    requires !AllSpace(x) && '*' !in x && '\n' !in x
    requires '*' !in y && '\n' !in y
    requires '#' !in z && '\n' !in z
    ensures Render("- " + x + "\n**" + y + "**\n\n##" + z) ==
      [ Bullet(x),
        Emphasized([Span("", false), Span(y, true), Span("", false)]),
        Spacer,
        Heading2(z) ]
  {
    var a, b, c, d := "- " + x, "**" + y + "**", "", "##" + z;
    assert a + "\n" + (b + "\n" + (c + "\n" + d)) == "- " + x + "\n**" + y + "**\n\n##" + z;
    RenderFour(a, b, c, d);
    assert a == [] + ['-', ' '] + x;
    NoOccurrenceWithout(a, "**", '*');
    BulletItem([], '-', x);
    BoldRun(y);
    RulePrecedence(c);
    Heading2Untrimmed(z);
  }
}
