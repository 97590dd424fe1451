/**
  The orchestrator prints the code generator's sections with the very labels
  and fences the code generator parses them by
  (`ChatOrchestrator._format_code_response` and `CodeGenerator._parse_response`).
  This module proves that printing then parsing gives the sections back, for
  every section text that does not itself contain a fence or a label.
*/
module ResponseRoundTrip {
  import opened Text
  import opened CodeGenerator
  import opened Orchestrator

  /** A section text that survives printing and parsing unchanged. */
  predicate Printable(f: string) {
    && IsStripped(f)
    && !Contains(f, Fence) && !Contains(f, Bold)
    && !Contains(f, PlainExplanation) && !Contains(f, PlainEstimatedCost) && !Contains(f, PlainGotchas)
  }

  /**
    A code text that survives printing and parsing unchanged. Code may hold
    `**` (`f(**kw)`, `x ** 2`): the parser only looks for `**` after a label.
    A bare `**Cost Estimate:**` is still excluded, since it would be taken as
    the cost label when the cost section is empty.
  */
  predicate PrintableCode(c: string) {
    && IsStripped(c)
    && !Contains(c, Fence) && !Contains(c, BoldCostEstimate)
    && !Contains(c, PlainExplanation) && !Contains(c, PlainEstimatedCost) && !Contains(c, PlainGotchas)
  }

  predicate PrintableSections(s: Sections) {
    PrintableCode(s.code) && Printable(s.explanation) && Printable(s.costEstimate) && Printable(s.gotchas)
  }

  // ---------------------------------------------------------------------------
  // The formatted reply as a list of lines

  function CodePieces(code: string): seq<string> {
    if code != "" then [PythonFence, code, Fence, ""] else []
  }

  function ParagraphPieces(heading: string, text: string): seq<string> {
    if text != "" then [heading, text, ""] else []
  }

  function Pieces(s: Sections): seq<string> {
    CodePieces(s.code) + ParagraphPieces(BoldExplanation, s.explanation)
    + ParagraphPieces(BoldEstimatedCost, s.costEstimate) + ParagraphPieces(BoldGotchas, s.gotchas)
  }

  lemma LinesCons(a: string, rest: seq<string>, tail: string)
    ensures Lines([a] + rest, tail) == a + "\n" + Lines(rest, tail)
  {
    assert ([a] + rest)[1..] == rest;
  }

  lemma CodeLines(code: string, tail: string)
    ensures Lines(CodePieces(code), tail) == CodeBlock(code) + tail
  {
    if code != "" {
      LinesCons("", [], tail);
      LinesCons(Fence, [""], tail);
      LinesCons(code, [Fence, ""], tail);
      LinesCons(PythonFence, [code, Fence, ""], tail);
      assert "" + "\n" + tail == "\n" + tail;
    }
  }

  lemma ParagraphLines(heading: string, text: string, tail: string)
    ensures Lines(ParagraphPieces(heading, text), tail) == Paragraph(heading, text) + tail
  {
    if text != "" {
      LinesCons("", [], tail);
      LinesCons(text, [""], tail);
      LinesCons(heading, [text, ""], tail);
      assert "" + "\n" + tail == "\n" + tail;
    }
  }

  /** Four groups of lines, each rendering as its own text, render as the four texts in order. */
  lemma Lines4(c: seq<string>, e: seq<string>, k: seq<string>, g: seq<string>,
               pc: string, pe: string, pk: string, pg: string)
    requires Lines(g, "") == pg && Lines(k, pg) == pk + pg
    requires Lines(e, pk + pg) == pe + (pk + pg) && Lines(c, pe + (pk + pg)) == pc + (pe + (pk + pg))
    ensures Lines(c + e + k + g, "") == pc + (pe + (pk + pg))
  {
    calc {
      Lines(c + e + k + g, "");
      { LinesAppend(c + e + k, g, ""); }
      Lines(c + e + k, pg);
      { LinesAppend(c + e, k, pg); }
      Lines(c + e, pk + pg);
      { LinesAppend(c, e, pk + pg); }
      Lines(c, pe + (pk + pg));
    }
  }

  /** The formatted reply is its pieces joined by newlines. */
  lemma FormatIsLines(s: Sections)
    ensures FormatCodeResponse(s) == Lines(Pieces(s), "")
  {
    var pc := CodeBlock(s.code);
    var pe := Paragraph(BoldExplanation, s.explanation);
    var pk := Paragraph(BoldEstimatedCost, s.costEstimate);
    var pg := Paragraph(BoldGotchas, s.gotchas);
    ParagraphLines(BoldGotchas, s.gotchas, "");
    assert pg + "" == pg;
    ParagraphLines(BoldEstimatedCost, s.costEstimate, pg);
    ParagraphLines(BoldExplanation, s.explanation, pk + pg);
    CodeLines(s.code, pe + (pk + pg));
    Lines4(CodePieces(s.code), ParagraphPieces(BoldExplanation, s.explanation),
           ParagraphPieces(BoldEstimatedCost, s.costEstimate), ParagraphPieces(BoldGotchas, s.gotchas),
           pc, pe, pk, pg);
    Regroup(pc, pe, pk, pg);
  }

  lemma Regroup(a: string, b: string, c: string, d: string)
    ensures a + (b + (c + d)) == a + b + c + d
  {
  }

  // ---------------------------------------------------------------------------
  // Which patterns the pieces lack

  predicate AbsentIn(lines: seq<string>, p: string) {
    AbsentBefore(lines, p, |lines|)
  }

  lemma AbsentAppend(a: seq<string>, b: seq<string>, p: string)
    requires AbsentIn(a, p) && AbsentIn(b, p)
    ensures AbsentIn(a + b, p)
  {
    assert forall j :: |a| <= j < |a + b| ==> (a + b)[j] == b[j - |a|];
  }

  lemma EmptyLacks(p: string)
    requires |p| > 0
    ensures !Contains("", p)
  {
    MissingChar("", p, p[0]);
  }

  lemma CodeLacks(code: string, p: string)
    requires |p| > 0 && !Contains(code, p)
    requires code != "" ==> !Contains(PythonFence, p) && !Contains(Fence, p)
    ensures AbsentIn(CodePieces(code), p)
  {
    EmptyLacks(p);
  }

  lemma ParagraphLacks(heading: string, text: string, p: string)
    requires |p| > 0 && !Contains(text, p)
    requires text != "" ==> !Contains(heading, p)
    ensures AbsentIn(ParagraphPieces(heading, text), p)
  {
    EmptyLacks(p);
  }

  /** A printable text holds no label, no fence and no `**`. */
  lemma PrintableLacks(f: string)
    requires Printable(f)
    ensures !Contains(f, PythonFence) && !Contains(f, BoldExplanation)
    ensures !Contains(f, BoldEstimatedCost) && !Contains(f, BoldCostEstimate) && !Contains(f, BoldGotchas)
  {
    if Contains(f, PythonFence) {
      assert OccursAt(PythonFence, Fence, 0);
      ContainsPiece(f, PythonFence, Fence, 0);
    }
    forall l | l in [BoldExplanation, BoldEstimatedCost, BoldCostEstimate, BoldGotchas]
      ensures !Contains(f, l)
    {
      if Contains(f, l) {
        assert OccursAt(l, Bold, 0);
        ContainsPiece(f, l, Bold, 0);
      }
    }
  }

  /** Printable code holds no label and no fence, though it may hold `**`. */
  lemma PrintableCodeLacks(c: string)
    requires PrintableCode(c)
    ensures !Contains(c, PythonFence) && !Contains(c, BoldExplanation)
    ensures !Contains(c, BoldEstimatedCost) && !Contains(c, BoldCostEstimate) && !Contains(c, BoldGotchas)
  {
    if Contains(c, PythonFence) {
      assert OccursAt(PythonFence, Fence, 0);
      ContainsPiece(c, PythonFence, Fence, 0);
    }
    if Contains(c, BoldExplanation) {
      BoldExplanationAround();
      BoldAround(BoldExplanation, PlainExplanation);
      ContainsPiece(c, BoldExplanation, PlainExplanation, 2);
    }
    if Contains(c, BoldEstimatedCost) {
      BoldEstimatedCostAround();
      BoldAround(BoldEstimatedCost, PlainEstimatedCost);
      ContainsPiece(c, BoldEstimatedCost, PlainEstimatedCost, 2);
    }
    if Contains(c, BoldGotchas) {
      BoldGotchasAround();
      BoldAround(BoldGotchas, PlainGotchas);
      ContainsPiece(c, BoldGotchas, PlainGotchas, 2);
    }
  }

  // ---------------------------------------------------------------------------
  // Reading one section back

  /** Three lines with empty first and last lines render as the middle one framed by newlines. */
  lemma FramedLines(t: string)
    ensures Lines(["", t, ""], "") == "\n" + t + "\n\n"
  {
    LinesCons("", [], "");
    LinesCons(t, [""], "");
    LinesCons("", [t, ""], "");
    assert "" + "\n" + "" == "\n";
    assert "" + "\n" + (t + "\n" + "\n") == "\n" + t + "\n\n";
  }

  lemma FramedLacks(t: string, p: string)
    requires |p| > 0 && !Contains(t, p)
    ensures AbsentIn(["", t, ""], p)
  {
    EmptyLacks(p);
    var lines := ["", t, ""];
    forall j | 0 <= j < 3
      ensures !Contains(lines[j], p)
    {
      if j != 1 {
        assert lines[j] == "";
      }
    }
  }

  /** Splitting at a line that ends with the pattern, when no other line and not the tail holds it. */
  lemma CutAtLineEnd(lines: seq<string>, tail: string, h: string, k: nat)
    requires |h| > 0 && NoNewline(h) && k < |lines|
    requires Contains(lines[k], h) && After(lines[k], h) == ""
    requires AbsentBefore(lines, h, k) && AbsentIn(lines[k + 1..], h) && !Contains(tail, h)
    ensures Contains(Lines(lines, tail), h)
    ensures Split(Lines(lines, tail), h)[1] == Lines([""] + lines[k + 1..], tail)
  {
    CutLines(lines, tail, h, k);
    EmptyLacks(h);
    AbsentAppend([""], lines[k + 1..], h);
    CutTail([""] + lines[k + 1..], tail, h);
  }

  /** Splitting at a line that is exactly the pattern, when no other line holds it. */
  lemma CutAtHeading(lines: seq<string>, h: string, k: nat)
    requires |h| > 0 && NoNewline(h) && k < |lines| && lines[k] == h
    requires AbsentBefore(lines, h, k) && AbsentIn(lines[k + 1..], h)
    ensures Contains(Lines(lines, ""), h)
    ensures Split(Lines(lines, ""), h)[1] == Lines([""] + lines[k + 1..], "")
  {
    CutAtStart(h, "");
    assert h + "" == h;
    EmptyLacks(h);
    CutAtLineEnd(lines, "", h, k);
  }

  /** The text after a heading that occurs once is the rest of the reply, from the newline on. */
  lemma HeadingCut(a: seq<string>, h: string, t: string, b: seq<string>)
    requires |h| > 0 && NoNewline(h)
    requires AbsentIn(a, h) && AbsentIn(b, h) && !Contains(t, h)
    ensures Contains(Lines(a + [h, t, ""] + b, ""), h)
    ensures Split(Lines(a + [h, t, ""] + b, ""), h)[1] == Lines(["", t, ""] + b, "")
  {
    var lines := a + [h, t, ""] + b;
    ParagraphShape(a, h, t, b);
    AbsentPrefix(a, [h, t, ""] + b, h);
    EmptyLacks(h);
    AbsentAppend([t, ""], b, h);
    CutAtHeading(lines, h, |a|);
  }

  /** Where a paragraph's lines sit in `a + [h, t, ""] + b`. */
  lemma ParagraphShape(a: seq<string>, h: string, t: string, b: seq<string>)
    ensures a + [h, t, ""] + b == a + ([h, t, ""] + b)
    ensures (a + [h, t, ""] + b)[|a|] == h
    ensures (a + [h, t, ""] + b)[|a| + 1..] == [t, ""] + b
    ensures [""] + ([t, ""] + b) == ["", t, ""] + b
  {
    var lines := a + [h, t, ""] + b;
    assert lines[|a| + 1..] == [t, ""] + b;
  }

  /** The section's text runs to the next `**`, or to the end, and is trimmed. */
  lemma {:induction false} BoldCut(t: string, b: seq<string>)
    requires b == [] || OccursAt(b[0], Bold, 0)
    requires IsStripped(t) && !Contains(t, Bold)
    ensures var part := Lines(["", t, ""] + b, "");
            Strip(if Contains(part, Bold) then Split(part, Bold)[0] else part) == t
  {
    var rest := ["", t, ""] + b;
    FramedLacks(t, Bold);
    FramedLines(t);
    if b == [] {
      assert rest == ["", t, ""];
      CutTail(rest, "", Bold);
    } else {
      StartsWith(b[0], Bold);
      assert rest[3] == b[0] && rest[..3] == ["", t, ""];
      CutLines(rest, "", Bold, 3);
    }
    StripFramed("\n", t, "\n\n");
  }

  /**
    A paragraph `h`, `t`, `""` whose heading occurs nowhere else reads back as
    `t` when the lines after it are empty or start with `**`.
  */
  lemma FieldRoundTrip(a: seq<string>, h: string, t: string, b: seq<string>)
    requires |h| > 0 && NoNewline(h)
    requires AbsentIn(a, h) && AbsentIn(b, h) && !Contains(t, h)
    requires b == [] || OccursAt(b[0], Bold, 0)
    requires IsStripped(t) && !Contains(t, Bold)
    ensures Contains(Lines(a + [h, t, ""] + b, ""), h)
    ensures FieldAfter(Lines(a + [h, t, ""] + b, ""), h) == t
  {
    HeadingCut(a, h, t, b);
    BoldCut(t, b);
  }

  // ---------------------------------------------------------------------------
  // Reading the code back

  /** The closing fence `f` ends the code line's paragraph, framed by newlines. */
  lemma FenceCut(f: string, code: string, rest: seq<string>)
    requires |f| > 0 && NoNewline(f) && !Contains(code, f)
    ensures var part := Lines(["", code, f, ""] + rest, "");
            Contains(part, f) && Before(part, f) == "\n" + code + "\n"
  {
    var lines := ["", code, f, ""] + rest;
    EmptyLacks(f);
    assert lines[..2] == ["", code] && lines[2] == f;
    assert AbsentBefore(lines, f, 2) by {
      assert lines[0] == "" && lines[1] == code;
    }
    CutAtStart(f, "");
    assert f + "" == f;
    CutLines(lines, "", f, 2);
    PairLines(code);
  }

  lemma CloseLacks(code: string, f: string, p: string)
    requires |p| > 0 && !Contains(code, p) && !Contains(f, p)
    ensures AbsentIn([code, f, ""], p)
  {
    EmptyLacks(p);
    var lines := [code, f, ""];
    forall j | 0 <= j < 3
      ensures !Contains(lines[j], p)
    {
      if j == 2 {
        assert lines[j] == "";
      }
    }
  }

  lemma Regroup4(w: string, x: string, y: string, z: string, rest: seq<string>)
    ensures [w, x, y, z] + rest == [w] + ([x, y, z] + rest)
  {
  }

  /** Splitting at the first line, when no later line holds the pattern. */
  lemma OpenerCut(o: string, more: seq<string>)
    requires |o| > 0 && NoNewline(o) && AbsentIn(more, o)
    ensures Contains(Lines([o] + more, ""), o)
    ensures Split(Lines([o] + more, ""), o)[1] == Lines([""] + more, "")
  {
    assert ([o] + more)[1..] == more;
    CutAtHeading([o] + more, o, 0);
  }

  /**
    Lines opener `o`, `code`, fence `f`, an empty line and more lines without `o`:
    the stripped text between the first `o` and the next `f` is the code.
  */
  lemma BlockCut(o: string, f: string, code: string, rest: seq<string>)
    requires |o| > 0 && NoNewline(o) && |f| > 0 && NoNewline(f)
    requires !Contains(code, o) && !Contains(f, o) && AbsentIn(rest, o)
    requires !Contains(code, f) && IsStripped(code)
    ensures Contains(Lines([o, code, f, ""] + rest, ""), o)
    ensures Strip(Split(Split(Lines([o, code, f, ""] + rest, ""), o)[1], f)[0]) == code
  {
    CloseLacks(code, f, o);
    AbsentAppend([code, f, ""], rest, o);
    OpenerCut(o, [code, f, ""] + rest);
    Regroup4(o, code, f, "", rest);
    Regroup4("", code, f, "", rest);
    FenceCut(f, code, rest);
    StripFramed("\n", code, "\n");
  }

  /** Python code with keyword-argument unpacking is printable code, though not a printable paragraph. */
  lemma KeywordUnpackingPrintable()
    ensures PrintableCode("f(**kw)") && !Printable("f(**kw)")
  {
    var c := "f(**kw)";
    assert c[2..4] == Bold;
    OccursContains(c, Bold, 2);
    MissingChar(c, Fence, '`');
    MissingChar(c, BoldCostEstimate, ':');
    MissingChar(c, PlainExplanation, ':');
    MissingChar(c, PlainEstimatedCost, ':');
    MissingChar(c, PlainGotchas, ':');
  }

  /** A code block opening the reply, with no other opener, reads back as its code. */
  lemma CodeRoundTrip(code: string, rest: seq<string>)
    requires PrintableCode(code) && code != ""
    requires AbsentIn(rest, PythonFence)
    ensures Contains(Lines([PythonFence, code, Fence, ""] + rest, ""), PythonFence)
    ensures PythonBlock(Lines([PythonFence, code, Fence, ""] + rest, "")) == code
  {
    PrintableCodeLacks(code);
    LabelsOneLine();
    MissingChar(Fence, PythonFence, 'p');
    BlockCut(PythonFence, Fence, code, rest);
  }

  // ---------------------------------------------------------------------------
  // The whole reply

  lemma SeqRegroup(c: seq<string>, e: seq<string>, k: seq<string>, g: seq<string>)
    ensures c + e + k + g == c + (e + (k + g))
    ensures c + e + k + g == c + e + (k + g)
    ensures c + e + k + g == (c + e + k) + g
  {
  }

  /** A pattern that no printed line holds. */
  lemma {:induction false} PiecesLack(s: Sections, p: string)
    requires |p| > 0 && NoNewline(p)
    requires !Contains(s.code, p) && !Contains(s.explanation, p)
    requires !Contains(s.costEstimate, p) && !Contains(s.gotchas, p)
    requires s.code != "" ==> !Contains(PythonFence, p) && !Contains(Fence, p)
    requires s.explanation != "" ==> !Contains(BoldExplanation, p)
    requires s.costEstimate != "" ==> !Contains(BoldEstimatedCost, p)
    requires s.gotchas != "" ==> !Contains(BoldGotchas, p)
    ensures AbsentIn(Pieces(s), p)
    ensures !Contains(Lines(Pieces(s), ""), p)
  {
    var c := CodePieces(s.code);
    var e := ParagraphPieces(BoldExplanation, s.explanation);
    var k := ParagraphPieces(BoldEstimatedCost, s.costEstimate);
    var g := ParagraphPieces(BoldGotchas, s.gotchas);
    CodeLacks(s.code, p);
    ParagraphLacks(BoldExplanation, s.explanation, p);
    ParagraphLacks(BoldEstimatedCost, s.costEstimate, p);
    ParagraphLacks(BoldGotchas, s.gotchas, p);
    AbsentAppend(c, e, p);
    AbsentAppend(c + e, k, p);
    AbsentAppend(c + e + k, g, p);
    CutTail(Pieces(s), "", p);
    EmptyLacks(p);
  }

  lemma AllPrintableLack(s: Sections)
    requires PrintableSections(s)
    ensures !Contains(s.code, PythonFence) && !Contains(s.code, BoldExplanation)
    ensures !Contains(s.code, BoldEstimatedCost) && !Contains(s.code, BoldCostEstimate)
    ensures !Contains(s.code, BoldGotchas)
    ensures !Contains(s.explanation, PythonFence) && !Contains(s.explanation, BoldExplanation)
    ensures !Contains(s.explanation, BoldEstimatedCost) && !Contains(s.explanation, BoldCostEstimate)
    ensures !Contains(s.explanation, BoldGotchas)
    ensures !Contains(s.costEstimate, PythonFence) && !Contains(s.costEstimate, BoldExplanation)
    ensures !Contains(s.costEstimate, BoldEstimatedCost) && !Contains(s.costEstimate, BoldCostEstimate)
    ensures !Contains(s.costEstimate, BoldGotchas)
    ensures !Contains(s.gotchas, PythonFence) && !Contains(s.gotchas, BoldExplanation)
    ensures !Contains(s.gotchas, BoldEstimatedCost) && !Contains(s.gotchas, BoldCostEstimate)
    ensures !Contains(s.gotchas, BoldGotchas)
  {
    PrintableCodeLacks(s.code);
    PrintableLacks(s.explanation);
    PrintableLacks(s.costEstimate);
    PrintableLacks(s.gotchas);
  }

  /** The code comes back. */
  lemma CodePresent(s: Sections)
    requires PrintableSections(s) && s.code != ""
    ensures ParseResponse(Lines(Pieces(s), "")).code == s.code
  {
    AllPrintableLack(s);
    var e := ParagraphPieces(BoldExplanation, s.explanation);
    var k := ParagraphPieces(BoldEstimatedCost, s.costEstimate);
    var g := ParagraphPieces(BoldGotchas, s.gotchas);
    SeqRegroup(CodePieces(s.code), e, k, g);
    LiteralsLackPythonFence();
    ParagraphLacks(BoldExplanation, s.explanation, PythonFence);
    ParagraphLacks(BoldEstimatedCost, s.costEstimate, PythonFence);
    ParagraphLacks(BoldGotchas, s.gotchas, PythonFence);
    AbsentAppend(k, g, PythonFence);
    AbsentAppend(e, k + g, PythonFence);
    CodeRoundTrip(s.code, e + (k + g));
    CodeIsPythonBlock(Lines(Pieces(s), ""));
  }

  lemma CodeAbsent(s: Sections)
    requires PrintableSections(s) && s.code == ""
    ensures ParseResponse(Lines(Pieces(s), "")).code == ""
  {
    HeadingLacksFence(BoldExplanation);
    HeadingLacksFence(BoldEstimatedCost);
    HeadingLacksFence(BoldGotchas);
    LabelsOneLine();
    PiecesLack(s, Fence);
  }

  /** The code comes back. */
  lemma CodeBack(s: Sections)
    requires PrintableSections(s)
    ensures ParseResponse(Lines(Pieces(s), "")).code == s.code
  {
    if s.code != "" {
      CodePresent(s);
    } else {
      CodeAbsent(s);
    }
  }

  /** The paragraphs after the explanation start with a bold heading, if there are any. */
  lemma NextStartsBold(costEstimate: string, gotchas: string)
    ensures var b := ParagraphPieces(BoldEstimatedCost, costEstimate) + ParagraphPieces(BoldGotchas, gotchas);
            b == [] || OccursAt(b[0], Bold, 0)
  {
    BoldHeadings();
  }

  lemma BoldHeadings()
    ensures OccursAt(BoldEstimatedCost, Bold, 0) && OccursAt(BoldGotchas, Bold, 0)
  {
  }

  lemma ExplanationPresent(s: Sections)
    requires PrintableSections(s) && s.explanation != ""
    ensures ParseResponse(Lines(Pieces(s), "")).explanation == s.explanation
  {
    AllPrintableLack(s);
    var c := CodePieces(s.code);
    var e := ParagraphPieces(BoldExplanation, s.explanation);
    var k := ParagraphPieces(BoldEstimatedCost, s.costEstimate);
    var g := ParagraphPieces(BoldGotchas, s.gotchas);
    LiteralsLackBoldExplanation();
    LabelsOneLine();
    SeqRegroup(c, e, k, g);
    CodeLacks(s.code, BoldExplanation);
    ParagraphLacks(BoldEstimatedCost, s.costEstimate, BoldExplanation);
    ParagraphLacks(BoldGotchas, s.gotchas, BoldExplanation);
    AbsentAppend(k, g, BoldExplanation);
    NextStartsBold(s.costEstimate, s.gotchas);
    FieldRoundTrip(c, BoldExplanation, s.explanation, k + g);
    ExplanationPrefersBold(Lines(Pieces(s), ""));
  }

  /** The explanation comes back. */
  lemma ExplanationBack(s: Sections)
    requires PrintableSections(s)
    ensures ParseResponse(Lines(Pieces(s), "")).explanation == s.explanation
  {
    if s.explanation != "" {
      ExplanationPresent(s);
    } else {
      ExplanationAbsent(s);
    }
  }

  lemma ExplanationAbsent(s: Sections)
    requires PrintableSections(s) && s.explanation == ""
    ensures ParseResponse(Lines(Pieces(s), "")).explanation == ""
  {
    AllPrintableLack(s);
    LabelsOneLine();
    LiteralsLackBoldExplanation();
    LiteralsLackPlainExplanation();
    PiecesLack(s, BoldExplanation);
    PiecesLack(s, PlainExplanation);
  }

  lemma CostPresent(s: Sections)
    requires PrintableSections(s) && s.costEstimate != ""
    ensures ParseResponse(Lines(Pieces(s), "")).costEstimate == s.costEstimate
  {
    AllPrintableLack(s);
    var c := CodePieces(s.code);
    var e := ParagraphPieces(BoldExplanation, s.explanation);
    var g := ParagraphPieces(BoldGotchas, s.gotchas);
    LiteralsLackBoldEstimatedCost();
    LabelsOneLine();
    CodeLacks(s.code, BoldEstimatedCost);
    ParagraphLacks(BoldExplanation, s.explanation, BoldEstimatedCost);
    ParagraphLacks(BoldGotchas, s.gotchas, BoldEstimatedCost);
    AbsentAppend(c, e, BoldEstimatedCost);
    NextStartsBold("", s.gotchas);
    assert ParagraphPieces(BoldEstimatedCost, "") + g == g;
    FieldRoundTrip(c + e, BoldEstimatedCost, s.costEstimate, g);
    CostLabelPriority(Lines(Pieces(s), ""));
  }

  /** The cost estimate comes back. */
  lemma CostBack(s: Sections)
    requires PrintableSections(s)
    ensures ParseResponse(Lines(Pieces(s), "")).costEstimate == s.costEstimate
  {
    if s.costEstimate != "" {
      CostPresent(s);
    } else {
      CostAbsent(s);
    }
  }

  lemma CostAbsent(s: Sections)
    requires PrintableSections(s) && s.costEstimate == ""
    ensures ParseResponse(Lines(Pieces(s), "")).costEstimate == ""
  {
    AllPrintableLack(s);
    LabelsOneLine();
    LiteralsLackBoldEstimatedCost();
    LiteralsLackBoldCostEstimate();
    LiteralsLackPlainEstimatedCost();
    PiecesLack(s, BoldEstimatedCost);
    PiecesLack(s, BoldCostEstimate);
    PiecesLack(s, PlainEstimatedCost);
  }

  lemma GotchasPresent(s: Sections)
    requires PrintableSections(s) && s.gotchas != ""
    ensures ParseResponse(Lines(Pieces(s), "")).gotchas == s.gotchas
  {
    AllPrintableLack(s);
    var c := CodePieces(s.code);
    var e := ParagraphPieces(BoldExplanation, s.explanation);
    var k := ParagraphPieces(BoldEstimatedCost, s.costEstimate);
    LiteralsLackBoldGotchas();
    LabelsOneLine();
    CodeLacks(s.code, BoldGotchas);
    ParagraphLacks(BoldExplanation, s.explanation, BoldGotchas);
    ParagraphLacks(BoldEstimatedCost, s.costEstimate, BoldGotchas);
    AbsentAppend(c, e, BoldGotchas);
    AbsentAppend(c + e, k, BoldGotchas);
    DropEmpty(c + e + k + [BoldGotchas, s.gotchas, ""]);
    FieldRoundTrip(c + e + k, BoldGotchas, s.gotchas, []);
    GotchasPreferBold(Lines(Pieces(s), ""));
  }

  lemma DropEmpty(lines: seq<string>)
    ensures lines + [] == lines
  {
  }

  /** The gotchas come back. */
  lemma GotchasBack(s: Sections)
    requires PrintableSections(s)
    ensures ParseResponse(Lines(Pieces(s), "")).gotchas == s.gotchas
  {
    if s.gotchas != "" {
      GotchasPresent(s);
    } else {
      GotchasAbsent(s);
    }
  }

  lemma GotchasAbsent(s: Sections)
    requires PrintableSections(s) && s.gotchas == ""
    ensures !Contains(Lines(Pieces(s), ""), BoldGotchas)
    ensures !Contains(Lines(Pieces(s), ""), PlainGotchas)
  {
    AllPrintableLack(s);
    LabelsOneLine();
    LiteralsLackBoldGotchas();
    LiteralsLackPlainGotchas();
    PiecesLack(s, BoldGotchas);
    PiecesLack(s, PlainGotchas);
  }

  /**
    Printing sections as the orchestrator does and parsing the text as the code
    generator does gives the same sections back, for printable section texts.
  */
  lemma ParseFormatted(s: Sections)
    requires PrintableSections(s)
    ensures ParseResponse(FormatCodeResponse(s)) == s
  {
    FormatIsLines(s);
    CodeBack(s);
    ExplanationBack(s);
    CostBack(s);
    GotchasBack(s);
  }

  /** So the printed form loses nothing: different printable sections print differently. */
  lemma FormatInjective(s1: Sections, s2: Sections)
    requires PrintableSections(s1) && PrintableSections(s2)
    requires FormatCodeResponse(s1) == FormatCodeResponse(s2)
    ensures s1 == s2
  {
    ParseFormatted(s1);
    ParseFormatted(s2);
  }

  // ---------------------------------------------------------------------------
  // A reply as the model tends to write it: labels on their own lines, the
  // explanation label glued to the closing fence, no blank lines

  function GluedLines(code: string, explanation: string, costEstimate: string): seq<string> {
    [PythonFence, code, Fence + BoldExplanation, explanation, BoldEstimatedCost, costEstimate, BoldGotchas]
  }

  /**
    The text before the first `q`, when the second line lacks it and the third
    starts with it, is the second line framed by newlines.
  */
  lemma StopAt(t: string, after: seq<string>, tail: string, q: string)
    requires |q| > 0 && NoNewline(q)
    requires !Contains(t, q) && after != [] && OccursAt(after[0], q, 0)
    ensures Contains(Lines(["", t] + after, tail), q)
    ensures Before(Lines(["", t] + after, tail), q) == "\n" + t + "\n"
  {
    var lines := ["", t] + after;
    EmptyLacks(q);
    assert lines[2] == after[0] && lines[..2] == ["", t];
    assert AbsentBefore(lines, q, 2) by {
      assert lines[0] == "" && lines[1] == t;
    }
    StartsWith(after[0], q);
    CutLines(lines, tail, q, 2);
    PairLines(t);
  }

  lemma PairLines(t: string)
    ensures Lines(["", t], "") == "\n" + t + "\n"
  {
    LinesCons(t, [], "");
    LinesCons("", [t], "");
    assert "" + "\n" + (t + "\n" + "") == "\n" + t + "\n";
  }

  // The seven lines, grouped around each labelled line.

  lemma GroupAtCode(l0: string, l1: string, l2: string, l3: string, l4: string, l5: string, l6: string)
    ensures [l0, l1, l2, l3, l4, l5, l6] == [] + [l0, l1] + [l2, l3, l4, l5, l6]
  {
  }

  lemma GroupAtExplanation(l0: string, l1: string, l2: string, l3: string, l4: string, l5: string, l6: string)
    ensures [l0, l1, l2, l3, l4, l5, l6] == [l0, l1] + [l2, l3] + [l4, l5, l6]
  {
  }

  lemma GroupAtCost(l0: string, l1: string, l2: string, l3: string, l4: string, l5: string, l6: string)
    ensures [l0, l1, l2, l3, l4, l5, l6] == [l0, l1, l2, l3] + [l4, l5] + [l6]
  {
  }

  lemma GroupAtGotchas(l0: string, l1: string, l2: string, l3: string, l4: string, l5: string, l6: string)
    ensures [l0, l1, l2, l3, l4, l5, l6] == [l0, l1, l2, l3, l4, l5] + [l6]
  {
  }

  lemma Absent2(a: string, b: string, p: string)
    requires !Contains(a, p) && !Contains(b, p)
    ensures AbsentIn([a, b], p)
  {
  }

  lemma Absent3(a: string, b: string, c: string, p: string)
    requires !Contains(a, p) && !Contains(b, p) && !Contains(c, p)
    ensures AbsentIn([a, b, c], p)
  {
  }

  lemma Absent4(a: string, b: string, c: string, d: string, p: string)
    requires !Contains(a, p) && !Contains(b, p) && !Contains(c, p) && !Contains(d, p)
    ensures AbsentIn([a, b, c, d], p)
  {
  }

  lemma Absent5(a: string, b: string, c: string, d: string, e: string, p: string)
    requires !Contains(a, p) && !Contains(b, p) && !Contains(c, p) && !Contains(d, p) && !Contains(e, p)
    ensures AbsentIn([a, b, c, d, e], p)
  {
  }

  lemma Absent6(a: string, b: string, c: string, d: string, e: string, f: string, p: string)
    requires !Contains(a, p) && !Contains(b, p) && !Contains(c, p)
    requires !Contains(d, p) && !Contains(e, p) && !Contains(f, p)
    ensures AbsentIn([a, b, c, d, e, f], p)
  {
  }

  /**
    In lines `pre`, `head`, `t`, `post`, where only `head` holds `h`, at its end,
    and `post` starts with `q`: the text after `h` up to `q` is `t` framed by newlines.
  */
  lemma FieldBetween(pre: seq<string>, head: string, t: string, post: seq<string>, tail: string,
                     h: string, q: string)
    requires |h| > 0 && NoNewline(h) && |q| > 0 && NoNewline(q)
    requires Contains(head, h) && After(head, h) == ""
    requires AbsentIn(pre, h) && !Contains(t, h) && AbsentIn(post, h) && !Contains(tail, h)
    requires !Contains(t, q) && post != [] && OccursAt(post[0], q, 0)
    ensures Contains(Lines(pre + [head, t] + post, tail), h)
    ensures Contains(Split(Lines(pre + [head, t] + post, tail), h)[1], q)
    ensures Before(Split(Lines(pre + [head, t] + post, tail), h)[1], q) == "\n" + t + "\n"
  {
    var lines := pre + [head, t] + post;
    FieldShape(pre, head, t, post);
    AbsentPrefix(pre, [head, t] + post, h);
    AbsentAppend([t], post, h);
    CutAtLineEnd(lines, tail, h, |pre|);
    StopAt(t, post, tail, q);
  }

  /** Where the field's lines sit in `pre + [head, t] + post`. */
  lemma FieldShape(pre: seq<string>, head: string, t: string, post: seq<string>)
    ensures pre + [head, t] + post == pre + ([head, t] + post)
    ensures (pre + [head, t] + post)[|pre|] == head
    ensures (pre + [head, t] + post)[|pre| + 1..] == [t] + post
    ensures [""] + ([t] + post) == ["", t] + post
  {
    var lines := pre + [head, t] + post;
    assert lines[|pre| + 1..] == [t] + post;
  }

  /** Lines before `|pre|` are those of `pre`. */
  lemma AbsentPrefix(pre: seq<string>, rest: seq<string>, p: string)
    requires AbsentIn(pre, p)
    ensures AbsentBefore(pre + rest, p, |pre|)
  {
    assert forall j :: 0 <= j < |pre| ==> (pre + rest)[j] == pre[j];
  }

  /** One empty line before the tail is a newline and the tail. */
  lemma EmptyLineTail(tail: string)
    ensures Lines([""], tail) == "\n" + tail
  {
    LinesCons("", [], tail);
    assert "" + "\n" + tail == "\n" + tail;
  }

  /** In lines `pre`, `head` and the tail, where only `head` holds `h`, at its end, the text after `h` is the tail after a newline. */
  lemma FieldAtEnd(pre: seq<string>, head: string, tail: string, h: string)
    requires |h| > 0 && NoNewline(h)
    requires Contains(head, h) && After(head, h) == ""
    requires AbsentIn(pre, h) && !Contains(tail, h)
    ensures Contains(Lines(pre + [head], tail), h)
    ensures Split(Lines(pre + [head], tail), h)[1] == "\n" + tail
  {
    var lines := pre + [head];
    assert lines[|pre|] == head && lines[|pre| + 1..] == [];
    AbsentPrefix(pre, [head], h);
    CutAtLineEnd(lines, tail, h, |pre|);
    assert [""] + lines[|pre| + 1..] == [""];
    EmptyLineTail(tail);
  }

  /** A printable text holds no code opener. */
  lemma LacksOpener(f: string)
    requires Printable(f)
    ensures !Contains(f, PythonFence)
  {
    PrintableLacks(f);
  }

  /** Where the code of a glued reply is cut. */
  lemma GluedCodeCut(code: string, explanation: string, costEstimate: string, gotchas: string)
    requires PrintableCode(code) && Printable(explanation) && Printable(costEstimate) && Printable(gotchas)
    ensures var reply := Lines(GluedLines(code, explanation, costEstimate), gotchas);
            Contains(reply, PythonFence) && Before(Split(reply, PythonFence)[1], Fence) == "\n" + code + "\n"
  {
    var glued := Fence + BoldExplanation;
    GroupAtCode(PythonFence, code, glued, explanation, BoldEstimatedCost, costEstimate, BoldGotchas);
    PrintableCodeLacks(code);
    LacksOpener(explanation);
    LacksOpener(costEstimate);
    LacksOpener(gotchas);
    LabelsLackOpener();
    CodeFacts();
    Absent5(glued, explanation, BoldEstimatedCost, costEstimate, BoldGotchas, PythonFence);
    LabelsOneLine();
    FieldBetween([], PythonFence, code, [glued, explanation, BoldEstimatedCost, costEstimate, BoldGotchas],
                 gotchas, PythonFence, Fence);
  }

  lemma GluedCode(code: string, explanation: string, costEstimate: string, gotchas: string)
    requires PrintableCode(code) && Printable(explanation) && Printable(costEstimate) && Printable(gotchas)
    requires code != ""
    ensures ParseResponse(Lines(GluedLines(code, explanation, costEstimate), gotchas)).code == code
  {
    GluedCodeCut(code, explanation, costEstimate, gotchas);
    CodeFromCut(Lines(GluedLines(code, explanation, costEstimate), gotchas), code);
  }

  /** A reply whose python block holds `code` framed by newlines parses to that code. */
  lemma CodeFromCut(reply: string, code: string)
    requires Contains(reply, PythonFence) && Before(Split(reply, PythonFence)[1], Fence) == "\n" + code + "\n"
    requires IsStripped(code) && code != ""
    ensures ParseResponse(reply).code == code
  {
    StripFramed("\n", code, "\n");
    CodeIsPythonBlock(reply);
  }

  /** Where the explanation of a glued reply is cut. */
  lemma GluedExplanationCut(code: string, explanation: string, costEstimate: string, gotchas: string)
    requires PrintableCode(code) && Printable(explanation) && Printable(costEstimate) && Printable(gotchas)
    ensures var reply := Lines(GluedLines(code, explanation, costEstimate), gotchas);
            && Contains(reply, BoldExplanation)
            && Contains(Split(reply, BoldExplanation)[1], Bold)
            && Before(Split(reply, BoldExplanation)[1], Bold) == "\n" + explanation + "\n"
  {
    LabelsOneLine();
    var glued := Fence + BoldExplanation;
    GroupAtExplanation(PythonFence, code, glued, explanation, BoldEstimatedCost, costEstimate, BoldGotchas);
    PrintableCodeLacks(code);
    PrintableLacks(explanation);
    PrintableLacks(costEstimate);
    PrintableLacks(gotchas);
    LiteralsLackBoldExplanation();
    GluedFacts();
    Absent2(PythonFence, code, BoldExplanation);
    Absent3(BoldEstimatedCost, costEstimate, BoldGotchas, BoldExplanation);
    FieldBetween([PythonFence, code], glued, explanation, [BoldEstimatedCost, costEstimate, BoldGotchas],
                 gotchas, BoldExplanation, Bold);
  }

  lemma GluedExplanation(code: string, explanation: string, costEstimate: string, gotchas: string)
    requires PrintableCode(code) && Printable(explanation) && Printable(costEstimate) && Printable(gotchas)
    ensures ParseResponse(Lines(GluedLines(code, explanation, costEstimate), gotchas)).explanation
         == explanation
  {
    GluedExplanationCut(code, explanation, costEstimate, gotchas);
    ExplanationFromCut(Lines(GluedLines(code, explanation, costEstimate), gotchas), explanation);
  }

  /** A reply whose bold explanation label is followed by `t` framed by newlines, then `**`, parses to `t`. */
  lemma ExplanationFromCut(reply: string, t: string)
    requires Contains(reply, BoldExplanation) && Contains(Split(reply, BoldExplanation)[1], Bold)
    requires Before(Split(reply, BoldExplanation)[1], Bold) == "\n" + t + "\n"
    requires IsStripped(t)
    ensures ParseResponse(reply).explanation == t
  {
    StripFramed("\n", t, "\n");
    ExplanationPrefersBold(reply);
  }

  /** Where the cost estimate of a glued reply is cut. */
  lemma GluedCostCut(code: string, explanation: string, costEstimate: string, gotchas: string)
    requires PrintableCode(code) && Printable(explanation) && Printable(costEstimate) && Printable(gotchas)
    ensures var reply := Lines(GluedLines(code, explanation, costEstimate), gotchas);
            && Contains(reply, BoldEstimatedCost)
            && Contains(Split(reply, BoldEstimatedCost)[1], Bold)
            && Before(Split(reply, BoldEstimatedCost)[1], Bold) == "\n" + costEstimate + "\n"
  {
    LabelsOneLine();
    var glued := Fence + BoldExplanation;
    GroupAtCost(PythonFence, code, glued, explanation, BoldEstimatedCost, costEstimate, BoldGotchas);
    PrintableCodeLacks(code);
    PrintableLacks(explanation);
    PrintableLacks(costEstimate);
    PrintableLacks(gotchas);
    CostFacts();
    Absent4(PythonFence, code, glued, explanation, BoldEstimatedCost);
    assert AbsentIn([BoldGotchas], BoldEstimatedCost);
    FieldBetween([PythonFence, code, glued, explanation], BoldEstimatedCost, costEstimate, [BoldGotchas],
                 gotchas, BoldEstimatedCost, Bold);
  }

  lemma GluedCost(code: string, explanation: string, costEstimate: string, gotchas: string)
    requires PrintableCode(code) && Printable(explanation) && Printable(costEstimate) && Printable(gotchas)
    ensures ParseResponse(Lines(GluedLines(code, explanation, costEstimate), gotchas)).costEstimate
         == costEstimate
  {
    GluedCostCut(code, explanation, costEstimate, gotchas);
    CostFromCut(Lines(GluedLines(code, explanation, costEstimate), gotchas), costEstimate);
  }

  /** The same for the bold cost label. */
  lemma CostFromCut(reply: string, t: string)
    requires Contains(reply, BoldEstimatedCost) && Contains(Split(reply, BoldEstimatedCost)[1], Bold)
    requires Before(Split(reply, BoldEstimatedCost)[1], Bold) == "\n" + t + "\n"
    requires IsStripped(t)
    ensures ParseResponse(reply).costEstimate == t
  {
    StripFramed("\n", t, "\n");
    CostLabelPriority(reply);
  }

  /** Where the gotchas of a glued reply are cut. */
  lemma GluedGotchasCut(code: string, explanation: string, costEstimate: string, gotchas: string)
    requires PrintableCode(code) && Printable(explanation) && Printable(costEstimate) && Printable(gotchas)
    ensures var reply := Lines(GluedLines(code, explanation, costEstimate), gotchas);
            Contains(reply, BoldGotchas) && Split(reply, BoldGotchas)[1] == "\n" + gotchas
  {
    LabelsOneLine();
    var glued := Fence + BoldExplanation;
    GroupAtGotchas(PythonFence, code, glued, explanation, BoldEstimatedCost, costEstimate, BoldGotchas);
    PrintableCodeLacks(code);
    PrintableLacks(explanation);
    PrintableLacks(costEstimate);
    PrintableLacks(gotchas);
    LiteralsLackBoldGotchas();
    GluedLacks();
    GluedFacts();
    Absent6(PythonFence, code, glued, explanation, BoldEstimatedCost, costEstimate, BoldGotchas);
    FieldAtEnd([PythonFence, code, glued, explanation, BoldEstimatedCost, costEstimate], BoldGotchas,
               gotchas, BoldGotchas);
  }

  /** A newline and then text without `**`: no `**`, and trimming leaves the text. */
  lemma AfterNewline(t: string)
    requires IsStripped(t) && !Contains(t, Bold)
    ensures !Contains("\n" + t, Bold) && Strip("\n" + t) == t
  {
    EmptyLacks(Bold);
    CutAfterNewline("", t, Bold);
    assert "" + "\n" + t == "\n" + t;
    assert "\n" + t + "" == "\n" + t;
    StripFramed("\n", t, "");
  }

  lemma GluedGotchas(code: string, explanation: string, costEstimate: string, gotchas: string)
    requires PrintableCode(code) && Printable(explanation) && Printable(costEstimate) && Printable(gotchas)
    ensures ParseResponse(Lines(GluedLines(code, explanation, costEstimate), gotchas)).gotchas == gotchas
  {
    GluedGotchasCut(code, explanation, costEstimate, gotchas);
    PrintableLacks(gotchas);
    GotchasFromCut(Lines(GluedLines(code, explanation, costEstimate), gotchas), gotchas);
  }

  /** A reply that ends with the bold gotchas label, a newline and `t` parses to `t`. */
  lemma GotchasFromCut(reply: string, t: string)
    requires Contains(reply, BoldGotchas) && Split(reply, BoldGotchas)[1] == "\n" + t
    requires IsStripped(t) && !Contains(t, Bold)
    ensures ParseResponse(reply).gotchas == t
  {
    AfterNewline(t);
    GotchasPreferBold(reply);
  }

  /**
    A reply with the explanation label glued to the closing fence and no blank
    lines parses into its four texts, for printable texts and non-empty code.
  */
  lemma ParseGluedReply(code: string, explanation: string, costEstimate: string, gotchas: string)
    requires PrintableCode(code) && Printable(explanation) && Printable(costEstimate) && Printable(gotchas)
    requires code != ""
    ensures ParseResponse(Lines(GluedLines(code, explanation, costEstimate), gotchas))
         == Sections(code, explanation, costEstimate, gotchas)
  {
    GluedCode(code, explanation, costEstimate, gotchas);
    GluedExplanation(code, explanation, costEstimate, gotchas);
    GluedCost(code, explanation, costEstimate, gotchas);
    GluedGotchas(code, explanation, costEstimate, gotchas);
  }

  /** A trimmed text without backquotes, asterisks or colons is printable. */
  lemma PrintableByChars(f: string)
    requires IsStripped(f) && '`' !in f && '*' !in f && ':' !in f
    ensures Printable(f) && PrintableCode(f)
  {
    MissingChar(f, Fence, '`');
    MissingChar(f, Bold, '*');
    MissingChar(f, PlainExplanation, ':');
    MissingChar(f, PlainEstimatedCost, ':');
    MissingChar(f, PlainGotchas, ':');
    MissingChar(f, BoldCostEstimate, ':');
  }

  /**
    The reply
    "```python\nprint(1)\n```**Explanation:**\nPrints one.\n**Estimated Cost:**\nFree\n**Gotchas:**\nNone.",
    written with the label constants.
  */
  const ExampleReply :=
    PythonFence + "\n" + "print(1)" + "\n" + (Fence + BoldExplanation) + "\n" + "Prints one." + "\n"
    + BoldEstimatedCost + "\n" + "Free" + "\n" + BoldGotchas + "\n" + "None."

  lemma Lines7(l0: string, l1: string, l2: string, l3: string, l4: string, l5: string, l6: string,
               tail: string)
    ensures Lines([l0, l1, l2, l3, l4, l5, l6], tail)
         == l0 + "\n" + l1 + "\n" + l2 + "\n" + l3 + "\n" + l4 + "\n" + l5 + "\n" + l6 + "\n" + tail
  {
    var xs := [l0, l1, l2, l3, l4, l5, l6];
    assert xs[7..] == [];
    LinesAt(xs, 6, tail);
    LinesAt(xs, 5, tail);
    LinesAt(xs, 4, tail);
    LinesAt(xs, 3, tail);
    LinesAt(xs, 2, tail);
    LinesAt(xs, 1, tail);
    LinesAt(xs, 0, tail);
    assert xs[0..] == xs;
  }

  /** Rendering from line `i` on: line `i`, a newline, then the rest. */
  lemma LinesAt(xs: seq<string>, i: nat, tail: string)
    requires i < |xs|
    ensures Lines(xs[i..], tail) == xs[i] + "\n" + Lines(xs[i + 1..], tail)
  {
    assert xs[i..][1..] == xs[i + 1..];
  }

  lemma ExampleIsGlued()
    ensures ExampleReply == Lines(GluedLines("print(1)", "Prints one.", "Free"), "None.")
  {
    Lines7(PythonFence, "print(1)", Fence + BoldExplanation, "Prints one.", BoldEstimatedCost, "Free",
           BoldGotchas, "None.");
  }

  lemma ExampleCodePrintable()
    ensures PrintableCode("print(1)")
  { PrintableByChars("print(1)"); }

  lemma ExampleExplanationPrintable()
    ensures Printable("Prints one.")
  { PrintableByChars("Prints one."); }

  lemma ExampleCostPrintable()
    ensures Printable("Free")
  { PrintableByChars("Free"); }

  lemma ExampleGotchasPrintable()
    ensures Printable("None.")
  { PrintableByChars("None."); }

  /** The worked example: the four sections of a typical reply. */
  lemma ExampleParse()
    ensures ParseResponse(ExampleReply) == Sections("print(1)", "Prints one.", "Free", "None.")
  {
    ExampleCodePrintable();
    ExampleExplanationPrintable();
    ExampleCostPrintable();
    ExampleGotchasPrintable();
    ExampleIsGlued();
    ParseGluedReply("print(1)", "Prints one.", "Free", "None.");
  }

  // ---------------------------------------------------------------------------
  // Facts about the fixed labels and fences
  //
  // Each of these holds by computing on the constants of the code generator.
  // They are stated one small fact per lemma only so that the solver is never
  // handed many string literals at once; they carry no idea of their own.

  /** A bold label is its bare label between two `**`. */
  lemma BoldAround(l: string, inner: string)
    requires l == Bold + inner + Bold
    ensures OccursAt(l, inner, 2)
  {
    assert l[2..2 + |inner|] == inner;
  }

  lemma BoldExplanationAround()
    ensures BoldExplanation == Bold + PlainExplanation + Bold
  {
  }

  lemma BoldEstimatedCostAround()
    ensures BoldEstimatedCost == Bold + PlainEstimatedCost + Bold
  {
  }

  lemma BoldGotchasAround()
    ensures BoldGotchas == Bold + PlainGotchas + Bold
  {
  }

  /** `p` cannot occur in `x + y` when neither part has a character of it. */
  lemma JoinLacks(x: string, y: string, p: string, c: char)
    requires c in p && c !in x && c !in y
    ensures !Contains(x + y, p)
  {
    MissingChar(x + y, p, c);
  }

  /** The glued line holds only its own label. */
  lemma GluedLacks()
    ensures !Contains(Fence + BoldExplanation, PythonFence)
    ensures !Contains(Fence + BoldExplanation, BoldEstimatedCost)
    ensures !Contains(Fence + BoldExplanation, BoldGotchas)
  {
    GluedLacksOpener();
    GluedLacksCost();
    GluedLacksGotchas();
  }

  lemma GluedLacksOpener()
    ensures !Contains(Fence + BoldExplanation, PythonFence)
  {
    JoinLacks(Fence, BoldExplanation, PythonFence, 'y');
  }

  lemma GluedLacksCost()
    ensures !Contains(Fence + BoldExplanation, BoldEstimatedCost)
  {
    JoinLacks(Fence, BoldExplanation, BoldEstimatedCost, 'C');
  }

  lemma GluedLacksGotchas()
    ensures !Contains(Fence + BoldExplanation, BoldGotchas)
  {
    JoinLacks(Fence, BoldExplanation, BoldGotchas, 'G');
  }

  /** Every label and fence fits on one line. */
  lemma LabelsOneLine()
    ensures NoNewline(PythonFence) && NoNewline(Fence) && NoNewline(Bold)
    ensures NoNewline(BoldExplanation) && NoNewline(BoldEstimatedCost) && NoNewline(BoldGotchas)
    ensures NoNewline(PlainExplanation) && NoNewline(BoldCostEstimate) && NoNewline(PlainEstimatedCost)
    ensures NoNewline(PlainGotchas)
  {
  }

  /** The facts about the fixed lines of a glued reply that the cuts need. */
  lemma GluedFacts()
    ensures OccursAt(Fence + BoldExplanation, Fence, 0)
    ensures Contains(Fence + BoldExplanation, BoldExplanation)
    ensures After(Fence + BoldExplanation, BoldExplanation) == ""
    ensures Contains(BoldGotchas, BoldGotchas) && After(BoldGotchas, BoldGotchas) == ""
    ensures OccursAt(BoldEstimatedCost, Bold, 0)
  {
    CutAtEnd(Fence, BoldExplanation);
    CutAtStart(BoldGotchas, "");
    assert BoldGotchas + "" == BoldGotchas;
  }

  lemma CodeFacts()
    ensures Contains(PythonFence, PythonFence) && After(PythonFence, PythonFence) == ""
    ensures OccursAt(Fence + BoldExplanation, Fence, 0)
  {
    CutAtStart(PythonFence, "");
    assert PythonFence + "" == PythonFence;
  }

  lemma CostFacts()
    ensures Contains(BoldEstimatedCost, BoldEstimatedCost) && After(BoldEstimatedCost, BoldEstimatedCost) == ""
    ensures OccursAt(BoldGotchas, Bold, 0)
    ensures !Contains(PythonFence, BoldEstimatedCost) && !Contains(BoldGotchas, BoldEstimatedCost)
    ensures !Contains(Fence + BoldExplanation, BoldEstimatedCost)
  {
    CutAtStart(BoldEstimatedCost, "");
    assert BoldEstimatedCost + "" == BoldEstimatedCost;
    LiteralsLackBoldEstimatedCost();
    GluedLacks();
  }

  lemma LabelsLackOpener()
    ensures !Contains(BoldEstimatedCost, PythonFence) && !Contains(BoldGotchas, PythonFence)
    ensures !Contains(Fence + BoldExplanation, PythonFence)
  {
    LiteralsLackPythonFence();
    GluedLacks();
  }

  /** A text shorter than the pattern cannot hold it. */
  lemma ShorterLacks(s: string, p: string)
    requires |s| < |p|
    ensures !Contains(s, p)
  {
  }

  lemma LiteralsLackPlainExplanation()
    ensures !Contains(PythonFence, PlainExplanation)
    ensures !Contains(Fence, PlainExplanation)
    ensures !Contains(BoldEstimatedCost, PlainExplanation)
    ensures !Contains(BoldGotchas, PlainExplanation)
  {
    ShorterLacks(PythonFence, PlainExplanation);
    ShorterLacks(Fence, PlainExplanation);
    BoldEstimatedCostLacksPlainExplanation();
    BoldGotchasLacksPlainExplanation();
  }

  lemma LiteralsLackPlainEstimatedCost()
    ensures !Contains(PythonFence, PlainEstimatedCost)
    ensures !Contains(Fence, PlainEstimatedCost)
    ensures !Contains(BoldExplanation, PlainEstimatedCost)
    ensures !Contains(BoldGotchas, PlainEstimatedCost)
  {
    ShorterLacks(PythonFence, PlainEstimatedCost);
    ShorterLacks(Fence, PlainEstimatedCost);
    BoldExplanationLacksPlainEstimatedCost();
    ShorterLacks(BoldGotchas, PlainEstimatedCost);
  }

  lemma LiteralsLackBoldCostEstimate()
    ensures !Contains(PythonFence, BoldCostEstimate)
    ensures !Contains(Fence, BoldCostEstimate)
    ensures !Contains(BoldExplanation, BoldCostEstimate)
    ensures !Contains(BoldGotchas, BoldCostEstimate)
  {
    ShorterLacks(PythonFence, BoldCostEstimate);
    ShorterLacks(Fence, BoldCostEstimate);
    ShorterLacks(BoldExplanation, BoldCostEstimate);
    ShorterLacks(BoldGotchas, BoldCostEstimate);
  }

  lemma LiteralsLackPlainGotchas()
    ensures !Contains(PythonFence, PlainGotchas)
    ensures !Contains(Fence, PlainGotchas)
    ensures !Contains(BoldExplanation, PlainGotchas)
    ensures !Contains(BoldEstimatedCost, PlainGotchas)
  {
    PythonFenceLacksPlainGotchas();
    ShorterLacks(Fence, PlainGotchas);
    BoldExplanationLacksPlainGotchas();
    BoldEstimatedCostLacksPlainGotchas();
  }

  /** A heading has no backquote, so no fence. */
  lemma HeadingLacksFence(heading: string)
    requires heading in [BoldExplanation, BoldEstimatedCost, BoldGotchas]
    ensures !Contains(heading, Fence)
  {
    MissingChar(heading, Fence, '`');
  }

  lemma LiteralsLackPythonFence()
    ensures !Contains(Fence, PythonFence)
    ensures !Contains(BoldExplanation, PythonFence)
    ensures !Contains(BoldEstimatedCost, PythonFence)
    ensures !Contains(BoldGotchas, PythonFence)
  {
    ShorterLacks(Fence, PythonFence);
    BoldExplanationLacksPythonFence();
    BoldEstimatedCostLacksPythonFence();
    BoldGotchasLacksPythonFence();
  }

  lemma LiteralsLackBoldExplanation()
    ensures !Contains(PythonFence, BoldExplanation)
    ensures !Contains(Fence, BoldExplanation)
    ensures !Contains(BoldEstimatedCost, BoldExplanation)
    ensures !Contains(BoldGotchas, BoldExplanation)
  {
    ShorterLacks(PythonFence, BoldExplanation);
    ShorterLacks(Fence, BoldExplanation);
    BoldEstimatedCostLacksBoldExplanation();
    ShorterLacks(BoldGotchas, BoldExplanation);
  }

  lemma LiteralsLackBoldEstimatedCost()
    ensures !Contains(PythonFence, BoldEstimatedCost)
    ensures !Contains(Fence, BoldEstimatedCost)
    ensures !Contains(BoldExplanation, BoldEstimatedCost)
    ensures !Contains(BoldGotchas, BoldEstimatedCost)
  {
    ShorterLacks(PythonFence, BoldEstimatedCost);
    ShorterLacks(Fence, BoldEstimatedCost);
    ShorterLacks(BoldExplanation, BoldEstimatedCost);
    ShorterLacks(BoldGotchas, BoldEstimatedCost);
  }

  lemma LiteralsLackBoldGotchas()
    ensures !Contains(PythonFence, BoldGotchas)
    ensures !Contains(Fence, BoldGotchas)
    ensures !Contains(BoldExplanation, BoldGotchas)
    ensures !Contains(BoldEstimatedCost, BoldGotchas)
  {
    ShorterLacks(PythonFence, BoldGotchas);
    ShorterLacks(Fence, BoldGotchas);
    BoldExplanationLacksBoldGotchas();
    BoldEstimatedCostLacksBoldGotchas();
  }

  lemma BoldEstimatedCostLacksPlainExplanation()
    ensures !Contains(BoldEstimatedCost, PlainExplanation)
  {
    MissingChar(BoldEstimatedCost, PlainExplanation, 'x');
  }

  lemma BoldGotchasLacksPlainExplanation()
    ensures !Contains(BoldGotchas, PlainExplanation)
  {
    MissingChar(BoldGotchas, PlainExplanation, 'x');
  }

  lemma BoldExplanationLacksPlainEstimatedCost()
    ensures !Contains(BoldExplanation, PlainEstimatedCost)
  {
    MissingChar(BoldExplanation, PlainEstimatedCost, 'C');
  }

  lemma PythonFenceLacksPlainGotchas()
    ensures !Contains(PythonFence, PlainGotchas)
  {
    MissingChar(PythonFence, PlainGotchas, 'G');
  }

  lemma BoldExplanationLacksPlainGotchas()
    ensures !Contains(BoldExplanation, PlainGotchas)
  {
    MissingChar(BoldExplanation, PlainGotchas, 'G');
  }

  lemma BoldEstimatedCostLacksPlainGotchas()
    ensures !Contains(BoldEstimatedCost, PlainGotchas)
  {
    MissingChar(BoldEstimatedCost, PlainGotchas, 'G');
  }

  lemma BoldExplanationLacksPythonFence()
    ensures !Contains(BoldExplanation, PythonFence)
  {
    MissingChar(BoldExplanation, PythonFence, '`');
  }

  lemma BoldEstimatedCostLacksPythonFence()
    ensures !Contains(BoldEstimatedCost, PythonFence)
  {
    MissingChar(BoldEstimatedCost, PythonFence, '`');
  }

  lemma BoldGotchasLacksPythonFence()
    ensures !Contains(BoldGotchas, PythonFence)
  {
    MissingChar(BoldGotchas, PythonFence, '`');
  }

  lemma BoldEstimatedCostLacksBoldExplanation()
    ensures !Contains(BoldEstimatedCost, BoldExplanation)
  {
    MissingChar(BoldEstimatedCost, BoldExplanation, 'x');
  }

  lemma BoldExplanationLacksBoldGotchas()
    ensures !Contains(BoldExplanation, BoldGotchas)
  {
    MissingChar(BoldExplanation, BoldGotchas, 'G');
  }

  lemma BoldEstimatedCostLacksBoldGotchas()
    ensures !Contains(BoldEstimatedCost, BoldGotchas)
  {
    MissingChar(BoldEstimatedCost, BoldGotchas, 'G');
  }
}
