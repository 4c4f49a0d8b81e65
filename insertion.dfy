/**
 * The text-insertion engine of the content script
 * (src/content-scripts/contentScript.ts): prompt text goes into the
 * contenteditable `#prompt-textarea` as text nodes separated by `<br>`
 * elements, at the caret or over the selection.
 *
 * The editor's content is a sequence of child nodes. A range lies between
 * children: its offsets are child indices, and its start container is the
 * editor element itself.
 */
module Insertion {
  import opened Strings

  /** A child of the editor: a text node or a `<br>` element. */
  datatype EdNode = Text(data: string) | Br

  /** The state of `window.getSelection()` with respect to the editor. */
  datatype Selection =
    | NoSelection                      // getSelection() returned null
    | NoRange                          // a selection with rangeCount == 0
    | RangeAt(start: nat, end: nat)    // its first range, as child offsets

  /** The text the nodes display: a `<br>` reads as a line break. */
  function Render(ns: seq<EdNode>): string
  {
    if ns == [] then ""
    else (match ns[0] case Text(s) => s case Br => "\n") + Render(ns[1..])
  }

  /** `textContent` of an element with these children: `<br>` holds no text. */
  function TextContent(ns: seq<EdNode>): string
  {
    if ns == [] then ""
    else (match ns[0] case Text(s) => s case Br => "") + TextContent(ns[1..])
  }

  /** Number of `<br>` elements. */
  function BrCount(ns: seq<EdNode>): nat
  {
    if ns == [] then 0 else (if ns[0] == Br then 1 else 0) + BrCount(ns[1..])
  }

  /** Text nodes hold no line break and are never empty. */
  predicate WellFormedText(ns: seq<EdNode>)
  {
    forall i :: 0 <= i < |ns| && ns[i].Text? ==> ns[i].data != "" && '\n' !in ns[i].data
  }

  /** The nodes for one line: a text node, or nothing for an empty line. */
  function LineNodes(line: string): seq<EdNode>
  {
    if line == "" then [] else [Text(line)]
  }

  /**
   * The fragment for a list of lines: a `<br>` before every line but the
   * first, and a text node for each non-empty line, in order.
   */
  function LinesFragment(lines: seq<string>): (r: seq<EdNode>)
    requires |lines| >= 1
    ensures BrCount(r) == |lines| - 1
    ensures (forall i :: 0 <= i < |lines| ==> '\n' !in lines[i]) ==> WellFormedText(r)
    decreases |lines|
  {
    if |lines| == 1 then LineNodes(lines[0])
    else
      var init := LinesFragment(lines[..|lines| - 1]);
      BrCountAppend(init, [Br]);
      BrCountAppend(init + [Br], LineNodes(lines[|lines| - 1]));
      assert forall i :: 0 <= i < |lines| - 1 ==> lines[..|lines| - 1][i] == lines[i];
      init + [Br] + LineNodes(lines[|lines| - 1])
  }

  /** One more line extends the fragment by a `<br>` (unless it is the first) and that line's node. */
  lemma LinesFragmentStep(lines: seq<string>, i: nat)
    requires i < |lines|
    ensures i == 0 ==> LinesFragment(lines[..i + 1]) == LineNodes(lines[i])
    ensures i > 0 ==> LinesFragment(lines[..i + 1]) == LinesFragment(lines[..i]) + [Br] + LineNodes(lines[i])
  {
    assert lines[..i + 1][..i] == lines[..i];
  }

  /** The fragment insertTextWithLineBreaks builds for `text` (also what setting `innerText` produces). */
  function Fragment(text: string): seq<EdNode>
  {
    LinesFragment(Split(text, '\n'))
  }

  lemma {:induction false} RenderAppend(a: seq<EdNode>, b: seq<EdNode>)
    ensures Render(a + b) == Render(a) + Render(b)
    decreases |a|
  {
    if a == [] {
      assert a + b == b;
    } else {
      assert (a + b)[1..] == a[1..] + b;
      RenderAppend(a[1..], b);
    }
  }

  lemma {:induction false} TextContentAppend(a: seq<EdNode>, b: seq<EdNode>)
    ensures TextContent(a + b) == TextContent(a) + TextContent(b)
    decreases |a|
  {
    if a == [] {
      assert a + b == b;
    } else {
      assert (a + b)[1..] == a[1..] + b;
      TextContentAppend(a[1..], b);
    }
  }

  lemma {:induction false} BrCountAppend(a: seq<EdNode>, b: seq<EdNode>)
    ensures BrCount(a + b) == BrCount(a) + BrCount(b)
    decreases |a|
  {
    if a == [] {
      assert a + b == b;
    } else {
      assert (a + b)[1..] == a[1..] + b;
      BrCountAppend(a[1..], b);
    }
  }

  /** The fragment displays exactly the lines joined by line breaks. */
  lemma {:induction false} LinesFragmentRender(lines: seq<string>)
    requires |lines| >= 1
    ensures Render(LinesFragment(lines)) == Join(lines, '\n')
    decreases |lines|
  {
    var last := lines[|lines| - 1];
    LineNodesRender(last);
    if |lines| > 1 {
      var init := lines[..|lines| - 1];
      var frag := LinesFragment(init);
      assert LinesFragment(lines) == frag + [Br] + LineNodes(last);
      LinesFragmentRender(init);
      RenderAppend3(frag, [Br], LineNodes(last));
      assert Render([Br]) == "\n";
      JoinSnoc(init, last, '\n');
      assert init + [last] == lines;
    }
  }

  lemma LineNodesRender(line: string)
    ensures Render(LineNodes(line)) == line
  {
    if line != "" {
      assert Render([Text(line)]) == line + Render([]);
    }
  }

  /**
   * Round trip: reading the fragment back, a `<br>` as "\n", reproduces the
   * inserted text; it holds one `<br>` per line break of the text and its
   * text nodes are non-empty and free of line breaks.
   */
  lemma FragmentRoundTrip(text: string)
    ensures Render(Fragment(text)) == text
    ensures BrCount(Fragment(text)) == Count(text, '\n')
    ensures WellFormedText(Fragment(text))
  {
    LinesFragmentRender(Split(text, '\n'));
    JoinSplit(text, '\n');
  }

  /**
   * needsLineBreak: a `<br>` goes before the inserted text unless the range
   * starts at offset 0 or the start container's text up to the start offset
   * (`substring` clamps the offset to the text's length) ends with "\n".
   */
  function NeedsLineBreak(startOffset: nat, containerText: string): (r: bool)
    ensures startOffset == 0 ==> !r
    ensures var before := containerText[..if startOffset <= |containerText| then startOffset else |containerText|];
      r <==> startOffset > 0 && (before == "" || before[|before| - 1] != '\n')
  {
    var before := containerText[..if startOffset <= |containerText| then startOffset else |containerText|];
    startOffset > 0 && !(|before| > 0 && before[|before| - 1] == '\n')
  }

  /** What insertTextWithLineBreaks puts at the range: the optional leading `<br>`, then the fragment. */
  function Inserted(text: string, leadingBreak: bool): (r: seq<EdNode>)
    ensures Render(r) == (if leadingBreak then "\n" else "") + text
    ensures BrCount(r) == (if leadingBreak then 1 else 0) + Count(text, '\n')
  {
    FragmentRoundTrip(text);
    if leadingBreak then
      RenderAppend([Br], Fragment(text));
      BrCountAppend([Br], Fragment(text));
      assert Render([Br]) == "\n";
      [Br] + Fragment(text)
    else Fragment(text)
  }

  /** The editor element `#prompt-textarea`. */
  class InputElement {
    var body: seq<EdNode>
    var selection: Selection
    var focused: bool
    /** How many `input` events have been dispatched on the element. */
    var inputEvents: nat

    ghost predicate Valid()
      reads this
    {
      selection.RangeAt? ==> selection.start <= selection.end <= |body|
    }

    constructor (body: seq<EdNode>, selection: Selection)
      requires selection.RangeAt? ==> selection.start <= selection.end <= |body|
      ensures Valid()
      ensures this.body == body && this.selection == selection && !focused && inputEvents == 0
    {
      this.body := body;
      this.selection := selection;
      focused := false;
      inputEvents := 0;
    }

    /**
     * The `forEach` over the lines: a `<br>` before every line but the first,
     * then the line's text node when the line is non-empty.
     */
    static method BuildFragment(text: string) returns (fragment: seq<EdNode>)
      ensures fragment == Fragment(text)
      ensures Render(fragment) == text && BrCount(fragment) == Count(text, '\n')
    {
      var lines := Split(text, '\n');
      fragment := [];
      for i := 0 to |lines|
        invariant i == 0 ==> fragment == []
        invariant i > 0 ==> fragment == LinesFragment(lines[..i])
      {
        if i > 0 {
          fragment := fragment + [Br];
        }
        if |lines[i]| > 0 {
          fragment := fragment + [Text(lines[i])];
        }
        LinesFragmentStep(lines, i);
      }
      assert lines[..|lines|] == lines;
      FragmentRoundTrip(text);
    }

    /**
     * insertTextWithLineBreaks at a collapsed range at child offset `start`:
     * the optional `<br>` and then the fragment go in at `start`, and the
     * returned caret lies just after them.
     */
    method InsertTextWithLineBreaks(start: nat, text: string, needsInitialLineBreak: bool) returns (caret: nat)
      requires start <= |body|
      modifies this`body
      ensures body == old(body)[..start] + Inserted(text, needsInitialLineBreak) + old(body)[start..]
      ensures caret == start + |Inserted(text, needsInitialLineBreak)| <= |body|
    {
      var at := start;
      if needsInitialLineBreak {
        body := body[..at] + [Br] + body[at..];
        at := at + 1;
      }
      var fragment := BuildFragment(text);
      body := body[..at] + fragment + body[at..];
      caret := at + |fragment|;
      if needsInitialLineBreak {
        assert body == old(body)[..start] + ([Br] + fragment) + old(body)[start..];
      }
    }

    /**
     * insertTextAtCursorPosition. The element takes focus first. Without a
     * selection object the text overwrites the content and no event fires.
     * Without a range the text is appended on a new line (or becomes the
     * content when there is none). With a range, a non-collapsed selection
     * is deleted, a `<br>` goes first when needsLineBreak says so, the
     * fragment follows, and the caret ends after it. Every path but the
     * first dispatches one `input` event.
     */
    method InsertTextAtCursorPosition(text: string)
      requires Valid()
      modifies this
      ensures Valid() && focused
      ensures old(selection).NoSelection? ==>
        body == Fragment(text) && selection == old(selection) && inputEvents == old(inputEvents)
      ensures old(selection).NoRange? ==>
        var current := Render(old(body));
        && body == Fragment(if current != "" then current + "\n" + text else text)
        && selection == old(selection) && inputEvents == old(inputEvents) + 1
      ensures old(selection).RangeAt? ==>
        var s := old(selection).start;
        var rest := old(body)[..s] + old(body)[old(selection).end..];
        var ins := Inserted(text, NeedsLineBreak(s, TextContent(rest)));
        && body == rest[..s] + ins + rest[s..]
        && selection == RangeAt(s + |ins|, s + |ins|)
        && inputEvents == old(inputEvents) + 1
    {
      focused := true;
      match selection {
        case NoSelection =>
          body := Fragment(text);
          return;
        case NoRange =>
          var current := Render(body);
          body := Fragment(if current != "" then current + "\n" + text else text);
        case RangeAt(start, end) =>
          if start != end {
            body := body[..start] + body[end..];
          }
          assert body == old(body)[..start] + old(body)[end..];
          var needsLineBreak := NeedsLineBreak(start, TextContent(body));
          var caret := InsertTextWithLineBreaks(start, text, needsLineBreak);
          selection := RangeAt(caret, caret);
      }
      inputEvents := inputEvents + 1;
    }
  }

  /**
   * Reading back the editor after an insertion at a range: the text before
   * the range, an optional line break, the prompt text, then the text after
   * the range.
   */
  lemma InsertionRender(before: seq<EdNode>, after: seq<EdNode>, text: string, leadingBreak: bool)
    ensures Render(before + Inserted(text, leadingBreak) + after)
         == Render(before) + (if leadingBreak then "\n" else "") + text + Render(after)
  {
    var ins := Inserted(text, leadingBreak);
    RenderAround(before, ins, after, if leadingBreak then "\n" else "", text);
  }

  lemma RenderAround(a: seq<EdNode>, b: seq<EdNode>, c: seq<EdNode>, lead: string, text: string)
    requires Render(b) == lead + text
    ensures Render(a + b + c) == Render(a) + lead + text + Render(c)
  {
    RenderAppend3(a, b, c);
  }

  lemma RenderAppend3(a: seq<EdNode>, b: seq<EdNode>, c: seq<EdNode>)
    ensures Render(a + b + c) == Render(a) + Render(b) + Render(c)
  {
    RenderAppend(a, b);
    RenderAppend(a + b, c);
  }

  /** The `<br>` elements after an insertion: those around it, the optional leading one, one per line break of the text. */
  lemma InsertionBrCount(before: seq<EdNode>, after: seq<EdNode>, text: string, leadingBreak: bool)
    ensures BrCount(before + Inserted(text, leadingBreak) + after)
         == BrCount(before) + (if leadingBreak then 1 else 0) + Count(text, '\n') + BrCount(after)
  {
    var ins := Inserted(text, leadingBreak);
    BrCountAppend(before, ins);
    BrCountAppend(before + ins, after);
  }

  /**
   * Two non-empty lines become two text nodes around one `<br>`, with no
   * leading `<br>` at offset 0 of an empty editor.
   */
  lemma {:induction false} TwoLinesIntoEmptyEditor(first: string, second: string)
    requires first != "" && second != "" && '\n' !in first && '\n' !in second
    ensures !NeedsLineBreak(0, TextContent([]))
    ensures Inserted(first + "\n" + second, false) == [Text(first), Br, Text(second)]
  {
    SplitFirst(first, second, '\n');
    SplitFirst(second, "", '\n');
    assert second + ['\n'] + "" == second + "\n";
    var lines := [first, second];
    assert lines[..1] == [first];
    assert LinesFragment(lines) == LinesFragment([first]) + [Br] + LineNodes(second);
  }

  /** The example "line1\nline2". */
  lemma LineOneLineTwo()
    ensures Inserted("line1\nline2", false) == [Text("line1"), Br, Text("line2")]
  {
    assert "line1\nline2" == "line1" + "\n" + "line2";
    TwoLinesIntoEmptyEditor("line1", "line2");
  }

  /** Text nodes without line breaks give a `textContent` without line breaks: a `<br>` adds nothing to it. */
  lemma {:induction false} TextContentNoBreak(ns: seq<EdNode>)
    requires WellFormedText(ns)
    ensures '\n' !in TextContent(ns)
    decreases |ns|
  {
    if ns != [] {
      assert WellFormedText(ns[1..]) by {
        forall i | 0 <= i < |ns| - 1 && ns[1..][i].Text? ensures ns[1..][i].data != "" && '\n' !in ns[1..][i].data {
          assert ns[1..][i] == ns[i + 1];
        }
      }
      TextContentNoBreak(ns[1..]);
    }
  }

  /**
   * On an editor of `<br>`s and single-line text nodes, the test for a
   * preceding line break never fires: a `<br>` goes in at every offset but 0.
   */
  lemma NeedsLineBreakOnEditor(startOffset: nat, ns: seq<EdNode>)
    requires WellFormedText(ns)
    ensures NeedsLineBreak(startOffset, TextContent(ns)) <==> startOffset > 0
  {
    TextContentNoBreak(ns);
    var t := TextContent(ns);
    var before := t[..if startOffset <= |t| then startOffset else |t|];
    if before != "" {
      assert before[|before| - 1] == t[|before| - 1];
    }
  }

  /**
   * With the caret just after a `<br>`, the written test still puts a `<br>`
   * before the text, so the editor reads with an empty line in front of it.
   */
  lemma WrittenBreakAfterBr(ns: seq<EdNode>, startOffset: nat, text: string)
    requires WellFormedText(ns) && 0 < startOffset <= |ns| && ns[startOffset - 1] == Br
    ensures NeedsLineBreak(startOffset, TextContent(ns))
    ensures var shown := Render(ns[..startOffset]);
      shown != "" && shown[|shown| - 1] == '\n'
      && Render(ns[..startOffset] + Inserted(text, NeedsLineBreak(startOffset, TextContent(ns))) + ns[startOffset..])
         == shown + "\n" + text + Render(ns[startOffset..])
  {
    NeedsLineBreakOnEditor(startOffset, ns);
    var pre := ns[..startOffset];
    assert pre == pre[..startOffset - 1] + [Br];
    RenderAppend(pre[..startOffset - 1], [Br]);
    assert Render([Br]) == "\n";
    InsertionRender(pre, ns[startOffset..], text, true);
  }

  /** The concrete case: after `a` and a `<br>`, the editor reads "a", an empty line, then the text. */
  lemma BreakAfterBrAddsEmptyLine(text: string)
    ensures var ns := [Text("a"), Br];
      NeedsLineBreak(2, TextContent(ns))
      && Render(ns + Inserted(text, NeedsLineBreak(2, TextContent(ns)))) == "a\n\n" + text
  {
    var ns := [Text("a"), Br];
    WrittenBreakAfterBr(ns, 2, text);
    assert ns[..2] == ns && ns[2..] == [];
    assert ns + Inserted(text, true) + [] == ns + Inserted(text, true);
  }

  /**
   * The evidently intended test: a `<br>` goes in unless what the editor
   * shows before the offset is empty or already ends with a line break.
   */
  function NeedsLineBreakIntended(startOffset: nat, ns: seq<EdNode>): (r: bool)
    ensures startOffset == 0 ==> !r
  {
    var shown := Render(ns[..if startOffset <= |ns| then startOffset else |ns|]);
    shown != "" && shown[|shown| - 1] != '\n'
  }

  /**
   * With the intended test the text always starts a line of its own and no
   * empty line is added in front of it: exactly one line break separates it
   * from earlier text that does not already end with one, and none otherwise.
   */
  lemma IntendedInsertionStartsLine(ns: seq<EdNode>, startOffset: nat, text: string)
    requires startOffset <= |ns|
    ensures var shown := Render(ns[..startOffset]);
      var lead := NeedsLineBreakIntended(startOffset, ns);
      var pre := shown + (if lead then "\n" else "");
      && Render(ns[..startOffset] + Inserted(text, lead) + ns[startOffset..]) == pre + text + Render(ns[startOffset..])
      && (pre == "" || pre[|pre| - 1] == '\n')
      && (shown != "" && shown[|shown| - 1] == '\n' ==> pre == shown)
  {
    var lead := NeedsLineBreakIntended(startOffset, ns);
    InsertionRender(ns[..startOffset], ns[startOffset..], text, lead);
  }
}
