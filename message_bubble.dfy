/**
 * Rendering of one message bubble (components/MessageBubble.tsx): the choice
 * between the user's inquiry card and a markdown bubble, and the spacing
 * fix-up applied to markdown before it is rendered.
 *
 * The fix-up is two global regular-expression replacements applied one
 * after the other:
 *   1. `([^\n])###`  becomes  `$1\n\n###`
 *   2. `\n###`       becomes  `\n\n###`
 * A global replacement scans left to right, tries a match at each position,
 * and after a match resumes right after the matched text; matches never
 * overlap. Each pass below is that scan written as a recursive function.
 */
module MessageBubble {
  import opened Types

  /** The header marker `###` starts at index i. */
  predicate MarkerAt(s: string, i: int) {
    0 <= i && i + 3 <= |s| && s[i] == '#' && s[i + 1] == '#' && s[i + 2] == '#'
  }

  /** A non-newline character at i is immediately followed by `###`: a match of pass 1. */
  predicate GluedAt(s: string, i: int) {
    0 <= i && i + 4 <= |s| && s[i] != '\n' && MarkerAt(s, i + 1)
  }

  /** A newline at i is immediately followed by `###`: a match of pass 2. */
  predicate HeaderAt(s: string, i: int) {
    0 <= i && i + 4 <= |s| && s[i] == '\n' && MarkerAt(s, i + 1)
  }

  /** Pass 1: every match `c###` (c not a newline) becomes `c\n\n###`. */
  function SpaceGluedHeaders(s: string): (r: string)
    ensures |r| >= |s|
    ensures |s| > 0 ==> |r| > 0 && r[0] == s[0]
    decreases |s|
  {
    if |s| == 0 then ""
    else if GluedAt(s, 0) then [s[0]] + "\n\n###" + SpaceGluedHeaders(s[4..])
    else [s[0]] + SpaceGluedHeaders(s[1..])
  }

  /** Pass 2: every match `\n###` becomes `\n\n###`. */
  function DoubleHeaderBreaks(s: string): (r: string)
    ensures |r| >= |s|
    ensures |s| > 0 ==> |r| > 0 && r[0] == s[0]
    decreases |s|
  {
    if |s| == 0 then ""
    else if HeaderAt(s, 0) then "\n\n###" + DoubleHeaderBreaks(s[4..])
    else [s[0]] + DoubleHeaderBreaks(s[1..])
  }

  /**
   * The text handed to the markdown renderer: pass 1, then pass 2. It is
   * never shorter than the content, and nothing is inserted in front of the
   * first character.
   */
  function ProcessedContent(content: string): (r: string)
    ensures |r| >= |content|
    ensures |content| > 0 ==> |r| > 0 && r[0] == content[0]
  {
    DoubleHeaderBreaks(SpaceGluedHeaders(content))
  }

  /** The text with every newline removed. */
  function StripNewlines(s: string): (r: string)
    ensures |r| <= |s|
    ensures forall i :: 0 <= i < |r| ==> r[i] != '\n'
  {
    if |s| == 0 then ""
    else (if s[0] == '\n' then "" else [s[0]]) + StripNewlines(s[1..])
  }

  lemma {:induction false} StripNewlinesAppend(a: string, b: string)
    ensures StripNewlines(a + b) == StripNewlines(a) + StripNewlines(b)
    decreases |a|
  {
    if |a| == 0 {
      assert a + b == b;
    } else {
      assert (a + b)[1..] == a[1..] + b;
      StripNewlinesAppend(a[1..], b);
    }
  }

  lemma StripNewlinesOfMarker()
    ensures StripNewlines("###") == "###"
    ensures StripNewlines("\n\n###") == "###"
  {
    assert "\n\n###"[1..] == "\n###";
    assert "\n###"[1..] == "###";
    assert "###"[1..] == "##";
    assert "##"[1..] == "#";
    assert "#"[1..] == "";
  }

  /** Every `\n###` is directly preceded by another newline: a blank line before each header. */
  ghost predicate HeadersDoubled(r: string) {
    forall k :: HeaderAt(r, k) ==> k > 0 && r[k - 1] == '\n'
  }

  /** No `###` follows a character other than a newline or another `#`. */
  ghost predicate NoGluedHeaders(r: string) {
    forall k :: GluedAt(r, k) ==> r[k] == '#'
  }

  /**
   * Every `###` that does not follow another `#` and does not start the
   * text has a blank line, two newlines, right before it.
   */
  ghost predicate HeadersSpaced(r: string) {
    forall k :: MarkerAt(r, k) && k > 0 && r[k - 1] != '#' ==> k >= 2 && r[k - 2] == '\n' && r[k - 1] == '\n'
  }

  lemma HeadersSpacedFromParts(r: string)
    requires HeadersDoubled(r) && NoGluedHeaders(r)
    ensures HeadersSpaced(r)
  {
    forall k | MarkerAt(r, k) && k > 0 && r[k - 1] != '#'
      ensures k >= 2 && r[k - 2] == '\n' && r[k - 1] == '\n'
    {
      assert !GluedAt(r, k - 1);
      assert HeaderAt(r, k - 1);
    }
  }

  // ---------------------------------------------------------------------
  // Pass 1
  // ---------------------------------------------------------------------

  /** Pass 1 never makes a marker appear at the front: one there was already there. */
  lemma {:induction false} SpaceGluedHeadersKeepsLeadingMarker(s: string)
    ensures MarkerAt(SpaceGluedHeaders(s), 0) ==> MarkerAt(s, 0)
  {
    if MarkerAt(SpaceGluedHeaders(s), 0) {
      var t1 := s[1..];
      assert !GluedAt(s, 0);
      assert SpaceGluedHeaders(s) == [s[0]] + SpaceGluedHeaders(t1);
      assert !GluedAt(t1, 0);
      var t2 := t1[1..];
      assert SpaceGluedHeaders(t1) == [t1[0]] + SpaceGluedHeaders(t2);
    }
  }

  /**
   * Where pass 1 puts its newlines: in its output no `###` is glued to a
   * character other than a newline or `#`.
   */
  lemma {:induction false} SpaceGluedHeadersUnglues(s: string)
    ensures NoGluedHeaders(SpaceGluedHeaders(s))
    decreases |s|
  {
    var r := SpaceGluedHeaders(s);
    if |s| == 0 {
    } else if GluedAt(s, 0) {
      var t := SpaceGluedHeaders(s[4..]);
      SpaceGluedHeadersUnglues(s[4..]);
      assert r == [s[0]] + "\n\n###" + t;
      forall k | GluedAt(r, k) ensures r[k] == '#' {
        if k >= 6 {
          assert GluedAt(t, k - 6);
        }
      }
    } else {
      var t := SpaceGluedHeaders(s[1..]);
      SpaceGluedHeadersUnglues(s[1..]);
      SpaceGluedHeadersKeepsLeadingMarker(s[1..]);
      assert r == [s[0]] + t;
      assert !GluedAt(r, 0);
      forall k | GluedAt(r, k) ensures r[k] == '#' {
        assert GluedAt(t, k - 1);
      }
    }
  }

  /** Pass 1 only inserts newlines. */
  lemma {:induction false} SpaceGluedHeadersOnlyAddsNewlines(s: string)
    ensures StripNewlines(SpaceGluedHeaders(s)) == StripNewlines(s)
    decreases |s|
  {
    if |s| == 0 {
    } else if GluedAt(s, 0) {
      var t := s[4..];
      SpaceGluedHeadersOnlyAddsNewlines(t);
      assert s == [s[0]] + ("###" + t);
      assert SpaceGluedHeaders(s) == [s[0]] + ("\n\n###" + SpaceGluedHeaders(t));
      StripNewlinesAppend([s[0]], "\n\n###" + SpaceGluedHeaders(t));
      StripNewlinesAppend("\n\n###", SpaceGluedHeaders(t));
      StripNewlinesAppend([s[0]], "###" + t);
      StripNewlinesAppend("###", t);
      StripNewlinesOfMarker();
    } else {
      SpaceGluedHeadersOnlyAddsNewlines(s[1..]);
      assert s == [s[0]] + s[1..];
      StripNewlinesAppend([s[0]], SpaceGluedHeaders(s[1..]));
      StripNewlinesAppend([s[0]], s[1..]);
    }
  }

  /** A match anywhere makes pass 1 lengthen the text. */
  lemma {:induction false} SpaceGluedHeadersGrows(s: string, i: int)
    requires GluedAt(s, i)
    ensures |SpaceGluedHeaders(s)| > |s|
    decreases |s|
  {
    if !GluedAt(s, 0) {
      assert GluedAt(s[1..], i - 1);
      SpaceGluedHeadersGrows(s[1..], i - 1);
    }
  }

  /** Pass 1 leaves the text unchanged exactly when it has no match. */
  lemma {:induction false} SpaceGluedHeadersUnchanged(s: string)
    ensures SpaceGluedHeaders(s) == s <==> forall i :: !GluedAt(s, i)
    decreases |s|
  {
    if forall i :: !GluedAt(s, i) {
      if |s| > 0 {
        forall i ensures !GluedAt(s[1..], i) {
          if GluedAt(s[1..], i) { assert GluedAt(s, i + 1); }
        }
        SpaceGluedHeadersUnchanged(s[1..]);
        assert s == [s[0]] + s[1..];
      }
    } else {
      var i :| GluedAt(s, i);
      SpaceGluedHeadersGrows(s, i);
    }
  }

  // ---------------------------------------------------------------------
  // Pass 2
  // ---------------------------------------------------------------------

  /** Pass 2 only inserts newlines. */
  lemma {:induction false} DoubleHeaderBreaksOnlyAddsNewlines(s: string)
    ensures StripNewlines(DoubleHeaderBreaks(s)) == StripNewlines(s)
    decreases |s|
  {
    if |s| == 0 {
    } else if HeaderAt(s, 0) {
      var t := s[4..];
      DoubleHeaderBreaksOnlyAddsNewlines(t);
      assert s == "\n###" + t;
      StripNewlinesAppend("\n\n###", DoubleHeaderBreaks(t));
      StripNewlinesAppend("\n###", t);
    } else {
      DoubleHeaderBreaksOnlyAddsNewlines(s[1..]);
      assert s == [s[0]] + s[1..];
      StripNewlinesAppend([s[0]], DoubleHeaderBreaks(s[1..]));
      StripNewlinesAppend([s[0]], s[1..]);
    }
  }

  /** A match anywhere makes pass 2 lengthen the text. */
  lemma {:induction false} DoubleHeaderBreaksGrows(s: string, i: int)
    requires HeaderAt(s, i)
    ensures |DoubleHeaderBreaks(s)| > |s|
    decreases |s|
  {
    if !HeaderAt(s, 0) {
      assert HeaderAt(s[1..], i - 1);
      DoubleHeaderBreaksGrows(s[1..], i - 1);
    }
  }

  /** Pass 2 leaves the text unchanged exactly when it has no match. */
  lemma {:induction false} DoubleHeaderBreaksUnchanged(s: string)
    ensures DoubleHeaderBreaks(s) == s <==> forall i :: !HeaderAt(s, i)
    decreases |s|
  {
    if forall i :: !HeaderAt(s, i) {
      if |s| > 0 {
        forall i ensures !HeaderAt(s[1..], i) {
          if HeaderAt(s[1..], i) { assert HeaderAt(s, i + 1); }
        }
        DoubleHeaderBreaksUnchanged(s[1..]);
        assert s == [s[0]] + s[1..];
      }
    } else {
      var i :| HeaderAt(s, i);
      DoubleHeaderBreaksGrows(s, i);
    }
  }

  /** Pass 2 never makes a marker appear at the front: one there was already there. */
  lemma {:induction false} DoubleHeaderBreaksKeepsLeadingMarker(s: string)
    ensures MarkerAt(DoubleHeaderBreaks(s), 0) ==> MarkerAt(s, 0)
  {
    if MarkerAt(DoubleHeaderBreaks(s), 0) {
      var t1 := s[1..];
      assert DoubleHeaderBreaks(s) == [s[0]] + DoubleHeaderBreaks(t1);
      var t2 := t1[1..];
      assert DoubleHeaderBreaks(t1) == [t1[0]] + DoubleHeaderBreaks(t2);
    }
  }

  /** In the output of pass 2 every `\n###` has a newline right before it. */
  lemma {:induction false} DoubleHeaderBreaksDoubles(s: string)
    ensures HeadersDoubled(DoubleHeaderBreaks(s))
    decreases |s|
  {
    var r := DoubleHeaderBreaks(s);
    if |s| == 0 {
    } else if HeaderAt(s, 0) {
      var t := DoubleHeaderBreaks(s[4..]);
      DoubleHeaderBreaksDoubles(s[4..]);
      assert r == "\n\n###" + t;
      forall k | HeaderAt(r, k) ensures k > 0 && r[k - 1] == '\n' {
        if k >= 5 {
          assert HeaderAt(t, k - 5);
        }
      }
    } else {
      var t := DoubleHeaderBreaks(s[1..]);
      DoubleHeaderBreaksDoubles(s[1..]);
      DoubleHeaderBreaksKeepsLeadingMarker(s[1..]);
      assert r == [s[0]] + t;
      assert !HeaderAt(r, 0);
      forall k | HeaderAt(r, k) ensures k > 0 && r[k - 1] == '\n' {
        assert HeaderAt(t, k - 1);
      }
    }
  }

  /** Pass 2 glues no `###` to text: what pass 1 achieved survives it. */
  lemma {:induction false} DoubleHeaderBreaksKeepsUnglued(s: string)
    requires NoGluedHeaders(s)
    ensures NoGluedHeaders(DoubleHeaderBreaks(s))
    decreases |s|
  {
    var r := DoubleHeaderBreaks(s);
    if |s| == 0 {
    } else if HeaderAt(s, 0) {
      var u := s[4..];
      forall k | GluedAt(u, k) ensures u[k] == '#' {
        assert GluedAt(s, k + 4);
      }
      var t := DoubleHeaderBreaks(u);
      DoubleHeaderBreaksKeepsUnglued(u);
      assert r == "\n\n###" + t;
      forall k | GluedAt(r, k) ensures r[k] == '#' {
        if k >= 5 {
          assert GluedAt(t, k - 5);
        }
      }
    } else {
      var u := s[1..];
      forall k | GluedAt(u, k) ensures u[k] == '#' {
        assert GluedAt(s, k + 1);
      }
      var t := DoubleHeaderBreaks(u);
      DoubleHeaderBreaksKeepsUnglued(u);
      DoubleHeaderBreaksKeepsLeadingMarker(u);
      assert r == [s[0]] + t;
      forall k | GluedAt(r, k) ensures r[k] == '#' {
        if k == 0 {
          assert MarkerAt(u, 0);
          assert GluedAt(s, 0);
        } else {
          assert GluedAt(t, k - 1);
        }
      }
    }
  }

  // ---------------------------------------------------------------------
  // Both passes
  // ---------------------------------------------------------------------

  /** The fix-up only inserts newline characters. */
  lemma ProcessedContentOnlyAddsNewlines(content: string)
    ensures StripNewlines(ProcessedContent(content)) == StripNewlines(content)
  {
    SpaceGluedHeadersOnlyAddsNewlines(content);
    DoubleHeaderBreaksOnlyAddsNewlines(SpaceGluedHeaders(content));
  }

  /**
   * The fix-up never shortens the text; it lengthens it exactly when the
   * text has a `c###` (c not a newline) or a `\n###`, and otherwise returns
   * it unchanged.
   */
  lemma ProcessedContentGrowth(content: string)
    ensures |ProcessedContent(content)| >= |content|
    ensures (exists i :: GluedAt(content, i) || HeaderAt(content, i)) ==> |ProcessedContent(content)| > |content|
    ensures (forall i :: !GluedAt(content, i) && !HeaderAt(content, i)) ==> ProcessedContent(content) == content
  {
    var p := SpaceGluedHeaders(content);
    SpaceGluedHeadersUnchanged(content);
    if exists i :: GluedAt(content, i) {
      var i :| GluedAt(content, i);
      SpaceGluedHeadersGrows(content, i);
    } else if exists i :: HeaderAt(content, i) {
      var i :| HeaderAt(content, i);
      DoubleHeaderBreaksGrows(p, i);
    } else {
      DoubleHeaderBreaksUnchanged(p);
    }
  }

  /** A text without any `###` is returned unchanged. */
  lemma ProcessedContentWithoutMarker(content: string)
    requires forall i :: !MarkerAt(content, i)
    ensures ProcessedContent(content) == content
  {
    forall i ensures !GluedAt(content, i) && !HeaderAt(content, i) {
      assert !MarkerAt(content, i + 1);
    }
    ProcessedContentGrowth(content);
  }

  /**
   * The header comment's promise: in the output no `###` is glued to text,
   * every `\n###` has another newline before it, and so every `###` that
   * neither starts the text nor follows another `#` has a blank line before it.
   */
  lemma ProcessedContentDoublesHeaders(content: string)
    ensures NoGluedHeaders(ProcessedContent(content))
    ensures HeadersDoubled(ProcessedContent(content))
    ensures HeadersSpaced(ProcessedContent(content))
  {
    var p := SpaceGluedHeaders(content);
    SpaceGluedHeadersUnglues(content);
    DoubleHeaderBreaksKeepsUnglued(p);
    DoubleHeaderBreaksDoubles(p);
    HeadersSpacedFromParts(ProcessedContent(content));
  }

  /**
   * Concrete cases. A glued header gains three newlines (two from pass 1,
   * one from pass 2); a header after one newline gains one; a header
   * already after a blank line still gains one, so the fix-up is not
   * idempotent.
   */
  lemma ProcessedContentExamples()
    ensures ProcessedContent("x###") == "x\n\n\n###"
    ensures ProcessedContent("x\n###") == "x\n\n###"
    ensures ProcessedContent("\n\n###") == "\n\n\n###"
    ensures ProcessedContent("\n###") == "\n\n###"
    ensures ProcessedContent(ProcessedContent("\n###")) != ProcessedContent("\n###")
  {
    // pass 2 on the texts that pass 1 produces below
    assert DoubleHeaderBreaks("\n###") == "\n\n###" by {
      assert HeaderAt("\n###", 0);
      assert "\n###"[4..] == "";
    }
    assert DoubleHeaderBreaks("\n\n###") == "\n\n\n###" by {
      assert "\n\n###"[1..] == "\n###";
    }
    assert DoubleHeaderBreaks("x\n\n###") == "x\n\n\n###" by {
      assert "x\n\n###"[1..] == "\n\n###";
    }
    assert DoubleHeaderBreaks("x\n###") == "x\n\n###" by {
      assert "x\n###"[1..] == "\n###";
    }
    assert DoubleHeaderBreaks("\n\n\n###") == "\n\n\n\n###" by {
      assert "\n\n\n###"[1..] == "\n\n###";
    }
    // pass 1
    assert SpaceGluedHeaders("x###") == "x\n\n###" by {
      assert GluedAt("x###", 0);
      assert "x###"[4..] == "";
    }
    SpaceGluedHeadersUnchanged("x\n###");
    SpaceGluedHeadersUnchanged("\n\n###");
    SpaceGluedHeadersUnchanged("\n###");
    SpaceGluedHeadersUnchanged("\n\n\n###");
  }

  // ---------------------------------------------------------------------
  // The bubble
  // ---------------------------------------------------------------------

  /** What a bubble shows: the inquiry card's two fields, or markdown text. */
  datatype Bubble = InquiryCard(topic: string, perspective: string) | Markdown(text: string)

  /**
   * A user message with structured input is shown as a card with its topic
   * and perspective; every other message is shown as fixed-up markdown.
   */
  function Render(message: Message): (b: Bubble)
    ensures b.InquiryCard? <==> message.role == User && message.structuredInput.Some?
    ensures b.InquiryCard? ==>
      b.topic == message.structuredInput.value.topic && b.perspective == message.structuredInput.value.perspective
    ensures b.Markdown? ==> b.text == ProcessedContent(message.content)
  {
    if message.role == User && message.structuredInput.Some? then
      InquiryCard(message.structuredInput.value.topic, message.structuredInput.value.perspective)
    else
      Markdown(ProcessedContent(message.content))
  }

  /** The card never shows the message's content: changing it changes nothing on screen. */
  lemma RenderCardIgnoresContent(message: Message, other: string)
    requires message.role == User && message.structuredInput.Some?
    ensures Render(message.(content := other)) == Render(message)
  {
  }

  /**
   * A markdown bubble shows the message's own text with only newlines added,
   * and a blank line before every `###` that neither starts the text nor
   * follows another `#`.
   */
  lemma RenderMarkdownFaithful(message: Message)
    requires Render(message).Markdown?
    ensures StripNewlines(Render(message).text) == StripNewlines(message.content)
    ensures |Render(message).text| >= |message.content|
    ensures HeadersDoubled(Render(message).text)
    ensures HeadersSpaced(Render(message).text)
  {
    ProcessedContentOnlyAddsNewlines(message.content);
    ProcessedContentGrowth(message.content);
    ProcessedContentDoublesHeaders(message.content);
  }
}
