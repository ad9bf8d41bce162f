/**
 The diagnostics: what each error template renders to when the renderer
 parses it, why two levels of nesting are enough for every diagnostic, and
 when a parse succeeds at all.
 */
module Diagnostics {
  import opened TagTable
  import opened Markup
  import opened ScanLemmas
  import opened TagLemmas

  /** The rendered head every diagnostic starts with. */
  const Head: string := Yellow + "Warning" + Reset + ": "

  /** The rendering of the end-tag-without-beginning template. */
  const UnopenedMessage: string := Head + "Tried to end tag without beginning."

  /** The message an ArgumentException carries for each warning. The two
      close-tag templates contain `\]` outside a tag, so they fail as a
      stray `]` and surface as `UnopenedMessage`. */
  function Message(w: Warning): string {
    match w
    case InvalidTag(tag) => Head + "Invalid tag: " + tag
    case TagsOpen(listing) => Head + "There are still some tags open: " + listing
    case _ => UnopenedMessage
  }

  /** A warning that waits for the second level of nesting. */
  predicate NeedsTwoLevels(w: Warning) {
    w.CloseMismatch? || w.CloseUnopened?
  }

  /** `yellow` is a colour of the table. */
  lemma YellowCode()
    ensures Known("color", "yellow") && Code("color", "yellow") == Yellow
  {
  }

  /** `[color=yellow]` opens yellow. */
  lemma OpenYellow()
    ensures Run(Start, OpenTagMarkup(("color", "yellow"))) ==
      Running(Start.(out := Yellow, stack := [("color", "yellow")]))
  {
    YellowCode();
    OpenFromStart(("color", "yellow"));
  }

  /** `[/color]` closes it again. */
  lemma CloseYellow(st: Scan)
    requires st == Start.(out := Yellow + "Warning", stack := [("color", "yellow")])
    ensures Run(st, CloseTagMarkup("color")) == Running(Start.(out := Yellow + "Warning" + Reset))
  {
    YellowCode();
    CloseTopRun(st);
    assert st.stack[..0] == [];
  }

  /** The head `[color=yellow]Warning[/color]: ` renders cleanly and closes
      what it opens. */
  lemma HeadRun()
    ensures Run(Start, WarningMarkup) == Running(Start.(out := Head))
  {
    var a := OpenTagMarkup(("color", "yellow"));
    HeadPieces();
    var s1 := Start.(out := Yellow, stack := [("color", "yellow")]);
    OpenYellow();
    ChainPlain(Start, a, "Warning", s1);
    var s2 := s1.(out := Yellow + "Warning");
    CloseYellow(s2);
    Chain(Start, a + "Warning", CloseTagMarkup("color"), s2);
    var s3 := Start.(out := Yellow + "Warning" + Reset);
    ChainPlain(Start, a + "Warning" + CloseTagMarkup("color"), ": ", s3);
  }

  /** The head cut into the markup pieces the lemmas above take. This and
      the other *Text and *Pieces lemmas only split string literals; kept
      apart, those equalities do not weigh on the proofs about the scan. */
  lemma HeadPieces()
    ensures WarningMarkup == OpenTagMarkup(("color", "yellow")) + "Warning" + CloseTagMarkup("color") + ": "
    ensures Plain("Warning") && Plain(": ")
  {
  }

  /** A template that is the head followed by plain text renders as the
      rendered head followed by that text. */
  lemma PlainTemplate(text: string)
    requires Plain(text)
    ensures Run(Start, WarningMarkup + text) == Running(Start.(out := Head + text))
    ensures Core(WarningMarkup + text) == Done(Head + text)
  {
    HeadRun();
    ChainPlain(Start, WarningMarkup, text, Start.(out := Head));
  }

  /** Plain text and then `\\[` emit the text and a literal `[`. */
  lemma EscapedOpen(st: Scan, lead: string)
    requires AllKnown(st.stack) && !st.isTag && !st.isEscaped && Plain(lead)
    ensures Run(st, lead + "\\[") == Running(st.(out := st.out + lead + "["))
  {
    var mid := st.(out := st.out + lead);
    RunPlain(st, lead);
    RunSnoc(st, lead, '\\');
    assert lead + "\\" == lead + ['\\'];
    RunSnoc(st, lead + "\\", '[');
    assert lead + "\\[" == lead + "\\" + ['['];
  }

  /** `\\]` with nothing buffered fails as a stray `]`. */
  lemma EscapedStrayClose(st: Scan)
    requires AllKnown(st.stack) && !st.isEscaped && st.tagBody == []
    ensures Run(st, "\\]") == Thrown(Warn(UnopenedClose))
  {
    RunSnoc(st, [], '\\');
    assert [] + ['\\'] == "\\";
    RunSnoc(st, "\\", ']');
    assert "\\" + [']'] == "\\]";
  }

  /** "Tried to use \\[" cut before its escape, as `EscapedOpen` takes it. */
  lemma LeadText()
    ensures "Tried to use \\[" == "Tried to use " + "\\["
    ensures Plain("Tried to use ")
  {
  }

  /** The head and "Tried to use \\[" render as text with a literal `[`. */
  lemma EscapedLead()
    ensures Run(Start, WarningMarkup + "Tried to use \\[") ==
      Running(Start.(out := Head + "Tried to use " + "["))
  {
    HeadRun();
    var h := Start.(out := Head);
    LeadText();
    EscapedOpen(h, "Tried to use ");
    Chain(Start, WarningMarkup, "Tried to use \\[", h);
  }

  /** ... and so does a plain tag name after them. */
  lemma EscapedTagName(tag: string)
    requires Plain(tag)
    ensures Run(Start, WarningMarkup + "Tried to use \\[" + tag) ==
      Running(Start.(out := Head + "Tried to use " + "[" + tag))
  {
    EscapedLead();
    ChainPlain(Start, WarningMarkup + "Tried to use \\[", tag, Start.(out := Head + "Tried to use " + "["));
  }

  /** The two close-tag templates: after "Tried to use \\[" and the tag,
      the template goes on with `\\]`, which fails. */
  lemma CloseTemplateFails(tag: string, rest: string)
    requires Plain(tag)
    ensures Core(WarningMarkup + "Tried to use \\[" + tag + "\\]" + rest) == Failed(Warn(UnopenedClose))
  {
    var a := WarningMarkup + "Tried to use \\[" + tag;
    var h := Start.(out := Head + "Tried to use " + "[" + tag);
    EscapedTagName(tag);
    Chain(Start, a, "\\]", h);
    EscapedStrayClose(h);
    ThrownAppend(Start, a + "\\]", rest);
  }

  // The fixed texts of the templates, cut where the scanner changes mode.
  // Like `HeadPieces`, these only split literals, so that the equalities
  // stay out of the proofs that use them.

  lemma UnopenedText()
    ensures Template(UnopenedClose) == WarningMarkup + "Tried to end tag without beginning."
    ensures Plain("Tried to end tag without beginning.")
  {
  }

  lemma InvalidTagText(tag: string)
    ensures Template(InvalidTag(tag)) == WarningMarkup + ("Invalid tag: " + tag)
    ensures Plain("Invalid tag: ")
  {
  }

  lemma TagsOpenText(listing: string)
    ensures Template(TagsOpen(listing)) ==
      WarningMarkup + ("There are still some tags open: " + listing)
  {
  }

  lemma TagsOpenPlain()
    ensures Plain("There are still some tags open: ")
  {
  }

  /** The end-tag-without-beginning template renders cleanly. */
  lemma UnopenedTemplate()
    ensures Core(Template(UnopenedClose)) == Done(UnopenedMessage)
  {
    UnopenedText();
    PlainTemplate("Tried to end tag without beginning.");
  }

  /** The invalid-tag template renders cleanly for a plain name. */
  lemma InvalidTagTemplate(tag: string)
    requires Plain(tag)
    ensures Core(Template(InvalidTag(tag))) == Done(Head + "Invalid tag: " + tag)
  {
    InvalidTagText(tag);
    PlainConcat("Invalid tag: ", tag);
    PlainTemplate("Invalid tag: " + tag);
  }

  /** The still-open template renders cleanly for a plain listing. */
  lemma TagsOpenTemplate(listing: string)
    requires Plain(listing)
    ensures Core(Template(TagsOpen(listing))) == Done(Head + "There are still some tags open: " + listing)
  {
    TagsOpenText(listing);
    TagsOpenPlain();
    PlainConcat("There are still some tags open: ", listing);
    PlainTemplate("There are still some tags open: " + listing);
  }

  lemma CloseMismatchText(tag: string, expected: string)
    ensures Template(CloseMismatch(tag, expected)) == WarningMarkup + "Tried to use \\[" + tag + "\\]"
      + (" to close tag, but \\[/" + expected + "\\] was expected.")
  {
    assert "\\] to close tag, but \\[/" == "\\]" + " to close tag, but \\[/";
  }

  lemma CloseUnopenedText(tag: string)
    ensures Template(CloseUnopened(tag)) ==
      WarningMarkup + "Tried to use \\[" + tag + "\\]" + ", but no tag was opened previously."
  {
    assert "\\], but no tag was opened previously." == "\\]" + ", but no tag was opened previously.";
  }

  /** The mismatched-close template fails at its first `\\]`. */
  lemma CloseMismatchTemplate(tag: string, expected: string)
    requires Plain(tag)
    ensures Core(Template(CloseMismatch(tag, expected))) == Failed(Warn(UnopenedClose))
  {
    CloseMismatchText(tag, expected);
    CloseTemplateFails(tag, " to close tag, but \\[/" + expected + "\\] was expected.");
  }

  /** The nothing-open template fails at its first `\\]`. */
  lemma CloseUnopenedTemplate(tag: string)
    requires Plain(tag)
    ensures Core(Template(CloseUnopened(tag))) == Failed(Warn(UnopenedClose))
  {
    CloseUnopenedText(tag);
    CloseTemplateFails(tag, ", but no tag was opened previously.");
  }

  /** What the core yields for each template: the close-tag templates stop
      at a stray `]`, the other three render as `Message`. */
  lemma TemplateCore(w: Warning)
    requires PlainWarning(w)
    ensures NeedsTwoLevels(w) ==> Core(Template(w)) == Failed(Warn(UnopenedClose))
    ensures !NeedsTwoLevels(w) ==> Core(Template(w)) == Done(Message(w))
  {
    match w
    case UnopenedClose => UnopenedTemplate();
    case InvalidTag(tag) => InvalidTagTemplate(tag);
    case TagsOpen(listing) => TagsOpenTemplate(listing);
    case CloseMismatch(tag, expected) => CloseMismatchTemplate(tag, expected);
    case CloseUnopened(tag) => CloseUnopenedTemplate(tag);
  }

  /** Every warning the scanner can raise surfaces, given two levels of
      nesting, as an ArgumentException carrying `Message(w)`; one level is
      enough unless the warning is a close-tag one. */
  lemma SurfaceWarning(w: Warning, depth: nat)
    requires PlainWarning(w)
    requires depth >= (if NeedsTwoLevels(w) then 2 else 1)
    ensures Surface(Warn(w), depth) == Raised(ArgumentException(Message(w)))
  {
    TemplateCore(w);
    if NeedsTwoLevels(w) {
      TemplateCore(UnopenedClose);
      assert RenderAt(Template(UnopenedClose), depth - 2) == Returned(UnopenedMessage);
      assert Surface(Warn(UnopenedClose), depth - 1) == Raised(ArgumentException(UnopenedMessage));
      assert RenderAt(Template(w), depth - 1) == Raised(ArgumentException(UnopenedMessage));
    } else {
      assert RenderAt(Template(w), depth - 1) == Returned(Message(w));
    }
  }

  lemma PlainJoin(sep: string, xs: seq<string>)
    requires Plain(sep) && forall k :: 0 <= k < |xs| ==> Plain(xs[k])
    ensures Plain(Join(sep, xs))
  {
    if |xs| > 1 {
      PlainJoin(sep, xs[1..]);
      PlainConcat(xs[0], sep);
      PlainConcat(xs[0] + sep, Join(sep, xs[1..]));
    }
  }

  /** Every open tag is listed as `name(arg)`, even with an empty argument,
      because no argument of the table is "0". */
  lemma LabelsShowArgument(stack: seq<OpenTag>)
    requires AllKnown(stack)
    ensures forall k :: 0 <= k < |stack| ==>
      Labels(stack)[k] == stack[|stack| - 1 - k].0 + "(" + stack[|stack| - 1 - k].1 + ")"
    ensures forall k :: 0 <= k < |stack| ==> Plain(Labels(stack)[k])
  {
    forall k | 0 <= k < |stack|
      ensures Labels(stack)[k] == stack[|stack| - 1 - k].0 + "(" + stack[|stack| - 1 - k].1 + ")"
      ensures Plain(Labels(stack)[k])
    {
      var t := stack[|stack| - 1 - k];
      assert Labels(stack)[k] == Label(t);
      assert Known(t.0, t.1);
      KnownIsPlain(t.0, t.1);
      PlainConcat(t.0, "(");
      PlainConcat(t.0 + "(", t.1);
      PlainConcat(t.0 + "(" + t.1, ")");
    }
  }

  /** Every warning the core of any input raises is plain. */
  lemma CoreWarningPlain(s: string)
    ensures Core(s).Failed? && Core(s).fault.Warn? ==> PlainWarning(Core(s).fault.warning)
  {
    assert Valid(Start);
    RunValid(Start, s);
    if Run(Start, s).Running? {
      var t := Run(Start, s).state;
      LabelsShowArgument(t.stack);
      PlainJoin(" ", Labels(t.stack));
    }
  }

  /** Two levels of nesting are enough: every parse at depth 2 or more
      ends alike, and never beyond the bound. */
  lemma RenderDepthSuffices(s: string, depth: nat)
    requires depth >= RenderDepth
    ensures RenderAt(s, depth) == Render(s)
    ensures !Render(s).DepthExhausted?
  {
    CoreWarningPlain(s);
    if Core(s).Failed? && Core(s).fault.Warn? {
      SurfaceWarning(Core(s).fault.warning, depth);
      SurfaceWarning(Core(s).fault.warning, RenderDepth);
    }
  }

  /** The bound is tight: with one level, a close tag with nothing open
      does not get its diagnostic rendered. */
  lemma OneLevelIsNotEnough()
    ensures RenderAt("[/b]", 1) == DepthExhausted
  {
    var w := CloseUnopened("/b");
    assert "[/b]" == "[" + "/b" + "]";
    TagRun(Start, "/b");
    NoEquals("/b");
    TableShape("/b", "");
    CloseFaults(Start, "/b");
    assert Core("[/b]") == Failed(Warn(w));
    TemplateCore(w);
    TemplateCore(UnopenedClose);
  }

  /** A parse succeeds exactly when the scan reaches the end of the input
      with no tag open, and then yields the output buffer. */
  lemma SucceedsIffAllClosed(s: string)
    ensures Render(s).Returned? <==> Run(Start, s).Running? && Run(Start, s).state.stack == []
    ensures Render(s).Returned? ==> Render(s).value == Run(Start, s).state.out
  {
    RenderDepthSuffices(s, RenderDepth);
    CoreWarningPlain(s);
    if Core(s).Failed? && Core(s).fault.Warn? {
      SurfaceWarning(Core(s).fault.warning, RenderDepth);
    }
  }

  /** Tags left open fail the parse with a diagnostic that lists them
      newest first, separated by spaces (each label is `name(arg)`, see
      LabelsShowArgument). */
  lemma UnclosedTagsReported(s: string)
    requires Run(Start, s).Running? && Run(Start, s).state.stack != []
    ensures Render(s) == Raised(ArgumentException(
      Head + "There are still some tags open: " + Join(" ", Labels(Run(Start, s).state.stack))))
  {
    var w := TagsOpen(Join(" ", Labels(Run(Start, s).state.stack)));
    assert Core(s) == Failed(Warn(w));
    CoreWarningPlain(s);
    SurfaceWarning(w, RenderDepth);
  }

  /** Every warning surfaces as an ArgumentException with its message: the
      close-tag ones as the end-tag-without-beginning message, an unknown
      name as "Invalid tag: name". */
  lemma WarningsSurface(s: string)
    requires Core(s).Failed? && Core(s).fault.Warn?
    ensures Render(s) == Raised(ArgumentException(Message(Core(s).fault.warning)))
    ensures NeedsTwoLevels(Core(s).fault.warning) ==> Render(s) == Raised(ArgumentException(UnopenedMessage))
  {
    CoreWarningPlain(s);
    SurfaceWarning(Core(s).fault.warning, RenderDepth);
  }

  /** A `]` while the tag body is empty fails with the end-tag-without-
      beginning message, whether or not a backslash came before it. */
  lemma StrayCloseFails(p: string, q: string)
    requires Run(Start, p).Running? && Run(Start, p).state.tagBody == []
    ensures Render(p + "]" + q) == Raised(ArgumentException(UnopenedMessage))
  {
    var s := p + "]" + q;
    RunSnoc(Start, p, ']');
    assert s[..|p| + 1] == p + [']'];
    RunStops(Start, s, |p| + 1);
    SurfaceWarning(UnopenedClose, RenderDepth);
  }

  /** Text without brackets and backslashes renders as itself. */
  lemma PlainTextUnchanged(s: string)
    requires Plain(s)
    ensures Render(s) == Returned(s)
  {
    RunPlain(Start, s);
  }
}
