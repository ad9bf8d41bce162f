/**
 Concrete inputs and what `Parse` makes of them, each derived from the
 general lemmas rather than by evaluation.
 */
module Examples {
  import opened TagTable
  import opened Markup
  import opened ScanLemmas
  import opened TagLemmas
  import opened Diagnostics

  const Bold: string := "\U{1B}[1m"

  lemma BoldCode()
    ensures Known("b", "") && Code("b", "") == Bold
  {
  }

  /** The literals of the bold examples cut into the pieces the general
      lemmas take. This and the *Text and *Pieces lemmas below only split
      string literals; kept apart, those equalities do not weigh on the
      proofs about the scan. */
  lemma BoldPieces()
    ensures Plain("hi") && Plain("b")
    ensures "[b]" == "[" + "b" + "]"
    ensures "[b]hi[/b]" == "[b]" + "hi" + CloseTagMarkup("b")
  {
  }

  /** `[b]`, read from the start, opens bold. */
  lemma OpenBold()
    ensures Run(Start, "[b]") == Running(Start.(out := Bold, stack := [("b", "")]))
  {
    BoldCode();
    BoldPieces();
    TagRun(Start, "b");
    assert Start.(isTag := false) == Start;
    NoEquals("b");
    OneEntryTagIgnoresArgument(Start, "b");
  }

  lemma BoldTextRun()
    ensures Run(Start, "[b]hi[/b]") == Running(Start.(out := Bold + "hi" + Reset))
  {
    BoldPieces();
    OpenBold();
    var s1 := Start.(out := Bold, stack := [("b", "")]);
    ChainPlain(Start, "[b]", "hi", s1);
    var s2 := s1.(out := Bold + "hi");
    CloseNext(Start, "[b]" + "hi", s2);
    assert s2.stack[..0] == [];
  }

  /** `[b]hi[/b]` renders as bold "hi" followed by the full reset. */
  lemma BoldText()
    ensures Render("[b]hi[/b]") == Returned(Bold + "hi" + Reset)
  {
    BoldTextRun();
  }

  /** `[b]` and then a bare `[/]`: the stack is emptied and the parse succeeds. */
  lemma BoldThenCloseAll()
    ensures Render("[b][/]") == Returned(Bold + Reset)
  {
    OpenBold();
    var s1 := Start.(out := Bold, stack := [("b", "")]);
    assert Plain("/");
    TagRun(s1, "/");
    assert s1.(isTag := false) == s1;
    NoEquals("/");
    CloseAll(s1, "/");
    Chain(Start, "[b]", "[" + "/" + "]", s1);
    assert "[b][/]" == "[b]" + ("[" + "/" + "]");
  }

  /** `[b]` left open fails, listing the tag as `b()`. */
  lemma BoldLeftOpen()
    ensures Render("[b]") == Raised(ArgumentException(Head + "There are still some tags open: " + "b()"))
  {
    OpenBold();
    UnclosedTagsReported("[b]");
    BoldLabel();
  }

  lemma BoldLabel()
    ensures Join(" ", Labels([("b", "")])) == "b()"
  {
    assert Labels([("b", "")]) == [Label(("b", ""))];
  }

  /** An escaped tag is not text: `\[b\]` fails at its `]`, whose tag body
      is empty, with the end-tag-without-beginning message. */
  lemma EscapedTagFails()
    ensures Render("\\[b\\]") == Raised(ArgumentException(UnopenedMessage))
  {
    EscapedTagText();
    BackslashEscapes(Start, "", Start);
    var e1 := Start.(isEscaped := true);
    EscapedOpenBracket(Start, "\\", e1);
    var e2 := Start.(out := "[");
    OtherKeepsFlag(Start, "\\[", e2, 'b');
    var e3 := e2.(out := "[b");
    BackslashEscapes(Start, "\\[b", e3);
    StrayCloseFails("\\[b\\", "");
  }

  lemma EscapedTagText()
    ensures "" + "\\" == "\\" && "\\" + "[" == "\\[" && "\\[" + ['b'] == "\\[b"
    ensures "\\[b" + "\\" == "\\[b\\" && "\\[b\\" + "]" + "" == "\\[b\\]"
  {
  }

  /** A self-closing form is an invalid tag. */
  lemma SelfClosingIsInvalid()
    ensures Render("[u /]") == Raised(ArgumentException(Head + "Invalid tag: " + "u /"))
  {
    assert Plain("u /");
    assert "[u /]" == "[" + "u /" + "]";
    TagRun(Start, "u /");
    assert Start.(isTag := false) == Start;
    assert "u /" == "u" + " /";
    NoSelfClosingForms(Start, "u", " /");
    WarningsSurface("[u /]");
  }

  /** A trailing ` /` after `=` is part of the argument: for `color` the
      argument `red /` is not in the table, a failed lookup. */
  lemma ColourWithSlash()
    ensures Render("[color=red /]") == Raised(KeyNotFoundException)
  {
    ColourWithSlashRun();
  }

  lemma ColourWithSlashRun()
    ensures Run(Start, "[color=red /]") == Thrown(KeyNotFound)
  {
    RedSlashText();
    TagRun(Start, "color=red /");
    assert Start.(isTag := false) == Start;
    SplitAtEquals("color", "red /");
    ColorTagArgument(Start, "color=red /");
  }

  /** For a one-entry name the argument, ` /` included, is ignored: `[b= /]`
      opens bold and leaves it open. */
  lemma OneEntryWithSlash()
    ensures Run(Start, "[b= /]") == Running(Start.(out := Bold, stack := [("b", "")]))
    ensures Render("[b= /]") == Raised(ArgumentException(Head + "There are still some tags open: " + "b()"))
  {
    OneEntryWithSlashRun();
    UnclosedTagsReported("[b= /]");
    BoldLabel();
  }

  lemma OneEntryWithSlashRun()
    ensures Run(Start, "[b= /]") == Running(Start.(out := Bold, stack := [("b", "")]))
  {
    OneEntrySlashText();
    TagRun(Start, "b= /");
    assert Start.(isTag := false) == Start;
    OneEntrySlashResolve();
  }

  lemma OneEntrySlashResolve()
    ensures Resolve(Start, "b= /") == Running(Start.(out := Bold, stack := [("b", "")]))
  {
    BoldCode();
    OneEntrySlashText();
    SplitAtEquals("b", " /");
    OneEntryTagIgnoresArgument(Start, "b= /");
  }

  /** A name starting with `/` takes the close path, ` /` and all: `[/b /]`
      with nothing open is a close tag without an opened tag. */
  lemma CloseWithSlash()
    ensures Render("[/b /]") == Raised(ArgumentException(UnopenedMessage))
  {
    CloseWithSlashRun();
    WarningsSurface("[/b /]");
  }

  lemma CloseWithSlashRun()
    ensures Run(Start, "[/b /]") == Thrown(Warn(CloseUnopened("/b /")))
  {
    CloseSlashText();
    TagRun(Start, "/b /");
    assert Start.(isTag := false) == Start;
    NoEquals("/b /");
    TableShape("/b /", "");
    CloseFaults(Start, "/b /");
  }

  // Like `BoldPieces`, these *Text lemmas only cut an example's literals
  // into the pieces the general lemmas take.

  lemma RedSlashText()
    ensures Plain("color=red /") && !IsColorName("red /") && '=' !in "color"
    ensures "[color=red /]" == "[" + "color=red /" + "]"
    ensures "color=red /" == "color" + "=" + "red /"
  {
  }

  lemma OneEntrySlashText()
    ensures Plain("b= /") && '=' !in "b"
    ensures "[b= /]" == "[" + "b= /" + "]"
    ensures "b= /" == "b" + "=" + " /"
  {
  }

  lemma CloseSlashText()
    ensures Plain("/b /") && '=' !in "/b /" && "/b /"[0] == '/' && !IsTagName("/b /")
    ensures "[/b /]" == "[" + "/b /" + "]"
  {
  }

  /** A colour the table does not have is a failed lookup. */
  lemma UnknownColour()
    ensures Render("[color=orange]") == Raised(KeyNotFoundException)
  {
    UnknownColourRun();
  }

  lemma UnknownColourRun()
    ensures Run(Start, "[color=orange]") == Thrown(KeyNotFound)
  {
    OrangeText();
    TagRun(Start, "color=orange");
    assert Start.(isTag := false) == Start;
    OrangeSplit();
    ColorTagArgument(Start, "color=orange");
  }

  lemma OrangeSplit()
    ensures NameOf("color=orange") == "color" && ArgOf("color=orange") == "orange"
  {
    OrangeText();
    SplitAtEquals("color", "orange");
  }

  lemma OrangeText()
    ensures Plain("color=orange") && !IsColorName("orange") && '=' !in "color"
    ensures "[color=orange]" == "[" + "color=orange" + "]"
    ensures "color=orange" == "color" + "=" + "orange"
  {
  }

  /** A body with an empty name indexes an empty string. */
  lemma EmptyName()
    ensures Render("[=red]") == Raised(IndexOutOfRangeException)
  {
    assert Plain("=red");
    assert "[=red]" == "[" + "=red" + "]";
    TagRun(Start, "=red");
    assert Start.(isTag := false) == Start;
    assert NameOf("=red") == "";
    UnknownNames(Start, "=red");
  }

  /** A tag body still open at the end of input is dropped. */
  lemma UnterminatedTag()
    ensures Render("[b") == Returned("")
  {
    assert Plain("b");
    RunTagBody(Start, "b");
  }

  lemma MismatchPieces()
    ensures Plain("/i") && "/i"[1..] == "i" && "/i"[0] == '/' && !IsTagName("/i")
    ensures "[b][/i]" == "[b]" + ("[" + "/i" + "]")
  {
  }

  lemma MismatchRun()
    ensures Run(Start, "[b][/i]") == Thrown(Warn(CloseMismatch("/i", "b")))
  {
    MismatchPieces();
    OpenBold();
    var s1 := Start.(out := Bold, stack := [("b", "")]);
    TagRun(s1, "/i");
    assert s1.(isTag := false) == s1;
    NoEquals("/i");
    TableShape("/i", "");
    CloseFaults(s1, "/i");
    Chain(Start, "[b]", "[" + "/i" + "]", s1);
  }

  /** Closing a tag that is not on top fails with the end-tag-without-
      beginning message, not the mismatch one. */
  lemma MismatchedClose()
    ensures Render("[b][/i]") == Raised(ArgumentException(UnopenedMessage))
  {
    MismatchRun();
    WarningsSurface("[b][/i]");
  }
}
