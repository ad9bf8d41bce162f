/**
 The renderer as the program runs it: one left-to-right loop over the
 message that updates its flags and buffers in place, pushes and pops a
 stack of open tags, and formats each diagnostic by parsing its template.
 Each method is proved equal to the specification in module Markup.
 */
module ColorUtil {
  import opened TagTable
  import opened Markup
  import ScanLemmas
  import TagLemmas
  import Diagnostics

  /** What `TryParse` leaves its caller: the boolean it returns with the
      string its `ref` parameter then holds, or an exception it does not
      catch. */
  datatype TryOutcome = Completed(success: bool, message: string) | Uncaught(error: Exception)

  /** The index of the first `c` in `s`, or -1 when there is none. */
  function IndexOf(s: string, c: char): (k: int)
    ensures k == -1 <==> c !in s
    ensures -1 <= k < |s|
    ensures 0 <= k ==> s[k] == c && c !in s[..k]
  {
    if s == [] then -1
    else if s[0] == c then 0
    else
      var k := IndexOf(s[1..], c);
      assert s == [s[0]] + s[1..];
      if k == -1 then -1
      else
        assert s[..k + 1] == [s[0]] + s[1..][..k];
        k + 1
  }

  /** Renders `message`: its markup replaced by escape sequences, or the
      exception the parse ends with. */
  method Parse(message: string) returns (r: Outcome)
    ensures r == Render(message)
    ensures !r.DepthExhausted?
  {
    r := ParseNested(message, RenderDepth);
    Diagnostics.RenderDepthSuffices(message, RenderDepth);
  }

  /** `Parse` allowed `depth` more nested parses of diagnostics. */
  method ParseNested(message: string, depth: nat) returns (r: Outcome)
    ensures r == RenderAt(message, depth)
    decreases depth, 1
  {
    var tagStack: seq<OpenTag> := [];
    var isTag := false;
    var isEscaped := false;
    var tagString := "";
    var outMessage := "";
    var tagBuilder := "";
    var outBuilder := "";

    for i := 0 to |message|
      invariant Run(Start, message[..i]) == Running(Scan(isTag, isEscaped, tagBuilder, outBuilder, tagStack))
    {
      ghost var st := Scan(isTag, isEscaped, tagBuilder, outBuilder, tagStack);
      var c := message[i];
      ScanLemmas.RunSnoc(Start, message[..i], c);
      assert message[..i + 1] == message[..i] + [c];
      if c == '[' {
        if !isEscaped {
          isTag := true;
        } else {
          outBuilder := outBuilder + [c];
          isEscaped := false;
        }
      } else if c == '\\' {
        if isEscaped {
          outBuilder := outBuilder + [c];
        } else {
          isEscaped := true;
        }
      } else if c == ']' {
        if |tagBuilder| == 0 {
          ScanLemmas.RunStops(Start, message, i + 1);
          r := Throw(Warn(UnopenedClose), depth);
          return;
        }
        if isEscaped {
          outBuilder := outBuilder + [c];
          isEscaped := false;
        } else {
          tagString := tagBuilder;
          tagBuilder := "";
          isTag := false;
          var resolved := ResolveTag(tagString, outBuilder, tagStack);
          assert st.tagBody == tagString;
          if resolved.Thrown? {
            ScanLemmas.RunStops(Start, message, i + 1);
            r := Throw(resolved.fault, depth);
            return;
          }
          outBuilder := resolved.state.out;
          tagStack := resolved.state.stack;
        }
      } else {
        if isTag {
          tagBuilder := tagBuilder + [c];
        } else {
          outBuilder := outBuilder + [c];
        }
      }
    }
    assert message[..|message|] == message;

    var openTags: seq<string> := [];
    if |tagStack| > 0 {
      for k := 0 to |tagStack|
        invariant openTags == Labels(tagStack)[..k]
      {
        var item := tagStack[|tagStack| - 1 - k];
        LabelsPrefix(tagStack, k);
        if item.1 != "0" {
          openTags := openTags + [item.0 + "(" + item.1 + ")"];
        } else {
          openTags := openTags + [item.0];
        }
      }
      assert Labels(tagStack)[..|tagStack|] == Labels(tagStack);
      r := Throw(Warn(TagsOpen(Join(" ", openTags))), depth);
      return;
    }

    outMessage := outBuilder;
    outBuilder := "";
    r := Returned(outMessage);
  }

  /** The listing loop's step: one more label, of the next entry from the top. */
  lemma LabelsPrefix(stack: seq<OpenTag>, k: nat)
    requires k < |stack|
    ensures Labels(stack)[..k + 1] == Labels(stack)[..k] + [Label(stack[|stack| - 1 - k])]
  {
    assert Labels(stack)[k] == Label(stack[|stack| - 1 - k]);
  }

  /** The resolution of a finished tag body (the code after a `]`): the
      output and stack it leaves, or the fault it throws. */
  method ResolveTag(body: string, outBuilder: string, tagStack: seq<OpenTag>) returns (p: Progress)
    requires AllKnown(tagStack)
    ensures p == Resolve(Scan(false, false, "", outBuilder, tagStack), body)
  {
    var tagString := body;
    var argString := "";
    if '=' in tagString {
      var eq := IndexOf(tagString, '=');
      argString := tagString[eq + 1..];
      tagString := tagString[..eq];
    }
    SplitMatches(body);
    var out, stack := outBuilder, tagStack;

    if tagString in TagMap {
      if tagString == "/" {
        stack := [];
        out := out + TagMap["/"][""];
      } else {
        TableShape(tagString, "");
        if |TagMap[tagString]| == 1 {
          out := out + TagMap[tagString][""];
          stack := stack + [(tagString, "")];
        } else {
          if argString !in TagMap[tagString] {
            return Thrown(KeyNotFound);
          }
          out := out + TagMap[tagString][argString];
          stack := stack + [(tagString, argString)];
        }
      }
    } else if |tagString| == 0 {
      return Thrown(IndexOutOfRange);
    } else if tagString[0] == '/' {
      if |stack| > 0 {
        if stack[|stack| - 1].0 == tagString[1..] {
          stack := stack[..|stack| - 1];
          out := out + TagMap["/"][""];
          out := AppendReplay(out, stack);
        } else {
          return Thrown(Warn(CloseMismatch(tagString, stack[|stack| - 1].0)));
        }
      } else {
        return Thrown(Warn(CloseUnopened(tagString)));
      }
    } else {
      return Thrown(Warn(InvalidTag(tagString)));
    }
    p := Running(Scan(false, false, "", out, stack));
  }

  /** The name and argument the source cuts from a body with `IndexOf` are
      the specification's. */
  lemma SplitMatches(body: string)
    ensures '=' in body ==>
      var eq := IndexOf(body, '=');
      NameOf(body) == body[..eq] && ArgOf(body) == body[eq + 1..]
    ensures '=' !in body ==> NameOf(body) == body && ArgOf(body) == ""
  {
    if '=' in body {
      SplitAt(body, IndexOf(body, '='));
    } else {
      TagLemmas.NoEquals(body);
    }
  }

  /** Cutting at the first `=`, wherever it is. */
  lemma SplitAt(body: string, k: nat)
    requires k < |body| && body[k] == '=' && '=' !in body[..k]
    ensures NameOf(body) == body[..k] && ArgOf(body) == body[k + 1..]
  {
    var name, arg := body[..k], body[k + 1..];
    assert body == name + "=" + arg by {
      assert body == body[..k] + [body[k]] + body[k + 1..];
    }
    TagLemmas.SplitAtEquals(name, arg);
  }

  /** The replay loop: the escape sequence of every open tag, oldest to
      newest, appended to `out`. */
  method AppendReplay(out: string, stack: seq<OpenTag>) returns (r: string)
    requires AllKnown(stack)
    ensures r == out + Replay(stack)
  {
    r := out;
    for j := 0 to |stack|
      invariant r == out + Replay(stack[..j])
    {
      TagLemmas.ReplayStep(out, stack, j);
      r := r + TagMap[stack[j].0][stack[j].1];
    }
    assert stack[..|stack|] == stack;
  }

  /** Raising a fault: a warning parses its template one level deeper and
      becomes an ArgumentException with the result, unless that parse
      itself throws. */
  method Throw(f: Fault, depth: nat) returns (r: Outcome)
    ensures r == Surface(f, depth)
    decreases depth, 0
  {
    match f
    case KeyNotFound =>
      r := Raised(KeyNotFoundException);
    case IndexOutOfRange =>
      r := Raised(IndexOutOfRangeException);
    case Warn(w) =>
      if depth == 0 {
        r := DepthExhausted;
      } else {
        var rendered := ParseNested(Template(w), depth - 1);
        if rendered.Returned? {
          r := Raised(ArgumentException(rendered.value));
        } else {
          r := rendered;
        }
      }
  }

  /** On success the message is replaced by its rendering and true is
      returned; on an ArgumentException or KeyNotFoundException false is
      returned and the message is left as it was; an IndexOutOfRangeException
      goes through to the caller. */
  method TryParse(message: string) returns (r: TryOutcome)
    ensures Render(message).Returned? ==> r == Completed(true, Render(message).value)
    ensures Render(message).Raised? && !Render(message).error.IndexOutOfRangeException? ==>
      r == Completed(false, message)
    ensures Render(message) == Raised(IndexOutOfRangeException) ==> r == Uncaught(IndexOutOfRangeException)
    ensures r.Completed? && r.success ==> Render(message).Returned?
  {
    var parsed := Parse(message);
    if parsed.Returned? {
      r := Completed(true, parsed.value);
    } else if parsed.Raised? && !parsed.error.IndexOutOfRangeException? {
      r := Completed(false, message);
    } else {
      r := Uncaught(IndexOutOfRangeException);
    }
  }
}
