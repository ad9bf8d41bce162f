/**
 A functional specification of `ColorUtil.Parse`: one step of its scanning
 loop, the resolution of a finished tag body, the fold over the whole input,
 the end-of-input check, and the rendering of error templates through the
 renderer itself. The imperative model in module ColorUtil is proved equal
 to `RenderAt`.
 */
module Markup {
  import opened TagTable

  /** What one call of the scanner keeps between characters. The open tags
      are a sequence with the top of the stack at its end. */
  datatype Scan = Scan(
    isTag: bool,           // inside a tag body
    isEscaped: bool,       // a backslash was read
    tagBody: string,       // the tag-body buffer
    out: string,           // the output buffer
    stack: seq<OpenTag>)   // the open tags, oldest first

  const Start: Scan := Scan(false, false, "", "", [])

  /** The diagnostics the renderer formats through itself. */
  datatype Warning =
    | UnopenedClose                                  // `]` with an empty tag body
    | CloseMismatch(tag: string, expected: string)   // `/X` while another tag is on top
    | CloseUnopened(tag: string)                     // `/X` with no tag open
    | InvalidTag(tag: string)                        // a name the table does not know
    | TagsOpen(listing: string)                      // tags left open at the end

  /** Why a scan stops: a warning to be rendered, or a failed lookup. */
  datatype Fault =
    | Warn(warning: Warning)
    | KeyNotFound        // an argument the table does not have for the name
    | IndexOutOfRange    // an empty tag name is indexed

  datatype Progress = Running(state: Scan) | Thrown(fault: Fault)

  /** The part of a tag body before its first `=` (all of it if none). */
  function NameOf(body: string): (r: string)
    ensures '=' !in r && |r| <= |body| && r == body[..|r|]
    ensures |r| < |body| ==> body[|r|] == '='
  {
    if body == [] then []
    else if body[0] == '=' then []
    else [body[0]] + NameOf(body[1..])
  }

  /** The part of a tag body after its first `=` ("" if none). */
  function ArgOf(body: string): (r: string)
    ensures '=' in body ==> body == NameOf(body) + "=" + r
    ensures '=' !in body ==> r == ""
  {
    if body == [] then ""
    else if body[0] == '=' then body[1..]
    else ArgOf(body[1..])
  }

  /** The escape sequences of the open tags, oldest to newest. */
  function Replay(stack: seq<OpenTag>): (r: string)
    requires AllKnown(stack)
    ensures r == "" <==> stack == []
    ensures stack != [] ==> |r| >= 3 * |stack| && r[0] == Esc && r[|r| - 1] == 'm'
  {
    if stack == [] then ""
    else Replay(stack[..|stack| - 1]) + Code(stack[|stack| - 1].0, stack[|stack| - 1].1)
  }

  /** The resolution of a finished tag body; `st` has its buffer already
      cleared and `isTag` reset. */
  function Resolve(st: Scan, body: string): (r: Progress)
    requires AllKnown(st.stack)
    ensures r.Running? ==> AllKnown(r.state.stack)
    ensures r.Running? ==> r.state.tagBody == st.tagBody && r.state.isTag == st.isTag
                           && r.state.isEscaped == st.isEscaped
  {
    var name := NameOf(body);
    var arg := ArgOf(body);
    if name in TagMap then
      TableShape(name, "");
      if name == "/" then
        Running(st.(stack := [], out := st.out + TagMap["/"][""]))
      else if |TagMap[name]| == 1 then
        Running(st.(out := st.out + TagMap[name][""], stack := st.stack + [(name, "")]))
      else if arg in TagMap[name] then
        Running(st.(out := st.out + TagMap[name][arg], stack := st.stack + [(name, arg)]))
      else
        Thrown(KeyNotFound)
    else if |name| == 0 then
      Thrown(IndexOutOfRange)
    else if name[0] == '/' then
      if |st.stack| > 0 then
        if st.stack[|st.stack| - 1].0 == name[1..] then
          var rest := st.stack[..|st.stack| - 1];
          Running(st.(stack := rest, out := st.out + TagMap["/"][""] + Replay(rest)))
        else
          Thrown(Warn(CloseMismatch(name, st.stack[|st.stack| - 1].0)))
      else
        Thrown(Warn(CloseUnopened(name)))
    else
      Thrown(Warn(InvalidTag(name)))
  }

  /** One iteration of the scanning loop, on the character `c`. */
  function Step(st: Scan, c: char): (r: Progress)
    requires AllKnown(st.stack)
    ensures r.Running? ==> AllKnown(r.state.stack)
  {
    if c == '[' then
      if !st.isEscaped then Running(st.(isTag := true))
      else Running(st.(out := st.out + ['['], isEscaped := false))
    else if c == '\\' then
      if st.isEscaped then Running(st.(out := st.out + ['\\']))
      else Running(st.(isEscaped := true))
    else if c == ']' then
      if st.tagBody == [] then Thrown(Warn(UnopenedClose))
      else if st.isEscaped then Running(st.(out := st.out + [']'], isEscaped := false))
      else Resolve(st.(tagBody := [], isTag := false), st.tagBody)
    else if st.isTag then
      Running(st.(tagBody := st.tagBody + [c]))
    else
      Running(st.(out := st.out + [c]))
  }

  /** The scanning loop over all of `s`, from state `st`. */
  function Run(st: Scan, s: string): (r: Progress)
    requires AllKnown(st.stack)
    ensures r.Running? ==> AllKnown(r.state.stack)
    decreases |s|
  {
    if s == [] then Running(st)
    else
      match Run(st, s[..|s| - 1])
      case Running(t) => Step(t, s[|s| - 1])
      case Thrown(f) => Thrown(f)
  }

  /** The loop continued over `s` from where `p` left it. */
  function Then(p: Progress, s: string): Progress
    requires p.Running? ==> AllKnown(p.state.stack)
  {
    match p
    case Running(t) => Run(t, s)
    case Thrown(_) => p
  }

  /** How an open tag is named in the "still open" diagnostic. */
  function Label(t: OpenTag): (r: string)
    ensures t.0 <= r
    ensures r == t.0 <==> t.1 == "0"
  {
    if t.1 != "0" then t.0 + "(" + t.1 + ")" else t.0
  }

  /** The labels of the open tags in the order a stack enumerates them:
      newest first. */
  function Labels(stack: seq<OpenTag>): (r: seq<string>)
    ensures |r| == |stack|
  {
    seq(|stack|, k requires 0 <= k < |stack| => Label(stack[|stack| - 1 - k]))
  }

  /** The strings of `xs` with `sep` between neighbours. */
  function Join(sep: string, xs: seq<string>): (r: string)
    ensures |xs| == 0 ==> r == ""
    ensures |xs| > 0 ==> xs[0] <= r
    ensures |xs| > 0 ==> |xs[|xs| - 1]| <= |r| && r[|r| - |xs[|xs| - 1]|..] == xs[|xs| - 1]
  {
    if |xs| == 0 then ""
    else if |xs| == 1 then xs[0]
    else xs[0] + sep + Join(sep, xs[1..])
  }

  /** What a scan that ran to the end of its input yields. */
  datatype CoreResult = Done(out: string) | Failed(fault: Fault)

  /** The end-of-input check: open tags make the parse fail. */
  function Finish(p: Progress): (r: CoreResult)
    requires p.Running? ==> AllKnown(p.state.stack)
    ensures r.Done? <==> p.Running? && p.state.stack == []
    ensures r.Done? ==> r.out == p.state.out
    ensures p.Thrown? ==> r == Failed(p.fault)
    ensures p.Running? && p.state.stack != [] ==> r.Failed? && r.fault.Warn? && r.fault.warning.TagsOpen?
  {
    match p
    case Thrown(f) => Failed(f)
    case Running(t) =>
      if |t.stack| > 0 then Failed(Warn(TagsOpen(Join(" ", Labels(t.stack)))))
      else Done(t.out)
  }

  /** The scan of `s`, without rendering of its diagnostic. */
  function Core(s: string): CoreResult {
    Finish(Run(Start, s))
  }

  /** The markup every diagnostic starts with. */
  const WarningMarkup: string := "[color=yellow]Warning[/color]: "

  /** The markup each warning is formatted from. */
  function Template(w: Warning): (r: string)
    ensures WarningMarkup <= r
  {
    match w
    case UnopenedClose =>
      WarningMarkup + "Tried to end tag without beginning."
    case CloseMismatch(tag, expected) =>
      WarningMarkup + "Tried to use \\[" + tag + "\\] to close tag, but \\[/" + expected + "\\] was expected."
    case CloseUnopened(tag) =>
      WarningMarkup + "Tried to use \\[" + tag + "\\], but no tag was opened previously."
    case InvalidTag(tag) =>
      WarningMarkup + "Invalid tag: " + tag
    case TagsOpen(listing) =>
      WarningMarkup + "There are still some tags open: " + listing
  }

  /** The exceptions a parse can end with. */
  datatype Exception =
    | ArgumentException(message: string)
    | KeyNotFoundException
    | IndexOutOfRangeException

  /** The result of a parse allowed `depth` nested parses of diagnostics;
      `DepthExhausted` is the model's own, for a diagnostic beyond the bound. */
  datatype Outcome = Returned(value: string) | Raised(error: Exception) | DepthExhausted

  /** Enough nesting for every diagnostic (see lemma RenderDepthSuffices). */
  const RenderDepth: nat := 2

  /** `Parse(s)` with `depth` nested parses of diagnostics allowed. */
  function RenderAt(s: string, depth: nat): (r: Outcome)
    ensures r.Returned? <==> Core(s).Done?
    ensures r.Returned? ==> r.value == Core(s).out
    ensures r.Raised? && r.error.ArgumentException? ==> Core(s).Failed? && Core(s).fault.Warn?
    decreases depth, 1
  {
    match Core(s)
    case Done(out) => Returned(out)
    case Failed(f) => Surface(f, depth)
  }

  /** The exception a fault surfaces as: a warning is thrown as an
      ArgumentException carrying its rendered template, unless rendering
      the template itself throws, which then propagates instead. */
  function Surface(f: Fault, depth: nat): (r: Outcome)
    ensures !r.Returned?
    ensures f.KeyNotFound? ==> r == Raised(KeyNotFoundException)
    ensures f.IndexOutOfRange? ==> r == Raised(IndexOutOfRangeException)
    ensures r.Raised? && r.error.ArgumentException? ==> f.Warn?
    decreases depth, 0
  {
    match f
    case KeyNotFound => Raised(KeyNotFoundException)
    case IndexOutOfRange => Raised(IndexOutOfRangeException)
    case Warn(w) =>
      if depth == 0 then DepthExhausted
      else
        match RenderAt(Template(w), depth - 1)
        case Returned(message) => Raised(ArgumentException(message))
        case other => other
  }

  /** `ColorUtil.Parse` as specified. */
  function Render(s: string): (r: Outcome)
    ensures r.Returned? <==> Core(s).Done?
    ensures r.Returned? ==> r.value == Core(s).out
    ensures r.Raised? && r.error.ArgumentException? ==> Core(s).Failed? && Core(s).fault.Warn?
  {
    RenderAt(s, RenderDepth)
  }
}
