/**
 Properties of tag resolution: how a body splits into name and argument,
 what each kind of name does to the output and the stack, and that closing
 a tag re-emits exactly the styles that opening the remaining tags emitted.
 */
module TagLemmas {
  import opened TagTable
  import opened Markup
  import opened ScanLemmas

  /** Name and argument cut at the first `=` give back the body they came from. */
  lemma {:induction false} SplitAtEquals(name: string, arg: string)
    requires '=' !in name
    ensures NameOf(name + "=" + arg) == name && ArgOf(name + "=" + arg) == arg
  {
    if name != [] {
      assert (name + "=" + arg)[1..] == name[1..] + "=" + arg;
      SplitAtEquals(name[1..], arg);
    }
  }

  /** A body without `=` is all name, and its argument is empty. */
  lemma {:induction false} NoEquals(body: string)
    requires '=' !in body
    ensures NameOf(body) == body && ArgOf(body) == ""
  {
    if body != [] {
      NoEquals(body[1..]);
    }
  }

  /** `[` + body + `]`, read while no escape is pending and no tag body is
      buffered, resolves exactly that body. */
  lemma TagRun(st: Scan, body: string)
    requires AllKnown(st.stack) && !st.isEscaped && st.tagBody == []
    requires Plain(body) && |body| > 0
    ensures Run(st, "[" + body + "]") == Resolve(st.(isTag := false), body)
  {
    RunTagBody(st, body);
    RunSnoc(st, "[" + body, ']');
    CloseBracket(st.(isTag := true, tagBody := body));
  }

  /** A one-entry name (`b`, `u`, `i`, `blink`, `strike`) emits its code and
      pushes itself with the empty argument, whatever argument was written. */
  lemma OneEntryTagIgnoresArgument(st: Scan, body: string)
    requires AllKnown(st.stack)
    requires NameOf(body) in TagMap && NameOf(body) !in {"/", "color", "bgcolor"}
    ensures Known(NameOf(body), "")
    ensures Resolve(st, body) ==
      Running(st.(out := st.out + Code(NameOf(body), ""), stack := st.stack + [(NameOf(body), "")]))
  {
    TableShape(NameOf(body), "");
    EntryCounts(NameOf(body));
  }

  /** `color` and `bgcolor` accept exactly their nine arguments and push the
      pair as written; any other argument is a failed lookup. */
  lemma ColorTagArgument(st: Scan, body: string)
    requires AllKnown(st.stack)
    requires NameOf(body) == "color" || NameOf(body) == "bgcolor"
    ensures Resolve(st, body).Running? <==> IsColorName(ArgOf(body))
    ensures IsColorName(ArgOf(body)) ==> Known(NameOf(body), ArgOf(body))
    ensures IsColorName(ArgOf(body)) ==>
      Resolve(st, body) == Running(st.(out := st.out + Code(NameOf(body), ArgOf(body)),
                                        stack := st.stack + [(NameOf(body), ArgOf(body))]))
    ensures !IsColorName(ArgOf(body)) ==> Resolve(st, body) == Thrown(KeyNotFound)
  {
    TableShape(NameOf(body), ArgOf(body));
    EntryCounts(NameOf(body));
  }

  /** `[/]` empties the whole stack and emits only the full reset. */
  lemma CloseAll(st: Scan, body: string)
    requires AllKnown(st.stack) && NameOf(body) == "/"
    ensures Resolve(st, body) == Running(st.(stack := [], out := st.out + Reset))
  {
  }

  /** `/X` with X the top's name pops that one entry and emits the full reset
      followed by the codes of the entries left, oldest to newest. */
  lemma CloseTop(st: Scan, body: string)
    requires AllKnown(st.stack) && |st.stack| > 0
    requires NameOf(body) == "/" + st.stack[|st.stack| - 1].0
    ensures var rest := st.stack[..|st.stack| - 1];
      Resolve(st, body) == Running(st.(stack := rest, out := st.out + Reset + Replay(rest)))
  {
    var top := st.stack[|st.stack| - 1];
    KnownIsPlain(top.0, top.1);
    TableShape(top.0, top.1);
    TableShape("/" + top.0, "");
    assert ("/" + top.0)[1..] == top.0;
  }

  /** A `/`-name the table does not know closes nothing when no tag is open,
      and closes nothing when another tag is on top. */
  lemma CloseFaults(st: Scan, body: string)
    requires AllKnown(st.stack)
    requires NameOf(body) !in TagMap && |NameOf(body)| > 0 && NameOf(body)[0] == '/'
    ensures |st.stack| == 0 ==> Resolve(st, body) == Thrown(Warn(CloseUnopened(NameOf(body))))
    ensures |st.stack| > 0 && st.stack[|st.stack| - 1].0 != NameOf(body)[1..] ==>
      Resolve(st, body) == Thrown(Warn(CloseMismatch(NameOf(body), st.stack[|st.stack| - 1].0)))
  {
  }

  /** A name the table does not know, not starting with `/`, is invalid;
      an empty name (a body starting with `=`) is indexed and crashes. */
  lemma UnknownNames(st: Scan, body: string)
    requires AllKnown(st.stack)
    ensures NameOf(body) == "" ==> Resolve(st, body) == Thrown(IndexOutOfRange)
    ensures |NameOf(body)| > 0 && NameOf(body)[0] != '/' && !IsTagName(NameOf(body)) ==>
      Resolve(st, body) == Thrown(Warn(InvalidTag(NameOf(body))))
  {
    TableShape(NameOf(body), "");
  }

  /** There is no self-closing ` /` and no cleanup ` //` form: such a body
      is looked up whole and is an invalid tag. */
  lemma NoSelfClosingForms(st: Scan, name: string, marker: string)
    requires AllKnown(st.stack)
    requires marker == " /" || marker == " //"
    requires '=' !in name && (name == "" || name[0] != '/')
    ensures Resolve(st, name + marker) == Thrown(Warn(InvalidTag(name + marker)))
  {
    NoEquals(name + marker);
    var n := name + marker;
    assert n[|n| - 1] == '/';
    TableShape(n, "");
    assert n[0] != '/' by {
      if name == "" { assert n[0] == ' '; } else { assert n[0] == name[0]; }
    }
  }

  /** The markup `[name=arg]` that opens `t`. */
  function OpenTagMarkup(t: OpenTag): string {
    "[" + t.0 + "=" + t.1 + "]"
  }

  /** The markup that opens `tags`, oldest first. */
  function OpenMarkup(tags: seq<OpenTag>): string {
    if tags == [] then ""
    else OpenMarkup(tags[..|tags| - 1]) + OpenTagMarkup(tags[|tags| - 1])
  }

  /** Tags that can be opened: key pairs of the table, other than `/`. */
  predicate Openable(tags: seq<OpenTag>) {
    AllKnown(tags) && forall k :: 0 <= k < |tags| ==> tags[k].0 != "/"
  }

  lemma NameHasNoEquals(name: string, arg: string)
    requires Known(name, arg)
    ensures '=' !in name && name != ""
  {
    TableShape(name, arg);
  }

  /** Resolving `name=arg` for a key pair of the table other than `/`
      emits its code and pushes the pair. */
  lemma ResolveOpen(st: Scan, t: OpenTag)
    requires AllKnown(st.stack) && Known(t.0, t.1) && t.0 != "/"
    ensures Resolve(st, t.0 + "=" + t.1) ==
      Running(st.(out := st.out + Code(t.0, t.1), stack := st.stack + [t]))
  {
    var body := t.0 + "=" + t.1;
    NameHasNoEquals(t.0, t.1);
    SplitAtEquals(t.0, t.1);
    TableShape(t.0, t.1);
    if t.0 == "color" || t.0 == "bgcolor" {
      ColorTagArgument(st, body);
    } else {
      OneEntryTagIgnoresArgument(st, body);
    }
  }

  /** `[name=arg]` for a key pair of the table other than `/`, read with
      nothing pending, emits its code and pushes the pair. */
  lemma OpenOne(st: Scan, t: OpenTag)
    requires AllKnown(st.stack) && !st.isTag && !st.isEscaped && st.tagBody == []
    requires Known(t.0, t.1) && t.0 != "/"
    ensures Run(st, OpenTagMarkup(t)) ==
      Running(st.(out := st.out + Code(t.0, t.1), stack := st.stack + [t]))
  {
    var body := t.0 + "=" + t.1;
    KnownIsPlain(t.0, t.1);
    PlainConcat(t.0, "=");
    PlainConcat(t.0 + "=", t.1);
    assert "[" + t.0 + "=" + t.1 + "]" == "[" + body + "]";
    TagRun(st, body);
    assert st.(isTag := false) == st;
    ResolveOpen(st, t);
  }

  /** The same from the start of the input. */
  lemma OpenFromStart(t: OpenTag)
    requires Known(t.0, t.1) && t.0 != "/"
    ensures Run(Start, OpenTagMarkup(t)) == Running(Start.(out := Code(t.0, t.1), stack := [t]))
  {
    OpenOne(Start, t);
    assert Start.out + Code(t.0, t.1) == Code(t.0, t.1);
    assert Start.stack + [t] == [t];
  }

  /** Opening one more tag after input `a`, which left nothing pending. */
  lemma OpenAfter(st: Scan, a: string, mid: Scan, t: OpenTag)
    requires AllKnown(st.stack) && Run(st, a) == Running(mid)
    requires !mid.isTag && !mid.isEscaped && mid.tagBody == []
    requires Known(t.0, t.1) && t.0 != "/"
    ensures Run(st, a + OpenTagMarkup(t)) ==
      Running(mid.(out := mid.out + Code(t.0, t.1), stack := mid.stack + [t]))
  {
    Chain(st, a, OpenTagMarkup(t), mid);
    OpenOne(mid, t);
  }

  lemma OpenMarkupSnoc(init: seq<OpenTag>, t: OpenTag)
    ensures OpenMarkup(init + [t]) == OpenMarkup(init) + OpenTagMarkup(t)
  {
    assert (init + [t])[..|init + [t]| - 1] == init;
  }

  lemma ReplaySnoc(init: seq<OpenTag>, t: OpenTag)
    requires AllKnown(init) && Known(t.0, t.1)
    ensures AllKnown(init + [t]) && Replay(init + [t]) == Replay(init) + Code(t.0, t.1)
  {
    var tags := init + [t];
    assert forall k :: 0 <= k < |init| ==> tags[k] == init[k];
    assert tags[..|tags| - 1] == init;
  }

  /** The replay of one more entry of a stack. */
  lemma ReplayPrefix(stack: seq<OpenTag>, j: nat)
    requires AllKnown(stack) && j < |stack|
    ensures AllKnown(stack[..j]) && Known(stack[j].0, stack[j].1)
    ensures Replay(stack[..j + 1]) == Replay(stack[..j]) + Code(stack[j].0, stack[j].1)
  {
    assert forall k :: 0 <= k < j ==> stack[..j][k] == stack[k];
    assert stack[..j + 1][..j] == stack[..j];
  }

  /** The replay emits the codes of older entries first: replaying any
      bottom part of a stack gives a prefix of replaying all of it. */
  lemma {:induction false} ReplayOrder(stack: seq<OpenTag>, j: nat)
    requires AllKnown(stack) && j <= |stack|
    ensures AllKnown(stack[..j]) && Replay(stack[..j]) <= Replay(stack)
    decreases |stack|
  {
    if j == |stack| {
      assert stack[..j] == stack;
    } else {
      var init := stack[..|stack| - 1];
      ReplayOrder(init, j);
      assert init[..j] == stack[..j];
      var code := Code(stack[|stack| - 1].0, stack[|stack| - 1].1);
      assert Replay(stack) == Replay(init) + code;
      assert Replay(init) <= Replay(init) + code;
    }
  }

  /** The replay loop's step: `out` followed by one more replayed entry. */
  lemma ReplayStep(out: string, stack: seq<OpenTag>, j: nat)
    requires AllKnown(stack) && j < |stack|
    ensures AllKnown(stack[..j]) && Known(stack[j].0, stack[j].1)
    ensures out + Replay(stack[..j + 1]) == out + Replay(stack[..j]) + TagMap[stack[j].0][stack[j].1]
  {
    ReplayPrefix(stack, j);
  }

  /** Opening one more tag after the markup of `init`, which left `mid`. */
  lemma OpenNext(st: Scan, init: seq<OpenTag>, t: OpenTag, mid: Scan)
    requires AllKnown(st.stack) && !mid.isTag && !mid.isEscaped && mid.tagBody == []
    requires Known(t.0, t.1) && t.0 != "/"
    requires Run(st, OpenMarkup(init)) == Running(mid)
    ensures Run(st, OpenMarkup(init + [t])) ==
      Running(mid.(out := mid.out + Code(t.0, t.1), stack := mid.stack + [t]))
  {
    OpenAfter(st, OpenMarkup(init), mid, t);
    OpenMarkupSnoc(init, t);
  }

  /** The state after opening `init` and then `t` is the state after opening `init + [t]`. */
  lemma OpenedState(st: Scan, init: seq<OpenTag>, t: OpenTag)
    requires AllKnown(init) && Known(t.0, t.1)
    ensures AllKnown(init + [t])
    ensures var mid := st.(out := st.out + Replay(init), stack := st.stack + init);
      mid.(out := mid.out + Code(t.0, t.1), stack := mid.stack + [t]) ==
      st.(out := st.out + Replay(init + [t]), stack := st.stack + (init + [t]))
  {
    ReplaySnoc(init, t);
    assert st.out + Replay(init) + Code(t.0, t.1) == st.out + Replay(init + [t]);
    assert st.stack + init + [t] == st.stack + (init + [t]);
  }

  lemma OpenablePrefix(tags: seq<OpenTag>)
    requires Openable(tags) && tags != []
    ensures Openable(tags[..|tags| - 1])
    ensures Known(tags[|tags| - 1].0, tags[|tags| - 1].1) && tags[|tags| - 1].0 != "/"
    ensures tags == tags[..|tags| - 1] + [tags[|tags| - 1]]
  {
    var init := tags[..|tags| - 1];
    forall k | 0 <= k < |init| ensures Known(init[k].0, init[k].1) && init[k].0 != "/" {
      assert init[k] == tags[k];
    }
  }

  /** Opening the tags one by one emits exactly `Replay(tags)` and pushes
      them in order. */
  lemma {:induction false} RunOpenMarkup(st: Scan, tags: seq<OpenTag>)
    requires AllKnown(st.stack) && !st.isTag && !st.isEscaped && st.tagBody == []
    requires Openable(tags)
    ensures Run(st, OpenMarkup(tags)) ==
      Running(st.(out := st.out + Replay(tags), stack := st.stack + tags))
    decreases |tags|
  {
    if tags == [] {
      assert st.stack + tags == st.stack;
    } else {
      var init := tags[..|tags| - 1];
      var t := tags[|tags| - 1];
      OpenablePrefix(tags);
      RunOpenMarkup(st, init);
      OpenNext(st, init, t, st.(out := st.out + Replay(init), stack := st.stack + init));
      OpenedState(st, init, t);
    }
  }

  /** The markup `[/name]` that closes a tag named `name`. */
  function CloseTagMarkup(name: string): string {
    "[/" + name + "]"
  }

  /** `[/name]` with `name` the top's name, read with nothing pending, pops
      the top and emits the full reset and the codes of the tags left. */
  lemma CloseTopRun(st: Scan)
    requires AllKnown(st.stack) && !st.isTag && !st.isEscaped && st.tagBody == [] && |st.stack| > 0
    ensures var rest := st.stack[..|st.stack| - 1];
      AllKnown(rest) &&
      Run(st, CloseTagMarkup(st.stack[|st.stack| - 1].0)) ==
      Running(st.(stack := rest, out := st.out + Reset + Replay(rest)))
  {
    var top := st.stack[|st.stack| - 1];
    KnownIsPlain(top.0, top.1);
    NameHasNoEquals(top.0, top.1);
    PlainConcat("/", top.0);
    assert CloseTagMarkup(top.0) == "[" + ("/" + top.0) + "]";
    TagRun(st, "/" + top.0);
    assert st.(isTag := false) == st;
    NoEquals("/" + top.0);
    CloseTop(st, "/" + top.0);
  }

  /** The same after input `a` that left nothing pending. */
  lemma CloseNext(st: Scan, a: string, mid: Scan)
    requires AllKnown(st.stack) && Run(st, a) == Running(mid)
    requires !mid.isTag && !mid.isEscaped && mid.tagBody == [] && |mid.stack| > 0
    ensures var rest := mid.stack[..|mid.stack| - 1];
      AllKnown(rest) &&
      Run(st, a + CloseTagMarkup(mid.stack[|mid.stack| - 1].0)) ==
      Running(mid.(stack := rest, out := mid.out + Reset + Replay(rest)))
  {
    Chain(st, a, CloseTagMarkup(mid.stack[|mid.stack| - 1].0), mid);
    CloseTopRun(mid);
  }

  /** Full reset then replay: closing the newest of the tags just opened
      emits the reset and then the very codes that opening the others
      emitted, and leaves the others open. */
  lemma CloseReplaysOpenTags(tags: seq<OpenTag>, t: OpenTag)
    requires Openable(tags + [t])
    ensures Run(Start, OpenMarkup(tags + [t]) + CloseTagMarkup(t.0)) ==
      Running(Start.(out := Replay(tags + [t]) + Reset + Replay(tags), stack := tags))
  {
    var all := tags + [t];
    RunOpenMarkup(Start, all);
    var afterOpen := Start.(out := Replay(all), stack := all);
    assert Start.(out := Start.out + Replay(all), stack := Start.stack + all) == afterOpen;
    SnocParts(tags, t);
    CloseNext(Start, OpenMarkup(all), afterOpen);
  }

  lemma SnocParts(tags: seq<OpenTag>, t: OpenTag)
    ensures (tags + [t])[..|tags + [t]| - 1] == tags && (tags + [t])[|tags + [t]| - 1] == t
  {
  }
}
