/**
 Properties of the scanning loop: how it composes over concatenated input,
 what plain text, escapes and stray brackets do, and the invariant that
 the tag-body buffer never holds a special character.
 */
module ScanLemmas {
  import opened TagTable
  import opened Markup

  /** Scanning `a + b` is scanning `a`, then going on with `b`. */
  lemma {:induction false} RunAppend(st: Scan, a: string, b: string)
    requires AllKnown(st.stack)
    ensures Run(st, a + b) == Then(Run(st, a), b)
    decreases |b|
  {
    if b == [] {
      assert a + b == a;
    } else {
      var b' := b[..|b| - 1];
      assert (a + b)[..|a + b| - 1] == a + b';
      assert (a + b)[|a + b| - 1] == b[|b| - 1];
      RunAppend(st, a, b');
    }
  }

  /** Scanning `a + b` from where scanning `a` left off. */
  lemma Chain(st: Scan, a: string, b: string, mid: Scan)
    requires AllKnown(st.stack) && Run(st, a) == Running(mid)
    ensures AllKnown(mid.stack) && Run(st, a + b) == Run(mid, b)
  {
    RunAppend(st, a, b);
  }

  /** Plain text appended to the output, as one step of a chain. */
  lemma ChainPlain(st: Scan, a: string, b: string, mid: Scan)
    requires AllKnown(st.stack) && Run(st, a) == Running(mid) && !mid.isTag && Plain(b)
    ensures Run(st, a + b) == Running(mid.(out := mid.out + b))
  {
    Chain(st, a, b, mid);
    RunPlain(mid, b);
  }

  /** Once a prefix has thrown, the rest of the input is never looked at. */
  lemma RunStops(st: Scan, s: string, k: nat)
    requires AllKnown(st.stack)
    requires k <= |s| && Run(st, s[..k]).Thrown?
    ensures Run(st, s) == Run(st, s[..k])
  {
    assert s == s[..k] + s[k..];
    RunAppend(st, s[..k], s[k..]);
  }

  /** Input after a throw changes nothing. */
  lemma ThrownAppend(st: Scan, a: string, b: string)
    requires AllKnown(st.stack) && Run(st, a).Thrown?
    ensures Run(st, a + b) == Run(st, a)
  {
    RunAppend(st, a, b);
  }

  /** One more character: the loop's step after the prefix. */
  lemma RunSnoc(st: Scan, s: string, c: char)
    requires AllKnown(st.stack)
    ensures Run(st, s + [c]) == match Run(st, s) case Running(t) => Step(t, c) case Thrown(f) => Thrown(f)
  {
    assert (s + [c])[..|s + [c]| - 1] == s;
  }

  // The escape rules, each for one more character after a prefix `a`
  // whose scan left the state `t`.

  /** A backslash with no escape pending sets the flag and nothing else. */
  lemma BackslashEscapes(st: Scan, a: string, t: Scan)
    requires AllKnown(st.stack) && Run(st, a) == Running(t) && !t.isEscaped
    ensures Run(st, a + "\\") == Running(t.(isEscaped := true))
  {
    RunSnoc(st, a, '\\');
    assert a + "\\" == a + ['\\'];
  }

  /** An escaped `[` is emitted and clears the flag, inside a tag body too:
      the body and the tag mode stay as they were. */
  lemma EscapedOpenBracket(st: Scan, a: string, t: Scan)
    requires AllKnown(st.stack) && Run(st, a) == Running(t) && t.isEscaped
    ensures Run(st, a + "[") == Running(t.(out := t.out + "[", isEscaped := false))
  {
    RunSnoc(st, a, '[');
    assert a + "[" == a + ['['];
  }

  /** An escaped `]` after a non-empty body is emitted and clears the flag;
      the body stays buffered. */
  lemma EscapedCloseBracket(st: Scan, a: string, t: Scan)
    requires AllKnown(st.stack) && Run(st, a) == Running(t) && t.isEscaped && t.tagBody != []
    ensures Run(st, a + "]") == Running(t.(out := t.out + "]", isEscaped := false))
  {
    assert a + "]" == a + [']'];
    RunSnoc(st, a, ']');
    EscapedCloseStep(t);
  }

  lemma EscapedCloseStep(t: Scan)
    requires AllKnown(t.stack) && t.isEscaped && t.tagBody != []
    ensures Step(t, ']') == Running(t.(out := t.out + "]", isEscaped := false))
  {
    assert t.out + [']'] == t.out + "]";
  }

  /** An escaped backslash emits one backslash and leaves the flag set. */
  lemma EscapedBackslash(st: Scan, a: string, t: Scan)
    requires AllKnown(st.stack) && Run(st, a) == Running(t) && t.isEscaped
    ensures Run(st, a + "\\") == Running(t.(out := t.out + "\\"))
  {
    RunSnoc(st, a, '\\');
    assert a + "\\" == a + ['\\'];
  }

  /** Any other character neither sets nor clears the flag: it goes to the
      tag body inside a tag and to the output outside one. */
  lemma OtherKeepsFlag(st: Scan, a: string, t: Scan, c: char)
    requires AllKnown(st.stack) && Run(st, a) == Running(t) && !IsSpecial(c)
    ensures Run(st, a + [c]) == Running(if t.isTag then t.(tagBody := t.tagBody + [c])
                                        else t.(out := t.out + [c]))
    ensures Run(st, a + [c]).state.isEscaped == t.isEscaped
  {
    RunSnoc(st, a, c);
  }

  /** Only a `]` can stop the scan or change the open tags: input without
      one always runs to its end and leaves the stack as it was. */
  lemma {:induction false} RunWithoutClose(st: Scan, s: string)
    requires AllKnown(st.stack) && ']' !in s
    ensures Run(st, s).Running? && Run(st, s).state.stack == st.stack
    decreases |s|
  {
    if s != [] {
      var s' := s[..|s| - 1];
      assert ']' !in s' by {
        forall k | 0 <= k < |s'| ensures s'[k] != ']' { assert s'[k] == s[k]; }
      }
      RunWithoutClose(st, s');
      assert s[|s| - 1] != ']';
    }
  }

  /** An unescaped `[` only enters the tag body; a `[` already inside a
      body keeps the body buffered so far. */
  lemma OpenBracket(st: Scan)
    requires AllKnown(st.stack) && !st.isEscaped
    ensures Run(st, "[") == Running(st.(isTag := true))
  {
    RunSnoc(st, [], '[');
    assert [] + ['['] == "[";
  }

  /** An unescaped `]` after a non-empty body resolves that body. */
  lemma CloseBracket(st: Scan)
    requires AllKnown(st.stack) && st.tagBody != [] && !st.isEscaped
    ensures Step(st, ']') == Resolve(st.(tagBody := [], isTag := false), st.tagBody)
  {
  }

  /** Text without brackets and backslashes goes, character for character,
      to the tag body inside a tag and to the output outside one; nothing
      else changes. */
  lemma {:induction false} RunPlain(st: Scan, s: string)
    requires AllKnown(st.stack) && Plain(s)
    ensures Run(st, s) == Running(if st.isTag then st.(tagBody := st.tagBody + s)
                                  else st.(out := st.out + s))
    decreases |s|
  {
    if s != [] {
      var s' := s[..|s| - 1];
      assert Plain(s') by {
        forall k | 0 <= k < |s'| ensures !IsSpecial(s'[k]) { assert s'[k] == s[k]; }
      }
      RunPlain(st, s');
      assert s' + [s[|s| - 1]] == s;
      assert !IsSpecial(s[|s| - 1]);
    }
  }

  /** `[` and a plain body fill the tag-body buffer with that body. */
  lemma RunTagBody(st: Scan, body: string)
    requires AllKnown(st.stack) && !st.isEscaped && st.tagBody == [] && Plain(body)
    ensures Run(st, "[" + body) == Running(st.(isTag := true, tagBody := body))
  {
    OpenBracket(st);
    RunAppend(st, "[", body);
    RunPlain(st.(isTag := true), body);
  }

  /** The loop invariant that makes every diagnostic well formed. */
  predicate Valid(st: Scan) {
    AllKnown(st.stack) && Plain(st.tagBody)
  }

  /** A warning whose template holds no brackets or backslashes beyond its own. */
  predicate PlainWarning(w: Warning) {
    match w
    case UnopenedClose => true
    case CloseMismatch(tag, expected) => Plain(tag) && Plain(expected)
    case CloseUnopened(tag) => Plain(tag)
    case InvalidTag(tag) => Plain(tag)
    case TagsOpen(listing) => Plain(listing)
  }

  lemma PlainPrefix(s: string, n: nat)
    requires Plain(s) && n <= |s|
    ensures Plain(s[..n]) && Plain(s[n..])
  {
    forall k | 0 <= k < n ensures !IsSpecial(s[..n][k]) { assert s[..n][k] == s[k]; }
    forall k | 0 <= k < |s| - n ensures !IsSpecial(s[n..][k]) { assert s[n..][k] == s[n + k]; }
  }

  lemma PlainConcat(a: string, b: string)
    requires Plain(a) && Plain(b)
    ensures Plain(a + b)
  {
    forall k | 0 <= k < |a + b| ensures !IsSpecial((a + b)[k]) {
      if k < |a| { assert (a + b)[k] == a[k]; } else { assert (a + b)[k] == b[k - |a|]; }
    }
  }

  /** Resolution of a plain body keeps the invariant, and every warning it
      raises names only plain text. */
  lemma ResolveValid(st: Scan, body: string)
    requires Valid(st) && Plain(body)
    ensures Resolve(st, body).Running? ==> Valid(Resolve(st, body).state)
    ensures Resolve(st, body).Thrown? && Resolve(st, body).fault.Warn? ==>
      PlainWarning(Resolve(st, body).fault.warning)
  {
    var name := NameOf(body);
    PlainPrefix(body, |name|);
    if name !in TagMap && |name| > 0 && name[0] == '/' {
      PlainPrefix(name, 1);
      if |st.stack| > 0 {
        var top := st.stack[|st.stack| - 1];
        KnownIsPlain(top.0, top.1);
      }
    }
  }

  /** Every step keeps the invariant and raises only plain warnings. */
  lemma StepValid(st: Scan, c: char)
    requires Valid(st)
    ensures Step(st, c).Running? ==> Valid(Step(st, c).state)
    ensures Step(st, c).Thrown? && Step(st, c).fault.Warn? ==> PlainWarning(Step(st, c).fault.warning)
  {
    if c == ']' && st.tagBody != [] && !st.isEscaped {
      ResolveValid(st.(tagBody := [], isTag := false), st.tagBody);
    } else if !IsSpecial(c) && st.isTag {
      PlainConcat(st.tagBody, [c]);
    }
  }

  /** The invariant holds after every prefix of every input. */
  lemma {:induction false} RunValid(st: Scan, s: string)
    requires Valid(st)
    ensures Run(st, s).Running? ==> Valid(Run(st, s).state)
    ensures Run(st, s).Thrown? && Run(st, s).fault.Warn? ==> PlainWarning(Run(st, s).fault.warning)
    decreases |s|
  {
    if s != [] {
      var s' := s[..|s| - 1];
      RunValid(st, s');
      if Run(st, s').Running? {
        StepValid(Run(st, s').state, s[|s| - 1]);
      }
    }
  }
}
