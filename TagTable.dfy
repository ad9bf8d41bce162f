/**
 The fixed style table of the renderer: for every tag name the escape
 sequence of each argument it accepts. The escape sequences are ANSI/VT100
 "select graphic rendition" (SGR) codes, ESC [ n m.
 */
module TagTable {

  /** One entry of the tag stack: a tag name and its argument. */
  type OpenTag = (string, string)

  const Esc: char := '\U{1B}'

  /** The table, key for key and code for code; `/` is the full reset. */
  const TagMap: map<string, map<string, string>> := map[
    "b" := map["" := "\U{1B}[1m"],
    "u" := map["" := "\U{1B}[4m"],
    "i" := map["" := "\U{1B}[3m"],
    "blink" := map["" := "\U{1B}[5m"],
    "strike" := map["" := "\U{1B}[9m"],
    "color" := map[
      "" := "\U{1B}[39m",
      "black" := "\U{1B}[30m",
      "red" := "\U{1B}[31m",
      "green" := "\U{1B}[32m",
      "yellow" := "\U{1B}[33m",
      "blue" := "\U{1B}[34m",
      "magenta" := "\U{1B}[35m",
      "cyan" := "\U{1B}[36m",
      "white" := "\U{1B}[37m"
    ],
    "bgcolor" := map[
      "" := "\U{1B}[49m",
      "black" := "\U{1B}[40m",
      "red" := "\U{1B}[41m",
      "green" := "\U{1B}[42m",
      "yellow" := "\U{1B}[43m",
      "blue" := "\U{1B}[44m",
      "magenta" := "\U{1B}[45m",
      "cyan" := "\U{1B}[46m",
      "white" := "\U{1B}[47m"
    ],
    "/" := map["" := "\U{1B}[0m"]
  ]

  /** The characters the scanner treats specially. */
  predicate IsSpecial(c: char) {
    c == '[' || c == ']' || c == '\\'
  }

  /** Text in which the scanner sees no bracket and no backslash. */
  predicate Plain(s: string) {
    forall k :: 0 <= k < |s| ==> !IsSpecial(s[k])
  }

  /** The pair (name, arg) is a key pair of the table. */
  predicate Known(name: string, arg: string) {
    name in TagMap && arg in TagMap[name]
  }

  /** The escape sequence the table gives a known pair. */
  function Code(name: string, arg: string): (r: string)
    requires Known(name, arg)
    ensures |r| >= 3 && r[0] == Esc && r[1] == '[' && r[|r| - 1] == 'm'
  {
    TagMap[name][arg]
  }

  /** Every entry of a stack is a key pair of the table. */
  predicate AllKnown(stack: seq<OpenTag>) {
    forall k :: 0 <= k < |stack| ==> Known(stack[k].0, stack[k].1)
  }

  /** The full-reset sequence, the table's entry for `/`. */
  const Reset: string := "\U{1B}[0m"
  /** The yellow foreground the error templates open with. */
  const Yellow: string := "\U{1B}[33m"

  /** The eight names of the table. */
  predicate IsTagName(n: string) {
    n == "b" || n == "u" || n == "i" || n == "blink" || n == "strike" ||
    n == "color" || n == "bgcolor" || n == "/"
  }

  /** The nine arguments of `color` and `bgcolor`. */
  predicate IsColorName(a: string) {
    a == "" || a == "black" || a == "red" || a == "green" || a == "yellow" ||
    a == "blue" || a == "magenta" || a == "cyan" || a == "white"
  }

  /** Shape of the table: its names, and the arguments each name accepts. */
  lemma TableShape(name: string, arg: string)
    ensures name in TagMap <==> IsTagName(name)
    ensures Known(name, arg) <==>
      if name == "color" || name == "bgcolor" then IsColorName(arg)
      else IsTagName(name) && arg == ""
  {
  }

  /** A map whose only key is "" has one entry; the colour maps do not. */
  lemma EntryCounts(name: string)
    requires name in TagMap
    ensures |TagMap[name]| == 1 <==> name != "color" && name != "bgcolor"
  {
    TableShape(name, "");
    if name == "color" || name == "bgcolor" {
      ColorEntries(name);
    } else {
      SingleEntry(name);
    }
  }

  lemma SingleEntry(name: string)
    requires IsTagName(name) && name != "color" && name != "bgcolor"
    ensures name in TagMap && |TagMap[name]| == 1
  {
  }

  lemma ColorEntries(name: string)
    requires name == "color" || name == "bgcolor"
    ensures name in TagMap && |TagMap[name]| > 1
  {
    var m := TagMap[name];
    assert {"", "black"} <= m.Keys;
    SubsetCard({"", "black"}, m.Keys);
  }

  lemma SubsetCard(a: set<string>, b: set<string>)
    requires a <= b
    ensures |a| <= |b|
  {
    assert b == a + (b - a);
  }

  /** Names and arguments of the table contain no special character, and
      no argument is the string "0". */
  lemma KnownIsPlain(name: string, arg: string)
    requires Known(name, arg)
    ensures Plain(name) && Plain(arg) && arg != "0"
  {
    TableShape(name, arg);
  }
}
