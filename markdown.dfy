/** The line-based markdown parser of the article pages
    (frontend/src/components/MarkdownContent.jsx). Each input line is trimmed
    and classified as a heading, a list item, a paragraph line or a blank
    line; a paragraph buffer and a list buffer collect consecutive lines and
    are flushed into the element list. A paragraph keeps its lines: the
    markup it renders is their join with a single space. */
module Markdown {
  import opened Seqs
  import opened Text

  datatype Element =
    | Heading(level: nat, text: string)
    | Paragraph(lines: seq<string>)
    | BulletList(items: seq<string>)

  // ------------------------------------------------------------ bold

  /** The characters the regular-expression `.` does not match. */
  predicate LineTerminator(c: char) {
    var n := c as int;
    n == 0x0A || n == 0x0D || n == 0x2028 || n == 0x2029
  }

  /** `**` occurs in `s` at position `k`. */
  predicate MarkerAt(s: string, k: nat) {
    k + 2 <= |s| && s[k] == '*' && s[k + 1] == '*'
  }

  /** Where the lazy group of the pattern `\*\*(.+?)\*\*` stops when it may end at `q`
      at the earliest: the first `**` at or after `q`, provided no line
      terminator comes before it. */
  function CloseFrom(s: string, q: nat): (r: Option<nat>)
    requires q <= |s|
    ensures r.Some? ==>
      (q <= r.value && MarkerAt(s, r.value) && forall k :: q <= k < r.value ==> !MarkerAt(s, k) && !LineTerminator(s[k]))
    ensures r.None? ==> forall e: nat :: q <= e && MarkerAt(s, e) ==> exists k :: q <= k < e && LineTerminator(s[k])
    decreases |s| - q
  {
    if q + 2 > |s| then None
    else if MarkerAt(s, q) then Some(q)
    else if LineTerminator(s[q]) then None
    else CloseFrom(s, q + 1)
  }

  /** A match of the pattern `\*\*(.+?)\*\*` starting at `i`: the position of its
      closing `**`. The group holds at least one character. */
  function BoldMatch(s: string, i: nat): (r: Option<nat>)
    requires i <= |s|
    ensures r.Some? ==> i + 3 <= r.value && r.value + 2 <= |s|
  {
    if i + 3 <= |s| && MarkerAt(s, i) && !LineTerminator(s[i + 2]) then CloseFrom(s, i + 3) else None
  }

  /** `<strong>x</strong>`. */
  function Strong(x: string): (r: string)
    ensures |r| == |x| + 17
  {
    "<strong>" + x + "</strong>"
  }

  function BoldFrom(s: string, i: nat): (r: string)
    requires i <= |s|
    ensures i < |s| ==> r != ""
    decreases |s| - i
  {
    if i == |s| then ""
    else match BoldMatch(s, i)
      case Some(q) => Strong(s[i + 2..q]) + BoldFrom(s, q + 2)
      case None => [s[i]] + BoldFrom(s, i + 1)
  }

  /** `s.replace` of every match of the pattern `\*\*(.+?)\*\*` (global
      flag) by `<strong>$1</strong>`, left to right. */
  function Bold(s: string): string {
    BoldFrom(s, 0)
  }

  lemma {:induction false} BoldFromNoMarker(s: string, i: nat)
    requires i <= |s|
    requires forall k: nat :: i <= k ==> !MarkerAt(s, k)
    ensures BoldFrom(s, i) == s[i..]
    decreases |s| - i
  {
    if i < |s| {
      assert !MarkerAt(s, i);
      BoldFromNoMarker(s, i + 1);
      assert s[i..] == [s[i]] + s[i + 1..];
    }
  }

  /** A line without `**` is left as it is. */
  lemma BoldWithoutMarker(s: string)
    requires !Contains(s, "**")
    ensures Bold(s) == s
  {
    forall k: nat ensures !MarkerAt(s, k) {
      if MarkerAt(s, k) {
        assert s[k..k + 2] == "**";
        ContainsAt(s, "**", k);
      }
    }
    BoldFromNoMarker(s, 0);
  }

  lemma {:induction false} CloseFromWalk(s: string, q: nat, e: nat)
    requires q <= e && MarkerAt(s, e)
    requires forall k :: q <= k < e ==> s[k] != '*' && !LineTerminator(s[k])
    ensures CloseFrom(s, q) == Some(e)
    decreases e - q
  {
    if q < e {
      CloseFromWalk(s, q + 1, e);
    }
  }

  /** `**x**` becomes `<strong>x</strong>` for a non-empty `x` without stars
      or line breaks. */
  lemma BoldWraps(x: string)
    requires x != []
    requires forall k :: 0 <= k < |x| ==> x[k] != '*' && !LineTerminator(x[k])
    ensures Bold("**" + x + "**") == "<strong>" + x + "</strong>"
  {
    var s := "**" + x + "**";
    var e := 2 + |x|;
    assert s[e] == '*' && s[e + 1] == '*';
    forall k | 3 <= k < e ensures s[k] != '*' && !LineTerminator(s[k]) {
      assert s[k] == x[k - 2];
    }
    CloseFromWalk(s, 3, e);
    assert s[0] == '*' && s[1] == '*' && s[2] == x[0];
    assert BoldMatch(s, 0) == Some(e);
    assert s[2..e] == x;
    assert BoldFrom(s, e + 2) == "";
  }

  /** Text in which no `**` starts is copied as it is. */
  lemma {:induction false} BoldFromPlain(s: string, i: nat, j: nat)
    requires i <= j <= |s|
    requires forall k: nat :: i <= k < j ==> !MarkerAt(s, k)
    ensures BoldFrom(s, i) == s[i..j] + BoldFrom(s, j)
    decreases j - i
  {
    if i < j {
      BoldFromStep(s, i);
      BoldFromPlain(s, i + 1, j);
      ConsSlice(s, i, j, BoldFrom(s, j));
    }
  }

  /** A character at which no `**` starts is copied and the scan moves on. */
  lemma BoldFromStep(s: string, i: nat)
    requires i < |s| && !MarkerAt(s, i)
    ensures BoldFrom(s, i) == [s[i]] + BoldFrom(s, i + 1)
  {
  }

  /** A match at `i` is replaced and the scan resumes after its closing `**`. */
  lemma BoldFromMatch(s: string, i: nat, x: string)
    requires i <= |s| && BoldMatch(s, i) == Some(i + 2 + |x|) && s[i + 2..i + 2 + |x|] == x
    ensures BoldFrom(s, i) == Strong(x) + BoldFrom(s, i + |x| + 4)
  {
  }

  /** A span `**x**` at `i`, with `x` non-empty and free of stars and line
      breaks, is a match whose closing `**` follows `x`. */
  lemma SpanMatch(s: string, i: nat, x: string)
    requires x != [] && i + |x| + 4 <= |s|
    requires s[i..i + |x| + 4] == "**" + x + "**"
    requires forall k :: 0 <= k < |x| ==> x[k] != '*' && !LineTerminator(x[k])
    ensures BoldMatch(s, i) == Some(i + 2 + |x|) && s[i + 2..i + 2 + |x|] == x
  {
    var e := i + 2 + |x|;
    var w := s[i..i + |x| + 4];
    assert s[i] == w[0] == '*' && s[i + 1] == w[1] == '*' && s[i + 2] == w[2] == x[0];
    assert s[e] == w[|x| + 2] == '*' && s[e + 1] == w[|x| + 3] == '*';
    forall k | i + 3 <= k < e ensures s[k] != '*' && !LineTerminator(s[k]) {
      assert s[k] == w[k - i] == x[k - i - 2];
    }
    CloseFromWalk(s, i + 3, e);
    ThreeParts("**", x, "**");
    SubSlice(s, i, i + |x| + 4, 2, |x| + 2);
  }

  /** A span `**x**` at `i`, with `x` non-empty and free of stars and line
      breaks, becomes `<strong>x</strong>` and the scan resumes after it. */
  lemma BoldFromSpan(s: string, i: nat, x: string)
    requires x != [] && i + |x| + 4 <= |s|
    requires s[i..i + |x| + 4] == "**" + x + "**"
    requires forall k :: 0 <= k < |x| ==> x[k] != '*' && !LineTerminator(x[k])
    ensures BoldFrom(s, i) == Strong(x) + BoldFrom(s, i + |x| + 4)
  {
    SpanMatch(s, i, x);
    BoldFromMatch(s, i, x);
  }

  /** Two bold spans with plain text between them are both replaced, left
      to right, and the text between is kept. */
  lemma BoldTwoSpans(x: string, mid: string, y: string)
    requires x != [] && y != []
    requires forall k :: 0 <= k < |x| ==> x[k] != '*' && !LineTerminator(x[k])
    requires forall k :: 0 <= k < |y| ==> y[k] != '*' && !LineTerminator(y[k])
    requires forall k :: 0 <= k < |mid| ==> mid[k] != '*'
    ensures Bold("**" + x + "**" + mid + "**" + y + "**") == Strong(x) + mid + Strong(y)
  {
    var w1 := "**" + x + "**";
    AppendAssoc(w1 + mid, "**", y);
    AppendAssoc(w1 + mid, "**" + y, "**");
    BoldSpans(w1 + mid + ("**" + y + "**"), x, mid, y);
  }

  /** Where the parts of `**x**` + `mid` + `**y**` lie. */
  lemma SpansLayout(s: string, x: string, mid: string, y: string)
    requires forall k :: 0 <= k < |mid| ==> mid[k] != '*'
    requires s == ("**" + x + "**") + mid + ("**" + y + "**")
    ensures |s| == |x| + 4 + |mid| + |y| + 4
    ensures s[0..|x| + 4] == "**" + x + "**"
    ensures s[|x| + 4..|x| + 4 + |mid|] == mid
    ensures forall k: nat :: |x| + 4 <= k < |x| + 4 + |mid| ==> !MarkerAt(s, k)
    ensures s[|x| + 4 + |mid|..|x| + 4 + |mid| + |y| + 4] == "**" + y + "**"
  {
    ThreeParts("**" + x + "**", mid, "**" + y + "**");
    var a := |x| + 4;
    forall k: nat | a <= k < a + |mid| ensures !MarkerAt(s, k) {
      assert s[k] == s[a..a + |mid|][k - a] == mid[k - a];
    }
  }

  /** A closing span `**y**` that ends the text becomes `<strong>y</strong>`. */
  lemma BoldLastSpan(s: string, b: nat, y: string)
    requires y != [] && b + |y| + 4 == |s|
    requires s[b..b + |y| + 4] == "**" + y + "**"
    requires forall k :: 0 <= k < |y| ==> y[k] != '*' && !LineTerminator(y[k])
    ensures BoldFrom(s, b) == Strong(y)
  {
    BoldFromSpan(s, b, y);
    assert BoldFrom(s, |s|) == [];
  }

  /** Text in which no `**` starts, followed by a known replacement. */
  lemma BoldPlainThen(s: string, a: nat, b: nat, tail: string)
    requires a <= b <= |s|
    requires forall k: nat :: a <= k < b ==> !MarkerAt(s, k)
    requires BoldFrom(s, b) == tail
    ensures BoldFrom(s, a) == s[a..b] + tail
  {
    BoldFromPlain(s, a, b);
  }

  /** `BoldTwoSpans` on the text grouped as `**x**`, `mid`, `**y**`. */
  lemma BoldSpans(s: string, x: string, mid: string, y: string)
    requires x != [] && y != []
    requires forall k :: 0 <= k < |x| ==> x[k] != '*' && !LineTerminator(x[k])
    requires forall k :: 0 <= k < |y| ==> y[k] != '*' && !LineTerminator(y[k])
    requires forall k :: 0 <= k < |mid| ==> mid[k] != '*'
    requires s == ("**" + x + "**") + mid + ("**" + y + "**")
    ensures BoldFrom(s, 0) == Strong(x) + mid + Strong(y)
  {
    SpansLayout(s, x, mid, y);
    var a := |x| + 4;
    var b := a + |mid|;
    BoldLastSpan(s, b, y);
    BoldPlainThen(s, a, b, Strong(y));
    BoldFromSpan(s, 0, x);
    AppendAssoc(Strong(x), mid, Strong(y));
  }

  // ------------------------------------------------------- the parser

  /** The parser state: the emitted elements, the paragraph buffer, the
      `inList` flag and the list buffer. */
  datatype Buffers = Buffers(elements: seq<Element>, paragraph: seq<string>, inList: bool, items: seq<string>)

  const Empty: Buffers := Buffers([], [], false, [])

  /** `flushParagraph()`. */
  function ClosedParagraph(b: Buffers): Buffers {
    if |b.paragraph| > 0 then b.(elements := b.elements + [Paragraph(b.paragraph)], paragraph := []) else b
  }

  /** `flushList()`. */
  function ClosedList(b: Buffers): Buffers {
    if |b.items| > 0 then b.(elements := b.elements + [BulletList(b.items)], items := [], inList := false) else b
  }

  predicate IsHeadingLine(t: string) {
    StartsWith(t, "# ") || StartsWith(t, "## ") || StartsWith(t, "### ")
  }

  predicate IsItemLine(t: string) {
    StartsWith(t, "- ") || StartsWith(t, "* ")
  }

  /** What a line is, once trimmed, with the text it contributes. */
  datatype LineKind = HeadingLine(level: nat, text: string) | ItemLine(item: string) | TextLine(text: string) | BlankLine

  /** The branches of the `forEach` body, in their order, on the trimmed
      line `t`. */
  function KindOf(t: string): (k: LineKind)
    ensures k.BlankLine? <==> t == ""
    ensures k.HeadingLine? ==> 1 <= k.level <= 3
    ensures k.TextLine? ==> k.text != ""
  {
    if StartsWith(t, "# ") then HeadingLine(1, t[2..])
    else if StartsWith(t, "## ") then HeadingLine(2, t[3..])
    else if StartsWith(t, "### ") then HeadingLine(3, t[4..])
    else if IsItemLine(t) then ItemLine(Bold(JsTrim(t[2..])))
    else if Contains(t, "**") then TextLine(Bold(t))
    else if t != "" then TextLine(t)
    else BlankLine
  }

  /** The kind of a line, once trimmed. */
  function Classify(line: string): (k: LineKind)
    ensures k.BlankLine? <==> JsTrim(line) == ""
    ensures k.HeadingLine? ==> 1 <= k.level <= 3
    ensures k.TextLine? ==> k.text != ""
  {
    KindOf(JsTrim(line))
  }

  /** What the `forEach` body does to the buffers for a line of kind `k`. */
  function Apply(b: Buffers, k: LineKind): Buffers {
    match k
    case HeadingLine(level, text) =>
      var c := ClosedList(ClosedParagraph(b));
      c.(elements := c.elements + [Heading(level, text)])
    case ItemLine(item) =>
      var c := ClosedParagraph(b);
      c.(inList := true, items := c.items + [item])
    case TextLine(text) =>
      var c := ClosedList(b);
      c.(paragraph := c.paragraph + [text])
    case BlankLine =>
      ClosedList(ClosedParagraph(b))
  }

  /** The kinds `Classify` produces: headings of level 1 to 3, text lines
      that are not empty. */
  predicate Possible(k: LineKind) {
    (k.HeadingLine? ==> 1 <= k.level <= 3) && (k.TextLine? ==> k.text != "")
  }

  /** The kind of every line, in order. */
  function Kinds(lines: seq<string>): (r: seq<LineKind>)
    ensures |r| == |lines|
    ensures forall i :: 0 <= i < |r| ==> Possible(r[i])
    decreases |lines|
  {
    if lines == [] then [] else Kinds(lines[..|lines| - 1]) + [Classify(lines[|lines| - 1])]
  }

  /** The buffers after applying the kinds `ks`, one after the other, to `b`. */
  function Run(b: Buffers, ks: seq<LineKind>): Buffers
    decreases |ks|
  {
    if ks == [] then b else Apply(Run(b, ks[..|ks| - 1]), ks[|ks| - 1])
  }

  /** One more line is one more `Apply` of its kind. */
  lemma RunNextLine(b: Buffers, lines: seq<string>, i: nat)
    requires i < |lines|
    ensures Run(b, Kinds(lines[..i + 1])) == Apply(Run(b, Kinds(lines[..i])), Classify(lines[i]))
  {
    assert lines[..i + 1][..i] == lines[..i];
    var ks := Kinds(lines[..i + 1]);
    assert ks[..i] == Kinds(lines[..i]);
  }

  /** `parseMarkdown(text)`: every line of `text.split('\n')` in turn, then
      the final flushes. */
  function Parse(text: string): seq<Element> {
    ParseLines(Split(text, "\n"))
  }

  /** Every line in turn, then the final flushes. */
  function ParseLines(lines: seq<string>): seq<Element> {
    ClosedList(ClosedParagraph(Run(Empty, Kinds(lines)))).elements
  }

  /** The closures of `parseMarkdown` over their four shared variables. */
  class MarkdownParser {
    var elements: seq<Element>
    var currentParagraph: seq<string>
    var inList: bool
    var listItems: seq<string>

    function State(): Buffers
      reads this
    {
      Buffers(elements, currentParagraph, inList, listItems)
    }

    constructor ()
      ensures State() == Empty
    {
      elements := [];
      currentParagraph := [];
      inList := false;
      listItems := [];
    }

    method FlushParagraph()
      modifies this
      ensures State() == ClosedParagraph(old(State()))
    {
      if |currentParagraph| > 0 {
        elements := elements + [Paragraph(currentParagraph)];
        currentParagraph := [];
      }
    }

    method FlushList()
      modifies this
      ensures State() == ClosedList(old(State()))
    {
      if |listItems| > 0 {
        elements := elements + [BulletList(listItems)];
        listItems := [];
        inList := false;
      }
    }

    /** The body of the `forEach` over the lines. */
    method ProcessLine(line: string)
      modifies this
      ensures State() == Apply(old(State()), Classify(line))
    {
      var trimmed := JsTrim(line);
      ProcessTrimmed(trimmed);
    }

    /** `lines.forEach(processLine)`. */
    method ProcessLines(lines: seq<string>)
      modifies this
      ensures State() == Run(old(State()), Kinds(lines))
    {
      ghost var b0 := State();
      var i := 0;
      while i < |lines|
        invariant 0 <= i <= |lines|
        invariant State() == Run(b0, Kinds(lines[..i]))
      {
        ProcessLine(lines[i]);
        RunNextLine(b0, lines, i);
        i := i + 1;
      }
      assert lines[..i] == lines;
    }

    /** The branches of the `forEach` body, after `line.trim()`. */
    method ProcessTrimmed(trimmed: string)
      modifies this
      ensures State() == Apply(old(State()), KindOf(trimmed))
    {
      ghost var k := KindOf(trimmed);
      ghost var b0 := State();
      if StartsWith(trimmed, "# ") {
        assert k == HeadingLine(1, trimmed[2..]);
        FlushParagraph();
        FlushList();
        elements := elements + [Heading(1, trimmed[2..])];
        return;
      }
      if StartsWith(trimmed, "## ") {
        assert k == HeadingLine(2, trimmed[3..]);
        FlushParagraph();
        FlushList();
        elements := elements + [Heading(2, trimmed[3..])];
        return;
      }
      if StartsWith(trimmed, "### ") {
        assert k == HeadingLine(3, trimmed[4..]);
        FlushParagraph();
        FlushList();
        elements := elements + [Heading(3, trimmed[4..])];
        return;
      }
      if StartsWith(trimmed, "- ") || StartsWith(trimmed, "* ") {
        var itemText := JsTrim(trimmed[2..]);
        assert k == ItemLine(Bold(itemText));
        FlushParagraph();
        inList := true;
        listItems := listItems + [Bold(itemText)];
        assert State() == Apply(b0, k);
        return;
      }
      if Contains(trimmed, "**") {
        assert k == TextLine(Bold(trimmed));
        FlushList();
        currentParagraph := currentParagraph + [Bold(trimmed)];
        assert State() == Apply(b0, k);
        return;
      }
      if trimmed != "" {
        assert k == TextLine(trimmed);
        FlushList();
        currentParagraph := currentParagraph + [trimmed];
      } else {
        assert k == BlankLine;
        FlushParagraph();
        FlushList();
      }
    }
  }

  /** `parseMarkdown`: one `ProcessLine` per line, then the final flushes. */
  method ParseMarkdown(text: string) returns (elements: seq<Element>)
    ensures elements == Parse(text)
  {
    var lines := Split(text, "\n");
    var parser := new MarkdownParser();
    parser.ProcessLines(lines);
    parser.FlushParagraph();
    parser.FlushList();
    elements := parser.elements;
  }

  /** `MarkdownContent`: nothing for missing or empty content. */
  method MarkdownContent(content: Option<string>) returns (r: Option<seq<Element>>)
    ensures content.None? || content.value == "" ==> r.None?
    ensures content.Some? && content.value != "" ==> r == Some(Parse(content.value))
  {
    if content.None? || content.value == "" {
      return None;
    }
    var elements := ParseMarkdown(content.value);
    r := Some(elements);
  }

  // ----------------------------------------------------- classification

  lemma PrefixHead(t: string, p: string)
    requires p != [] && StartsWith(t, p)
    ensures t != [] && t[0] == p[0]
  {
    assert t[..|p|][0] == t[0];
  }

  /** A trimmed line starting with `- ` or `* ` is a list line whose item
      is the text after the marker, trimmed, with bold markup applied. */
  lemma ItemLineText(t: string)
    requires IsItemLine(t)
    ensures KindOf(t) == ItemLine(Bold(JsTrim(t[2..])))
  {
    if StartsWith(t, "- ") { PrefixHead(t, "- "); } else { PrefixHead(t, "* "); }
    if StartsWith(t, "# ") { PrefixHead(t, "# "); }
    if StartsWith(t, "## ") { PrefixHead(t, "## "); }
    if StartsWith(t, "### ") { PrefixHead(t, "### "); }
  }

  /** A trimmed line made of `level` (1 to 3) `#` and a space, then text, is
      a heading of that level whose text is kept as it is. */
  lemma HeadingLineText(t: string, level: nat)
    requires 1 <= level <= 3 && level < |t|
    requires forall j :: 0 <= j < level ==> t[j] == '#'
    requires t[level] == ' '
    ensures KindOf(t) == HeadingLine(level, t[level + 1..])
  {
    if level == 1 {
      assert t[..2] == "# ";
    } else if level == 2 {
      assert t[..3] == "## ";
      assert t[..2][1] == '#';
    } else {
      assert t[..4] == "### ";
      assert t[..2][1] == '#';
      assert t[..3][2] == '#';
    }
  }

  /** A text line contributes the trimmed line with bold markup applied
      (which leaves a line without `**` as it is). */
  lemma TextLineText(t: string)
    requires KindOf(t).TextLine?
    ensures KindOf(t).text == Bold(t)
  {
    if !Contains(t, "**") {
      BoldWithoutMarker(t);
    }
  }

  // ------------------------------------------------------- invariants

  predicate WellFormed(e: Element) {
    match e
    case Heading(level, _) => 1 <= level <= 3
    case Paragraph(lines) => lines != [] && forall k :: 0 <= k < |lines| ==> lines[k] != ""
    case BulletList(items) => items != []
  }

  /** `inList` is set exactly while the list buffer holds items, the two
      buffers are never both non-empty, paragraph lines are not blank, and
      no emitted paragraph or list is empty. */
  predicate Inv(b: Buffers) {
    (b.inList <==> b.items != [])
    && (b.paragraph == [] || b.items == [])
    && (forall k :: 0 <= k < |b.paragraph| ==> b.paragraph[k] != "")
    && (forall k :: 0 <= k < |b.elements| ==> WellFormed(b.elements[k]))
  }

  lemma ClosedInv(b: Buffers)
    requires Inv(b)
    ensures Inv(ClosedParagraph(b)) && Inv(ClosedList(b))
  {
  }

  lemma ApplyInv(b: Buffers, k: LineKind)
    requires Inv(b) && Possible(k)
    ensures Inv(Apply(b, k))
  {
    ClosedInv(b);
    ClosedInv(ClosedParagraph(b));
  }

  lemma {:induction false} RunInv(b: Buffers, ks: seq<LineKind>)
    requires Inv(b)
    requires forall i :: 0 <= i < |ks| ==> Possible(ks[i])
    ensures Inv(Run(b, ks))
    decreases |ks|
  {
    if ks != [] {
      RunInv(b, ks[..|ks| - 1]);
      ApplyInv(Run(b, ks[..|ks| - 1]), ks[|ks| - 1]);
    }
  }

  /** Every element the parser emits is well formed: no empty paragraph, no
      empty list, headings of level 1 to 3. */
  lemma ParseWellFormed(text: string)
    ensures forall k :: 0 <= k < |Parse(text)| ==> WellFormed(Parse(text)[k])
  {
    var ks := Kinds(Split(text, "\n"));
    RunInv(Empty, ks);
    var r := Run(Empty, ks);
    ClosedInv(r);
    ClosedInv(ClosedParagraph(r));
  }

  // ------------------------------------------------------ line account

  /** The texts an element holds: a heading's text, a paragraph's lines,
      a list's items. */
  function ElementTexts(e: Element): seq<string> {
    match e
    case Heading(_, text) => [text]
    case Paragraph(lines) => lines
    case BulletList(items) => items
  }

  /** The texts of the elements, in order. */
  function Texts(es: seq<Element>): seq<string>
    decreases |es|
  {
    if es == [] then [] else Texts(es[..|es| - 1]) + ElementTexts(es[|es| - 1])
  }

  lemma TextsSnoc(es: seq<Element>, e: Element)
    ensures Texts(es + [e]) == Texts(es) + ElementTexts(e)
  {
    assert (es + [e])[..|es|] == es;
  }

  /** The texts the buffers hold, in the order the flushes emit them. */
  function Contents(b: Buffers): seq<string> {
    Texts(b.elements) + b.paragraph + b.items
  }

  /** Flushing moves texts from the buffers to the elements and keeps their
      order. */
  lemma ClosedContents(b: Buffers)
    requires Inv(b)
    ensures Contents(ClosedParagraph(b)) == Contents(b)
    ensures Contents(ClosedList(b)) == Contents(b)
  {
    ClosedParagraphContents(b);
    ClosedListContents(b);
  }

  lemma ClosedParagraphContents(b: Buffers)
    requires Inv(b)
    ensures Contents(ClosedParagraph(b)) == Contents(b)
  {
    if |b.paragraph| > 0 {
      TextsSnoc(b.elements, Paragraph(b.paragraph));
      assert b.items == [];
    }
  }

  lemma ClosedListContents(b: Buffers)
    requires Inv(b)
    ensures Contents(ClosedList(b)) == Contents(b)
  {
    if |b.items| > 0 {
      TextsSnoc(b.elements, BulletList(b.items));
      assert b.paragraph == [];
    }
  }

  /** The text a line of kind `k` contributes: none for a blank line. */
  function Contribution(k: LineKind): seq<string> {
    match k
    case HeadingLine(_, text) => [text]
    case ItemLine(item) => [item]
    case TextLine(text) => [text]
    case BlankLine => []
  }

  /** The contributions of the kinds, in order. */
  function Contributions(ks: seq<LineKind>): seq<string>
    decreases |ks|
  {
    if ks == [] then [] else Contributions(ks[..|ks| - 1]) + Contribution(ks[|ks| - 1])
  }

  lemma HeadingContents(b: Buffers, level: nat, text: string)
    requires Inv(b)
    ensures Contents(Apply(b, HeadingLine(level, text))) == Contents(b) + [text]
  {
    var p := ClosedParagraph(b);
    ClosedParagraphContents(b);
    ClosedInv(b);
    var c := ClosedList(p);
    ClosedListContents(p);
    var d := Apply(b, HeadingLine(level, text));
    assert d == c.(elements := c.elements + [Heading(level, text)]);
    ElementsOnly(c);
    ElementsOnly(d);
    TextsSnoc(c.elements, Heading(level, text));
  }

  /** With both buffers empty, the contents are the element texts. */
  lemma ElementsOnly(c: Buffers)
    requires c.paragraph == [] && c.items == []
    ensures Contents(c) == Texts(c.elements)
  {
  }

  lemma ItemContents(b: Buffers, item: string)
    requires Inv(b)
    ensures Contents(Apply(b, ItemLine(item))) == Contents(b) + [item]
  {
    var c := ClosedParagraph(b);
    ClosedParagraphContents(b);
    assert c.paragraph == [];
    AppendAssoc(Texts(c.elements), c.items, [item]);
  }

  lemma TextContents(b: Buffers, text: string)
    requires Inv(b)
    ensures Contents(Apply(b, TextLine(text))) == Contents(b) + [text]
  {
    var c := ClosedList(b);
    ClosedListContents(b);
    assert c.items == [];
    AppendAssoc(Texts(c.elements), c.paragraph, [text]);
  }

  /** Each line appends its contribution after everything held so far. */
  lemma ApplyContents(b: Buffers, k: LineKind)
    requires Inv(b)
    ensures Contents(Apply(b, k)) == Contents(b) + Contribution(k)
  {
    match k
    case HeadingLine(level, text) => HeadingContents(b, level, text);
    case ItemLine(item) => ItemContents(b, item);
    case TextLine(text) => TextContents(b, text);
    case BlankLine =>
      ClosedParagraphContents(b);
      ClosedInv(b);
      ClosedListContents(ClosedParagraph(b));
  }

  lemma {:induction false} RunContents(b: Buffers, ks: seq<LineKind>)
    requires Inv(b)
    requires forall i :: 0 <= i < |ks| ==> Possible(ks[i])
    ensures Contents(Run(b, ks)) == Contents(b) + Contributions(ks)
    decreases |ks|
  {
    if ks != [] {
      var init := ks[..|ks| - 1];
      RunContents(b, init);
      RunInv(b, init);
      ApplyContents(Run(b, init), ks[|ks| - 1]);
      AppendAssoc(Contents(b), Contributions(init), Contribution(ks[|ks| - 1]));
    }
  }

  predicate NonBlank(line: string) {
    JsTrim(line) != ""
  }

  /** The number of lines that are not blank once trimmed. */
  function NonBlankLines(lines: seq<string>): nat
    decreases |lines|
  {
    if lines == [] then 0
    else NonBlankLines(lines[..|lines| - 1]) + (if NonBlank(lines[|lines| - 1]) then 1 else 0)
  }

  /** Every non-blank line contributes one text, every blank line none. */
  lemma {:induction false} ContributionsCount(lines: seq<string>)
    ensures |Contributions(Kinds(lines))| == NonBlankLines(lines)
    decreases |lines|
  {
    if lines != [] {
      var init := lines[..|lines| - 1];
      ContributionsCount(init);
      assert Kinds(lines)[..|lines| - 1] == Kinds(init);
    }
  }

  /** From the empty state, the final flushes leave the contributions of
      all the kinds in the elements, in order. */
  lemma ClosedRunContents(ks: seq<LineKind>)
    requires forall i :: 0 <= i < |ks| ==> Possible(ks[i])
    ensures Texts(ClosedList(ClosedParagraph(Run(Empty, ks))).elements) == Contributions(ks)
  {
    RunFromEmpty(ks);
    FinalFlushContents(Run(Empty, ks));
  }

  /** From the empty state the buffers hold the contributions of the lines. */
  lemma RunFromEmpty(ks: seq<LineKind>)
    requires forall i :: 0 <= i < |ks| ==> Possible(ks[i])
    ensures Inv(Run(Empty, ks)) && Contents(Run(Empty, ks)) == Contributions(ks)
  {
    RunContents(Empty, ks);
    ElementsOnly(Empty);
    RunInv(Empty, ks);
  }

  /** The two final flushes leave every held text in the elements. */
  lemma FinalFlushContents(r: Buffers)
    requires Inv(r)
    ensures Texts(ClosedList(ClosedParagraph(r)).elements) == Contents(r)
  {
    ClosedParagraphContents(r);
    ClosedInv(r);
    var f := ClosedList(ClosedParagraph(r));
    ClosedListContents(ClosedParagraph(r));
    ElementsOnly(f);
  }

  /** After the final flush the elements hold, in input order, the text of
      every non-blank line and nothing else: a heading's text, a paragraph
      line or a list item, one per line. */
  lemma ParseAccountsForEveryLine(text: string)
    ensures Texts(Parse(text)) == Contributions(Kinds(Split(text, "\n")))
    ensures |Texts(Parse(text))| == NonBlankLines(Split(text, "\n"))
  {
    ClosedRunContents(Kinds(Split(text, "\n")));
    ContributionsCount(Split(text, "\n"));
  }

  // ---------------------------------------------------------- blocks

  /** The blocks pending in the buffers, as they are flushed. */
  function Pending(b: Buffers): seq<Element> {
    (if b.paragraph != [] then [Paragraph(b.paragraph)] else [])
    + (if b.items != [] then [BulletList(b.items)] else [])
  }

  /** A heading line first closes the open paragraph or list, then emits the
      heading. */
  lemma HeadingClosesBlocks(b: Buffers, level: nat, text: string)
    requires Inv(b)
    ensures var r := Apply(b, HeadingLine(level, text));
      r.paragraph == [] && r.items == [] && !r.inList
      && r.elements == b.elements + Pending(b) + [Heading(level, text)]
  {
  }

  /** A blank line closes the open paragraph or list and emits nothing else. */
  lemma BlankLineClosesBlocks(b: Buffers)
    requires Inv(b)
    ensures var r := Apply(b, BlankLine);
      r.paragraph == [] && r.items == [] && !r.inList && r.elements == b.elements + Pending(b)
  {
  }

  /** Consecutive list lines fill one list: the pending paragraph is closed
      once and every line adds its item, in order. */
  lemma {:induction false} ListLinesFormOneList(b: Buffers, ks: seq<LineKind>)
    requires ks != []
    requires forall i :: 0 <= i < |ks| ==> ks[i].ItemLine?
    ensures Run(b, ks) ==
      ClosedParagraph(b).(inList := true, items := b.items + seq(|ks|, i requires 0 <= i < |ks| => ks[i].item))
    decreases |ks|
  {
    var init := ks[..|ks| - 1];
    if init != [] {
      ListLinesFormOneList(b, init);
    }
    var want := seq(|ks|, i requires 0 <= i < |ks| => ks[i].item);
    var got := seq(|init|, i requires 0 <= i < |init| => init[i].item);
    assert want == got + [ks[|ks| - 1].item];
  }

  /** Consecutive text lines fill one paragraph: the pending list is closed
      once and every line is appended, in order. */
  lemma {:induction false} TextLinesFormOneParagraph(b: Buffers, ks: seq<LineKind>)
    requires ks != []
    requires forall i :: 0 <= i < |ks| ==> ks[i].TextLine?
    ensures Run(b, ks) ==
      ClosedList(b).(paragraph := b.paragraph + seq(|ks|, i requires 0 <= i < |ks| => ks[i].text))
    decreases |ks|
  {
    var init := ks[..|ks| - 1];
    if init != [] {
      TextLinesFormOneParagraph(b, init);
    }
    var want := seq(|ks|, i requires 0 <= i < |ks| => ks[i].text);
    var got := seq(|init|, i requires 0 <= i < |init| => init[i].text);
    assert want == got + [ks[|ks| - 1].text];
  }
}
