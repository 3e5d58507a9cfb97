/**
 * The outline formatter: a finished outline rendered as nested ordered lists
 * of section headings.
 *
 * Markup is modelled as a sequence of tokens (start tags, end tags and
 * character data) and `Render` spells a token sequence out as the string the
 * formatter returns. The expression-only helpers of the formatter are token
 * functions; the two routines that loop (the list of sections and the
 * headings of an hgroup) are methods that build the string as the formatter
 * does and are proved equal to the rendering of the token functions. The
 * lemmas show that the markup is well nested and holds one list item per
 * section.
 */
module OutlineFormatter {
  import opened Wrappers
  import opened Dom
  import opened NodeAnalyzer
  import opened Sections
  import opened Owners
  import opened Outlines
  import opened OutlineState
  import opened OutlineInvariant
  import opened OutlineProof
  import opened OutlineInitiators

  /** The namespace the formatter prefixes to its class names. */
  const Ns := "wph5o"

  datatype Token = Start(tag: string, attrs: string) | End(tag: string) | Chars(s: string)

  function StartTag(tag: string, attrs: string): string {
    "<" + tag + attrs + ">"
  }

  function EndTag(tag: string): string {
    "</" + tag + ">"
  }

  /** A `class` attribute, with its leading space. */
  function Class(name: string): string {
    " class=\"" + name + "\""
  }

  function RenderToken(t: Token): string {
    match t
    case Start(tag, attrs) => StartTag(tag, attrs)
    case End(tag) => EndTag(tag)
    case Chars(s) => s
  }

  /** The markup as a string. Character data is written as it is: the
      formatter escapes nothing. */
  function Render(ts: seq<Token>): string
    decreases |ts|
  {
    if ts == [] then "" else RenderToken(ts[0]) + Render(ts[1..])
  }

  /** An element with the given start tag, content and end tag. */
  function Wrap(tag: string, attrs: string, inner: seq<Token>): seq<Token> {
    [Start(tag, attrs)] + inner + [End(tag)]
  }

  lemma {:induction false} RenderAppend(a: seq<Token>, b: seq<Token>)
    ensures Render(a + b) == Render(a) + Render(b)
    decreases |a|
  {
    if a == [] {
      assert a + b == b;
    } else {
      assert (a + b)[0] == a[0] && (a + b)[1..] == a[1..] + b;
      RenderAppend(a[1..], b);
    }
  }

  lemma RenderOne(t: Token)
    ensures Render([t]) == RenderToken(t)
  {
    assert [t][1..] == [];
  }

  lemma RenderWrap(tag: string, attrs: string, inner: seq<Token>)
    ensures Render(Wrap(tag, attrs, inner)) == StartTag(tag, attrs) + Render(inner) + EndTag(tag)
  {
    RenderAppend([Start(tag, attrs)] + inner, [End(tag)]);
    RenderAppend([Start(tag, attrs)], inner);
    RenderOne(Start(tag, attrs));
    RenderOne(End(tag));
  }

  // ---------------------------------------------------------------------
  // Well-nested markup

  /** The elements still open after reading `ts` when `open` were open
      before (innermost last), or None when an end tag closes an element
      other than the innermost open one. */
  function Scan(ts: seq<Token>, open: seq<string>): Option<seq<string>>
    decreases |ts|
  {
    if ts == [] then Some(open)
    else
      match ts[0]
      case Start(tag, _) => Scan(ts[1..], open + [tag])
      case End(tag) =>
        if open != [] && open[|open| - 1] == tag then Scan(ts[1..], open[..|open| - 1]) else None
      case Chars(_) => Scan(ts[1..], open)
  }

  /** Every element the markup opens it closes, innermost first. */
  predicate Balanced(ts: seq<Token>) {
    Scan(ts, []) == Some([])
  }

  /** Elements open outside a piece of markup do not change how it scans. */
  lemma {:induction false} ScanExtend(ts: seq<Token>, pre: seq<string>, open: seq<string>)
    requires Scan(ts, open).Some?
    ensures Scan(ts, pre + open) == Some(pre + Scan(ts, open).value)
    decreases |ts|
  {
    if ts != [] {
      match ts[0]
      case Start(tag, _) =>
        assert (pre + open) + [tag] == pre + (open + [tag]);
        ScanExtend(ts[1..], pre, open + [tag]);
      case End(tag) =>
        assert (pre + open)[..|pre + open| - 1] == pre + open[..|open| - 1];
        ScanExtend(ts[1..], pre, open[..|open| - 1]);
      case Chars(_) =>
        ScanExtend(ts[1..], pre, open);
    }
  }

  lemma {:induction false} ScanAppend(a: seq<Token>, b: seq<Token>, open: seq<string>)
    ensures Scan(a + b, open) == if Scan(a, open).Some? then Scan(b, Scan(a, open).value) else None
    decreases |a|
  {
    if a == [] {
      assert a + b == b;
    } else {
      assert (a + b)[0] == a[0] && (a + b)[1..] == a[1..] + b;
      match a[0]
      case Start(tag, _) =>
        ScanAppend(a[1..], b, open + [tag]);
      case End(tag) =>
        if open != [] && open[|open| - 1] == tag {
          ScanAppend(a[1..], b, open[..|open| - 1]);
        }
      case Chars(_) =>
        ScanAppend(a[1..], b, open);
    }
  }

  lemma BalancedConcat(a: seq<Token>, b: seq<Token>)
    requires Balanced(a) && Balanced(b)
    ensures Balanced(a + b)
  {
    ScanAppend(a, b, []);
  }

  /** A start tag, properly nested markup and one more token scan as that
      token with the start tag's element open. */
  lemma ScanEnclosed(tag: string, attrs: string, inner: seq<Token>, last: Token)
    requires Balanced(inner)
    ensures Scan([Start(tag, attrs)] + inner + [last], []) == Scan([last], [tag])
  {
    var w := [Start(tag, attrs)] + inner + [last];
    ScanFirst(tag, attrs, inner + [last]);
    assert w == [Start(tag, attrs)] + (inner + [last]);
    ScanExtend(inner, [tag], []);
    assert [tag] + [] == [tag];
    ScanAppend(inner, [last], [tag]);
  }

  lemma ScanFirst(tag: string, attrs: string, rest: seq<Token>)
    ensures Scan([Start(tag, attrs)] + rest, []) == Scan(rest, [tag])
  {
    var w := [Start(tag, attrs)] + rest;
    assert w[0] == Start(tag, attrs) && w[1..] == rest;
    assert [] + [tag] == [tag];
  }

  lemma BalancedWrap(tag: string, attrs: string, inner: seq<Token>)
    requires Balanced(inner)
    ensures Balanced(Wrap(tag, attrs, inner))
  {
    ScanEnclosed(tag, attrs, inner, End(tag));
    assert [End(tag)][1..] == [] && [tag][..0] == [];
  }

  lemma BalancedChars(s: string)
    ensures Balanced([Chars(s)])
  {
    assert [Chars(s)][1..] == [];
  }

  /** An element opened and closed by a different end tag is not well nested. */
  lemma UnbalancedMismatch(tag: string, attrs: string, inner: seq<Token>, other: string)
    requires Balanced(inner) && other != tag
    ensures !Balanced([Start(tag, attrs)] + inner + [End(other)])
  {
    ScanEnclosed(tag, attrs, inner, End(other));
  }

  // ---------------------------------------------------------------------
  // Counting elements

  /** The number of `tag` elements the markup opens. */
  function Count(ts: seq<Token>, tag: string): nat
    decreases |ts|
  {
    if ts == [] then 0
    else (if ts[0].Start? && ts[0].tag == tag then 1 else 0) + Count(ts[1..], tag)
  }

  lemma {:induction false} CountAppend(a: seq<Token>, b: seq<Token>, tag: string)
    ensures Count(a + b, tag) == Count(a, tag) + Count(b, tag)
    decreases |a|
  {
    if a == [] {
      assert a + b == b;
    } else {
      assert (a + b)[0] == a[0] && (a + b)[1..] == a[1..] + b;
      CountAppend(a[1..], b, tag);
    }
  }

  lemma CountWrap(name: string, attrs: string, inner: seq<Token>, tag: string)
    ensures Count(Wrap(name, attrs, inner), tag) == (if name == tag then 1 else 0) + Count(inner, tag)
  {
    CountAppend([Start(name, attrs)] + inner, [End(name)], tag);
    CountAppend([Start(name, attrs)], inner, tag);
    assert [Start(name, attrs)][1..] == [];
    assert [End(name)][1..] == [];
  }

  lemma CountChars(s: string, tag: string)
    ensures Count([Chars(s)], tag) == 0
  {
    assert [Chars(s)][1..] == [];
  }

  // ---------------------------------------------------------------------
  // Headings

  /** `issue_heading_notice`: the notice for a sectioning element without a
      heading (`about` is "implied") or for a heading without text (any other
      value). */
  function Notice(name: string, about: string): string
  {
    if about == "implied" then "[" + name + " element with no heading]"
    else "[" + name + " element with empty heading]"
  }

  /** PHP's truth value of a string: only "" and "0" are false. */
  predicate Truthy(s: string) {
    s != "" && s != "0"
  }

  predicate IsImage(n: Node) {
    n.Element? && n.tag == "img"
  }

  /** `get_alt_text`: the `alt` attribute of the heading's first img
      descendant when it is a true string, else nothing (`null`). */
  function AltText(h: Node): (r: Option<string>)
    ensures r.Some? ==> Truthy(r.value)
  {
    var images := ElementsByTagName(h, "img");
    if |images| > 0 && Truthy(images[0].alt) then Some(images[0].alt) else None
  }

  lemma {:induction false} FirstWithTag(es: seq<Node>, name: string) returns (j: nat)
    requires WithTag(es, name) != []
    ensures j < |es| && es[j].Element? && es[j].tag == name && WithTag(es, name)[0] == es[j]
    ensures forall k :: 0 <= k < j ==> !(es[k].Element? && es[k].tag == name)
    decreases |es|
  {
    if es[0].Element? && es[0].tag == name {
      j := 0;
    } else {
      var i := FirstWithTag(es[1..], name);
      j := i + 1;
    }
  }

  /** The alternative text comes from the first img descendant in document
      order, and only when its `alt` is a true string. */
  lemma AltTextFromFirstImage(h: Node) returns (j: Option<nat>)
    ensures j.None? ==> (forall k :: 0 <= k < |Descendants(h)| ==> !IsImage(Descendants(h)[k])) && AltText(h).None?
    ensures j.Some? ==> j.value < |Descendants(h)| && IsImage(Descendants(h)[j.value])
    ensures j.Some? ==> forall k :: 0 <= k < j.value ==> !IsImage(Descendants(h)[k])
    ensures j.Some? ==> AltText(h) == if Truthy(Descendants(h)[j.value].alt) then Some(Descendants(h)[j.value].alt) else None
  {
    if WithTag(Descendants(h), "img") == [] {
      j := None;
    } else {
      var i := FirstWithTag(Descendants(h), "img");
      j := Some(i);
    }
  }

  /** `$heading->nodeValue ?: get_alt_text($heading)`: the heading's text
      when it is a true string, else its image's alternative text. */
  function HeadingText(h: Node): (r: Option<string>)
    ensures r.Some? ==> Truthy(r.value)
    ensures r.None? <==> !Truthy(TextContent(h)) && AltText(h).None?
  {
    if Truthy(TextContent(h)) then Some(TextContent(h)) else AltText(h)
  }

  /** The element an 'empty heading' notice names: the heading's own tag when
      it initiates its section or is not the first descendant of its hgroup
      (`index` is its position among them, None outside an hgroup), else the
      section's element. */
  function EmptyName(hName: string, sectionName: string, index: Option<nat>): string
  {
    if hName == sectionName || (index.Some? && index.value > 0) then hName else sectionName
  }

  /** For a section whose first node initiates it, as every section a walk
      builds does (`WalkInitiators`), the 'empty heading' notice of the
      section's own heading names that heading exactly when it initiates the
      section. A level heading inside an hgroup never initiates a section, so
      its notice names it exactly when it is not the hgroup's first
      descendant. */
  lemma EmptyNameInitiator(section: Section, levelTag: string, index: nat)
    requires Initiated(section) && section.heading.Explicit?
    ensures EmptyName(TagName(section.heading.element), TagName(section.nodes[0]), None) ==
      if section.nodes[0] == section.heading.element then TagName(section.heading.element) else TagName(section.nodes[0])
    ensures TagName(section.heading.element) == "hgroup" && IsLevelTag(levelTag) ==>
      EmptyName(levelTag, TagName(section.nodes[0]), Some(index)) == if index > 0 then levelTag else TagName(section.nodes[0])
  {
    InitiatorName(section);
    if section.nodes[0] != section.heading.element {
      AnalyzeCategories(Some(section.nodes[0]));
    }
  }

  /** The heading's tag as shown: `&lt;H2&gt;`. */
  function Label(tag: string): (r: string)
    ensures |r| == |tag| + 8 && r[4..|tag| + 4] == Upper(tag)
  {
    "&lt;" + Upper(tag) + "&gt;"
  }

  /** `wrap_heading_name_and_text`: the heading's tag label in bold, then its
      text in a span, or an 'empty heading' notice in a span marked as a
      notice when it has no text. */
  function NameAndText(h: Node, sectionName: string, index: Option<nat>): seq<Token> {
    var text := HeadingText(h);
    var shown := if text.Some? then text.value else Notice(EmptyName(TagName(h), sectionName, index), "empty");
    var textClass := if text.Some? then Ns + "-h-text" else Ns + "-h-text " + Ns + "-heading-notice";
    Wrap("b", Class(Ns + "-h-tag"), [Chars(Label(TagName(h)))])
    + [Chars("\n\t\t\t\t\t\t ")]
    + Wrap("span", Class(textClass), [Chars(shown)])
  }

  /** What a heading shows: its tag label, then its text, or when it has
      none a notice naming the element `EmptyName` chooses, marked by the
      notice class. */
  lemma NameAndTextShows(h: Node, sectionName: string, index: Option<nat>)
    ensures Render(NameAndText(h, sectionName, index)) ==
      StartTag("b", Class(Ns + "-h-tag")) + Label(TagName(h)) + EndTag("b") + "\n\t\t\t\t\t\t "
      + StartTag("span", Class(if HeadingText(h).Some? then Ns + "-h-text" else Ns + "-h-text " + Ns + "-heading-notice"))
      + (if HeadingText(h).Some? then HeadingText(h).value
         else Notice(EmptyName(TagName(h), sectionName, index), "empty"))
      + EndTag("span")
  {
    var text := HeadingText(h);
    var shown := if text.Some? then text.value else Notice(EmptyName(TagName(h), sectionName, index), "empty");
    var textClass := if text.Some? then Ns + "-h-text" else Ns + "-h-text " + Ns + "-heading-notice";
    var gap := "\n\t\t\t\t\t\t ";
    var b := Wrap("b", Class(Ns + "-h-tag"), [Chars(Label(TagName(h)))]);
    var span := Wrap("span", Class(textClass), [Chars(shown)]);
    RenderAppend(b + [Chars(gap)], span);
    RenderAppend(b, [Chars(gap)]);
    RenderWrap("b", Class(Ns + "-h-tag"), [Chars(Label(TagName(h)))]);
    RenderWrap("span", Class(textClass), [Chars(shown)]);
    RenderOne(Chars(Label(TagName(h))));
    RenderOne(Chars(shown));
    RenderOne(Chars(gap));
    var x := StartTag("b", Class(Ns + "-h-tag")) + Label(TagName(h)) + EndTag("b") + gap;
    var e, f, g := StartTag("span", Class(textClass)), shown, EndTag("span");
    assert Render(NameAndText(h, sectionName, index)) == x + (e + f + g);
    Regroup(x, e, f, g);
  }

  lemma Regroup(x: string, e: string, f: string, g: string)
    ensures x + (e + f + g) == x + e + f + g
  {
  }

  lemma NameAndTextBalanced(h: Node, sectionName: string, index: Option<nat>)
    ensures Balanced(NameAndText(h, sectionName, index))
    ensures Count(NameAndText(h, sectionName, index), "li") == 0
  {
    var text := HeadingText(h);
    var shown := if text.Some? then text.value else Notice(EmptyName(TagName(h), sectionName, index), "empty");
    var textClass := if text.Some? then Ns + "-h-text" else Ns + "-h-text " + Ns + "-heading-notice";
    var b := Wrap("b", Class(Ns + "-h-tag"), [Chars(Label(TagName(h)))]);
    var span := Wrap("span", Class(textClass), [Chars(shown)]);
    BalancedChars(Label(TagName(h)));
    BalancedChars(shown);
    BalancedChars("\n\t\t\t\t\t\t ");
    BalancedWrap("b", Class(Ns + "-h-tag"), [Chars(Label(TagName(h)))]);
    BalancedWrap("span", Class(textClass), [Chars(shown)]);
    BalancedConcat(b, [Chars("\n\t\t\t\t\t\t ")]);
    BalancedConcat(b + [Chars("\n\t\t\t\t\t\t ")], span);
    CountChars(Label(TagName(h)), "li");
    CountChars(shown, "li");
    CountChars("\n\t\t\t\t\t\t ", "li");
    CountWrap("b", Class(Ns + "-h-tag"), [Chars(Label(TagName(h)))], "li");
    CountWrap("span", Class(textClass), [Chars(shown)], "li");
    CountAppend(b, [Chars("\n\t\t\t\t\t\t ")], "li");
    CountAppend(b + [Chars("\n\t\t\t\t\t\t ")], span, "li");
  }

  // ---------------------------------------------------------------------
  // Hgroups

  /** `preg_match('/^h[1-6]$/i', $tagName)`: h1 … h6 in either case; `$`
      also matches before a final newline. */
  predicate IsLevelTag(t: string) {
    (|t| == 2 || (|t| == 3 && t[2] == '\n')) && (t[0] == 'h' || t[0] == 'H') && '1' <= t[1] <= '6'
  }

  /** The positions of the h1 … h6 elements among `es`, in order. */
  function LevelIndices(es: seq<Node>): (r: seq<nat>)
    ensures forall k :: 0 <= k < |r| ==> r[k] < |es| && IsLevelTag(TagName(es[r[k]]))
    ensures forall k, m :: 0 <= k < m < |r| ==> r[k] < r[m]
    ensures forall j :: 0 <= j < |es| && IsLevelTag(TagName(es[j])) ==> j in r
    decreases |es|
  {
    if es == [] then []
    else
      var i := |es| - 1;
      LevelIndices(es[..i]) + (if IsLevelTag(TagName(es[i])) then [i] else [])
  }

  /** One heading of an hgroup, `i` being its position among the hgroup's
      descendants. */
  function HgroupPart(e: Node, sectionName: string, i: nat): seq<Token> {
    Wrap("p", Class(Ns + "-heading"), NameAndText(e, sectionName, Some(i)))
  }

  /** `$headings` once the loop has looked at the descendants `es`. */
  function HgroupParts(es: seq<Node>, sectionName: string): seq<seq<Token>>
    decreases |es|
  {
    if es == [] then []
    else
      var i := |es| - 1;
      HgroupParts(es[..i], sectionName) + (if IsLevelTag(TagName(es[i])) then [HgroupPart(es[i], sectionName, i)] else [])
  }

  /** An hgroup shows exactly its h1 … h6 descendants, in document order. */
  lemma {:induction false} HgroupPartsAreLevels(es: seq<Node>, sectionName: string)
    ensures |HgroupParts(es, sectionName)| == |LevelIndices(es)|
    ensures forall k :: 0 <= k < |LevelIndices(es)| ==>
      HgroupParts(es, sectionName)[k] == HgroupPart(es[LevelIndices(es)[k]], sectionName, LevelIndices(es)[k])
    decreases |es|
  {
    if es != [] {
      var i := |es| - 1;
      HgroupPartsAreLevels(es[..i], sectionName);
      var li := LevelIndices(es[..i]);
      forall k | 0 <= k < |li|
        ensures es[..i][li[k]] == es[li[k]]
      {
      }
    }
  }

  lemma {:induction false} HgroupPartsNested(es: seq<Node>, sectionName: string)
    ensures forall k :: 0 <= k < |HgroupParts(es, sectionName)| ==>
      Balanced(HgroupParts(es, sectionName)[k]) && Count(HgroupParts(es, sectionName)[k], "li") == 0
    decreases |es|
  {
    if es != [] {
      var i := |es| - 1;
      HgroupPartsNested(es[..i], sectionName);
      NameAndTextBalanced(es[i], sectionName, Some(i));
      BalancedWrap("p", Class(Ns + "-heading"), NameAndText(es[i], sectionName, Some(i)));
      CountWrap("p", Class(Ns + "-heading"), NameAndText(es[i], sectionName, Some(i)), "li");
    }
  }

  /** `implode`: the pieces with `glue` between neighbours. */
  function Implode(pieces: seq<string>, glue: string): string
    decreases |pieces|
  {
    if pieces == [] then ""
    else if |pieces| == 1 then pieces[0]
    else pieces[0] + glue + Implode(pieces[1..], glue)
  }

  /** The markup of the pieces with `sep` between neighbours. */
  function Join(parts: seq<seq<Token>>, sep: seq<Token>): seq<Token>
    decreases |parts|
  {
    if parts == [] then []
    else if |parts| == 1 then parts[0]
    else parts[0] + sep + Join(parts[1..], sep)
  }

  function RenderEach(parts: seq<seq<Token>>): (r: seq<string>)
    ensures |r| == |parts| && forall k :: 0 <= k < |parts| ==> r[k] == Render(parts[k])
  {
    seq(|parts|, k requires 0 <= k < |parts| => Render(parts[k]))
  }

  lemma {:induction false} RenderJoin(parts: seq<seq<Token>>, sep: seq<Token>)
    ensures Render(Join(parts, sep)) == Implode(RenderEach(parts), Render(sep))
    decreases |parts|
  {
    if |parts| > 1 {
      RenderJoin(parts[1..], sep);
      assert RenderEach(parts)[1..] == RenderEach(parts[1..]);
      RenderAppend(parts[0] + sep, Join(parts[1..], sep));
      RenderAppend(parts[0], sep);
    }
  }

  lemma {:induction false} JoinNested(parts: seq<seq<Token>>, sep: seq<Token>)
    requires Balanced(sep) && Count(sep, "li") == 0
    requires forall k :: 0 <= k < |parts| ==> Balanced(parts[k]) && Count(parts[k], "li") == 0
    ensures Balanced(Join(parts, sep)) && Count(Join(parts, sep), "li") == 0
    decreases |parts|
  {
    if |parts| > 1 {
      JoinNested(parts[1..], sep);
      BalancedConcat(parts[0], sep);
      BalancedConcat(parts[0] + sep, Join(parts[1..], sep));
      CountAppend(parts[0], sep, "li");
      CountAppend(parts[0] + sep, Join(parts[1..], sep), "li");
    }
  }

  /** The glue between the headings of an hgroup, ` <b>:</b> `. */
  const Separator: seq<Token> := [Chars(" ")] + Wrap("b", "", [Chars(":")]) + [Chars(" ")]

  lemma SeparatorNested()
    ensures Render(Separator) == " <b>:</b> "
    ensures Balanced(Separator) && Count(Separator, "li") == 0
  {
    var b := Wrap("b", "", [Chars(":")]);
    RenderAppend([Chars(" ")] + b, [Chars(" ")]);
    RenderAppend([Chars(" ")], b);
    RenderWrap("b", "", [Chars(":")]);
    RenderOne(Chars(":"));
    RenderOne(Chars(" "));
    BalancedChars(" ");
    BalancedChars(":");
    BalancedWrap("b", "", [Chars(":")]);
    BalancedConcat([Chars(" ")], b);
    BalancedConcat([Chars(" ")] + b, [Chars(" ")]);
    CountChars(" ", "li");
    CountChars(":", "li");
    CountWrap("b", "", [Chars(":")], "li");
    CountAppend([Chars(" ")], b, "li");
    CountAppend([Chars(" ")] + b, [Chars(" ")], "li");
  }

  /** The hgroup branch of `wrap_section_heading`: the hgroup's h1 … h6
      descendants joined by the separator, in a `div` closed by `</div>`. */
  function HgroupTokens(h: Node, sectionName: string): seq<Token> {
    Wrap("div", Class(Ns + "-hgroup"), Join(HgroupParts(ElementsByTagName(h, "*"), sectionName), Separator))
  }

  /** The same markup as the formatter writes it, with the `div` closed by
      `</p>`. */
  function HgroupTokensAsWritten(h: Node, sectionName: string): seq<Token> {
    [Start("div", Class(Ns + "-hgroup"))] + Join(HgroupParts(ElementsByTagName(h, "*"), sectionName), Separator) + [End("p")]
  }

  lemma HgroupJoinNested(h: Node, sectionName: string)
    ensures Balanced(Join(HgroupParts(ElementsByTagName(h, "*"), sectionName), Separator))
    ensures Count(Join(HgroupParts(ElementsByTagName(h, "*"), sectionName), Separator), "li") == 0
  {
    SeparatorNested();
    HgroupPartsNested(ElementsByTagName(h, "*"), sectionName);
    JoinNested(HgroupParts(ElementsByTagName(h, "*"), sectionName), Separator);
  }

  /** The hgroup markup as written leaves its `div` open. */
  lemma HgroupLeavesDivOpen(h: Node, sectionName: string)
    ensures !Balanced(HgroupTokensAsWritten(h, sectionName))
  {
    HgroupJoinNested(h, sectionName);
    UnbalancedMismatch("div", Class(Ns + "-hgroup"), Join(HgroupParts(ElementsByTagName(h, "*"), sectionName), Separator), "p");
  }

  /** Closed by `</div>`, the hgroup markup is well nested. */
  lemma HgroupNested(h: Node, sectionName: string)
    ensures Balanced(HgroupTokens(h, sectionName)) && Count(HgroupTokens(h, sectionName), "li") == 0
  {
    var inner := Join(HgroupParts(ElementsByTagName(h, "*"), sectionName), Separator);
    HgroupJoinNested(h, sectionName);
    BalancedWrap("div", Class(Ns + "-hgroup"), inner);
    CountWrap("div", Class(Ns + "-hgroup"), inner, "li");
  }

  lemma HgroupPartsStep(es: seq<Node>, i: nat, sectionName: string)
    requires i < |es|
    ensures HgroupParts(es[..i + 1], sectionName) ==
      HgroupParts(es[..i], sectionName) + (if IsLevelTag(TagName(es[i])) then [HgroupPart(es[i], sectionName, i)] else [])
  {
    assert es[..i + 1][..i] == es[..i];
  }

  lemma RenderEachAppend(a: seq<seq<Token>>, b: seq<seq<Token>>)
    ensures RenderEach(a + b) == RenderEach(a) + RenderEach(b)
  {
  }

  /** Collecting one more descendant of the hgroup. */
  lemma HgroupCollect(es: seq<Node>, i: nat, sectionName: string, headings: seq<string>)
    requires i < |es| && headings == RenderEach(HgroupParts(es[..i], sectionName))
    ensures IsLevelTag(TagName(es[i])) ==>
      headings + [StartTag("p", Class(Ns + "-heading")) + Render(NameAndText(es[i], sectionName, Some(i))) + EndTag("p")]
      == RenderEach(HgroupParts(es[..i + 1], sectionName))
    ensures !IsLevelTag(TagName(es[i])) ==> headings == RenderEach(HgroupParts(es[..i + 1], sectionName))
  {
    HgroupPartsStep(es, i, sectionName);
    if IsLevelTag(TagName(es[i])) {
      RenderWrap("p", Class(Ns + "-heading"), NameAndText(es[i], sectionName, Some(i)));
      RenderEachAppend(HgroupParts(es[..i], sectionName), [HgroupPart(es[i], sectionName, i)]);
    }
  }

  /** Joining the collected headings gives the hgroup markup. */
  lemma HgroupJoined(h: Node, sectionName: string, headings: seq<string>)
    requires headings == RenderEach(HgroupParts(ElementsByTagName(h, "*"), sectionName))
    ensures StartTag("div", Class(Ns + "-hgroup")) + Implode(headings, " <b>:</b> ") + EndTag("div")
      == Render(HgroupTokens(h, sectionName))
  {
    var parts := HgroupParts(ElementsByTagName(h, "*"), sectionName);
    SeparatorNested();
    RenderJoin(parts, Separator);
    RenderWrap("div", Class(Ns + "-hgroup"), Join(parts, Separator));
  }

  /** The `for` loop of the hgroup branch of `wrap_section_heading`, which
      collects the h1 … h6 descendants and joins them. */
  method HgroupHeadings(h: Node, sectionName: string) returns (r: string)
    ensures r == Render(HgroupTokens(h, sectionName))
  {
    var elements := ElementsByTagName(h, "*");
    var headings: seq<string> := [];
    for i := 0 to |elements|
      invariant headings == RenderEach(HgroupParts(elements[..i], sectionName))
    {
      var element := elements[i];
      HgroupCollect(elements, i, sectionName, headings);
      if IsLevelTag(TagName(element)) {
        headings := headings + [StartTag("p", Class(Ns + "-heading")) + Render(NameAndText(element, sectionName, Some(i))) + EndTag("p")];
      }
    }
    assert elements[..|elements|] == elements;
    HgroupJoined(h, sectionName, headings);
    r := StartTag("div", Class(Ns + "-hgroup")) + Implode(headings, " <b>:</b> ") + EndTag("div");
  }

  // ---------------------------------------------------------------------
  // Section headings

  /** `wrap_section_heading`: an implied heading as a notice naming the
      element that initiates the section, an hgroup as its h1 … h6
      descendants, any other heading as its label and text. */
  function SectionHeading(section: Section): seq<Token>
    requires |section.nodes| >= 1 && !section.heading.Unset?
  {
    var sectionName := TagName(section.nodes[0]);
    if section.heading.Implied? then
      Wrap("p", Class(Ns + "-heading-notice"), [Chars(Notice(sectionName, "implied"))])
    else if TagName(section.heading.element) == "hgroup" then
      HgroupTokens(section.heading.element, sectionName)
    else
      Wrap("p", Class(Ns + "-heading"), NameAndText(section.heading.element, sectionName, None))
  }

  /** A section with an implied heading shows "[T element with no heading]",
      T being the tag of the element that initiates it. */
  lemma ImpliedHeadingShows(section: Section)
    requires |section.nodes| >= 1 && section.heading.Implied?
    ensures Render(SectionHeading(section)) ==
      StartTag("p", Class(Ns + "-heading-notice")) + "[" + TagName(section.nodes[0]) + " element with no heading]" + EndTag("p")
  {
    var notice := Notice(TagName(section.nodes[0]), "implied");
    RenderWrap("p", Class(Ns + "-heading-notice"), [Chars(notice)]);
    RenderOne(Chars(notice));
    Regroup3(StartTag("p", Class(Ns + "-heading-notice")), "[", TagName(section.nodes[0]), " element with no heading]");
  }

  lemma Regroup3(x: string, a: string, b: string, c: string)
    ensures x + (a + b + c) == x + a + b + c
  {
  }

  lemma SectionHeadingNested(section: Section)
    requires |section.nodes| >= 1 && !section.heading.Unset?
    ensures Balanced(SectionHeading(section)) && Count(SectionHeading(section), "li") == 0
  {
    var sectionName := TagName(section.nodes[0]);
    if section.heading.Implied? {
      var notice := Notice(sectionName, "implied");
      BalancedChars(notice);
      BalancedWrap("p", Class(Ns + "-heading-notice"), [Chars(notice)]);
      CountChars(notice, "li");
      CountWrap("p", Class(Ns + "-heading-notice"), [Chars(notice)], "li");
    } else if TagName(section.heading.element) == "hgroup" {
      HgroupNested(section.heading.element, sectionName);
    } else {
      var inner := NameAndText(section.heading.element, sectionName, None);
      NameAndTextBalanced(section.heading.element, sectionName, None);
      BalancedWrap("p", Class(Ns + "-heading"), inner);
      CountWrap("p", Class(Ns + "-heading"), inner, "li");
    }
  }

  /** `wrap_section_heading`, the method holding the hgroup loop. */
  method WrapSectionHeading(section: Section) returns (r: string)
    requires |section.nodes| >= 1 && !section.heading.Unset?
    ensures r == Render(SectionHeading(section))
  {
    var heading := section.heading;
    var sectionName := TagName(section.nodes[0]);
    if heading.Implied? {
      var notice := Notice(sectionName, "implied");
      RenderWrap("p", Class(Ns + "-heading-notice"), [Chars(notice)]);
      RenderOne(Chars(notice));
      r := StartTag("p", Class(Ns + "-heading-notice")) + notice + EndTag("p");
    } else if "hgroup" == TagName(heading.element) {
      r := HgroupHeadings(heading.element, sectionName);
    } else {
      RenderWrap("p", Class(Ns + "-heading"), NameAndText(heading.element, sectionName, None));
      r := StartTag("p", Class(Ns + "-heading")) + Render(NameAndText(heading.element, sectionName, None)) + EndTag("p");
    }
  }

  // ---------------------------------------------------------------------
  // Lists of sections

  /** The item template of a section with subsections, up to its heading: an
      open `details` element whose `summary` holds the heading. */
  const DetailsOpen: seq<Token> := [
    Start("li", ""), Chars("\n\t\t\t\t\t\t\t\t     "),
    Start("details", Class(Ns + "-subsections") + " open"), Chars(" \n\t\t\t\t\t\t\t\t\t   "),
    Start("summary", Class(Ns + "-parent-heading-container")), Chars(" \n\t\t\t\t\t\t\t\t\t     ")]

  /** The template between the heading and the nested list. */
  const SummaryClose: seq<Token> := [
    Chars("\n\t\t\t\t\t\t\t\t\t   "), End("summary"), Chars("\n\t\t\t\t\t\t\t\t\t   ")]

  /** The template after the nested list. */
  const DetailsClose: seq<Token> := [
    Chars("\n\t\t\t\t\t\t\t\t\t "), End("details"), Chars("\n\t\t\t\t\t\t\t\t   "), End("li")]

  /** The list item of a section with subsections. */
  function DetailsItem(heading: seq<Token>, nested: seq<Token>): seq<Token> {
    DetailsOpen + heading + SummaryClose + nested + DetailsClose
  }

  lemma DetailsOpenScans()
    ensures Scan(DetailsOpen, []) == Some(["li", "details", "summary"])
    ensures Count(DetailsOpen, "li") == 1
  {
    var d := DetailsOpen;
    var o1, o2, o3 := ["li"], ["li", "details"], ["li", "details", "summary"];
    assert [] + ["li"] == o1 && o1 + ["details"] == o2 && o2 + ["summary"] == o3;
    assert Scan(d[6..], o3) == Some(o3);
    assert Scan(d[5..], o3) == Some(o3);
    assert Scan(d[4..], o2) == Some(o3);
    assert Scan(d[3..], o2) == Some(o3);
    assert Scan(d[2..], o1) == Some(o3);
    assert Scan(d[1..], o1) == Some(o3);
    assert Count(d[6..], "li") == 0;
    assert Count(d[5..], "li") == 0;
    assert Count(d[4..], "li") == 0;
    assert Count(d[3..], "li") == 0;
    assert Count(d[2..], "li") == 0;
    assert Count(d[1..], "li") == 0;
  }

  lemma SummaryCloseScans()
    ensures Scan(SummaryClose, ["li", "details", "summary"]) == Some(["li", "details"])
    ensures Count(SummaryClose, "li") == 0
  {
    var d := SummaryClose;
    var o2, o3 := ["li", "details"], ["li", "details", "summary"];
    assert o3[..2] == o2;
    assert Scan(d[3..], o2) == Some(o2);
    assert Scan(d[2..], o2) == Some(o2);
    assert Scan(d[1..], o3) == Some(o2);
    assert Count(d[3..], "li") == 0;
    assert Count(d[2..], "li") == 0;
    assert Count(d[1..], "li") == 0;
  }

  lemma DetailsCloseScans()
    ensures Scan(DetailsClose, ["li", "details"]) == Some([])
    ensures Count(DetailsClose, "li") == 0
  {
    var d := DetailsClose;
    var o1, o2 := ["li"], ["li", "details"];
    assert o2[..1] == o1 && o1[..0] == [];
    assert Scan(d[4..], []) == Some([]);
    assert Scan(d[3..], o1) == Some([]);
    assert Scan(d[2..], o1) == Some([]);
    assert Scan(d[1..], o2) == Some([]);
    assert Count(d[4..], "li") == 0;
    assert Count(d[3..], "li") == 0;
    assert Count(d[2..], "li") == 0;
    assert Count(d[1..], "li") == 0;
  }

  /** A section with subsections is one well-nested list item around its
      heading and the nested list. */
  lemma DetailsItemNested(heading: seq<Token>, nested: seq<Token>)
    requires Balanced(heading) && Balanced(nested)
    ensures Balanced(DetailsItem(heading, nested))
    ensures Count(DetailsItem(heading, nested), "li") == 1 + Count(heading, "li") + Count(nested, "li")
  {
    var o3, o2 := ["li", "details", "summary"], ["li", "details"];
    DetailsOpenScans();
    SummaryCloseScans();
    DetailsCloseScans();
    ScanAppend(DetailsOpen, heading, []);
    ScanExtend(heading, o3, []);
    assert o3 + [] == o3 && o2 + [] == o2;
    ScanAppend(DetailsOpen + heading, SummaryClose, []);
    ScanAppend(DetailsOpen + heading + SummaryClose, nested, []);
    ScanExtend(nested, o2, []);
    ScanAppend(DetailsOpen + heading + SummaryClose + nested, DetailsClose, []);
    CountAppend(DetailsOpen, heading, "li");
    CountAppend(DetailsOpen + heading, SummaryClose, "li");
    CountAppend(DetailsOpen + heading + SummaryClose, nested, "li");
    CountAppend(DetailsOpen + heading + SummaryClose + nested, DetailsClose, "li");
  }

  lemma DetailsItemRender(heading: seq<Token>, nested: seq<Token>)
    ensures Render(DetailsItem(heading, nested)) ==
      Render(DetailsOpen) + Render(heading) + Render(SummaryClose) + Render(nested) + Render(DetailsClose)
  {
    RenderAppend(DetailsOpen, heading);
    RenderAppend(DetailsOpen + heading, SummaryClose);
    RenderAppend(DetailsOpen + heading + SummaryClose, nested);
    RenderAppend(DetailsOpen + heading + SummaryClose + nested, DetailsClose);
  }

  /** The outline can be shown: its sections are linked consistently and
      every heading is set (explicit or implied). */
  ghost predicate Renderable(secs: seq<Section>) {
    WellFormed(secs) && forall x :: 0 <= x < |secs| ==> !secs[x].heading.Unset?
  }

  /** Every section id in `ids` lies in [lo, n). */
  predicate Within(ids: seq<nat>, lo: nat, n: nat) {
    forall i :: 0 <= i < |ids| ==> lo <= ids[i] < n
  }

  /** The list item of section `id`: its heading, and when it has
      subsections the nested list of them. */
  function ItemTokens(secs: seq<Section>, id: nat): seq<Token>
    requires Renderable(secs) && id < |secs|
    decreases |secs| - id, 0, 0
  {
    assert SectionWellFormed(secs, id);
    if secs[id].subs == [] then Wrap("li", "", SectionHeading(secs[id]))
    else DetailsItem(SectionHeading(secs[id]), ListTokens(secs, secs[id].subs, id + 1))
  }

  /** The items of the sections `ids`, in order. Each id is at least `lo`,
      which bounds the nesting. */
  function ItemsTokens(secs: seq<Section>, ids: seq<nat>, lo: nat): seq<Token>
    requires Renderable(secs) && Within(ids, lo, |secs|)
    decreases |secs| - lo, 1, |ids|
  {
    if ids == [] then [] else ItemsTokens(secs, ids[..|ids| - 1], lo) + ItemTokens(secs, ids[|ids| - 1])
  }

  /** `list_headings`: an ordered list of the sections `ids`. */
  function ListTokens(secs: seq<Section>, ids: seq<nat>, lo: nat): seq<Token>
    requires Renderable(secs) && Within(ids, lo, |secs|)
    decreases |secs| - lo, 2, 0
  {
    Wrap("ol", "", ItemsTokens(secs, ids, lo))
  }

  /** The sections `ids` and all the sections below them, each section before
      its subsections: the order in which the list shows them. */
  ghost function PreOrder(secs: seq<Section>, ids: seq<nat>, lo: nat): seq<nat>
    requires WellFormed(secs) && Within(ids, lo, |secs|)
    decreases |secs| - lo, 1, |ids|
  {
    if ids == [] then [] else PreOrder(secs, ids[..|ids| - 1], lo) + SubtreeOrder(secs, ids[|ids| - 1])
  }

  ghost function SubtreeOrder(secs: seq<Section>, id: nat): seq<nat>
    requires WellFormed(secs) && id < |secs|
    decreases |secs| - id, 0, 0
  {
    assert SectionWellFormed(secs, id);
    [id] + PreOrder(secs, secs[id].subs, id + 1)
  }

  /** A section's item is well nested and holds one list item per section
      of its subtree. */
  lemma {:induction false} ItemNested(secs: seq<Section>, id: nat)
    requires Renderable(secs) && id < |secs|
    ensures Balanced(ItemTokens(secs, id))
    ensures Count(ItemTokens(secs, id), "li") == |SubtreeOrder(secs, id)|
    decreases |secs| - id, 0, 0
  {
    assert SectionWellFormed(secs, id);
    var heading := SectionHeading(secs[id]);
    SectionHeadingNested(secs[id]);
    if secs[id].subs == [] {
      BalancedWrap("li", "", heading);
      CountWrap("li", "", heading, "li");
      assert PreOrder(secs, secs[id].subs, id + 1) == [];
    } else {
      ListNested(secs, secs[id].subs, id + 1);
      DetailsItemNested(heading, ListTokens(secs, secs[id].subs, id + 1));
    }
  }

  lemma {:induction false} ItemsNested(secs: seq<Section>, ids: seq<nat>, lo: nat)
    requires Renderable(secs) && Within(ids, lo, |secs|)
    ensures Balanced(ItemsTokens(secs, ids, lo))
    ensures Count(ItemsTokens(secs, ids, lo), "li") == |PreOrder(secs, ids, lo)|
    decreases |secs| - lo, 1, |ids|
  {
    if ids != [] {
      var last := ids[|ids| - 1];
      ItemsNested(secs, ids[..|ids| - 1], lo);
      ItemNested(secs, last);
      BalancedConcat(ItemsTokens(secs, ids[..|ids| - 1], lo), ItemTokens(secs, last));
      CountAppend(ItemsTokens(secs, ids[..|ids| - 1], lo), ItemTokens(secs, last), "li");
    }
  }

  /** The list of sections `ids` is well nested and holds one list item for
      each of them and for each section below them. */
  lemma {:induction false} ListNested(secs: seq<Section>, ids: seq<nat>, lo: nat)
    requires Renderable(secs) && Within(ids, lo, |secs|)
    ensures Balanced(ListTokens(secs, ids, lo))
    ensures Count(ListTokens(secs, ids, lo), "li") == |PreOrder(secs, ids, lo)|
    decreases |secs| - lo, 2, 0
  {
    ItemsNested(secs, ids, lo);
    BalancedWrap("ol", "", ItemsTokens(secs, ids, lo));
    CountWrap("ol", "", ItemsTokens(secs, ids, lo), "li");
  }

  /** Adding the item of one more section to the list built so far. */
  lemma ItemsStep(secs: seq<Section>, ids: seq<nat>, lo: nat, i: nat)
    requires Renderable(secs) && Within(ids, lo, |secs|) && i < |ids|
    ensures Render(ItemsTokens(secs, ids[..i + 1], lo)) == Render(ItemsTokens(secs, ids[..i], lo)) + Render(ItemTokens(secs, ids[i]))
  {
    assert ids[..i + 1][..i] == ids[..i];
    RenderAppend(ItemsTokens(secs, ids[..i], lo), ItemTokens(secs, ids[i]));
  }

  /** The item the loop body of `list_headings` builds for section `id`. */
  lemma ItemRender(secs: seq<Section>, id: nat, heading: string, nested: string)
    requires Renderable(secs) && id < |secs|
    requires SectionWellFormed(secs, id) && heading == Render(SectionHeading(secs[id]))
    requires secs[id].subs != [] ==> nested == Render(ListTokens(secs, secs[id].subs, id + 1))
    ensures secs[id].subs == [] ==> StartTag("li", "") + heading + EndTag("li") == Render(ItemTokens(secs, id))
    ensures secs[id].subs != [] ==>
      Render(DetailsOpen) + heading + Render(SummaryClose) + nested + Render(DetailsClose) == Render(ItemTokens(secs, id))
  {
    if secs[id].subs == [] {
      RenderWrap("li", "", SectionHeading(secs[id]));
    } else {
      DetailsItemRender(SectionHeading(secs[id]), ListTokens(secs, secs[id].subs, id + 1));
    }
  }

  /** `list_headings`: the `foreach` over the sections, recursing into the
      subsections of each section that has some. */
  method ListHeadings(secs: seq<Section>, ids: seq<nat>, ghost lo: nat) returns (r: string)
    requires Renderable(secs) && Within(ids, lo, |secs|)
    ensures r == Render(ListTokens(secs, ids, lo))
    decreases |secs| - lo
  {
    var list := "";
    for i := 0 to |ids|
      invariant list == Render(ItemsTokens(secs, ids[..i], lo))
    {
      var id := ids[i];
      assert SectionWellFormed(secs, id);
      var subs := secs[id].subs;
      var heading := WrapSectionHeading(secs[id]);
      var nested := "";
      var item;
      if subs == [] {
        item := StartTag("li", "") + heading + EndTag("li");
      } else {
        nested := ListHeadings(secs, subs, id + 1);
        item := Render(DetailsOpen) + heading + Render(SummaryClose) + nested + Render(DetailsClose);
      }
      ItemRender(secs, id, heading, nested);
      ItemsStep(secs, ids, lo, i);
      list := list + item;
    }
    assert ids[..|ids|] == ids;
    r := StartTag("ol", "") + list + EndTag("ol");
    RenderWrap("ol", "", ItemsTokens(secs, ids, lo));
  }

  /** `format`: the list of the outline's top-level sections. Its markup is
      well nested and holds one list item for each section of the outline. */
  method Format(secs: seq<Section>, outline: Outline) returns (r: string)
    requires Renderable(secs) && Within(outline.sections, 0, |secs|)
    ensures r == Render(ListTokens(secs, outline.sections, 0))
    ensures Balanced(ListTokens(secs, outline.sections, 0))
    ensures Count(ListTokens(secs, outline.sections, 0), "li") == |PreOrder(secs, outline.sections, 0)|
  {
    r := ListHeadings(secs, outline.sections, 0);
    ListNested(secs, outline.sections, 0);
  }

  /** After the walk from a sectioning root, the root's outline can be
      formatted. */
  lemma WalkFormats(root: Node) returns (t: State)
    requires UniqueIds(root) && IsSectioning(Analyze(Some(root)))
    ensures Run(Init, root) == Some(t) && |t.own| >= 1 && OwnersOK(t)
    ensures t.ols[t.own[0].outline.value].owner == root
    ensures Renderable(t.secs) && Within(t.ols[t.own[0].outline.value].sections, 0, |t.secs|)
  {
    t := WalkComplete(root);
  }
}
