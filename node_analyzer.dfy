/**
 * The node classifier: `Node_Analyzer::analyze` and its predicates. A node is
 * given the first category, in a fixed order, whose test it passes.
 */
module NodeAnalyzer {
  import opened Wrappers
  import opened Dom

  datatype Category = Hidden | Heading | SectioningRoot | SectioningContent

  /** The order in which `analyze` tries the categories. */
  const Order: seq<Category> := [Hidden, Heading, SectioningRoot, SectioningContent]

  /** The names matched by the pattern `h([1-6]|group)`. */
  const HeadingNames: seq<string> := ["h1", "h2", "h3", "h4", "h5", "h6", "hgroup"]

  /** The names matched by `(blockquote|body|details|fieldset|figure|td)`. */
  const SectioningRootNames: seq<string> := ["blockquote", "body", "details", "fieldset", "figure", "td"]

  /** The names matched by `(article|aside|nav|section)`. */
  const SectioningContentNames: seq<string> := ["article", "aside", "nav", "section"]

  /** `check_tag`: the pattern is anchored (`^…$`), so a tag passes exactly
      when it is one of the alternatives. */
  predicate CheckTag(e: Node, names: seq<string>)
    requires e.Element?
  {
    e.tag in names
  }

  predicate IsHidden(e: Node)
    requires e.Element?
  {
    e.hidden
  }

  predicate IsHeading(e: Node)
    requires e.Element?
  {
    CheckTag(e, HeadingNames)
  }

  predicate IsSectioningRoot(e: Node)
    requires e.Element?
  {
    CheckTag(e, SectioningRootNames)
  }

  predicate IsSectioningContent(e: Node)
    requires e.Element?
  {
    CheckTag(e, SectioningContentNames)
  }

  /** The test `analyze` runs for category `c` (the `is_{c}` dispatch). */
  predicate Passes(c: Category, e: Node)
    requires e.Element?
  {
    match c
    case Hidden => IsHidden(e)
    case Heading => IsHeading(e)
    case SectioningRoot => IsSectioningRoot(e)
    case SectioningContent => IsSectioningContent(e)
  }

  /** The first category of `cs` whose test `e` passes. */
  function FirstMatch(cs: seq<Category>, e: Node): (r: Option<Category>)
    requires e.Element?
    ensures r.Some? ==> r.value in cs && Passes(r.value, e)
    ensures r.None? <==> forall i :: 0 <= i < |cs| ==> !Passes(cs[i], e)
  {
    if cs == [] then None
    else if Passes(cs[0], e) then Some(cs[0])
    else FirstMatch(cs[1..], e)
  }

  /** First-match semantics: the result is the earliest passing category. */
  lemma {:induction false} FirstMatchIsEarliest(cs: seq<Category>, e: Node, i: nat)
    requires e.Element? && i < |cs| && Passes(cs[i], e)
    requires forall j :: 0 <= j < i ==> !Passes(cs[j], e)
    ensures FirstMatch(cs, e) == Some(cs[i])
    decreases i
  {
    if i > 0 {
      FirstMatchIsEarliest(cs[1..], e, i - 1);
    }
  }

  /** `analyze`: the category of a node; no category (PHP null) for a missing
      node (the top of an empty stack) and for text and comment nodes. */
  function Analyze(n: Option<Node>): (r: Option<Category>)
    ensures n.None? || !n.value.Element? ==> r.None?
    ensures r.Some? ==> Passes(r.value, n.value)
  {
    if n.Some? && n.value.Element? then FirstMatch(Order, n.value) else None
  }

  /** Each category is decided by the attribute and the tag alone: hidden
      first, then the three tag lists, which do not overlap. */
  lemma AnalyzeCategories(n: Option<Node>)
    ensures Analyze(n) == Some(Hidden) <==> n.Some? && n.value.Element? && n.value.hidden
    ensures Analyze(n) == Some(Heading) <==>
      n.Some? && n.value.Element? && !n.value.hidden && n.value.tag in HeadingNames
    ensures Analyze(n) == Some(SectioningRoot) <==>
      n.Some? && n.value.Element? && !n.value.hidden && n.value.tag in SectioningRootNames
    ensures Analyze(n) == Some(SectioningContent) <==>
      n.Some? && n.value.Element? && !n.value.hidden && n.value.tag in SectioningContentNames
  {
    if n.Some? && n.value.Element? {
      NamesDisjoint();
      FirstMatchOrder(n.value);
    }
  }

  /** No name is in two of the lists. */
  lemma NamesDisjoint()
    ensures forall t :: t in HeadingNames ==> t !in SectioningRootNames && t !in SectioningContentNames
    ensures forall t :: t in SectioningRootNames ==> t !in SectioningContentNames
  {
  }

  /** Unfolds the first-match search over the fixed order. */
  lemma FirstMatchOrder(e: Node)
    requires e.Element?
    ensures FirstMatch(Order, e) ==
      if IsHidden(e) then Some(Hidden)
      else if IsHeading(e) then Some(Heading)
      else if IsSectioningRoot(e) then Some(SectioningRoot)
      else if IsSectioningContent(e) then Some(SectioningContent)
      else None
  {
    var o1, o2, o3 := Order[1..], Order[2..], Order[3..];
    assert o1 == [Heading, SectioningRoot, SectioningContent] && o1[1..] == o2;
    assert o2 == [SectioningRoot, SectioningContent] && o2[1..] == o3;
    assert o3 == [SectioningContent] && o3[1..] == [];
    assert FirstMatch(o3, e) == if IsSectioningContent(e) then Some(SectioningContent) else None;
    assert FirstMatch(o2, e) == if IsSectioningRoot(e) then Some(SectioningRoot) else FirstMatch(o3, e);
    assert FirstMatch(o1, e) == if IsHeading(e) then Some(Heading) else FirstMatch(o2, e);
  }

  /** The category names form a partition: an element that is not hidden and
      whose tag is in none of the three lists gets no category. Names that only
      resemble a listed one are not matched. */
  lemma AnalyzeNone(n: Node)
    requires n.Element? && !n.hidden
    requires n.tag !in HeadingNames && n.tag !in SectioningRootNames && n.tag !in SectioningContentNames
    ensures Analyze(Some(n)) == None
  {
    AnalyzeCategories(Some(n));
  }

  lemma AnchoredMatch(id: nat, children: seq<Node>)
    ensures Analyze(Some(Element(id, "h7", false, "", children))) == None
    ensures Analyze(Some(Element(id, "header", false, "", children))) == None
    ensures Analyze(Some(Element(id, "sections", false, "", children))) == None
    ensures Analyze(Some(Element(id, "hgroup", false, "", children))) == Some(Heading)
  {
    AnalyzeNone(Element(id, "h7", false, "", children));
    AnalyzeNone(Element(id, "header", false, "", children));
    AnalyzeNone(Element(id, "sections", false, "", children));
    AnalyzeCategories(Some(Element(id, "hgroup", false, "", children)));
  }
}
