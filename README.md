# HTML5 document outline, modelled in Dafny

This project models the core of WP HTML5 Outliner. The plugin computes the
outline of a web page with the HTML5 document outline algorithm and renders
it as nested lists.

The model has four parts:

- **The node classifier** (`Node_Analyzer`). It sorts an element into one of
  four categories: hidden, heading, sectioning root or sectioning content.
  Hidden comes first, then the three tag lists.
- **The entities** of the algorithm: `Section`, `Owner` and `Outline`. They
  point at each other (a section's parent, its subsections, an owner's parent
  section and outline). So each kind lives in an arena class and is addressed
  by index, and every setter of the source is a method that reassigns the
  arena's sequence.
- **The algorithm** (`Document_Outline_Algorithm`). It is a class with the
  source's three fields: the current outline owner, the current section and
  the stack. Its sections, owners and outlines are held in the three arenas.
  - Each private method of the source is a method of the class.
  - Each method is proved to compute a function on a snapshot of the state
    (`OutlineState`). That function returns `None` where the PHP code would
    fail, for example on a method call on null or on a rank that cannot be
    read. It also returns `None` in two states a walk never reaches where
    PHP would go on (`Resume` under a node entry, `Reenter` onto one of the
    sections it merges); both are listed under "Left out".
  - `OutlineInvariant` states the invariant of that state and proves it
    preserved by every step. The invariant covers the section links, the
    owners, the outlines, and the chain from the current section up to the
    top level.
  - `OutlineProof` proves that a walk from any sectioning element never
    fails. At its end the stack is empty, the root owns the outline, the
    links are consistent and every section has a heading.
- **The formatter** (`Outline_Formatter`). It turns an outline into nested
  `<ol>`/`<li>` markup.
  - The markup is specified as a sequence of tokens (start tag, end tag,
    text), and each method is proved to build exactly the rendering of those
    tokens.
  - The token sequence of an outline is proved to be properly nested and to
    hold as many `li` start tokens as the outline has sections (`|PreOrder|`).
    Heading text is emitted unescaped, so the rendered string is properly
    nested only when that text is free of markup.
  - One defect was found at `Outline_Formatter.php:130`; see "Findings".

Node identity (PHP object identity, `===` on nodes) is a node's `id`.
Distinct nodes of a tree have distinct ids.

## Model

| member | source | states |
|---|---|---|
| NodeAnalyzer.FirstMatch | classes/Node_Analyzer.php:33-46 | The category found is in the list and its test passes. None is returned exactly when no test passes. |
| NodeAnalyzer.FirstMatchIsEarliest | classes/Node_Analyzer.php:40-46 | The first category in the list whose test passes is the one returned. |
| NodeAnalyzer.Analyze | classes/Node_Analyzer.php:27-52 | A null or non-element node gets no category. A category returned is one whose test the element passes. |
| NodeAnalyzer.AnalyzeCategories | classes/Node_Analyzer.php:27-123 | Hidden iff the hidden attribute is present. Heading, sectioning root and sectioning content each iff the element is not hidden and its tag is in that list. |
| NodeAnalyzer.NamesDisjoint | classes/Node_Analyzer.php:76-108 | No tag name is in two of the three lists, so the categories do not compete. |
| NodeAnalyzer.FirstMatchOrder | classes/Node_Analyzer.php:31-46 | The categories are tried in the order hidden, heading, sectioning root, sectioning content. |
| NodeAnalyzer.AnalyzeNone | classes/Node_Analyzer.php:119-123 | A visible element whose tag is in no list gets no category. |
| NodeAnalyzer.AnchoredMatch | classes/Node_Analyzer.php:119-123 | The pattern is anchored: `h7`, `header` and `sections` are not matched, while `hgroup` is a heading. |
| Sections.WithSubsection | classes/Section.php:179-186 | `append_subsection`: the subsection is added last and its parent becomes the section. Every other section is unchanged. |
| Sections.Merge | classes/Document_Outline_Algorithm.php:372-382 | Appending each section of a list in order: the target gains them as its last subsections and becomes their parent. All other sections, and every heading and node list, stay as they were. |
| Sections.ImplyHeading | classes/Document_Outline_Algorithm.php:343-348 | Only the current section changes, and only when its heading is still unset: it becomes implied. |
| Sections.WellFormedAppend | classes/Section.php:74-82 | Adding a new section (one node, no subsections, no parent) keeps the links consistent. |
| Sections.WellFormedUpdate | classes/Section.php:130-155 | Changing a section's nodes or heading, but not its links, keeps the links consistent. |
| Sections.WellFormedWithSubsection | classes/Section.php:179-186 | Appending a later parentless section as a subsection keeps the links consistent. |
| Sections.WellFormedMerge | classes/Document_Outline_Algorithm.php:378-382 | Appending a list of later parentless sections keeps the links consistent. |
| Sections.SectionArena.constructor | classes/Section.php:74-82 | The arena starts empty. |
| Sections.SectionArena.NewSection | classes/Section.php:74-82 | The new section has exactly one node, the given heading, no subsections and no parent. It gets the next id. |
| Sections.SectionArena.AssociateNode | classes/Section.php:130-134 | The node is added at the end of the section's nodes, and the first node stays. |
| Sections.SectionArena.SetHeading | classes/Section.php:155-159 | Only that section's heading changes. |
| Sections.SectionArena.SetContainer | classes/Section.php:206-210 | Only that section's parent changes. |
| Sections.SectionArena.AppendSubsection | classes/Section.php:179-186 | The arena becomes `WithSubsection` of its old contents. |
| Sections.SectionArena.AppendSubsections | classes/Document_Outline_Algorithm.php:378-382 | The loop over the closed outline's sections leaves the arena as `Merge` of its old contents. |
| Owners.OwnerArena.constructor | classes/Owner.php:49-53 | The arena starts empty. |
| Owners.OwnerArena.NewOwner | classes/Owner.php:49-53 | The new owner holds the element and has no parent section and no outline yet. |
| Owners.OwnerArena.SetParentSection | classes/Owner.php:85-89 | Only the parent section changes; the element stays. |
| Owners.OwnerArena.SetOutline | classes/Owner.php:109-113 | Only the outline changes; the element stays. |
| Outlines.OutlineArena.constructor | classes/Document_Outline_Algorithm.php:323 | The arena starts empty. |
| Outlines.OutlineArena.NewOutline | classes/Document_Outline_Algorithm.php:323 | A new outline names its owner element and has exactly the one initial section. |
| Outlines.OutlineArena.AppendSection | classes/Document_Outline_Algorithm.php:416 | The section is added after the outline's existing top-level sections. |
| HeadingRank.LevelTag | classes/Document_Outline_Algorithm.php:518-520 | The name for level k is `h` followed by the digit k. |
| HeadingRank.Level | classes/Document_Outline_Algorithm.php:485 | A level is found exactly for the tags h1 … h6, and it is the tag's digit. |
| HeadingRank.FirstFromLevelFinds | classes/Document_Outline_Algorithm.php:515-530 | The search returns the first descendant of the highest level present. |
| HeadingRank.FirstFromLevelNone | classes/Document_Outline_Algorithm.php:515-530 | The search finds nothing exactly when no level from k to 6 has a descendant. |
| HeadingRank.FirstFromLevelIsHeading | classes/Document_Outline_Algorithm.php:515-530 | Whatever the search finds is a heading element of a level at least k. |
| HeadingRank.RankOfLevel | classes/Document_Outline_Algorithm.php:484-485 | An hN element has rank -N, so h1 outranks h6. |
| HeadingRank.RankBounds | classes/Document_Outline_Algorithm.php:470-487 | Every rank lies between -6 and 0. |
| HeadingRank.HgroupRank | classes/Document_Outline_Algorithm.php:472-485 | An hgroup has rank 0 (no rank) exactly when it contains no h1 … h6. |
| HeadingRank.HgroupRankLevel | classes/Document_Outline_Algorithm.php:472-485 | An hgroup ranks as its highest-level heading descendant. |
| HeadingRank.GetRankingHeading | classes/Document_Outline_Algorithm.php:515-530 | The loop over the levels returns the ranking heading. |
| HeadingRank.GetRank | classes/Document_Outline_Algorithm.php:470-487 | The method computes the rank. |
| OutlineState.Climb | classes/Document_Outline_Algorithm.php:426-451 | The section the ancestor climb finds is the candidate or one of its ancestors, has an explicit heading, and strictly outranks the new heading. |
| OutlineState.RunChildrenPrefix | classes/Document_Outline_Algorithm.php:98-104 | A walk over a node's children that completes also completes over any prefix of them. |
| OutlineInvariant.MergeValid | classes/Document_Outline_Algorithm.php:372-382 | Merging a closed outline into the resumed one keeps the links consistent. It leaves every earlier section other than the target unchanged and re-establishes the chain of the resumed outline. |
| OutlineInvariant.ClimbAlongChain | classes/Document_Outline_Algorithm.php:426-451 | From the current section, the climb follows the chain of parents. It stops at the first section that outranks the new heading, so it never runs past the top level. |
| OutlineInvariant.AssociatedOK | classes/Section.php:130-134 | Associating nodes with the current section keeps the invariant. No other section, outline or owner moves. |
| OutlineInvariant.SetExplicitOK | classes/Document_Outline_Algorithm.php:180-186 | Giving an unset current section its heading keeps the invariant. |
| OutlineInvariant.AddHeadingOK | classes/Document_Outline_Algorithm.php:392-453 | `add_heading_section` never fails on a valid state and keeps the invariant. Owners are unchanged. |
| OutlineInvariant.AddTopLevelOK | classes/Document_Outline_Algorithm.php:407-416 | When the last top-level heading is implied or does not outrank the new heading (`>=`), the new section goes to the top level and the invariant holds. |
| OutlineInvariant.AddSubsectionOK | classes/Document_Outline_Algorithm.php:418-451 | Otherwise the climb succeeds: the new section becomes a subsection of the first outranking ancestor (`<`), and the invariant holds. |
| OutlineInvariant.SameRankSiblings | classes/Document_Outline_Algorithm.php:407-451 | Two headings of equal rank in a row give two new sections, each current in turn, with the same parent. Either both are the last two top-level sections of the current outline, or both are the last two subsections of one earlier section. |
| OutlineInvariant.SubsectionTwice | classes/Document_Outline_Algorithm.php:418-451 | After a new subsection of `p`, a heading of the same rank climbs past the new section to `p` and becomes its next subsection; the outlines do not change. |
| OutlineInvariant.ImplyOK | classes/Document_Outline_Algorithm.php:343-348 | The implied heading keeps the invariant and leaves the outline's first section with a heading. |
| OutlineInvariant.OpenOK | classes/Document_Outline_Algorithm.php:283-325 | Entering a sectioning element never fails. It makes a new owner for the element, with the old section as parent section for a root only, and a new outline with one new section. The old owner is pushed; the old outlines and every other existing section are kept. |
| OutlineInvariant.CloseEmptyOK | classes/Document_Outline_Algorithm.php:343-354 | Closing with an empty stack only gives the current section an implied heading. |
| OutlineInvariant.CloseRootOK | classes/Document_Outline_Algorithm.php:356-364 | Closing a sectioning root pops the owner it was entered from and restores that owner's section. Sections change only by the implied heading. |
| OutlineInvariant.CloseContentOK | classes/Document_Outline_Algorithm.php:366-382 | Closing sectioning content pops the owner. The last top-level section of that owner's outline becomes current. Its subsections become its old ones followed by the closed outline's top-level sections, in order. Nothing else before the closed outline moves. |
| OutlineInvariant.ReenterOK | classes/Document_Outline_Algorithm.php:372-382 | Once its checks hold (an owner frame on top, the re-entry section in the arena, the closed sections mergeable into it), the re-entry step succeeds: the popped owner becomes the owner again and its last top-level section becomes current. What the merge does to that section is stated by CloseContentOK. |
| OutlineProof.RunUnderHeading | classes/Document_Outline_Algorithm.php:131-134 | Below a heading on top of the stack, walking a subtree changes nothing. |
| OutlineProof.RunUnderHidden | classes/Document_Outline_Algorithm.php:231-236 | Below a hidden element, walking a subtree only associates its nodes, in post-order, with the current section. |
| OutlineProof.HiddenNodeRun | classes/Document_Outline_Algorithm.php:140-147 | A hidden element is set aside. Its whole subtree, itself last, is associated with the current section. |
| OutlineProof.HeadingRun | classes/Document_Outline_Algorithm.php:159-194 | Walking a ranked heading never fails and keeps the invariant. |
| OutlineProof.HeadingEnter | classes/Document_Outline_Algorithm.php:173-194 | Entering a ranked heading pushes it on the stack and keeps the invariant. If the current section has no heading yet, only that section's heading changes, to this heading. Otherwise the step is exactly `add_heading_section` (AddHeading). |
| OutlineProof.HeadingExit | classes/Document_Outline_Algorithm.php:217-227 | Leaving a heading pops it and changes nothing else. Its children change nothing. |
| OutlineProof.RunOK | classes/Document_Outline_Algorithm.php:92-107 | From a state ready for a node, the walk of that node never fails and ends in a state that keeps the invariant. |
| OutlineProof.ChildrenOK | classes/Document_Outline_Algorithm.php:98-104 | Walking any number of a node's children never fails and keeps the invariant. |
| OutlineProof.WalkRootOK | classes/Document_Outline_Algorithm.php:356-364 | A nested sectioning root is walked without failing and keeps the invariant. Afterwards the outer owner and the section it was entered from are current again, and no earlier section has gained a subsection. |
| OutlineProof.WalkContentOK | classes/Document_Outline_Algorithm.php:366-382 | Nested sectioning content is walked without failing and keeps the invariant. The outer owner is current again with the stack as before. Nothing outside the outer outline moved, and headings are only ever set. The merge itself is stated by `OutlineInvariant.CloseContentOK`. |
| OutlineProof.WalkComplete | classes/Document_Outline_Algorithm.php:67-84 | The walk from a sectioning element completes with an empty stack. The root's owner is current and owns the outline, the links are consistent, and every section has a heading. |
| OutlineAlgorithm.DocumentOutlineAlgorithm.constructor | classes/Document_Outline_Algorithm.php:67-71 | The constructor's walk computes the walk function from the initial state, and the outcome is that of `WalkComplete`. |
| OutlineAlgorithm.DocumentOutlineAlgorithm.TheOutline | classes/Document_Outline_Algorithm.php:80-84 | The outline returned is the one owned by the current owner's element. |
| OutlineAlgorithm.DocumentOutlineAlgorithm.StackTop | classes/Document_Outline_Algorithm.php:260-273 | The top of the stack, with an owner entry read as its element. |
| OutlineAlgorithm.DocumentOutlineAlgorithm.Walk | classes/Document_Outline_Algorithm.php:92-107 | The recursive walk updates the fields exactly as the walk function does. |
| OutlineAlgorithm.DocumentOutlineAlgorithm.EnterNode | classes/Document_Outline_Algorithm.php:122-196 | The fields are updated exactly as `Enter` does. |
| OutlineAlgorithm.DocumentOutlineAlgorithm.ExitNode | classes/Document_Outline_Algorithm.php:210-252 | The fields are updated exactly as `Exit` does. |
| OutlineAlgorithm.DocumentOutlineAlgorithm.OpenSectioningOutline | classes/Document_Outline_Algorithm.php:283-325 | The fields are updated exactly as `Open` does. |
| OutlineAlgorithm.DocumentOutlineAlgorithm.CloseSectioningOutline | classes/Document_Outline_Algorithm.php:334-384 | The fields are updated exactly as `Close` does. |
| OutlineAlgorithm.DocumentOutlineAlgorithm.ReenterOwner | classes/Document_Outline_Algorithm.php:372-382 | The fields are updated exactly as `Reenter` does. |
| OutlineAlgorithm.DocumentOutlineAlgorithm.ImplyCurrentHeading | classes/Document_Outline_Algorithm.php:343-348 | The sections become `ImplyHeading` of the old ones. |
| OutlineAlgorithm.DocumentOutlineAlgorithm.AddHeadingSection | classes/Document_Outline_Algorithm.php:392-453 | The fields are updated exactly as `AddHeading` does. |
| OutlineFormatter.RenderAppend | classes/Outline_Formatter.php:40-73 | Rendering distributes over concatenation of markup. |
| OutlineFormatter.ScanExtend | classes/Outline_Formatter.php:40-73 | Elements left open around a piece of markup do not change how the piece nests. |
| OutlineFormatter.ScanAppend | classes/Outline_Formatter.php:40-73 | Nesting is checked piece by piece. |
| OutlineFormatter.BalancedConcat | classes/Outline_Formatter.php:44-69 | Two properly nested pieces concatenate to a properly nested piece. |
| OutlineFormatter.BalancedWrap | classes/Outline_Formatter.php:71 | Wrapping properly nested markup in an element keeps it properly nested. |
| OutlineFormatter.UnbalancedMismatch | classes/Outline_Formatter.php:130 | An element closed by an end tag of another name is not properly nested. |
| OutlineFormatter.CountAppend | classes/Outline_Formatter.php:44-69 | Counts of an element add up over concatenation. |
| OutlineFormatter.AltText | classes/Outline_Formatter.php:202-212 | An alt text returned is a true string, never "" or "0". |
| OutlineFormatter.AltTextFromFirstImage | classes/Outline_Formatter.php:204-208 | The alt text is that of the first img descendant, if it is a true string. No img gives nothing. |
| OutlineFormatter.HeadingText | classes/Outline_Formatter.php:159 | The text shown is true. Nothing is shown exactly when the text content is false and there is no alt text. |
| OutlineFormatter.EmptyNameInitiator | classes/Outline_Formatter.php:165-175 | For a section as a walk builds it (Initiated), the empty-heading notice names the heading's own tag exactly when the heading is the section's first node. Otherwise it names the tag of the sectioning element that opened the section. Inside an hgroup, it names the level tag when the index is above 0 and the section's element otherwise. |
| OutlineInitiators.InitiatorName | classes/Outline_Formatter.php:165-175 | For an initiated section with an explicit heading, the heading's tag equals the tag of the section's first node exactly when the heading is that node. |
| OutlineInitiators.RunInitiated | classes/Document_Outline_Algorithm.php:283-325 | A walk keeps every section initiated. Each section starts with a sectioning element (line 320) or with its own heading (lines 413 and 438). A heading is given only to a section that has none (line 183), and it is always a heading element. |
| OutlineInitiators.WalkInitiators | classes/Document_Outline_Algorithm.php:92-107 | After the walk from a sectioning root, every section is initiated. For each section with an explicit heading, the heading's tag equals the section's tag exactly when the heading opened the section. |
| OutlineFormatter.Label | classes/Outline_Formatter.php:180 | The label is the upper-cased tag between escaped angle brackets. |
| OutlineFormatter.NameAndTextShows | classes/Outline_Formatter.php:155-190 | A heading shows its tag label, then its text. When it has no text, it shows an "empty heading" notice marked by the notice class. |
| OutlineFormatter.NameAndTextBalanced | classes/Outline_Formatter.php:182-188 | The heading markup is properly nested and holds no list item. |
| OutlineFormatter.LevelIndices | classes/Outline_Formatter.php:108-117 | The positions found are exactly the h1 … h6 descendants (case-insensitive), in document order. |
| OutlineFormatter.HgroupPartsAreLevels | classes/Outline_Formatter.php:106-128 | `$headings` has one entry per h1 … h6 descendant, in order. Each entry is passed its position among all descendants. |
| OutlineFormatter.RenderJoin | classes/Outline_Formatter.php:131 | Rendering joined pieces is `implode` of the rendered pieces with the rendered separator. |
| OutlineFormatter.JoinNested | classes/Outline_Formatter.php:131 | Joining properly nested pieces with a properly nested separator stays properly nested. |
| OutlineFormatter.SeparatorNested | classes/Outline_Formatter.php:131 | The separator renders as ` <b>:</b> ` and is properly nested. |
| OutlineFormatter.HgroupLeavesDivOpen | classes/Outline_Formatter.php:130 | As written, the hgroup markup opens a `div` and closes a `p`, so it is never properly nested. |
| OutlineFormatter.HgroupNested | classes/Outline_Formatter.php:130-133 | With `</div>`, the hgroup markup is properly nested and holds no list item. |
| OutlineFormatter.HgroupHeadings | classes/Outline_Formatter.php:104-135 | The loop over the hgroup's descendants builds exactly the hgroup markup, with the closing tag corrected. |
| OutlineFormatter.ImpliedHeadingShows | classes/Outline_Formatter.php:94-101 | A section with an implied heading shows a notice paragraph, marked by the notice class, that reads `[T element with no heading]`, T being the tag of the element that initiates it. |
| OutlineFormatter.SectionHeadingNested | classes/Outline_Formatter.php:82-143 | Every kind of section heading markup, with the hgroup closing tag corrected (see Findings), is properly nested and holds no list item. |
| OutlineFormatter.WrapSectionHeading | classes/Outline_Formatter.php:82-143 | The method builds exactly the markup of the section's heading: an implied notice, an hgroup (with its closing tag corrected, see Findings) or a standard heading. |
| OutlineFormatter.DetailsItemNested | classes/Outline_Formatter.php:54-61 | A section with subsections gives one properly nested `li` holding its heading and nested list. |
| OutlineFormatter.ItemNested | classes/Outline_Formatter.php:44-67 | A section's list item is properly nested. It holds one `li` per section of its subtree. |
| OutlineFormatter.ListNested | classes/Outline_Formatter.php:40-73 | The list of a sequence of sections is properly nested. It holds one `li` per section reachable from them. |
| OutlineFormatter.ListHeadings | classes/Outline_Formatter.php:40-73 | The recursive loop builds exactly the nested list markup of the sections, with the hgroup closing tag corrected (see Findings). |
| OutlineFormatter.Format | classes/Outline_Formatter.php:27-31 | The outline's markup, with the hgroup closing tag corrected (see Findings), is the list of its top-level sections. Its token sequence is properly nested and holds as many `li` start tokens as the outline has sections (`|PreOrder|`). |
| OutlineFormatter.WalkFormats | classes/Document_Outline_Algorithm.php:67-84 | After a walk, the outline of the root can be formatted. Its sections exist, the links are consistent and every heading is set. |

## Left out

- The WordPress plugin around the core is not part of this model: `WP_HTML5_Outliner`, `Source_Loader`, `Document_Outline`, `HTML5_Outline`, the autoloader and the JavaScript. They deal with loading pages, hooks, HTML fetching and the admin UI.
- `Outline.php` is not part of this model. Its constructor and `append_section` are modelled from their uses at `Document_Outline_Algorithm.php:323` and `:416`, as the `Outlines.OutlineArena` class.
- DOM calls are fields of the `Dom.Node` datatype and functions over it: `tagName`, `hasAttribute('hidden')`, `getAttribute('alt')`, `nodeValue` as text content, `getElementsByTagName` in document order, and the child iteration.
- Getters (`get_nodes`, `get_heading`, `get_subsections`, `get_container`, `get_the_owner`, `get_parent_section`, `get_outline`, `get_sections`) are field reads of the arena entries.
- PHP failures, such as a method call on null, are the `None` results of the step functions. The class methods require their step to succeed. The constructor requires a sectioning root with distinct node identities, and for it every step is proved to succeed.
- OutlineState.AddHeading, OutlineState.Climb: return `None` in two places where PHP 7 reads the rank of a missing heading (`false`) as 0 (line 485). These are a last top-level section whose heading is still unset, and a climb candidate without an explicit heading. `OutlineInvariant.AddHeadingOK` and `OutlineInvariant.ClimbAlongChain` show that a walk never reaches either case, so on every state a walk reaches the model agrees with PHP 7, as it does everywhere else. `Climb` also gives `None` at a parent that does not come before its child, which `Sections.WellFormed` rules out.
- OutlineState.Resume: returns `None` when the stack top is a node entry rather than an owner. PHP would not fail in its sectioning-root branch (lines 356-364): it would restore the parent section and pop the node into the owner variable. A walk never reaches this. Only headings and hidden elements push node entries. While one of them is on top, `Exit` does not call `Close`, and the entry is popped when its node exits. `OutlineProof.RunOK` proves that no step of a walk returns `None`.
- `issue_heading_notice` is the transparent function `OutlineFormatter.Notice`. Its "no heading" wording is stated by `OutlineFormatter.ImpliedHeadingShows`; its "empty heading" wording is its definition, which `OutlineFormatter.NameAndTextShows` unfolds.
- OutlineState.Reenter: returns `None` when a closed top-level section is missing from the arena or is the re-entry section itself (`Mergeable`). PHP would not fail there: it would make that section a subsection of itself. `OutlineInvariant.ReenterValid` and `OutlineInvariant.CloseContentOK` establish `Mergeable` on every state a walk reaches.
- `OutlineAlgorithm.DocumentOutlineAlgorithm.constructor` requires its root to be a sectioning element. On any other root, the PHP code calls a method on a null section.
- An hgroup without h1 … h6 is classed as a heading, but `get_rank` reads "group" as 0. The model follows PHP 7, where that 0 makes `enter_node` treat the hgroup as content (line 173). PHP 8 would raise a TypeError.
- In the classifier's patterns (`check_tag`), `$` also matches before a final newline. The model matches whole names only, because DOM tag names hold no newline. The formatter's `/^h[1-6]$/i`, by contrast, is modelled with that newline.
- `__()` translation is the identity: notices are the English text.
- The formatter escapes nothing, as in the source: heading text and alt text are copied into the markup as they are.
- `$headings` in the hgroup branch is never initialised. With no level heading it would be null. In the model it is the empty list, which renders an empty `div`. A walk never gives an hgroup without a level heading as a section heading.
- OutlineFormatter.WrapSectionHeading, OutlineFormatter.ListHeadings, OutlineFormatter.Format, OutlineFormatter.HgroupHeadings: render an hgroup heading closed by `</div>`, not by the `</p>` of line 130; see Findings, where `OutlineFormatter.HgroupTokensAsWritten` keeps the markup as written.
- A section's `tagName` is read from a node. A non-element node would have none; the model uses "".

## Findings

| source | as written | input that shows it | evidently intended | confidence | as-written member | corrected member |
|---|---|---|---|---|---|---|
| classes/Outline_Formatter.php:130 | The hgroup markup opens `<div class="wph5o-hgroup">` and ends with `</p>` | Any section whose heading is an hgroup holding an h1 … h6 | Closing with `</div>` | high, not executed | OutlineFormatter.HgroupLeavesDivOpen | OutlineFormatter.HgroupNested |
