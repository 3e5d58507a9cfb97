/**
 * The parsed document tree the outliner walks. The DOM API calls the source
 * makes (`firstChild`/`nextSibling`, `tagName`, `hasAttribute('hidden')`,
 * `getAttribute('alt')`, `nodeValue`, `getElementsByTagName`) are modelled as
 * fields of this datatype and as functions over it.
 */
module Dom {

  /** A node handle. `id` stands for the node's object identity. An element
      records whether it carries a `hidden` attribute, the value of its `alt`
      attribute ("" when absent) and its children in document order. */
  datatype Node =
    | Element(id: nat, tag: string, hidden: bool, alt: string, children: seq<Node>)
    | Text(id: nat, data: string)
    | Comment(id: nat, data: string)

  /** The identities of all nodes in the subtree rooted at `n`. */
  function Ids(n: Node): set<nat>
    decreases n
  {
    match n
    case Element(id, _, _, _, cs) => {id} + ForestIds(cs)
    case Text(id, _) => {id}
    case Comment(id, _) => {id}
  }

  function ForestIds(cs: seq<Node>): set<nat>
    decreases cs
  {
    if cs == [] then {} else Ids(cs[0]) + ForestIds(cs[1..])
  }

  /** No two nodes of the subtree share an identity, as in any DOM tree. */
  predicate UniqueIds(n: Node)
    decreases n
  {
    match n
    case Element(id, _, _, _, cs) => id !in ForestIds(cs) && ForestUnique(cs)
    case Text(_, _) => true
    case Comment(_, _) => true
  }

  predicate ForestUnique(cs: seq<Node>)
    decreases cs
  {
    cs == [] || (UniqueIds(cs[0]) && Ids(cs[0]) !! ForestIds(cs[1..]) && ForestUnique(cs[1..]))
  }

  lemma {:induction false} ForestMember(cs: seq<Node>, i: nat)
    requires i < |cs| && ForestUnique(cs)
    ensures UniqueIds(cs[i]) && Ids(cs[i]) <= ForestIds(cs)
    decreases cs
  {
    if i > 0 {
      ForestMember(cs[1..], i - 1);
    }
  }

  /** A child of an element with unique identities has unique identities, its
      identities are among its parent's, and the parent is not among them. */
  lemma ChildIds(n: Node, i: nat)
    requires n.Element? && i < |n.children| && UniqueIds(n)
    ensures UniqueIds(n.children[i])
    ensures Ids(n.children[i]) <= Ids(n) - {n.id}
  {
    ForestMember(n.children, i);
  }

  /** The nodes of the subtree in the order the walk finishes them: every
      node after all of its descendants, siblings in document order. */
  function PostOrder(n: Node): (r: seq<Node>)
    ensures |r| >= 1 && r[|r| - 1] == n
    decreases n
  {
    match n
    case Element(_, _, _, _, cs) => ForestPostOrder(cs) + [n]
    case Text(_, _) => [n]
    case Comment(_, _) => [n]
  }

  function ForestPostOrder(cs: seq<Node>): seq<Node>
    decreases cs
  {
    if cs == [] then [] else PostOrder(cs[0]) + ForestPostOrder(cs[1..])
  }

  /** Finishing one more sibling extends the post-order by that sibling's subtree. */
  lemma {:induction false} ForestPostOrderSnoc(cs: seq<Node>, i: nat)
    requires i < |cs|
    ensures ForestPostOrder(cs[..i + 1]) == ForestPostOrder(cs[..i]) + PostOrder(cs[i])
    decreases i
  {
    if i == 0 {
      assert cs[..1][1..] == [];
      assert cs[..0] == [];
    } else {
      ForestPostOrderSnoc(cs[1..], i - 1);
      assert cs[..i + 1][1..] == cs[1..][..i];
      assert cs[..i][1..] == cs[1..][..i - 1];
    }
  }

  lemma ForestPostOrderAll(cs: seq<Node>)
    ensures ForestPostOrder(cs[..|cs|]) == ForestPostOrder(cs)
  {
    assert cs[..|cs|] == cs;
  }

  /** The element descendants of `n` (not `n` itself) in document order. */
  function Descendants(n: Node): seq<Node>
    decreases n
  {
    if n.Element? then ForestElements(n.children) else []
  }

  function ForestElements(cs: seq<Node>): seq<Node>
    decreases cs
  {
    if cs == [] then []
    else (if cs[0].Element? then [cs[0]] + Descendants(cs[0]) else []) + ForestElements(cs[1..])
  }

  /** The elements of `es` whose tag is `name`, in order. */
  function WithTag(es: seq<Node>, name: string): (r: seq<Node>)
    ensures forall i :: 0 <= i < |r| ==> r[i] in es && r[i].Element? && r[i].tag == name
    ensures r == [] <==> forall i :: 0 <= i < |es| ==> !(es[i].Element? && es[i].tag == name)
  {
    if es == [] then []
    else if es[0].Element? && es[0].tag == name then [es[0]] + WithTag(es[1..], name)
    else WithTag(es[1..], name)
  }

  /** `getElementsByTagName`: the descendants with the given tag in document
      order; `*` selects every descendant element. */
  function ElementsByTagName(n: Node, name: string): seq<Node>
  {
    if name == "*" then Descendants(n) else WithTag(Descendants(n), name)
  }

  /** `nodeValue` of an element (its text content: the text of its
      descendants, comments excluded), or the data of a text or comment node. */
  function TextContent(n: Node): string
    decreases n
  {
    match n
    case Element(_, _, _, _, cs) => ForestText(cs)
    case Text(_, data) => data
    case Comment(_, data) => data
  }

  function ForestText(cs: seq<Node>): string
    decreases cs
  {
    if cs == [] then ""
    else (if cs[0].Comment? then "" else TextContent(cs[0])) + ForestText(cs[1..])
  }

  /** `strtoupper` on ASCII letters; other characters are kept. */
  function Upper(s: string): (r: string)
    ensures |r| == |s|
    ensures forall i :: 0 <= i < |s| ==> r[i] == if 'a' <= s[i] <= 'z' then (s[i] as int - 32) as char else s[i]
  {
    if s == [] then [] else [if 'a' <= s[0] <= 'z' then (s[0] as int - 32) as char else s[0]] + Upper(s[1..])
  }

  /** The `tagName` of a node; PHP reads a missing property as null, which
      prints as the empty string. */
  function TagName(n: Node): string {
    if n.Element? then n.tag else ""
  }
}
