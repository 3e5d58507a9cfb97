/**
 * Heading ranks: `get_rank` and `get_ranking_heading` of the outline
 * algorithm. Ranks are negated levels, so that h1 (rank -1) outranks h6
 * (rank -6) under the usual integer order.
 */
module HeadingRank {
  import opened Wrappers
  import opened Dom

  /** The tag of the heading element of level `k`: "h1" … "h6". */
  function LevelTag(k: nat): (t: string)
    requires 1 <= k <= 6
    ensures |t| == 2 && t[0] == 'h' && t[1] == ('0' as int + k) as char
  {
    "h" + [('0' as int + k) as char]
  }

  /** `substr($tagName, 1)` taken as a number: the level of h1 … h6. Any other
      tag that reaches `get_rank` is "hgroup", whose suffix "group" is not a
      number and gives rank 0, which the algorithm treats as no rank. */
  function Level(tag: string): (r: Option<nat>)
    ensures r.Some? ==> 1 <= r.value <= 6 && tag == LevelTag(r.value)
    ensures (exists k :: 1 <= k <= 6 && tag == LevelTag(k)) ==> r.Some?
  {
    if |tag| == 2 && tag[0] == 'h' && '1' <= tag[1] <= '6' then Some(tag[1] as int - '0' as int) else None
  }

  /** The first heading element of level `k` or above (weaker) among the
      descendants of `h`, scanning the levels in order. */
  function FirstFromLevel(h: Node, k: nat): Option<Node>
    requires 1 <= k <= 7
    decreases 7 - k
  {
    if k == 7 then None
    else
      var found := ElementsByTagName(h, LevelTag(k));
      if found != [] then Some(found[0]) else FirstFromLevel(h, k + 1)
  }

  /** The ranking heading of an hgroup: the first h1 descendant, else the
      first h2, …, else none. */
  function RankingHeading(h: Node): Option<Node> {
    FirstFromLevel(h, 1)
  }

  /** The element whose tag gives the rank: an hgroup's ranking heading when
      it has one, otherwise the element itself. */
  function RankedElement(h: Node): Node {
    if h.Element? && h.tag == "hgroup" then RankingHeading(h).GetOr(h) else h
  }

  /** The rank of a heading or hgroup element: `-1 * substr($tagName, 1)`,
      which is 0 (false) for an hgroup that holds no h1 … h6 element. */
  function Rank(h: Node): int {
    var e := RankedElement(h);
    var level := if e.Element? then Level(e.tag) else None;
    if level.Some? then 0 - level.value as int else 0
  }

  lemma {:induction false} FirstFromLevelFinds(h: Node, k: nat, j: nat)
    requires 1 <= k <= j <= 6
    requires ElementsByTagName(h, LevelTag(j)) != []
    requires forall l :: k <= l < j ==> ElementsByTagName(h, LevelTag(l)) == []
    ensures FirstFromLevel(h, k) == Some(ElementsByTagName(h, LevelTag(j))[0])
    decreases j - k
  {
    if k < j {
      FirstFromLevelFinds(h, k + 1, j);
    }
  }

  lemma {:induction false} FirstFromLevelNone(h: Node, k: nat)
    requires 1 <= k <= 7
    ensures FirstFromLevel(h, k).None? <==> forall l :: k <= l <= 6 ==> ElementsByTagName(h, LevelTag(l)) == []
    decreases 7 - k
  {
    if k < 7 {
      FirstFromLevelNone(h, k + 1);
    }
  }

  lemma {:induction false} FirstFromLevelIsHeading(h: Node, k: nat)
    requires 1 <= k <= 7
    ensures FirstFromLevel(h, k).Some? ==>
      var e := FirstFromLevel(h, k).value; e.Element? && Level(e.tag).Some? && k <= Level(e.tag).value
    decreases 7 - k
  {
    if k < 7 {
      var found := ElementsByTagName(h, LevelTag(k));
      if found == [] {
        FirstFromLevelIsHeading(h, k + 1);
      } else {
        assert found[0].tag == LevelTag(k);
      }
    }
  }

  /** h1 … h6 have ranks -1 … -6. */
  lemma RankOfLevel(h: Node, k: nat)
    requires 1 <= k <= 6 && h.Element? && h.tag == LevelTag(k)
    ensures Rank(h) == 0 - k as int
  {
  }

  /** Every rank is between -6 and -1, or 0 for no rank. */
  lemma RankBounds(h: Node)
    ensures -6 <= Rank(h) <= 0
  {
  }

  /** An hgroup has a rank exactly when it holds an h1 … h6 descendant. */
  lemma HgroupRank(h: Node)
    requires h.Element? && h.tag == "hgroup"
    ensures Rank(h) == 0 <==> forall l :: 1 <= l <= 6 ==> ElementsByTagName(h, LevelTag(l)) == []
  {
    FirstFromLevelNone(h, 1);
    FirstFromLevelIsHeading(h, 1);
    assert Level("hgroup").None?;
  }

  /** An hgroup takes the rank of the strongest heading level it holds. */
  lemma HgroupRankLevel(h: Node, j: nat)
    requires h.Element? && h.tag == "hgroup" && 1 <= j <= 6
    requires ElementsByTagName(h, LevelTag(j)) != []
    requires forall l :: 1 <= l < j ==> ElementsByTagName(h, LevelTag(l)) == []
    ensures Rank(h) == 0 - j as int
  {
    FirstFromLevelFinds(h, 1, j);
    var found := ElementsByTagName(h, LevelTag(j));
    assert found[0].tag == LevelTag(j);
    assert RankedElement(h) == found[0];
  }

  /** `get_ranking_heading`: scans the levels 1 to 6 and returns the first
      element found. */
  method GetRankingHeading(h: Node) returns (r: Option<Node>)
    ensures r == RankingHeading(h)
  {
    for k := 1 to 7
      invariant FirstFromLevel(h, k) == RankingHeading(h)
    {
      var found := ElementsByTagName(h, LevelTag(k));
      if |found| > 0 {
        return Some(found[0]);
      }
    }
    return None;
  }

  /** `get_rank`: the rank of a heading or hgroup element. */
  method GetRank(h: Node) returns (r: int)
    ensures r == Rank(h)
  {
    var e := h;
    if h.Element? && h.tag == "hgroup" {
      var ranking := GetRankingHeading(h);
      if ranking.Some? {
        e := ranking.value;
      }
    }
    var level := if e.Element? then Level(e.tag) else None;
    r := if level.Some? then 0 - level.value as int else 0;
  }
}
