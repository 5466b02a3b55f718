/**
 * The host document as the engine sees it: a snapshot of every node's box
 * measurements and its two upward links, `parentElement` and `offsetParent`.
 * Both links lead strictly closer to the root, which a rank map witnesses, so
 * every upward walk ends.
 */
module Dom {

  type NodeId = nat

  /** The measurements and markers the engine reads from one element. */
  datatype Node = Node(
    offsetTop: int, offsetLeft: int,
    offsetWidth: int, clientWidth: int, scrollWidth: int,
    offsetHeight: int, clientHeight: int, scrollHeight: int,
    hasStickyContainerAttr: bool)

  /** An upward link whose every step strictly lowers the rank. */
  ghost predicate Descends(link: map<NodeId, NodeId>, rank: map<NodeId, nat>)
  {
    forall n :: n in link ==> n in rank && link[n] in rank && rank[link[n]] < rank[n]
  }

  /**
   * The node `n` followed by every node reached by following `link` from it,
   * up to the first node that has no link.
   */
  function Climb(link: map<NodeId, NodeId>, rank: map<NodeId, nat>, n: NodeId): (path: seq<NodeId>)
    requires Descends(link, rank) && n in rank
    ensures |path| >= 1 && path[0] == n
    ensures forall i :: 0 <= i < |path| - 1 ==> path[i] in link && link[path[i]] == path[i + 1]
    ensures path[|path| - 1] !in link
    ensures forall i :: 0 <= i < |path| ==> path[i] in rank
    ensures forall i :: 0 < i < |path| ==> rank[path[i]] < rank[n]
    ensures forall i :: 0 < i < |path| ==> path[i] in link.Values
    decreases rank[n]
  {
    if n in link then [n] + Climb(link, rank, link[n]) else [n]
  }

  /**
   * `querySelectorHits` holds the pairs (node, selector) for which
   * `node.querySelector(selector)` finds a descendant; selector matching
   * itself is not part of this model.
   */
  datatype Document = Document(
    nodes: map<NodeId, Node>,
    parentElement: map<NodeId, NodeId>,
    offsetParent: map<NodeId, NodeId>,
    rank: map<NodeId, nat>,
    querySelectorHits: set<(NodeId, string)>)
  {
    ghost predicate Valid()
    {
      && nodes.Keys <= rank.Keys
      && parentElement.Keys <= nodes.Keys && parentElement.Values <= nodes.Keys
      && offsetParent.Keys <= nodes.Keys && offsetParent.Values <= nodes.Keys
      && Descends(parentElement, rank)
      && Descends(offsetParent, rank)
    }

    /** `n` and all of its offset ancestors, nearest first. */
    function OffsetChain(n: NodeId): (chain: seq<NodeId>)
      requires Valid() && n in nodes
      ensures |chain| >= 1 && chain[0] == n
      ensures forall i :: 0 <= i < |chain| ==> chain[i] in nodes
    {
      Climb(offsetParent, rank, n)
    }

    /** `n` and all of its parent elements, nearest first. */
    function Ancestry(n: NodeId): (line: seq<NodeId>)
      requires Valid() && n in nodes
      ensures |line| >= 1 && line[0] == n
      ensures forall i :: 0 <= i < |line| ==> line[i] in nodes
    {
      Climb(parentElement, rank, n)
    }
  }
}
