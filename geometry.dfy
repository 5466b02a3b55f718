/**
 * The geometry reader: a node's bounding rectangle in document coordinates.
 * Width and height are the largest of the border, client and scroll boxes;
 * top and left add up the offsets of the node and of every offset ancestor.
 */
module Geometry {
  import opened Wrappers
  import opened Dom

  datatype Rectangle = Rectangle(top: int, left: int, width: int, height: int)

  /** `Math.max` of three lengths. */
  function Max3(a: int, b: int, c: int): (m: int)
    ensures m >= a && m >= b && m >= c
    ensures m == a || m == b || m == c
  {
    if a >= b && a >= c then a else if b >= c then b else c
  }

  /** Sum of `offsetTop` over the nodes of `path`. */
  function OffsetTopSum(doc: Document, path: seq<NodeId>): int
    requires forall i :: 0 <= i < |path| ==> path[i] in doc.nodes
  {
    if path == [] then 0
    else OffsetTopSum(doc, path[..|path| - 1]) + doc.nodes[path[|path| - 1]].offsetTop
  }

  /** Sum of `offsetLeft` over the nodes of `path`. */
  function OffsetLeftSum(doc: Document, path: seq<NodeId>): int
    requires forall i :: 0 <= i < |path| ==> path[i] in doc.nodes
  {
    if path == [] then 0
    else OffsetLeftSum(doc, path[..|path| - 1]) + doc.nodes[path[|path| - 1]].offsetLeft
  }

  /** The rectangle the reader computes for node `n`. */
  function Measure(doc: Document, n: NodeId): (r: Rectangle)
    requires doc.Valid() && n in doc.nodes
    ensures var node := doc.nodes[n];
      && r.width >= node.offsetWidth && r.width >= node.clientWidth && r.width >= node.scrollWidth
      && (r.width == node.offsetWidth || r.width == node.clientWidth || r.width == node.scrollWidth)
      && r.height >= node.offsetHeight && r.height >= node.clientHeight && r.height >= node.scrollHeight
      && (r.height == node.offsetHeight || r.height == node.clientHeight || r.height == node.scrollHeight)
  {
    var node := doc.nodes[n];
    var chain := doc.OffsetChain(n);
    Rectangle(OffsetTopSum(doc, chain), OffsetLeftSum(doc, chain),
              Max3(node.offsetWidth, node.clientWidth, node.scrollWidth),
              Max3(node.offsetHeight, node.clientHeight, node.scrollHeight))
  }

  lemma {:induction false} OffsetSumsCons(doc: Document, n: NodeId, path: seq<NodeId>)
    requires n in doc.nodes
    requires forall i :: 0 <= i < |path| ==> path[i] in doc.nodes
    ensures OffsetTopSum(doc, [n] + path) == doc.nodes[n].offsetTop + OffsetTopSum(doc, path)
    ensures OffsetLeftSum(doc, [n] + path) == doc.nodes[n].offsetLeft + OffsetLeftSum(doc, path)
    decreases |path|
  {
    if path != [] {
      var front := path[..|path| - 1];
      assert ([n] + path)[..|path|] == [n] + front;
      OffsetSumsCons(doc, n, front);
    }
  }

  /**
   * Offsets compose along the chain: a node's document position is its own
   * offset from its offset parent plus that parent's document position.
   */
  lemma {:induction false} MeasureFromOffsetParent(doc: Document, n: NodeId)
    requires doc.Valid() && n in doc.offsetParent
    ensures doc.offsetParent[n] in doc.nodes
    ensures Measure(doc, n).top == doc.nodes[n].offsetTop + Measure(doc, doc.offsetParent[n]).top
    ensures Measure(doc, n).left == doc.nodes[n].offsetLeft + Measure(doc, doc.offsetParent[n]).left
  {
    var p := doc.offsetParent[n];
    assert doc.OffsetChain(n) == [n] + doc.OffsetChain(p);
    OffsetSumsCons(doc, n, doc.OffsetChain(p));
  }

  /**
   * `getRectangle`: None for a null node; otherwise the node's rectangle,
   * accumulating the offsets in a do-while over the offset-parent chain.
   */
  method GetRectangle(doc: Document, element: Option<NodeId>) returns (r: Option<Rectangle>)
    requires doc.Valid()
    requires element.Some? ==> element.value in doc.nodes
    ensures element.None? <==> r.None?
    ensures element.Some? ==> r == Some(Measure(doc, element.value))
  {
    if element.None? {
      return None;
    }
    var n := element.value;
    var node := doc.nodes[n];
    var width := Max3(node.offsetWidth, node.clientWidth, node.scrollWidth);
    var height := Max3(node.offsetHeight, node.clientHeight, node.scrollHeight);

    ghost var chain := doc.OffsetChain(n);
    ghost var i := 0;
    var top, left := 0, 0;
    var current := n;
    while true
      invariant 0 <= i < |chain| && chain[i] == current
      invariant top == OffsetTopSum(doc, chain[..i])
      invariant left == OffsetLeftSum(doc, chain[..i])
      decreases doc.rank[current]
    {
      assert chain[..i + 1][..i] == chain[..i];
      top := top + doc.nodes[current].offsetTop;
      left := left + doc.nodes[current].offsetLeft;
      if current !in doc.offsetParent {
        break;
      }
      current := doc.offsetParent[current];
      i := i + 1;
    }
    assert chain[..i + 1] == chain;
    return Some(Rectangle(top, left, width, height));
  }
}
