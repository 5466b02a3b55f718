/**
 * The container resolver: the nearest parent element at which the climb from
 * a sticky element stops.
 */
module Container {
  import opened Wrappers
  import opened Dom

  datatype ContainerError =
    | NoParent          // the element itself has no parent element: the resolver throws
    | DetachedAncestor  // the climb passed the root without stopping: the next test dereferences null

  /**
   * The three stop conditions: the node carries `data-sticky-container`, its
   * parent element has a descendant matching `selector`, or it is the body.
   */
  predicate IsStickyContainer(doc: Document, body: Option<NodeId>, selector: string, c: NodeId)
    requires doc.Valid() && c in doc.nodes
  {
    || doc.nodes[c].hasStickyContainerAttr
    || (c in doc.parentElement && (doc.parentElement[c], selector) in doc.querySelectorHits)
    || body == Some(c)
  }

  /** Some proper ancestor of `element` stops the climb. */
  ghost predicate HasStop(doc: Document, body: Option<NodeId>, selector: string, element: NodeId)
    requires doc.Valid() && element in doc.nodes
  {
    var line := doc.Ancestry(element);
    exists i :: 0 < i < |line| && IsStickyContainer(doc, body, selector, line[i])
  }

  /** `c` is the nearest proper ancestor of `element` that stops the climb. */
  ghost predicate FirstStop(doc: Document, body: Option<NodeId>, selector: string, element: NodeId, c: NodeId)
    requires doc.Valid() && element in doc.nodes
  {
    var line := doc.Ancestry(element);
    exists i :: 0 < i < |line| && line[i] == c
                && IsStickyContainer(doc, body, selector, line[i])
                && forall j :: 0 < j < i ==> !IsStickyContainer(doc, body, selector, line[j])
  }

  /** A parent that meets a stop condition is the container: the climb never passes it. */
  lemma ParentStops(doc: Document, body: Option<NodeId>, selector: string, element: NodeId)
    requires doc.Valid() && element in doc.nodes && element in doc.parentElement
    requires doc.parentElement[element] in doc.nodes
    requires IsStickyContainer(doc, body, selector, doc.parentElement[element])
    ensures FirstStop(doc, body, selector, element, doc.parentElement[element])
  {
    var line := doc.Ancestry(element);
    assert |line| > 1 && line[1] == doc.parentElement[element];
  }

  /** The nearest stopping ancestor is unique, so the container is determined by the document. */
  lemma FirstStopUnique(doc: Document, body: Option<NodeId>, selector: string, element: NodeId, c: NodeId, d: NodeId)
    requires doc.Valid() && element in doc.nodes
    requires FirstStop(doc, body, selector, element, c) && FirstStop(doc, body, selector, element, d)
    ensures c == d
  {
    var line := doc.Ancestry(element);
    var i :| 0 < i < |line| && line[i] == c && IsStickyContainer(doc, body, selector, line[i])
             && forall j :: 0 < j < i ==> !IsStickyContainer(doc, body, selector, line[j]);
    var k :| 0 < k < |line| && line[k] == d && IsStickyContainer(doc, body, selector, line[k])
             && forall j :: 0 < j < k ==> !IsStickyContainer(doc, body, selector, line[j]);
  }

  /**
   * `getStickyContainer`: climbs from the element's parent while none of the
   * stop conditions holds. The result is the first proper ancestor that stops
   * the climb; every ancestor passed on the way satisfies none of them.
   */
  method GetStickyContainer(doc: Document, body: Option<NodeId>, selector: string, element: NodeId)
    returns (r: Result<NodeId, ContainerError>)
    requires doc.Valid() && element in doc.nodes
    ensures var line := doc.Ancestry(element);
      && (r == Err(NoParent) <==> |line| == 1)
      && (r.Ok? <==> HasStop(doc, body, selector, element))
      && (r.Ok? ==> FirstStop(doc, body, selector, element, r.value))
      && (r == Err(DetachedAncestor) <==>
            |line| > 1 && forall j :: 0 < j < |line| ==> !IsStickyContainer(doc, body, selector, line[j]))
    ensures body.Some? && body.value in doc.Ancestry(element)[1..] ==> r.Ok?
  {
    if element !in doc.parentElement {
      return Err(NoParent);
    }
    ghost var line := doc.Ancestry(element);
    ghost var i := 1;
    var container := doc.parentElement[element];
    while !IsStickyContainer(doc, body, selector, container)
      invariant 0 < i < |line| && line[i] == container
      invariant forall j :: 0 < j < i ==> !IsStickyContainer(doc, body, selector, line[j])
      decreases doc.rank[container]
    {
      if container !in doc.parentElement {
        return Err(DetachedAncestor);
      }
      container := doc.parentElement[container];
      i := i + 1;
    }
    return Ok(container);
  }
}
