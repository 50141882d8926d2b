/**
 * The measured DOM fragment and the run extraction of src/app.tsx
 * (`getElementDetails`, `onlyHasTextChild`, `getNodeDetails` and the `flatMap` over child nodes).
 * The browser's measurements (bounding rectangles, computed font and colour) are data in the tree.
 */
module DomTree {
  import opened Results

  /** A `DOMRect`, in CSS pixels. */
  datatype Rect = Rect(left: real, top: real, right: real, bottom: real)

  /** A rectangle as `getBoundingClientRect` returns it: never of negative size. */
  predicate WellFormed(r: Rect)
  {
    r.left <= r.right && r.top <= r.bottom
  }

  /** The two computed-style properties the painter reads. */
  datatype ComputedStyle = ComputedStyle(font: string, color: string)

  /**
   * A node of the fragment. A text node carries its range-measured box and the computed style of
   * its parent element (`None` when it has no parent element); an element its own computed
   * style, its own box and its child nodes in document order.
   */
  datatype Node =
    | Text(content: string, box: Rect, parent: Option<ComputedStyle>)
    | Element(style: ComputedStyle, box: Rect, children: seq<Node>)

  /** The `type` tag of a run: `'text'` from a text node, `'span'` from an element. */
  datatype RunKind = TextRun | SpanRun

  /** One measured piece of text to paint. */
  datatype Run = Run(content: string, position: Rect, font: string, color: string, kind: RunKind)

  /** `childNodes.length`: a text node has none. */
  function ChildCount(n: Node): nat
  {
    if n.Text? then 0 else |n.children|
  }

  /**
   * `onlyHasTextChild`, as written: it tests the node's own type, not its child's, so it can only
   * hold of a text node and never of the element it is called on.
   */
  function OnlyHasTextChild(n: Node): (r: bool)
    ensures r ==> n.Text?
    ensures n.Element? ==> !r
  {
    if ChildCount(n) > 1 then false
    else if !n.Text? then false
    else true
  }

  /** `textContent`: the concatenated text of every text node below `n`. */
  function TextContent(n: Node): string
    decreases n
  {
    if n.Text? then n.content else TextContentOf(n.children)
  }

  function TextContentOf(cs: seq<Node>): string
    decreases cs
  {
    if cs == [] then [] else TextContent(cs[0]) + TextContentOf(cs[1..])
  }

  /** `getNodeDetails`: one run for a text node, styled like its parent; no parent throws. */
  function NodeDetails(n: Node): (r: Result<seq<Run>>)
    requires n.Text?
    ensures r.Ok? <==> n.parent.Some?
    ensures r.Err? ==> r.error == TextNodeWithoutParent
    ensures r.Ok? ==> r.value == [ExpectedRun(n)]
  {
    match n.parent
    case None => Err(TextNodeWithoutParent)
    case Some(style) => Ok([Run(n.content, n.box, style.font, style.color, TextRun)])
  }

  /**
   * `getElementDetails`: the runs of the children, or, were `onlyHasTextChild` to hold, one run
   * for the element as a whole.
   */
  function ElementDetails(e: Node): Result<seq<Run>>
    requires e.Element?
    decreases e, 0
  {
    if !OnlyHasTextChild(e) then FlatMapDetails(e.children)
    else Ok([Run(TextContent(e), e.box, e.style.font, e.style.color, SpanRun)])
  }

  /** Since `onlyHasTextChild` never holds of an element, an element's runs are its children's. */
  lemma ElementRunsAreChildRuns(e: Node)
    requires e.Element?
    ensures ElementDetails(e) == FlatMapDetails(e.children)
  {
  }

  /** The callback of each `flatMap`: text nodes go to `getNodeDetails`, all else to `getElementDetails`. */
  function Details(n: Node): Result<seq<Run>>
    decreases n, 1
  {
    if n.Text? then NodeDetails(n) else ElementDetails(n)
  }

  /** `flatMap` of `Details` over child nodes; the first exception propagates. */
  function FlatMapDetails(cs: seq<Node>): Result<seq<Run>>
    decreases cs
  {
    if cs == [] then Ok([]) else Concat(Details(cs[0]), FlatMapDetails(cs[1..]))
  }

  function Concat(a: Result<seq<Run>>, b: Result<seq<Run>>): Result<seq<Run>>
  {
    match a
    case Err(_) => a
    case Ok(x) => (match b case Err(_) => b case Ok(y) => Ok(x + y))
  }

  /** The runs `renderDomToCanvas` collects from the child nodes of the render root. */
  function RenderDetails(root: Node): Result<seq<Run>>
    requires root.Element?
  {
    FlatMapDetails(root.children)
  }

  // ---------------------------------------------------------------------------------------------
  // Reference definition: the text nodes of a tree in depth-first, left-to-right order.

  function Leaves(n: Node): (r: seq<Node>)
    ensures forall t :: t in r ==> t.Text?
    decreases n
  {
    if n.Text? then [n] else LeavesOf(n.children)
  }

  function LeavesOf(cs: seq<Node>): (r: seq<Node>)
    ensures forall t :: t in r ==> t.Text?
    decreases cs
  {
    if cs == [] then [] else Leaves(cs[0]) + LeavesOf(cs[1..])
  }

  /**
   * A fragment as the browser builds it: a text node directly under an element has that element
   * as its `parentElement`, so its parent style is the element's.
   */
  predicate Consistent(n: Node)
    decreases n
  {
    n.Element? ==> forall c :: c in n.children ==> (c.Text? ==> c.parent == Some(n.style)) && Consistent(c)
  }

  /** The run a parented text node should yield. */
  function ExpectedRun(t: Node): Run
    requires t.Text? && t.parent.Some?
  {
    Run(t.content, t.box, t.parent.value.font, t.parent.value.color, TextRun)
  }

  predicate AllParented(ts: seq<Node>)
  {
    forall i :: 0 <= i < |ts| ==> ts[i].Text? && ts[i].parent.Some?
  }

  lemma AllParentedAppend(a: seq<Node>, b: seq<Node>)
    requires AllParented(a) && AllParented(b)
    ensures AllParented(a + b)
  {
    forall i | 0 <= i < |a + b|
      ensures (a + b)[i].Text? && (a + b)[i].parent.Some?
    {
      if i >= |a| {
        assert (a + b)[i] == b[i - |a|];
      }
    }
  }

  /** In a consistent fragment every text node below an element has a parent element. */
  lemma {:induction false} ConsistentLeavesParented(cs: seq<Node>, style: ComputedStyle)
    requires forall c :: c in cs ==> (c.Text? ==> c.parent == Some(style)) && Consistent(c)
    ensures AllParented(LeavesOf(cs))
    decreases cs
  {
    if cs != [] {
      var head := cs[0];
      assert head in cs && Consistent(head);
      if head.Element? {
        ConsistentLeavesParented(head.children, head.style);
      }
      assert forall c :: c in cs[1..] ==> c in cs;
      ConsistentLeavesParented(cs[1..], style);
      AllParentedAppend(Leaves(head), LeavesOf(cs[1..]));
    }
  }

  /**
   * `res` is what extracting the text nodes `ts` should give: a failure exactly when one of them
   * has no parent element, and otherwise one run per text node, in order.
   */
  predicate Extracts(res: Result<seq<Run>>, ts: seq<Node>)
  {
    (res.Ok? <==> AllParented(ts)) &&
    (res.Err? ==> res.error == TextNodeWithoutParent) &&
    (res.Ok? ==> |res.value| == |ts| && forall i :: 0 <= i < |ts| ==> res.value[i] == ExpectedRun(ts[i]))
  }

  lemma ConcatExtracts(a: Result<seq<Run>>, ta: seq<Node>, b: Result<seq<Run>>, tb: seq<Node>)
    requires Extracts(a, ta) && Extracts(b, tb)
    ensures Extracts(Concat(a, b), ta + tb)
  {
    var ts := ta + tb;
    if AllParented(ts) {
      assert AllParented(ta) by { forall i | 0 <= i < |ta| ensures ta[i].Text? && ta[i].parent.Some? { assert ts[i] == ta[i]; } }
      assert AllParented(tb) by { forall i | 0 <= i < |tb| ensures tb[i].Text? && tb[i].parent.Some? { assert ts[|ta| + i] == tb[i]; } }
      var r := a.value + b.value;
      forall i | 0 <= i < |ts| ensures r[i] == ExpectedRun(ts[i]) {
        if i < |ta| { assert r[i] == a.value[i]; } else { assert r[i] == b.value[i - |ta|]; }
      }
    } else {
      var i :| 0 <= i < |ts| && !(ts[i].Text? && ts[i].parent.Some?);
      if i < |ta| { assert ta[i] == ts[i]; } else { assert tb[i - |ta|] == ts[i]; }
    }
  }

  lemma {:induction false} DetailsExtracts(n: Node)
    ensures Extracts(Details(n), Leaves(n))
    decreases n, 1
  {
    if n.Element? {
      assert Details(n) == FlatMapDetails(n.children);
      FlatMapExtracts(n.children);
    } else {
      assert Leaves(n) == [n] && Leaves(n)[0] == n;
    }
  }

  lemma {:induction false} FlatMapExtracts(cs: seq<Node>)
    ensures Extracts(FlatMapDetails(cs), LeavesOf(cs))
    decreases cs
  {
    if cs != [] {
      DetailsExtracts(cs[0]);
      FlatMapExtracts(cs[1..]);
      ConcatExtracts(Details(cs[0]), Leaves(cs[0]), FlatMapDetails(cs[1..]), LeavesOf(cs[1..]));
    }
  }

  /**
   * Extraction yields exactly one run per text node, in depth-first, left-to-right order, and
   * fails, never skips, when a text node has no parent element.
   */
  lemma RenderDetailsSpec(root: Node)
    requires root.Element?
    ensures Extracts(RenderDetails(root), LeavesOf(root.children))
  {
    FlatMapExtracts(root.children);
  }

  /** Since an element never passes `onlyHasTextChild`, every run comes from a text node. */
  lemma OnlyTextRuns(root: Node)
    requires root.Element? && RenderDetails(root).Ok?
    ensures forall r :: r in RenderDetails(root).value ==> r.kind == TextRun
  {
    RenderDetailsSpec(root);
    var rs, ts := RenderDetails(root).value, LeavesOf(root.children);
    forall r | r in rs ensures r.kind == TextRun {
      var i :| 0 <= i < |rs| && rs[i] == r;
      assert r == ExpectedRun(ts[i]);
    }
  }

  /** An element with no child nodes contributes no runs. */
  lemma ChildlessElementHasNoRuns(style: ComputedStyle, box: Rect)
    ensures Details(Element(style, box, [])) == Ok([])
  {
    var e := Element(style, box, []);
    assert !OnlyHasTextChild(e);
    assert ElementDetails(e) == FlatMapDetails([]);
  }
}
