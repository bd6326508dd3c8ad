/**
 * `slice` and `depth`: cutting a diagram into layers of boxes that can be
 * applied side by side, by interchanging later boxes down next to the
 * first box of each layer.
 */
module Slicing {
  import opened Results
  import opened Types
  import opened Diagrams
  import opened Interchange

  // Interchanges at or after position `p` leave the first `p` boxes alone.

  lemma PutKeepsPrefix<T>(s: seq<T>, q: int, x: T, y: T, p: int)
    requires 0 <= p <= q && q + 1 < |s|
    ensures Put(s, q, x, y)[..p] == s[..p]
  {
  }

  /** An adjacent interchange at `q` keeps the boxes and offsets before `q`. */
  lemma AdjacentKeepsPrefix(d: Diagram, q: int, left: bool, p: int)
    requires Aligned(d) && 0 <= p <= q && q + 1 < |d.boxes| && InterchangeAdjacent(d, q, left).Ok?
    ensures var e := InterchangeAdjacent(d, q, left).value;
            e.boxes[..p] == d.boxes[..p] && e.offsets[..p] == d.offsets[..p]
  {
    var b0, b1, o0, o1 := d.boxes[q], d.boxes[q + 1], d.offsets[q], d.offsets[q + 1];
    PutKeepsPrefix(d.boxes, q, b1, b0, p);
    PutKeepsPrefix(d.offsets, q, o1, o0 - |b1.Dom()| + |b1.Cod()|, p);
    PutKeepsPrefix(d.offsets, q, o1 - |b0.Cod()| + |b0.Dom()|, o0, p);
  }

  /** A walk down to position `p` keeps the boxes and offsets before `p`. */
  lemma {:induction false} WalkDownKeepsPrefix(d: Diagram, i: int, p: int, e: Diagram)
    requires Aligned(d) && 0 <= p <= i < |d.boxes| && WalkDown(d, i, p) == Ok(e)
    ensures e.boxes[..p] == d.boxes[..p] && e.offsets[..p] == d.offsets[..p]
    decreases i - p
  {
    if i != p {
      var next := InterchangeAdjacent(d, i - 1, false).value;
      WalkDownThrough(d, i, p, next);
      AdjacentKeepsPrefix(d, i - 1, false, p);
      WalkDownKeepsPrefix(next, i - 1, p, e);
    }
  }

  /** `interchange(j, i)` with `i < j` keeps the boxes and offsets before `i`, and all the boxes. */
  lemma InterchangeKeepsPrefix(d: Diagram, j: int, i: int)
    requires Aligned(d) && 0 <= i < j && Interchanged(d, j, i, false).Ok?
    ensures var e := Interchanged(d, j, i, false).value;
            && e.boxes[..i] == d.boxes[..i] && e.offsets[..i] == d.offsets[..i]
            && multiset(e.boxes) == multiset(d.boxes) && e.dom == d.dom && e.cod == d.cod
  {
    InterchangeMoves(d, j, i, false);
    if i < j - 1 {
      WalkDownKeepsPrefix(d, j, i, Interchanged(d, j, i, false).value);
    } else {
      AdjacentKeepsPrefix(d, i, false, i);
    }
  }

  // The specification of `slice`.

  /** Applies `step` to the type for each box and its offset in turn. */
  function Fold(step: (Ty, Node, int) -> Ty, s: Ty, boxes: seq<Node>, offsets: seq<int>): Ty
    requires |boxes| == |offsets|
    decreases |boxes|
  {
    if boxes == [] then s else Fold(step, step(s, boxes[0], offsets[0]), boxes[1..], offsets[1..])
  }

  /** `cod = cod[:off] + box.cod + cod[off + len(box.dom):]` for each box and offset in turn, with Python slicing. */
  function Splice(s: Ty, boxes: seq<Node>, offsets: seq<int>): Ty
    requires |boxes| == |offsets|
  {
    Fold(ScanStep, s, boxes, offsets)
  }

  /**
   * The outer loop `while i < len(diagram)` of `slice`: the layers cut from
   * box `i` on, the layers before it reaching the type `dom`. There are at
   * most as many layers as boxes left.
   */
  function LayersFrom(d: Diagram, i: int, dom: Ty): (r: seq<Diagram>)
    requires Aligned(d) && 0 <= i <= |d.boxes|
    ensures |r| <= |d.boxes| - i
    decreases |d.boxes| - i, |d.boxes| + 1, 0
  {
    if i == |d.boxes| then [] else GatherFrom(d, i, i + 1, 0, dom)
  }

  /**
   * The inner loop `for j in range(i + 1, len(diagram))` of a pass of the
   * outer loop, from `j` on, `count` interchanges `interchange(j, i)` having
   * succeeded. Then the pass closes the layer. Never empty.
   */
  function GatherFrom(d: Diagram, i: int, j: int, count: nat, dom: Ty): (r: seq<Diagram>)
    requires Aligned(d) && 0 <= i < j <= |d.boxes| && count < j - i
    ensures 1 <= |r| <= |d.boxes| - i
    decreases |d.boxes| - i, |d.boxes| - j, 1
  {
    if j == |d.boxes| then Close(d, i, count, dom) else TryInterchange(d, i, j, count, dom)
  }

  /** The body of the loop over `j`: a successful `interchange(j, i)` is kept and counted, an InterchangerError passed over. */
  function TryInterchange(d: Diagram, i: int, j: int, count: nat, dom: Ty): (r: seq<Diagram>)
    requires Aligned(d) && 0 <= i < j < |d.boxes| && count < j - i
    ensures 1 <= |r| <= |d.boxes| - i
    decreases |d.boxes| - i, |d.boxes| - j, 0
  {
    match Interchanged(d, j, i, false)
    case Ok(e) => GatherFrom(e, i, j + 1, count + 1, dom)
    case Err(_) => GatherFrom(d, i, j + 1, count, dom)
  }

  /**
   * The end of a pass of the outer loop: the layer is the `count + 1` boxes
   * from `i`, from `dom` to the type the loop `for j in range(i, i + n_boxes + 1)`
   * splices them into, and the outer loop goes on after them.
   */
  function Close(d: Diagram, i: int, count: nat, dom: Ty): (r: seq<Diagram>)
    requires Aligned(d) && 0 <= i && i + count < |d.boxes|
    ensures 1 <= |r| <= |d.boxes| - i
    decreases |d.boxes| - i, 0, 0
  {
    var m := i + count + 1;
    var cod := Splice(dom, d.boxes[i..m], d.offsets[i..m]);
    [Diagram(dom, cod, d.boxes[i..m], d.offsets[i..m])] + LayersFrom(d, m, cod)
  }

  /** The layers of `d.slice()`. */
  function Layers(d: Diagram): seq<Diagram>
    requires Aligned(d)
  {
    LayersFrom(d, 0, d.dom)
  }

  /** Each layer as a box-list entry. */
  function Nodes(layers: seq<Diagram>): (r: seq<Node>)
    ensures |r| == |layers| && forall k :: 0 <= k < |layers| ==> r[k] == Layer(layers[k])
  {
    seq(|layers|, k requires 0 <= k < |layers| => Layer(layers[k]))
  }

  function Zeros(n: nat): (r: seq<int>)
    ensures |r| == n && forall k :: 0 <= k < n ==> r[k] == 0
  {
    seq(n, _ => 0)
  }

  /** `d.slice()`: the layers as the boxes of a diagram from `d.dom` to `d.cod`, each at offset 0. */
  function Slice(d: Diagram): Diagram
    requires Aligned(d)
  {
    var layers := Layers(d);
    Diagram(d.dom, d.cod, Nodes(layers), Zeros(|layers|))
  }

  /** `d.depth()`: the number of layers. */
  function Depth(d: Diagram): nat
    requires Aligned(d)
  {
    |Slice(d).boxes|
  }

  // What `slice` promises: every box in exactly one layer, and the layers, one after the other, make the diagram its interchanges leave behind.

  /** The boxes of the layers, layer after layer. */
  function Flatten(layers: seq<Diagram>): seq<Node> {
    if layers == [] then [] else layers[0].boxes + Flatten(layers[1..])
  }

  /** The offsets of the layers, layer after layer. */
  function FlattenOffsets(layers: seq<Diagram>): seq<int> {
    if layers == [] then [] else layers[0].offsets + FlattenOffsets(layers[1..])
  }

  /**
   * The diagram the interchanges of `slice` leave behind, the variable
   * `diagram` once its outer loop is done: the boxes of the layers at their
   * offsets, one layer after the other. `RunSlice` reaches it by those
   * interchanges.
   */
  function Rearranged(d: Diagram): Diagram
    requires Aligned(d)
  {
    var layers := Layers(d);
    Diagram(d.dom, d.cod, Flatten(layers), FlattenOffsets(layers))
  }

  lemma FlattenCons(layer: Diagram, rest: seq<Diagram>)
    ensures Flatten([layer] + rest) == layer.boxes + Flatten(rest)
    ensures FlattenOffsets([layer] + rest) == layer.offsets + FlattenOffsets(rest)
  {
    assert ([layer] + rest)[1..] == rest;
  }

  /** Two permutations of each other that agree up to `i` are permutations of each other from `i` on. */
  lemma SuffixPermutes<T>(a: seq<T>, b: seq<T>, i: int)
    requires 0 <= i <= |a| && 0 <= i <= |b| && multiset(a) == multiset(b) && a[..i] == b[..i]
    ensures multiset(a[i..]) == multiset(b[i..])
  {
    assert a == a[..i] + a[i..] && b == b[..i] + b[i..];
    assert multiset(a) == multiset(a[..i]) + multiset(a[i..]);
    assert multiset(b) == multiset(b[..i]) + multiset(b[i..]);
    assert multiset(a[i..]) == multiset(a) - multiset(a[..i]);
    assert multiset(b[i..]) == multiset(b) - multiset(b[..i]);
  }

  /** No layer is empty. */
  predicate Filled(layers: seq<Diagram>) {
    forall k :: 0 <= k < |layers| ==> layers[k].boxes != []
  }

  /** The layers hold the boxes of `bag`, each as often as it occurs there, and none of them is empty. */
  predicate Holds(layers: seq<Diagram>, bag: multiset<Node>) {
    multiset(Flatten(layers)) == bag && Filled(layers)
  }

  /**
   * One step of the loop over `j`: the rest of the pass goes on from a
   * diagram with the same boxes before `i`, the same boxes in all, the same
   * type and, if `d` is well formed, well formed.
   */
  lemma GatherFromNext(d: Diagram, i: int, j: int, count: nat, dom: Ty) returns (e: Diagram, c: nat)
    requires Aligned(d) && 0 <= i < j < |d.boxes| && count < j - i
    ensures Aligned(e) && |e.boxes| == |d.boxes| && c < j + 1 - i
    ensures GatherFrom(d, i, j, count, dom) == GatherFrom(e, i, j + 1, c, dom)
    ensures e.boxes[..i] == d.boxes[..i] && e.offsets[..i] == d.offsets[..i]
    ensures multiset(e.boxes) == multiset(d.boxes) && e.dom == d.dom && e.cod == d.cod
    ensures Wf(d) ==> Wf(e)
  {
    var r := Interchanged(d, j, i, false);
    if r.Ok? {
      InterchangeKeepsPrefix(d, j, i);
      if Wf(d) {
        InterchangePreservesWf(d, j, i, false);
      }
      e, c := r.value, count + 1;
    } else {
      e, c := d, count;
    }
  }

  /**
   * The whole loop over `j`, from `j` on: the pass closes its layer on a
   * diagram with the same boxes before `i`, the same boxes in all, the same
   * type and, if `d` is well formed, well formed.
   */
  lemma {:induction false} GatherToEnd(d: Diagram, i: int, j: int, count: nat, dom: Ty) returns (e: Diagram, c: nat)
    requires Aligned(d) && 0 <= i < j <= |d.boxes| && count < j - i
    ensures Aligned(e) && |e.boxes| == |d.boxes| && c < |d.boxes| - i
    ensures GatherFrom(d, i, j, count, dom) == Close(e, i, c, dom)
    ensures e.boxes[..i] == d.boxes[..i] && e.offsets[..i] == d.offsets[..i]
    ensures multiset(e.boxes) == multiset(d.boxes) && e.dom == d.dom && e.cod == d.cod
    ensures Wf(d) ==> Wf(e)
    decreases |d.boxes| - j
  {
    if j == |d.boxes| {
      e, c := d, count;
    } else {
      var next, n := GatherFromNext(d, i, j, count, dom);
      e, c := GatherToEnd(next, i, j + 1, n, dom);
    }
  }

  /** The layers cut from box `i` on hold the boxes from `i` on, each once, and none of them is empty. */
  lemma {:induction false} LayersFromBoxes(d: Diagram, i: int, dom: Ty)
    requires Aligned(d) && 0 <= i <= |d.boxes|
    ensures Holds(LayersFrom(d, i, dom), multiset(d.boxes[i..]))
    decreases |d.boxes| - i, 1
  {
    if i < |d.boxes| {
      var e, c := GatherToEnd(d, i, i + 1, 0, dom);
      SuffixPermutes(e.boxes, d.boxes, i);
      CloseBoxes(e, i, c, dom);
    } else {
      assert d.boxes[i..] == [];
    }
  }

  /** What `Close` cuts. */
  lemma CloseIs(d: Diagram, i: int, count: nat, dom: Ty, m: int, cod: Ty)
    requires Aligned(d) && 0 <= i && i + count < |d.boxes| && m == i + count + 1
    requires cod == Splice(dom, d.boxes[i..m], d.offsets[i..m])
    ensures Close(d, i, count, dom) == [Diagram(dom, cod, d.boxes[i..m], d.offsets[i..m])] + LayersFrom(d, m, cod)
  {
  }

  /** A layer holding `layer.boxes`, ahead of layers holding the boxes of `after`, hold the boxes of `bag`. */
  lemma ConsBoxes(layers: seq<Diagram>, layer: Diagram, rest: seq<Diagram>, bag: multiset<Node>, after: multiset<Node>)
    requires layers == [layer] + rest && bag == multiset(layer.boxes) + after && layer.boxes != []
    requires Holds(rest, after)
    ensures Holds(layers, bag)
  {
    FlattenCons(layer, rest);
    assert forall k :: 1 <= k < |layers| ==> layers[k] == rest[k - 1];
  }

  /** The layer a pass cuts holds its boxes, and the outer loop the boxes after them. */
  lemma {:induction false} CloseBoxes(d: Diagram, i: int, count: nat, dom: Ty)
    requires Aligned(d) && 0 <= i && i + count < |d.boxes|
    ensures Holds(Close(d, i, count, dom), multiset(d.boxes[i..]))
    decreases |d.boxes| - i, 0
  {
    var m := i + count + 1;
    var cod := Splice(dom, d.boxes[i..m], d.offsets[i..m]);
    var layers, rest := Close(d, i, count, dom), LayersFrom(d, m, cod);
    CloseIs(d, i, count, dom, m, cod);
    LayersFromBoxes(d, m, cod);
    assert d.boxes[i..] == d.boxes[i..m] + d.boxes[m..];
    ConsBoxes(layers, Diagram(dom, cod, d.boxes[i..m], d.offsets[i..m]), rest, multiset(d.boxes[i..]), multiset(d.boxes[m..]));
  }

  /** `d.slice()` holds the boxes of `d`, each once, in layers none of which is empty. */
  lemma SliceKeepsBoxes(d: Diagram)
    requires Aligned(d)
    ensures multiset(Flatten(Layers(d))) == multiset(d.boxes)
    ensures Filled(Layers(d))
  {
    LayersFromBoxes(d, 0, d.dom);
    assert d.boxes[0..] == d.boxes;
  }

  /** One more layer at the end adds its boxes and its offsets at the end. */
  lemma {:induction false} FlattenSnoc(layers: seq<Diagram>, layer: Diagram)
    ensures Flatten(layers + [layer]) == Flatten(layers) + layer.boxes
    ensures FlattenOffsets(layers + [layer]) == FlattenOffsets(layers) + layer.offsets
    decreases |layers|
  {
    if layers == [] {
      assert [] + [layer] == [layer] + [];
      FlattenCons(layer, []);
    } else {
      var more := layers + [layer];
      assert more == [layers[0]] + (layers[1..] + [layer]);
      FlattenCons(layers[0], layers[1..] + [layer]);
      FlattenCons(layers[0], layers[1..]);
      assert layers == [layers[0]] + layers[1..];
      FlattenSnoc(layers[1..], layer);
    }
  }

  /** A diagram has at most as many layers as boxes, and none exactly when it has no box. */
  lemma DepthBounds(d: Diagram)
    requires Aligned(d)
    ensures Depth(d) <= |d.boxes|
    ensures Depth(d) == 0 <==> d.boxes == []
  {
  }

  /** Each layer well formed, each starting on the type the one before ends on, from `dom` to `cod`. */
  predicate Chained(layers: seq<Diagram>, dom: Ty, cod: Ty) {
    if layers == [] then dom == cod
    else Wf(layers[0]) && layers[0].dom == dom && Chained(layers[1..], layers[0].cod, cod)
  }

  /** On boxes that fit, splicing with Python slices is scanning. */
  lemma {:induction false} SpliceAgrees(s: Ty, boxes: seq<Node>, offsets: seq<int>)
    requires |boxes| == |offsets| && Scan(s, boxes, offsets).Ok?
    ensures Splice(s, boxes, offsets) == Scan(s, boxes, offsets).value
    decreases |boxes|
  {
    if boxes != [] {
      assert ScanStep(s, boxes[0], offsets[0]) == Step(s, boxes[0], offsets[0]);
      SpliceAgrees(Step(s, boxes[0], offsets[0]), boxes[1..], offsets[1..]);
    }
  }

  /** A scan that succeeds passes through the type it reaches after the first `k` boxes. */
  lemma ScanSplit(s: Ty, bs: seq<Node>, os: seq<int>, k: int)
    requires |bs| == |os| && 0 <= k <= |bs| && Scan(s, bs, os).Ok?
    ensures Scan(s, bs[..k], os[..k]).Ok?
    ensures Scan(Scan(s, bs[..k], os[..k]).value, bs[k..], os[k..]) == Scan(s, bs, os)
  {
    assert bs == bs[..k] + bs[k..] && os == os[..k] + os[k..];
    ScanConcat(s, bs[..k], os[..k], bs[k..], os[k..]);
  }

  /** Scanning the boxes up to `m` passes through the type at `i`. */
  lemma ScanThrough(d: Diagram, i: int, m: int, dom: Ty)
    requires Wf(d) && 0 <= i <= m <= |d.boxes| && Scan(d.dom, d.boxes[..i], d.offsets[..i]) == Ok(dom)
    ensures Scan(dom, d.boxes[i..m], d.offsets[i..m]) == Scan(d.dom, d.boxes[..m], d.offsets[..m])
    ensures Scan(dom, d.boxes[i..m], d.offsets[i..m]).Ok?
  {
    ScanSplit(d.dom, d.boxes, d.offsets, m);
    var bs, os := d.boxes[..m], d.offsets[..m];
    ScanSplit(d.dom, bs, os, i);
    assert bs[..i] == d.boxes[..i] && os[..i] == d.offsets[..i];
    assert bs[i..] == d.boxes[i..m] && os[i..] == d.offsets[i..m];
  }

  /** On a well-formed diagram, the layers cut from box `i` on chain from the type scanned up to `i` to the codomain. */
  lemma {:induction false} LayersFromChained(d: Diagram, i: int, dom: Ty)
    requires Wf(d) && 0 <= i <= |d.boxes| && Scan(d.dom, d.boxes[..i], d.offsets[..i]) == Ok(dom)
    ensures Chained(LayersFrom(d, i, dom), dom, d.cod)
    decreases |d.boxes| - i, 1
  {
    if i < |d.boxes| {
      var e, c := GatherToEnd(d, i, i + 1, 0, dom);
      CloseChained(e, i, c, dom);
    } else {
      assert d.boxes[..i] == d.boxes && d.offsets[..i] == d.offsets;
    }
  }

  /** A well-formed layer from `dom`, ahead of layers that chain from its codomain to `cod`, chain from `dom` to `cod`. */
  lemma ConsChained(layers: seq<Diagram>, layer: Diagram, rest: seq<Diagram>, dom: Ty, cod: Ty)
    requires layers == [layer] + rest && Wf(layer) && layer.dom == dom && Chained(rest, layer.cod, cod)
    ensures Chained(layers, dom, cod)
  {
    assert layers[0] == layer && layers[1..] == rest;
  }

  /** The layer a pass cuts is well formed, from the type at `i` to the type after its boxes, where the outer loop goes on. */
  lemma {:induction false} CloseChained(d: Diagram, i: int, count: nat, dom: Ty)
    requires Wf(d) && 0 <= i && i + count < |d.boxes|
    requires Scan(d.dom, d.boxes[..i], d.offsets[..i]) == Ok(dom)
    ensures Chained(Close(d, i, count, dom), dom, d.cod)
    decreases |d.boxes| - i, 0
  {
    var m := i + count + 1;
    var cod := Splice(dom, d.boxes[i..m], d.offsets[i..m]);
    ScanThrough(d, i, m, dom);
    SpliceAgrees(dom, d.boxes[i..m], d.offsets[i..m]);
    var layer := Diagram(dom, cod, d.boxes[i..m], d.offsets[i..m]);
    assert Wf(layer);
    var layers, rest := Close(d, i, count, dom), LayersFrom(d, m, cod);
    CloseIs(d, i, count, dom, m, cod);
    LayersFromChained(d, m, cod);
    ConsChained(layers, layer, rest, dom, d.cod);
  }

  /** Layers that chain from `dom` to `cod`, each at offset 0, scan from `dom` to `cod`. */
  lemma {:induction false} ChainedScan(layers: seq<Diagram>, dom: Ty, cod: Ty)
    requires Chained(layers, dom, cod)
    ensures Scan(dom, Nodes(layers), Zeros(|layers|)) == Ok(cod)
    decreases |layers|
  {
    if layers != [] {
      var l := layers[0];
      assert Fits(dom, Layer(l), 0) && Step(dom, Layer(l), 0) == l.cod;
      assert Nodes(layers)[1..] == Nodes(layers[1..]) && Zeros(|layers|)[1..] == Zeros(|layers| - 1);
      ChainedScan(layers[1..], l.cod, cod);
    }
  }

  /** The slice of a well-formed diagram is well formed, from its domain to its codomain, and so is each layer. */
  lemma SliceWf(d: Diagram)
    requires Wf(d)
    ensures Wf(Slice(d))
    ensures Chained(Layers(d), d.dom, d.cod)
  {
    assert d.boxes[..0] == [] && d.offsets[..0] == [];
    LayersFromChained(d, 0, d.dom);
    ChainedScan(Layers(d), d.dom, d.cod);
  }

  /** Layers that chain from `dom` to `cod`, laid one after the other, scan from `dom` to `cod`. */
  lemma {:induction false} ChainedFlattenScan(layers: seq<Diagram>, dom: Ty, cod: Ty)
    requires Chained(layers, dom, cod)
    ensures |Flatten(layers)| == |FlattenOffsets(layers)|
    ensures Scan(dom, Flatten(layers), FlattenOffsets(layers)) == Ok(cod)
    decreases |layers|
  {
    if layers != [] {
      var l := layers[0];
      ChainedFlattenScan(layers[1..], l.cod, cod);
      ScanConcat(dom, l.boxes, l.offsets, Flatten(layers[1..]), FlattenOffsets(layers[1..]));
    }
  }

  /**
   * The diagram the interchanges of `slice` leave behind is well formed,
   * from the domain to the codomain of `d`, with the boxes of `d`, each as
   * often.
   */
  lemma RearrangedWf(d: Diagram)
    requires Wf(d)
    ensures var r := Rearranged(d);
            Wf(r) && r.dom == d.dom && r.cod == d.cod && multiset(r.boxes) == multiset(d.boxes)
  {
    SliceWf(d);
    SliceKeepsBoxes(d);
    ChainedFlattenScan(Layers(d), d.dom, d.cod);
  }

  // The loops of `slice`, proved against the specification.

  /** The loop over `j` of `slice`: what is left of the slicing is the same once it is done. */
  method GatherLayer(d: Diagram, i: int, ghost dom: Ty) returns (e: Diagram, count: nat)
    requires Aligned(d) && 0 <= i < |d.boxes|
    ensures Aligned(e) && |e.boxes| == |d.boxes| && count < |d.boxes| - i
    ensures GatherFrom(e, i, |e.boxes|, count, dom) == GatherFrom(d, i, i + 1, 0, dom)
    ensures e.boxes[..i] == d.boxes[..i] && e.offsets[..i] == d.offsets[..i] && e.dom == d.dom && e.cod == d.cod
  {
    e, count := d, 0;
    var j := i + 1;
    while j < |e.boxes|
      invariant Aligned(e) && |e.boxes| == |d.boxes| && i < j <= |e.boxes| && count < j - i
      invariant GatherFrom(e, i, j, count, dom) == GatherFrom(d, i, i + 1, 0, dom)
      invariant e.boxes[..i] == d.boxes[..i] && e.offsets[..i] == d.offsets[..i] && e.dom == d.dom && e.cod == d.cod
      decreases |e.boxes| - j
    {
      var r := Interchange.Interchange(e, j, i, false);
      if r.Ok? {
        InterchangeKeepsPrefix(e, j, i);
        e, count := r.value, count + 1;
      } else {
        InterchangeErrors(e, j, i, false);
        assert r.error.InterchangerError?;
      }
      j := j + 1;
    }
  }

  lemma SpliceFirst(s: Ty, boxes: seq<Node>, offsets: seq<int>, j: int, hi: int)
    requires |boxes| == |offsets| && 0 <= j < hi <= |boxes|
    ensures Splice(s, boxes[j..hi], offsets[j..hi]) == Splice(ScanStep(s, boxes[j], offsets[j]), boxes[j + 1..hi], offsets[j + 1..hi])
  {
    assert boxes[j..hi] != [] && boxes[j..hi][1..] == boxes[j + 1..hi];
    assert offsets[j..hi][1..] == offsets[j + 1..hi];
  }

  /** The loop `for j in range(i, i + n_boxes + 1)` of `slice`, which computes the layer's codomain. */
  method SpliceLayer(s: Ty, boxes: seq<Node>, offsets: seq<int>, lo: int, hi: int) returns (cod: Ty)
    requires |boxes| == |offsets| && 0 <= lo <= hi <= |boxes|
    ensures cod == Splice(s, boxes[lo..hi], offsets[lo..hi])
  {
    cod := s;
    var j := lo;
    while j < hi
      invariant lo <= j <= hi
      invariant Splice(cod, boxes[j..hi], offsets[j..hi]) == Splice(s, boxes[lo..hi], offsets[lo..hi])
    {
      SpliceFirst(cod, boxes, offsets, j, hi);
      cod := ScanStep(cod, boxes[j], offsets[j]);
      j := j + 1;
    }
    assert boxes[hi..hi] == [];
  }

  /** Once the interchanges are done, the layer is cut and the outer loop goes on after it. */
  lemma GatherDone(d: Diagram, i: int, count: nat, dom: Ty, cod: Ty)
    requires Aligned(d) && 0 <= i < |d.boxes| && count < |d.boxes| - i
    requires cod == Splice(dom, d.boxes[i..i + count + 1], d.offsets[i..i + count + 1])
    ensures GatherFrom(d, i, |d.boxes|, count, dom) == Close(d, i, count, dom) ==
              [Diagram(dom, cod, d.boxes[i..i + count + 1], d.offsets[i..i + count + 1])] + LayersFrom(d, i + count + 1, cod)
  {
  }

  /** One pass of the outer loop of `slice`: the layer cut at `i`, and where the loop goes on. */
  method CutLayer(d: Diagram, i: int, dom: Ty) returns (layer: Diagram, e: Diagram, next: int, cod: Ty)
    requires Aligned(d) && 0 <= i < |d.boxes|
    ensures Aligned(e) && |e.boxes| == |d.boxes| && i < next <= |d.boxes|
    ensures LayersFrom(d, i, dom) == [layer] + LayersFrom(e, next, cod)
    ensures e.boxes[..i] == d.boxes[..i] && e.offsets[..i] == d.offsets[..i] && e.dom == d.dom && e.cod == d.cod
    ensures layer.boxes == e.boxes[i..next] && layer.offsets == e.offsets[i..next]
  {
    var n;
    e, n := GatherLayer(d, i, dom);
    next := i + n + 1;
    cod := SpliceLayer(dom, e.boxes, e.offsets, i, next);
    layer := Diagram(dom, cod, e.boxes[i..next], e.offsets[i..next]);
    GatherDone(e, i, n, dom, cod);
  }

  /** A layer moves from what is left to what is done. */
  lemma Advance<T>(total: seq<T>, done: seq<T>, t: T, rest: seq<T>)
    requires total == done + ([t] + rest)
    ensures total == (done + [t]) + rest
  {
  }

  /** The Python method `slice`, with the diagram its interchanges leave behind. */
  method RunSlice(d: Diagram) returns (r: Diagram, diagram: Diagram)
    requires Aligned(d)
    ensures r == Slice(d) && diagram == Rearranged(d)
  {
    var i, cod := 0, d.dom;
    diagram := d;
    var slices: seq<Diagram> := [];
    while i < |diagram.boxes|
      invariant Aligned(diagram) && |diagram.boxes| == |d.boxes| && 0 <= i <= |d.boxes|
      invariant Layers(d) == slices + LayersFrom(diagram, i, cod)
      invariant diagram.dom == d.dom && diagram.cod == d.cod
      invariant diagram.boxes[..i] == Flatten(slices) && diagram.offsets[..i] == FlattenOffsets(slices)
      decreases |d.boxes| - i
    {
      var layer, e, next, after := CutLayer(diagram, i, cod);
      Advance(Layers(d), slices, layer, LayersFrom(e, next, after));
      FlattenSnoc(slices, layer);
      assert e.boxes[..next] == e.boxes[..i] + e.boxes[i..next];
      assert e.offsets[..next] == e.offsets[..i] + e.offsets[i..next];
      slices := slices + [layer];
      diagram, i, cod := e, next, after;
    }
    assert slices + LayersFrom(diagram, i, cod) == slices;
    assert diagram.boxes[..i] == diagram.boxes && diagram.offsets[..i] == diagram.offsets;
    r := Diagram(d.dom, d.cod, Nodes(slices), Zeros(|slices|));
  }
}
