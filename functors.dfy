/**
 * Monoidal functors out of the free monoidal category: an image for each
 * object and each box, extended to types by concatenation and to diagrams
 * by folding the scan, each box whiskered by the identities on the images
 * of the wires to its left and right.
 */
module Functors {
  import opened Results
  import opened Types
  import opened Seqs
  import opened Diagrams
  import opened Composition

  /** `MonoidalFunctor(ob, ar)`: the image of each object and of each box. */
  datatype Functor = Functor(ob: Ob -> Ty, ar: Box -> Diagram)

  /** `F(t)`: `sum([F.ob[x] for x in t], Ty())`, summed from the left. */
  function MapTy(F: Functor, t: Ty): Ty
    decreases |t|
  {
    if t == [] then [] else MapTy(F, t[..|t| - 1]) + F.ob(t[|t| - 1])
  }

  /** On types, a functor is a monoid homomorphism: it sends `Ty()` to `Ty()` and `@` to `@`. */
  lemma {:induction false} MapTyConcat(F: Functor, a: Ty, b: Ty)
    ensures MapTy(F, []) == []
    ensures MapTy(F, a + b) == MapTy(F, a) + MapTy(F, b)
    decreases |b|
  {
    if b == [] {
      assert a + b == a;
    } else {
      var init := b[..|b| - 1];
      assert (a + b)[..|a + b| - 1] == a + init;
      assert (a + b)[|a + b| - 1] == b[|b| - 1];
      MapTyConcat(F, a, init);
    }
  }

  /** The image of a one-object type is the object's image. */
  lemma MapTyOne(F: Functor, o: Ob)
    ensures MapTy(F, [o]) == F.ob(o)
  {
    assert [o][..0] == [];
  }

  /** Each box's image is a well-formed diagram between the images of its domain and codomain. */
  ghost predicate Sound(F: Functor) {
    forall b: Box :: Wf(F.ar(b)) && F.ar(b).dom == MapTy(F, b.dom) && F.ar(b).cod == MapTy(F, b.cod)
  }

  /** A diagram well formed, and so is every diagram used as a box in it, at every depth. */
  predicate DeepWf(d: Diagram)
    decreases d
  {
    Wf(d) && forall k :: 0 <= k < |d.boxes| ==> NodeWf(d.boxes[k])
  }

  /** An atomic box, or a diagram used as a box that is well formed at every depth. */
  predicate NodeWf(n: Node)
    decreases n
  {
    match n
    case Atom(_) => true
    case Layer(e) => DeepWf(e)
  }

  /**
   * `id_l @ image @ id_r`: the image of a box at `off` in `scan`, between
   * the identities on the images of the wires around it. The box fits, so
   * the Python slices `scan[:off]` and `scan[off + len(box.dom):]` are plain
   * slices (`Types.Slice`).
   */
  function Whiskered(F: Functor, scan: Ty, box: Node, off: int, image: Diagram): Diagram
    requires Fits(scan, box, off)
  {
    var left := Id(MapTy(F, scan[..off]));
    var right := Id(MapTy(F, scan[off + |box.Dom()|..]));
    Tensor(Tensor(left, image), right)
  }

  /** A box that fits, whiskered, goes from the image of the scanned type to the image of the next one. */
  lemma WhiskeredTyped(F: Functor, scan: Ty, box: Node, off: int, image: Diagram)
    requires Fits(scan, box, off) && Wf(image)
    requires image.dom == MapTy(F, box.Dom()) && image.cod == MapTy(F, box.Cod())
    ensures var w := Whiskered(F, scan, box, off, image);
            Wf(w) && w.dom == MapTy(F, scan) && w.cod == MapTy(F, Step(scan, box, off))
  {
    var l, r := scan[..off], scan[off + |box.Dom()|..];
    assert scan == l + box.Dom() + r;
    var left, right := Id(MapTy(F, l)), Id(MapTy(F, r));
    TensorPreservesWf(left, image);
    TensorPreservesWf(Tensor(left, image), right);
    MapTyConcat(F, l, box.Dom());
    MapTyConcat(F, l + box.Dom(), r);
    MapTyConcat(F, l, box.Cod());
    MapTyConcat(F, l + box.Cod(), r);
  }

  /** A box that fits where the rest of the diagram scans from starts that rest; the one after it continues it. */
  lemma ScanSuffix(d: Diagram, k: int, scan: Ty)
    requires |d.boxes| == |d.offsets| && 0 <= k < |d.boxes|
    requires Scan(scan, d.boxes[k..], d.offsets[k..]) == Ok(d.cod)
    ensures Fits(scan, d.boxes[k], d.offsets[k])
    ensures Scan(Step(scan, d.boxes[k], d.offsets[k]), d.boxes[k + 1..], d.offsets[k + 1..]) == Ok(d.cod)
  {
    assert d.boxes[k..][0] == d.boxes[k] && d.offsets[k..][0] == d.offsets[k];
    assert d.boxes[k..][1..] == d.boxes[k + 1..] && d.offsets[k..][1..] == d.offsets[k + 1..];
  }

  /**
   * The loop of `__call__` from box `k` on: `result` is the image of the
   * boxes before `k` and `scan` the type they lead to. The image ends on the
   * image of the codomain.
   */
  function ApplyFrom(F: Functor, d: Diagram, k: int, result: Diagram, scan: Ty): (r: Diagram)
    requires Sound(F) && DeepWf(d) && 0 <= k <= |d.boxes|
    requires Scan(scan, d.boxes[k..], d.offsets[k..]) == Ok(d.cod)
    requires Wf(result) && result.cod == MapTy(F, scan)
    ensures Wf(r) && r.dom == result.dom && r.cod == MapTy(F, d.cod)
    decreases d, |d.boxes| - k
  {
    if k == |d.boxes| then
      assert d.boxes[k..] == [] && d.offsets[k..] == [];
      result
    else
      var box, off := d.boxes[k], d.offsets[k];
      ScanSuffix(d, k, scan);
      var image := ApplyNode(F, box);
      var step := Whiskered(F, scan, box, off, image);
      WhiskeredTyped(F, scan, box, off, image);
      ThenPreservesWf(result, step);
      ApplyFrom(F, d, k + 1, Then(result, step), Step(scan, box, off))
  }

  /** One pass of the loop: the box at `k`, whiskered, is composed after the result, and the scan moves past it. */
  lemma ApplyFromStep(F: Functor, d: Diagram, k: int, result: Diagram, scan: Ty)
    requires Sound(F) && DeepWf(d) && 0 <= k < |d.boxes|
    requires Scan(scan, d.boxes[k..], d.offsets[k..]) == Ok(d.cod)
    requires Wf(result) && result.cod == MapTy(F, scan)
    ensures Fits(scan, d.boxes[k], d.offsets[k]) && NodeWf(d.boxes[k])
    ensures Scan(Step(scan, d.boxes[k], d.offsets[k]), d.boxes[k + 1..], d.offsets[k + 1..]) == Ok(d.cod)
    ensures var step := Whiskered(F, scan, d.boxes[k], d.offsets[k], ApplyNode(F, d.boxes[k]));
            && Wf(step) && step.dom == MapTy(F, scan) && step.cod == MapTy(F, Step(scan, d.boxes[k], d.offsets[k]))
            && Wf(Then(result, step))
            && ApplyFrom(F, d, k, result, scan) == ApplyFrom(F, d, k + 1, Then(result, step), Step(scan, d.boxes[k], d.offsets[k]))
  {
    var box, off := d.boxes[k], d.offsets[k];
    ScanSuffix(d, k, scan);
    var image := ApplyNode(F, box);
    WhiskeredTyped(F, scan, box, off, image);
    ThenPreservesWf(result, Whiskered(F, scan, box, off, image));
  }

  /** Past the last box, the fold is the result. */
  lemma ApplyFromEnd(F: Functor, d: Diagram, result: Diagram, scan: Ty)
    requires Sound(F) && DeepWf(d)
    requires Scan(scan, d.boxes[|d.boxes|..], d.offsets[|d.boxes|..]) == Ok(d.cod)
    requires Wf(result) && result.cod == MapTy(F, scan)
    ensures scan == d.cod && ApplyFrom(F, d, |d.boxes|, result, scan) == result
  {
    assert d.boxes[|d.boxes|..] == [] && d.offsets[|d.boxes|..] == [];
  }

  /** `F(d)`: the fold of `__call__` from `Id(F(d.dom))`, a well-formed diagram from `F(d.dom)` to `F(d.cod)`. */
  function Apply(F: Functor, d: Diagram): (r: Diagram)
    requires Sound(F) && DeepWf(d)
    ensures Wf(r) && r.dom == MapTy(F, d.dom) && r.cod == MapTy(F, d.cod)
    decreases d, |d.boxes| + 1
  {
    assert d.boxes[0..] == d.boxes && d.offsets[0..] == d.offsets;
    ApplyFrom(F, d, 0, Id(MapTy(F, d.dom)), d.dom)
  }

  /** `self(box)`: the supplied image of an atomic box, the image of a diagram used as a box. */
  function ApplyNode(F: Functor, n: Node): (r: Diagram)
    requires Sound(F) && NodeWf(n)
    ensures Wf(r) && r.dom == MapTy(F, n.Dom()) && r.cod == MapTy(F, n.Cod())
    decreases n, 0
  {
    match n
    case Atom(b) => F.ar(b)
    case Layer(e) => Apply(F, e)
  }

  /**
   * `F(diagram)`: from the identity on the image of the domain, each box in
   * turn is whiskered by the identities on the images of the wires around
   * it and composed after the result, and the scan moves past it. A diagram
   * used as a box is mapped by a call of its own.
   */
  method RunFunctor(F: Functor, d: Diagram) returns (result: Diagram)
    requires Sound(F) && DeepWf(d)
    ensures result == Apply(F, d)
    decreases d, 1
  {
    var scan := d.dom;
    result := Id(MapTy(F, d.dom));
    var k := 0;
    assert d.boxes[0..] == d.boxes && d.offsets[0..] == d.offsets;
    while k < |d.boxes|
      invariant 0 <= k <= |d.boxes|
      invariant Scan(scan, d.boxes[k..], d.offsets[k..]) == Ok(d.cod)
      invariant Wf(result) && result.cod == MapTy(F, scan)
      invariant ApplyFrom(F, d, k, result, scan) == Apply(F, d)
    {
      var box, off := d.boxes[k], d.offsets[k];
      ApplyFromStep(F, d, k, result, scan);
      var image := RunNode(F, box);
      result := Then(result, Whiskered(F, scan, box, off, image));
      scan := Step(scan, box, off);
      k := k + 1;
    }
    ApplyFromEnd(F, d, result, scan);
  }

  /** `self(box)`: the supplied image of an atomic box; a diagram used as a box is mapped by a call of its own. */
  method RunNode(F: Functor, n: Node) returns (image: Diagram)
    requires Sound(F) && NodeWf(n)
    ensures image == ApplyNode(F, n)
    decreases n, 0
  {
    match n {
      case Atom(b) => image := F.ar(b);
      case Layer(e) => image := RunFunctor(F, e);
    }
  }

  // The functor laws.

  /** `F(Id(t)) == Id(F(t))`. */
  lemma ApplyId(F: Functor, t: Ty)
    requires Sound(F)
    ensures DeepWf(Id(t)) && Apply(F, Id(t)) == Id(MapTy(F, t))
  {
    assert Id(t).boxes[0..] == [];
  }

  /** `F(box) == F.ar[box]`: the image of a box seen as a diagram is the box's image. */
  lemma ApplyBox(F: Functor, b: Box)
    requires Sound(F)
    ensures DeepWf(BoxDiagram(b)) && Apply(F, BoxDiagram(b)) == F.ar(b)
  {
    var d := BoxDiagram(b);
    assert NodeWf(d.boxes[0]);
    assert d.boxes[0..] == d.boxes && d.offsets[0..] == d.offsets;
    var start := Id(MapTy(F, b.dom));
    ApplyFromStep(F, d, 0, start, b.dom);
    var image := F.ar(b);
    var step := Whiskered(F, b.dom, Atom(b), 0, image);
    assert Step(b.dom, Atom(b), 0) == b.cod;
    ApplyFromEnd(F, d, Then(start, step), b.cod);
    assert b.dom[..0] == [] && b.dom[|b.dom|..] == [];
    MapTyConcat(F, [], []);
    TensorUnit(image);
    TensorUnit(Tensor(Id([]), image));
    ThenUnit(image);
  }

  /** Pulling a diagram composed before the result out of the rest of the fold. */
  lemma {:induction false} ApplyFromPrefix(F: Functor, d: Diagram, k: int, a: Diagram, result: Diagram, scan: Ty)
    requires Sound(F) && DeepWf(d) && 0 <= k <= |d.boxes|
    requires Scan(scan, d.boxes[k..], d.offsets[k..]) == Ok(d.cod)
    requires Wf(result) && result.cod == MapTy(F, scan)
    requires Wf(a) && a.cod == result.dom
    ensures Wf(Then(a, result))
    ensures ApplyFrom(F, d, k, Then(a, result), scan) == Then(a, ApplyFrom(F, d, k, result, scan))
    decreases |d.boxes| - k
  {
    ThenPreservesWf(a, result);
    if k < |d.boxes| {
      ApplyFromStep(F, d, k, result, scan);
      ApplyFromStep(F, d, k, Then(a, result), scan);
      var step := Whiskered(F, scan, d.boxes[k], d.offsets[k], ApplyNode(F, d.boxes[k]));
      ThenAssociative(a, result, step);
      ApplyFromPrefix(F, d, k + 1, a, Then(result, step), Step(scan, d.boxes[k], d.offsets[k]));
    } else {
      ApplyFromEnd(F, d, result, scan);
      ApplyFromEnd(F, d, Then(a, result), scan);
    }
  }

  /** The fold depends only on the boxes and offsets still to come. */
  lemma {:induction false} ApplyFromSame(F: Functor, d: Diagram, k: int, e: Diagram, j: int, result: Diagram, scan: Ty)
    requires Sound(F) && DeepWf(d) && DeepWf(e) && 0 <= k <= |d.boxes| && 0 <= j <= |e.boxes|
    requires d.boxes[k..] == e.boxes[j..] && d.offsets[k..] == e.offsets[j..] && d.cod == e.cod
    requires Scan(scan, d.boxes[k..], d.offsets[k..]) == Ok(d.cod)
    requires Wf(result) && result.cod == MapTy(F, scan)
    ensures ApplyFrom(F, d, k, result, scan) == ApplyFrom(F, e, j, result, scan)
    decreases |d.boxes| - k
  {
    if k < |d.boxes| {
      assert d.boxes[k..][0] == e.boxes[j..][0] && d.offsets[k..][0] == e.offsets[j..][0];
      assert d.boxes[k..][1..] == d.boxes[k + 1..] && e.boxes[j..][1..] == e.boxes[j + 1..];
      assert d.offsets[k..][1..] == d.offsets[k + 1..] && e.offsets[j..][1..] == e.offsets[j + 1..];
      ApplyFromStep(F, d, k, result, scan);
      ApplyFromStep(F, e, j, result, scan);
      var step := Whiskered(F, scan, d.boxes[k], d.offsets[k], ApplyNode(F, d.boxes[k]));
      ApplyFromSame(F, d, k + 1, e, j + 1, Then(result, step), Step(scan, d.boxes[k], d.offsets[k]));
    } else {
      assert e.boxes[j..] == [] && |e.boxes| == j;
      ApplyFromEnd(F, d, result, scan);
      ApplyFromEnd(F, e, result, scan);
    }
  }

  /** `f >> g` is well formed at every depth when `f` and `g` are. */
  lemma DeepWfThen(f: Diagram, g: Diagram)
    requires DeepWf(f) && DeepWf(g) && f.cod == g.dom
    ensures DeepWf(Then(f, g))
  {
    ThenPreservesWf(f, g);
    var fg := Then(f, g);
    assert forall k :: 0 <= k < |f.boxes| ==> fg.boxes[k] == f.boxes[k];
    assert forall k :: |f.boxes| <= k < |fg.boxes| ==> fg.boxes[k] == g.boxes[k - |f.boxes|];
  }

  /** Boxes that scan from `scan` to `mid`, followed by boxes that scan from `mid` to `end`, scan from `scan` to `end`. */
  lemma ScanAppend(scan: Ty, b1: seq<Node>, o1: seq<int>, b2: seq<Node>, o2: seq<int>, mid: Ty, end: Ty)
    requires |b1| == |o1| && |b2| == |o2|
    requires Scan(scan, b1, o1) == Ok(mid) && Scan(mid, b2, o2) == Ok(end)
    ensures Scan(scan, b1 + b2, o1 + o2) == Ok(end)
  {
    ScanConcat(scan, b1, o1, b2, o2);
  }

  /** From box `k` of `f` on, `f >> g` holds the rest of `f` and then all of `g`. */
  lemma ThenBoxesFrom(f: Diagram, g: Diagram, k: int)
    requires f.cod == g.dom && 0 <= k <= |f.boxes| && |f.boxes| == |f.offsets|
    ensures Then(f, g).boxes[k..] == f.boxes[k..] + g.boxes && Then(f, g).offsets[k..] == f.offsets[k..] + g.offsets
  {
  }

  /** The boxes of `f >> g` from box `k` of `f` on scan to the codomain of `g`. */
  lemma ThenSuffix(f: Diagram, g: Diagram, k: int, scan: Ty)
    requires Wf(f) && Wf(g) && f.cod == g.dom && 0 <= k <= |f.boxes|
    requires Scan(scan, f.boxes[k..], f.offsets[k..]) == Ok(f.cod)
    ensures Scan(scan, Then(f, g).boxes[k..], Then(f, g).offsets[k..]) == Ok(g.cod)
  {
    ThenBoxesFrom(f, g, k);
    ScanAppend(scan, f.boxes[k..], f.offsets[k..], g.boxes, g.offsets, f.cod, g.cod);
  }

  /** The fold over `f >> g` from box `k` of `f` on is the fold over `f`, continued over `g`. */
  lemma {:induction false} ApplyThenFrom(F: Functor, f: Diagram, g: Diagram, k: int, result: Diagram, scan: Ty)
    requires Sound(F) && DeepWf(f) && DeepWf(g) && f.cod == g.dom && 0 <= k <= |f.boxes|
    requires Scan(scan, f.boxes[k..], f.offsets[k..]) == Ok(f.cod)
    requires Wf(result) && result.cod == MapTy(F, scan)
    ensures DeepWf(Then(f, g)) && Scan(scan, Then(f, g).boxes[k..], Then(f, g).offsets[k..]) == Ok(g.cod)
    ensures g.boxes[0..] == g.boxes && g.offsets[0..] == g.offsets
    ensures ApplyFrom(F, Then(f, g), k, result, scan) == ApplyFrom(F, g, 0, ApplyFrom(F, f, k, result, scan), g.dom)
    decreases |f.boxes| - k
  {
    var fg := Then(f, g);
    DeepWfThen(f, g);
    ThenSuffix(f, g, k, scan);
    assert g.boxes[0..] == g.boxes && g.offsets[0..] == g.offsets;
    if k < |f.boxes| {
      assert fg.boxes[k] == f.boxes[k] && fg.offsets[k] == f.offsets[k];
      ApplyFromStep(F, f, k, result, scan);
      ApplyFromStep(F, fg, k, result, scan);
      var step := Whiskered(F, scan, f.boxes[k], f.offsets[k], ApplyNode(F, f.boxes[k]));
      ApplyThenFrom(F, f, g, k + 1, Then(result, step), Step(scan, f.boxes[k], f.offsets[k]));
    } else {
      ApplyFromEnd(F, f, result, scan);
      assert fg.boxes[k..] == g.boxes[0..] && fg.offsets[k..] == g.offsets[0..];
      ApplyFromSame(F, fg, k, g, 0, result, scan);
    }
  }

  /** `F(f >> g) == F(f) >> F(g)`. */
  lemma ApplyThen(F: Functor, f: Diagram, g: Diagram)
    requires Sound(F) && DeepWf(f) && DeepWf(g) && f.cod == g.dom
    ensures DeepWf(Then(f, g)) && Apply(F, Then(f, g)) == Then(Apply(F, f), Apply(F, g))
  {
    assert f.boxes[0..] == f.boxes && f.offsets[0..] == f.offsets;
    var ff := Apply(F, f);
    ApplyThenFrom(F, f, g, 0, Id(MapTy(F, f.dom)), f.dom);
    assert Then(f, g).boxes[0..] == Then(f, g).boxes && Then(f, g).offsets[0..] == Then(f, g).offsets;
    ThenUnit(ff);
    ApplyFromPrefix(F, g, 0, ff, Id(MapTy(F, g.dom)), g.dom);
  }

  /** A box whiskered in `scan @ z` is the box whiskered in `scan`, tensored with `Id(F(z))`. */
  lemma WhiskeredPadRight(F: Functor, scan: Ty, z: Ty, box: Node, off: int, image: Diagram)
    requires Fits(scan, box, off)
    ensures Fits(scan + z, box, off) && Step(scan + z, box, off) == Step(scan, box, off) + z
    ensures Whiskered(F, scan + z, box, off, image) == Tensor(Whiskered(F, scan, box, off, image), Id(MapTy(F, z)))
  {
    StepPadRight(scan, z, box, off);
    var l, r := scan[..off], scan[off + |box.Dom()|..];
    assert (scan + z)[..off] == l && (scan + z)[off + |box.Dom()|..] == r + z;
    MapTyConcat(F, r, z);
    IdTensor(MapTy(F, r), MapTy(F, z));
    TensorAssociative(Tensor(Id(MapTy(F, l)), image), Id(MapTy(F, r)), Id(MapTy(F, z)));
  }

  /** A box that fits at `off` in `scan` fits at `off + |w|` in `w @ scan`, with `w` added to the wires on its left. */
  lemma FitsPadLeft(w: Ty, scan: Ty, box: Node, off: int, moved: int)
    requires Fits(scan, box, off) && moved == off + |w|
    ensures Fits(w + scan, box, moved)
    ensures (w + scan)[..moved] == w + scan[..off] && (w + scan)[moved + |box.Dom()|..] == scan[off + |box.Dom()|..]
    ensures Step(w + scan, box, moved) == w + Step(scan, box, off)
  {
    var l, r := scan[..off], scan[off + |box.Dom()|..];
    assert (w + scan)[moved..moved + |box.Dom()|] == scan[off..off + |box.Dom()|];
    assert (w + scan)[..moved] == w + l && (w + scan)[moved + |box.Dom()|..] == r;
    ConcatAssoc(w, l, box.Cod());
    ConcatAssoc(w, l + box.Cod(), r);
  }

  /** A box whiskered in `w @ scan`, moved right past `w`, is `Id(F(w))` tensored with the box whiskered in `scan`. */
  lemma WhiskeredPadLeft(F: Functor, w: Ty, scan: Ty, box: Node, off: int, moved: int, image: Diagram)
    requires Fits(scan, box, off) && moved == off + |w|
    ensures Fits(w + scan, box, moved) && Step(w + scan, box, moved) == w + Step(scan, box, off)
    ensures Whiskered(F, w + scan, box, moved, image) == Tensor(Id(MapTy(F, w)), Whiskered(F, scan, box, off, image))
  {
    FitsPadLeft(w, scan, box, off, moved);
    var l, r := scan[..off], scan[off + |box.Dom()|..];
    MapTyConcat(F, w, l);
    var mw, ml, mr := Id(MapTy(F, w)), Id(MapTy(F, l)), Id(MapTy(F, r));
    IdTensor(MapTy(F, w), MapTy(F, l));
    TensorAssociative(mw, ml, image);
    TensorAssociative(mw, Tensor(ml, image), mr);
    assert Whiskered(F, w + scan, box, moved, image) == Tensor(Tensor(Tensor(mw, ml), image), mr);
  }

  /** `d @ Id(z)` has the boxes and the offsets of `d`. */
  lemma PadRightShape(d: Diagram, z: Ty)
    requires DeepWf(d)
    ensures var p := Tensor(d, Id(z));
            && p.boxes == d.boxes && p.offsets == d.offsets && p.dom == d.dom + z && p.cod == d.cod + z
            && DeepWf(p)
  {
    assert d.offsets + Shift([], |d.cod|) == d.offsets;
    TensorPreservesWf(d, Id(z));
  }

  /** `Id(w) @ d` has the boxes of `d`, each moved right past `w`. */
  lemma PadLeftShape(w: Ty, d: Diagram)
    requires DeepWf(d)
    ensures var p := Tensor(Id(w), d);
            && p.boxes == d.boxes && p.offsets == Shift(d.offsets, |w|) && p.dom == w + d.dom && p.cod == w + d.cod
            && DeepWf(p)
  {
    assert [] + Shift(d.offsets, |w|) == Shift(d.offsets, |w|);
    TensorPreservesWf(Id(w), d);
  }

  /** From box `k` on, the fold over `d @ Id(z)` is the fold over `d`, tensored with `Id(F(z))`. */
  lemma {:induction false} ApplyPadRightFrom(F: Functor, d: Diagram, z: Ty, k: int, result: Diagram, scan: Ty)
    requires Sound(F) && DeepWf(d) && DeepWf(Tensor(d, Id(z))) && 0 <= k <= |d.boxes|
    requires Tensor(d, Id(z)).boxes == d.boxes && Tensor(d, Id(z)).offsets == d.offsets
    requires Scan(scan, d.boxes[k..], d.offsets[k..]) == Ok(d.cod)
    requires Scan(scan + z, d.boxes[k..], d.offsets[k..]) == Ok(d.cod + z)
    requires Wf(result) && result.cod == MapTy(F, scan)
    ensures Wf(Tensor(result, Id(MapTy(F, z)))) && MapTy(F, scan + z) == MapTy(F, scan) + MapTy(F, z)
    ensures ApplyFrom(F, Tensor(d, Id(z)), k, Tensor(result, Id(MapTy(F, z))), scan + z)
            == Tensor(ApplyFrom(F, d, k, result, scan), Id(MapTy(F, z)))
    decreases |d.boxes| - k
  {
    var p, mz := Tensor(d, Id(z)), Id(MapTy(F, z));
    TensorPreservesWf(result, mz);
    MapTyConcat(F, scan, z);
    if k < |d.boxes| {
      var box, off := d.boxes[k], d.offsets[k];
      ApplyFromStep(F, d, k, result, scan);
      ApplyFromStep(F, p, k, Tensor(result, mz), scan + z);
      var image := ApplyNode(F, box);
      var step := Whiskered(F, scan, box, off, image);
      WhiskeredPadRight(F, scan, z, box, off, image);
      ThenPadRight(result, step, MapTy(F, z));
      ApplyPadRightFrom(F, d, z, k + 1, Then(result, step), Step(scan, box, off));
    } else {
      ApplyFromEnd(F, d, result, scan);
      ApplyFromEnd(F, p, Tensor(result, mz), scan + z);
    }
  }

  /**
   * `p` is `d` moved right past the wires `w`: the same boxes, each offset
   * moved by `|w|`, from `w @ d.dom` to `w @ d.cod`, as `Id(w) @ d` is.
   */
  predicate MovedRight(p: Diagram, w: Ty, d: Diagram) {
    && p.boxes == d.boxes && p.dom == w + d.dom && p.cod == w + d.cod && |p.offsets| == |d.offsets|
    && forall j :: 0 <= j < |d.offsets| ==> p.offsets[j] == d.offsets[j] + |w|
  }

  /**
   * One pass of the fold over `p`, `d` moved right past `w`: the box at `k`
   * is whiskered by `mw == Id(F(w))` as well, and `p` scans on from
   * `w @ next`. `step` and `next` are the pass's whiskered box and scan over `d`.
   */
  lemma PadLeftStep(F: Functor, w: Ty, d: Diagram, p: Diagram, mw: Diagram, k: int, result: Diagram, scan: Ty, step: Diagram, next: Ty)
    requires Sound(F) && DeepWf(d) && DeepWf(p) && 0 <= k < |d.boxes|
    requires p.boxes == d.boxes && p.offsets[k] == d.offsets[k] + |w| && mw == Id(MapTy(F, w))
    requires Scan(w + scan, p.boxes[k..], p.offsets[k..]) == Ok(p.cod)
    requires Wf(result) && result.cod == MapTy(F, scan)
    requires Fits(scan, d.boxes[k], d.offsets[k]) && NodeWf(d.boxes[k])
    requires next == Step(scan, d.boxes[k], d.offsets[k])
    requires step == Whiskered(F, scan, d.boxes[k], d.offsets[k], ApplyNode(F, d.boxes[k]))
    requires Wf(step) && step.dom == result.cod && step.cod == MapTy(F, next)
    ensures Scan(w + next, p.boxes[k + 1..], p.offsets[k + 1..]) == Ok(p.cod)
    ensures Wf(Tensor(mw, result)) && Tensor(mw, result).cod == MapTy(F, w + scan)
    ensures Wf(Tensor(mw, Then(result, step))) && Tensor(mw, Then(result, step)).cod == MapTy(F, w + next)
    ensures ApplyFrom(F, p, k, Tensor(mw, result), w + scan) == ApplyFrom(F, p, k + 1, Tensor(mw, Then(result, step)), w + next)
  {
    var box, off := d.boxes[k], d.offsets[k];
    TensorPreservesWf(mw, result);
    MapTyConcat(F, w, scan);
    ThenPreservesWf(result, step);
    TensorPreservesWf(mw, Then(result, step));
    MapTyConcat(F, w, next);
    ApplyFromStep(F, p, k, Tensor(mw, result), w + scan);
    WhiskeredPadLeft(F, w, scan, box, off, p.offsets[k], ApplyNode(F, box));
    ThenPadLeft(MapTy(F, w), result, step);
  }

  /** From box `k` on, the fold over `d` moved right past `w` is `Id(F(w))` tensored with the fold over `d`. */
  lemma {:induction false} ApplyPadLeftFrom(F: Functor, w: Ty, d: Diagram, p: Diagram, k: int, result: Diagram, scan: Ty)
    requires Sound(F) && DeepWf(d) && DeepWf(p) && MovedRight(p, w, d) && 0 <= k <= |d.boxes|
    requires Scan(scan, d.boxes[k..], d.offsets[k..]) == Ok(d.cod)
    requires Scan(w + scan, p.boxes[k..], p.offsets[k..]) == Ok(p.cod)
    requires Wf(result) && result.cod == MapTy(F, scan)
    ensures Wf(Tensor(Id(MapTy(F, w)), result)) && MapTy(F, w + scan) == MapTy(F, w) + MapTy(F, scan)
    ensures ApplyFrom(F, p, k, Tensor(Id(MapTy(F, w)), result), w + scan) == Tensor(Id(MapTy(F, w)), ApplyFrom(F, d, k, result, scan))
    decreases |d.boxes| - k
  {
    var mw := Id(MapTy(F, w));
    TensorPreservesWf(mw, result);
    MapTyConcat(F, w, scan);
    if k < |d.boxes| {
      ApplyFromStep(F, d, k, result, scan);
      var step := Whiskered(F, scan, d.boxes[k], d.offsets[k], ApplyNode(F, d.boxes[k]));
      var next := Step(scan, d.boxes[k], d.offsets[k]);
      PadLeftStep(F, w, d, p, mw, k, result, scan, step, next);
      ApplyPadLeftFrom(F, w, d, p, k + 1, Then(result, step), next);
    } else {
      ApplyFromEnd(F, d, result, scan);
      ApplyFromEnd(F, p, Tensor(mw, result), w + scan);
    }
  }

  /** `F(d @ Id(z)) == F(d) @ Id(F(z))`. */
  lemma ApplyPadRight(F: Functor, d: Diagram, z: Ty)
    requires Sound(F) && DeepWf(d)
    ensures DeepWf(Tensor(d, Id(z))) && Apply(F, Tensor(d, Id(z))) == Tensor(Apply(F, d), Id(MapTy(F, z)))
  {
    PadRightShape(d, z);
    assert d.boxes[0..] == d.boxes && d.offsets[0..] == d.offsets;
    ScanPadRight(d.dom, z, d.boxes, d.offsets);
    var start := Id(MapTy(F, d.dom));
    ApplyPadRightFrom(F, d, z, 0, start, d.dom);
    IdTensor(MapTy(F, d.dom), MapTy(F, z));
  }

  /** `F(Id(w) @ d) == Id(F(w)) @ F(d)`. */
  lemma ApplyPadLeft(F: Functor, w: Ty, d: Diagram)
    requires Sound(F) && DeepWf(d)
    ensures DeepWf(Tensor(Id(w), d)) && Apply(F, Tensor(Id(w), d)) == Tensor(Id(MapTy(F, w)), Apply(F, d))
  {
    PadLeftShape(w, d);
    var p := Tensor(Id(w), d);
    assert MovedRight(p, w, d);
    assert d.boxes[0..] == d.boxes && d.offsets[0..] == d.offsets && p.offsets[0..] == p.offsets;
    ScanPadLeft(w, d.dom, d.boxes, d.offsets);
    var start := Id(MapTy(F, d.dom));
    ApplyPadLeftFrom(F, w, d, p, 0, start, d.dom);
    IdTensor(MapTy(F, w), MapTy(F, d.dom));
  }

  /** `F(f @ g) == F(f) @ F(g)`: a monoidal functor preserves the tensor. */
  lemma ApplyTensor(F: Functor, f: Diagram, g: Diagram)
    requires Sound(F) && DeepWf(f) && DeepWf(g)
    ensures DeepWf(Tensor(f, g)) && Apply(F, Tensor(f, g)) == Tensor(Apply(F, f), Apply(F, g))
  {
    TensorSplit(f, g);
    ApplyPadRight(F, f, g.dom);
    ApplyPadLeft(F, f.cod, g);
    ApplyThen(F, Tensor(f, Id(g.dom)), Tensor(Id(f.cod), g));
    TensorSplit(Apply(F, f), Apply(F, g));
  }
}
