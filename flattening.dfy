/**
 * `Diagram.flatten`: the monoidal functor that sends each object and each
 * box to itself. It gives a diagram of boxes back unchanged, and it turns a
 * diagram of diagrams, such as a slice, back into a diagram of boxes.
 */
module Flattening {
  import opened Results
  import opened Types
  import opened Seqs
  import opened Diagrams
  import opened Composition
  import opened Functors
  import Slicing

  /** `MonoidalFunctor(Quiver(lambda x: x), Quiver(lambda f: f))`. */
  const Identity: Functor := Functor(o => [o], b => BoxDiagram(b))

  /** The identity functor leaves every type as it is. */
  lemma {:induction false} MapTyIdentity(t: Ty)
    ensures MapTy(Identity, t) == t
    decreases |t|
  {
    if t != [] {
      MapTyIdentity(t[..|t| - 1]);
      assert t == t[..|t| - 1] + [t[|t| - 1]];
    }
  }

  /** Each box's image under the identity functor is the box itself, between its own domain and codomain. */
  lemma IdentitySound()
    ensures Sound(Identity)
  {
    forall b: Box
      ensures Wf(Identity.ar(b)) && Identity.ar(b).dom == MapTy(Identity, b.dom) && Identity.ar(b).cod == MapTy(Identity, b.cod)
    {
      MapTyIdentity(b.dom);
      MapTyIdentity(b.cod);
    }
  }

  /** Every box an atomic box: a diagram of boxes, not of diagrams. */
  predicate Flat(d: Diagram) {
    forall k :: 0 <= k < |d.boxes| ==> d.boxes[k].Atom?
  }

  /** `d.flatten()`: a well-formed diagram with the domain and the codomain of `d`. */
  function FlattenDiagram(d: Diagram): (r: Diagram)
    requires DeepWf(d)
    ensures Wf(r) && r.dom == d.dom && r.cod == d.cod
  {
    IdentitySound();
    MapTyIdentity(d.dom);
    MapTyIdentity(d.cod);
    Apply(Identity, d)
  }

  /** A box at `off` in `scan`, whiskered by identities, is the one-box diagram that puts it there. */
  lemma WhiskeredAtom(scan: Ty, b: Box, off: int)
    requires Fits(scan, Atom(b), off)
    ensures Whiskered(Identity, scan, Atom(b), off, BoxDiagram(b)) == Diagram(scan, Step(scan, Atom(b), off), [Atom(b)], [off])
  {
    var l, r := scan[..off], scan[off + |b.dom|..];
    MapTyIdentity(l);
    MapTyIdentity(r);
    FitsSplit(scan, Atom(b), off);
    assert Shift([0], |l|) == [off] && Shift([], |l| + |b.cod|) == [];
    var inner := Tensor(Id(l), BoxDiagram(b));
    assert inner == Diagram(l + b.dom, l + b.cod, [Atom(b)], [off]);
    assert Tensor(inner, Id(r)) == Diagram(l + b.dom + r, l + b.cod + r, [Atom(b)], [off]);
  }

  /** From box `k` on, flattening a diagram of boxes puts each remaining box back where it was. */
  lemma {:induction false} FlattenFlatFrom(d: Diagram, k: int, scan: Ty)
    requires Wf(d) && Flat(d) && 0 <= k <= |d.boxes|
    requires Scan(d.dom, d.boxes[..k], d.offsets[..k]) == Ok(scan)
    requires Scan(scan, d.boxes[k..], d.offsets[k..]) == Ok(d.cod)
    ensures Sound(Identity) && DeepWf(d) && MapTy(Identity, scan) == scan
    ensures ApplyFrom(Identity, d, k, Diagram(d.dom, scan, d.boxes[..k], d.offsets[..k]), scan) == d
    decreases |d.boxes| - k
  {
    IdentitySound();
    MapTyIdentity(scan);
    var result := Diagram(d.dom, scan, d.boxes[..k], d.offsets[..k]);
    if k < |d.boxes| {
      var box, off := d.boxes[k], d.offsets[k];
      ApplyFromStep(Identity, d, k, result, scan);
      WhiskeredAtom(scan, box.box, off);
      var next := Step(scan, box, off);
      TakeOneMore(d.boxes, k);
      TakeOneMore(d.offsets, k);
      assert Then(result, Diagram(scan, next, [box], [off])) == Diagram(d.dom, next, d.boxes[..k + 1], d.offsets[..k + 1]);
      assert Scan(scan, [box], [off]) == Ok(next);
      ScanAppend(d.dom, d.boxes[..k], d.offsets[..k], [box], [off], scan, next);
      FlattenFlatFrom(d, k + 1, next);
    } else {
      ApplyFromEnd(Identity, d, result, scan);
      assert d.boxes[..k] == d.boxes && d.offsets[..k] == d.offsets;
    }
  }

  /** `d.flatten() == d` for a diagram of boxes. */
  lemma FlattenFlat(d: Diagram)
    requires Wf(d) && Flat(d)
    ensures DeepWf(d) && FlattenDiagram(d) == d
  {
    assert d.boxes[..0] == [] && d.offsets[..0] == [];
    assert d.boxes[0..] == d.boxes && d.offsets[0..] == d.offsets;
    FlattenFlatFrom(d, 0, d.dom);
  }

  /** A layer of chained layers is well formed. */
  lemma {:induction false} ChainedWf(layers: seq<Diagram>, dom: Ty, cod: Ty, k: int)
    requires Slicing.Chained(layers, dom, cod) && 0 <= k < |layers|
    ensures Wf(layers[k])
    decreases k
  {
    if k > 0 {
      assert layers[1..][k - 1] == layers[k];
      ChainedWf(layers[1..], layers[0].cod, cod, k - 1);
    }
  }

  /** A box of a layer is a box of the layers, layer after layer. */
  lemma {:induction false} FlattenHas(layers: seq<Diagram>, k: int, j: int)
    requires 0 <= k < |layers| && 0 <= j < |layers[k].boxes|
    ensures layers[k].boxes[j] in Slicing.Flatten(layers)
    decreases k
  {
    Slicing.FlattenCons(layers[0], layers[1..]);
    assert [layers[0]] + layers[1..] == layers;
    if k > 0 {
      assert layers[1..][k - 1] == layers[k];
      FlattenHas(layers[1..], k - 1, j);
    }
  }

  /** Slicing a well-formed diagram of boxes cuts it into well-formed diagrams of boxes. */
  lemma LayersFlat(d: Diagram)
    requires Wf(d) && Flat(d)
    ensures Wf(Slicing.Slice(d)) && Slicing.Chained(Slicing.Layers(d), d.dom, d.cod)
    ensures forall k :: 0 <= k < |Slicing.Layers(d)| ==> Wf(Slicing.Layers(d)[k]) && Flat(Slicing.Layers(d)[k])
  {
    var layers := Slicing.Layers(d);
    Slicing.SliceWf(d);
    Slicing.SliceKeepsBoxes(d);
    forall k | 0 <= k < |layers|
      ensures Wf(layers[k]) && Flat(layers[k])
    {
      ChainedWf(layers, d.dom, d.cod, k);
      forall j | 0 <= j < |layers[k].boxes|
        ensures layers[k].boxes[j].Atom?
      {
        FlattenHas(layers, k, j);
        assert layers[k].boxes[j] in multiset(d.boxes);
      }
    }
  }

  /** The slice of a well-formed diagram of boxes is well formed at every depth. */
  lemma SliceDeepWf(d: Diagram)
    requires Wf(d) && Flat(d)
    ensures DeepWf(Slicing.Slice(d))
  {
    LayersFlat(d);
    var s := Slicing.Slice(d);
    forall k | 0 <= k < |s.boxes|
      ensures NodeWf(s.boxes[k])
    {
      var layer := Slicing.Layers(d)[k];
      assert s.boxes[k] == Layer(layer);
      FlattenFlat(layer);
    }
  }

  /** The boxes of the layers from `k` on are those of layer `k` and then those of the layers after it. */
  lemma FlattenFrom(layers: seq<Diagram>, k: int)
    requires 0 <= k < |layers|
    ensures Slicing.Flatten(layers[k..]) == layers[k].boxes + Slicing.Flatten(layers[k + 1..])
  {
    Slicing.FlattenCons(layers[k], layers[k + 1..]);
    assert [layers[k]] + layers[k + 1..] == layers[k..];
  }

  /**
   * From layer `k` on, flattening a diagram of layers, each a diagram of
   * boxes, appends the boxes of each layer in turn.
   */
  lemma {:induction false} FlattenLayersFrom(s: Diagram, layers: seq<Diagram>, k: int, result: Diagram, scan: Ty)
    requires Sound(Identity) && DeepWf(s) && 0 <= k <= |layers|
    requires s.boxes == Slicing.Nodes(layers) && s.offsets == Slicing.Zeros(|layers|)
    requires forall m :: 0 <= m < |layers| ==> Wf(layers[m]) && Flat(layers[m])
    requires Slicing.Chained(layers[k..], scan, s.cod)
    requires Scan(scan, s.boxes[k..], s.offsets[k..]) == Ok(s.cod)
    requires Wf(result) && result.cod == scan
    ensures MapTy(Identity, scan) == scan
    ensures ApplyFrom(Identity, s, k, result, scan).boxes == result.boxes + Slicing.Flatten(layers[k..])
    ensures ApplyFrom(Identity, s, k, result, scan).offsets == result.offsets + Slicing.FlattenOffsets(layers[k..])
    decreases |layers| - k
  {
    MapTyIdentity(scan);
    if k < |layers| {
      var layer := layers[k];
      FlattenFrom(layers, k);
      assert s.boxes[k] == Layer(layer) && s.offsets[k] == 0;
      ApplyFromStep(Identity, s, k, result, scan);
      FlattenFlat(layer);
      assert scan[..0] == [] && scan[|layer.dom|..] == [];
      MapTyConcat(Identity, [], []);
      TensorUnit(layer);
      TensorUnit(Tensor(Id([]), layer));
      assert ApplyNode(Identity, s.boxes[k]) == layer;
      assert Whiskered(Identity, scan, Layer(layer), 0, layer) == layer;
      assert Step(scan, Layer(layer), 0) == layer.cod;
      var rest := ApplyFrom(Identity, s, k + 1, Then(result, layer), layer.cod);
      assert ApplyFrom(Identity, s, k, result, scan) == rest;
      FlattenLayersFrom(s, layers, k + 1, Then(result, layer), layer.cod);
      var tail, offs := Slicing.Flatten(layers[k + 1..]), Slicing.FlattenOffsets(layers[k + 1..]);
      assert rest.boxes == result.boxes + layer.boxes + tail;
      assert rest.offsets == result.offsets + layer.offsets + offs;
      ConcatAssoc(result.boxes, layer.boxes, tail);
      ConcatAssoc(result.offsets, layer.offsets, offs);
    } else {
      ApplyFromEnd(Identity, s, result, scan);
      assert layers[k..] == [];
      assert Slicing.Flatten(layers[k..]) == [] && Slicing.FlattenOffsets(layers[k..]) == [];
      assert ApplyFrom(Identity, s, k, result, scan) == result;
    }
  }

  /**
   * `d.slice().flatten()` is the diagram the interchanges of `slice` leave
   * behind: a well-formed diagram from `d.dom` to `d.cod` made of the boxes
   * of `d`, each as often as in `d`, at the offsets those interchanges give
   * them.
   */
  lemma FlattenSlice(d: Diagram)
    requires Wf(d) && Flat(d)
    ensures DeepWf(Slicing.Slice(d))
    ensures var r := FlattenDiagram(Slicing.Slice(d));
            && r == Slicing.Rearranged(d)
            && r.dom == d.dom && r.cod == d.cod
            && multiset(r.boxes) == multiset(d.boxes)
  {
    SliceDeepWf(d);
    LayersFlat(d);
    IdentitySound();
    var layers := Slicing.Layers(d);
    var s := Slicing.Slice(d);
    assert s.boxes[0..] == s.boxes && s.offsets[0..] == s.offsets && layers[0..] == layers;
    MapTyIdentity(d.dom);
    FlattenLayersFrom(s, layers, 0, Id(d.dom), d.dom);
    Slicing.SliceKeepsBoxes(d);
    assert Slicing.Flatten(layers) == [] + Slicing.Flatten(layers);
    assert Slicing.FlattenOffsets(layers) == [] + Slicing.FlattenOffsets(layers);
  }
}
