/** The examples of `depth`, on concrete boxes `f: x -> y` and `g: y -> x`. */
module SlicingExamples {
  import opened Results
  import opened Types
  import opened Diagrams
  import opened Samples
  import opened Composition
  import opened Interchange
  import Slicing

  /** Splicing one box is one step of the scan. */
  lemma SpliceOne(s: Ty, a: Node, o: int)
    ensures Slicing.Splice(s, [a], [o]) == ScanStep(s, a, o)
  {
    assert [a][1..] == [] && [o][1..] == [];
    assert Slicing.Fold(ScanStep, ScanStep(s, a, o), [], []) == ScanStep(s, a, o);
  }

  /** `Id(x @ y).depth() == 0`. */
  lemma IdDepth()
    ensures Slicing.Depth(Id(x + y)) == 0
  {
    Slicing.DepthBounds(Id(x + y));
  }

  /** `f.depth() == 1`: a single box is a single layer, the box itself. */
  lemma BoxDepth()
    ensures var f := B("f", x, y);
            Slicing.Slice(f) == Diagram(x, y, [Layer(f)], [0]) && Slicing.Depth(f) == 1
  {
    var f := B("f", x, y);
    var a := Atom(Box("f", x, y, false));
    assert f == Diagram(x, y, [a], [0]);
    assert ScanStep(x, a, 0) == y;
    SpliceOne(x, a, 0);
    assert f.boxes[0..1] == [a] && f.offsets[0..1] == [0];
    Slicing.CloseIs(f, 0, 0, x, 1, y);
    assert Slicing.Layers(f) == [f];
  }

  /** `(f @ g).interchange(1, 0) == Id(x) @ g >> f @ Id(x)`: `g` slides down below `f`. */
  lemma TensorSlide()
    ensures var f, g := B("f", x, y), B("g", y, x);
            Interchanged(Tensor(f, g), 1, 0, false) == Ok(Then(Tensor(Id(x), g), Tensor(f, Id(x))))
  {
    var f, g := B("f", x, y), B("g", y, x);
    var a, b := Atom(Box("f", x, y, false)), Atom(Box("g", y, x, false));
    var d := Tensor(f, g);
    assert d == Diagram(x + y, y + x, [a, b], [0, 1]);
    assert LeftOf(d, 0) && !RightOf(d, 0);
    assert Put(d.boxes, 0, b, a) == [b, a];
    assert Put(d.offsets, 0, 1, 0) == [1, 0];
    assert LeftMove(d, 0) == Then(Tensor(Id(x), g), Tensor(f, Id(x)));
  }

  /** The slid diagram `Id(x) @ g >> f @ Id(x)` is one layer. */
  lemma SlidLayer()
    ensures var f, g := B("f", x, y), B("g", y, x);
            var e := Then(Tensor(Id(x), g), Tensor(f, Id(x)));
            Slicing.Close(e, 0, 1, x + y) == [e]
  {
    var f, g := B("f", x, y), B("g", y, x);
    var a, b := Atom(Box("f", x, y, false)), Atom(Box("g", y, x, false));
    var e := Then(Tensor(Id(x), g), Tensor(f, Id(x)));
    assert e == Diagram(x + y, y + x, [b, a], [1, 0]);
    assert ScanStep(x + y, b, 1) == x + x;
    assert ScanStep(x + x, a, 0) == y + x;
    SpliceOne(x + x, a, 0);
    assert [b, a][1..] == [a] && [1, 0][1..] == [0];
    assert Slicing.Splice(x + y, [b, a], [1, 0]) == y + x;
    assert e.boxes[0..2] == [b, a] && e.offsets[0..2] == [1, 0];
    Slicing.CloseIs(e, 0, 1, x + y, 2, y + x);
  }

  /**
   * `(f @ g).depth() == 1`: `g` is interchanged down below `f`, and both
   * make one layer `Id(x) @ g >> f @ Id(x)`.
   */
  lemma TensorDepth()
    ensures var f, g := B("f", x, y), B("g", y, x);
            var layer := Then(Tensor(Id(x), g), Tensor(f, Id(x)));
            Slicing.Slice(Tensor(f, g)) == Diagram(x + y, y + x, [Layer(layer)], [0]) && Slicing.Depth(Tensor(f, g)) == 1
  {
    var f, g := B("f", x, y), B("g", y, x);
    var d := Tensor(f, g);
    var e := Then(Tensor(Id(x), g), Tensor(f, Id(x)));
    TensorSlide();
    SlidLayer();
    assert Slicing.Layers(d) == Slicing.GatherFrom(d, 0, 1, 0, x + y) == Slicing.TryInterchange(d, 0, 1, 0, x + y);
    assert Slicing.TryInterchange(d, 0, 1, 0, x + y) == Slicing.GatherFrom(e, 0, 2, 1, x + y) == Slicing.Close(e, 0, 1, x + y);
  }

  /** `f >> g` cut at its first box: `g` cannot pass `f`, so `f` is a layer of its own. */
  lemma ThenFirstLayer()
    ensures var f, g := B("f", x, y), B("g", y, x);
            Slicing.Layers(Then(f, g)) == [f] + Slicing.LayersFrom(Then(f, g), 1, y)
  {
    var f, g := B("f", x, y), B("g", y, x);
    var a, b := Atom(Box("f", x, y, false)), Atom(Box("g", y, x, false));
    var d := Then(f, g);
    assert d == Diagram(x, x, [a, b], [0, 0]);
    assert !LeftOf(d, 0) && !RightOf(d, 0);
    assert Interchanged(d, 1, 0, false).Err?;
    assert Slicing.Layers(d) == Slicing.GatherFrom(d, 0, 1, 0, x) == Slicing.TryInterchange(d, 0, 1, 0, x);
    assert Slicing.TryInterchange(d, 0, 1, 0, x) == Slicing.GatherFrom(d, 0, 2, 0, x) == Slicing.Close(d, 0, 0, x);
    assert ScanStep(x, a, 0) == y;
    SpliceOne(x, a, 0);
    assert d.boxes[0..1] == [a] && d.offsets[0..1] == [0];
    Slicing.CloseIs(d, 0, 0, x, 1, y);
  }

  /** `(f >> g).depth() == 2`: each box is a layer of its own. */
  lemma ThenDepth()
    ensures var f, g := B("f", x, y), B("g", y, x);
            Slicing.Slice(Then(f, g)) == Diagram(x, x, [Layer(f), Layer(g)], [0, 0]) && Slicing.Depth(Then(f, g)) == 2
  {
    var f, g := B("f", x, y), B("g", y, x);
    var a, b := Atom(Box("f", x, y, false)), Atom(Box("g", y, x, false));
    var d := Then(f, g);
    assert d == Diagram(x, x, [a, b], [0, 0]);
    assert ScanStep(y, b, 0) == x;
    SpliceOne(y, b, 0);
    assert d.boxes[1..2] == [b] && d.offsets[1..2] == [0];
    Slicing.CloseIs(d, 1, 0, y, 2, x);
    assert Slicing.LayersFrom(d, 1, y) == [g];
    ThenFirstLayer();
    assert Slicing.Layers(d) == [f, g];
  }
}
