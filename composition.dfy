/** Sequential and parallel composition of diagrams, and the dagger. */
module Composition {
  import opened Results
  import opened Types
  import opened Diagrams

  /**
   * `f @ g`: `g` placed to the right of `f`. Its boxes come after those of
   * `f`, so their offsets move right past `f`'s output. No check is made.
   */
  function Tensor(f: Diagram, g: Diagram): Diagram {
    Diagram(f.dom + g.dom, f.cod + g.cod, f.boxes + g.boxes, f.offsets + Shift(g.offsets, |f.cod|))
  }

  /** `f >> g`: the boxes of `f` followed by those of `g`; the codomain of `f` must be the domain of `g`. */
  function Then(f: Diagram, g: Diagram): Diagram
    requires f.cod == g.dom
  {
    Diagram(f.dom, g.cod, f.boxes + g.boxes, f.offsets + g.offsets)
  }

  function Reverse<T>(s: seq<T>): (r: seq<T>)
    ensures |r| == |s|
    ensures forall k :: 0 <= k < |s| ==> r[k] == s[|s| - 1 - k]
  {
    seq(|s|, k requires 0 <= k < |s| => s[|s| - 1 - k])
  }

  /** The adjoint of a box-list entry: an atomic box flips its flag, a nested diagram is daggered. */
  function DaggerNode(n: Node): (r: Node)
    ensures r.Dom() == n.Cod() && r.Cod() == n.Dom()
    decreases n
  {
    match n
    case Atom(b) => Atom(b.Dagger())
    case Layer(d) => Layer(Dagger(d))
  }

  /** The entries in reverse order, each replaced by its adjoint. */
  function DaggerBoxes(bs: seq<Node>): (r: seq<Node>)
    ensures |r| == |bs|
    ensures forall k :: 0 <= k < |bs| ==> r[k] == DaggerNode(bs[|bs| - 1 - k])
    decreases bs
  {
    seq(|bs|, k requires 0 <= k < |bs| => DaggerNode(bs[|bs| - 1 - k]))
  }

  /** `d.dagger()`: domain and codomain exchanged, boxes reversed and daggered, offsets reversed. */
  function Dagger(d: Diagram): Diagram
    decreases d
  {
    Diagram(d.cod, d.dom, DaggerBoxes(d.boxes), Reverse(d.offsets))
  }

  // Well-formedness is preserved by the combinators, which build their results unchecked.

  /** `f @ g` of well-formed diagrams is well-formed, from `f.dom @ g.dom` to `f.cod @ g.cod`. */
  lemma TensorPreservesWf(f: Diagram, g: Diagram)
    requires Wf(f) && Wf(g)
    ensures Wf(Tensor(f, g))
    ensures Tensor(f, g).dom == f.dom + g.dom && Tensor(f, g).cod == f.cod + g.cod
  {
    ScanConcat(f.dom + g.dom, f.boxes, f.offsets, g.boxes, Shift(g.offsets, |f.cod|));
    ScanPadRight(f.dom, g.dom, f.boxes, f.offsets);
    ScanPadLeft(f.cod, g.dom, g.boxes, g.offsets);
  }

  /** `f >> g` of well-formed composable diagrams is well-formed. */
  lemma ThenPreservesWf(f: Diagram, g: Diagram)
    requires Wf(f) && Wf(g) && f.cod == g.dom
    ensures Wf(Then(f, g))
  {
    ScanConcat(f.dom, f.boxes, f.offsets, g.boxes, g.offsets);
  }

  /** A fitting box followed by its adjoint at the same offset restores the scanned type. */
  lemma StepUndo(s: Ty, n: Node, o: int)
    requires Fits(s, n, o)
    ensures Fits(Step(s, n, o), DaggerNode(n), o)
    ensures Step(Step(s, n, o), DaggerNode(n), o) == s
  {
    var m := DaggerNode(n);
    FitsSplit(s, n, o);
    var a, b := s[..o], s[o + |n.Dom()|..];
    StepAt(a, b, n);
    assert m.Dom() == n.Cod() && m.Cod() == n.Dom();
    assert a + n.Cod() + b == a + m.Dom() + b;
    StepAt(a, b, m);
  }

  lemma DaggerBoxesCons(bs: seq<Node>)
    requires bs != []
    ensures DaggerBoxes(bs) == DaggerBoxes(bs[1..]) + [DaggerNode(bs[0])]
  {
  }

  /** Running the daggered boxes backwards from where the scan ended leads back to where it started. */
  lemma {:induction false} ScanDagger(s: Ty, bs: seq<Node>, os: seq<int>)
    requires |bs| == |os| && Scan(s, bs, os).Ok?
    ensures Scan(Scan(s, bs, os).value, DaggerBoxes(bs), Reverse(os)) == Ok(s)
    decreases |bs|
  {
    if bs != [] {
      var s1 := Step(s, bs[0], os[0]);
      var t := Scan(s, bs, os).value;
      ScanDagger(s1, bs[1..], os[1..]);
      DaggerBoxesCons(bs);
      assert Reverse(os) == Reverse(os[1..]) + [os[0]];
      ScanConcat(t, DaggerBoxes(bs[1..]), Reverse(os[1..]), [DaggerNode(bs[0])], [os[0]]);
      StepUndo(s, bs[0], os[0]);
      assert Scan(s1, [DaggerNode(bs[0])], [os[0]]) == Scan(s, [], []);
    }
  }

  /** The dagger of a well-formed diagram is well-formed. */
  lemma DaggerPreservesWf(d: Diagram)
    requires Wf(d)
    ensures Wf(Dagger(d))
  {
    ScanDagger(d.dom, d.boxes, d.offsets);
  }

  // Algebraic laws.

  /** `(f @ g) @ h == f @ (g @ h)`. */
  lemma TensorAssociative(f: Diagram, g: Diagram, h: Diagram)
    ensures Tensor(Tensor(f, g), h) == Tensor(f, Tensor(g, h))
  {
    var l, r := Tensor(Tensor(f, g), h), Tensor(f, Tensor(g, h));
    assert l.offsets == r.offsets by {
      assert |l.offsets| == |r.offsets|;
      forall k | 0 <= k < |l.offsets| ensures l.offsets[k] == r.offsets[k] {
        if k < |f.offsets| {
        } else if k < |f.offsets| + |g.offsets| {
        } else {
        }
      }
    }
  }

  /** `Id(Ty())` is a two-sided unit for `@`. */
  lemma TensorUnit(f: Diagram)
    ensures Tensor(Id([]), f) == f && Tensor(f, Id([])) == f
  {
    assert Shift(f.offsets, 0) == f.offsets;
  }

  /** `(f >> g) >> h == f >> (g >> h)`. */
  lemma ThenAssociative(f: Diagram, g: Diagram, h: Diagram)
    requires f.cod == g.dom && g.cod == h.dom
    ensures Then(Then(f, g), h) == Then(f, Then(g, h))
  {
  }

  /** Identities are two-sided units for `>>`. */
  lemma ThenUnit(f: Diagram)
    ensures Then(Id(f.dom), f) == f && Then(f, Id(f.cod)) == f
  {
  }

  /** `Id(x) @ Id(y) == Id(x @ y)`. */
  lemma IdTensor(x: Ty, y: Ty)
    ensures Tensor(Id(x), Id(y)) == Id(x + y)
  {
  }

  /** `f @ g == f @ Id(g.dom) >> Id(f.cod) @ g`: the boxes of `f` first, then those of `g`, whiskered. */
  lemma TensorSplit(f: Diagram, g: Diagram)
    ensures Tensor(f, g) == Then(Tensor(f, Id(g.dom)), Tensor(Id(f.cod), g))
  {
    assert f.offsets + Shift([], |f.cod|) == f.offsets;
    assert [] + Shift(g.offsets, |f.cod|) == Shift(g.offsets, |f.cod|);
  }

  /** Composing after whiskering on the right is whiskering the composite: `a @ Id(z) >> b @ Id(z) == (a >> b) @ Id(z)`. */
  lemma ThenPadRight(a: Diagram, b: Diagram, z: Ty)
    requires a.cod == b.dom
    ensures Then(Tensor(a, Id(z)), Tensor(b, Id(z))) == Tensor(Then(a, b), Id(z))
  {
    assert a.offsets + Shift([], |a.cod|) == a.offsets;
    assert b.offsets + Shift([], |b.cod|) == b.offsets;
    assert (a.offsets + b.offsets) + Shift([], |b.cod|) == a.offsets + b.offsets;
  }

  /** Likewise on the left: `Id(w) @ a >> Id(w) @ b == Id(w) @ (a >> b)`. */
  lemma ThenPadLeft(w: Ty, a: Diagram, b: Diagram)
    requires a.cod == b.dom
    ensures Then(Tensor(Id(w), a), Tensor(Id(w), b)) == Tensor(Id(w), Then(a, b))
  {
    assert Shift(a.offsets, |w|) + Shift(b.offsets, |w|) == Shift(a.offsets + b.offsets, |w|);
  }

  lemma {:induction false} DaggerNodeInvolutive(n: Node)
    ensures DaggerNode(DaggerNode(n)) == n
    decreases n
  {
    match n
    case Atom(b) =>
    case Layer(d) => DaggerInvolutive(d);
  }

  /** `d.dagger().dagger() == d`, for diagrams of diagrams too. */
  lemma {:induction false} DaggerInvolutive(d: Diagram)
    ensures Dagger(Dagger(d)) == d
    decreases d
  {
    var e := Dagger(Dagger(d));
    forall k | 0 <= k < |d.boxes| ensures e.boxes[k] == d.boxes[k] {
      DaggerNodeInvolutive(d.boxes[k]);
    }
    assert e.boxes == d.boxes;
    assert e.offsets == d.offsets;
  }

  lemma ReverseConcat<T>(a: seq<T>, b: seq<T>)
    ensures Reverse(a + b) == Reverse(b) + Reverse(a)
  {
    var l, r := Reverse(a + b), Reverse(b) + Reverse(a);
    forall k | 0 <= k < |l| ensures l[k] == r[k] {
      if k < |b| {
      } else {
      }
    }
  }

  lemma DaggerBoxesConcat(a: seq<Node>, b: seq<Node>)
    ensures DaggerBoxes(a + b) == DaggerBoxes(b) + DaggerBoxes(a)
  {
    var l, r := DaggerBoxes(a + b), DaggerBoxes(b) + DaggerBoxes(a);
    forall k | 0 <= k < |l| ensures l[k] == r[k] {
      if k < |b| {
      } else {
      }
    }
  }

  /** `(f >> g).dagger() == g.dagger() >> f.dagger()`. */
  lemma DaggerThen(f: Diagram, g: Diagram)
    requires f.cod == g.dom
    ensures Dagger(Then(f, g)) == Then(Dagger(g), Dagger(f))
  {
    DaggerBoxesConcat(f.boxes, g.boxes);
    ReverseConcat(f.offsets, g.offsets);
  }

  /** The dagger of a box seen as a diagram is its adjoint box seen as a diagram. */
  lemma DaggerBox(b: Box)
    ensures Dagger(BoxDiagram(b)) == BoxDiagram(b.Dagger())
  {
    assert DaggerBoxes([Atom(b)]) == [Atom(b.Dagger())];
    assert Reverse([0]) == [0];
  }

  /**
   * The tensor as written shifts a negative offset, which the constructor as
   * written reads from the end of the type, to a different wire: the result
   * is rejected by the same constructor.
   */
  lemma TensorOfNegativeOffsetIllFormed()
    ensures var s := Atom(Box("s", [], ["b"], false));
            var d := Diagram(["a"], ["b", "a"], [s], [-1]);
            var e := Tensor(Id(["c"]), d);
            && CheckAsWritten(d.dom, d.cod, d.boxes, d.offsets).Ok?
            && CheckAsWritten(e.dom, e.cod, e.boxes, e.offsets) == Err(AxiomError(["c", "b", "a"], ["b", "c", "a"]))
  {
    AsWrittenAcceptsNegativeOffset();
    var s := Atom(Box("s", [], ["b"], false));
    var e := Tensor(Id(["c"]), Diagram(["a"], ["b", "a"], [s], [-1]));
    assert e.offsets == [0];
    assert e.dom == ["c", "a"];
    assert ScanStep(["c", "a"], s, 0) == ["b", "c", "a"];
    assert FitsAsWritten(["c", "a"], s, 0);
    assert ScanAsWritten(e.dom, e.boxes, e.offsets) == ScanAsWritten(["b", "c", "a"], [], []);
    var bca: Ty, cba: Ty := ["b", "c", "a"], ["c", "b", "a"];
    assert bca != cba by { assert bca[0] != cba[0]; }
    assert e.cod == cba;
    assert ScanAsWritten(e.dom, e.boxes, e.offsets) == Ok(bca);
    assert CheckAsWritten(e.dom, e.cod, e.boxes, e.offsets) == Err(AxiomError(["c", "b", "a"], ["b", "c", "a"]));
  }
}
