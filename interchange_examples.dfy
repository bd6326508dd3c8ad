/** The interchange examples of the module and of `interchange`, on concrete boxes. */
module InterchangeExamples {
  import opened Results
  import opened Types
  import opened Diagrams
  import opened Samples
  import opened Composition
  import opened Interchange

  /** `(f0 @ f1).interchange(0, 1) == Id(x) @ f1 >> f0 @ Id(w)`: `f1` slides under `f0`. */
  lemma SlideDown()
    ensures var f0, f1 := B("f0", x, y), B("f1", z, w);
            Interchanged(Tensor(f0, f1), 0, 1, false) == Ok(Then(Tensor(Id(x), f1), Tensor(f0, Id(w))))
  {
    var f0, f1 := B("f0", x, y), B("f1", z, w);
    var a0, a1 := Atom(Box("f0", x, y, false)), Atom(Box("f1", z, w, false));
    var t := Tensor(f0, f1);
    assert t == Diagram(x + z, y + w, [a0, a1], [0, 1]);
    assert LeftOf(t, 0) && !RightOf(t, 0);
    assert Put(t.boxes, 0, a1, a0) == [a1, a0];
    assert Put(t.offsets, 0, 1, 0) == [1, 0];
    assert LeftMove(t, 0) == Then(Tensor(Id(x), f1), Tensor(f0, Id(w)));
  }

  /** `(Id(x) @ f1 >> f0 @ Id(w)).interchange(0, 1) == f0 @ f1`: the slide back. */
  lemma SlideUp()
    ensures var f0, f1 := B("f0", x, y), B("f1", z, w);
            Interchanged(Then(Tensor(Id(x), f1), Tensor(f0, Id(w))), 0, 1, false) == Ok(Tensor(f0, f1))
  {
    var f0, f1 := B("f0", x, y), B("f1", z, w);
    var a0, a1 := Atom(Box("f0", x, y, false)), Atom(Box("f1", z, w, false));
    var d := Then(Tensor(Id(x), f1), Tensor(f0, Id(w)));
    assert d == Diagram(x + z, y + w, [a1, a0], [1, 0]);
    assert RightOf(d, 0);
    assert Put(d.boxes, 0, a0, a1) == [a0, a1];
    assert Put(d.offsets, 0, 0, 1) == [0, 1];
    assert RightMove(d, 0) == Tensor(f0, f1);
  }

  /** `(f0 @ f1).dagger().interchange(0, 1) == f0.dagger() @ f1.dagger()`. */
  lemma DaggerSlide()
    ensures var f0, f1 := B("f0", x, y), B("f1", z, w);
            Interchanged(Dagger(Tensor(f0, f1)), 0, 1, false) == Ok(Tensor(Dagger(f0), Dagger(f1)))
  {
    var f0, f1 := B("f0", x, y), B("f1", z, w);
    var a0, a1 := Atom(Box("f0", x, y, false).Dagger()), Atom(Box("f1", z, w, false).Dagger());
    var d := Dagger(Tensor(f0, f1));
    assert d == Diagram(y + w, x + z, [a1, a0], [1, 0]);
    assert RightOf(d, 0);
    assert Put(d.boxes, 0, a0, a1) == [a0, a1];
    assert Put(d.offsets, 0, 0, 1) == [0, 1];
    assert RightMove(d, 0) == Tensor(Dagger(f0), Dagger(f1));
  }

  /**
   * Eckmann-Hilton for scalars: `s0 @ s1 == s0 >> s1 == (s1 @ s0).interchange(0, 1)`;
   * the same with the scalars exchanged is this lemma on `s1` and `s0`.
   */
  lemma EckmannHilton(s0: Box, s1: Box)
    requires s0.dom == s0.cod == s1.dom == s1.cod == []
    ensures Tensor(BoxDiagram(s0), BoxDiagram(s1)) == Then(BoxDiagram(s0), BoxDiagram(s1))
    ensures Interchanged(Tensor(BoxDiagram(s1), BoxDiagram(s0)), 0, 1, false) == Ok(Tensor(BoxDiagram(s0), BoxDiagram(s1)))
  {
    var d := Tensor(BoxDiagram(s1), BoxDiagram(s0));
    assert d == Diagram([], [], [Atom(s1), Atom(s0)], [0, 0]);
    assert RightOf(d, 0);
    assert Put(d.boxes, 0, Atom(s0), Atom(s1)) == [Atom(s0), Atom(s1)];
    assert Put(d.offsets, 0, 0, 0) == [0, 0];
    assert RightMove(d, 0) == Tensor(BoxDiagram(s0), BoxDiagram(s1));
  }

  /** With `d = f @ f.dagger()`: `d.interchange(0, 1) == Id(x) @ f.dagger() >> f @ Id(x)`. */
  lemma BoxPastAdjoint()
    ensures var f := B("f", x, y);
            Interchanged(Tensor(f, Dagger(f)), 0, 1, false) == Ok(Then(Tensor(Id(x), Dagger(f)), Tensor(f, Id(x))))
  {
    var f := B("f", x, y);
    var a, b := Atom(Box("f", x, y, false)), Atom(Box("f", x, y, false).Dagger());
    var d := Tensor(f, Dagger(f));
    assert d == Diagram(x + y, y + x, [a, b], [0, 1]);
    assert LeftOf(d, 0) && !RightOf(d, 0);
    assert Put(d.boxes, 0, b, a) == [b, a];
    assert Put(d.offsets, 0, 1, 0) == [1, 0];
    assert LeftMove(d, 0) == Then(Tensor(Id(x), Dagger(f)), Tensor(f, Id(x)));
  }

  /** `d >> d.dagger()` for `d = f @ f.dagger()`, written out. */
  lemma BoxesAndAdjoints()
    ensures var f := B("f", x, y);
            var d := Tensor(f, Dagger(f));
            Then(d, Dagger(d)) == Diagram(x + y, x + y, [Atom(Box("f", x, y, false)), Atom(Box("f", x, y, false).Dagger()),
                                                         Atom(Box("f", x, y, false)), Atom(Box("f", x, y, false).Dagger())], [0, 1, 1, 0])
  {
    var f := B("f", x, y);
    var a, b := Atom(Box("f", x, y, false)), Atom(Box("f", x, y, false).Dagger());
    var d := Tensor(f, Dagger(f));
    assert d == Diagram(x + y, y + x, [a, b], [0, 1]);
    assert DaggerBoxes([a, b]) == [a, b] by {
      assert DaggerNode(b) == a;
    }
    assert Dagger(d) == Diagram(y + x, x + y, [a, b], [1, 0]);
  }

  /** The four-box diagram `d >> d.dagger()` for `d = f @ f.dagger()`, after the first and the second step of the walk up. */
  function WalkUpState(k: nat): Diagram {
    var a, b := Atom(Box("f", x, y, false)), Atom(Box("f", x, y, false).Dagger());
    if k == 0 then Diagram(x + y, x + y, [a, b, a, b], [0, 1, 1, 0])
    else if k == 1 then Diagram(x + y, x + y, [b, a, a, b], [1, 0, 1, 0])
    else Diagram(x + y, x + y, [b, a, a, b], [1, 1, 0, 0])
  }

  lemma WalkUpFirstStep()
    ensures InterchangeAdjacent(WalkUpState(0), 0, false) == Ok(WalkUpState(1))
  {
    var a, b := Atom(Box("f", x, y, false)), Atom(Box("f", x, y, false).Dagger());
    var start, next := WalkUpState(0), WalkUpState(1);
    assert LeftOf(start, 0) && !RightOf(start, 0);
    assert Put(start.boxes, 0, b, a) == next.boxes;
    assert Put(start.offsets, 0, 1, 0) == next.offsets;
  }

  lemma WalkUpSecondStep()
    ensures InterchangeAdjacent(WalkUpState(1), 1, false) == Ok(WalkUpState(2))
  {
    var a := Atom(Box("f", x, y, false));
    var start, next := WalkUpState(1), WalkUpState(2);
    assert LeftOf(start, 1) && !RightOf(start, 1);
    assert Put(start.boxes, 1, a, a) == next.boxes;
    assert Put(start.offsets, 1, 1, 0) == next.offsets;
  }

  /** `Id(x) @ f.dagger() >> Id(x) @ f >> f @ Id(y) >> f.dagger() @ Id(y)`, written out. */
  lemma WalkUpResult()
    ensures var f := B("f", x, y);
            Then(Then(Then(Tensor(Id(x), Dagger(f)), Tensor(Id(x), f)), Tensor(f, Id(y))), Tensor(Dagger(f), Id(y))) == WalkUpState(2)
  {
  }

  /**
   * `(d >> d.dagger()).interchange(0, 2)` for `d = f @ f.dagger()`: a walk up
   * of two steps, giving `Id(x) @ f.dagger() >> Id(x) @ f >> f @ Id(y) >> f.dagger() @ Id(y)`.
   */
  lemma WalkUpExample()
    ensures var f := B("f", x, y);
            var d := Tensor(f, Dagger(f));
            Interchanged(Then(d, Dagger(d)), 0, 2, false) ==
              Ok(Then(Then(Then(Tensor(Id(x), Dagger(f)), Tensor(Id(x), f)), Tensor(f, Id(y))), Tensor(Dagger(f), Id(y))))
  {
    BoxesAndAdjoints();
    WalkUpResult();
    WalkUpFirstStep();
    WalkUpSecondStep();
    WalkUpStep(WalkUpState(0), 0, 2);
    WalkUpStep(WalkUpState(1), 1, 2);
  }

  /**
   * `(cup >> cap).interchange(0, 1)` is `cap @ Id(x @ x) >> Id(x @ x) @ cup`
   * by default: the only example where both moves apply, so the right move wins.
   */
  lemma CupCapRight()
    ensures var cup, cap := B("cup", x + x, []), B("cap", [], x + x);
            Interchanged(Then(cup, cap), 0, 1, false) == Ok(Then(Tensor(cap, Id(x + x)), Tensor(Id(x + x), cup)))
  {
    var cup, cap := B("cup", x + x, []), B("cap", [], x + x);
    var u, p := Atom(Box("cup", x + x, [], false)), Atom(Box("cap", [], x + x, false));
    var d := Then(cup, cap);
    assert d == Diagram(x + x, x + x, [u, p], [0, 0]);
    assert RightOf(d, 0) && LeftOf(d, 0);
    assert Put(d.boxes, 0, p, u) == [p, u];
    assert Put(d.offsets, 0, 0, 2) == [0, 2];
    assert RightMove(d, 0) == Then(Tensor(cap, Id(x + x)), Tensor(Id(x + x), cup));
  }

  /** `(cup >> cap).interchange(0, 1, left=True) == Id(x @ x) @ cap >> cup @ Id(x @ x)`. */
  lemma CupCapLeft()
    ensures var cup, cap := B("cup", x + x, []), B("cap", [], x + x);
            Interchanged(Then(cup, cap), 0, 1, true) == Ok(Then(Tensor(Id(x + x), cap), Tensor(cup, Id(x + x))))
  {
    var cup, cap := B("cup", x + x, []), B("cap", [], x + x);
    var u, p := Atom(Box("cup", x + x, [], false)), Atom(Box("cap", [], x + x, false));
    var d := Then(cup, cap);
    assert d == Diagram(x + x, x + x, [u, p], [0, 0]);
    assert LeftOf(d, 0);
    assert Put(d.boxes, 0, p, u) == [p, u];
    assert Put(d.offsets, 0, 2, 0) == [2, 0];
    assert LeftMove(d, 0) == Then(Tensor(Id(x + x), cap), Tensor(cup, Id(x + x)));
  }

  /** `f0 @ Id(y) >> f1 @ f1 >> Id(x) @ f0`, written out. */
  lemma FourBoxes()
    ensures var f0, f1 := B("f0", x, y), B("f1", y, x);
            Then(Then(Tensor(f0, Id(y)), Tensor(f1, f1)), Tensor(Id(x), f0)) ==
              Diagram(x + y, x + y, [Atom(Box("f0", x, y, false)), Atom(Box("f1", y, x, false)),
                                     Atom(Box("f1", y, x, false)), Atom(Box("f0", x, y, false))], [0, 0, 1, 1])
  {
  }

  /** `(f0 @ Id(y) >> f1 @ f1 >> Id(x) @ f0).interchange(0, 2)` raises InterchangerError: `f0` and `f1` share a wire. */
  lemma BlockedWalk()
    ensures var f0, f1 := B("f0", x, y), B("f1", y, x);
            var d := Then(Then(Tensor(f0, Id(y)), Tensor(f1, f1)), Tensor(Id(x), f0));
            Interchanged(d, 0, 2, false) == Err(InterchangerError(Atom(Box("f0", x, y, false)), Atom(Box("f1", y, x, false))))
  {
    FourBoxes();
  }

  /** The four-box diagram `f0 @ Id(y) >> f1 @ f1 >> Id(x) @ f0`, after the first and the second step of the walk down. */
  function WalkDownState(k: nat): Diagram {
    var a, b := Atom(Box("f0", x, y, false)), Atom(Box("f1", y, x, false));
    if k == 0 then Diagram(x + y, x + y, [a, b, b, a], [0, 0, 1, 1])
    else if k == 1 then Diagram(x + y, x + y, [a, b, b, a], [0, 1, 0, 1])
    else Diagram(x + y, x + y, [b, a, b, a], [1, 0, 0, 1])
  }

  lemma WalkDownFirstStep()
    ensures InterchangeAdjacent(WalkDownState(0), 1, false) == Ok(WalkDownState(1))
  {
    var b := Atom(Box("f1", y, x, false));
    var start, next := WalkDownState(0), WalkDownState(1);
    assert LeftOf(start, 1) && !RightOf(start, 1);
    assert Put(start.boxes, 1, b, b) == next.boxes;
    assert Put(start.offsets, 1, 1, 0) == next.offsets;
  }

  lemma WalkDownSecondStep()
    ensures InterchangeAdjacent(WalkDownState(1), 0, false) == Ok(WalkDownState(2))
  {
    var a, b := Atom(Box("f0", x, y, false)), Atom(Box("f1", y, x, false));
    var start, next := WalkDownState(1), WalkDownState(2);
    assert LeftOf(start, 0) && !RightOf(start, 0);
    assert Put(start.boxes, 0, b, a) == next.boxes;
    assert Put(start.offsets, 0, 1, 0) == next.offsets;
  }

  /** `Id(x) @ f1 >> f0 @ Id(x) >> f1 @ f0`, written out. */
  lemma WalkDownResult()
    ensures var f0, f1 := B("f0", x, y), B("f1", y, x);
            Then(Then(Tensor(Id(x), f1), Tensor(f0, Id(x))), Tensor(f1, f0)) == WalkDownState(2)
  {
  }

  /** `(f0 @ Id(y) >> f1 @ f1 >> Id(x) @ f0).interchange(2, 0) == Id(x) @ f1 >> f0 @ Id(x) >> f1 @ f0`: a walk down of two steps. */
  lemma WalkDownExample()
    ensures var f0, f1 := B("f0", x, y), B("f1", y, x);
            var d := Then(Then(Tensor(f0, Id(y)), Tensor(f1, f1)), Tensor(Id(x), f0));
            Interchanged(d, 2, 0, false) == Ok(Then(Then(Tensor(Id(x), f1), Tensor(f0, Id(x))), Tensor(f1, f0)))
  {
    FourBoxes();
    WalkDownResult();
    WalkDownFirstStep();
    WalkDownSecondStep();
    WalkDownStep(WalkDownState(0), 2, 0);
    WalkDownStep(WalkDownState(1), 1, 0);
  }
}
