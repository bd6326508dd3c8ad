/**
 * The docstring of `_spiral` for `n = 2`: `normal_form` winds the spiral
 * out in twenty right moves, and the counit ends last with the unit at
 * position `n`.
 */
module SpiralExamples {
  import opened Results
  import opened Types
  import opened Diagrams
  import opened Interchange
  import opened Iteration
  import opened Normalization
  import opened Spirals
  import NormalizationExamples

  // The four boxes of the spiral as box-list entries: U the unit, K the
  // counit, C the cap (`Ty()` to `x @ x`) and P the cup (`x @ x` to `Ty()`).
  const U: Node := Atom(Unit)
  const K: Node := Atom(Counit)
  const C: Node := Atom(Cap)
  const P: Node := Atom(Cup)

  /** A scalar: a diagram from `Ty()` to `Ty()`. */
  function Scalar(boxes: seq<Node>, offsets: seq<int>): Diagram {
    Diagram([], [], boxes, offsets)
  }

  /** The diagrams `spiral.normalize()` goes through for `n = 2`, `spiral` first. */
  function State(k: nat): Diagram
    requires k <= 20
  {
    if k == 0 then Scalar([U, C, C, K, P, P], [0, 0, 1, 2, 1, 0])
    else if k == 1 then Scalar([C, U, C, K, P, P], [0, 2, 1, 2, 1, 0])
    else if k == 2 then Scalar([C, C, U, K, P, P], [0, 1, 4, 2, 1, 0])
    else if k == 3 then Scalar([C, C, K, U, P, P], [0, 1, 2, 3, 1, 0])
    else if k == 4 then Scalar([C, C, K, P, U, P], [0, 1, 2, 1, 1, 0])
    else if k == 5 then Scalar([C, C, K, U, P, P], [0, 1, 2, 1, 2, 0])
    else if k == 6 then Scalar([C, C, U, K, P, P], [0, 1, 1, 3, 2, 0])
    else if k == 7 then Scalar([C, U, C, K, P, P], [0, 1, 2, 3, 2, 0])
    else if k == 8 then Scalar([C, U, C, K, P, P], [0, 1, 2, 3, 0, 0])
    else if k == 9 then Scalar([C, U, C, P, K, P], [0, 1, 2, 0, 1, 0])
    else if k == 10 then Scalar([C, U, P, C, K, P], [0, 1, 0, 0, 1, 0])
    else if k == 11 then Scalar([C, U, C, P, K, P], [0, 1, 0, 2, 1, 0])
    else if k == 12 then Scalar([C, C, U, P, K, P], [0, 0, 3, 2, 1, 0])
    else if k == 13 then Scalar([C, C, U, P, K, P], [0, 2, 3, 2, 1, 0])
    else if k == 14 then Scalar([C, C, U, K, P, P], [0, 2, 3, 1, 1, 0])
    else if k == 15 then Scalar([C, C, K, U, P, P], [0, 2, 1, 2, 1, 0])
    else if k == 16 then Scalar([C, K, C, U, P, P], [0, 1, 1, 2, 1, 0])
    else if k == 17 then Scalar([C, C, K, U, P, P], [0, 1, 3, 2, 1, 0])
    else if k == 18 then Scalar([C, C, U, K, P, P], [0, 1, 2, 4, 1, 0])
    else if k == 19 then Scalar([C, C, U, P, K, P], [0, 1, 2, 1, 2, 0])
    else Scalar([C, C, U, P, P, K], [0, 1, 2, 1, 0, 0])
  }

  /** `_spiral(2)` is the first of them. */
  lemma SpiralIsFirst()
    ensures Spiral(2) == State(0)
  {
    SpiralBoxes(2);
    var d := Spiral(2);
    assert d.boxes == [U, C, C, K, P, P];
    assert d.offsets == [0, 0, 1, 2, 1, 0];
  }

  /** A right pass makes the move at `i` when no pair before `i` passes the test and the pair at `i` does. */
  lemma PassAt(d: Diagram, i: nat, e: Diagram)
    requires Aligned(d) && i + 1 < |d.boxes|
    requires forall m :: 0 <= m < i ==> !RightOf(d, m)
    requires RightOf(d, i) && RightMove(d, i) == e
    ensures NormalizeStep(d, false) == e
  {
    assert Movable(d, i, false);
    assert FirstMovable(d, false, 0) == Some(i);
    NormalizeStepIs(d, false, i);
  }

  /** Pass 0: the first pair that passes the test is at 0, and the right move exchanges it. */
  lemma Pass0()
    ensures NormalizeStep(State(0), false) == State(1)
  {
    PassAt(State(0), 0, State(1));
  }

  /** Pass 1: the first pair that passes the test is at 1, and the right move exchanges it. */
  lemma Pass1()
    ensures NormalizeStep(State(1), false) == State(2)
  {
    PassAt(State(1), 1, State(2));
  }

  /** Pass 2: the first pair that passes the test is at 2, and the right move exchanges it. */
  lemma Pass2()
    ensures NormalizeStep(State(2), false) == State(3)
  {
    PassAt(State(2), 2, State(3));
  }

  /** Pass 3: the first pair that passes the test is at 3, and the right move exchanges it. */
  lemma Pass3()
    ensures NormalizeStep(State(3), false) == State(4)
  {
    PassAt(State(3), 3, State(4));
  }

  /** Pass 4: the first pair that passes the test is at 3, and the right move exchanges it. */
  lemma Pass4()
    ensures NormalizeStep(State(4), false) == State(5)
  {
    PassAt(State(4), 3, State(5));
  }

  /** Pass 5: the first pair that passes the test is at 2, and the right move exchanges it. */
  lemma Pass5()
    ensures NormalizeStep(State(5), false) == State(6)
  {
    PassAt(State(5), 2, State(6));
  }

  /** Pass 6: the first pair that passes the test is at 1, and the right move exchanges it. */
  lemma Pass6()
    ensures NormalizeStep(State(6), false) == State(7)
  {
    PassAt(State(6), 1, State(7));
  }

  /** Pass 7: the first pair that passes the test is at 4, and the right move exchanges it. */
  lemma Pass7()
    ensures NormalizeStep(State(7), false) == State(8)
  {
    PassAt(State(7), 4, State(8));
  }

  /** Pass 8: the first pair that passes the test is at 3, and the right move exchanges it. */
  lemma Pass8()
    ensures NormalizeStep(State(8), false) == State(9)
  {
    PassAt(State(8), 3, State(9));
  }

  /** Pass 9: the first pair that passes the test is at 2, and the right move exchanges it. */
  lemma Pass9()
    ensures NormalizeStep(State(9), false) == State(10)
  {
    PassAt(State(9), 2, State(10));
  }

  /** Pass 10: the first pair that passes the test is at 2, and the right move exchanges it. */
  lemma Pass10()
    ensures NormalizeStep(State(10), false) == State(11)
  {
    PassAt(State(10), 2, State(11));
  }

  /** Pass 11: the first pair that passes the test is at 1, and the right move exchanges it. */
  lemma Pass11()
    ensures NormalizeStep(State(11), false) == State(12)
  {
    PassAt(State(11), 1, State(12));
  }

  /** Pass 12: the first pair that passes the test is at 0, and the right move exchanges it. */
  lemma Pass12()
    ensures NormalizeStep(State(12), false) == State(13)
  {
    PassAt(State(12), 0, State(13));
  }

  /** Pass 13: the first pair that passes the test is at 3, and the right move exchanges it. */
  lemma Pass13()
    ensures NormalizeStep(State(13), false) == State(14)
  {
    PassAt(State(13), 3, State(14));
  }

  /** Pass 14: the first pair that passes the test is at 2, and the right move exchanges it. */
  lemma Pass14()
    ensures NormalizeStep(State(14), false) == State(15)
  {
    PassAt(State(14), 2, State(15));
  }

  /** Pass 15: the first pair that passes the test is at 1, and the right move exchanges it. */
  lemma Pass15()
    ensures NormalizeStep(State(15), false) == State(16)
  {
    PassAt(State(15), 1, State(16));
  }

  /** Pass 16: the first pair that passes the test is at 1, and the right move exchanges it. */
  lemma Pass16()
    ensures NormalizeStep(State(16), false) == State(17)
  {
    PassAt(State(16), 1, State(17));
  }

  /** Pass 17: the first pair that passes the test is at 2, and the right move exchanges it. */
  lemma Pass17()
    ensures NormalizeStep(State(17), false) == State(18)
  {
    PassAt(State(17), 2, State(18));
  }

  /** Pass 18: the first pair that passes the test is at 3, and the right move exchanges it. */
  lemma Pass18()
    ensures NormalizeStep(State(18), false) == State(19)
  {
    PassAt(State(18), 3, State(19));
  }

  /** Pass 19: the first pair that passes the test is at 4, and the right move exchanges it. */
  lemma Pass19()
    ensures NormalizeStep(State(19), false) == State(20)
  {
    PassAt(State(19), 4, State(20));
  }

  /** Each pass of `spiral.normalize()` makes one right move, at the first pair that passes the test. */
  lemma Passes(k: nat)
    requires k < 20
    ensures Pass(false)(State(k)) == State(k + 1)
  {
    if k == 0 {
      Pass0();
    } else if k == 1 {
      Pass1();
    } else if k == 2 {
      Pass2();
    } else if k == 3 {
      Pass3();
    } else if k == 4 {
      Pass4();
    } else if k == 5 {
      Pass5();
    } else if k == 6 {
      Pass6();
    } else if k == 7 {
      Pass7();
    } else if k == 8 {
      Pass8();
    } else if k == 9 {
      Pass9();
    } else if k == 10 {
      Pass10();
    } else if k == 11 {
      Pass11();
    } else if k == 12 {
      Pass12();
    } else if k == 13 {
      Pass13();
    } else if k == 14 {
      Pass14();
    } else if k == 15 {
      Pass15();
    } else if k == 16 {
      Pass16();
    } else if k == 17 {
      Pass17();
    } else if k == 18 {
      Pass18();
    } else {
      Pass19();
    }
    NormalizationExamples.PassIs(State(k), false);
  }

  /** After the last pass no pair passes the test: `normalize` stops. */
  lemma Settled()
    ensures Pass(false)(State(20)) == State(20)
  {
    var d := State(20);
    assert forall m :: 0 <= m && m + 1 < |d.boxes| ==> !Movable(d, m, false);
    assert FirstMovable(d, false, 0) == None;
    NormalizationExamples.PassIs(d, false);
  }


  /** A number for each box, from the lengths of its domain and codomain: the unit, counit, cup and cap differ in them. */
  function Code(n: Node): int {
    if n.Atom? then |n.box.dom| + 3 * |n.box.cod| else 0
  }

  /** The digit of the box at `m` in base 35: its offset and its kind. */
  function Digit(d: Diagram, m: nat): int
    requires m < |d.boxes| && m < |d.offsets|
  {
    d.offsets[m] + 5 * Code(d.boxes[m])
  }

  /** A number for a diagram of six boxes, one digit per box: equal diagrams have equal keys, so different keys tell the states apart. */
  function Key(d: Diagram): int {
    if |d.boxes| != 6 || |d.offsets| != 6 then 0
    else Digit(d, 0) + 35 * (Digit(d, 1) + 35 * (Digit(d, 2) + 35 * (Digit(d, 3) + 35 * (Digit(d, 4) + 35 * Digit(d, 5)))))
  }

  /** The keys of the states, twenty-one different numbers. */
  const Keys: seq<int> := [
    542064790, 542064350, 542050140, 542507065,
    549710065, 543921940, 543589965, 543609040,
    540607790, 534691040, 535521590, 534774340,
    534760130, 534760200, 542006075, 542463000,
    542492715, 542465415, 542133440, 536216690,
    278109190
  ]

  /** The key of state 0. */
  lemma Key0()
    ensures Key(State(0)) == Keys[0]
  {
  }

  /** The key of state 1. */
  lemma Key1()
    ensures Key(State(1)) == Keys[1]
  {
  }

  /** The key of state 2. */
  lemma Key2()
    ensures Key(State(2)) == Keys[2]
  {
  }

  /** The key of state 3. */
  lemma Key3()
    ensures Key(State(3)) == Keys[3]
  {
  }

  /** The key of state 4. */
  lemma Key4()
    ensures Key(State(4)) == Keys[4]
  {
  }

  /** The key of state 5. */
  lemma Key5()
    ensures Key(State(5)) == Keys[5]
  {
  }

  /** The key of state 6. */
  lemma Key6()
    ensures Key(State(6)) == Keys[6]
  {
  }

  /** The key of state 7. */
  lemma Key7()
    ensures Key(State(7)) == Keys[7]
  {
  }

  /** The key of state 8. */
  lemma Key8()
    ensures Key(State(8)) == Keys[8]
  {
  }

  /** The key of state 9. */
  lemma Key9()
    ensures Key(State(9)) == Keys[9]
  {
  }

  /** The key of state 10. */
  lemma Key10()
    ensures Key(State(10)) == Keys[10]
  {
  }

  /** The key of state 11. */
  lemma Key11()
    ensures Key(State(11)) == Keys[11]
  {
  }

  /** The key of state 12. */
  lemma Key12()
    ensures Key(State(12)) == Keys[12]
  {
  }

  /** The key of state 13. */
  lemma Key13()
    ensures Key(State(13)) == Keys[13]
  {
  }

  /** The key of state 14. */
  lemma Key14()
    ensures Key(State(14)) == Keys[14]
  {
  }

  /** The key of state 15. */
  lemma Key15()
    ensures Key(State(15)) == Keys[15]
  {
  }

  /** The key of state 16. */
  lemma Key16()
    ensures Key(State(16)) == Keys[16]
  {
  }

  /** The key of state 17. */
  lemma Key17()
    ensures Key(State(17)) == Keys[17]
  {
  }

  /** The key of state 18. */
  lemma Key18()
    ensures Key(State(18)) == Keys[18]
  {
  }

  /** The key of state 19. */
  lemma Key19()
    ensures Key(State(19)) == Keys[19]
  {
  }

  /** The key of state 20. */
  lemma Key20()
    ensures Key(State(20)) == Keys[20]
  {
  }

  /** The key of each state. */
  lemma KeyOf(k: nat)
    requires k <= 20
    ensures Key(State(k)) == Keys[k]
  {
    if k == 0 {
      Key0();
    } else if k == 1 {
      Key1();
    } else if k == 2 {
      Key2();
    } else if k == 3 {
      Key3();
    } else if k == 4 {
      Key4();
    } else if k == 5 {
      Key5();
    } else if k == 6 {
      Key6();
    } else if k == 7 {
      Key7();
    } else if k == 8 {
      Key8();
    } else if k == 9 {
      Key9();
    } else if k == 10 {
      Key10();
    } else if k == 11 {
      Key11();
    } else if k == 12 {
      Key12();
    } else if k == 13 {
      Key13();
    } else if k == 14 {
      Key14();
    } else if k == 15 {
      Key15();
    } else if k == 16 {
      Key16();
    } else if k == 17 {
      Key17();
    } else if k == 18 {
      Key18();
    } else if k == 19 {
      Key19();
    } else {
      Key20();
    }
  }

  /** The states are twenty-one different diagrams. */
  lemma Distinct(i: nat, j: nat)
    requires i < j <= 20
    ensures State(i) != State(j)
  {
    KeyOf(i);
    KeyOf(j);
    assert Keys[i] != Keys[j];
  }

  /** The states in order. */
  function Run(): seq<Diagram> {
    seq(21, j requires 0 <= j < 21 => State(j))
  }

  /** Each state is a pass of the one before. */
  lemma RunSteps()
    ensures |Run()| == 21
    ensures forall j :: 0 <= j < 20 ==> Pass(false)(Run()[j]) == Run()[j + 1]
  {
    forall j | 0 <= j < 20
      ensures Pass(false)(Run()[j]) == Run()[j + 1]
    {
      Passes(j);
    }
  }

  /** No state comes twice. */
  lemma RunDistinct()
    ensures |Run()| == 21
    ensures forall i, j :: 0 <= i < j < 21 ==> Run()[i] != Run()[j]
  {
    forall i, j | 0 <= i < j < 21
      ensures Run()[i] != Run()[j]
    {
      Distinct(i, j);
    }
  }

  /** The last state ends on the counit, with the unit at position `n = 2`. */
  lemma LastBoxes()
    ensures var boxes := State(20).boxes; boxes[|boxes| - 1] == Atom(Counit) && boxes[2] == Atom(Unit)
  {
    var boxes := State(20).boxes;
    assert boxes == [C, C, U, P, P, K];
    assert boxes[5] == K && boxes[2] == U;
  }

  /**
   * `_spiral(2).normal_form()` takes twenty passes, none of which meets a
   * diagram seen before, and ends on a diagram whose last box is the counit
   * and whose box at position `n = 2` is the unit.
   */
  lemma SpiralNormalForm(fuel: nat)
    requires fuel > 20
    ensures NormalForm(Spiral(2), false, fuel) == Ok(State(20))
    ensures var boxes := State(20).boxes; boxes[|boxes| - 1] == Atom(Counit) && boxes[2] == Atom(Unit)
  {
    SpiralIsFirst();
    RunSteps();
    RunDistinct();
    Settled();
    SettleAlong(Pass(false), Run(), 0, {}, fuel);
    LastBoxes();
  }
}
