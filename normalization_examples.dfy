/** The examples of `normalize` and `normal_form`, on concrete boxes. */
module NormalizationExamples {
  import opened Results
  import opened Types
  import opened Diagrams
  import opened Composition
  import opened Interchange
  import opened Iteration
  import opened Normalization
  import opened Samples

  /** In a diagram of two boxes whose first pair is a right move, a right pass makes that move. */
  lemma PassRight(d: Diagram, e: Diagram)
    requires Aligned(d) && |d.boxes| == 2 && RightOf(d, 0) && RightMove(d, 0) == e
    ensures NormalizeStep(d, false) == e
  {
    assert Movable(d, 0, false);
    assert FirstMovable(d, false, 0) == Some(0);
    NormalizeStepIs(d, false, 0);
  }

  /** In a diagram of two boxes whose first pair is a left move, a left pass makes that move. */
  lemma PassLeft(d: Diagram, e: Diagram)
    requires Aligned(d) && |d.boxes| == 2 && LeftOf(d, 0) && LeftMove(d, 0) == e
    ensures NormalizeStep(d, true) == e
  {
    assert Movable(d, 0, true);
    assert FirstMovable(d, true, 0) == Some(0);
    NormalizeStepIs(d, true, 0);
  }

  /** In a diagram of two boxes whose pair does not pass the test, a pass changes nothing. */
  lemma PassStuck(d: Diagram, left: bool)
    requires Aligned(d) && |d.boxes| == 2 && !Movable(d, 0, left)
    ensures NormalizeStep(d, left) == d
  {
    assert FirstMovable(d, left, 1) == None;
    assert FirstMovable(d, left, 0) == None;
  }

  /** A diagram of at most one box is never rewritten. */
  lemma PassSingle(d: Diagram, left: bool)
    requires Aligned(d) && |d.boxes| <= 1
    ensures NormalizeStep(d, left) == d
  {
    assert FirstMovable(d, left, 0) == None;
  }

  /** A pass seen through the total function `Pass`. */
  lemma PassIs(d: Diagram, left: bool)
    requires Aligned(d)
    ensures Pass(left)(d) == NormalizeStep(d, left)
  {
  }

  /** The two scalars `s0 @ s1`, which is also `s0 >> s1`, and the same with the scalars exchanged. */
  function Scalars(first: string, second: string): Diagram {
    Diagram([], [], [Atom(Box(first, [], [], false)), Atom(Box(second, [], [], false))], [0, 0])
  }

  /** `s0 @ s1` and `s0 >> s1` are the same diagram, and a right pass exchanges the two scalars. */
  lemma ScalarsSwap(first: string, second: string)
    ensures Scalars(first, second) == Tensor(B(first, [], []), B(second, [], []))
    ensures Scalars(first, second) == Then(B(first, [], []), B(second, [], []))
    ensures NormalizeStep(Scalars(first, second), false) == Scalars(second, first)
  {
    var d := Scalars(first, second);
    var a0, a1 := Atom(Box(first, [], [], false)), Atom(Box(second, [], [], false));
    assert RightOf(d, 0);
    assert Put(d.boxes, 0, a1, a0) == [a1, a0];
    assert Put(d.offsets, 0, 0, 0) == [0, 0];
    PassRight(d, Scalars(second, first));
  }

  lemma ScalarsDiffer(first: string, second: string)
    requires first != second
    ensures Scalars(first, second) != Scalars(second, first)
  {
    assert Scalars(first, second).boxes[0] != Scalars(second, first).boxes[0];
  }

  /** `(s0 @ s1).normalize()` never stops: it yields `s1 >> s0`, `s0 >> s1`, `s1 >> s0`, and so on. */
  lemma ScalarsOscillate()
    ensures Trace(Scalars("s0", "s1"), false, 3) == [Scalars("s1", "s0"), Scalars("s0", "s1"), Scalars("s1", "s0")]
  {
    var d, e := Scalars("s0", "s1"), Scalars("s1", "s0");
    ScalarsSwap("s0", "s1");
    ScalarsSwap("s1", "s0");
    ScalarsDiffer("s0", "s1");
    PassIs(d, false);
    PassIs(e, false);
    OrbitUnfold(Pass(false), d, 3);
    OrbitUnfold(Pass(false), e, 2);
    OrbitUnfold(Pass(false), d, 1);
    OrbitStops(Pass(false), e, 0);
  }

  /** `(s0 >> s1).normal_form()` fails: the diagram is not connected. */
  lemma ScalarsNotConnected(fuel: nat)
    requires fuel >= 3
    ensures NormalForm(Scalars("s0", "s1"), false, fuel) == Err(NotConnected(Scalars("s0", "s1")))
  {
    var d, e := Scalars("s0", "s1"), Scalars("s1", "s0");
    ScalarsSwap("s0", "s1");
    ScalarsSwap("s1", "s0");
    ScalarsDiffer("s0", "s1");
    PassIs(d, false);
    PassIs(e, false);
    SettleAdvance(Pass(false), d, e, {}, fuel);
    SettleAdvance(Pass(false), e, d, {e}, fuel - 1);
    assert e in {e} + {d};
  }

  /** `Id(x) @ f1 >> f0 @ Id(x)`, with `f0: x -> y` and `f1: y -> x`. */
  function Staircase(): Diagram {
    Then(Tensor(Id(x), B("f1", y, x)), Tensor(B("f0", x, y), Id(x)))
  }

  /** `f0 @ f1`, which `normalize` prints as `f0 @ Id(y) >> Id(y) @ f1`. */
  function SideBySide(): Diagram {
    Tensor(B("f0", x, y), B("f1", y, x))
  }

  lemma StaircaseIs()
    ensures Staircase() == Diagram(x + y, y + x, [Atom(Box("f1", y, x, false)), Atom(Box("f0", x, y, false))], [1, 0])
    ensures SideBySide() == Diagram(x + y, y + x, [Atom(Box("f0", x, y, false)), Atom(Box("f1", y, x, false))], [0, 1])
  {
  }

  /** A right pass on the staircase slides `f0` up; nothing then moves right. */
  lemma StaircaseRight()
    ensures NormalizeStep(Staircase(), false) == SideBySide()
    ensures NormalizeStep(SideBySide(), false) == SideBySide()
  {
    var d, e := Staircase(), SideBySide();
    var a0, a1 := Atom(Box("f0", x, y, false)), Atom(Box("f1", y, x, false));
    StaircaseIs();
    assert RightOf(d, 0);
    assert Put(d.boxes, 0, a0, a1) == [a0, a1];
    assert Put(d.offsets, 0, 0, 1) == [0, 1];
    PassRight(d, e);
    assert !RightOf(e, 0);
    PassStuck(e, false);
  }

  /** A left pass on `f0 @ f1` slides `f1` down; nothing then moves left. */
  lemma SideBySideLeft()
    ensures NormalizeStep(SideBySide(), true) == Staircase()
    ensures NormalizeStep(Staircase(), true) == Staircase()
  {
    var d, e := SideBySide(), Staircase();
    var a0, a1 := Atom(Box("f0", x, y, false)), Atom(Box("f1", y, x, false));
    StaircaseIs();
    assert LeftOf(d, 0);
    assert Put(d.boxes, 0, a1, a0) == [a1, a0];
    assert Put(d.offsets, 0, 1, 0) == [1, 0];
    PassLeft(d, e);
    assert !LeftOf(e, 0);
    PassStuck(e, true);
  }

  /** `(Id(x) @ f1 >> f0 @ Id(x)).normalize()` yields `f0 @ f1` only, and that is its normal form. */
  lemma StaircaseNormalizes(n: nat, fuel: nat)
    requires n >= 1 && fuel >= 2
    ensures Trace(Staircase(), false, n) == [SideBySide()]
    ensures NormalForm(Staircase(), false, fuel) == Ok(SideBySide())
  {
    var d, e := Staircase(), SideBySide();
    StaircaseIs();
    StaircaseRight();
    assert d.boxes[0] != e.boxes[0];
    PassIs(d, false);
    PassIs(e, false);
    OrbitUnfold(Pass(false), d, n);
    OrbitStops(Pass(false), e, n - 1);
    SettleAdvance(Pass(false), d, e, {}, fuel);
    SettleAtFixpoint(Pass(false), e, {e}, fuel - 1);
  }

  /** `(f0 @ f1).normalize(left=True)` yields the staircase only, and that is its normal form for left moves. */
  lemma SideBySideNormalizesLeft(n: nat, fuel: nat)
    requires n >= 1 && fuel >= 2
    ensures Trace(SideBySide(), true, n) == [Staircase()]
    ensures NormalForm(SideBySide(), true, fuel) == Ok(Staircase())
  {
    var d, e := SideBySide(), Staircase();
    StaircaseIs();
    SideBySideLeft();
    assert d.boxes[0] != e.boxes[0];
    PassIs(d, true);
    PassIs(e, true);
    OrbitUnfold(Pass(true), d, n);
    OrbitStops(Pass(true), e, n - 1);
    SettleAdvance(Pass(true), d, e, {}, fuel);
    SettleAtFixpoint(Pass(true), e, {e}, fuel - 1);
  }

  /** Identities, a single box and `f0 >> f1` are their own normal forms. */
  lemma AlreadyNormal(fuel: nat)
    requires fuel >= 1
    ensures NormalForm(Id([]), false, fuel) == Ok(Id([]))
    ensures NormalForm(Id(x + y), false, fuel) == Ok(Id(x + y))
    ensures NormalForm(B("f0", x, y), false, fuel) == Ok(B("f0", x, y))
    ensures NormalForm(Then(B("f0", x, y), B("f1", y, x)), false, fuel) == Ok(Then(B("f0", x, y), B("f1", y, x)))
  {
    PassSingle(Id([]), false);
    NormalFormOfFixpoint(Id([]), false, fuel);
    PassSingle(Id(x + y), false);
    NormalFormOfFixpoint(Id(x + y), false, fuel);
    PassSingle(B("f0", x, y), false);
    NormalFormOfFixpoint(B("f0", x, y), false, fuel);
    var d := Then(B("f0", x, y), B("f1", y, x));
    assert d.offsets == [0, 0] && |d.boxes| == 2;
    assert !RightOf(d, 0);
    PassStuck(d, false);
    NormalFormOfFixpoint(d, false, fuel);
  }
}
