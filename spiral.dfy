/**
 * `_spiral(n)`: the scalar diagram on which `normal_form` takes the most
 * steps. A unit opens a wire, `n` caps wind it outwards, a counit closes
 * the middle wire and `n` cups wind it back in.
 */
module Spirals {
  import opened Results
  import opened Types
  import opened Diagrams
  import opened Samples
  import opened Composition

  const Unit: Box := Box("unit", [], x, false)
  const Counit: Box := Box("counit", x, [], false)
  const Cup: Box := Box("cup", x + x, [], false)
  const Cap: Box := Box("cap", [], x + x, false)

  /** `n` wires of type `x`. */
  function Wires(n: nat): (r: Ty)
    ensures |r| == n && forall i :: 0 <= i < n ==> r[i] == "x"
  {
    seq(n, i => "x")
  }

  lemma {:induction false} RepeatIsWires(n: nat)
    ensures Repeat(x, n) == Wires(n)
  {
    if n > 0 {
      RepeatIsWires(n - 1);
      assert Wires(n - 1) + x == Wires(n);
    }
  }

  /** `x ** n` is `n` wires of type `x`. */
  lemma PowIsWires(n: nat)
    ensures Pow(x, IntExponent(n)) == Ok(Wires(n))
  {
    RepeatIsWires(n);
    assert Pow(x, IntExponent(n)) == Ok(Repeat(x, n));
  }

  /** `x ** a @ x ** m @ x ** b == x ** (a + m + b)`. */
  lemma Joined(a: nat, m: nat, b: nat)
    ensures Wires(a) + Wires(m) + Wires(b) == Wires(a + m + b)
  {
  }

  /** `x @ x == x ** 2`, `x == x ** 1` and `Ty() == x ** 0`. */
  lemma Few()
    ensures Wires(0) == [] && Wires(1) == x && Wires(2) == x + x
  {
  }

  /** `Id(a) @ box @ Id(b)`: the box alone, at offset `|a|`, between the wires `a` and `b`. */
  function Whisker(a: Ty, box: Box, b: Ty): (r: Diagram)
    ensures r.dom == a + box.dom + b && r.cod == a + box.cod + b
    ensures r.boxes == [Atom(box)] && r.offsets == [|a|]
  {
    Diagram(a + box.dom + b, a + box.cod + b, [Atom(box)], [|a|])
  }

  /** The whiskered box is the tensor `Id(a) @ box @ Id(b)` the source builds. */
  lemma WhiskerTensor(a: Ty, box: Box, b: Ty)
    ensures Whisker(a, box, b) == Tensor(Tensor(Id(a), BoxDiagram(box)), Id(b))
  {
    var inner := Tensor(Id(a), BoxDiagram(box));
    assert Shift([0], |a|) == [|a|];
    assert [] + [Atom(box)] == [Atom(box)] && [] + [|a|] == [|a|];
    assert inner == Diagram(a + box.dom, a + box.cod, [Atom(box)], [|a|]);
    assert Shift([], |inner.cod|) == [];
    assert [Atom(box)] + [] == [Atom(box)] && [|a|] + [] == [|a|];
  }

  /** The whiskered box is well formed. */
  lemma WhiskerWf(a: Ty, box: Box, b: Ty)
    ensures Wf(Whisker(a, box, b))
  {
    StepAt(a, b, Atom(box));
  }

  /** Cap number `k` goes from `x ** (2k - 1)` to `x ** (2k + 1)`. */
  function CapLayer(k: nat): (r: Diagram)
    requires k > 0
    ensures r.dom == Wires(2 * k - 1) && r.cod == Wires(2 * k + 1)
  {
    Few();
    Joined(k - 1, 0, k);
    Joined(k - 1, 2, k);
    Whisker(Wires(k - 1), Cap, Wires(k))
  }

  /** The counit goes from `x ** (2n + 1)` to `x ** 2n`. */
  function CounitLayer(n: nat): (r: Diagram)
    ensures r.dom == Wires(2 * n + 1) && r.cod == Wires(2 * n)
  {
    Few();
    Joined(n, 1, n);
    Joined(n, 0, n);
    Whisker(Wires(n), Counit, Wires(n))
  }

  /** Cup number `k` of `n` goes from `x ** (2(n - k) + 2)` to `x ** 2(n - k)`. */
  function CupLayer(n: nat, k: nat): (r: Diagram)
    requires 0 < k <= n
    ensures r.dom == Wires(2 * (n - k) + 2) && r.cod == Wires(2 * (n - k))
  {
    Few();
    Joined(n - k, 2, n - k);
    Joined(n - k, 0, n - k);
    Whisker(Wires(n - k), Cup, Wires(n - k))
  }

  /** `unit >> Id(x ** 0) @ cap @ Id(x ** 1) >> ...`: the unit and the first `k` caps, `k + 1` boxes from `Ty()` to `x ** (2k + 1)`. */
  function Caps(k: nat): (r: Diagram)
    ensures r.dom == [] && r.cod == Wires(2 * k + 1)
    ensures |r.boxes| == |r.offsets| == k + 1
  {
    if k == 0 then
      Few();
      BoxDiagram(Unit)
    else
      Then(Caps(k - 1), CapLayer(k))
  }

  /**
   * The caps, the counit `Id(x ** n) @ counit @ Id(x ** n)` and the first
   * `k` cups `Id(x ** (n - i - 1)) @ cup @ Id(x ** (n - i - 1))`:
   * `n + k + 2` boxes from `Ty()` to `x ** (2(n - k))`.
   */
  function Cups(n: nat, k: nat): (r: Diagram)
    requires k <= n
    ensures r.dom == [] && r.cod == Wires(2 * (n - k))
    ensures |r.boxes| == |r.offsets| == n + k + 2
  {
    if k == 0 then
      Then(Caps(n), CounitLayer(n))
    else
      Then(Cups(n, k - 1), CupLayer(n, k))
  }

  /** `_spiral(n)`: a scalar, from `Ty()` to `Ty()`. */
  function Spiral(n: nat): (r: Diagram)
    ensures r.dom == [] && r.cod == []
  {
    Few();
    Cups(n, n)
  }

  /** The two loops of `_spiral`: the caps wound out, then the counit, then the cups wound in. */
  method RunSpiral(n: nat) returns (result: Diagram)
    ensures result == Spiral(n)
  {
    result := BoxDiagram(Unit);
    for i := 0 to n
      invariant result == Caps(i)
    {
      assert Caps(i + 1) == Then(Caps(i), CapLayer(i + 1));
      result := Then(result, CapLayer(i + 1));
    }
    result := Then(result, CounitLayer(n));
    for i := 0 to n
      invariant result == Cups(n, i)
    {
      assert Cups(n, i + 1) == Then(Cups(n, i), CupLayer(n, i + 1));
      result := Then(result, CupLayer(n, i + 1));
    }
  }

  /** The unit and the caps make a well-formed diagram. */
  lemma {:induction false} CapsWf(k: nat)
    ensures Wf(Caps(k))
  {
    if k > 0 {
      CapsWf(k - 1);
      WhiskerWf(Wires(k - 1), Cap, Wires(k));
      ThenPreservesWf(Caps(k - 1), CapLayer(k));
    }
  }

  /** The caps, the counit and the cups make a well-formed diagram. */
  lemma {:induction false} CupsWf(n: nat, k: nat)
    requires k <= n
    ensures Wf(Cups(n, k))
  {
    if k == 0 {
      CapsWf(n);
      WhiskerWf(Wires(n), Counit, Wires(n));
      ThenPreservesWf(Caps(n), CounitLayer(n));
    } else {
      CupsWf(n, k - 1);
      WhiskerWf(Wires(n - k), Cup, Wires(n - k));
      ThenPreservesWf(Cups(n, k - 1), CupLayer(n, k));
    }
  }

  /** `_spiral(n)` is a well-formed diagram: every box fits where it is put, and the wires all close. */
  lemma SpiralWf(n: nat)
    ensures Wf(Spiral(n))
  {
    CupsWf(n, n);
  }

  /** The boxes of the unit and the first `k` caps: the unit at 0, then cap number `m` at offset `m - 1`. */
  lemma {:induction false} CapsBoxes(k: nat)
    ensures var d := Caps(k);
            && |d.boxes| == |d.offsets| == k + 1
            && d.boxes[0] == Atom(Unit) && d.offsets[0] == 0
            && forall m :: 1 <= m <= k ==> d.boxes[m] == Atom(Cap) && d.offsets[m] == m - 1
  {
    if k > 0 {
      CapsBoxes(k - 1);
      var prev, layer := Caps(k - 1), CapLayer(k);
      assert Caps(k) == Then(prev, layer);
      assert layer.boxes == [Atom(Cap)] && layer.offsets == [k - 1];
    }
  }

  /** The boxes after the caps: the counit at offset `n`, then cup number `m - n - 1` at offset `2n + 1 - m`. */
  lemma {:induction false} CupsBoxes(n: nat, k: nat)
    requires k <= n
    ensures var d := Cups(n, k);
            && |d.boxes| == |d.offsets| == n + k + 2
            && (forall m :: 0 <= m <= n ==> d.boxes[m] == Caps(n).boxes[m] && d.offsets[m] == Caps(n).offsets[m])
            && d.boxes[n + 1] == Atom(Counit) && d.offsets[n + 1] == n
            && forall m :: n + 1 < m < n + k + 2 ==> d.boxes[m] == Atom(Cup) && d.offsets[m] == 2 * n + 1 - m
  {
    CapsBoxes(n);
    if k == 0 {
      var layer := CounitLayer(n);
      assert Cups(n, 0) == Then(Caps(n), layer);
      assert layer.boxes == [Atom(Counit)] && layer.offsets == [n];
    } else {
      CupsBoxes(n, k - 1);
      var prev, layer := Cups(n, k - 1), CupLayer(n, k);
      assert Cups(n, k) == Then(prev, layer);
      assert layer.boxes == [Atom(Cup)] && layer.offsets == [n - k];
    }
  }

  /**
   * `_spiral(n)` has `2n + 2` boxes: the unit first, `n` caps winding out,
   * the counit at position `n + 1` in the middle, and `n` cups winding in.
   */
  lemma SpiralBoxes(n: nat)
    ensures var d := Spiral(n);
            && |d.boxes| == |d.offsets| == 2 * n + 2
            && d.boxes[0] == Atom(Unit) && d.offsets[0] == 0
            && (forall m :: 1 <= m <= n ==> d.boxes[m] == Atom(Cap) && d.offsets[m] == m - 1)
            && d.boxes[n + 1] == Atom(Counit) && d.offsets[n + 1] == n
            && (forall m :: n + 1 < m < 2 * n + 2 ==> d.boxes[m] == Atom(Cup) && d.offsets[m] == 2 * n + 1 - m)
  {
    CupsBoxes(n, n);
    CapsBoxes(n);
    var d, caps := Spiral(n), Caps(n);
    assert d == Cups(n, n);
    assert d.boxes[0] == caps.boxes[0] && d.offsets[0] == caps.offsets[0];
    forall m | 1 <= m <= n
      ensures d.boxes[m] == Atom(Cap) && d.offsets[m] == m - 1
    {
      assert d.boxes[m] == caps.boxes[m] && d.offsets[m] == caps.offsets[m];
    }
  }
}
