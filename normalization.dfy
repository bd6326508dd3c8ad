/**
 * Normalisation by interchange: `normalize` repeatedly applies the first
 * interchange that moves in the chosen direction, and `normal_form` runs it
 * until nothing moves, failing when a diagram comes back.
 */
module Normalization {
  import opened Results
  import opened Types
  import opened Diagrams
  import opened Composition
  import opened Interchange
  import opened Seqs
  import opened Iteration

  /**
   * The test `normalize` applies to boxes `i` and `i + 1`: with `left`, box
   * `i + 1` lies right of the output of box `i`; otherwise box `i` lies right
   * of the input of box `i + 1`.
   */
  predicate Movable(d: Diagram, i: int, left: bool)
    requires Aligned(d) && 0 <= i && i + 1 < |d.boxes|
  {
    if left then LeftOf(d, i) else RightOf(d, i)
  }

  /** The first index from `from` on whose pair passes the test, if any. */
  function FirstMovable(d: Diagram, left: bool, from: nat): (r: Option<nat>)
    requires Aligned(d)
    ensures r.Some? ==> && from <= r.value && r.value + 1 < |d.boxes| && Movable(d, r.value, left)
                        && forall k :: from <= k < r.value ==> !Movable(d, k, left)
    ensures r.None? ==> forall k :: from <= k && k + 1 < |d.boxes| ==> !Movable(d, k, left)
    decreases |d.boxes| - from
  {
    if from + 1 >= |d.boxes| then None
    else if Movable(d, from, left) then Some(from)
    else FirstMovable(d, left, from + 1)
  }

  /**
   * A pair that passes the test always interchanges, by the move the test
   * names: the handler for InterchangerError in `normalize` is never used.
   */
  lemma MovableInterchanges(d: Diagram, i: int, left: bool)
    requires Aligned(d) && 0 <= i && i + 1 < |d.boxes| && Movable(d, i, left)
    ensures Interchanged(d, i, i + 1, left) == Ok(if left then LeftMove(d, i) else RightMove(d, i))
  {
  }

  /** One pass of the inner loop of `normalize`: the first pair that passes the test interchanged, or the diagram itself. */
  function NormalizeStep(d: Diagram, left: bool): (r: Diagram)
    requires Aligned(d)
    ensures Aligned(r) && |r.boxes| == |d.boxes|
  {
    match FirstMovable(d, left, 0)
    case None => d
    case Some(i) => InterchangeAdjacent(d, i, left).value
  }

  /** The loop `for i in range(len(diagram) - 1)` with its `break` after the first interchange. */
  method RewriteFirst(d: Diagram, left: bool) returns (r: Diagram)
    requires Aligned(d)
    ensures r == NormalizeStep(d, left)
  {
    var i := 0;
    while i + 1 < |d.boxes|
      invariant 0 <= i && (i == 0 || i < |d.boxes|)
      invariant FirstMovable(d, left, i) == FirstMovable(d, left, 0)
    {
      if Movable(d, i, left) {
        MovableInterchanges(d, i, left);
        var next := Interchange.Interchange(d, i, i + 1, left);
        return next.value;
      }
      i := i + 1;
    }
    return d;
  }

  /** A pass is the adjacent interchange at the first pair that passes the test. */
  lemma NormalizeStepIs(d: Diagram, left: bool, i: nat)
    requires Aligned(d) && FirstMovable(d, left, 0) == Some(i)
    ensures i + 1 < |d.boxes| && InterchangeAdjacent(d, i, left).Ok?
    ensures NormalizeStep(d, left) == InterchangeAdjacent(d, i, left).value
  {
  }

  /** A pass moves box `i + 1` of the first pair that passes the test down past box `i`: the boxes are permuted, nothing else changes. */
  lemma NormalizeStepMoves(d: Diagram, left: bool)
    requires Aligned(d)
    ensures var r := NormalizeStep(d, left);
            && r.dom == d.dom && r.cod == d.cod
            && multiset(r.boxes) == multiset(d.boxes)
            && (FirstMovable(d, left, 0).Some? ==> r.boxes == MoveUp(d.boxes, FirstMovable(d, left, 0).value, FirstMovable(d, left, 0).value + 1))
  {
    match FirstMovable(d, left, 0)
    case None =>
    case Some(i) =>
      NormalizeStepIs(d, left, i);
      InterchangeAdjacentMoves(d, i, left);
      MoveUpPermutes(d.boxes, i, i + 1);
  }

  /** One pass keeps the diagram well-formed, with its domain and codomain. */
  lemma NormalizeStepWf(d: Diagram, left: bool)
    requires Wf(d)
    ensures Wf(NormalizeStep(d, left)) && NormalizeStep(d, left).dom == d.dom && NormalizeStep(d, left).cod == d.cod
  {
    match FirstMovable(d, left, 0)
    case None =>
    case Some(i) =>
      NormalizeStepIs(d, left, i);
      InterchangeAdjacentPreservesWf(d, i, left);
  }

  /**
   * A pass leaves the diagram as it is exactly when no pair passes the test,
   * or when the first pair that does is the same scalar twice at the same
   * offset (`s >> s` for a box `s` from `Ty()` to `Ty()`): then the
   * interchange rebuilds the diagram it started from.
   */
  lemma NormalizeStepFixed(d: Diagram, left: bool)
    requires Aligned(d)
    ensures FirstMovable(d, left, 0).None? ==> NormalizeStep(d, left) == d
    ensures FirstMovable(d, left, 0).Some? ==>
              var i := FirstMovable(d, left, 0).value;
              (NormalizeStep(d, left) == d <==>
                 && d.boxes[i] == d.boxes[i + 1] && d.offsets[i] == d.offsets[i + 1]
                 && d.boxes[i].Dom() == [] && d.boxes[i].Cod() == [])
  {
    match FirstMovable(d, left, 0)
    case None =>
    case Some(i) =>
      var r := NormalizeStep(d, left);
      if d.boxes[i] == d.boxes[i + 1] && d.offsets[i] == d.offsets[i + 1] && d.boxes[i].Dom() == [] && d.boxes[i].Cod() == [] {
        PutLaws(d.boxes, i, d.boxes[i + 1], d.boxes[i], d.boxes[i + 1], d.boxes[i]);
        PutLaws(d.offsets, i, d.offsets[i + 1], d.offsets[i], d.offsets[i + 1], d.offsets[i]);
        assert r == d;
      }
      if r == d {
        assert r.boxes[i] == d.boxes[i + 1] && r.offsets[i] == d.offsets[i] && r.offsets[i + 1] == d.offsets[i + 1];
      }
  }

  /** A pass as a total function: it leaves a diagram that is not even aligned alone. */
  function Pass(left: bool): Diagram -> Diagram {
    d => if Aligned(d) then NormalizeStep(d, left) else d
  }

  /** Passes keep a diagram aligned. */
  lemma PassKeepsAligned(left: bool)
    ensures forall y :: Aligned(y) ==> Aligned(Pass(left)(y))
  {
  }

  /** Passes keep a diagram well-formed, with its domain and codomain. */
  lemma PassKeepsWf(left: bool, dom: Ty, cod: Ty)
    ensures var inv := (y: Diagram) => Wf(y) && y.dom == dom && y.cod == cod;
            forall y :: inv(y) ==> inv(Pass(left)(y))
  {
    forall y | Wf(y) && y.dom == dom && y.cod == cod
      ensures Wf(Pass(left)(y)) && Pass(left)(y).dom == dom && Pass(left)(y).cod == cod
    {
      NormalizeStepWf(y, left);
    }
  }

  // The generator `normalize`.

  /** The first `n` diagrams `normalize` yields: one per pass, until a pass changes nothing. */
  function Trace(d: Diagram, left: bool, n: nat): (r: seq<Diagram>)
    requires Aligned(d)
    ensures |r| <= n
  {
    Orbit(Pass(left), d, n)
  }

  /** One more turn of the loop of `normalize`: the pass yields `next`, and the rest of what is yielded follows from it. */
  lemma TraceAdvance(total: seq<Diagram>, trace: seq<Diagram>, diagram: Diagram, next: Diagram, left: bool, remaining: nat)
    requires Aligned(diagram) && remaining > 0 && next == NormalizeStep(diagram, left) && next != diagram
    requires total == trace + Trace(diagram, left, remaining)
    ensures Aligned(next) && total == (trace + [next]) + Trace(next, left, remaining - 1)
  {
    OrbitAdvance(trace, Pass(left), diagram, next, remaining);
  }

  /** The `while True` loop of `normalize`, collecting what it yields, at most `n` diagrams of it. */
  method Normalize(d: Diagram, left: bool, n: nat) returns (trace: seq<Diagram>)
    requires Aligned(d)
    ensures trace == Trace(d, left, n)
  {
    var diagram, remaining := d, n;
    trace := [];
    ghost var total := Trace(d, left, n);
    while remaining > 0
      invariant Aligned(diagram)
      invariant total == trace + Trace(diagram, left, remaining)
    {
      var next := RewriteFirst(diagram, left);
      if next == diagram {
        break;
      }
      TraceAdvance(total, trace, diagram, next, left, remaining);
      trace, diagram, remaining := trace + [next], next, remaining - 1;
    }
    OrbitStops(Pass(left), diagram, remaining);
  }

  /** Every diagram `normalize` yields is well-formed, with the domain and codomain of the diagram it started from. */
  lemma TraceWf(d: Diagram, left: bool, n: nat)
    requires Wf(d)
    ensures forall k :: 0 <= k < |Trace(d, left, n)| ==> var e := Trace(d, left, n)[k]; Wf(e) && e.dom == d.dom && e.cod == d.cod
  {
    PassKeepsWf(left, d.dom, d.cod);
    OrbitKeeps(Pass(left), (y: Diagram) => Wf(y) && y.dom == d.dom && y.cod == d.cod, d, n);
  }

  /** Each diagram `normalize` yields is one pass on the one before it, and differs from it. */
  lemma TraceSteps(d: Diagram, left: bool, n: nat)
    requires Aligned(d)
    ensures var t := Trace(d, left, n);
            && (forall k :: 0 <= k < |t| ==> Aligned(t[k]))
            && (|t| > 0 ==> t[0] == NormalizeStep(d, left) && t[0] != d)
            && (forall k :: 0 < k < |t| ==> t[k] == NormalizeStep(t[k - 1], left) && t[k] != t[k - 1])
  {
    PassKeepsAligned(left);
    OrbitKeeps(Pass(left), Aligned, d, n);
    OrbitSteps(Pass(left), d, n);
  }

  // `normal_form`.

  /**
   * The loop of `normal_form` resumed at `diagram`, with the diagrams seen so
   * far in `cache` and `fuel` passes left; `orig` is the diagram whose normal
   * form is sought, named in the error.
   */
  function NormalFormFrom(orig: Diagram, diagram: Diagram, left: bool, cache: set<Diagram>, fuel: nat): Result<Diagram, Error> {
    match Settle(Pass(left), diagram, cache, fuel)
    case Fixed(r) => Ok(r)
    case Revisited => Err(NotConnected(orig))
    case Exhausted => Err(OutOfFuel)
  }

  /** `d.normal_form(left)`, allowed `fuel` passes of `normalize`. */
  function NormalForm(d: Diagram, left: bool, fuel: nat): Result<Diagram, Error>
    requires Aligned(d)
  {
    NormalFormFrom(d, d, left, {}, fuel)
  }

  /** One more turn of the loop of `normal_form`: a new diagram is recorded and the loop goes on from it. */
  lemma NormalFormAdvance(orig: Diagram, diagram: Diagram, next: Diagram, left: bool, cache: set<Diagram>, fuel: nat)
    requires Aligned(diagram) && fuel > 0 && next == NormalizeStep(diagram, left) && next != diagram && next !in cache
    ensures Aligned(next) && NormalFormFrom(orig, diagram, left, cache, fuel) == NormalFormFrom(orig, next, left, cache + {next}, fuel - 1)
  {
    SettleAdvance(Pass(left), diagram, next, cache, fuel);
  }

  /** `normal_form`: the `for` loop over what `normalize` yields, adding each diagram to `cache`. */
  method RunNormalForm(d: Diagram, left: bool, fuel: nat) returns (r: Result<Diagram, Error>)
    requires Aligned(d)
    ensures r == NormalForm(d, left, fuel)
  {
    var diagram, cache, budget := d, {}, fuel;
    while budget > 0
      invariant Aligned(diagram)
      invariant NormalFormFrom(d, diagram, left, cache, budget) == NormalForm(d, left, fuel)
    {
      var next := RewriteFirst(diagram, left);
      if next == diagram {
        return Ok(diagram);
      }
      if next in cache {
        return Err(NotConnected(d));
      }
      NormalFormAdvance(d, diagram, next, left, cache, budget);
      diagram, cache, budget := next, cache + {next}, budget - 1;
    }
    return Err(OutOfFuel);
  }

  /**
   * The normal form is a fixpoint of `normalize`, well-formed with the domain,
   * codomain and boxes of the input; the only errors are NotConnected on the
   * input and running out of passes.
   */
  lemma NormalFormSound(d: Diagram, left: bool, fuel: nat)
    requires Wf(d)
    ensures NormalForm(d, left, fuel).Ok? ==>
              var r := NormalForm(d, left, fuel).value;
              && Wf(r) && r.dom == d.dom && r.cod == d.cod && multiset(r.boxes) == multiset(d.boxes)
              && NormalizeStep(r, left) == r
    ensures NormalForm(d, left, fuel).Err? ==> NormalForm(d, left, fuel).error in {NotConnected(d), OutOfFuel}
  {
    if Settle(Pass(left), d, {}, fuel).Fixed? {
      var inv := (y: Diagram) => Wf(y) && y.dom == d.dom && y.cod == d.cod && multiset(y.boxes) == multiset(d.boxes);
      forall y | inv(y) ensures inv(Pass(left)(y)) {
        NormalizeStepWf(y, left);
        NormalizeStepMoves(y, left);
      }
      SettleKeeps(Pass(left), inv, d, {}, fuel);
      SettleFixed(Pass(left), d, {}, fuel);
    }
  }

  /** A diagram no pass changes is its own normal form. */
  lemma NormalFormOfFixpoint(d: Diagram, left: bool, fuel: nat)
    requires Aligned(d) && NormalizeStep(d, left) == d && fuel > 0
    ensures NormalForm(d, left, fuel) == Ok(d)
  {
    SettleAtFixpoint(Pass(left), d, {}, fuel);
  }

  /** `normal_form` is idempotent: the normal form of a normal form is itself. */
  lemma NormalFormIdempotent(d: Diagram, left: bool, fuel: nat, fuel': nat)
    requires Aligned(d) && NormalForm(d, left, fuel).Ok? && fuel' > 0
    ensures var r := NormalForm(d, left, fuel).value;
            Aligned(r) && NormalForm(r, left, fuel') == Ok(r)
  {
    PassKeepsAligned(left);
    SettleKeeps(Pass(left), Aligned, d, {}, fuel);
    SettleFixed(Pass(left), d, {}, fuel);
    var r := NormalForm(d, left, fuel).value;
    NormalFormOfFixpoint(r, left, fuel');
  }
}
