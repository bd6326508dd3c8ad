# Free monoidal categories: a verified Dafny model of `moncat.py`

This project models the core of `moncat.py`, the free monoidal category
module of DisCoPy. It proves the laws of composition, that the operations keep
a diagram well formed, what `interchange`, `normalize`, `normal_form`, `slice`
and the functors compute, and the docstring examples. "## Left out" lists
the promises of the module that are not proved.

- **Types** (`types.dfy`) are lists of named objects. `@` is concatenation and `Ty()` is the
  empty list. The model covers indexing and slicing with Python's rules for
  negative and out-of-range bounds, and exponentiation `t ** n`.
- **Diagrams** (`diagrams.dfy`) have a domain, a codomain, a list of boxes and a list of offsets.
  Box `k` is applied at `offsets[k]` of the type scanned so far. The
  constructor's scan is modelled both as a function (`Check`) and as the loop
  it is (`Construct`). A diagram is well formed (`Wf`) when the corrected
  constructor accepts it: every offset lies inside the scanned type (see
  "## Findings").
- **Composition** (`composition.dfy`): `tensor` (`@`), `then` (`>>`), `dagger` and `Id`, with
  the laws of a strict monoidal category with a dagger. A box is a one-box
  diagram (`BoxDiagram`).
- **Interchange** (`interchange.dfy`): the adjacent moves, the walk of one box past several,
  the tie-break by `left`, and the errors.
- **Normalisation** (`iteration.dfy`, `normalization.dfy`): `normalize` as
  the sequence of diagrams its generator yields, and `normal_form` as the loop
  over them with its cache of diagrams already seen.
- **Slicing** (`slicing.dfy`): `slice` cuts a diagram into layers, diagrams used as boxes,
  and `depth` counts them.
- **Monoidal functors** (`functors.dfy`): `MonoidalFunctor.__call__` folds a diagram into its
  image, box by box. It is proved to preserve identities, boxes, `>>` and
  `@`.
- **Flattening** (`flattening.dfy`): `flatten` is the identity functor. It gives a diagram of
  boxes back unchanged and turns the slice of a diagram back into a diagram
  of its boxes.
- **`_spiral`** (`spiral.dfy`): the worst-case input of `normal_form`, built by two loops.
  `spiral_examples.dfy` follows `normal_form` on `_spiral(2)` pass by pass.

Python's loops are `method`s with loop invariants, each proved equal to a
specification function (`Construct`, `Interchange`, `RewriteFirst`,
`Normalize`, `RunNormalForm`, `RunSlice`, `RunFunctor`, `RunSpiral`). The
properties are proved about those functions. The `*_examples.dfy` files prove
the docstring examples of the module on concrete boxes, built from the
objects and boxes of `samples.dfy`.

Exceptions are values: `Result` carries either the diagram or the error the
source raises (`ValueError`, `IndexError`, `AxiomError`,
`InterchangerError`, `NotImplementedError` as `NotConnected`).

## Model

| member | source | states |
|---|---|---|
| Types.Slice | moncat.py:100-111 | `t[lo:hi]` never has more objects than `t`, and is the sub-list from `lo` to `hi` when both bounds lie inside `t` |
| Types.SliceFromEnd | moncat.py:100-111 | a negative slice bound counts from the end of the type |
| Types.At | moncat.py:100-111 | `t[i]` succeeds exactly for `-len(t) <= i < len(t)`, and for `i >= 0` it is the one object of `t[i:i+1]` |
| Types.AtFromEnd | moncat.py:100-111 | `t[i - len(t)] == t[i]` |
| Types.Pow | moncat.py:141-155 | `t ** e` raises ValueError exactly when `e` is not an int, is `Ty()` for `e <= 0`, and has `e * len(t)` objects otherwise |
| Types.PowMorphism | moncat.py:141-155 | `t ** 1 == t` and `t ** (m + n) == t ** m @ t ** n` |
| Types.RepeatAdd | moncat.py:155 | the sum of `m + n` copies of `t` is the sum of `m` copies followed by the sum of `n` copies |
| Diagrams.BoxDaggerInvolutive | moncat.py:703 | `f.dagger().dagger() == f`, and a box differs from its adjoint |
| Diagrams.Check | moncat.py:183-212 | the constructor accepts exactly the well-formed diagrams and returns them unchanged; it raises ValueError when boxes and offsets differ in number, AxiomError naming `cod` and the scanned type when the codomain is wrong, and AxiomError and nothing else for every other rejection, a box whose domain does not fit |
| Diagrams.ScanErrIsAxiom | moncat.py:193-206 | the constructor's scan fails only with AxiomError, raised for a box whose domain does not fit |
| Diagrams.Construct | moncat.py:192-210 | the constructor's loop over boxes and offsets returns what `Check` returns, stopping at the first box whose domain does not fit |
| Diagrams.Scan | moncat.py:192-210 | the loop of the constructor over boxes and offsets: the type after the last box, or AxiomError for the first box whose domain does not fit |
| Diagrams.Wf | moncat.py:183-212 | as many boxes as offsets, every box fits, and the scan ends on `cod` |
| Diagrams.CheckRejectsMismatch | moncat.py:636-648 | `Diagram(x, x, [f], [0])` and `Diagram(y, y, [f], [0])` for `f: x -> y` raise AxiomError, naming the expected and the found type |
| Diagrams.CheckAsWritten | moncat.py:183-212 | the constructor as written accepts exactly the diagrams whose scan with Python slices ends on `cod`, and returns them unchanged |
| Diagrams.ScanAsWrittenAgrees | moncat.py:192-210 | where the corrected scan succeeds, the scan as written returns the same type |
| Diagrams.CheckRefinesAsWritten | moncat.py:183-212 | every diagram the corrected constructor accepts, the constructor as written accepts too |
| Diagrams.AsWrittenAcceptsNegativeOffset | moncat.py:201-205 | the constructor as written accepts a box without inputs at offset -1, which the corrected check refuses |
| Diagrams.Id | moncat.py:662-673 | `Id(x)` is a well-formed diagram from `x` to `x` |
| Diagrams.BoxDiagram | moncat.py:705-714 | a box seen as a diagram is well formed, from the box's domain to its codomain |
| Diagrams.ScanConcat | moncat.py:192-210 | scanning `b1 + b2` is scanning `b1`, then `b2` from where it ended |
| Diagrams.ScanPadRight | moncat.py:296-299 | wires added on the right of the scanned type pass through every box unchanged |
| Diagrams.ScanPadLeft | moncat.py:296-299 | wires added on the left pass through unchanged once every offset is shifted past them |
| Composition.Reverse | moncat.py:328-330 | `s[::-1]` has the length of `s` and holds its entries back to front |
| Composition.DaggerNode | moncat.py:328-329 | the adjoint of a box exchanges its domain and codomain |
| Composition.DaggerBoxes | moncat.py:328-329 | `[f.dagger() for f in boxes[::-1]]` holds the adjoints of the boxes back to front |
| Composition.Tensor | moncat.py:287-299 | `f @ g` puts the boxes of `g` after those of `f`, their offsets shifted by `len(f.cod)`, from `f.dom @ g.dom` to `f.cod @ g.cod` |
| Composition.Then | moncat.py:309-318 | `f >> g` puts the boxes of `g` after those of `f`, from `f.dom` to `g.cod`, when `f.cod == g.dom` |
| Composition.Dagger | moncat.py:320-329 | `d.dagger()` goes from `d.cod` to `d.dom`, with the adjoints of the boxes back to front and the offsets back to front |
| Composition.TensorPreservesWf | moncat.py:287-299 | `f @ g` of well-formed diagrams is well formed, from `f.dom @ g.dom` to `f.cod @ g.cod` |
| Composition.ThenPreservesWf | moncat.py:309-318 | `f >> g` of well-formed composable diagrams is well formed |
| Composition.StepUndo | moncat.py:320-330 | a box followed by its adjoint at the same offset gives back the scanned type |
| Composition.ScanDagger | moncat.py:320-330 | the adjoints, run backwards from where the scan ended, lead back to where it started |
| Composition.DaggerPreservesWf | moncat.py:320-330 | the dagger of a well-formed diagram is well formed |
| Composition.TensorAssociative | moncat.py:287-299 | `(f @ g) @ h == f @ (g @ h)` |
| Composition.TensorUnit | moncat.py:702 | `Id(Ty()) @ f == f == f @ Id(Ty())` |
| Composition.ThenAssociative | moncat.py:309-318 | `(f >> g) >> h == f >> (g >> h)` |
| Composition.ThenUnit | moncat.py:667 | `Id(f.dom) >> f == f == f >> Id(f.cod)` |
| Composition.IdTensor | moncat.py:303-305 | `Id(x) @ Id(y) == Id(x @ y)` |
| Composition.TensorSplit | moncat.py:291 | `f @ g == f @ Id(g.dom) >> Id(f.cod) @ g` |
| Composition.ThenPadRight | moncat.py:287-318 | `a @ Id(z) >> b @ Id(z) == (a >> b) @ Id(z)` |
| Composition.ThenPadLeft | moncat.py:287-318 | `Id(w) @ a >> Id(w) @ b == Id(w) @ (a >> b)` |
| Composition.DaggerNodeInvolutive | moncat.py:320-330 | the adjoint of the adjoint of a box-list entry is the entry |
| Composition.DaggerInvolutive | moncat.py:13 | `d.dagger().dagger() == d` |
| Composition.ReverseConcat | moncat.py:328-330 | `(a + b)[::-1] == b[::-1] + a[::-1]` |
| Composition.DaggerBoxesConcat | moncat.py:328-329 | the adjoints of `a + b` are those of `b` followed by those of `a` |
| Composition.DaggerThen | moncat.py:309-330 | `(f >> g).dagger() == g.dagger() >> f.dagger()` |
| Composition.DaggerBox | moncat.py:320-330 | the dagger of a box seen as a diagram is its adjoint box seen as a diagram |
| Composition.TensorOfNegativeOffsetIllFormed | moncat.py:296-299 | a diagram the constructor as written accepts, with offset -1, gives after `Id(c) @` a diagram that the constructor as written rejects |
| Interchange.Put | moncat.py:488-489 | `s[:i] + [x, y] + s[i + 2:]` keeps the length and puts `x` at `i` and `y` at `i + 1` |
| Interchange.PutLaws | moncat.py:488-489 | putting back what was there changes nothing, and a second put overrides the first |
| Interchange.Exchange | moncat.py:486-490 | exchanging two adjacent boxes keeps as many boxes as offsets, and as many boxes as before |
| Interchange.RightMove | moncat.py:479-480 | the right move keeps as many boxes as offsets, and as many boxes as before |
| Interchange.LeftMove | moncat.py:477-482 | the left move keeps as many boxes as offsets, and as many boxes as before |
| Interchange.InterchangeAdjacent | moncat.py:474-490 | two adjacent boxes fail to interchange exactly when neither lies right of the other, and then raise InterchangerError naming both |
| Interchange.TieBreak | moncat.py:476-482 | when only one move applies it is made; when both apply, `left` chooses |
| Interchange.ExchangeFrame | moncat.py:486-490 | an exchange swaps the two entries and leaves every other box, every other offset, `dom` and `cod` alone |
| Interchange.RightThenLeft | moncat.py:477-482 | the left move undoes the right move |
| Interchange.LeftThenRight | moncat.py:477-482 | the right move undoes the left move |
| Interchange.InterchangeUndo | moncat.py:474-490 | every successful adjacent interchange is undone by the one with the opposite tie-break |
| Interchange.RightMoveScan | moncat.py:479-480 | the right move does not change the scan of a well-formed diagram |
| Interchange.LeftMoveScan | moncat.py:481-482 | the left move does not change the scan of a well-formed diagram |
| Interchange.InterchangeAdjacentPreservesWf | moncat.py:474-490 | a successful adjacent interchange keeps a diagram well formed, with its `dom` and `cod` |
| Interchange.InterchangeAdjacentMoves | moncat.py:474-490 | a successful adjacent interchange moves box `i + 1` down past box `i` |
| Interchange.WalkDown | moncat.py:462-466 | a successful walk down keeps the number of boxes |
| Interchange.WalkUp | moncat.py:467-471 | a successful walk up keeps the number of boxes |
| Interchange.Interchanged | moncat.py:429-490 | a successful `interchange` keeps the number of boxes |
| Interchange.WalkDownStep | moncat.py:464-465 | one pass of the walk-down loop |
| Interchange.WalkUpStep | moncat.py:469-470 | one pass of the walk-up loop |
| Interchange.RunWalkDown | moncat.py:462-466 | the loop `for k in range(i - j)` returns the walk down |
| Interchange.RunWalkUp | moncat.py:467-471 | the loop `for k in range(j - i)` returns the walk up |
| Interchange.Interchange | moncat.py:429-490 | the method `interchange` returns what `Interchanged` specifies |
| Interchange.WalkDownMoves | moncat.py:462-466 | a successful walk down moves box `i` to position `j`, keeping `dom` and `cod` |
| Interchange.WalkUpMoves | moncat.py:467-471 | a successful walk up moves box `i` to position `j`, keeping `dom` and `cod` |
| Interchange.WalkDownPreservesWf | moncat.py:462-466 | a successful walk down keeps a diagram well formed |
| Interchange.WalkUpPreservesWf | moncat.py:467-471 | a successful walk up keeps a diagram well formed |
| Interchange.InterchangeMoves | moncat.py:429-490 | a successful `interchange(i, j)` moves box `i` to position `j` and changes nothing else about the boxes, `dom` or `cod` |
| Interchange.InterchangePreservesWf | moncat.py:429-490 | `interchange` keeps a well-formed diagram well formed |
| Interchange.InterchangeErrors | moncat.py:457-461 | IndexError exactly when an index is out of range; otherwise only InterchangerError; `interchange(i, i)` is the diagram itself |
| Interchange.WalkDownErrors | moncat.py:462-466 | a walk down fails only with InterchangerError |
| Interchange.WalkUpErrors | moncat.py:467-471 | a walk up fails only with InterchangerError |
| InterchangeExamples.SlideDown | moncat.py:8-11 | `(f0 @ f1).interchange(0, 1) == Id(x) @ f1 >> f0 @ Id(w)` |
| InterchangeExamples.SlideUp | moncat.py:8-12 | `(Id(x) @ f1 >> f0 @ Id(w)).interchange(0, 1) == f0 @ f1` |
| InterchangeExamples.DaggerSlide | moncat.py:14 | `(f0 @ f1).dagger().interchange(0, 1) == f0.dagger() @ f1.dagger()` |
| InterchangeExamples.EckmannHilton | moncat.py:18-20 | for scalars, `s0 @ s1 == s0 >> s1 == (s1 @ s0).interchange(0, 1)` |
| InterchangeExamples.BoxPastAdjoint | moncat.py:437-441 | `(f @ f.dagger()).interchange(0, 1) == Id(x) @ f.dagger() >> f @ Id(x)` |
| InterchangeExamples.WalkUpExample | moncat.py:442-443 | `(d >> d.dagger()).interchange(0, 2)` is a walk up of two steps to the four-box diagram printed there |
| InterchangeExamples.CupCapRight | moncat.py:444-446 | `(cup >> cap).interchange(0, 1)` makes the right move |
| InterchangeExamples.CupCapLeft | moncat.py:447-448 | with `left=True` it makes the left move |
| InterchangeExamples.BlockedWalk | moncat.py:449-454 | `d.interchange(0, 2)` raises InterchangerError |
| InterchangeExamples.WalkDownExample | moncat.py:455 | `d.interchange(2, 0) == Id(x) @ f1 >> f0 @ Id(x) >> f1 @ f0` |
| Iteration.Orbit | moncat.py:510-525 | a generator that stops when a step changes nothing yields at most `n` values in `n` steps |
| Iteration.OrbitSteps | moncat.py:510-525 | each yielded value is the step applied to the one before, and differs from it |
| Iteration.OrbitKeeps | moncat.py:510-525 | a property the step preserves holds of every yielded value |
| Iteration.Settle | moncat.py:546-553 | the loop of `normal_form`: it stops on a value the step does not change, fails on a value already in the cache, and otherwise records the value and goes on |
| Iteration.SettleAdvance | moncat.py:546-553 | a value not seen before carries the loop on, recorded in the cache |
| Iteration.SettleFixed | moncat.py:546-553 | iterating to a fixpoint settles only on a fixpoint |
| Iteration.SettleKeeps | moncat.py:546-553 | a property the step preserves holds of the value iteration settles on |
| Iteration.SettleAtFixpoint | moncat.py:546-553 | a fixpoint settles at once on itself |
| Iteration.SettleAlong | moncat.py:546-553 | a run of distinct values, each the step of the one before, none in the cache and ending on a fixpoint, settles on its last value |
| Normalization.FirstMovable | moncat.py:513-517 | finds the first pair at or after `from` that passes the test of `normalize`, or reports that none does |
| Normalization.MovableInterchanges | moncat.py:516-522 | a pair that passes the test always interchanges, so the `except InterchangerError` branch is dead |
| Normalization.NormalizeStep | moncat.py:511-522 | one pass keeps as many boxes as offsets, and as many boxes as before |
| Normalization.RewriteFirst | moncat.py:513-522 | the inner `for` loop with its `break` computes one pass |
| Normalization.NormalizeStepIs | moncat.py:513-522 | a pass is the adjacent interchange at the first pair that passes the test |
| Normalization.NormalizeStepMoves | moncat.py:511-522 | a pass only permutes the boxes, keeping `dom` and `cod` |
| Normalization.NormalizeStepWf | moncat.py:511-522 | a pass keeps a diagram well formed, with its `dom` and `cod` |
| Normalization.NormalizeStepFixed | moncat.py:523-524 | a pass changes nothing exactly when no pair passes the test, or when the first pair that does is two equal scalars at one offset |
| Normalization.Pass | moncat.py:511-524 | one pass of `normalize` as a total function on diagrams |
| Normalization.Trace | moncat.py:492-525 | `normalize` yields at most one diagram per pass |
| Normalization.Normalize | moncat.py:510-525 | the `while True` loop yields `Trace` |
| Normalization.TraceWf | moncat.py:492-525 | every diagram `normalize` yields is well formed, with the `dom` and `cod` of the input |
| Normalization.TraceSteps | moncat.py:510-525 | each yielded diagram is one pass on the one before it, and differs from it |
| Normalization.RunNormalForm | moncat.py:546-553 | the loop of `normal_form` over what `normalize` yields returns `NormalForm` |
| Normalization.NormalFormFrom | moncat.py:546-553 | the loop of `normal_form` from a diagram with a cache: the diagram it settles on, NotConnected naming the input when a diagram comes back, or OutOfFuel |
| Normalization.NormalForm | moncat.py:527-553 | `d.normal_form(left)` is that loop from `d` with an empty cache |
| Normalization.NormalFormSound | moncat.py:527-553 | a normal form is well formed, has the `dom`, `cod` and boxes of the input, and no pass changes it; the only errors are NotConnected and running out of fuel |
| Normalization.NormalFormOfFixpoint | moncat.py:523-524 | a diagram no pass changes is its own normal form |
| Normalization.NormalFormIdempotent | moncat.py:527-553 | the normal form of a normal form is itself |
| NormalizationExamples.ScalarsOscillate | moncat.py:497-502 | `(s0 @ s1).normalize()` yields `s1 >> s0`, `s0 >> s1`, `s1 >> s0` |
| NormalizationExamples.StaircaseNormalizes | moncat.py:505-506 | `(Id(x) @ f1 >> f0 @ Id(x)).normalize()` yields only `f0 @ f1`, which is `normal_form`'s result |
| NormalizationExamples.SideBySideNormalizesLeft | moncat.py:507-508 | `(f0 @ f1).normalize(left=True)` yields only `Id(x) @ f1 >> f0 @ Id(x)`, which is `normal_form`'s result |
| NormalizationExamples.ScalarsNotConnected | moncat.py:534-538 | `(s0 >> s1).normal_form()` raises NotConnected |
| NormalizationExamples.AlreadyNormal | moncat.py:532-542 | identities, a box and `f0 >> f1` are their own normal forms |
| Slicing.InterchangeKeepsPrefix | moncat.py:584 | `interchange(j, i)` with `i < j` keeps the boxes before `i` and permutes the rest |
| Slicing.LayersFrom | moncat.py:580-595 | the outer loop cuts no more layers than there are boxes left |
| Slicing.Nodes | moncat.py:596 | the layers become the boxes of the slice, in order |
| Slicing.Zeros | moncat.py:596 | `len(slices) * [0]` has one zero per layer |
| Slicing.GatherFrom | moncat.py:582-587 | the loop over `j` from `j` on cuts at least one layer and no more than there are boxes left |
| Slicing.TryInterchange | moncat.py:583-587 | one turn of the loop over `j`: a successful `interchange(j, i)` is kept and counted, an InterchangerError passed over; at least one layer and no more than there are boxes left |
| Slicing.Close | moncat.py:588-595 | the end of a pass of the outer loop: the layer of the `n_boxes + 1` boxes from `i`, from `dom` to their spliced codomain, then the layers after it |
| Slicing.Layers | moncat.py:578-595 | the layers the outer loop cuts, from `d.dom` |
| Slicing.Slice | moncat.py:568-597 | `d.slice()`: the layers as boxes, each at offset 0, from `d.dom` to `d.cod` |
| Slicing.Depth | moncat.py:599-609 | `d.depth()` is the number of layers of the slice |
| Slicing.Rearranged | moncat.py:578-595 | the value of `diagram` once the outer loop of `slice` is done: the boxes and offsets of the layers, layer after layer |
| Slicing.SliceKeepsBoxes | moncat.py:568-597 | the layers hold the boxes of `d`, each as often as in `d`, and none is empty |
| Slicing.DepthBounds | moncat.py:599-609 | the depth is at most the number of boxes, and 0 exactly when there is none |
| Slicing.SpliceAgrees | moncat.py:588-590 | on boxes that fit, the codomain loop with Python slices is the scan |
| Slicing.SliceWf | moncat.py:568-597 | the slice of a well-formed diagram is well formed, and its layers chain from `dom` to `cod` |
| Slicing.ChainedFlattenScan | moncat.py:588-596 | layers that chain from `dom` to `cod`, run one after the other, scan from `dom` to `cod` |
| Slicing.RearrangedWf | moncat.py:578-597 | the diagram the interchanges of `slice` leave behind is well formed, has the `dom` and `cod` of `d`, and holds the boxes of `d`, each as often |
| Slicing.GatherLayer | moncat.py:582-587 | the loop over `j` leaves what is left of the slicing unchanged |
| Slicing.SpliceLayer | moncat.py:588-590 | the loop over `j` computes the layer's codomain |
| Slicing.CutLayer | moncat.py:581-595 | one pass of the outer loop cuts a layer and goes on after it |
| Slicing.RunSlice | moncat.py:568-597 | the method `slice` returns `Slice`, and the interchanges it makes leave `diagram` equal to `Rearranged` |
| SlicingExamples.IdDepth | moncat.py:604 | `Id(x @ y).depth() == 0` |
| SlicingExamples.BoxDepth | moncat.py:605 | `f.depth() == 1` |
| SlicingExamples.TensorDepth | moncat.py:606 | `(f @ g).depth() == 1` |
| SlicingExamples.ThenDepth | moncat.py:607 | `(f >> g).depth() == 2` |
| Functors.MapTyConcat | moncat.py:781-783 | on types a functor is a monoid homomorphism: `F(Ty()) == Ty()` and `F(s @ t) == F(s) @ F(t)` |
| Functors.MapTyOne | moncat.py:781-783 | the image of a one-object type is the object's image |
| Functors.MapTy | moncat.py:781-783 | `F(t)` sums the images of the objects of `t` from `Ty()` |
| Functors.Whiskered | moncat.py:789-791 | `id_l @ self(box) @ id_r`, the identities on the images of the wires left and right of the box |
| Functors.WhiskeredTyped | moncat.py:789-791 | `Id(F(left)) @ F(box) @ Id(F(right))` is well formed, from the image of the scanned type to the image of the next one |
| Functors.ApplyFrom | moncat.py:787-793 | the rest of the fold is well formed and ends on `F(d.cod)` |
| Functors.Apply | moncat.py:765-793 | `F(d)` is a well-formed diagram from `F(d.dom)` to `F(d.cod)` |
| Functors.ApplyNode | moncat.py:784-785 | the image of a box, or of a diagram used as a box, goes from the image of its domain to that of its codomain |
| Functors.RunFunctor | moncat.py:786-793 | the loop of `__call__` returns `F(d)` |
| Functors.RunNode | moncat.py:784-791 | `self(box)` returns the box's image |
| Functors.ApplyId | moncat.py:752-754 | `F(Id(t)) == Id(F(t))` |
| Functors.ApplyBox | moncat.py:745 | `F(box) == F.ar[box]` |
| Functors.ApplyThen | moncat.py:736-748 | `F(f >> g) == F(f) >> F(g)` |
| Functors.ApplyPadRight | moncat.py:787-793 | `F(d @ Id(z)) == F(d) @ Id(F(z))` |
| Functors.ApplyPadLeft | moncat.py:787-793 | `F(Id(w) @ d) == Id(F(w)) @ F(d)` |
| Functors.ApplyTensor | moncat.py:736-748 | `F(f @ g) == F(f) @ F(g)` |
| Flattening.MapTyIdentity | moncat.py:566 | the identity functor leaves every type as it is |
| Flattening.IdentitySound | moncat.py:566 | the identity functor sends each box to itself, a well-formed diagram between its own domain and codomain |
| Flattening.FlattenDiagram | moncat.py:555-566 | `d.flatten()` is well formed, with the `dom` and `cod` of `d` |
| Flattening.FlattenFlat | moncat.py:555-566 | `d.flatten() == d` for a well-formed diagram of boxes |
| Flattening.SliceDeepWf | moncat.py:568-597 | the slice of a well-formed diagram is well formed at every depth |
| Flattening.FlattenSlice | moncat.py:564-571 | `d.slice().flatten()` is the diagram the interchanges of `slice` leave behind (`Rearranged`), so it goes from `d.dom` to `d.cod` and holds the boxes of `d`, each as often as in `d` |
| Spirals.PowIsWires | moncat.py:628 | `x ** n` is `n` wires of type `x` |
| Spirals.WhiskerTensor | moncat.py:628-632 | `Id(a) @ box @ Id(b)` is the box alone at offset `len(a)` between the wires `a` and `b` |
| Spirals.WhiskerWf | moncat.py:628-632 | a whiskered box is well formed |
| Spirals.CapLayer | moncat.py:628 | cap number `k` goes from `x ** (2k - 1)` to `x ** (2k + 1)` |
| Spirals.CounitLayer | moncat.py:629 | the counit goes from `x ** (2n + 1)` to `x ** 2n` |
| Spirals.CupLayer | moncat.py:631-632 | cup number `k` of `n` goes from `x ** (2(n - k) + 2)` to `x ** 2(n - k)` |
| Spirals.Caps | moncat.py:626-628 | the unit and the first `k` caps compose: `k + 1` boxes from `Ty()` to `x ** (2k + 1)` |
| Spirals.Cups | moncat.py:629-632 | the counit and the first `k` cups compose after them: `n + k + 2` boxes from `Ty()` to `x ** 2(n - k)` |
| Spirals.Spiral | moncat.py:612-633 | `_spiral(n)` is a scalar, from `Ty()` to `Ty()` |
| Spirals.RunSpiral | moncat.py:623-633 | the two loops of `_spiral` build `Spiral(n)` |
| Spirals.SpiralWf | moncat.py:612-633 | `_spiral(n)` is well formed |
| Spirals.SpiralBoxes | moncat.py:616-619 | `_spiral(n)` has `2n + 2` boxes: the unit first, `n` caps, the counit at position `n + 1`, then `n` cups, each at its offset |
| SpiralExamples.SpiralIsFirst | moncat.py:616-619 | `_spiral(2)` is the unit, two caps, the counit and two cups, at offsets 0, 0, 1, 2, 1, 0 |
| SpiralExamples.Passes | moncat.py:510-525 | each of the twenty passes of `normalize` on `_spiral(2)` makes the right move at the first pair that passes the test |
| SpiralExamples.Settled | moncat.py:523-524 | after the twentieth pass no pair passes the test |
| SpiralExamples.Distinct | moncat.py:546-551 | the twenty-one diagrams are all different, so the cache of `normal_form` never meets one twice |
| SpiralExamples.LastBoxes | moncat.py:621 | the last diagram ends on the counit, with the unit at position 2 |
| SpiralExamples.SpiralNormalForm | moncat.py:616-621 | `_spiral(2).normal_form()` is the twenty-first diagram: its last box is the counit and its box at position `n = 2` is the unit |

## Left out

- Drawing (`draw`), `repr` and `str`, hashing, and a box's `data` payload: they concern printing and storage, not the structure of diagrams.
- Types.Slice: a slice with a step (`t[::2]`, `t[::-1]`), which `Ty.__getitem__` accepts, is not modelled; the module never slices a type with a step.
- The `isinstance` checks of the constructor, of `tensor` and of `__call__`, and the `ValueError` each raises for a wrong argument type: Dafny's types exclude those arguments.
- `cat.Diagram.then` and `cat.Functor` are not part of this model. `then`'s check that `self.cod == other.dom` is the precondition of `Composition.Then`. A functor is given by two total functions, `ob` and `ar`, in place of `cat.Functor`'s dictionaries: a missing key (KeyError) and the fallback that maps a dagger box to the dagger of its image are not modelled.
- Functors.Apply: requires `Sound(F)` (each box's image goes between the images of its domain and codomain) and a diagram well formed at every depth. The source composes the images with `>>`, which raises AxiomError when an image has the wrong type; that error path is not modelled.
- Normalization.Normalize: the generator is modelled by the first `n` diagrams it yields. Termination of `normalize` is not proved, and the source says it never halts on a diagram that is not connected.
- Normalization.NormalForm: takes a `fuel` bound on the number of passes and returns `OutOfFuel` when it runs out. The source has no bound. Without one, Dafny would need a termination proof for `normal_form`, which the source does not claim.
- Interchange.Interchanged: the walk for indices more than one apart calls `interchange` without `left` (moncat.py:465 and 470), so each step uses the default tie-break. The model does the same.
- Flattening.FlattenSlice: the docstring's `d.slice().flatten().normal_form() == d` is proved up to its last step. The flattened slice is the diagram that `slice` reaches from `d` by interchanges, with the same `dom`, `cod` and boxes. That its normal form is `d` is not proved. It needs normal forms to be unique among diagrams related by interchanges, a theorem the source cites from arXiv:1804.07832 and does not implement.
- Slicing.SliceWf: the promise that each layer is a diagram of depth 1 (moncat.py:570) is not proved. Slicing a layer again must interchange every box of the layer down past those before it. That needs a model of a layer as boxes on disjoint intervals of wires, kept through the offset shifts and the tie-break of each adjacent move. This model has no such geometry.
- Spirals.Spiral: the normal form of `_spiral(n)` is proved for `n = 2`, the case of the docstring, by following its twenty passes (SpiralExamples.SpiralNormalForm). The general `n` is not proved.
- Diagrams with a negative offset, which the constructor as written accepts (Diagrams.CheckAsWritten), are outside every property proved after the constructor. Those properties assume `Wf`, the corrected check, or `DeepWf`. What `tensor`, `interchange`, `normalize`, `slice` and the functors do on such diagrams is not modelled beyond Composition.TensorOfNegativeOffsetIllFormed.
- The equality of a `Box` with the one-box diagram it stands for (moncat.py:716-725): a box and the diagram `BoxDiagram(b)` are kept as two values of different types, and the model always uses the diagram.

## Findings

| source | as written | input that shows it | evidently intended | confidence | as-written member | corrected member |
|---|---|---|---|---|---|---|
| moncat.py:203 and moncat.py:298 | The constructor tests `scan[off: off + len(box.dom)] == box.dom` with Python slicing. A negative offset counts from the end of the scanned type, so it is accepted. `tensor` then shifts that offset by `len(self.cod)`, which moves the box to another wire. | `Diagram(Ty('a'), Ty('b', 'a'), [s], [-1])` with `s: Ty() -> Ty('b')` is accepted. `Id(Ty('c')) @` that diagram has offset 0 and scans to `b @ c @ a`, not the codomain `c @ b @ a`. | An offset lies between 0 and `len(scan) - len(box.dom)`. | not executed | Diagrams.CheckAsWritten, Composition.TensorOfNegativeOffsetIllFormed | Diagrams.Check, Composition.TensorPreservesWf |
