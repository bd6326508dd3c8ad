/**
 * Diagrams of a free monoidal category: a domain, a codomain and a list of
 * boxes, each placed at an offset in the type scanned so far, together with
 * the constructor that checks that the boxes compose.
 */
module Diagrams {
  import opened Results
  import opened Types

  /**
   * An atomic box. `isDagger` tells a box from its formal adjoint; two boxes
   * are equal when name, domain, codomain and dagger flag are. The opaque
   * `data` payload is not modelled.
   */
  datatype Box = Box(name: string, dom: Ty, cod: Ty, isDagger: bool) {
    /** The formal adjoint: domain and codomain exchanged, dagger flag flipped. */
    function Dagger(): Box {
      Box(name, cod, dom, !isDagger)
    }
  }

  /** The adjoint of the adjoint of a box is the box, and a box is never its own adjoint. */
  lemma BoxDaggerInvolutive(b: Box)
    ensures b.Dagger().Dagger() == b
    ensures b.Dagger() != b
  {
  }

  /**
   * An entry of a diagram's box list: an atomic box, or a whole diagram used
   * as a box (the layers produced by slicing).
   */
  datatype Node = Atom(box: Box) | Layer(diagram: Diagram) {
    function Dom(): Ty {
      match this
      case Atom(b) => b.dom
      case Layer(d) => d.dom
    }

    function Cod(): Ty {
      match this
      case Atom(b) => b.cod
      case Layer(d) => d.cod
    }
  }

  /**
   * A diagram: `boxes[k]` is applied at offset `offsets[k]` of the type
   * obtained from `dom` by the boxes before it. Equality is syntactic.
   */
  datatype Diagram = Diagram(dom: Ty, cod: Ty, boxes: seq<Node>, offsets: seq<int>)

  /** The exceptions raised by the diagram operations. */
  datatype Error =
    | ValueError
    | IndexError
    | AxiomError(expected: Ty, got: Ty)
    | InterchangerError(box0: Node, box1: Node)
    | NotConnected(diagram: Diagram)
    | OutOfFuel

  /** `scan[:off] + box.cod + scan[off + len(box.dom):]` where the box's window lies inside the scanned type. */
  function Step(scan: Ty, box: Node, off: int): Ty
    requires 0 <= off && off + |box.Dom()| <= |scan|
  {
    scan[..off] + box.Cod() + scan[off + |box.Dom()|..]
  }

  /** `scan[:off] + box.cod + scan[off + len(box.dom):]`, with Python slicing. */
  function ScanStep(scan: Ty, box: Node, off: int): (r: Ty)
    ensures 0 <= off <= off + |box.Dom()| <= |scan| ==> r == scan[..off] + box.Cod() + scan[off + |box.Dom()|..]
  {
    Slice(scan, 0, off) + box.Cod() + Slice(scan, off + |box.Dom()|, |scan|)
  }

  /** The box's domain is the sub-type of `scan` that starts at `off`. */
  predicate Fits(scan: Ty, box: Node, off: int) {
    0 <= off && off + |box.Dom()| <= |scan| && scan[off..off + |box.Dom()|] == box.Dom()
  }

  /**
   * Runs the boxes over the scanned type, from `scan`: the type after the last
   * box, or the AxiomError for the first box whose domain does not fit.
   */
  function Scan(scan: Ty, boxes: seq<Node>, offsets: seq<int>): Result<Ty, Error>
    requires |boxes| == |offsets|
    decreases |boxes|
  {
    if boxes == [] then Ok(scan)
    else if !Fits(scan, boxes[0], offsets[0]) then
      Err(AxiomError(Slice(scan, offsets[0], offsets[0] + |boxes[0].Dom()|), boxes[0].Dom()))
    else Scan(Step(scan, boxes[0], offsets[0]), boxes[1..], offsets[1..])
  }

  /** Well-formedness: as many offsets as boxes, every box fits, and the scan ends at `cod`. */
  predicate Wf(d: Diagram) {
    |d.boxes| == |d.offsets| && Scan(d.dom, d.boxes, d.offsets) == Ok(d.cod)
  }

  /** The scan fails only with AxiomError: a box whose domain does not fit. */
  lemma {:induction false} ScanErrIsAxiom(scan: Ty, boxes: seq<Node>, offsets: seq<int>)
    requires |boxes| == |offsets|
    ensures Scan(scan, boxes, offsets).Err? ==> Scan(scan, boxes, offsets).error.AxiomError?
    decreases |boxes|
  {
    if boxes != [] && Fits(scan, boxes[0], offsets[0]) {
      ScanErrIsAxiom(Step(scan, boxes[0], offsets[0]), boxes[1..], offsets[1..]);
    }
  }

  /** The checked constructor `Diagram(dom, cod, boxes, offsets)`. */
  function Check(dom: Ty, cod: Ty, boxes: seq<Node>, offsets: seq<int>): (r: Result<Diagram, Error>)
    ensures r.Ok? <==> Wf(Diagram(dom, cod, boxes, offsets))
    ensures r.Ok? ==> r.value == Diagram(dom, cod, boxes, offsets)
    ensures |boxes| != |offsets| ==> r == Err(Error.ValueError)
    ensures |boxes| == |offsets| && Scan(dom, boxes, offsets).Ok? && !r.Ok? ==>
              r == Err(AxiomError(cod, Scan(dom, boxes, offsets).value))
    ensures |boxes| == |offsets| && r.Err? ==> r.error.AxiomError?
  {
    if |boxes| != |offsets| then Err(Error.ValueError)
    else
      ScanErrIsAxiom(dom, boxes, offsets);
      match Scan(dom, boxes, offsets)
      case Err(e) => Err(e)
      case Ok(scan) =>
        if scan != cod then Err(AxiomError(cod, scan)) else Ok(Diagram(dom, cod, boxes, offsets))
  }

  /** The constructor's loop: threads the scanned type through the boxes and stops at the first mismatch. */
  method Construct(dom: Ty, cod: Ty, boxes: seq<Node>, offsets: seq<int>) returns (r: Result<Diagram, Error>)
    ensures r == Check(dom, cod, boxes, offsets)
  {
    if |boxes| != |offsets| {
      return Err(Error.ValueError);
    }
    var scan := dom;
    for k := 0 to |boxes|
      invariant Scan(dom, boxes, offsets) == Scan(scan, boxes[k..], offsets[k..])
    {
      var box, off := boxes[k], offsets[k];
      if !Fits(scan, box, off) {
        return Err(AxiomError(Slice(scan, off, off + |box.Dom()|), box.Dom()));
      }
      scan := Step(scan, box, off);
    }
    if scan != cod {
      return Err(AxiomError(cod, scan));
    }
    return Ok(Diagram(dom, cod, boxes, offsets));
  }

  /** The two mismatches of the constructor: a wrong codomain, and a box whose domain does not fit. */
  lemma CheckRejectsMismatch()
    ensures var f := Atom(Box("f", ["x"], ["y"], false));
            && Check(["x"], ["x"], [f], [0]) == Err(AxiomError(["x"], ["y"]))
            && Check(["y"], ["y"], [f], [0]) == Err(AxiomError(["y"], ["x"]))
  {
    var f := Atom(Box("f", ["x"], ["y"], false));
    assert Step(["x"], f, 0) == ["y"];
    assert !Fits(["y"], f, 0);
  }

  // The domain test exactly as the source writes it: a Python slice compared with the box's domain.

  predicate FitsAsWritten(scan: Ty, box: Node, off: int) {
    Slice(scan, off, off + |box.Dom()|) == box.Dom()
  }

  function ScanAsWritten(scan: Ty, boxes: seq<Node>, offsets: seq<int>): Result<Ty, Error>
    requires |boxes| == |offsets|
    decreases |boxes|
  {
    if boxes == [] then Ok(scan)
    else if !FitsAsWritten(scan, boxes[0], offsets[0]) then
      Err(AxiomError(Slice(scan, offsets[0], offsets[0] + |boxes[0].Dom()|), boxes[0].Dom()))
    else ScanAsWritten(ScanStep(scan, boxes[0], offsets[0]), boxes[1..], offsets[1..])
  }

  /** The constructor as written: it accepts negative offsets (and, for boxes without inputs, offsets past the end). */
  function CheckAsWritten(dom: Ty, cod: Ty, boxes: seq<Node>, offsets: seq<int>): (r: Result<Diagram, Error>)
    ensures r.Ok? <==> |boxes| == |offsets| && ScanAsWritten(dom, boxes, offsets) == Ok(cod)
    ensures r.Ok? ==> r.value == Diagram(dom, cod, boxes, offsets)
  {
    if |boxes| != |offsets| then Err(Error.ValueError)
    else match ScanAsWritten(dom, boxes, offsets)
      case Err(e) => Err(e)
      case Ok(scan) =>
        if scan != cod then Err(AxiomError(cod, scan)) else Ok(Diagram(dom, cod, boxes, offsets))
  }

  /** Where every offset lies inside the scanned type the two tests agree, so every well-formed diagram is accepted as written. */
  lemma {:induction false} ScanAsWrittenAgrees(scan: Ty, boxes: seq<Node>, offsets: seq<int>)
    requires |boxes| == |offsets| && Scan(scan, boxes, offsets).Ok?
    ensures ScanAsWritten(scan, boxes, offsets) == Scan(scan, boxes, offsets)
    decreases |boxes|
  {
    if boxes != [] {
      ScanAsWrittenAgrees(ScanStep(scan, boxes[0], offsets[0]), boxes[1..], offsets[1..]);
    }
  }

  lemma CheckRefinesAsWritten(dom: Ty, cod: Ty, boxes: seq<Node>, offsets: seq<int>)
    requires Check(dom, cod, boxes, offsets).Ok?
    ensures CheckAsWritten(dom, cod, boxes, offsets) == Check(dom, cod, boxes, offsets)
  {
    ScanAsWrittenAgrees(dom, boxes, offsets);
  }

  /** The source accepts a box without inputs at offset -1, read as "one before the end". */
  lemma AsWrittenAcceptsNegativeOffset()
    ensures var s := Atom(Box("s", [], ["b"], false));
            && CheckAsWritten(["a"], ["b", "a"], [s], [-1]) == Ok(Diagram(["a"], ["b", "a"], [s], [-1]))
            && Check(["a"], ["b", "a"], [s], [-1]).Err?
  {
    var s := Atom(Box("s", [], ["b"], false));
    assert Slice(["a"], -1, -1) == [];
    assert ScanStep(["a"], s, -1) == ["b", "a"];
  }

  /** `Id(x)`: the diagram with no boxes from `x` to `x`. */
  function Id(x: Ty): (r: Diagram)
    ensures Wf(r) && r.dom == x && r.cod == x
  {
    Diagram(x, x, [], [])
  }

  /** A box seen as a diagram: itself as its only box, at offset 0. */
  function BoxDiagram(b: Box): (r: Diagram)
    ensures Wf(r) && r.dom == b.dom && r.cod == b.cod
  {
    assert Step(b.dom, Atom(b), 0) == b.cod;
    Diagram(b.dom, b.cod, [Atom(b)], [0])
  }

  /** Every offset moved right by `n`. */
  function Shift(offsets: seq<int>, n: int): (r: seq<int>)
    ensures |r| == |offsets|
    ensures forall k :: 0 <= k < |r| ==> r[k] == offsets[k] + n
  {
    seq(|offsets|, k requires 0 <= k < |offsets| => offsets[k] + n)
  }

  // Lemmas about the scan.

  /** A box fits at `|a|` in `a + dom + b` and rewrites it into `a + cod + b`. */
  lemma StepAt(a: Ty, b: Ty, n: Node)
    ensures Fits(a + n.Dom() + b, n, |a|)
    ensures Step(a + n.Dom() + b, n, |a|) == a + n.Cod() + b
  {
    var s := a + n.Dom() + b;
    assert s[..|a|] == a;
    assert s[|a|..|a| + |n.Dom()|] == n.Dom();
    assert s[|a| + |n.Dom()|..] == b;
  }

  /** A fitting box splits the scanned type into what is left of it, its domain and what is right of it. */
  lemma FitsSplit(s: Ty, n: Node, o: int)
    requires Fits(s, n, o)
    ensures s == s[..o] + n.Dom() + s[o + |n.Dom()|..]
  {
    assert s == s[..o] + s[o..o + |n.Dom()|] + s[o + |n.Dom()|..];
  }

  /** Running `b1 + b2` is running `b1` and then `b2` from where it ended. */
  lemma {:induction false} ScanConcat(s: Ty, b1: seq<Node>, o1: seq<int>, b2: seq<Node>, o2: seq<int>)
    requires |b1| == |o1| && |b2| == |o2|
    ensures Scan(s, b1 + b2, o1 + o2) ==
              match Scan(s, b1, o1)
              case Ok(t) => Scan(t, b2, o2)
              case Err(e) => Err(e)
    decreases |b1|
  {
    if b1 == [] {
      assert b1 + b2 == b2 && o1 + o2 == o2;
    } else {
      assert (b1 + b2)[0] == b1[0] && (o1 + o2)[0] == o1[0];
      assert (b1 + b2)[1..] == b1[1..] + b2;
      assert (o1 + o2)[1..] == o1[1..] + o2;
      if Fits(s, b1[0], o1[0]) {
        ScanConcat(Step(s, b1[0], o1[0]), b1[1..], o1[1..], b2, o2);
      }
    }
  }

  lemma StepPadRight(s: Ty, t: Ty, n: Node, o: int)
    requires Fits(s, n, o)
    ensures Fits(s + t, n, o) && Step(s + t, n, o) == Step(s, n, o) + t
  {
    var k := |n.Dom()|;
    assert (s + t)[o..o + k] == s[o..o + k];
    assert (s + t)[..o] == s[..o];
    assert (s + t)[o + k..] == s[o + k..] + t;
  }

  lemma StepPadLeft(p: Ty, s: Ty, n: Node, o: int)
    requires Fits(s, n, o)
    ensures Fits(p + s, n, o + |p|) && Step(p + s, n, o + |p|) == p + Step(s, n, o)
  {
    var k := |n.Dom()|;
    assert (p + s)[o + |p|..o + |p| + k] == s[o..o + k];
    assert (p + s)[..o + |p|] == p + s[..o];
    assert (p + s)[o + |p| + k..] == s[o + k..];
  }

  /** Wires added on the right of the scanned type are carried through unchanged. */
  lemma {:induction false} ScanPadRight(s: Ty, t: Ty, bs: seq<Node>, os: seq<int>)
    requires |bs| == |os| && Scan(s, bs, os).Ok?
    ensures Scan(s + t, bs, os) == Ok(Scan(s, bs, os).value + t)
    decreases |bs|
  {
    if bs != [] {
      StepPadRight(s, t, bs[0], os[0]);
      ScanPadRight(Step(s, bs[0], os[0]), t, bs[1..], os[1..]);
    }
  }

  /** Wires added on the left are carried through unchanged once every offset is shifted past them. */
  lemma {:induction false} ScanPadLeft(p: Ty, s: Ty, bs: seq<Node>, os: seq<int>)
    requires |bs| == |os| && Scan(s, bs, os).Ok?
    ensures Scan(p + s, bs, Shift(os, |p|)) == Ok(p + Scan(s, bs, os).value)
    decreases |bs|
  {
    if bs != [] {
      StepPadLeft(p, s, bs[0], os[0]);
      assert Shift(os, |p|)[1..] == Shift(os[1..], |p|);
      ScanPadLeft(p, Step(s, bs[0], os[0]), bs[1..], os[1..]);
    }
  }
}
