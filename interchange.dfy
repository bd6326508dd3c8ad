/**
 * The interchange rewrite: exchanging two boxes of a diagram that act on
 * disjoint wires.
 */
module Interchange {
  import opened Results
  import opened Types
  import opened Diagrams
  import opened Composition
  import opened Seqs

  /** Every Python diagram has as many offsets as boxes: the constructor checks it even when it skips the scan. */
  predicate Aligned(d: Diagram) {
    |d.boxes| == |d.offsets|
  }

  /** Box `i` lies entirely to the right of box `i + 1`: `off0 >= off1 + len(box1.dom)`. */
  predicate RightOf(d: Diagram, i: int)
    requires Aligned(d) && 0 <= i && i + 1 < |d.boxes|
  {
    d.offsets[i] >= d.offsets[i + 1] + |d.boxes[i + 1].Dom()|
  }

  /** Box `i + 1` lies entirely to the right of box `i`: `off1 >= off0 + len(box0.cod)`. */
  predicate LeftOf(d: Diagram, i: int)
    requires Aligned(d) && 0 <= i && i + 1 < |d.boxes|
  {
    d.offsets[i + 1] >= d.offsets[i] + |d.boxes[i].Cod()|
  }

  /** `s` with its entries `i` and `i + 1` replaced by `x` and `y`. */
  function Put<T>(s: seq<T>, i: int, x: T, y: T): (r: seq<T>)
    requires 0 <= i && i + 1 < |s|
    ensures |r| == |s| && r[i] == x && r[i + 1] == y
  {
    s[i := x][i + 1 := y]
  }

  /** Putting back the entries that were there gives the sequence back; a second put overrides the first. */
  lemma PutLaws<T>(s: seq<T>, i: int, x: T, y: T, u: T, v: T)
    requires 0 <= i && i + 1 < |s|
    ensures Put(s, i, s[i], s[i + 1]) == s
    ensures Put(Put(s, i, x, y), i, u, v) == Put(s, i, u, v)
  {
    assert Put(s, i, s[i], s[i + 1]) == s;
    assert Put(Put(s, i, x, y), i, u, v) == Put(s, i, u, v);
  }

  /** Boxes `i` and `i + 1` exchanged, the first of them now at `off1` and the second at `off0`. */
  function Exchange(d: Diagram, i: int, off1: int, off0: int): (r: Diagram)
    requires Aligned(d) && 0 <= i && i + 1 < |d.boxes|
    ensures Aligned(r) && |r.boxes| == |d.boxes|
  {
    Diagram(d.dom, d.cod, Put(d.boxes, i, d.boxes[i + 1], d.boxes[i]), Put(d.offsets, i, off1, off0))
  }

  /** The right move: box `i` passes after box `i + 1`, which rewrote wires to its left. */
  function RightMove(d: Diagram, i: int): (r: Diagram)
    requires Aligned(d) && 0 <= i && i + 1 < |d.boxes|
    ensures Aligned(r) && |r.boxes| == |d.boxes|
  {
    Exchange(d, i, d.offsets[i + 1], d.offsets[i] - |d.boxes[i + 1].Dom()| + |d.boxes[i + 1].Cod()|)
  }

  /** The left move: box `i + 1` passes before box `i`, which rewrote wires to its left. */
  function LeftMove(d: Diagram, i: int): (r: Diagram)
    requires Aligned(d) && 0 <= i && i + 1 < |d.boxes|
    ensures Aligned(r) && |r.boxes| == |d.boxes|
  {
    Exchange(d, i, d.offsets[i + 1] - |d.boxes[i].Cod()| + |d.boxes[i].Dom()|, d.offsets[i])
  }

  /**
   * `interchange(i, i + 1, left)`: the left move is tried first when `left`
   * is set, then the right move, then the left move; InterchangerError when
   * the two boxes share wires.
   */
  function InterchangeAdjacent(d: Diagram, i: int, left: bool): (r: Result<Diagram, Error>)
    requires Aligned(d) && 0 <= i && i + 1 < |d.boxes|
    ensures r.Err? <==> !RightOf(d, i) && !LeftOf(d, i)
    ensures r.Err? ==> r.error == InterchangerError(d.boxes[i], d.boxes[i + 1])
    ensures r.Ok? ==> Aligned(r.value) && |r.value.boxes| == |d.boxes|
  {
    if left && LeftOf(d, i) then Ok(LeftMove(d, i))
    else if RightOf(d, i) then Ok(RightMove(d, i))
    else if LeftOf(d, i) then Ok(LeftMove(d, i))
    else Err(InterchangerError(d.boxes[i], d.boxes[i + 1]))
  }

  /** The left flag decides only when both moves apply. */
  lemma TieBreak(d: Diagram, i: int, left: bool)
    requires Aligned(d) && 0 <= i && i + 1 < |d.boxes|
    ensures RightOf(d, i) && !LeftOf(d, i) ==> InterchangeAdjacent(d, i, left) == Ok(RightMove(d, i))
    ensures LeftOf(d, i) && !RightOf(d, i) ==> InterchangeAdjacent(d, i, left) == Ok(LeftMove(d, i))
    ensures RightOf(d, i) && LeftOf(d, i) ==>
              InterchangeAdjacent(d, i, false) == Ok(RightMove(d, i)) && InterchangeAdjacent(d, i, true) == Ok(LeftMove(d, i))
  {
  }

  /** An exchange swaps the two entries and leaves every other box, every other offset, `dom` and `cod` alone. */
  lemma ExchangeFrame(d: Diagram, i: int, off1: int, off0: int)
    requires Aligned(d) && 0 <= i && i + 1 < |d.boxes|
    ensures var r := Exchange(d, i, off1, off0);
            && r.dom == d.dom && r.cod == d.cod
            && r.boxes[i] == d.boxes[i + 1] && r.boxes[i + 1] == d.boxes[i]
            && r.offsets[i] == off1 && r.offsets[i + 1] == off0
            && (forall k :: 0 <= k < |d.boxes| && k != i && k != i + 1 ==>
                  r.boxes[k] == d.boxes[k] && r.offsets[k] == d.offsets[k])
            && multiset(r.boxes) == multiset(d.boxes)
  {
    var bs := d.boxes;
    assert bs == bs[..i] + [bs[i], bs[i + 1]] + bs[i + 2..];
    assert multiset([bs[i], bs[i + 1]]) == multiset([bs[i + 1], bs[i]]);
  }

  /** The left move undoes the right move. */
  lemma RightThenLeft(d: Diagram, i: int)
    requires Aligned(d) && 0 <= i && i + 1 < |d.boxes| && RightOf(d, i)
    ensures LeftOf(RightMove(d, i), i) && LeftMove(RightMove(d, i), i) == d
  {
    var b0, b1, o0, o1 := d.boxes[i], d.boxes[i + 1], d.offsets[i], d.offsets[i + 1];
    var n0 := o0 - |b1.Dom()| + |b1.Cod()|;
    var e := RightMove(d, i);
    assert e == Diagram(d.dom, d.cod, Put(d.boxes, i, b1, b0), Put(d.offsets, i, o1, n0));
    PutLaws(d.boxes, i, b1, b0, b0, b1);
    PutLaws(d.offsets, i, o1, n0, o0, o1);
    assert LeftMove(e, i) == Diagram(d.dom, d.cod, Put(e.boxes, i, b0, b1), Put(e.offsets, i, o0, o1));
  }

  /** The right move undoes the left move. */
  lemma LeftThenRight(d: Diagram, i: int)
    requires Aligned(d) && 0 <= i && i + 1 < |d.boxes| && LeftOf(d, i)
    ensures RightOf(LeftMove(d, i), i) && RightMove(LeftMove(d, i), i) == d
  {
    var b0, b1, o0, o1 := d.boxes[i], d.boxes[i + 1], d.offsets[i], d.offsets[i + 1];
    var n1 := o1 - |b0.Cod()| + |b0.Dom()|;
    var e := LeftMove(d, i);
    assert e == Diagram(d.dom, d.cod, Put(d.boxes, i, b1, b0), Put(d.offsets, i, n1, o0));
    PutLaws(d.boxes, i, b1, b0, b0, b1);
    PutLaws(d.offsets, i, n1, o0, o0, o1);
    assert RightMove(e, i) == Diagram(d.dom, d.cod, Put(e.boxes, i, b0, b1), Put(e.offsets, i, o0, o1));
  }

  /** Every successful adjacent interchange can be undone by one with the opposite tie-break. */
  lemma InterchangeUndo(d: Diagram, i: int, left: bool)
    requires Aligned(d) && 0 <= i && i + 1 < |d.boxes|
    requires InterchangeAdjacent(d, i, left).Ok?
    ensures var e := InterchangeAdjacent(d, i, left).value;
            InterchangeAdjacent(e, i, true) == Ok(d) || InterchangeAdjacent(e, i, false) == Ok(d)
  {
    if left && LeftOf(d, i) {
      LeftThenRight(d, i);
    } else if RightOf(d, i) {
      RightThenLeft(d, i);
    } else {
      LeftThenRight(d, i);
    }
  }

  // Exchanging two disjoint boxes does not change what they do to the scanned type.

  /** Running two boxes is two steps, when both fit. */
  lemma ScanPair(s: Ty, b0: Node, o0: int, b1: Node, o1: int)
    ensures Scan(s, [b0, b1], [o0, o1]).Ok? <==> Fits(s, b0, o0) && Fits(Step(s, b0, o0), b1, o1)
    ensures Scan(s, [b0, b1], [o0, o1]).Ok? ==> Scan(s, [b0, b1], [o0, o1]).value == Step(Step(s, b0, o0), b1, o1)
  {
    if Fits(s, b0, o0) {
      var s1 := Step(s, b0, o0);
      assert Scan(s, [b0, b1], [o0, o1]) == Scan(s1, [b1], [o1]);
      if Fits(s1, b1, o1) {
        assert Scan(s1, [b1], [o1]) == Scan(Step(s1, b1, o1), [], []);
      }
    }
  }

  /** In `a1 + dom1 + a2 + dom0 + b`, box `b0` and then box `b1` give `a1 + cod1 + a2 + cod0 + b`. */
  lemma RightFirst(a1: Ty, a2: Ty, b: Ty, b0: Node, b1: Node)
    ensures Fits(a1 + b1.Dom() + a2 + b0.Dom() + b, b0, |a1| + |b1.Dom()| + |a2|)
    ensures Step(a1 + b1.Dom() + a2 + b0.Dom() + b, b0, |a1| + |b1.Dom()| + |a2|) == a1 + b1.Dom() + (a2 + b0.Cod() + b)
    ensures Fits(a1 + b1.Dom() + (a2 + b0.Cod() + b), b1, |a1|)
    ensures Step(a1 + b1.Dom() + (a2 + b0.Cod() + b), b1, |a1|) == a1 + b1.Cod() + (a2 + b0.Cod() + b)
  {
    var p := a1 + b1.Dom() + a2;
    assert |p| == |a1| + |b1.Dom()| + |a2|;
    assert Fits(p + b0.Dom() + b, b0, |p|) && Step(p + b0.Dom() + b, b0, |p|) == a1 + b1.Dom() + (a2 + b0.Cod() + b) by {
      StepAt(p, b, b0);
      Regroup(a1, b1.Dom(), a2, b0.Cod(), b);
    }
    StepAt(a1, a2 + b0.Cod() + b, b1);
  }

  /** In `a1 + dom1 + a2 + dom0 + b`, box `b1` and then box `b0` give `a1 + cod1 + a2 + cod0 + b`. */
  lemma LeftFirst(a1: Ty, a2: Ty, b: Ty, b0: Node, b1: Node)
    ensures Fits(a1 + b1.Dom() + (a2 + b0.Dom() + b), b1, |a1|)
    ensures Step(a1 + b1.Dom() + (a2 + b0.Dom() + b), b1, |a1|) == a1 + b1.Cod() + a2 + b0.Dom() + b
    ensures Fits(a1 + b1.Cod() + a2 + b0.Dom() + b, b0, |a1| + |b1.Cod()| + |a2|)
    ensures Step(a1 + b1.Cod() + a2 + b0.Dom() + b, b0, |a1| + |b1.Cod()| + |a2|) == a1 + b1.Cod() + (a2 + b0.Cod() + b)
  {
    StepAt(a1, a2 + b0.Dom() + b, b1);
    Regroup(a1, b1.Cod(), a2, b0.Dom(), b);
    StepAt(a1 + b1.Cod() + a2, b, b0);
    Regroup(a1, b1.Cod(), a2, b0.Cod(), b);
  }

  /** Where `b1` fits left of the output of `b0`, it fits in the type before `b0` ran. */
  lemma RightWindow(s: Ty, b0: Node, o0: int, b1: Node, o1: int)
    requires Fits(s, b0, o0) && Fits(Step(s, b0, o0), b1, o1) && o0 >= o1 + |b1.Dom()|
    ensures 0 <= o1 && s[o1..o1 + |b1.Dom()|] == b1.Dom()
  {
    var k0, k1 := |b0.Dom()|, |b1.Dom()|;
    PrefixWindow(s[..o0], b0.Cod(), s[o0 + k0..], o1, o1 + k1);
    assert s[..o0][o1..o1 + k1] == s[o1..o1 + k1];
  }

  /** Where `b1` fits right of the output of `b0`, it fits in the type before `b0` ran, shifted. */
  lemma LeftWindow(s: Ty, b0: Node, o0: int, b1: Node, o1: int)
    requires Fits(s, b0, o0) && Fits(Step(s, b0, o0), b1, o1) && o1 >= o0 + |b0.Cod()|
    ensures var p := o1 - |b0.Cod()| + |b0.Dom()|;
            o0 + |b0.Dom()| <= p && p + |b1.Dom()| <= |s| && s[p..p + |b1.Dom()|] == b1.Dom()
  {
    var k0, k1 := |b0.Dom()|, |b1.Dom()|;
    var p := o1 - |b0.Cod()| + k0;
    SuffixWindow(s[..o0], b0.Cod(), s[o0 + k0..], o1, o1 + k1);
    assert s[o0 + k0..][o1 - o0 - |b0.Cod()|..o1 - o0 - |b0.Cod()| + k1] == s[p..p + k1];
  }

  /** In `a1 + dom1 + a2 + dom0 + b` both orders of the two boxes run, to the same type. */
  lemma SwapParts(s: Ty, a1: Ty, a2: Ty, b: Ty, b0: Node, o0: int, b1: Node, o1: int, m0: int)
    requires s == a1 + b1.Dom() + a2 + b0.Dom() + b
    requires o1 == |a1| && o0 == |a1| + |b1.Dom()| + |a2| && m0 == o0 - |b1.Dom()| + |b1.Cod()|
    ensures Scan(s, [b0, b1], [o0, o1]).Ok?
    ensures Scan(s, [b1, b0], [o1, m0]) == Scan(s, [b0, b1], [o0, o1])
  {
    RightFirst(a1, a2, b, b0, b1);
    LeftFirst(a1, a2, b, b0, b1);
    Regroup(a1, b1.Dom(), a2, b0.Dom(), b);
    ScanPair(s, b0, o0, b1, o1);
    ScanPair(s, b1, o1, b0, m0);
  }

  /** Cuts the type around the windows of `b1` and, further right, of `b0`. */
  lemma RightSplit(s: Ty, b0: Node, o0: int, b1: Node, o1: int) returns (a1: Ty, a2: Ty, b: Ty)
    requires Fits(s, b0, o0) && Fits(Step(s, b0, o0), b1, o1) && o0 >= o1 + |b1.Dom()|
    ensures s == a1 + b1.Dom() + a2 + b0.Dom() + b
    ensures |a1| == o1 && |a1| + |b1.Dom()| + |a2| == o0
  {
    RightWindow(s, b0, o0, b1, o1);
    TwoWindows(s, b1.Dom(), o1, b0.Dom(), o0);
    a1, a2, b := s[..o1], s[o1 + |b1.Dom()|..o0], s[o0 + |b0.Dom()|..];
  }

  /** Cuts the type around the windows of `b0` and, further right, of `b1`, as it was before `b0` ran. */
  lemma LeftSplit(s: Ty, b0: Node, o0: int, b1: Node, o1: int) returns (a1: Ty, a2: Ty, b: Ty)
    requires Fits(s, b0, o0) && Fits(Step(s, b0, o0), b1, o1) && o1 >= o0 + |b0.Cod()|
    ensures s == a1 + b0.Dom() + a2 + b1.Dom() + b
    ensures |a1| == o0 && |a1| + |b0.Cod()| + |a2| == o1
  {
    var p := o1 - |b0.Cod()| + |b0.Dom()|;
    LeftWindow(s, b0, o0, b1, o1);
    TwoWindows(s, b0.Dom(), o0, b1.Dom(), p);
    a1, a2, b := s[..o0], s[o0 + |b0.Dom()|..p], s[p + |b1.Dom()|..];
  }

  /** Box `b1` acts on wires left of the output of `b0`: applying it first, at the same offset, and `b0` after it, shifted, gives the same type. */
  lemma RightPair(s: Ty, b0: Node, o0: int, b1: Node, o1: int, n0: int)
    requires Scan(s, [b0, b1], [o0, o1]).Ok? && o0 >= o1 + |b1.Dom()|
    requires n0 == o0 - |b1.Dom()| + |b1.Cod()|
    ensures Scan(s, [b1, b0], [o1, n0]) == Scan(s, [b0, b1], [o0, o1])
  {
    ScanPair(s, b0, o0, b1, o1);
    var a1, a2, b := RightSplit(s, b0, o0, b1, o1);
    SwapParts(s, a1, a2, b, b0, o0, b1, o1, n0);
  }

  /** Box `b1` acts on wires right of the output of `b0`: applying it first, shifted, and `b0` after it gives the same type. */
  lemma LeftPair(s: Ty, b0: Node, o0: int, b1: Node, o1: int, n1: int)
    requires Scan(s, [b0, b1], [o0, o1]).Ok? && o1 >= o0 + |b0.Cod()|
    requires n1 == o1 - |b0.Cod()| + |b0.Dom()|
    ensures Scan(s, [b1, b0], [n1, o0]) == Scan(s, [b0, b1], [o0, o1])
  {
    ScanPair(s, b0, o0, b1, o1);
    var a1, a2, b := LeftSplit(s, b0, o0, b1, o1);
    SwapParts(s, a1, a2, b, b1, n1, b0, o0, o1);
  }

  /** Running a list of boxes is running the part before `i`, the two entries at `i`, and the rest. */
  lemma ScanAround(s: Ty, bs: seq<Node>, os: seq<int>, i: int)
    requires |bs| == |os| && 0 <= i && i + 1 < |bs|
    ensures Scan(s, bs, os) ==
              match Scan(s, bs[..i], os[..i])
              case Err(e) => Err(e)
              case Ok(t) =>
                match Scan(t, [bs[i], bs[i + 1]], [os[i], os[i + 1]])
                case Err(e) => Err(e)
                case Ok(u) => Scan(u, bs[i + 2..], os[i + 2..])
  {
    assert bs == bs[..i] + ([bs[i], bs[i + 1]] + bs[i + 2..]);
    assert os == os[..i] + ([os[i], os[i + 1]] + os[i + 2..]);
    ScanConcat(s, bs[..i], os[..i], [bs[i], bs[i + 1]] + bs[i + 2..], [os[i], os[i + 1]] + os[i + 2..]);
    if Scan(s, bs[..i], os[..i]).Ok? {
      ScanConcat(Scan(s, bs[..i], os[..i]).value, [bs[i], bs[i + 1]], [os[i], os[i + 1]], bs[i + 2..], os[i + 2..]);
    }
  }

  /** An exchange keeps the boxes before and after the pair. */
  lemma ExchangeOutside(d: Diagram, i: int, off1: int, off0: int)
    requires Aligned(d) && 0 <= i && i + 1 < |d.boxes|
    ensures var e := Exchange(d, i, off1, off0);
            && e.boxes[..i] == d.boxes[..i] && e.offsets[..i] == d.offsets[..i]
            && e.boxes[i + 2..] == d.boxes[i + 2..] && e.offsets[i + 2..] == d.offsets[i + 2..]
            && e.boxes[i] == d.boxes[i + 1] && e.boxes[i + 1] == d.boxes[i]
            && e.offsets[i] == off1 && e.offsets[i + 1] == off0
  {
    var e := Exchange(d, i, off1, off0);
    assert e.boxes[..i] == d.boxes[..i];
    assert e.offsets[..i] == d.offsets[..i];
    assert e.boxes[i + 2..] == d.boxes[i + 2..];
    assert e.offsets[i + 2..] == d.offsets[i + 2..];
  }

  /** In a well-formed diagram the boxes before `i`, and the pair at `i`, run. */
  lemma WfAround(d: Diagram, i: int)
    requires Wf(d) && 0 <= i && i + 1 < |d.boxes|
    ensures var t := Scan(d.dom, d.boxes[..i], d.offsets[..i]);
            t.Ok? && Scan(t.value, [d.boxes[i], d.boxes[i + 1]], [d.offsets[i], d.offsets[i + 1]]).Ok?
  {
    ScanAround(d.dom, d.boxes, d.offsets, i);
  }

  /** An exchange that does not change what the pair does to the type scanned so far does not change the scan. */
  lemma ScanExchange(d: Diagram, i: int, off1: int, off0: int, t: Ty)
    requires Aligned(d) && 0 <= i && i + 1 < |d.boxes|
    requires Scan(d.dom, d.boxes[..i], d.offsets[..i]) == Ok(t)
    requires Scan(t, [d.boxes[i + 1], d.boxes[i]], [off1, off0]) ==
             Scan(t, [d.boxes[i], d.boxes[i + 1]], [d.offsets[i], d.offsets[i + 1]])
    ensures var e := Exchange(d, i, off1, off0);
            Scan(e.dom, e.boxes, e.offsets) == Scan(d.dom, d.boxes, d.offsets)
  {
    var e := Exchange(d, i, off1, off0);
    ScanAround(d.dom, d.boxes, d.offsets, i);
    ScanAround(e.dom, e.boxes, e.offsets, i);
    ExchangeOutside(d, i, off1, off0);
  }

  /** The right move does not change the scan of a well-formed diagram. */
  lemma RightMoveScan(d: Diagram, i: int)
    requires Wf(d) && 0 <= i && i + 1 < |d.boxes| && RightOf(d, i)
    ensures Scan(d.dom, RightMove(d, i).boxes, RightMove(d, i).offsets) == Scan(d.dom, d.boxes, d.offsets)
  {
    var b0, b1, o0, o1 := d.boxes[i], d.boxes[i + 1], d.offsets[i], d.offsets[i + 1];
    var n0 := o0 - |b1.Dom()| + |b1.Cod()|;
    var e := Exchange(d, i, o1, n0);
    assert Scan(e.dom, e.boxes, e.offsets) == Scan(d.dom, d.boxes, d.offsets) by {
      WfAround(d, i);
      var t := Scan(d.dom, d.boxes[..i], d.offsets[..i]).value;
      assert Scan(t, [b1, b0], [o1, n0]) == Scan(t, [b0, b1], [o0, o1]) by {
        RightPair(t, b0, o0, b1, o1, n0);
      }
      ScanExchange(d, i, o1, n0, t);
    }
    assert RightMove(d, i) == e;
  }

  /** The left move does not change the scan of a well-formed diagram. */
  lemma LeftMoveScan(d: Diagram, i: int)
    requires Wf(d) && 0 <= i && i + 1 < |d.boxes| && LeftOf(d, i)
    ensures Scan(d.dom, LeftMove(d, i).boxes, LeftMove(d, i).offsets) == Scan(d.dom, d.boxes, d.offsets)
  {
    var b0, b1, o0, o1 := d.boxes[i], d.boxes[i + 1], d.offsets[i], d.offsets[i + 1];
    var n1 := o1 - |b0.Cod()| + |b0.Dom()|;
    var e := Exchange(d, i, n1, o0);
    assert Scan(e.dom, e.boxes, e.offsets) == Scan(d.dom, d.boxes, d.offsets) by {
      WfAround(d, i);
      var t := Scan(d.dom, d.boxes[..i], d.offsets[..i]).value;
      assert Scan(t, [b1, b0], [n1, o0]) == Scan(t, [b0, b1], [o0, o1]) by {
        LeftPair(t, b0, o0, b1, o1, n1);
      }
      ScanExchange(d, i, n1, o0, t);
    }
    assert LeftMove(d, i) == e;
  }

  /** Every successful adjacent interchange keeps a well-formed diagram well-formed, with its domain and codomain. */
  lemma InterchangeAdjacentPreservesWf(d: Diagram, i: int, left: bool)
    requires Wf(d) && 0 <= i && i + 1 < |d.boxes|
    requires InterchangeAdjacent(d, i, left).Ok?
    ensures Wf(InterchangeAdjacent(d, i, left).value)
    ensures InterchangeAdjacent(d, i, left).value.dom == d.dom && InterchangeAdjacent(d, i, left).value.cod == d.cod
  {
    if RightOf(d, i) {
      RightMoveScan(d, i);
    }
    if LeftOf(d, i) {
      LeftMoveScan(d, i);
    }
  }

  /** Every successful adjacent interchange moves box `i + 1` down past box `i`, which is moving box `i` up past it. */
  lemma InterchangeAdjacentMoves(d: Diagram, i: int, left: bool)
    requires Aligned(d) && 0 <= i && i + 1 < |d.boxes|
    requires InterchangeAdjacent(d, i, left).Ok?
    ensures var e := InterchangeAdjacent(d, i, left).value;
            && e.dom == d.dom && e.cod == d.cod
            && e.boxes == MoveDown(d.boxes, i + 1, i) == MoveUp(d.boxes, i, i + 1)
  {
    SwapIsMove(d.boxes, i);
  }

  // The full `interchange(i, j, left)`.

  /** `interchange(i - k, i - k - 1)` for `k` in `range(i - j)`: box `i` walks down to position `j`; `left` is not passed on. */
  function WalkDown(d: Diagram, i: int, j: int): (r: Result<Diagram, Error>)
    requires Aligned(d) && 0 <= j <= i < |d.boxes|
    ensures r.Ok? ==> Aligned(r.value) && |r.value.boxes| == |d.boxes|
    decreases i - j
  {
    if i == j then Ok(d)
    else match InterchangeAdjacent(d, i - 1, false)
      case Err(e) => Err(e)
      case Ok(next) => WalkDown(next, i - 1, j)
  }

  /** `interchange(i + k, i + k + 1)` for `k` in `range(j - i)`: box `i` walks up to position `j`; `left` is not passed on. */
  function WalkUp(d: Diagram, i: int, j: int): (r: Result<Diagram, Error>)
    requires Aligned(d) && 0 <= i <= j < |d.boxes|
    ensures r.Ok? ==> Aligned(r.value) && |r.value.boxes| == |d.boxes|
    decreases j - i
  {
    if i == j then Ok(d)
    else match InterchangeAdjacent(d, i, false)
      case Err(e) => Err(e)
      case Ok(next) => WalkUp(next, i + 1, j)
  }

  /**
   * `d.interchange(i, j, left)`: IndexError unless both indices are in range,
   * the diagram itself when they are equal, a walk of adjacent interchanges
   * when they are further apart, and one adjacent interchange otherwise.
   */
  function Interchanged(d: Diagram, i: int, j: int, left: bool): (r: Result<Diagram, Error>)
    requires Aligned(d)
    ensures r.Ok? ==> Aligned(r.value) && |r.value.boxes| == |d.boxes|
  {
    if !(0 <= i < |d.boxes|) || !(0 <= j < |d.boxes|) then Err(Error.IndexError)
    else if i == j then Ok(d)
    else if j < i - 1 then WalkDown(d, i, j)
    else if j > i + 1 then WalkUp(d, i, j)
    else if j < i then InterchangeAdjacent(d, j, left)
    else InterchangeAdjacent(d, i, left)
  }

  /** One step of a walk down. */
  lemma WalkDownStep(d: Diagram, i: int, j: int)
    requires Aligned(d) && 0 <= j < i < |d.boxes| && InterchangeAdjacent(d, i - 1, false).Ok?
    ensures WalkDown(d, i, j) == WalkDown(InterchangeAdjacent(d, i - 1, false).value, i - 1, j)
  {
  }

  /** One step of a walk up. */
  lemma WalkUpStep(d: Diagram, i: int, j: int)
    requires Aligned(d) && 0 <= i < j < |d.boxes| && InterchangeAdjacent(d, i, false).Ok?
    ensures WalkUp(d, i, j) == WalkUp(InterchangeAdjacent(d, i, false).value, i + 1, j)
  {
  }

  /** The loop `for k in range(i - j): result = result.interchange(i - k, i - k - 1)`, with `pos` standing for `i - k`. */
  method RunWalkDown(d: Diagram, i: int, j: int) returns (r: Result<Diagram, Error>)
    requires Aligned(d) && 0 <= j <= i < |d.boxes|
    ensures r == WalkDown(d, i, j)
  {
    var result, pos := d, i;
    while pos > j
      invariant j <= pos <= i && Aligned(result) && |result.boxes| == |d.boxes|
      invariant WalkDown(result, pos, j) == WalkDown(d, i, j)
    {
      var next := InterchangeAdjacent(result, pos - 1, false);
      if next.Err? {
        return Err(next.error);
      }
      WalkDownStep(result, pos, j);
      result, pos := next.value, pos - 1;
    }
    return Ok(result);
  }

  /** The loop `for k in range(j - i): result = result.interchange(i + k, i + k + 1)`, with `pos` standing for `i + k`. */
  method RunWalkUp(d: Diagram, i: int, j: int) returns (r: Result<Diagram, Error>)
    requires Aligned(d) && 0 <= i <= j < |d.boxes|
    ensures r == WalkUp(d, i, j)
  {
    var result, pos := d, i;
    while pos < j
      invariant i <= pos <= j && Aligned(result) && |result.boxes| == |d.boxes|
      invariant WalkUp(result, pos, j) == WalkUp(d, i, j)
    {
      var next := InterchangeAdjacent(result, pos, false);
      if next.Err? {
        return Err(next.error);
      }
      WalkUpStep(result, pos, j);
      result, pos := next.value, pos + 1;
    }
    return Ok(result);
  }

  /** The Python method `interchange`. */
  method Interchange(d: Diagram, i: int, j: int, left: bool) returns (r: Result<Diagram, Error>)
    requires Aligned(d)
    ensures r == Interchanged(d, i, j, left)
  {
    if !(0 <= i < |d.boxes|) || !(0 <= j < |d.boxes|) {
      return Err(Error.IndexError);
    }
    if i == j {
      return Ok(d);
    }
    if j < i - 1 {
      r := RunWalkDown(d, i, j);
    } else if j > i + 1 {
      r := RunWalkUp(d, i, j);
    } else if j < i {
      r := InterchangeAdjacent(d, j, left);
    } else {
      r := InterchangeAdjacent(d, i, left);
    }
  }

  /** The first step of a successful walk down moves box `i` one place down and leaves the rest of the walk. */
  lemma WalkDownThrough(d: Diagram, i: int, j: int, next: Diagram)
    requires Aligned(d) && 0 <= j < i < |d.boxes|
    requires InterchangeAdjacent(d, i - 1, false) == Ok(next)
    ensures Aligned(next) && |next.boxes| == |d.boxes|
    ensures next.boxes == MoveDown(d.boxes, i, i - 1) && next.dom == d.dom && next.cod == d.cod
    ensures WalkDown(d, i, j) == WalkDown(next, i - 1, j)
  {
    WalkDownStep(d, i, j);
    InterchangeAdjacentMoves(d, i - 1, false);
  }

  /** The first step of a successful walk up moves box `i` one place up and leaves the rest of the walk. */
  lemma WalkUpThrough(d: Diagram, i: int, j: int, next: Diagram)
    requires Aligned(d) && 0 <= i < j < |d.boxes|
    requires InterchangeAdjacent(d, i, false) == Ok(next)
    ensures Aligned(next) && |next.boxes| == |d.boxes|
    ensures next.boxes == MoveUp(d.boxes, i, i + 1) && next.dom == d.dom && next.cod == d.cod
    ensures WalkUp(d, i, j) == WalkUp(next, i + 1, j)
  {
    WalkUpStep(d, i, j);
    InterchangeAdjacentMoves(d, i, false);
  }

  /** A successful walk down moves box `i` to position `j`, keeping the domain and codomain. */
  lemma {:induction false} WalkDownMoves(d: Diagram, i: int, j: int, e: Diagram)
    requires Aligned(d) && 0 <= j <= i < |d.boxes|
    requires WalkDown(d, i, j) == Ok(e)
    ensures e.boxes == MoveDown(d.boxes, i, j) && e.dom == d.dom && e.cod == d.cod
    decreases i - j
  {
    if i == j {
      MovedInPlace(d.boxes, i);
    } else {
      var next := InterchangeAdjacent(d, i - 1, false).value;
      WalkDownThrough(d, i, j, next);
      WalkDownMoves(next, i - 1, j, e);
      MoveDownChain(d.boxes, next.boxes, e.boxes, i, j);
    }
  }

  /** A successful walk up moves box `i` to position `j`, keeping the domain and codomain. */
  lemma {:induction false} WalkUpMoves(d: Diagram, i: int, j: int, e: Diagram)
    requires Aligned(d) && 0 <= i <= j < |d.boxes|
    requires WalkUp(d, i, j) == Ok(e)
    ensures e.boxes == MoveUp(d.boxes, i, j) && e.dom == d.dom && e.cod == d.cod
    decreases j - i
  {
    if i == j {
      MovedInPlace(d.boxes, i);
    } else {
      var next := InterchangeAdjacent(d, i, false).value;
      WalkUpThrough(d, i, j, next);
      WalkUpMoves(next, i + 1, j, e);
      MoveUpChain(d.boxes, next.boxes, e.boxes, i, j);
    }
  }

  /** The first step of a walk down from a well-formed diagram reaches a well-formed diagram. */
  lemma WalkDownFirst(d: Diagram, i: int, j: int) returns (next: Diagram)
    requires Wf(d) && 0 <= j < i < |d.boxes| && WalkDown(d, i, j).Ok?
    ensures Wf(next) && |next.boxes| == |d.boxes|
    ensures WalkDown(d, i, j) == WalkDown(next, i - 1, j)
  {
    next := InterchangeAdjacent(d, i - 1, false).value;
    WalkDownStep(d, i, j);
    InterchangeAdjacentPreservesWf(d, i - 1, false);
  }

  /** The first step of a walk up from a well-formed diagram reaches a well-formed diagram. */
  lemma WalkUpFirst(d: Diagram, i: int, j: int) returns (next: Diagram)
    requires Wf(d) && 0 <= i < j < |d.boxes| && WalkUp(d, i, j).Ok?
    ensures Wf(next) && |next.boxes| == |d.boxes|
    ensures WalkUp(d, i, j) == WalkUp(next, i + 1, j)
  {
    next := InterchangeAdjacent(d, i, false).value;
    WalkUpStep(d, i, j);
    InterchangeAdjacentPreservesWf(d, i, false);
  }

  /** A successful walk down keeps a well-formed diagram well-formed. */
  lemma {:induction false} WalkDownPreservesWf(d: Diagram, i: int, j: int, e: Diagram)
    requires Wf(d) && 0 <= j <= i < |d.boxes|
    requires WalkDown(d, i, j) == Ok(e)
    ensures Wf(e)
    decreases i - j
  {
    if i != j {
      var next := WalkDownFirst(d, i, j);
      WalkDownPreservesWf(next, i - 1, j, e);
    }
  }

  /** A successful walk up keeps a well-formed diagram well-formed. */
  lemma {:induction false} WalkUpPreservesWf(d: Diagram, i: int, j: int, e: Diagram)
    requires Wf(d) && 0 <= i <= j < |d.boxes|
    requires WalkUp(d, i, j) == Ok(e)
    ensures Wf(e)
    decreases j - i
  {
    if i != j {
      var next := WalkUpFirst(d, i, j);
      WalkUpPreservesWf(next, i + 1, j, e);
    }
  }

  /**
   * A successful `interchange(i, j)` takes box `i` out and puts it back in at
   * position `j`, a permutation of the boxes, and keeps the domain and codomain.
   */
  lemma InterchangeMoves(d: Diagram, i: int, j: int, left: bool)
    requires Aligned(d) && Interchanged(d, i, j, left).Ok?
    ensures 0 <= i < |d.boxes| && 0 <= j < |d.boxes|
    ensures var e := Interchanged(d, i, j, left).value;
            && e.boxes == Moved(d.boxes, i, j)
            && e.boxes[j] == d.boxes[i]
            && multiset(e.boxes) == multiset(d.boxes)
            && e.dom == d.dom && e.cod == d.cod
  {
    var e := Interchanged(d, i, j, left).value;
    MovedPermutes(d.boxes, i, j);
    if i == j {
      MovedInPlace(d.boxes, i);
    } else if j < i - 1 {
      WalkDownMoves(d, i, j, e);
    } else if j > i + 1 {
      WalkUpMoves(d, i, j, e);
    } else if j < i {
      InterchangeAdjacentMoves(d, j, left);
    } else {
      InterchangeAdjacentMoves(d, i, left);
    }
  }

  /** Interchanging boxes keeps a well-formed diagram well-formed. */
  lemma InterchangePreservesWf(d: Diagram, i: int, j: int, left: bool)
    requires Wf(d) && Interchanged(d, i, j, left).Ok?
    ensures Wf(Interchanged(d, i, j, left).value)
  {
    var e := Interchanged(d, i, j, left).value;
    if i == j {
    } else if j < i - 1 {
      WalkDownPreservesWf(d, i, j, e);
    } else if j > i + 1 {
      WalkUpPreservesWf(d, i, j, e);
    } else if j < i {
      InterchangeAdjacentPreservesWf(d, j, left);
    } else {
      InterchangeAdjacentPreservesWf(d, i, left);
    }
  }

  /** The errors: IndexError exactly when an index is out of range, otherwise an InterchangerError for two boxes that share wires. */
  lemma InterchangeErrors(d: Diagram, i: int, j: int, left: bool)
    requires Aligned(d)
    ensures Interchanged(d, i, j, left) == Err(Error.IndexError) <==> !(0 <= i < |d.boxes| && 0 <= j < |d.boxes|)
    ensures 0 <= i < |d.boxes| && 0 <= j < |d.boxes| && Interchanged(d, i, j, left).Err? ==>
              Interchanged(d, i, j, left).error.InterchangerError?
    ensures 0 <= i < |d.boxes| && i == j ==> Interchanged(d, i, j, left) == Ok(d)
  {
    if 0 <= i < |d.boxes| && 0 <= j < |d.boxes| && i != j {
      if j < i - 1 {
        WalkDownErrors(d, i, j);
      } else if j > i + 1 {
        WalkUpErrors(d, i, j);
      }
    }
  }

  /** A walk down fails only on two adjacent boxes that share wires. */
  lemma {:induction false} WalkDownErrors(d: Diagram, i: int, j: int)
    requires Aligned(d) && 0 <= j <= i < |d.boxes|
    ensures WalkDown(d, i, j).Err? ==> WalkDown(d, i, j).error.InterchangerError?
    decreases i - j
  {
    if i != j && InterchangeAdjacent(d, i - 1, false).Ok? {
      WalkDownStep(d, i, j);
      WalkDownErrors(InterchangeAdjacent(d, i - 1, false).value, i - 1, j);
    }
  }

  /** A walk up fails only on two adjacent boxes that share wires. */
  lemma {:induction false} WalkUpErrors(d: Diagram, i: int, j: int)
    requires Aligned(d) && 0 <= i <= j < |d.boxes|
    ensures WalkUp(d, i, j).Err? ==> WalkUp(d, i, j).error.InterchangerError?
    decreases j - i
  {
    if i != j && InterchangeAdjacent(d, i, false).Ok? {
      WalkUpStep(d, i, j);
      WalkUpErrors(InterchangeAdjacent(d, i, false).value, i + 1, j);
    }
  }
}
