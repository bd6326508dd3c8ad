/** Facts about slicing concatenated sequences, used when boxes are moved past each other. */
module Seqs {
  /** A window inside the left part of `a + c + b` is a window of `a`. */
  lemma PrefixWindow<T>(a: seq<T>, c: seq<T>, b: seq<T>, lo: int, hi: int)
    requires 0 <= lo <= hi <= |a|
    ensures (a + c + b)[lo..hi] == a[lo..hi]
  {
  }

  /** A window inside the right part of `a + c + b` is a window of `b`. */
  lemma SuffixWindow<T>(a: seq<T>, c: seq<T>, b: seq<T>, lo: int, hi: int)
    requires |a| + |c| <= lo <= hi <= |a| + |c| + |b|
    ensures (a + c + b)[lo..hi] == b[lo - |a| - |c|..hi - |a| - |c|]
  {
  }

  /** Cutting a sequence at four points and joining the pieces gives it back. */
  lemma Split5<T>(s: seq<T>, i: int, j: int, k: int, l: int)
    requires 0 <= i <= j <= k <= l <= |s|
    ensures s == s[..i] + s[i..j] + s[j..k] + s[k..l] + s[l..]
  {
    assert s == s[..i] + s[i..j] + s[j..k] + s[k..l] + s[l..];
  }

  /** The first `k + 1` entries are the first `k` and then entry `k`. */
  lemma TakeOneMore<T>(s: seq<T>, k: int)
    requires 0 <= k < |s|
    ensures s[..k + 1] == s[..k] + [s[k]]
  {
  }

  /** Concatenation is associative. */
  lemma ConcatAssoc<T>(a: seq<T>, b: seq<T>, c: seq<T>)
    ensures a + b + c == a + (b + c)
  {
  }

  /** Concatenation regrouped. */
  lemma Regroup<T>(a1: seq<T>, x: seq<T>, a2: seq<T>, y: seq<T>, b: seq<T>)
    ensures a1 + x + a2 + y + b == a1 + x + (a2 + y + b)
  {
  }

  /** A sequence holding `x` at `i` and, further right, `y` at `j` is cut into five pieces around them. */
  lemma TwoWindows<T>(s: seq<T>, x: seq<T>, i: int, y: seq<T>, j: int)
    requires 0 <= i && i + |x| <= j && j + |y| <= |s|
    requires s[i..i + |x|] == x && s[j..j + |y|] == y
    ensures s == s[..i] + x + s[i + |x|..j] + y + s[j + |y|..]
  {
    Split5(s, i, i + |x|, j, j + |y|);
  }

  /** Entry `i` moved down to position `j`, the entries `j .. i - 1` shifting up by one. */
  function MoveDown<T>(s: seq<T>, i: int, j: int): (r: seq<T>)
    requires 0 <= j <= i < |s|
    ensures |r| == |s| && r[j] == s[i]
  {
    s[..j] + [s[i]] + s[j..i] + s[i + 1..]
  }

  /** Entry `i` moved up to position `j`, the entries `i + 1 .. j` shifting down by one. */
  function MoveUp<T>(s: seq<T>, i: int, j: int): (r: seq<T>)
    requires 0 <= i <= j < |s|
    ensures |r| == |s| && r[j] == s[i]
  {
    s[..i] + s[i + 1..j + 1] + [s[i]] + s[j + 1..]
  }

  /** Entry `i` taken out and put back in at position `j`. */
  function Moved<T>(s: seq<T>, i: int, j: int): (r: seq<T>)
    requires 0 <= i < |s| && 0 <= j < |s|
    ensures |r| == |s| && r[j] == s[i]
  {
    if j <= i then MoveDown(s, i, j) else MoveUp(s, i, j)
  }

  /** Moving an entry to where it is changes nothing. */
  lemma MovedInPlace<T>(s: seq<T>, i: int)
    requires 0 <= i < |s|
    ensures MoveDown(s, i, i) == s && MoveUp(s, i, i) == s && Moved(s, i, i) == s
  {
    assert s == s[..i] + [s[i]] + s[i + 1..];
  }

  /** Moving an entry down is a permutation. */
  lemma MoveDownPermutes<T>(s: seq<T>, i: int, j: int)
    requires 0 <= j <= i < |s|
    ensures multiset(MoveDown(s, i, j)) == multiset(s)
  {
    assert s == s[..j] + s[j..i] + [s[i]] + s[i + 1..];
  }

  /** Moving an entry up is a permutation. */
  lemma MoveUpPermutes<T>(s: seq<T>, i: int, j: int)
    requires 0 <= i <= j < |s|
    ensures multiset(MoveUp(s, i, j)) == multiset(s)
  {
    assert s == s[..i] + [s[i]] + s[i + 1..j + 1] + s[j + 1..];
  }

  /** Moving an entry is a permutation. */
  lemma MovedPermutes<T>(s: seq<T>, i: int, j: int)
    requires 0 <= i < |s| && 0 <= j < |s|
    ensures multiset(Moved(s, i, j)) == multiset(s)
  {
    if j <= i {
      MoveDownPermutes(s, i, j);
    } else {
      MoveUpPermutes(s, i, j);
    }
  }

  /** Moving an entry leaves the entries outside the range it crosses in place. */
  lemma MovedFrame<T>(s: seq<T>, i: int, j: int, k: int)
    requires 0 <= i < |s| && 0 <= j < |s| && 0 <= k < |s|
    requires (k < i && k < j) || (k > i && k > j)
    ensures Moved(s, i, j)[k] == s[k]
  {
    if j <= i {
      if k > i {
        assert |s[..j] + [s[i]] + s[j..i]| == i + 1;
      }
    } else {
      if k > j {
        assert |s[..i] + s[i + 1..j + 1] + [s[i]]| == j + 1;
      }
    }
  }

  /** Exchanging two neighbours moves either one past the other. */
  lemma SwapIsMove<T>(s: seq<T>, i: int)
    requires 0 <= i && i + 1 < |s|
    ensures s[..i] + [s[i + 1], s[i]] + s[i + 2..] == MoveDown(s, i + 1, i) == MoveUp(s, i, i + 1)
  {
    assert s[i..i + 1] == [s[i]] && s[i + 1..i + 2] == [s[i + 1]];
  }

  /** Moving down one place and then on down to `j` is moving down to `j`. */
  lemma MoveDownStep<T>(s: seq<T>, i: int, j: int)
    requires 0 <= j < i < |s|
    ensures MoveDown(MoveDown(s, i, i - 1), i - 1, j) == MoveDown(s, i, j)
  {
    var t := MoveDown(s, i, i - 1);
    assert t == s[..i - 1] + [s[i], s[i - 1]] + s[i + 1..];
    assert t[..j] == s[..j] && t[j..i - 1] == s[j..i - 1] && t[i..] == [s[i - 1]] + s[i + 1..];
    assert s[j..i] == s[j..i - 1] + [s[i - 1]];
  }

  /** Moving up one place and then on up to `j` is moving up to `j`. */
  lemma MoveUpStep<T>(s: seq<T>, i: int, j: int)
    requires 0 <= i < j < |s|
    ensures MoveUp(MoveUp(s, i, i + 1), i + 1, j) == MoveUp(s, i, j)
  {
    var t := MoveUp(s, i, i + 1);
    assert t == s[..i] + [s[i + 1], s[i]] + s[i + 2..];
    assert t[..i + 1] == s[..i + 1 + 1][..i] + [s[i + 1]];
    assert t[i + 2..j + 1] == s[i + 2..j + 1] && t[j + 1..] == s[j + 1..];
    assert s[i + 1..j + 1] == [s[i + 1]] + s[i + 2..j + 1];
  }

  /** `MoveDownStep` with the intermediate and final sequences named. */
  lemma MoveDownChain<T>(s: seq<T>, t: seq<T>, u: seq<T>, i: int, j: int)
    requires 0 <= j < i < |s|
    requires t == MoveDown(s, i, i - 1) && u == MoveDown(t, i - 1, j)
    ensures u == MoveDown(s, i, j)
  {
    MoveDownStep(s, i, j);
  }

  /** `MoveUpStep` with the intermediate and final sequences named. */
  lemma MoveUpChain<T>(s: seq<T>, t: seq<T>, u: seq<T>, i: int, j: int)
    requires 0 <= i < j < |s|
    requires t == MoveUp(s, i, i + 1) && u == MoveUp(t, i + 1, j)
    ensures u == MoveUp(s, i, j)
  {
    MoveUpStep(s, i, j);
  }
}
