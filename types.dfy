/**
 * Types of a free monoidal category: finite sequences of named objects,
 * the free monoid with concatenation `@` and unit `Ty()`.
 */
module Types {
  import opened Results

  /** An atomic object, equal to another when their names are. */
  type Ob = string

  /** A type is the list of its objects: `s @ t` is `s + t` and `Ty()` is `[]`. */
  type Ty = seq<Ob>

  /** The exceptions raised by indexing and exponentiation. */
  datatype TyError = IndexError | ValueError

  /** Python's normalisation of a slice bound `i` against a sequence of length `n`. */
  function ClampIndex(i: int, n: nat): (r: nat)
    ensures r <= n
  {
    if i < 0 then (if i + n < 0 then 0 else i + n) else if i > n then n else i
  }

  /** `t[lo:hi]`, with Python's rules for negative and out-of-range bounds. */
  function Slice(t: Ty, lo: int, hi: int): (r: Ty)
    ensures |r| <= |t|
    ensures 0 <= lo <= hi <= |t| ==> r == t[lo..hi]
  {
    var a, b := ClampIndex(lo, |t|), ClampIndex(hi, |t|);
    if a < b then t[a..b] else []
  }

  /** A negative bound counts from the end of the type. */
  lemma SliceFromEnd(t: Ty, lo: int, hi: int)
    requires 0 <= lo <= hi < |t|
    ensures Slice(t, lo - |t|, hi - |t|) == t[lo..hi]
  {
  }

  /** `t[i]`: the object at index `i`, counting from the end when `i` is negative. */
  function At(t: Ty, i: int): (r: Result<Ob, TyError>)
    ensures r.Ok? <==> -|t| <= i < |t|
    ensures 0 <= i < |t| ==> r.Ok? && Slice(t, i, i + 1) == [r.value]
  {
    if 0 <= i < |t| then Ok(t[i])
    else if -|t| <= i < 0 then Ok(t[i + |t|])
    else Err(IndexError)
  }

  /** A negative index counts from the end of the type. */
  lemma AtFromEnd(t: Ty, i: int)
    requires 0 <= i < |t|
    ensures At(t, i - |t|) == At(t, i)
  {
  }

  /** The exponent of `t ** e`: Python accepts only an `int`. */
  datatype Exponent = IntExponent(n: int) | NotAnInt

  /** `sum(n * (t,), Ty())`: `Ty() @ t @ ... @ t` with `n` factors, none when `n <= 0`. */
  function Repeat(t: Ty, n: int): Ty
    decreases if n < 0 then 0 else n
  {
    if n <= 0 then [] else Repeat(t, n - 1) + t
  }

  lemma {:induction false} RepeatLength(t: Ty, n: nat)
    ensures |Repeat(t, n)| == n * |t|
  {
    if n > 0 {
      RepeatLength(t, n - 1);
    }
  }

  /** `t ** (m + n) == t ** m @ t ** n` for non-negative exponents. */
  lemma {:induction false} RepeatAdd(t: Ty, m: nat, n: nat)
    ensures Repeat(t, m + n) == Repeat(t, m) + Repeat(t, n)
  {
    if n > 0 {
      RepeatAdd(t, m, n - 1);
      assert Repeat(t, m + n) == Repeat(t, m + n - 1) + t;
    }
  }

  /** `t ** e`: ValueError unless `e` is an int; otherwise `t` repeated `max(e, 0)` times. */
  function Pow(t: Ty, e: Exponent): (r: Result<Ty, TyError>)
    ensures r.Err? <==> e.NotAnInt?
    ensures r.Err? ==> r.error == ValueError
    ensures e.IntExponent? && e.n <= 0 ==> r == Ok([])
    ensures e.IntExponent? && e.n >= 0 ==> |r.value| == e.n * |t|
  {
    match e
    case NotAnInt => Err(ValueError)
    case IntExponent(n) =>
      if n >= 0 then RepeatLength(t, n); Ok(Repeat(t, n)) else Ok(Repeat(t, n))
  }

  /** Exponentiation is a monoid morphism from (nat, +, 0) to types: `t ** 1 == t`, `t ** (m + n) == t ** m @ t ** n`. */
  lemma PowMorphism(t: Ty, m: nat, n: nat)
    ensures Pow(t, IntExponent(1)) == Ok(t)
    ensures Pow(t, IntExponent(m + n)) == Ok(Pow(t, IntExponent(m)).value + Pow(t, IntExponent(n)).value)
  {
    RepeatAdd(t, m, n);
    assert Repeat(t, 0) == [];
    assert Repeat(t, 1) == Repeat(t, 0) + t == t;
  }
}
