/**
 * Iterating a step until it changes nothing: the shape shared by the
 * generator `normalize` (the values it yields) and by `normal_form` (where
 * it stops, or why it does not).
 */
module Iteration {
  /** The values `step` yields from `x`, one per application, until an application changes nothing; at most `n` of them. */
  function Orbit<T(==)>(step: T -> T, x: T, n: nat): (r: seq<T>)
    ensures |r| <= n
    decreases n
  {
    if n == 0 then []
    else
      var y := step(x);
      if y == x then [] else [y] + Orbit(step, y, n - 1)
  }

  /** An application that changes the value yields it, and the orbit goes on from there. */
  lemma OrbitUnfold<T>(step: T -> T, x: T, n: nat)
    requires n > 0 && step(x) != x
    ensures Orbit(step, x, n) == [step(x)] + Orbit(step, step(x), n - 1)
  {
  }

  /** With no applications left, or at a fixpoint, the orbit is empty. */
  lemma OrbitStops<T>(step: T -> T, x: T, n: nat)
    requires n == 0 || step(x) == x
    ensures Orbit(step, x, n) == []
  {
  }

  /** The unfolding of an orbit after the values collected so far, `y` being the next one. */
  lemma OrbitAdvance<T>(prefix: seq<T>, step: T -> T, x: T, y: T, n: nat)
    requires n > 0 && y == step(x) && y != x
    ensures prefix + [y] + Orbit(step, y, n - 1) == prefix + Orbit(step, x, n)
  {
    OrbitUnfold(step, x, n);
    assert prefix + [y] + Orbit(step, y, n - 1) == prefix + ([y] + Orbit(step, y, n - 1));
  }

  /** Each value of an orbit is the step applied to the one before it, and differs from it. */
  lemma {:induction false} OrbitSteps<T>(step: T -> T, x: T, n: nat)
    ensures var t := Orbit(step, x, n);
            && (|t| > 0 ==> t[0] == step(x) && t[0] != x)
            && (forall k :: 0 < k < |t| ==> t[k] == step(t[k - 1]) && t[k] != t[k - 1])
    decreases n
  {
    if n > 0 && step(x) != x {
      OrbitSteps(step, step(x), n - 1);
      OrbitUnfold(step, x, n);
    } else {
      OrbitStops(step, x, n);
    }
  }

  /** A property the step preserves holds of every value of the orbit of a value that has it. */
  lemma {:induction false} OrbitKeeps<T>(step: T -> T, inv: T -> bool, x: T, n: nat)
    requires inv(x)
    requires forall y :: inv(y) ==> inv(step(y))
    ensures forall k :: 0 <= k < |Orbit(step, x, n)| ==> inv(Orbit(step, x, n)[k])
    decreases n
  {
    if n > 0 && step(x) != x {
      var rest := Orbit(step, step(x), n - 1);
      OrbitKeeps(step, inv, step(x), n - 1);
      OrbitUnfold(step, x, n);
      forall k | 0 < k < |[step(x)] + rest| ensures ([step(x)] + rest)[k] == rest[k - 1] {
      }
    } else {
      OrbitStops(step, x, n);
    }
  }

  /** How iterating to a fixpoint ends: at a fixpoint, on a value seen before, or with no applications left. */
  datatype Outcome<T> = Fixed(value: T) | Revisited | Exhausted

  /**
   * Applies `step` from `x` until it changes nothing, at most `fuel` times,
   * recording each new value in `cache`; a value already in `cache` ends
   * the iteration with Revisited.
   */
  function Settle<T(==)>(step: T -> T, x: T, cache: set<T>, fuel: nat): Outcome<T>
    decreases fuel
  {
    if fuel == 0 then Exhausted
    else
      var y := step(x);
      if y == x then Fixed(x)
      else if y in cache then Revisited
      else Settle(step, y, cache + {y}, fuel - 1)
  }

  /** A new value carries the iteration on from there, with it recorded. */
  lemma SettleAdvance<T>(step: T -> T, x: T, y: T, cache: set<T>, fuel: nat)
    requires fuel > 0 && y == step(x) && y != x && y !in cache
    ensures Settle(step, x, cache, fuel) == Settle(step, y, cache + {y}, fuel - 1)
  {
  }

  /** Iteration settles only on a fixpoint of the step. */
  lemma {:induction false} SettleFixed<T>(step: T -> T, x: T, cache: set<T>, fuel: nat)
    requires Settle(step, x, cache, fuel).Fixed?
    ensures step(Settle(step, x, cache, fuel).value) == Settle(step, x, cache, fuel).value
    decreases fuel
  {
    if step(x) != x {
      SettleFixed(step, step(x), cache + {step(x)}, fuel - 1);
    }
  }

  /** Iteration settles on a value of the orbit, or on the start: so a property the step preserves holds of it. */
  lemma {:induction false} SettleKeeps<T>(step: T -> T, inv: T -> bool, x: T, cache: set<T>, fuel: nat)
    requires inv(x) && Settle(step, x, cache, fuel).Fixed?
    requires forall y :: inv(y) ==> inv(step(y))
    ensures inv(Settle(step, x, cache, fuel).value)
    decreases fuel
  {
    if step(x) != x {
      SettleKeeps(step, inv, step(x), cache + {step(x)}, fuel - 1);
    }
  }

  /** A fixpoint settles at once on itself. */
  lemma SettleAtFixpoint<T>(step: T -> T, x: T, cache: set<T>, fuel: nat)
    requires step(x) == x && fuel > 0
    ensures Settle(step, x, cache, fuel) == Fixed(x)
  {
  }

  /**
   * A run of distinct values, each the step of the one before, none of them
   * in the cache, that ends on a fixpoint: iteration from its start settles
   * on its end.
   */
  lemma {:induction false} SettleAlong<T>(step: T -> T, run: seq<T>, k: nat, cache: set<T>, fuel: nat)
    requires k < |run| && fuel >= |run| - k
    requires forall j :: k <= j < |run| - 1 ==> step(run[j]) == run[j + 1]
    requires step(run[|run| - 1]) == run[|run| - 1]
    requires forall i, j :: k <= i < j < |run| ==> run[i] != run[j]
    requires forall j :: k < j < |run| ==> run[j] !in cache
    ensures Settle(step, run[k], cache, fuel) == Fixed(run[|run| - 1])
    decreases |run| - k
  {
    if k == |run| - 1 {
      SettleAtFixpoint(step, run[k], cache, fuel);
    } else {
      SettleAdvance(step, run[k], run[k + 1], cache, fuel);
      SettleAlong(step, run, k + 1, cache + {run[k + 1]}, fuel - 1);
    }
  }
}
