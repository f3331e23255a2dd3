/** Saturating money (crates/keplor-core/src/cost.rs): nanodollars in an i64. */
module Money {
  import opened MachineInts

  function Add(a: i64, b: i64): i64 {
    Clamp64(a + b)
  }

  function Abs(x: int): nat {
    if x >= 0 then x else -x
  }

  /** The unbounded sum. */
  function Exact(costs: seq<int>): int {
    if costs == [] then 0 else Exact(costs[..|costs| - 1]) + costs[|costs| - 1]
  }

  function Magnitude(costs: seq<int>): nat {
    if costs == [] then 0 else Magnitude(costs[..|costs| - 1]) + Abs(costs[|costs| - 1])
  }

  /** `total.saturating_add(cost)` for a cost that was itself saturated. */
  function Plus(total: i64, cost: int): i64 {
    Add(total, Clamp64(cost))
  }

  /** A saturating accumulator after adding `costs` in order, each clamped to an i64 first. */
  function Accrued(costs: seq<int>): i64 {
    if costs == [] then 0 else Plus(Accrued(costs[..|costs| - 1]), costs[|costs| - 1])
  }

  predicate NoneNegative(costs: seq<int>) {
    forall i :: 0 <= i < |costs| ==> costs[i] >= 0
  }

  lemma AccruedSnoc(costs: seq<int>, cost: int)
    ensures Accrued(costs + [cost]) == Plus(Accrued(costs), cost)
  {
  }

  /** A saturating accumulator is exact while the magnitudes fit. */
  lemma {:induction false} AccruedIsExact(costs: seq<int>)
    requires Magnitude(costs) <= I64_MAX
    ensures Accrued(costs) == Exact(costs) && -I64_MAX <= Exact(costs)
    ensures Abs(Exact(costs)) <= Magnitude(costs)
  {
    if costs != [] {
      AccruedIsExact(costs[..|costs| - 1]);
    }
  }

  /** And it is the capped sum when nothing negative is added, whatever the order. */
  lemma {:induction false} AccruedIsCapped(costs: seq<int>)
    requires NoneNegative(costs)
    ensures Accrued(costs) == Min(I64_MAX, Exact(costs)) && Exact(costs) >= 0
  {
    if costs != [] {
      AccruedIsCapped(costs[..|costs| - 1]);
    }
  }

  /** `impl Sum for Cost`: a fold of the saturating addition. */
  method Sum(costs: seq<i64>) returns (total: i64)
    ensures total == Accrued(costs)
    ensures Magnitude(costs) <= I64_MAX ==> total == Exact(costs)
    ensures NoneNegative(costs) ==> total == Min(I64_MAX, Exact(costs))
  {
    total := 0;
    for i := 0 to |costs|
      invariant total == Accrued(costs[..i])
    {
      assert costs[..i + 1] == costs[..i] + [costs[i]];
      AccruedSnoc(costs[..i], costs[i]);
      total := Add(total, costs[i]);
    }
    assert costs[..|costs|] == costs;
    if Magnitude(costs) <= I64_MAX {
      AccruedIsExact(costs);
    }
    if NoneNegative(costs) {
      AccruedIsCapped(costs);
    }
  }
}
