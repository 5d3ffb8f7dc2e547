/** The objective and the constraint margins of the pricing problem: total
    functions from a vector of four unit prices to a real number. A margin
    that is non-negative means that its constraint is satisfied. */
module Evaluators {

  /** The number of decision variables (items); the driver fixes it to 4. */
  const DIM: nat := 4

  /** Total profit of the four items at unit prices x[0..3]; to be maximised. */
  function Objective(x: seq<real>): real
    requires |x| >= DIM
  {
    19606.0 * x[0] + 67897.0 * x[1] + 22632.0 * x[2] + 17749.0 * x[3]
  }

  /** What is left of the 262500 budget once every item is bid at its price. */
  function TotalBidMargin(x: seq<real>): real
    requires |x| >= DIM
  {
    262500.0 - (20000.0 * x[0] + 75000.0 * x[1] + 25000.0 * x[2] + 20000.0 * x[3])
  }

  /** How far item 3 is priced above item 2. */
  function BalanceMargin(x: seq<real>): real
    requires |x| >= DIM
  {
    x[2] - x[1]
  }

  /** The constraint functions a caller may hand to the optimiser. */
  datatype Constraint = TotalBid | Balance

  function Margin(c: Constraint, x: seq<real>): real
    requires |x| >= DIM
  {
    match c
    case TotalBid => TotalBidMargin(x)
    case Balance => BalanceMargin(x)
  }

  /** The constraint list of the source's own run. */
  const CONSTRAINTS: seq<Constraint> := [TotalBid, Balance]

  /** `all(c(x) >= 0 for c in cs)`: every constraint is met, a margin of
      exactly zero included. */
  function Feasible(cs: seq<Constraint>, x: seq<real>): (ok: bool)
    requires |x| >= DIM
    ensures ok <==> forall i :: 0 <= i < |cs| ==> Margin(cs[i], x) >= 0.0
  {
    if cs == [] then true else Margin(cs[0], x) >= 0.0 && Feasible(cs[1..], x)
  }

  /** Componentwise order on the first DIM entries. */
  predicate Below(x: seq<real>, y: seq<real>)
    requires |x| >= DIM && |y| >= DIM
  {
    forall i :: 0 <= i < DIM ==> x[i] <= y[i]
  }

  /** With the source's two constraints, feasibility is exactly "within
      budget and item 3 not cheaper than item 2"; both bounds are inclusive. */
  lemma {:induction false} ReferenceFeasible(x: seq<real>)
    requires |x| >= DIM
    ensures Feasible(CONSTRAINTS, x) <==>
      20000.0 * x[0] + 75000.0 * x[1] + 25000.0 * x[2] + 20000.0 * x[3] <= 262500.0 && x[1] <= x[2]
  {
    assert CONSTRAINTS[1..] == [Balance];
    assert CONSTRAINTS[1..][1..] == [];
  }

  /** All weights are positive: raising any price never lowers the profit and
      never raises the remaining budget. */
  lemma ObjectiveMonotone(x: seq<real>, y: seq<real>)
    requires |x| >= DIM && |y| >= DIM && Below(x, y)
    ensures Objective(x) <= Objective(y)
    ensures TotalBidMargin(y) <= TotalBidMargin(x)
    ensures x[..DIM] != y[..DIM] ==> Objective(x) < Objective(y) && TotalBidMargin(y) < TotalBidMargin(x)
  {
    if x[..DIM] != y[..DIM] {
      var i :| 0 <= i < DIM && x[..DIM][i] != y[..DIM][i];
      assert x[i] < y[i];
    }
  }

  /** Every item earns at most 0.9803 per unit of budget it uses, so a
      feasible non-negative price vector earns at most 0.9803 * 262500. */
  lemma ProfitBoundedByBudget(x: seq<real>)
    requires |x| >= DIM
    requires forall i :: 0 <= i < DIM ==> 0.0 <= x[i]
    requires TotalBidMargin(x) >= 0.0
    ensures Objective(x) <= 257328.75
  {
    assert 0.0 <= x[1] && 0.0 <= x[2] && 0.0 <= x[3];
  }
}
