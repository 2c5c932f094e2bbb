/**
 * A project as the list pages and cards receive it: a loose record whose fields may be
 * missing and whose amounts go by two names each (`fundingGoal`/`goal`,
 * `amountRaised`/`raised`, `owner`/`creator`). Amounts are wei as natural numbers.
 */
module Listing {
  import opened Wrappers

  datatype Listing = Listing(
    id: int,
    owner: Option<string>,
    creator: Option<string>,
    title: Option<string>,
    description: Option<string>,
    fundingGoal: Option<nat>,
    goal: Option<nat>,
    amountRaised: Option<nat>,
    raised: Option<nat>,
    withdrawn: bool,
    daysLeft: Option<int>,
    category: Option<string>)

  /** A string field is truthy when present and non-empty. */
  predicate Truthy(field: Option<string>) {
    field.Some? && field.value != []
  }

  /** `field || fallback` on a string field. */
  function TextOr(field: Option<string>, fallback: string): string {
    if Truthy(field) then field.value else fallback
  }

  /** `field || fallback` on an amount: a missing amount and zero are both falsy. */
  function AmountOr(field: Option<nat>, fallback: nat): nat {
    if field.Some? && field.value != 0 then field.value else fallback
  }

  /** `fundingGoal || goal || "0"`. */
  function GoalOf(p: Listing): (g: nat)
    ensures g == 0 <==> AmountOr(p.fundingGoal, 0) == 0 && AmountOr(p.goal, 0) == 0
    ensures g != 0 ==> Some(g) == p.fundingGoal || Some(g) == p.goal
  {
    AmountOr(p.fundingGoal, AmountOr(p.goal, 0))
  }

  /** `amountRaised || raised || "0"`. */
  function RaisedOf(p: Listing): (r: nat)
    ensures r == 0 <==> AmountOr(p.amountRaised, 0) == 0 && AmountOr(p.raised, 0) == 0
    ensures r != 0 ==> Some(r) == p.amountRaised || Some(r) == p.raised
  {
    AmountOr(p.amountRaised, AmountOr(p.raised, 0))
  }

  /** `owner || creator || ""`. */
  function OwnerOf(p: Listing): (o: string)
    ensures o != [] ==> Some(o) == p.owner || Some(o) == p.creator
    ensures o == [] <==> !Truthy(p.owner) && !Truthy(p.creator)
  {
    TextOr(p.owner, TextOr(p.creator, ""))
  }

  function MinReal(a: real, b: real): real {
    if a <= b then a else b
  }

  /**
   * Funding progress in percent: 0 when the goal is zero, otherwise raised/goal*100
   * capped at 100, computed over exact rationals.
   */
  function Progress(raised: nat, goal: nat): (p: real)
    ensures 0.0 <= p <= 100.0
    ensures goal == 0 ==> p == 0.0
    ensures goal > 0 ==> (p == 100.0 <==> raised >= goal)
  {
    if goal == 0 then 0.0
    else
      var ratio := (raised as real / goal as real) * 100.0;
      assert raised < goal ==> ratio < 100.0 by {
        if raised < goal {
          assert raised as real / goal as real < 1.0;
        }
      }
      MinReal(100.0, ratio)
  }

  /** More money raised never shows less progress. */
  lemma ProgressMonotone(raised1: nat, raised2: nat, goal: nat)
    requires raised1 <= raised2
    ensures Progress(raised1, goal) <= Progress(raised2, goal)
  {
    if goal > 0 {
      assert raised1 as real / goal as real <= raised2 as real / goal as real;
    }
  }
}
