/** The progressive backoff schedule of transitions. */
module Backoff {
  import opened Objects

  const STUCK := 15 * MINUTE

  /** The requeue delay for a transition of that age; None once it counts as stuck. */
  function Phase(age: int): Option<nat> {
    if age <= 2 * MINUTE then Some(30 * SECOND)
    else if age <= 10 * MINUTE then Some(2 * MINUTE)
    else if age <= STUCK then Some(5 * MINUTE)
    else None
  }

  /** Reconciles of one transition, at these ages: each comes no sooner than the delay the one before it asked for. */
  ghost predicate Requeued(ages: seq<int>) {
    && (forall i :: 0 <= i < |ages| ==> 0 <= ages[i] <= STUCK)
    && (forall i :: 0 <= i < |ages| - 1 ==> ages[i + 1] >= ages[i] + Phase(ages[i]).value)
  }

  // How many delays can still be asked for from a given age on.
  function Left(age: int): nat {
    if age > STUCK then 0
    else if age > 10 * MINUTE then 1
    else if age > 2 * MINUTE then 1 + (10 * MINUTE - age) / (2 * MINUTE) + 1
    else if age >= 0 then 5 + (2 * MINUTE - age) / (30 * SECOND) + 1
    else 0
  }

  lemma DelayUsesOneUp(age: int, next: int)
    requires 0 <= age <= STUCK && next >= age + Phase(age).value
    ensures Left(next) < Left(age)
  {
  }

  lemma {:induction false} DelaysLeft(ages: seq<int>)
    requires Requeued(ages) && ages != []
    ensures |ages| <= Left(ages[0])
    decreases |ages|
  {
    if |ages| > 1 {
      assert ages[1] >= ages[0] + Phase(ages[0]).value;
      DelayUsesOneUp(ages[0], ages[1]);
      forall i | 0 <= i < |ages| - 2
        ensures ages[1..][i + 1] >= ages[1..][i] + Phase(ages[1..][i]).value
      {
        assert ages[i + 2] >= ages[i + 1] + Phase(ages[i + 1]).value;
      }
      DelaysLeft(ages[1..]);
    }
  }

  /** At most ten delays are asked for before the transition counts as stuck, from any age on
      and at any reconcile times; and ten can happen. */
  lemma AtMostTenDelays(ages: seq<int>)
    requires Requeued(ages)
    ensures |ages| <= 10
  {
    if ages != [] {
      DelaysLeft(ages);
    }
  }

  lemma TenDelaysHappen() returns (ages: seq<int>)
    ensures Requeued(ages) && |ages| == 10
  {
    ages := [0, 30 * SECOND, 60 * SECOND, 90 * SECOND, 120 * SECOND,
             150 * SECOND, 270 * SECOND, 390 * SECOND, 510 * SECOND, 630 * SECOND];
  }
}
