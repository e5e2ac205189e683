/** Ordered checks, and the error that is reported. */
module Checks {
  import opened Outcomes

  /** The answer is the error of the first check that fails, or none if none does. */
  ghost predicate Reports<E>(checks: seq<(bool, E)>, e: Option<E>) {
    if e.None? then forall n :: 0 <= n < |checks| ==> checks[n].0
    else exists n :: 0 <= n < |checks| && !checks[n].0 && checks[n].1 == e.value && forall m :: 0 <= m < n ==> checks[m].0
  }

  /** No check fails. */
  ghost predicate AllPass<E>(checks: seq<(bool, E)>) {
    forall n :: 0 <= n < |checks| ==> checks[n].0
  }

  lemma SixPass<E>(checks: seq<(bool, E)>)
    requires |checks| == 6 && checks[0].0 && checks[1].0 && checks[2].0 && checks[3].0 && checks[4].0 && checks[5].0
    ensures AllPass(checks)
  {
  }

  lemma FirstFails<E>(checks: seq<(bool, E)>, n: nat)
    requires n < |checks| && !checks[n].0 && forall m :: 0 <= m < n ==> checks[m].0
    ensures Reports(checks, Some(checks[n].1)) && !AllPass(checks)
  {
  }

  lemma SevenPass<E>(checks: seq<(bool, E)>)
    requires |checks| == 7 && checks[0].0 && checks[1].0 && checks[2].0 && checks[3].0 && checks[4].0 && checks[5].0 && checks[6].0
    ensures AllPass(checks)
  {
  }

  lemma EightPass<E>(checks: seq<(bool, E)>)
    requires |checks| == 8 && checks[0].0 && checks[1].0 && checks[2].0 && checks[3].0
    requires checks[4].0 && checks[5].0 && checks[6].0 && checks[7].0
    ensures AllPass(checks)
  {
  }

  lemma TwoPass<E>(checks: seq<(bool, E)>)
    requires |checks| == 2 && checks[0].0 && checks[1].0
    ensures AllPass(checks)
  {
  }
}
