/** The staleness monitor: the age of the last book update, computed with a
    saturating subtraction, and the strict comparison with the threshold. */
module Staleness {

  /** `now.saturating_sub(lastUpdate)` on seconds. */
  function QuoteAge(now: nat, lastUpdate: nat): (age: nat)
    ensures age <= now
    ensures now < lastUpdate ==> age == 0
    ensures lastUpdate <= now ==> lastUpdate + age == now
  {
    if now >= lastUpdate then now - lastUpdate else 0
  }

  /** The monitor's test: quotes are stale when their age exceeds the threshold. */
  predicate IsStale(now: nat, lastUpdate: nat, staleThreshold: nat)
  {
    QuoteAge(now, lastUpdate) > staleThreshold
  }

  /** Stale exactly when `now` lies strictly beyond `lastUpdate + threshold`;
      a clock behind the last update is never stale. */
  lemma StaleIffPastDeadline(now: nat, lastUpdate: nat, staleThreshold: nat)
    ensures IsStale(now, lastUpdate, staleThreshold) <==> now > lastUpdate + staleThreshold
  {
  }

  /** Updated 10 s ago with a 5 s threshold is stale; 3 s ago is fresh. */
  lemma StaleScenarios()
    ensures IsStale(110, 100, 5)
    ensures !IsStale(103, 100, 5)
  {
  }
}
