/**
 * The browser recomputes from the car list what the server's analytics endpoints report;
 * these lemmas state that both sides arrive at the same figures.
 */
module Consistency {
  import opened Records
  import opened Tally
  import ServerAnalytics
  import AdminAnalytics

  /** The key metrics the analytics view shows equal the `/summary` the server computes. */
  lemma SummaryAgrees(cars: seq<Car>)
    ensures AdminAnalytics.KeyMetrics(cars) == ServerAnalytics.Summary(cars)
  {
  }

  /** The make histogram of the analytics view equals the server's `byMake` inventory count. */
  lemma InventoryByMakeAgrees(cars: seq<Car>)
    ensures AdminAnalytics.InventoryByMake(cars) == MakeCounts(cars)
  {
    AdminAnalytics.CountIntoMakeCounts([], cars);
    assert [] + cars == cars;
  }
}
