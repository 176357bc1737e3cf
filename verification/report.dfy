/** The fan-in after the per-country fetches: an order-preserving map over
    the country list, then one flat list of plans (script.py, the thread pool
    and the `extend` loop). */
module Report {
  import opened Wrappers
  import opened Plans
  import opened Fetch

  /** One element of the country list paired with the outcome of its
      pricing request. */
  datatype CountryFetch = CountryFetch(country: Country, outcome: FetchOutcome)

  /** The fixed column order of the report's header row. */
  const CsvColumns: seq<string> := [
    "subscriptionName", "type", "periodLengthInMonths", "country",
    "countryCode", "trialPeriodInDays", "price", "currency"]

  /** The per-country results in country-list order, as an ordered map over
      the countries delivers them. */
  function FetchAll(fetches: seq<CountryFetch>): (r: seq<seq<Plan>>)
    ensures |r| == |fetches|
    ensures forall i | 0 <= i < |fetches| ::
              r[i] == FetchSubscriptions(fetches[i].country, fetches[i].outcome)
  {
    seq(|fetches|, i requires 0 <= i < |fetches| =>
      FetchSubscriptions(fetches[i].country, fetches[i].outcome))
  }

  /** Sum of the lengths of a list of lists. */
  function TotalLength<T>(ss: seq<seq<T>>): nat
  {
    if ss == [] then 0 else |ss[0]| + TotalLength(ss[1..])
  }

  /** Concatenation of a list of lists, front to back. */
  function Flatten<T>(ss: seq<seq<T>>): (r: seq<T>)
    ensures |r| == TotalLength(ss)
    ensures forall x | x in r :: exists i | 0 <= i < |ss| :: x in ss[i]
  {
    if ss == [] then [] else ss[0] + Flatten(ss[1..])
  }

  /** Flattening distributes over concatenation of the outer list. */
  lemma {:induction false} FlattenAppend<T>(a: seq<seq<T>>, b: seq<seq<T>>)
    ensures Flatten(a + b) == Flatten(a) + Flatten(b)
    decreases |a|
  {
    if a == [] {
      assert a + b == b;
    } else {
      assert (a + b)[1..] == a[1..] + b;
      FlattenAppend(a[1..], b);
    }
  }

  /** Element `j` of list `i` sits in the flat list right after all the
      elements of the lists before it. */
  lemma {:induction false} FlattenPosition<T>(ss: seq<seq<T>>, i: int, j: int)
    requires 0 <= i < |ss| && 0 <= j < |ss[i]|
    ensures TotalLength(ss[..i]) + j < |Flatten(ss)|
    ensures Flatten(ss)[TotalLength(ss[..i]) + j] == ss[i][j]
    decreases i
  {
    if i > 0 {
      assert ss[..i][1..] == ss[1..][..i - 1];
      FlattenPosition(ss[1..], i - 1, j);
    }
  }

  /** Every element of every list reaches the flat list. */
  lemma FlattenContains<T>(ss: seq<seq<T>>, i: int, x: T)
    requires 0 <= i < |ss| && x in ss[i]
    ensures x in Flatten(ss)
  {
    var j :| 0 <= j < |ss[i]| && ss[i][j] == x;
    FlattenPosition(ss, i, j);
  }

  /** The source's loop: start empty and extend with each country's result. */
  method ExtendAll<T>(results: seq<seq<T>>) returns (plans: seq<T>)
    ensures plans == Flatten(results)
  {
    plans := [];
    var i := 0;
    while i < |results|
      invariant 0 <= i <= |results|
      invariant plans == Flatten(results[..i])
    {
      assert results[..i + 1] == results[..i] + [results[i]];
      FlattenAppend(results[..i], [results[i]]);
      assert Flatten([results[i]]) == results[i] + Flatten([]);
      plans := plans + results[i];
      i := i + 1;
    }
    assert results[..|results|] == results;
  }

  /** All plans of all countries, grouped by country in country-list order. */
  function CollectPlans(fetches: seq<CountryFetch>): (r: seq<Plan>)
    ensures forall p | p in r :: WellFormed(p)
    ensures forall p | p in r :: exists i | 0 <= i < |fetches| ::
              p.country == fetches[i].country.name && p.countryCode == fetches[i].country.code
  {
    Flatten(FetchAll(fetches))
  }

  /** The report has as many rows as the countries have plans together. */
  lemma {:induction false} CollectPlansLength(fetches: seq<CountryFetch>)
    ensures |CollectPlans(fetches)| == TotalLength(FetchAll(fetches))
    ensures |CollectPlans(fetches)| <= TotalRawPlans(fetches)
    decreases |fetches|
  {
    if fetches != [] {
      assert FetchAll(fetches)[1..] == FetchAll(fetches[1..]);
      CollectPlansLength(fetches[1..]);
      assert TotalRawPlans(fetches) == RawCount(fetches[0].outcome) + TotalRawPlans(fetches[1..]);
    }
  }

  /** The number of raw plans an outcome carries. */
  function RawCount(outcome: FetchOutcome): nat {
    if outcome.Ok? && outcome.packages.Some? then |outcome.packages.value| else 0
  }

  /** The number of raw plans all outcomes carry together. */
  function TotalRawPlans(fetches: seq<CountryFetch>): nat {
    if fetches == [] then 0 else RawCount(fetches[0].outcome) + TotalRawPlans(fetches[1..])
  }

  /** Per-country results concatenate: the report of a split country list is
      the report of its front followed by the report of its back. */
  lemma CollectPlansAppend(a: seq<CountryFetch>, b: seq<CountryFetch>)
    ensures CollectPlans(a + b) == CollectPlans(a) + CollectPlans(b)
  {
    assert FetchAll(a + b) == FetchAll(a) + FetchAll(b);
    FlattenAppend(FetchAll(a), FetchAll(b));
  }

  /** A country whose request raised, answered with a status other than 200,
      or carried no packages only removes its own rows: the others' plans are
      all there, in the same order. */
  lemma FailedCountryIsIsolated(fetches: seq<CountryFetch>, i: int)
    requires 0 <= i < |fetches|
    requires !HasPackages(fetches[i].outcome)
    ensures CollectPlans(fetches) == CollectPlans(fetches[..i]) + CollectPlans(fetches[i + 1..])
  {
    var front, failed, back := fetches[..i], [fetches[i]], fetches[i + 1..];
    assert fetches == front + (failed + back);
    CollectPlansAppend(front, failed + back);
    CollectPlansAppend(failed, back);
    SingleFetch(fetches[i]);
  }

  /** The report of a one-country list is that country's plan list. */
  lemma SingleFetch(f: CountryFetch)
    ensures CollectPlans([f]) == FetchSubscriptions(f.country, f.outcome)
  {
  }

  /** The plans of country `i` appear in the report as one block, in their
      own order, right after the plans of the countries before it. */
  lemma CountryBlock(fetches: seq<CountryFetch>, i: int, j: int)
    requires 0 <= i < |fetches|
    requires 0 <= j < |FetchSubscriptions(fetches[i].country, fetches[i].outcome)|
    ensures TotalLength(FetchAll(fetches)[..i]) + j < |CollectPlans(fetches)|
    ensures CollectPlans(fetches)[TotalLength(FetchAll(fetches)[..i]) + j]
            == FetchSubscriptions(fetches[i].country, fetches[i].outcome)[j]
  {
    FlattenPosition(FetchAll(fetches), i, j);
  }

  /** A plan is in the report exactly when some country's list holds it. */
  lemma CollectPlansMembership(fetches: seq<CountryFetch>, p: Plan)
    ensures p in CollectPlans(fetches)
            <==> exists i | 0 <= i < |fetches| ::
                   p in FetchSubscriptions(fetches[i].country, fetches[i].outcome)
  {
    if exists i | 0 <= i < |fetches| :: p in FetchSubscriptions(fetches[i].country, fetches[i].outcome) {
      var i :| 0 <= i < |fetches| && p in FetchSubscriptions(fetches[i].country, fetches[i].outcome);
      FlattenContains(FetchAll(fetches), i, p);
    }
  }

  /** The fan-in as the source performs it: map over the countries in order,
      then extend one list with each result. */
  method CollectPlansSteps(fetches: seq<CountryFetch>) returns (plans: seq<Plan>)
    ensures plans == CollectPlans(fetches)
  {
    var results: seq<seq<Plan>> := [];
    var i := 0;
    while i < |fetches|
      invariant 0 <= i <= |fetches|
      invariant results == FetchAll(fetches[..i])
    {
      var r := FetchSubscriptionsSteps(fetches[i].country, fetches[i].outcome);
      results := results + [r];
      i := i + 1;
    }
    assert fetches[..|fetches|] == fetches;
    plans := ExtendAll(results);
  }

  /** Two countries answering with one monthly plan each at 999 cents in
      EUR give two monthly rows at 9.99 EUR that differ only in the country. */
  lemma TwoCountriesOneMonthlyPlanEach()
    ensures var plan := RawPlan(Some(1), None, Some(999), None, Some("EUR"));
            var fetches := [CountryFetch(Country("Spain", "ES"), Ok(200, Some([plan]))),
                            CountryFetch(Country("Italy", "IT"), Ok(200, Some([plan])))];
            CollectPlans(fetches)
            == [Plan("Duolingo Premium 1 Month", OneMonth, 1, "Spain", "ES", 9.99, 0, "EUR"),
                Plan("Duolingo Premium 1 Month", OneMonth, 1, "Italy", "IT", 9.99, 0, "EUR")]
    ensures var plan := RawPlan(Some(1), None, Some(999), None, Some("EUR"));
            var fetches := [CountryFetch(Country("Spain", "ES"), Ok(200, Some([plan]))),
                            CountryFetch(Country("Italy", "IT"), Ok(200, Some([plan])))];
            forall p | p in CollectPlans(fetches) :: p.planType.Tag() == "1_month"
  {
  }
}
