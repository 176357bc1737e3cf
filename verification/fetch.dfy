/** One country's request outcome and the soft-failure rules that turn it
    into that country's plan list (`fetch_subscriptions` in script.py). */
module Fetch {
  import opened Wrappers
  import opened Plans

  /** The only status the fetcher accepts. */
  const StatusOk: int := 200

  /** What the pricing request for one country produced: an HTTP answer with
      its status and the `plusPackageViewModels` list if the body has one, or
      an exception raised while requesting or parsing. */
  datatype FetchOutcome =
    | Ok(status: int, packages: Option<seq<RawPlan>>)
    | Failed

  /** A 200 answer with a present, non-empty package list. */
  predicate HasPackages(outcome: FetchOutcome) {
    && outcome.Ok?
    && outcome.status == StatusOk
    && outcome.packages.Some?
    && outcome.packages.value != []
  }

  /** The plan list of one country. Every failure is soft: it yields the
      empty list for this country only. */
  function FetchSubscriptions(country: Country, outcome: FetchOutcome): (r: seq<Plan>)
    ensures outcome.Failed? ==> r == []
    ensures outcome.Ok? && outcome.status != StatusOk ==> r == []
    ensures outcome.Ok? && outcome.packages in {None, Some([])} ==> r == []
    ensures HasPackages(outcome) ==> r == NormalisePlans(outcome.packages.value, country)
    ensures forall p | p in r ::
              WellFormed(p) && p.country == country.name && p.countryCode == country.code
  {
    match outcome
    case Failed => []
    case Ok(status, packages) =>
      if status != StatusOk then []
      else if packages.None? || packages.value == [] then []
      else NormalisePlans(packages.value, country)
  }

  /** A country contributes plans exactly when its request succeeded with a
      non-empty package list holding at least one monthly or yearly plan. */
  lemma NonEmptyOnlyOnSuccess(country: Country, outcome: FetchOutcome)
    ensures FetchSubscriptions(country, outcome) != []
            <==> HasPackages(outcome)
                 && exists i | 0 <= i < |outcome.packages.value| :: Kept(outcome.packages.value[i])
  {
    if HasPackages(outcome) {
      var raws := outcome.packages.value;
      if exists i | 0 <= i < |raws| :: Kept(raws[i]) {
        var i :| 0 <= i < |raws| && Kept(raws[i]);
        NormalisePlansMembership(raws, country, Normalise(raws[i], country).value);
      } else {
        AllDroppedGivesNothing(raws, country);
      }
    }
  }

  /** `fetch_subscriptions` as the source writes it, with its early returns
      and its append loop. */
  method FetchSubscriptionsSteps(country: Country, outcome: FetchOutcome) returns (r: seq<Plan>)
    ensures r == FetchSubscriptions(country, outcome)
  {
    if outcome.Failed? {
      return [];
    }
    if outcome.status != StatusOk {
      return [];
    }
    if outcome.packages.None? || outcome.packages.value == [] {
      return [];
    }
    r := NormaliseLoop(outcome.packages.value, country);
  }
}
