/** Classification and normalisation of one country's raw subscription plans
    (the body of `fetch_subscriptions` in script.py). */
module Plans {
  import opened Wrappers

  /** A country record of the country list: its `label` is the display name (`name` here),
      its `value` the billing country code (`code` here). */
  datatype Country = Country(name: string, code: string)

  /** One entry of `plusPackageViewModels`; every field may be absent. */
  datatype RawPlan = RawPlan(
    periodLengthInMonths: Option<int>,
    isFamilyPlan: Option<bool>,
    priceInCents: Option<int>,
    trialPeriodInDays: Option<int>,
    planCurrency: Option<string>)

  /** The three kinds of plan that are kept. */
  datatype PlanType = OneMonth | TwelveMonth | TwelveMonthFamily {

    /** The value written to the `type` column. */
    function Tag(): string {
      match this
      case OneMonth => "1_month"
      case TwelveMonth => "12_month"
      case TwelveMonthFamily => "12_month_family"
    }

    /** The value written to the `subscriptionName` column. */
    function DisplayName(): string {
      match this
      case OneMonth => "Duolingo Premium 1 Month"
      case TwelveMonth => "Duolingo Premium 12 Months"
      case TwelveMonthFamily => "Duolingo Premium Family 12 Months"
    }

    /** The billing period every plan of this kind has. */
    function Months(): int {
      match this
      case OneMonth => 1
      case TwelveMonth | TwelveMonthFamily => 12
    }
  }

  /** A normalised plan record, one row of the report. */
  datatype Plan = Plan(
    subscriptionName: string,
    planType: PlanType,
    periodLengthInMonths: int,
    country: string,
    countryCode: string,
    price: real,
    trialPeriodInDays: int,
    currency: string)

  /** The defaults applied to absent fields. */
  const DefaultPriceInCents: int := 0
  const DefaultTrialDays: int := 0
  const DefaultCurrency: string := "N/A"
  const DefaultFamily: bool := false

  /** A raw plan survives classification exactly when its period is one of
      the two billing periods the report covers. */
  predicate Kept(raw: RawPlan) {
    raw.periodLengthInMonths == Some(1) || raw.periodLengthInMonths == Some(12)
  }

  /** A plan is well formed when its name and period agree with its type. */
  predicate WellFormed(p: Plan) {
    && p.subscriptionName == p.planType.DisplayName()
    && p.periodLengthInMonths == p.planType.Months()
  }

  /** The classification policy as an independent lookup table on
      (period in months, family flag). */
  const PolicyTable: map<(int, bool), PlanType> := map[
    (1, false) := OneMonth,
    (1, true) := OneMonth,
    (12, false) := TwelveMonth,
    (12, true) := TwelveMonthFamily]

  /** The `if`/`elif` chain that decides a plan's type, in the order the
      branches are written; `None` means the plan is skipped. */
  function Classify(period: Option<int>, family: bool): (r: Option<PlanType>)
    ensures r.Some? ==> period == Some(r.value.Months())
    ensures r == Some(OneMonth) <==> period == Some(1)
    ensures r == Some(TwelveMonth) <==> period == Some(12) && !family
    ensures r == Some(TwelveMonthFamily) <==> period == Some(12) && family
  {
    if period == Some(1) then Some(OneMonth)
    else if period == Some(12) && !family then Some(TwelveMonth)
    else if period == Some(12) && family then Some(TwelveMonthFamily)
    else None
  }

  /** The chain agrees with the lookup table: a period/flag pair is
      classified exactly when the table has it, and to the table's entry. */
  lemma ClassifyMatchesTable(period: Option<int>, family: bool)
    ensures period.Some? && (period.value, family) in PolicyTable
            ==> Classify(period, family) == Some(PolicyTable[(period.value, family)])
    ensures Classify(period, family).Some?
            <==> period.Some? && (period.value, family) in PolicyTable
  {
  }

  /** Normalisation of one raw plan for `country`: absent fields take their
      defaults, the price goes from cents to currency units, and plans with
      any other period are dropped. */
  function Normalise(raw: RawPlan, country: Country): (r: Option<Plan>)
    ensures r.Some? <==> Kept(raw)
    ensures r.Some? ==> WellFormed(r.value)
    ensures r.Some? ==> Some(r.value.planType)
                        == Classify(raw.periodLengthInMonths, raw.isFamilyPlan.GetOr(DefaultFamily))
    ensures r.Some? ==> Some(r.value.periodLengthInMonths) == raw.periodLengthInMonths
    ensures r.Some? ==> r.value.price * 100.0 == raw.priceInCents.GetOr(DefaultPriceInCents) as real
    ensures r.Some? ==> r.value.trialPeriodInDays == raw.trialPeriodInDays.GetOr(DefaultTrialDays)
    ensures r.Some? ==> r.value.currency == raw.planCurrency.GetOr(DefaultCurrency)
    ensures r.Some? ==> r.value.country == country.name && r.value.countryCode == country.code
  {
    var period := raw.periodLengthInMonths;
    var family := raw.isFamilyPlan.GetOr(DefaultFamily);
    var price := raw.priceInCents.GetOr(DefaultPriceInCents) as real / 100.0;
    var trialDays := raw.trialPeriodInDays.GetOr(DefaultTrialDays);
    var currency := raw.planCurrency.GetOr(DefaultCurrency);
    match Classify(period, family)
    case None => None
    case Some(t) =>
      Some(Plan(t.DisplayName(), t, period.value, country.name, country.code,
                price, trialDays, currency))
  }

  /** A monthly plan is kept as `1_month` whatever its family flag says. */
  lemma MonthlyIgnoresFamilyFlag(raw: RawPlan, country: Country)
    requires raw.periodLengthInMonths == Some(1)
    ensures Normalise(raw, country).Some?
    ensures Normalise(raw, country).value.planType == OneMonth
    ensures Normalise(raw, country).value.subscriptionName == "Duolingo Premium 1 Month"
    ensures forall f: Option<bool> ::
              Normalise(raw.(isFamilyPlan := f), country) == Normalise(raw, country)
  {
  }

  /** A yearly plan is the family variant exactly when the flag is present
      and true; an absent flag counts as false. */
  lemma YearlyFamilyVariant(raw: RawPlan, country: Country)
    requires raw.periodLengthInMonths == Some(12)
    ensures Normalise(raw, country).Some?
    ensures raw.isFamilyPlan == Some(true)
            ==> Normalise(raw, country).value.planType == TwelveMonthFamily
                && Normalise(raw, country).value.subscriptionName == "Duolingo Premium Family 12 Months"
    ensures raw.isFamilyPlan != Some(true)
            ==> Normalise(raw, country).value.planType == TwelveMonth
                && Normalise(raw, country).value.subscriptionName == "Duolingo Premium 12 Months"
  {
  }

  /** The retained plans of one country, in input order. Defined by peeling
      off the last raw plan, the way the source's loop appends to its list. */
  function NormalisePlans(raws: seq<RawPlan>, country: Country): (r: seq<Plan>)
    ensures |r| <= |raws|
    ensures forall p | p in r ::
              WellFormed(p) && p.country == country.name && p.countryCode == country.code
    decreases |raws|
  {
    if raws == [] then []
    else
      var init := NormalisePlans(raws[..|raws| - 1], country);
      match Normalise(raws[|raws| - 1], country)
      case None => init
      case Some(p) => init + [p]
  }

  /** The positions of the kept raw plans, in increasing order. */
  function KeptIndices(raws: seq<RawPlan>): (r: seq<int>)
    ensures forall k | 0 <= k < |r| :: 0 <= r[k] < |raws| && Kept(raws[r[k]])
    ensures forall k, l | 0 <= k < l < |r| :: r[k] < r[l]
    ensures forall i | 0 <= i < |raws| && Kept(raws[i]) :: i in r
    decreases |raws|
  {
    if raws == [] then []
    else
      var init := KeptIndices(raws[..|raws| - 1]);
      if Kept(raws[|raws| - 1]) then init + [|raws| - 1] else init
  }

  /** Order preservation: the output is exactly the normalisation of the kept
      raw plans, taken in their input order. */
  lemma {:induction false} NormalisePlansIsOrderedImage(raws: seq<RawPlan>, country: Country)
    ensures |NormalisePlans(raws, country)| == |KeptIndices(raws)|
    ensures forall k | 0 <= k < |KeptIndices(raws)| ::
              Normalise(raws[KeptIndices(raws)[k]], country)
                == Some(NormalisePlans(raws, country)[k])
    decreases |raws|
  {
    if raws != [] {
      var init := raws[..|raws| - 1];
      NormalisePlansIsOrderedImage(init, country);
      forall k | 0 <= k < |KeptIndices(init)|
        ensures raws[KeptIndices(init)[k]] == init[KeptIndices(init)[k]]
      {
      }
    }
  }

  /** Normalisation distributes over concatenation of the raw plan lists. */
  lemma {:induction false} NormalisePlansAppend(a: seq<RawPlan>, b: seq<RawPlan>, country: Country)
    ensures NormalisePlans(a + b, country) == NormalisePlans(a, country) + NormalisePlans(b, country)
    decreases |b|
  {
    if b == [] {
      assert a + b == a;
    } else {
      var b' := b[..|b| - 1];
      assert (a + b)[..|a + b| - 1] == a + b';
      NormalisePlansAppend(a, b', country);
    }
  }

  /** A plan with any other period leaves no trace in the output. */
  lemma {:induction false} DroppedPlanVanishes(a: seq<RawPlan>, x: RawPlan, b: seq<RawPlan>, country: Country)
    requires !Kept(x)
    ensures NormalisePlans(a + [x] + b, country) == NormalisePlans(a + b, country)
  {
    NormalisePlansAppend(a + [x], b, country);
    NormalisePlansAppend(a, [x], country);
    NormalisePlansAppend(a, b, country);
    assert [x][..0] == [];
  }

  /** A list in which no plan has period 1 or 12 normalises to nothing. */
  lemma {:induction false} AllDroppedGivesNothing(raws: seq<RawPlan>, country: Country)
    requires forall i | 0 <= i < |raws| :: !Kept(raws[i])
    ensures NormalisePlans(raws, country) == []
    decreases |raws|
  {
    if raws != [] {
      AllDroppedGivesNothing(raws[..|raws| - 1], country);
    }
  }

  /** A plan is in the output exactly when it is the normalisation of some raw plan. */
  lemma {:induction false} NormalisePlansMembership(raws: seq<RawPlan>, country: Country, p: Plan)
    ensures p in NormalisePlans(raws, country)
            <==> exists i | 0 <= i < |raws| :: Normalise(raws[i], country) == Some(p)
    decreases |raws|
  {
    if raws != [] {
      var init := raws[..|raws| - 1];
      NormalisePlansMembership(init, country, p);
      if exists i | 0 <= i < |raws| :: Normalise(raws[i], country) == Some(p) {
        var i :| 0 <= i < |raws| && Normalise(raws[i], country) == Some(p);
        if i < |raws| - 1 {
          assert init[i] == raws[i];
        }
      }
      if exists i | 0 <= i < |init| :: Normalise(init[i], country) == Some(p) {
        var i :| 0 <= i < |init| && Normalise(init[i], country) == Some(p);
        assert raws[i] == init[i];
      }
    }
  }

  /** The source's loop: walk the raw plans in order and append each kept
      one's normalised record. */
  method NormaliseLoop(raws: seq<RawPlan>, country: Country) returns (out: seq<Plan>)
    ensures out == NormalisePlans(raws, country)
  {
    out := [];
    var i := 0;
    while i < |raws|
      invariant 0 <= i <= |raws|
      invariant out == NormalisePlans(raws[..i], country)
    {
      assert raws[..i + 1][..i] == raws[..i];
      var r := Normalise(raws[i], country);
      if r.Some? {
        out := out + [r.value];
      }
      i := i + 1;
    }
    assert raws[..|raws|] == raws;
  }
}
