/** `src/components/CampaignDetails.tsx`: the values the detail panel derives
    from one campaign: the details list, the metrics list and the budget
    breakdown with its progress bar. */
module CampaignDetails {
  import opened Outcomes
  import opened Api
  import opened Presentation

  /** `campaign.budget - spend`, with an absent spend counting as 0. It is
      negative when the campaign has overspent. */
  function RemainingBudget(c: Campaign): (r: int)
    ensures r + SpentOf(c) == c.budget
    ensures c.spend.None? ==> r == c.budget
    ensures r >= 0 <==> SpentOf(c) <= c.budget
  {
    c.budget - SpentOf(c)
  }

  /** The "Spend %" number: 0 when the budget is not positive, otherwise the
      spend as a percentage of the budget. */
  function SpendPercent(c: Campaign): (r: real)
    ensures c.budget == 0 ==> r == 0.0
    ensures c.budget > 0 ==> r * c.budget as real == SpentOf(c) as real * 100.0
    ensures 0.0 <= r
    ensures SpentOf(c) <= c.budget ==> r <= 100.0
    ensures c.budget > 0 && SpentOf(c) >= c.budget ==> r >= 100.0
  {
    if c.budget > 0 then
      RatioAtLeastOne(SpentOf(c) as real, c.budget as real);
      (SpentOf(c) as real / c.budget as real) * 100.0
    else 0.0
  }

  lemma RatioAtLeastOne(a: real, b: real)
    requires 0.0 < b
    ensures a >= b ==> a / b >= 1.0
  {
    if a >= b {
      assert a / b * b == a;
    }
  }

  /** `{budget > 0 ? percent.toFixed(1) : 0}%`. */
  function SpendPercentShown(c: Campaign): (v: Shown)
    ensures v == Text("0%") <==> c.budget == 0
    ensures c.budget > 0 ==> v == Fixed("", SpendPercent(c), 1, "%")
  {
    if c.budget > 0 then Fixed("", SpendPercent(c), 1, "%") else Text("0%")
  }

  function Min(a: real, b: real): real {
    if a <= b then a else b
  }

  /** The width of the progress bar, `Math.min((spend / budget) * 100, 100)`
      percent. With a zero budget JavaScript divides by zero: a positive
      spend gives Infinity, which the minimum caps at 100, and a zero spend
      gives NaN, which is not a width. */
  datatype Width = Percent(p: real) | NaNWidth

  function ProgressWidth(c: Campaign): (w: Width)
    ensures w.NaNWidth? <==> c.budget == 0 && SpentOf(c) == 0
    ensures w.Percent? ==> 0.0 <= w.p <= 100.0
    ensures c.budget > 0 ==> w == Percent(Min(SpendPercent(c), 100.0))
    ensures SpentOf(c) >= c.budget && SpentOf(c) > 0 ==> w == Percent(100.0)
    ensures SpentOf(c) < c.budget ==> w.Percent? && w.p * c.budget as real == SpentOf(c) as real * 100.0
  {
    if c.budget > 0 then Percent(Min(SpendPercent(c), 100.0))
    else if SpentOf(c) > 0 then Percent(100.0)
    else NaNWidth
  }

  /** The budget breakdown card. */
  datatype Breakdown = Breakdown(total: Shown, width: Width, amountSpent: Shown, remaining: Shown, spendPercent: Shown)

  function BudgetBreakdown(c: Campaign): (b: Breakdown)
    ensures b.total == Localized("$", c.budget)
    ensures b.amountSpent == Localized("$", SpentOf(c)) && b.remaining == Localized("$", RemainingBudget(c))
    ensures b.width == ProgressWidth(c) && b.spendPercent == SpendPercentShown(c)
    ensures b.width.Percent? ==> b.width.p <= 100.0
    ensures b.spendPercent == Text("0%") <==> c.budget == 0
  {
    Breakdown(Localized("$", c.budget), ProgressWidth(c), Localized("$", SpentOf(c)),
              Localized("$", RemainingBudget(c)), SpendPercentShown(c))
  }

  const DetailTitles: seq<string> := [
    "Campaign Name", "Status", "Brand ID", "Budget", "Daily Budget",
    "Spent", "Remaining Budget", "Platforms", "Created At"]

  /** `details`: nine entries in a fixed order. */
  function Details(c: Campaign): (es: seq<Labelled>)
    ensures |es| == 9 && Titles(es) == DetailTitles
    ensures es[0].value == Text(c.name) && es[2].value == Text(c.brandId)
    ensures es[3].value == Localized("$", c.budget) && es[4].value == Localized("$", c.dailyBudget)
    ensures es[8].value == LongDate(c.createdAt)
    ensures es[1].value == StatusBadge(c.status)
    ensures es[5].value == Localized("$", SpentOf(c))
    ensures es[6].value == Localized("$", RemainingBudget(c))
    ensures es[7].value == Text(PlatformsText(c.platforms))
  {
    [ Labelled("Campaign Name", Text(c.name)),
      Labelled("Status", StatusBadge(c.status)),
      Labelled("Brand ID", Text(c.brandId)),
      Labelled("Budget", Localized("$", c.budget)),
      Labelled("Daily Budget", Localized("$", c.dailyBudget)),
      Labelled("Spent", Localized("$", SpentOf(c))),
      Labelled("Remaining Budget", Localized("$", RemainingBudget(c))),
      Labelled("Platforms", Text(PlatformsText(c.platforms))),
      Labelled("Created At", LongDate(c.createdAt)) ]
  }

  const MetricTitles: seq<string> := ["Impressions", "Clicks", "Conversions", "CTR", "CPC", "Conversion Rate"]

  /** `metrics`: six entries in a fixed order. Absent counts show 0, absent
      rates show "0.00". */
  function Metrics(c: Campaign): (es: seq<Labelled>)
    ensures |es| == 6 && Titles(es) == MetricTitles
    ensures c.impressions.None? ==> es[0].value == Localized("", 0)
    ensures c.clicks.None? ==> es[1].value == Localized("", 0)
    ensures c.conversions.None? ==> es[2].value == Localized("", 0)
    ensures c.ctr.None? ==> es[3].value == Text("0.00%")
    ensures c.cpc.None? ==> es[4].value == Text("$0.00")
    ensures c.conversionRate.None? ==> es[5].value == Text("0.00%")
  {
    [ Labelled("Impressions", Localized("", ImpressionsOf(c))),
      Labelled("Clicks", Localized("", ClicksOf(c))),
      Labelled("Conversions", Localized("", ConversionsOf(c))),
      Labelled("CTR", RateOrZero("", c.ctr, "%")),
      Labelled("CPC", RateOrZero("$", c.cpc, "")),
      Labelled("Conversion Rate", RateOrZero("", c.conversionRate, "%")) ]
  }

  /** A campaign returned by the lookup by id shows the snapshot's own
      numbers in every metric, never a default. */
  lemma LookedUpCampaignShowsInsights(id: string, list: Settled<seq<Campaign>>, insights: Settled<Insights>,
                                      listSettlesFirst: bool)
    requires GetCampaignById(id, list, insights, listSettlesFirst).Resolved?
    ensures var c := GetCampaignById(id, list, insights, listSettlesFirst).value;
            var ins := insights.value;
            Metrics(c) == [
              Labelled("Impressions", Localized("", ins.impressions)),
              Labelled("Clicks", Localized("", ins.clicks)),
              Labelled("Conversions", Localized("", ins.conversions)),
              Labelled("CTR", Fixed("", ins.ctr, 2, "%")),
              Labelled("CPC", Fixed("$", ins.cpc, 2, "")),
              Labelled("Conversion Rate", Fixed("", ins.conversionRate, 2, "%"))]
    ensures var c := GetCampaignById(id, list, insights, listSettlesFirst).value;
            Details(c)[5].value == Localized("$", insights.value.spend)
  {
  }
}
