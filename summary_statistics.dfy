/** `src/components/SummaryStatistics.tsx`: the totals over the campaign
    list, the count of active campaigns, the two guarded ratios and the
    eight stat tiles. */
module SummaryStatistics {
  import opened Outcomes
  import opened Api
  import opened Presentation

  // ---------------------------------------------------------------------
  // Sums
  // ---------------------------------------------------------------------

  /** `xs.reduce((sum, x) => sum + f(x), 0)`: a left fold from 0. */
  function Total<T>(xs: seq<T>, f: T -> nat): nat {
    if xs == [] then 0 else Total(xs[..|xs| - 1], f) + f(xs[|xs| - 1])
  }

  lemma {:induction false} TotalAppend<T>(a: seq<T>, b: seq<T>, f: T -> nat)
    ensures Total(a + b, f) == Total(a, f) + Total(b, f)
  {
    if b == [] {
      assert a + b == a;
    } else {
      assert (a + b)[..|a + b| - 1] == a + b[..|b| - 1];
      TotalAppend(a, b[..|b| - 1], f);
    }
  }

  /** A total is no larger than a total of pointwise larger terms. */
  lemma {:induction false} TotalMonotone<T>(xs: seq<T>, f: T -> nat, g: T -> nat)
    requires forall i :: 0 <= i < |xs| ==> f(xs[i]) <= g(xs[i])
    ensures Total(xs, f) <= Total(xs, g)
  {
    if xs != [] {
      TotalMonotone(xs[..|xs| - 1], f, g);
    }
  }

  /** Two lists whose terms agree position by position have the same total. */
  lemma {:induction false} TotalPointwise<T, U>(xs: seq<T>, f: T -> nat, ys: seq<U>, g: U -> nat)
    requires |xs| == |ys|
    requires forall i :: 0 <= i < |xs| ==> f(xs[i]) == g(ys[i])
    ensures Total(xs, f) == Total(ys, g)
  {
    if xs != [] {
      TotalPointwise(xs[..|xs| - 1], f, ys[..|ys| - 1], g);
    }
  }

  // ---------------------------------------------------------------------
  // Active campaigns
  // ---------------------------------------------------------------------

  /** `campaigns.filter(c => c.status === 'active')`, in order. */
  function ActiveOnes(cs: seq<Campaign>): (r: seq<Campaign>)
    ensures |r| <= |cs|
    ensures forall c :: c in r ==> c in cs && c.status == "active"
    ensures forall c :: c in cs && c.status == "active" ==> c in r
  {
    if cs == [] then []
    else if cs[0].status == "active" then [cs[0]] + ActiveOnes(cs[1..])
    else ActiveOnes(cs[1..])
  }

  /** The filter keeps every active campaign as many times as the list holds
      it, and nothing else. */
  lemma {:induction false} ActiveOnesCounts(cs: seq<Campaign>)
    ensures forall c :: multiset(ActiveOnes(cs))[c] == if c.status == "active" then multiset(cs)[c] else 0
  {
    if cs != [] {
      ActiveOnesCounts(cs[1..]);
      assert cs == [cs[0]] + cs[1..];
    }
  }

  /** The filter works campaign by campaign: filtering two lists put
      together puts their filtered lists together, in order. */
  lemma {:induction false} ActiveOnesAppend(a: seq<Campaign>, b: seq<Campaign>)
    ensures ActiveOnes(a + b) == ActiveOnes(a) + ActiveOnes(b)
  {
    if a == [] {
      assert a + b == b;
    } else {
      assert (a + b)[0] == a[0] && (a + b)[1..] == a[1..] + b;
      ActiveOnesAppend(a[1..], b);
    }
  }

  /** `activeCampaigns`: how many campaigns have status "active". */
  function ActiveCampaigns(cs: seq<Campaign>): (n: nat)
    ensures n <= |cs|
    ensures n == |cs| <==> forall c :: c in cs ==> c.status == "active"
    ensures n == 0 <==> forall c :: c in cs ==> c.status != "active"
  {
    ActiveFullIff(cs);
    var active := ActiveOnes(cs);
    assert active != [] ==> active[0] in active;
    |active|
  }

  lemma {:induction false} ActiveFullIff(cs: seq<Campaign>)
    ensures |ActiveOnes(cs)| == |cs| <==> forall c :: c in cs ==> c.status == "active"
  {
    if cs != [] {
      ActiveFullIff(cs[1..]);
      assert forall c :: c in cs <==> c == cs[0] || c in cs[1..];
    }
  }

  // ---------------------------------------------------------------------
  // Ratios
  // ---------------------------------------------------------------------

  /** `averageCTR`: 0 when there are no impressions, otherwise clicks per
      hundred impressions. */
  function AverageCtr(clicks: nat, impressions: nat): (r: real)
    ensures impressions == 0 ==> r == 0.0
    ensures impressions > 0 ==> r * impressions as real == clicks as real * 100.0
    ensures clicks <= impressions ==> 0.0 <= r <= 100.0
  {
    if impressions > 0 then (clicks as real / impressions as real) * 100.0 else 0.0
  }

  /** `(spent / budget) * 100`, the spend ratio when the budget is positive. */
  function SpendPercentage(spent: nat, budget: nat): (r: real)
    requires budget > 0
    ensures r * budget as real == spent as real * 100.0
    ensures spent <= budget ==> 0.0 <= r <= 100.0
  {
    (spent as real / budget as real) * 100.0
  }

  /** The Spend Ratio tile's value: the literal "0%" when the total budget is
      not positive, otherwise the percentage with one decimal. */
  function SpendRatio(spent: nat, budget: nat): (v: Shown)
    ensures v == Text("0%") <==> budget == 0
    ensures budget > 0 ==> v == Fixed("", SpendPercentage(spent, budget), 1, "%")
  {
    if budget > 0 then Fixed("", SpendPercentage(spent, budget), 1, "%") else Text("0%")
  }

  // ---------------------------------------------------------------------
  // The summary and its tiles
  // ---------------------------------------------------------------------

  datatype Summary = Summary(
    totalBudget: nat,
    totalSpent: nat,
    totalImpressions: nat,
    totalClicks: nat,
    totalConversions: nat,
    averageCtr: real,
    activeCampaigns: nat)

  /** The values computed at the top of the component. */
  function Summarize(cs: seq<Campaign>): (s: Summary)
    ensures cs == [] ==> s == Summary(0, 0, 0, 0, 0, 0.0, 0)
    ensures s.activeCampaigns <= |cs|
    ensures s.totalImpressions == 0 ==> s.averageCtr == 0.0
    ensures s.totalImpressions > 0 ==> s.averageCtr * s.totalImpressions as real == s.totalClicks as real * 100.0
  {
    var totalImpressions := Total(cs, ImpressionsOf);
    var totalClicks := Total(cs, ClicksOf);
    Summary(Total(cs, BudgetOf), Total(cs, SpentOf), totalImpressions, totalClicks,
            Total(cs, ConversionsOf), AverageCtr(totalClicks, totalImpressions), ActiveCampaigns(cs))
  }

  /** Totals are additive: the summary of two lists put together sums the
      summaries of the parts, and so does the active count. */
  lemma SummarizeAppend(a: seq<Campaign>, b: seq<Campaign>)
    ensures Summarize(a + b).totalBudget == Summarize(a).totalBudget + Summarize(b).totalBudget
    ensures Summarize(a + b).totalSpent == Summarize(a).totalSpent + Summarize(b).totalSpent
    ensures Summarize(a + b).totalImpressions == Summarize(a).totalImpressions + Summarize(b).totalImpressions
    ensures Summarize(a + b).totalClicks == Summarize(a).totalClicks + Summarize(b).totalClicks
    ensures Summarize(a + b).totalConversions == Summarize(a).totalConversions + Summarize(b).totalConversions
    ensures Summarize(a + b).activeCampaigns == Summarize(a).activeCampaigns + Summarize(b).activeCampaigns
  {
    ActiveOnesAppend(a, b);
    TotalAppend(a, b, BudgetOf);
    TotalAppend(a, b, SpentOf);
    TotalAppend(a, b, ImpressionsOf);
    TotalAppend(a, b, ClicksOf);
    TotalAppend(a, b, ConversionsOf);
  }

  /** The summary of one campaign: its budget, and each metric it carries,
      an absent one counting as 0. With `SummarizeAppend` this fixes every
      total of every list and the active count of every list. */
  lemma SummarizeSingle(c: Campaign)
    ensures Summarize([c]).totalBudget == c.budget
    ensures Summarize([c]).totalSpent == (if c.spend.Some? then c.spend.value else 0)
    ensures Summarize([c]).totalImpressions == (if c.impressions.Some? then c.impressions.value else 0)
    ensures Summarize([c]).totalClicks == (if c.clicks.Some? then c.clicks.value else 0)
    ensures Summarize([c]).totalConversions == (if c.conversions.Some? then c.conversions.value else 0)
    ensures Summarize([c]).activeCampaigns == (if c.status == "active" then 1 else 0)
  {
    TotalSingle(c, BudgetOf);
    TotalSingle(c, SpentOf);
    TotalSingle(c, ImpressionsOf);
    TotalSingle(c, ClicksOf);
    TotalSingle(c, ConversionsOf);
    assert [c][1..] == [];
  }

  lemma TotalSingle<T>(x: T, f: T -> nat)
    ensures Total([x], f) == f(x)
  {
    assert [x][..0] == [];
  }

  /** When no campaign reports more clicks than impressions, the average CTR
      is a percentage between 0 and 100. */
  lemma AverageCtrIsPercentage(cs: seq<Campaign>)
    requires forall i :: 0 <= i < |cs| ==> ClicksOf(cs[i]) <= ImpressionsOf(cs[i])
    ensures 0.0 <= Summarize(cs).averageCtr <= 100.0
  {
    TotalMonotone(cs, ClicksOf, ImpressionsOf);
  }

  /** When no campaign has spent more than its budget, the spend ratio is at
      most 100%. */
  lemma SpendRatioAtMostHundred(cs: seq<Campaign>)
    requires forall i :: 0 <= i < |cs| ==> SpentOf(cs[i]) <= BudgetOf(cs[i])
    requires Summarize(cs).totalBudget > 0
    ensures SpendPercentage(Summarize(cs).totalSpent, Summarize(cs).totalBudget) <= 100.0
  {
    TotalMonotone(cs, SpentOf, BudgetOf);
  }

  /** Enrichment changes no budget and no status, so the total budget and the
      active count of the dashboard are those of the fetched list. */
  lemma EnrichKeepsBudgetAndActive(cs: seq<Campaign>, responses: seq<Settled<Insights>>, outerThrows: bool)
    requires |responses| == |cs|
    ensures Summarize(EnrichCampaignsWithInsights(cs, responses, outerThrows).value).totalBudget
            == Summarize(cs).totalBudget
    ensures Summarize(EnrichCampaignsWithInsights(cs, responses, outerThrows).value).activeCampaigns
            == Summarize(cs).activeCampaigns
  {
    var r := EnrichCampaignsWithInsights(cs, responses, outerThrows).value;
    assert forall i :: 0 <= i < |cs| ==> r[i].budget == Base(r[i]).budget && cs[i].budget == Base(cs[i]).budget;
    assert forall i :: 0 <= i < |cs| ==> r[i].status == Base(r[i]).status && cs[i].status == Base(cs[i]).status;
    TotalPointwise(r, BudgetOf, cs, BudgetOf);
    ActiveCountPointwise(r, cs);
  }

  lemma {:induction false} ActiveCountPointwise(xs: seq<Campaign>, ys: seq<Campaign>)
    requires |xs| == |ys|
    requires forall i :: 0 <= i < |xs| ==> xs[i].status == ys[i].status
    ensures |ActiveOnes(xs)| == |ActiveOnes(ys)|
  {
    if xs != [] {
      ActiveCountPointwise(xs[1..], ys[1..]);
    }
  }

  /** The spend of the insights snapshots. */
  function InsightsSpend(ins: Settled<Insights>): nat {
    match ins
    case Resolved(i) => i.spend
    case Rejected(_) => 0
  }

  /** When every insights request succeeds, the dashboard's total spent is
      the sum of the spends those snapshots report. */
  lemma EnrichedTotalSpent(cs: seq<Campaign>, responses: seq<Settled<Insights>>)
    requires |responses| == |cs|
    requires forall i :: 0 <= i < |cs| ==> responses[i].Resolved?
    ensures Summarize(EnrichCampaignsWithInsights(cs, responses, false).value).totalSpent
            == Total(responses, InsightsSpend)
  {
    var r := EnrichCampaignsWithInsights(cs, responses, false).value;
    assert forall i :: 0 <= i < |cs| ==> CarriesInsights(r[i], responses[i].value);
    TotalPointwise(r, SpentOf, responses, InsightsSpend);
  }

  const TileTitles: seq<string> := [
    "Active Campaigns", "Total Budget", "Total Spent", "Total Impressions",
    "Total Clicks", "Total Conversions", "Average CTR", "Spend Ratio"]

  /** `stats`: eight tiles in a fixed order. Amounts are shown in thousands. */
  function StatTiles(cs: seq<Campaign>): (tiles: seq<Labelled>)
    ensures |tiles| == 8
    ensures Titles(tiles) == TileTitles
    ensures tiles[0].value == Number(ActiveCampaigns(cs))
    ensures tiles[1].value == Fixed("$", Total(cs, BudgetOf) as real / 1000.0, 1, "k")
    ensures tiles[2].value == Fixed("$", Total(cs, SpentOf) as real / 1000.0, 1, "k")
    ensures tiles[3].value == Fixed("", Total(cs, ImpressionsOf) as real / 1000.0, 0, "k")
    ensures tiles[4].value == Localized("", Total(cs, ClicksOf))
    ensures tiles[5].value == Localized("", Total(cs, ConversionsOf))
    ensures tiles[6].value == Fixed("", AverageCtr(Total(cs, ClicksOf), Total(cs, ImpressionsOf)), 2, "%")
    ensures tiles[7].value == SpendRatio(Total(cs, SpentOf), Total(cs, BudgetOf))
    ensures tiles[7].value == Text("0%") <==> Summarize(cs).totalBudget == 0
  {
    var s := Summarize(cs);
    [ Labelled("Active Campaigns", Number(s.activeCampaigns)),
      Labelled("Total Budget", Fixed("$", s.totalBudget as real / 1000.0, 1, "k")),
      Labelled("Total Spent", Fixed("$", s.totalSpent as real / 1000.0, 1, "k")),
      Labelled("Total Impressions", Fixed("", s.totalImpressions as real / 1000.0, 0, "k")),
      Labelled("Total Clicks", Localized("", s.totalClicks)),
      Labelled("Total Conversions", Localized("", s.totalConversions)),
      Labelled("Average CTR", Fixed("", s.averageCtr, 2, "%")),
      Labelled("Spend Ratio", SpendRatio(s.totalSpent, s.totalBudget)) ]
  }
}
