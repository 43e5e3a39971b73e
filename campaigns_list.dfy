/** `src/components/CampaignsList.tsx`: the campaigns table, one row per
    campaign with a link to its detail page. */
module CampaignsList {
  import opened Outcomes
  import opened Api
  import opened Presentation

  /** One table row: its React key, the eight cells and the link target. */
  datatype Row = Row(
    key: string,
    name: Shown,
    status: Shown,
    budget: Shown,
    spent: Shown,
    impressions: Shown,
    clicks: Shown,
    conversions: Shown,
    ctr: Shown,
    link: string)

  const LinkPrefix := "/campaign/"

  /** `/campaign/${campaign.id}`. */
  function LinkTarget(id: string): (to: string)
    ensures |to| == |LinkPrefix| + |id|
    ensures to[..|LinkPrefix|] == LinkPrefix && to[|LinkPrefix|..] == id
  {
    LinkPrefix + id
  }

  /** Different campaigns link to different pages. */
  lemma LinkTargetInjective(a: string, b: string)
    requires LinkTarget(a) == LinkTarget(b)
    ensures a == b
  {
    assert a == LinkTarget(a)[|LinkPrefix|..];
  }

  /** The row of one campaign. Absent counts show 0 and an absent CTR shows
      "0.00". */
  function RowOf(c: Campaign): (row: Row)
    ensures row.key == c.id && row.link == LinkTarget(c.id)
    ensures row.status.Badge? && row.status.cls == BadgeColor(c.status) && row.status.caption == StatusLabel(c.status)
    ensures c.spend.None? ==> row.spent == Localized("$", 0)
    ensures c.impressions.None? ==> row.impressions == Localized("", 0)
    ensures c.clicks.None? ==> row.clicks == Localized("", 0)
    ensures c.conversions.None? ==> row.conversions == Localized("", 0)
    ensures c.ctr.None? ==> row.ctr == Text("0.00%")
    ensures row.name == Text(c.name) && row.budget == Localized("$", c.budget)
    ensures row.spent == Localized("$", SpentOf(c))
    ensures row.impressions == Localized("", ImpressionsOf(c)) && row.clicks == Localized("", ClicksOf(c))
    ensures row.conversions == Localized("", ConversionsOf(c))
    ensures row.ctr == RateOrZero("", c.ctr, "%")
  {
    Row(c.id, Text(c.name), StatusBadge(c.status), Localized("$", c.budget), Localized("$", SpentOf(c)),
        Localized("", ImpressionsOf(c)), Localized("", ClicksOf(c)), Localized("", ConversionsOf(c)),
        RateOrZero("", c.ctr, "%"), LinkTarget(c.id))
  }

  /** The component: nothing (`null`) for an empty list, otherwise one row
      per campaign in the list's order. */
  function Render(cs: seq<Campaign>): (r: Option<seq<Row>>)
    ensures r.None? <==> cs == []
    ensures r.Some? ==> |r.value| == |cs|
    ensures r.Some? ==> forall i :: 0 <= i < |cs| ==> r.value[i] == RowOf(cs[i])
  {
    if |cs| == 0 then None
    else Some(seq(|cs|, i requires 0 <= i < |cs| => RowOf(cs[i])))
  }

  /** Campaigns with distinct ids get rows with distinct keys and distinct
      links. */
  lemma DistinctIdsDistinctLinks(cs: seq<Campaign>)
    requires cs != []
    requires forall i, j :: 0 <= i < j < |cs| ==> cs[i].id != cs[j].id
    ensures forall i, j :: 0 <= i < j < |cs| ==> Render(cs).value[i].link != Render(cs).value[j].link
    ensures forall i, j :: 0 <= i < j < |cs| ==> Render(cs).value[i].key != Render(cs).value[j].key
  {
    var rows := Render(cs).value;
    forall i, j | 0 <= i < j < |cs| ensures rows[i].link != rows[j].link {
      if rows[i].link == rows[j].link {
        LinkTargetInjective(cs[i].id, cs[j].id);
      }
    }
  }

  /** A campaign whose insights request succeeded shows its snapshot's
      numbers in every metric cell of its row, never a default. */
  lemma EnrichedRowShowsInsights(cs: seq<Campaign>, responses: seq<Settled<Insights>>, i: nat)
    requires |responses| == |cs| && i < |cs| && responses[i].Resolved?
    ensures var row := RowOf(EnrichCampaignsWithInsights(cs, responses, false).value[i]);
            var ins := responses[i].value;
            && row.spent == Localized("$", ins.spend)
            && row.impressions == Localized("", ins.impressions)
            && row.clicks == Localized("", ins.clicks)
            && row.conversions == Localized("", ins.conversions)
            && row.ctr == Fixed("", ins.ctr, 2, "%")
    ensures RowOf(EnrichCampaignsWithInsights(cs, responses, false).value[i]).key == cs[i].id
  {
  }

  /** The link of row i leads to the detail page of campaign i: the id after
      the prefix is the campaign's own. */
  lemma RowLinksToItsCampaign(cs: seq<Campaign>, i: nat)
    requires i < |cs|
    ensures Render(cs).Some?
    ensures Render(cs).value[i].link[|LinkPrefix|..] == cs[i].id
  {
  }
}
