/** The campaign data service of `src/services/api.ts`: the records, the
    campaign/insights join, the lookup by id, the best-effort batch
    enrichment and the retry policy of the shared HTTP client.

    Every request is an input: the model receives how each awaited request
    settled (`Settled<T>`) instead of issuing it. */
module Api {
  import opened Outcomes

  /** A campaign as the list endpoint returns it. The seven performance
      fields are absent until insights are merged in. Money and counts are
      non-negative whole numbers; the rates are only copied, so they are
      reals. `status` is a string because the helpers that read it accept
      any string. */
  datatype Campaign = Campaign(
    id: string,
    name: string,
    brandId: string,
    status: string,
    budget: nat,
    dailyBudget: nat,
    platforms: seq<string>,
    createdAt: string,
    impressions: Option<nat>,
    clicks: Option<nat>,
    conversions: Option<nat>,
    spend: Option<nat>,
    ctr: Option<real>,
    cpc: Option<real>,
    conversionRate: Option<real>)

  /** The performance snapshot of one campaign; every metric is present. */
  datatype Insights = Insights(
    campaignId: string,
    timestamp: string,
    impressions: nat,
    clicks: nat,
    conversions: nat,
    spend: nat,
    ctr: real,
    cpc: real,
    conversionRate: real)

  /** The snapshot over all campaigns returned by the aggregate endpoint. */
  datatype AggregateInsights = AggregateInsights(
    timestamp: string,
    totalCampaigns: nat,
    activeCampaigns: nat,
    pausedCampaigns: nat,
    completedCampaigns: nat,
    totalImpressions: nat,
    totalClicks: nat,
    totalConversions: nat,
    totalSpend: nat,
    avgCtr: real,
    avgCpc: real,
    avgConversionRate: real)

  const CampaignsPath := "/campaigns"
  const AggregateInsightsPath := "/campaigns/insights"

  /** The path of one campaign's insights request. */
  function InsightsPath(id: string): (p: string)
    ensures |p| == |id| + 20
    ensures p[..11] == "/campaigns/" && p[11..11 + |id|] == id && p[11 + |id|..] == "/insights"
  {
    "/campaigns/" + id + "/insights"
  }

  /** The fields as the components read them: the budget, and each metric
      with an absent value counting as 0 (`c.spend || 0`). */
  function BudgetOf(c: Campaign): nat { c.budget }
  function SpentOf(c: Campaign): nat { c.spend.GetOr(0) }
  function ImpressionsOf(c: Campaign): nat { c.impressions.GetOr(0) }
  function ClicksOf(c: Campaign): nat { c.clicks.GetOr(0) }
  function ConversionsOf(c: Campaign): nat { c.conversions.GetOr(0) }

  // ---------------------------------------------------------------------
  // The join
  // ---------------------------------------------------------------------

  /** The base record: a campaign with its performance fields absent. */
  function Base(c: Campaign): Campaign {
    c.(impressions := None, clicks := None, conversions := None, spend := None,
       ctr := None, cpc := None, conversionRate := None)
  }

  /** A campaign whose seven performance fields hold exactly the metrics of `ins`. */
  predicate CarriesInsights(c: Campaign, ins: Insights) {
    && c.impressions == Some(ins.impressions)
    && c.clicks == Some(ins.clicks)
    && c.conversions == Some(ins.conversions)
    && c.spend == Some(ins.spend)
    && c.ctr == Some(ins.ctr)
    && c.cpc == Some(ins.cpc)
    && c.conversionRate == Some(ins.conversionRate)
  }

  /** `{ ...campaign, impressions: insights.impressions, ... }`: the object
      spread keeps the base fields and overwrites the performance fields. */
  function Merge(c: Campaign, ins: Insights): (r: Campaign)
    ensures Base(r) == Base(c)
    ensures CarriesInsights(r, ins)
  {
    c.(impressions := Some(ins.impressions), clicks := Some(ins.clicks),
       conversions := Some(ins.conversions), spend := Some(ins.spend),
       ctr := Some(ins.ctr), cpc := Some(ins.cpc), conversionRate := Some(ins.conversionRate))
  }

  /** A campaign is determined by its base record and its performance fields,
      so the two contracts of `Merge` fix its result. */
  lemma MergeDetermined(c: Campaign, ins: Insights, d: Campaign)
    requires Base(d) == Base(c) && CarriesInsights(d, ins)
    ensures d == Merge(c, ins)
  {
    assert d.id == Base(d).id && d.name == Base(d).name && d.brandId == Base(d).brandId;
    assert d.status == Base(d).status && d.budget == Base(d).budget && d.dailyBudget == Base(d).dailyBudget;
    assert d.platforms == Base(d).platforms && d.createdAt == Base(d).createdAt;
  }

  /** Enrichment is idempotent: merging the same insights again changes nothing. */
  lemma MergeIdempotent(c: Campaign, ins: Insights)
    ensures Merge(Merge(c, ins), ins) == Merge(c, ins)
  {
    MergeDetermined(c, ins, Merge(Merge(c, ins), ins));
  }

  /** The latest insights win: merging twice is merging the second snapshot. */
  lemma MergeLastWins(c: Campaign, first: Insights, second: Insights)
    ensures Merge(Merge(c, first), second) == Merge(c, second)
  {
    MergeDetermined(c, second, Merge(Merge(c, first), second));
  }

  // ---------------------------------------------------------------------
  // Requests wrapped by the service functions
  // ---------------------------------------------------------------------

  /** `getCampaigns`: the list, or a failure re-thrown with the prefix
      "Failed to fetch campaigns: ". */
  function GetCampaigns(response: Settled<seq<Campaign>>): Settled<seq<Campaign>> {
    Rethrow("Failed to fetch campaigns: ", response)
  }

  /** `getCampaignInsights(id)`: one campaign's insights, or a failure
      re-thrown with the prefix "Failed to fetch campaign insights: ". The
      id only selects the request path. */
  function GetCampaignInsights(id: string, response: Settled<Insights>): Settled<Insights> {
    Rethrow("Failed to fetch campaign insights: ", response)
  }

  /** `getAggregateInsights`: the aggregate snapshot, or a failure re-thrown
      with the prefix "Failed to fetch insights: ". */
  function GetAggregateInsights(response: Settled<AggregateInsights>): Settled<AggregateInsights> {
    Rethrow("Failed to fetch insights: ", response)
  }

  /** Each service function leaves a successful response alone and re-throws
      a failure as an `Error` whose message names the operation and keeps
      the underlying message after it. */
  lemma ServiceFailuresNamed(campaigns: Settled<seq<Campaign>>, id: string, insights: Settled<Insights>,
                             aggregate: Settled<AggregateInsights>)
    ensures campaigns.Rejected? ==>
              GetCampaigns(campaigns) == Rejected(ErrorInstance("Failed to fetch campaigns: " + MessageOf(campaigns.reason)))
    ensures insights.Rejected? ==>
              GetCampaignInsights(id, insights)
              == Rejected(ErrorInstance("Failed to fetch campaign insights: " + MessageOf(insights.reason)))
    ensures aggregate.Rejected? ==>
              GetAggregateInsights(aggregate) == Rejected(ErrorInstance("Failed to fetch insights: " + MessageOf(aggregate.reason)))
    ensures campaigns.Resolved? ==> GetCampaigns(campaigns) == campaigns
    ensures insights.Resolved? ==> GetCampaignInsights(id, insights) == insights
    ensures aggregate.Resolved? ==> GetAggregateInsights(aggregate) == aggregate
  {
  }

  // ---------------------------------------------------------------------
  // Lookup by id
  // ---------------------------------------------------------------------

  /** `campaigns.find(c => c.id === id)`: the first campaign with that id. */
  function Find(cs: seq<Campaign>, id: string): (r: Option<Campaign>)
    ensures r.Some? <==> exists i :: 0 <= i < |cs| && cs[i].id == id
    ensures r.Some? ==> r.value.id == id
    ensures r.Some? ==> exists i :: 0 <= i < |cs| && cs[i] == r.value && forall j :: 0 <= j < i ==> cs[j].id != id
  {
    if cs == [] then None
    else if cs[0].id == id then Some(cs[0])
    else
      var r := Find(cs[1..], id);
      assert forall i :: 0 <= i < |cs[1..]| ==> cs[1..][i] == cs[i + 1];
      assert r.Some? ==> exists i :: 1 <= i < |cs| && cs[i] == r.value && forall j :: 0 <= j < i ==> cs[j].id != id;
      r
  }

  const NotFoundMessage := "Campaign not found"
  const CampaignPrefix := "Failed to fetch campaign: "

  /** `getCampaignById(id)`. Both requests are awaited together; when either
      fails the whole call fails. A list without that id throws "Campaign
      not found", which the surrounding catch re-throws with the prefix, so
      the caller sees "Failed to fetch campaign: Campaign not found". */
  function GetCampaignById(id: string, listResponse: Settled<seq<Campaign>>, insightsResponse: Settled<Insights>,
                           listSettlesFirst: bool): (r: Settled<Campaign>)
    ensures r.Resolved? <==> listResponse.Resolved? && insightsResponse.Resolved?
                             && exists i :: 0 <= i < |listResponse.value| && listResponse.value[i].id == id
    ensures r.Resolved? ==> r.value.id == id
    ensures r.Resolved? ==>
              && Base(r.value) == Base(Find(listResponse.value, id).value)
              && CarriesInsights(r.value, insightsResponse.value)
    ensures listResponse.Resolved? && insightsResponse.Resolved?
            && (forall c :: c in listResponse.value ==> c.id != id)
            ==> r == Rejected(ErrorInstance(CampaignPrefix + NotFoundMessage))
    ensures r.Rejected? ==>
              && r.reason.ErrorInstance?
              && |r.reason.message| >= |CampaignPrefix|
              && r.reason.message[..|CampaignPrefix|] == CampaignPrefix
    ensures listResponse.Rejected? && insightsResponse.Resolved? ==>
              r == Rejected(ErrorInstance(CampaignPrefix + MessageOf(listResponse.reason)))
    ensures listResponse.Resolved? && insightsResponse.Rejected? ==>
              r == Rejected(ErrorInstance(CampaignPrefix + MessageOf(insightsResponse.reason)))
    ensures listResponse.Rejected? && insightsResponse.Rejected? ==>
              r == Rejected(ErrorInstance(CampaignPrefix + MessageOf(
                     if listSettlesFirst then listResponse.reason else insightsResponse.reason)))
  {
    var outcome :=
      match All2(listResponse, insightsResponse, listSettlesFirst)
      case Rejected(t) => Rejected(t)
      case Resolved((cs, ins)) =>
        match Find(cs, id)
        case None => Rejected(ErrorInstance(NotFoundMessage))
        case Some(c) => Resolved(Merge(c, ins));
    Rethrow(CampaignPrefix, outcome)
  }

  // ---------------------------------------------------------------------
  // Batch enrichment
  // ---------------------------------------------------------------------

  /** The per-campaign step of the enrichment: merge the insights when their
      request succeeds; on any failure return the campaign as it was. */
  function EnrichOne(c: Campaign, response: Settled<Insights>): (r: Campaign)
    ensures response.Rejected? ==> r == c
    ensures response.Resolved? ==> r == Merge(c, response.value)
  {
    match GetCampaignInsights(c.id, response)
    case Resolved(ins) => Merge(c, ins)
    case Rejected(_) => c
  }

  /** `enrichCampaignsWithInsights(campaigns)`. `responses[i]` is how the
      insights request for `campaigns[i]` settled; `outerThrows` stands for a
      failure of the outer step itself, after which the original list is
      returned. The call always resolves. */
  function EnrichCampaignsWithInsights(cs: seq<Campaign>, responses: seq<Settled<Insights>>, outerThrows: bool)
    : (r: Settled<seq<Campaign>>)
    requires |responses| == |cs|
    ensures r.Resolved?
    ensures |r.value| == |cs|
    ensures outerThrows ==> r.value == cs
    ensures forall i :: 0 <= i < |cs| ==> r.value[i].id == cs[i].id && Base(r.value[i]) == Base(cs[i])
    ensures forall i :: 0 <= i < |cs| && responses[i].Rejected? ==> r.value[i] == cs[i]
    ensures !outerThrows ==>
              forall i :: 0 <= i < |cs| && responses[i].Resolved? ==> CarriesInsights(r.value[i], responses[i].value)
  {
    if outerThrows then Resolved(cs)
    else Resolved(seq(|cs|, i requires 0 <= i < |cs| => EnrichOne(cs[i], responses[i])))
  }

  /** The ids of a list, in order. */
  function Ids(cs: seq<Campaign>): (ids: seq<string>)
    ensures |ids| == |cs|
  {
    if cs == [] then [] else [cs[0].id] + Ids(cs[1..])
  }

  /** Enrichment keeps the ids and their order. */
  lemma {:induction false} IdsOfSameIds(cs: seq<Campaign>, ds: seq<Campaign>)
    requires |cs| == |ds|
    requires forall i :: 0 <= i < |cs| ==> ds[i].id == cs[i].id
    ensures Ids(ds) == Ids(cs)
  {
    if cs != [] {
      IdsOfSameIds(cs[1..], ds[1..]);
    }
  }

  lemma EnrichPreservesIds(cs: seq<Campaign>, responses: seq<Settled<Insights>>, outerThrows: bool)
    requires |responses| == |cs|
    ensures Ids(EnrichCampaignsWithInsights(cs, responses, outerThrows).value) == Ids(cs)
  {
    IdsOfSameIds(cs, EnrichCampaignsWithInsights(cs, responses, outerThrows).value);
  }

  /** Isolation: the entry for campaign i depends only on campaign i and its
      own response, whatever happened to the others. */
  lemma EnrichIsolated(cs: seq<Campaign>, responses: seq<Settled<Insights>>, other: seq<Settled<Insights>>, i: nat)
    requires |responses| == |cs| && |other| == |cs|
    requires i < |cs| && other[i] == responses[i]
    ensures EnrichCampaignsWithInsights(cs, responses, false).value[i]
            == EnrichCampaignsWithInsights(cs, other, false).value[i]
  {
  }

  /** When every request succeeds, every entry is enriched. */
  lemma EnrichAllSucceeded(cs: seq<Campaign>, responses: seq<Settled<Insights>>)
    requires |responses| == |cs|
    requires forall i :: 0 <= i < |cs| ==> responses[i].Resolved?
    ensures forall c :: c in EnrichCampaignsWithInsights(cs, responses, false).value ==> IsEnriched(c)
  {
    var r := EnrichCampaignsWithInsights(cs, responses, false).value;
    forall c | c in r ensures IsEnriched(c) {
      var i :| 0 <= i < |r| && r[i] == c;
      assert CarriesInsights(r[i], responses[i].value);
    }
  }

  /** All seven performance fields are present. */
  predicate IsEnriched(c: Campaign) {
    c.impressions.Some? && c.clicks.Some? && c.conversions.Some? && c.spend.Some?
    && c.ctr.Some? && c.cpc.Some? && c.conversionRate.Some?
  }

  // ---------------------------------------------------------------------
  // Retry policy of the shared client
  // ---------------------------------------------------------------------

  /** The client retries a failed request at most this many times. */
  const Retries: nat := 3

  /** `retryCondition`: retry on a network or idempotent-request error (an
      opaque flag here) or on an HTTP 429 response. */
  function RetryCondition(networkOrIdempotent: bool, status: Option<int>): (retry: bool)
    ensures status == Some(429) ==> retry
    ensures !networkOrIdempotent ==> (retry <==> status == Some(429))
    ensures networkOrIdempotent ==> retry
  {
    networkOrIdempotent || (status.Some? && status.value == 429)
  }

  /** How one attempt of a request ended. */
  datatype Attempt<T> =
    | Succeeded(data: T)
    | Failed(networkOrIdempotent: bool, status: Option<int>, reason: Thrown)

  predicate Retryable<T>(a: Attempt<T>) {
    a.Failed? && RetryCondition(a.networkOrIdempotent, a.status)
  }

  function SettleAttempt<T>(a: Attempt<T>): Settled<T> {
    match a
    case Succeeded(d) => Resolved(d)
    case Failed(_, _, t) => Rejected(t)
  }

  /** A request under the retry policy. `attempts[k]` is how attempt k would
      end; the result is the outcome of the last attempt made and the number
      of attempts made. A failure is retried while the condition holds and
      retries remain. */
  function SendWithRetries<T>(attempts: seq<Attempt<T>>, retriesLeft: nat): (r: (Settled<T>, nat))
    requires retriesLeft < |attempts|
    ensures 1 <= r.1 <= retriesLeft + 1
    ensures r.0 == SettleAttempt(attempts[r.1 - 1])
    ensures forall k :: 0 <= k < r.1 - 1 ==> Retryable(attempts[k])
    ensures r.1 - 1 < retriesLeft ==> !Retryable(attempts[r.1 - 1])
    decreases retriesLeft
  {
    if retriesLeft > 0 && Retryable(attempts[0]) then
      var (outcome, n) := SendWithRetries(attempts[1..], retriesLeft - 1);
      (outcome, n + 1)
    else
      (SettleAttempt(attempts[0]), 1)
  }

  /** A failure that is neither a network/idempotent error nor a 429 (a 404,
      say) is reported after the first attempt. */
  lemma NonRetryableFailsAtOnce<T>(attempts: seq<Attempt<T>>)
    requires Retries < |attempts|
    requires attempts[0].Failed? && !attempts[0].networkOrIdempotent && attempts[0].status != Some(429)
    ensures SendWithRetries(attempts, Retries) == (Rejected(attempts[0].reason), 1)
  {
  }

  /** A request rate-limited on every attempt is tried once and retried
      three times before it fails. */
  lemma RateLimitedExhaustsRetries<T>(attempts: seq<Attempt<T>>)
    requires Retries < |attempts|
    requires forall k :: 0 <= k < |attempts| ==> attempts[k].Failed? && attempts[k].status == Some(429)
    ensures SendWithRetries(attempts, Retries).1 == Retries + 1
    ensures SendWithRetries(attempts, Retries).0.Rejected?
  {
  }
}
