/** `src/pages/DashboardPage.tsx`: the dashboard's fetch state machine and
    the choice of what it renders.

    The page imports its `Error` component under the name `Error`, which
    hides JavaScript's global `Error` in that file. The catch block's
    `err instanceof Error` therefore asks whether the thrown value is an
    instance of the component; no thrown value is, so the stored message is
    always the fallback "Failed to fetch campaigns", never the service's
    own message. */
module DashboardPage {
  import opened Outcomes
  import opened Api
  import opened Hooks
  import CampaignsList
  import SummaryStatistics

  /** The page's three state variables. */
  datatype DashboardState = DashboardState(loading: bool, error: Option<string>, campaigns: seq<Campaign>)

  /** `useState([])`, `useState(true)`, `useState(null)`. */
  const Initial := DashboardState(true, None, [])

  const FetchFailed := "Failed to fetch campaigns"

  /** How the requests of one fetch settle: the list request, the insights
      request of each listed campaign, and whether the outer step of the
      enrichment fails. */
  datatype Responses = Responses(list: Settled<seq<Campaign>>, insights: seq<Settled<Insights>>, enrichmentThrows: bool)

  /** There is one insights outcome per listed campaign. */
  predicate WellFormed(r: Responses) {
    r.list.Resolved? ==> |r.insights| == |r.list.value|
  }

  /** The state after `fetchCampaigns` has run to the end of its `finally`. */
  function AfterFetch(s: DashboardState, r: Responses): (t: DashboardState)
    requires WellFormed(r)
    ensures !t.loading
    ensures r.list.Resolved? ==> t.error == None
    ensures r.list.Resolved? ==> |t.campaigns| == |r.list.value| && Ids(t.campaigns) == Ids(r.list.value)
    ensures r.list.Resolved? ==> t.campaigns == EnrichCampaignsWithInsights(r.list.value, r.insights, r.enrichmentThrows).value
    ensures r.list.Rejected? ==> t.error == Some(FetchFailed) && t.campaigns == s.campaigns
  {
    match GetCampaigns(r.list)
    case Resolved(cs) =>
      var enriched := EnrichCampaignsWithInsights(cs, r.insights, r.enrichmentThrows).value;
      EnrichPreservesIds(cs, r.insights, r.enrichmentThrows);
      DashboardState(false, None, enriched)
    case Rejected(_) => DashboardState(false, Some(FetchFailed), s.campaigns)
  }

  /** The insights requests the enrichment issues: one per campaign, in list
      order, unless its outer step fails first. */
  function InsightRequests(cs: seq<Campaign>, enrichmentThrows: bool): (es: seq<Effect>)
    ensures enrichmentThrows ==> es == []
    ensures !enrichmentThrows ==> |es| == |cs| && forall i :: 0 <= i < |cs| ==> es[i] == Get(InsightsPath(cs[i].id))
  {
    if enrichmentThrows then [] else seq(|cs|, i requires 0 <= i < |cs| => Get(InsightsPath(cs[i].id)))
  }

  /** The steps `fetchCampaigns` takes before it awaits the list. */
  const Prologue := [SetLoading(true), SetError(None), Get(CampaignsPath)]

  /** The steps between the list response and the `finally` block. */
  function OutcomeEffects(r: Responses): seq<Effect>
    requires WellFormed(r)
  {
    match GetCampaigns(r.list)
    case Resolved(cs) =>
      InsightRequests(cs, r.enrichmentThrows)
      + [SetCampaigns(EnrichCampaignsWithInsights(cs, r.insights, r.enrichmentThrows).value)]
    case Rejected(_) => [SetError(Some(FetchFailed))]
  }

  /** The steps of `fetchCampaigns`, in order. */
  function FetchEffects(r: Responses): (es: seq<Effect>)
    requires WellFormed(r)
    ensures |es| >= 5
    ensures es[0] == SetLoading(true) && es[1] == SetError(None) && es[2] == Get(CampaignsPath)
    ensures es[|es| - 1] == SetLoading(false)
  {
    Prologue + OutcomeEffects(r) + [SetLoading(false)]
  }

  /** Loading is switched on and the error cleared before the first request;
      a failed list request issues no insights request. */
  lemma FetchRequestsInOrder(r: Responses)
    requires WellFormed(r)
    ensures Requests(FetchEffects(r)[..2]) == []
    ensures r.list.Rejected? || r.enrichmentThrows ==> Requests(FetchEffects(r)) == [CampaignsPath]
    ensures r.list.Resolved? && !r.enrichmentThrows ==>
              |Requests(FetchEffects(r))| == 1 + |r.list.value|
  {
    var es := FetchEffects(r);
    assert es[..2] == [SetLoading(true)] + [SetError(None)];
    RequestsAppend([SetLoading(true)], [SetError(None)]);
    PrologueRequests();
    var tail := [SetLoading(false)];
    RequestsOne(SetLoading(false));
    RequestsAppend(Prologue + OutcomeEffects(r), tail);
    RequestsAppend(Prologue, OutcomeEffects(r));
    match GetCampaigns(r.list)
    case Resolved(cs) =>
      var inner := InsightRequests(cs, r.enrichmentThrows);
      var setter := SetCampaigns(EnrichCampaignsWithInsights(cs, r.insights, r.enrichmentThrows).value);
      RequestsOne(setter);
      RequestsAppend(inner, [setter]);
      AllRequests(inner);
    case Rejected(_) =>
      RequestsOne(SetError(Some(FetchFailed)));
  }

  /** The prologue issues the list request and nothing else. */
  lemma PrologueRequests()
    ensures Requests(Prologue) == [CampaignsPath]
  {
    RequestsOne(SetLoading(true));
    RequestsOne(SetError(None));
    RequestsOne(Get(CampaignsPath));
    RequestsAppend([SetLoading(true)], [SetError(None)]);
    RequestsAppend([SetLoading(true)] + [SetError(None)], [Get(CampaignsPath)]);
    assert Prologue == [SetLoading(true)] + [SetError(None)] + [Get(CampaignsPath)];
  }

  /** A log made only of requests has one path per entry. */
  lemma {:induction false} AllRequests(es: seq<Effect>)
    requires forall i :: 0 <= i < |es| ==> es[i].Get?
    ensures |Requests(es)| == |es|
  {
    if es != [] {
      AllRequests(es[1..]);
    }
  }

  // ---------------------------------------------------------------------
  // What the page renders
  // ---------------------------------------------------------------------

  datatype View =
    | LoadingView(message: string)
    | ErrorView(title: string, message: string, canRetry: bool)
    | EmptyView(title: string, message: string, actionLabel: string)
    | Overview(campaigns: seq<Campaign>)  // SummaryStatistics and CampaignsList over these campaigns

  /** The early returns of the component, in their order: loading, then
      error (with a retry button that runs the same fetch), then the empty
      list, then the summary and the table. */
  function SelectView(s: DashboardState): (v: View)
    ensures v.LoadingView? <==> s.loading
    ensures v.ErrorView? <==> !s.loading && Truthy(s.error)
    ensures v.ErrorView? ==> v.canRetry && v.message == s.error.value
    ensures v.EmptyView? <==> !s.loading && !Truthy(s.error) && s.campaigns == []
    ensures v.Overview? ==> v.campaigns == s.campaigns && s.campaigns != []
  {
    if s.loading then LoadingView("Loading your campaigns...")
    else if Truthy(s.error) then ErrorView("Failed to Load Campaigns", s.error.value, true)
    else if |s.campaigns| == 0 then
      EmptyView("No Campaigns", "You don't have any campaigns yet. Start by creating your first campaign!",
                "Create Campaign")
    else Overview(s.campaigns)
  }

  /** The first render shows the loading view. */
  lemma InitialViewIsLoading()
    ensures SelectView(Initial) == LoadingView("Loading your campaigns...")
  {
  }

  /** A failed list request shows the error view with a retry button and the
      fallback message, whatever the request's own error said. */
  lemma FailedFetchShowsError(s: DashboardState, r: Responses)
    requires WellFormed(r) && r.list.Rejected?
    ensures SelectView(AfterFetch(s, r)) == ErrorView("Failed to Load Campaigns", FetchFailed, true)
    ensures GetCampaigns(r.list).reason.message != FetchFailed
  {
    var m := GetCampaigns(r.list).reason.message;
    assert m[..|"Failed to fetch campaigns: "|] == "Failed to fetch campaigns: ";
    assert |m| >= |"Failed to fetch campaigns: "|;
  }

  /** After a successful list request the page shows the empty state exactly
      when the list is empty, and otherwise the summary and table of the
      enriched list, in the list's order. */
  lemma SucceededFetchShowsList(s: DashboardState, r: Responses)
    requires WellFormed(r) && r.list.Resolved?
    ensures SelectView(AfterFetch(s, r)).EmptyView? <==> r.list.value == []
    ensures r.list.value != [] ==>
              && SelectView(AfterFetch(s, r)).Overview?
              && Ids(SelectView(AfterFetch(s, r)).campaigns) == Ids(r.list.value)
  {
  }

  /** The retry button re-runs the fetch: a retry that succeeds leaves no
      trace of the failure before it, and a retry that fails again lands in
      the same state. */
  lemma RetryRerunsFetch(s: DashboardState, failed: Responses, retry: Responses)
    requires WellFormed(failed) && WellFormed(retry) && failed.list.Rejected?
    ensures retry.list.Resolved? ==> AfterFetch(AfterFetch(s, failed), retry) == AfterFetch(s, retry)
    ensures retry.list.Rejected? ==> AfterFetch(AfterFetch(s, failed), retry) == AfterFetch(s, failed)
  {
  }

  /** In the overview the table always has rows (its empty guard is never
      taken) and the summary counts at most as many active campaigns as
      there are rows. */
  lemma OverviewRendersRows(s: DashboardState)
    requires SelectView(s).Overview?
    ensures CampaignsList.Render(s.campaigns).Some?
    ensures |CampaignsList.Render(s.campaigns).value| == |s.campaigns|
    ensures SummaryStatistics.Summarize(s.campaigns).activeCampaigns <= |CampaignsList.Render(s.campaigns).value|
  {
  }

  // ---------------------------------------------------------------------
  // The component's state
  // ---------------------------------------------------------------------

  class Page {
    var loading: bool
    var error: Option<string>
    var campaigns: seq<Campaign>
    /** Every setter call and request so far, in order. */
    ghost var effects: seq<Effect>

    function Snapshot(): DashboardState
      reads this
    {
      DashboardState(loading, error, campaigns)
    }

    /** The first render, before the mount effect runs. */
    constructor ()
      ensures Snapshot() == Initial && effects == []
    {
      loading, error, campaigns := true, None, [];
      effects := [];
    }

    /** `fetchCampaigns`, run on mount and by the retry button. */
    method FetchCampaigns(r: Responses)
      requires WellFormed(r)
      modifies this
      ensures Snapshot() == AfterFetch(old(Snapshot()), r)
      ensures effects == old(effects) + FetchEffects(r)
    {
      ghost var before := effects;
      loading := true;
      effects := effects + [SetLoading(true)];
      error := None;
      effects := effects + [SetError(None)];
      effects := effects + [Get(CampaignsPath)];
      assert effects == before + Prologue;
      ghost var requested := effects;
      var response := GetCampaigns(r.list);
      if response.Resolved? {
        var enriched := EnrichCampaignsWithInsights(response.value, r.insights, r.enrichmentThrows);
        ghost var issued := InsightRequests(response.value, r.enrichmentThrows);
        effects := effects + issued;
        campaigns := enriched.value;
        effects := effects + [SetCampaigns(campaigns)];
        assert OutcomeEffects(r) == issued + [SetCampaigns(campaigns)];
        assert effects == requested + (issued + [SetCampaigns(campaigns)]);
      } else {
        // `err instanceof Error` tests against the imported component: false.
        error := Some(FetchFailed);
        effects := effects + [SetError(error)];
        assert OutcomeEffects(r) == [SetError(error)];
      }
      assert effects == requested + OutcomeEffects(r);
      loading := false;
      effects := effects + [SetLoading(false)];
      LogAssoc(before, Prologue, OutcomeEffects(r), [SetLoading(false)]);
    }

    /** What the page renders in its current state. */
    function View(): View
      reads this
    {
      SelectView(Snapshot())
    }
  }
}
