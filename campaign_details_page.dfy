/** `src/pages/CampaignDetailsPage.tsx`: the detail page's fetch state
    machine, driven by the `:id` route parameter, and the choice of what it
    renders.

    As on the dashboard, the page imports its `Error` component under the
    name `Error`, so `err instanceof Error` never holds and a failed lookup
    always stores the fallback "Failed to fetch campaign", never the
    service's own message (not even "Campaign not found"). */
module CampaignDetailsPage {
  import opened Outcomes
  import opened Api
  import opened Hooks

  /** The page's three state variables. */
  datatype DetailsState = DetailsState(loading: bool, error: Option<string>, campaign: Option<Campaign>)

  /** `useState(null)`, `useState(true)`, `useState(null)`. */
  const Initial := DetailsState(true, None, None)

  const MissingId := "Campaign ID not found"
  const FetchFailed := "Failed to fetch campaign"

  /** How the two requests of `getCampaignById` settle, and which of them
      settles first. */
  datatype Responses = Responses(list: Settled<seq<Campaign>>, insights: Settled<Insights>, listSettlesFirst: bool)

  /** The lookup the page awaits for a given id. */
  function Lookup(id: string, r: Responses): Settled<Campaign> {
    GetCampaignById(id, r.list, r.insights, r.listSettlesFirst)
  }

  /** The state after `fetchCampaign` has returned: early for a missing or
      empty id, otherwise at the end of its `finally`. */
  function AfterFetch(s: DetailsState, id: Option<string>, r: Responses): (t: DetailsState)
    ensures !t.loading
    ensures !Truthy(id) ==> t.error == Some(MissingId) && t.campaign == s.campaign
    ensures Truthy(id) ==>
              (t.error == None <==>
                 r.list.Resolved? && r.insights.Resolved?
                 && exists i :: 0 <= i < |r.list.value| && r.list.value[i].id == id.value)
    ensures t.error == None ==>
              && t.campaign.Some? && t.campaign.value.id == id.value
              && CarriesInsights(t.campaign.value, r.insights.value)
    ensures t.error != None ==> t.error == Some(MissingId) || (t.error == Some(FetchFailed) && t.campaign == s.campaign)
    ensures Truthy(id) && t.error == None ==>
              t.campaign == Some(Merge(Find(r.list.value, id.value).value, r.insights.value))
    ensures Truthy(id) && Lookup(id.value, r).Rejected? ==> t.error == Some(FetchFailed) && t.campaign == s.campaign
  {
    if !Truthy(id) then s.(loading := false, error := Some(MissingId))
    else
      match Lookup(id.value, r)
      case Resolved(c) => DetailsState(false, None, Some(c))
      case Rejected(_) => DetailsState(false, Some(FetchFailed), s.campaign)
  }

  /** The steps a fetch with an id takes before it awaits the lookup: both
      requests of the lookup are issued together, the list first. */
  function Prologue(id: string): seq<Effect> {
    [SetLoading(true), SetError(None), Get(CampaignsPath), Get(InsightsPath(id))]
  }

  /** The step between the lookup's outcome and the `finally` block. */
  function OutcomeEffect(id: string, r: Responses): Effect {
    match Lookup(id, r)
    case Resolved(c) => SetCampaign(Some(c))
    case Rejected(_) => SetError(Some(FetchFailed))
  }

  /** The steps of `fetchCampaign`, in order. */
  function FetchEffects(id: Option<string>, r: Responses): (es: seq<Effect>)
    ensures !Truthy(id) ==> |es| == 2 && es[1] == SetLoading(false)
    ensures Truthy(id) ==> |es| == 6 && es[0] == SetLoading(true) && es[5] == SetLoading(false)
  {
    if !Truthy(id) then [SetError(Some(MissingId)), SetLoading(false)]
    else Prologue(id.value) + [OutcomeEffect(id.value, r)] + [SetLoading(false)]
  }

  /** Without an id the page issues no request; with one it issues the list
      request and the insights request of that id, whatever their outcome. */
  lemma FetchRequests(id: Option<string>, r: Responses)
    ensures !Truthy(id) ==> Requests(FetchEffects(id, r)) == []
    ensures Truthy(id) ==> Requests(FetchEffects(id, r)) == [CampaignsPath, InsightsPath(id.value)]
  {
    var es := FetchEffects(id, r);
    if !Truthy(id) {
      RequestsOne(SetError(Some(MissingId)));
      RequestsOne(SetLoading(false));
      assert es == [SetError(Some(MissingId))] + [SetLoading(false)];
      RequestsAppend([SetError(Some(MissingId))], [SetLoading(false)]);
    } else {
      var p := Prologue(id.value);
      var e := OutcomeEffect(id.value, r);
      PrologueRequests(id.value);
      RequestsOne(e);
      RequestsOne(SetLoading(false));
      RequestsAppend(p, [e]);
      RequestsAppend(p + [e], [SetLoading(false)]);
    }
  }

  /** The prologue issues the two requests of the lookup, list first. */
  lemma PrologueRequests(id: string)
    ensures Requests(Prologue(id)) == [CampaignsPath, InsightsPath(id)]
  {
    RequestsOne(SetLoading(true));
    RequestsOne(SetError(None));
    RequestsOne(Get(CampaignsPath));
    RequestsOne(Get(InsightsPath(id)));
    assert Prologue(id) == [SetLoading(true)] + [SetError(None)] + [Get(CampaignsPath)] + [Get(InsightsPath(id))];
    RequestsAppend([SetLoading(true)], [SetError(None)]);
    RequestsAppend([SetLoading(true)] + [SetError(None)], [Get(CampaignsPath)]);
    RequestsAppend([SetLoading(true)] + [SetError(None)] + [Get(CampaignsPath)], [Get(InsightsPath(id))]);
  }

  // ---------------------------------------------------------------------
  // What the page renders
  // ---------------------------------------------------------------------

  datatype View =
    | LoadingView(message: string)
    | ErrorView(title: string, message: string, canRetry: bool)
    | DetailsView(campaign: Campaign)  // the CampaignDetails panel of this campaign

  /** The error view without a retry button shown when no campaign is held. */
  const NotFoundView := ErrorView("Campaign Not Found", "The campaign you're looking for doesn't exist.", false)

  /** The early returns of the component, in their order: loading, then
      error (with a retry button that runs the same fetch), then no
      campaign, then the detail panel. */
  function SelectView(s: DetailsState): (v: View)
    ensures v.LoadingView? <==> s.loading
    ensures v.ErrorView? && v.canRetry <==> !s.loading && Truthy(s.error)
    ensures v.ErrorView? && v.canRetry ==> v.message == s.error.value
    ensures v == NotFoundView <==> !s.loading && !Truthy(s.error) && s.campaign.None?
    ensures v.DetailsView? <==> !s.loading && !Truthy(s.error) && s.campaign.Some?
    ensures v.DetailsView? ==> v.campaign == s.campaign.value
  {
    if s.loading then LoadingView("Loading campaign details...")
    else if Truthy(s.error) then ErrorView("Failed to Load Campaign", s.error.value, true)
    else if s.campaign.None? then NotFoundView
    else DetailsView(s.campaign.value)
  }

  /** The first render shows the loading view. */
  lemma InitialViewIsLoading()
    ensures SelectView(Initial) == LoadingView("Loading campaign details...")
  {
  }

  /** Once a fetch has returned, the "Campaign Not Found" view is never
      shown: every fetch ends either with an error message or with a
      campaign. */
  lemma NotFoundUnreachable(s: DetailsState, id: Option<string>, r: Responses)
    ensures SelectView(AfterFetch(s, id, r)) != NotFoundView
    ensures SelectView(AfterFetch(s, id, r)).ErrorView? || SelectView(AfterFetch(s, id, r)).DetailsView?
  {
  }

  /** A missing or empty id shows the error view with its own message; its
      retry button leads back to the same state. */
  lemma MissingIdShowsError(s: DetailsState, id: Option<string>, r: Responses, retry: Responses)
    requires !Truthy(id)
    ensures SelectView(AfterFetch(s, id, r)) == ErrorView("Failed to Load Campaign", MissingId, true)
    ensures AfterFetch(AfterFetch(s, id, r), id, retry) == AfterFetch(s, id, r)
  {
  }

  /** An id absent from a successfully fetched list shows the generic
      failure, not the service's "Campaign not found" message, and no
      "Campaign Not Found" view. */
  lemma UnknownIdShowsGenericError(s: DetailsState, id: string, r: Responses)
    requires id != ""
    requires r.list.Resolved? && r.insights.Resolved?
    requires forall c :: c in r.list.value ==> c.id != id
    ensures SelectView(AfterFetch(s, Some(id), r)) == ErrorView("Failed to Load Campaign", FetchFailed, true)
    ensures Lookup(id, r).reason.message == CampaignPrefix + NotFoundMessage
  {
  }

  /** A campaign found in the list is shown with its own id, the base fields
      of the first listed campaign with that id and the numbers of its
      insights snapshot, whatever the page held before. */
  lemma FoundShowsDetails(s: DetailsState, id: string, r: Responses, i: nat)
    requires id != ""
    requires r.list.Resolved? && r.insights.Resolved?
    requires i < |r.list.value| && r.list.value[i].id == id
    ensures SelectView(AfterFetch(s, Some(id), r)).DetailsView?
    ensures var c := SelectView(AfterFetch(s, Some(id), r)).campaign;
            && c.id == id && CarriesInsights(c, r.insights.value)
            && exists j :: 0 <= j <= i && r.list.value[j].id == id && Base(c) == Base(r.list.value[j])
                           && forall k :: 0 <= k < j ==> r.list.value[k].id != id
  {
  }

  /** A failed lookup after the id changes keeps the previous campaign in
      state but hides it behind the error view. */
  lemma FailureHidesPreviousCampaign(s: DetailsState, id: string, r: Responses)
    requires id != "" && Lookup(id, r).Rejected?
    ensures AfterFetch(s, Some(id), r).campaign == s.campaign
    ensures SelectView(AfterFetch(s, Some(id), r)) == ErrorView("Failed to Load Campaign", FetchFailed, true)
  {
  }

  // ---------------------------------------------------------------------
  // The component's state
  // ---------------------------------------------------------------------

  class Page {
    /** The `:id` route parameter; `None` when the route has none. */
    var id: Option<string>
    var loading: bool
    var error: Option<string>
    var campaign: Option<Campaign>
    /** Every setter call and request so far, in order. */
    ghost var effects: seq<Effect>

    function Snapshot(): DetailsState
      reads this
    {
      DetailsState(loading, error, campaign)
    }

    /** The first render for a route parameter, before the effect runs. */
    constructor (id: Option<string>)
      ensures this.id == id && Snapshot() == Initial && effects == []
    {
      this.id := id;
      loading, error, campaign := true, None, None;
      effects := [];
    }

    /** `fetchCampaign`, run by the effect and by the retry button. */
    method FetchCampaign(r: Responses)
      modifies this
      ensures id == old(id)
      ensures Snapshot() == AfterFetch(old(Snapshot()), id, r)
      ensures effects == old(effects) + FetchEffects(id, r)
    {
      if !(id.Some? && id.value != "") {
        error := Some(MissingId);
        effects := effects + [SetError(error)];
        loading := false;
        effects := effects + [SetLoading(false)];
        return;
      }
      ghost var before := effects;
      loading := true;
      effects := effects + [SetLoading(true)];
      error := None;
      effects := effects + [SetError(None)];
      effects := effects + [Get(CampaignsPath), Get(InsightsPath(id.value))];
      assert effects == before + Prologue(id.value);
      var data := GetCampaignById(id.value, r.list, r.insights, r.listSettlesFirst);
      if data.Resolved? {
        campaign := Some(data.value);
        effects := effects + [SetCampaign(campaign)];
      } else {
        // `err instanceof Error` tests against the imported component: false.
        error := Some(FetchFailed);
        effects := effects + [SetError(error)];
      }
      loading := false;
      effects := effects + [SetLoading(false)];
      LogAssoc(before, Prologue(id.value), [OutcomeEffect(id.value, r)], [SetLoading(false)]);
    }

    /** The effect's dependency on `id`: a new route parameter re-runs the
        fetch; the same one does nothing. The state is not reset first. */
    method ChangeId(newId: Option<string>, r: Responses)
      modifies this
      ensures id == newId
      ensures newId == old(id) ==> Snapshot() == old(Snapshot()) && effects == old(effects)
      ensures newId != old(id) ==>
                && Snapshot() == AfterFetch(old(Snapshot()), newId, r)
                && effects == old(effects) + FetchEffects(newId, r)
    {
      if newId != id {
        id := newId;
        FetchCampaign(r);
      }
    }

    /** What the page renders in its current state. */
    function View(): View
      reads this
    {
      SelectView(Snapshot())
    }
  }
}
