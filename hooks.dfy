/** What the two pages share: the log of state updates and requests a fetch
    performs, and JavaScript truthiness of an optional string. */
module Hooks {
  import opened Outcomes
  import opened Api

  /** One step a page's fetch takes, in the order it takes them: a call of a
      state setter, or a GET request issued through the client. */
  datatype Effect =
    | SetLoading(loading: bool)
    | SetError(error: Option<string>)
    | SetCampaigns(campaigns: seq<Campaign>)
    | SetCampaign(campaign: Option<Campaign>)
    | Get(path: string)

  /** `if (error)`: a string is truthy unless it is empty; null is falsy. */
  predicate Truthy(s: Option<string>) {
    s.Some? && s.value != ""
  }

  /** The requests in a log. */
  function Requests(effects: seq<Effect>): (paths: seq<string>)
    ensures |paths| <= |effects|
  {
    if effects == [] then []
    else (if effects[0].Get? then [effects[0].path] else []) + Requests(effects[1..])
  }

  /** A one-step log holds a request exactly when its step is one. */
  lemma RequestsOne(e: Effect)
    ensures Requests([e]) == if e.Get? then [e.path] else []
  {
    assert [e][1..] == [];
  }

  lemma {:induction false} RequestsAppend(a: seq<Effect>, b: seq<Effect>)
    ensures Requests(a + b) == Requests(a) + Requests(b)
  {
    if a != [] {
      assert (a + b)[1..] == a[1..] + b;
      RequestsAppend(a[1..], b);
    } else {
      assert a + b == b;
    }
  }

  /** Appending the steps of a log one part at a time. */
  lemma LogAssoc(a: seq<Effect>, b: seq<Effect>, c: seq<Effect>, d: seq<Effect>)
    ensures a + b + c + d == a + (b + c + d)
  {
  }
}
