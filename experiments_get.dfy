/** GET /experiments[?tierId=]: the experiment catalog, optionally restricted to one tier. */
module ExperimentsGet {
  import opened Wrappers
  import opened Query
  import opened Http
  import opened Models

  /** `ARRAY_CONTAINS(c.tierIds, @tierId)`. */
  function AllowsTier(tierId: string): AIExperiment -> bool
  {
    (x: AIExperiment) => tierId in x.tierIds
  }

  /** `getExperimentsHandler`: no auth. A non-empty tierId filters by tier
      membership; an absent or empty one returns the whole catalog. */
  function GetExperiments(tierId: Option<string>, experiments: seq<AIExperiment>)
    : (r: HttpResponse<seq<AIExperiment>>)
    ensures r.Ok? && r.status == 200
    ensures !Truthy(tierId) ==> r.body == experiments
    ensures Truthy(tierId) ==> forall x :: x in r.body <==> x in experiments && tierId.value in x.tierIds
    ensures multiset(r.body) <= multiset(experiments)
  {
    if Truthy(tierId) then Ok(200, Filter(experiments, AllowsTier(tierId.value)))
    else Ok(200, experiments)
  }

  /** The filtered catalog is part of the unfiltered one. */
  lemma FilteredWithinCatalog(tierId: string, experiments: seq<AIExperiment>)
    ensures multiset(GetExperiments(Some(tierId), experiments).body)
      <= multiset(GetExperiments(None, experiments).body)
  {
  }
}
