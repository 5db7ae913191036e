/** GET /usage/credits: a credit summary per subscription of the caller's tenant. */
module UsageCredits {
  import opened Wrappers
  import opened Query
  import opened Http
  import opened Models
  import opened Auth

  /** `SELECT c.id, c.tierId, c.creditsRemaining, c.prepaidCredits`. */
  datatype CreditSummary = CreditSummary(id: string, tierId: string, creditsRemaining: int, prepaidCredits: int)

  function Summary(s: Subscription): CreditSummary
  {
    CreditSummary(s.id, s.tierId, s.creditsRemaining, s.prepaidCredits)
  }

  function InTenant(tenantId: string): Subscription -> bool
  {
    (s: Subscription) => s.tenantId == tenantId
  }

  /** The projection of each subscription, in order. */
  function Summaries(subs: seq<Subscription>): (r: seq<CreditSummary>)
    ensures |r| == |subs|
    ensures forall i :: 0 <= i < |subs| ==> r[i] == Summary(subs[i])
    ensures forall s :: s in subs ==> Summary(s) in r
  {
    var r := seq(|subs|, i requires 0 <= i < |subs| => Summary(subs[i]));
    assert forall i :: 0 <= i < |subs| ==> r[i] == Summary(subs[i]);
    r
  }

  /** `getCreditsHandler`: every subscription of the tenant, of any user, projected
      to its id, tier and the two credit counters, copied unchanged. */
  function GetCredits(auth: Option<AuthContext>, subs: seq<Subscription>): (r: HttpResponse<seq<CreditSummary>>)
    ensures auth.None? ==> r.Fail? && r.status == 401
    ensures auth.Some? ==> r.Ok? && r.status == 200
    ensures r.Ok? ==>
      var owned := Filter(subs, InTenant(auth.value.tenantId));
      && |r.body| == |owned|
      && forall i :: 0 <= i < |r.body| ==>
        && r.body[i].id == owned[i].id
        && r.body[i].tierId == owned[i].tierId
        && r.body[i].creditsRemaining == owned[i].creditsRemaining
        && r.body[i].prepaidCredits == owned[i].prepaidCredits
    ensures r.Ok? ==> forall s :: s in subs && s.tenantId == auth.value.tenantId ==> Summary(s) in r.body
  {
    if auth.None? then Unauthorized()
    else Ok(200, Summaries(Filter(subs, InTenant(auth.value.tenantId))))
  }
}
