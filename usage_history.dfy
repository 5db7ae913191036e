/** GET /usage/history[?top=]: the caller's tenant's most recent usage snapshots. */
module UsageHistory {
  import opened Wrappers
  import opened Query
  import opened Http
  import opened Models
  import opened Auth

  const DefaultTop: nat := 50

  function InTenant(tenantId: string): UsageSnapshot -> bool
  {
    (u: UsageSnapshot) => u.tenantId == tenantId
  }

  /** `ORDER BY c.timestamp DESC`. */
  ghost predicate NewestFirst(s: seq<UsageSnapshot>)
  {
    forall i, j :: 0 <= i < j < |s| ==> s[i].timestamp >= s[j].timestamp
  }

  /** A snapshot no older than the head of a newest-first sequence can go in front. */
  lemma ConsNewestFirst(h: UsageSnapshot, rest: seq<UsageSnapshot>)
    requires NewestFirst(rest)
    requires rest == [] || h.timestamp >= rest[0].timestamp
    ensures NewestFirst([h] + rest)
  {
    var t := [h] + rest;
    forall i, j | 0 <= i < j < |t| ensures t[i].timestamp >= t[j].timestamp {
      if i > 0 { assert t[i] == rest[i - 1] && t[j] == rest[j - 1]; }
      else if j > 1 { assert rest[0].timestamp >= rest[j - 1].timestamp; }
    }
  }

  function InsertByTime(x: UsageSnapshot, s: seq<UsageSnapshot>): (r: seq<UsageSnapshot>)
    requires NewestFirst(s)
    ensures NewestFirst(r)
    ensures multiset(r) == multiset(s) + multiset{x}
    ensures |r| == |s| + 1
    ensures r[0] == x || (|s| > 0 && r[0] == s[0])
  {
    if s == [] || x.timestamp >= s[0].timestamp then
      ConsNewestFirst(x, s);
      [x] + s
    else
      assert NewestFirst(s[1..]) by {
        forall i, j | 0 <= i < j < |s| - 1 ensures s[1..][i].timestamp >= s[1..][j].timestamp {
          assert s[1..][i] == s[i + 1] && s[1..][j] == s[j + 1];
        }
      }
      var rest := InsertByTime(x, s[1..]);
      assert |s| > 1 ==> s[0].timestamp >= s[1].timestamp;
      ConsNewestFirst(s[0], rest);
      assert s == [s[0]] + s[1..];
      [s[0]] + rest
  }

  /** The snapshots ordered newest first (ties keep no particular order in the store). */
  function SortNewestFirst(s: seq<UsageSnapshot>): (r: seq<UsageSnapshot>)
    ensures NewestFirst(r)
    ensures multiset(r) == multiset(s)
    ensures |r| == |s|
  {
    if s == [] then []
    else
      assert s == [s[0]] + s[1..];
      InsertByTime(s[0], SortNewestFirst(s[1..]))
  }

  /** A prefix of a newest-first order is newest-first and part of the order. */
  lemma PrefixNewestFirst(sorted: seq<UsageSnapshot>, n: nat)
    requires NewestFirst(sorted) && n <= |sorted|
    ensures NewestFirst(sorted[..n])
    ensures multiset(sorted[..n]) <= multiset(sorted)
    ensures forall u :: u in sorted[..n] ==> u in multiset(sorted)
  {
    assert sorted == sorted[..n] + sorted[n..];
    forall i, j | 0 <= i < j < n ensures sorted[..n][i].timestamp >= sorted[..n][j].timestamp {
      assert sorted[..n][i] == sorted[i] && sorted[..n][j] == sorted[j];
    }
  }

  /** A prefix of a newest-first order holds the newest snapshots. */
  lemma PrefixIsNewest(sorted: seq<UsageSnapshot>, n: nat)
    requires NewestFirst(sorted) && n <= |sorted|
    ensures forall x, y :: x in multiset(sorted) - multiset(sorted[..n]) && y in sorted[..n] ==>
      x.timestamp <= y.timestamp
  {
    assert sorted == sorted[..n] + sorted[n..];
    assert multiset(sorted) - multiset(sorted[..n]) == multiset(sorted[n..]);
    forall x, y | x in multiset(sorted[n..]) && y in sorted[..n] ensures x.timestamp <= y.timestamp {
      var i :| 0 <= i < |sorted[n..]| && sorted[n..][i] == x;
      var j :| 0 <= j < n && sorted[..n][j] == y;
      assert sorted[n + i] == x && sorted[j] == y;
    }
  }

  /** `TOP n ... ORDER BY c.timestamp DESC` over the given snapshots: the `n`
      newest of them (all of them when there are fewer), newest first. */
  function Newest(s: seq<UsageSnapshot>, n: nat): (r: seq<UsageSnapshot>)
    ensures |r| == (if n < |s| then n else |s|)
    ensures NewestFirst(r)
    ensures multiset(r) <= multiset(s)
    ensures forall u :: u in r ==> u in s
    ensures forall x, y :: x in multiset(s) - multiset(r) && y in r ==> x.timestamp <= y.timestamp
  {
    var sorted := SortNewestFirst(s);
    var k := if n < |sorted| then n else |sorted|;
    PrefixNewestFirst(sorted, k);
    PrefixIsNewest(sorted, k);
    sorted[..k]
  }

  /** `getUsageHistoryHandler`: the newest `top` snapshots of the caller's tenant,
      with `top` 50 when the parameter is absent or empty. */
  function GetUsageHistory(auth: Option<AuthContext>, top: Option<nat>, snapshots: seq<UsageSnapshot>)
    : (r: HttpResponse<seq<UsageSnapshot>>)
    ensures auth.None? ==> r.Fail? && r.status == 401
    ensures auth.Some? ==> r.Ok? && r.status == 200
    ensures r.Ok? ==>
      var n := OrElse(top, DefaultTop);
      var mine := Filter(snapshots, InTenant(auth.value.tenantId));
      && |r.body| == (if n < |mine| then n else |mine|)
      && NewestFirst(r.body)
      && multiset(r.body) <= multiset(mine)
      && (forall u :: u in r.body ==> u in snapshots && u.tenantId == auth.value.tenantId)
      && (forall x, y :: x in multiset(mine) - multiset(r.body) && y in r.body ==> x.timestamp <= y.timestamp)
  {
    if auth.None? then Unauthorized()
    else Ok(200, Newest(Filter(snapshots, InTenant(auth.value.tenantId)), OrElse(top, DefaultTop)))
  }
}
