/** The mobile addresses hook: the retry rule, the enabled and loading flags, and the
    empty-list fallbacks. */
module MobileAddresses {
  import opened Wrappers
  import opened Db

  const MaxRetries: nat := 3

  /** `retry(failureCount, err)`: never after a 401, otherwise while fewer than three
      failures have been retried. `status` is `err?.response?.status`. */
  function ShouldRetry(failureCount: nat, status: Option<int>): (b: bool)
    ensures status == Some(401) ==> !b
    ensures status != Some(401) ==> (b <==> failureCount < MaxRetries)
  {
    if status == Some(401) then false else failureCount < MaxRetries
  }

  /** The retries made for a query whose attempts keep failing with `statuses` in turn;
      the query library asks the rule with `failureCount` counting retries made so far. */
  function Retries(statuses: seq<Option<int>>, failureCount: nat): (r: nat)
    ensures r <= |statuses|
    ensures failureCount <= MaxRetries ==> r <= MaxRetries - failureCount
    ensures failureCount >= MaxRetries ==> r == 0
    decreases |statuses|
  {
    if statuses == [] || !ShouldRetry(failureCount, statuses[0]) then 0
    else 1 + Retries(statuses[1..], failureCount + 1)
  }

  /** A first failure with status 401 is never retried; failures of any other status are
      retried exactly three times when they keep coming. */
  lemma {:induction false} RetryCount(statuses: seq<Option<int>>)
    ensures |statuses| > 0 && statuses[0] == Some(401) ==> Retries(statuses, 0) == 0
    ensures |statuses| > MaxRetries && (forall i :: 0 <= i < |statuses| ==> statuses[i] != Some(401)) ==>
      Retries(statuses, 0) == MaxRetries
  {
    if |statuses| > MaxRetries && (forall i :: 0 <= i < |statuses| ==> statuses[i] != Some(401)) {
      var s1 := statuses[1..];
      var s2 := s1[1..];
      var s3 := s2[1..];
      assert s1[0] == statuses[1] && s2[0] == statuses[2] && s3 == statuses[3..];
      assert Retries(s3, 3) == 0;
      assert Retries(s2, 2) == 1;
      assert Retries(s1, 1) == 2;
    }
  }

  /** `enabled: isLoaded && isSignedIn`. */
  function Enabled(isLoaded: bool, isSignedIn: bool): (b: bool)
    ensures b <==> isLoaded && isSignedIn
  {
    isLoaded && isSignedIn
  }

  /** `isLoading || !isLoaded`: loading whenever authentication has not loaded. */
  function ReportedLoading(queryLoading: bool, isLoaded: bool): (b: bool)
    ensures !isLoaded ==> b
    ensures isLoaded ==> b == queryLoading
  {
    queryLoading || !isLoaded
  }

  /** A response to `GET /users/addresses`: none, no `data`, or `data.addresses`
      (`None` for null or undefined). */
  datatype AddressesResponse = NoResponse | NoData | Body(addresses: Option<seq<Address>>)

  /** `response?.data?.addresses ?? []`. */
  function QueryAddresses(r: AddressesResponse): (l: seq<Address>)
    ensures r.Body? && r.addresses.Some? ==> l == r.addresses.value
    ensures !(r.Body? && r.addresses.Some?) ==> l == []
  {
    match r
    case Body(Some(l)) => l
    case _ => []
  }

  /** `data.addresses ?? []` for the add, update and delete mutations. */
  function MutationAddresses(addresses: Option<seq<Address>>): (l: seq<Address>)
    ensures addresses.Some? ==> l == addresses.value
    ensures addresses.None? ==> l == []
  {
    addresses.GetOr([])
  }

  /** The exposed `addresses || []`: the query's list, or `[]` before any data. */
  function ExposedAddresses(data: Option<seq<Address>>): (l: seq<Address>)
    ensures data.None? ==> l == []
    ensures data.Some? ==> l == data.value
  {
    data.GetOr([])
  }

  /** Before authentication loads the query is off and the hook reports loading whatever
      the query says; signed out it never fetches; once enabled, the hook reports exactly
      the query's own loading flag. */
  lemma LoadingUntilAuthLoaded(isLoaded: bool, isSignedIn: bool, queryLoading: bool)
    ensures !isLoaded ==> !Enabled(isLoaded, isSignedIn) && ReportedLoading(queryLoading, isLoaded)
    ensures !isSignedIn ==> !Enabled(isLoaded, isSignedIn)
    ensures Enabled(isLoaded, isSignedIn) ==> ReportedLoading(queryLoading, isLoaded) == queryLoading
  {
  }

  /** The query, the three mutations and the exposed list agree: a body's list is read the
      same way by all, once the query has data the `|| []` fallback never replaces it
      (arrays are truthy even when empty), and before any data the list is empty. */
  lemma AddressListsAgree(addresses: Option<seq<Address>>, r: AddressesResponse)
    ensures QueryAddresses(Body(addresses)) == MutationAddresses(addresses)
    ensures ExposedAddresses(Some(QueryAddresses(r))) == QueryAddresses(r)
    ensures ExposedAddresses(None) == QueryAddresses(NoResponse) == QueryAddresses(NoData) == []
  {
  }
}
