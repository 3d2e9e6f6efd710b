/** The pagination loop of the listing handler: a first call, then one call per
    continuation cursor while fewer records than the cap have been gathered. */
module Pagination {
  import opened Optional
  import opened Assets
  import opened Provider

  /** The provider's per-call ceiling on `max_results`. */
  const PerCallCeiling := 500

  function Min(a: int, b: int): (m: int)
    ensures m <= a && m <= b
    ensures m == a || m == b
  {
    if a <= b then a else b
  }

  /** What pagination comes to: the gathered records, or a failed call. */
  datatype Fetch = Fetched(records: seq<AssetRecord>) | ProviderFailed

  /** The per-call limit of call j: at most the ceiling and at most what the cap
      leaves after the j calls before it. */
  function Limit(provider: seq<Reply>, cap: int, j: nat): (l: int)
    requires j <= |provider|
    ensures l <= PerCallCeiling && l <= cap - |Flat(provider[..j])|
    ensures l == PerCallCeiling || l == cap - |Flat(provider[..j])|
  {
    Min(PerCallCeiling, cap - |Flat(provider[..j])|)
  }

  /** The arguments of call j (numbered from 0). */
  function RequestAt(provider: seq<Reply>, prefix: string, cap: int, j: nat): (q: Request)
    requires j <= |provider|
    ensures q.deliveryType == Upload && q.prefix == prefix && q.maxResults == Limit(provider, cap, j)
    ensures q.cursor.None? <==> j == 0
    ensures q.cursor.Some? ==> q.cursor.value == j
  {
    Request(Upload, prefix, Limit(provider, cap, j), if j == 0 then None else Some(j))
  }

  /** The loop condition after i successful calls: the last reply carried a
      cursor and fewer than `cap` records have been gathered. */
  predicate Continues(provider: seq<Reply>, cap: int, i: nat): (c: bool)
    requires 1 <= i <= |provider|
    ensures c ==> |Flat(provider[..i])| < cap
    ensures c && WellFormed(provider) ==> i < |provider|
  {
    HasNext(provider[i - 1]) && |Flat(provider[..i])| < cap
  }

  /** The number of calls made, given that i calls have been made. */
  function CallCountFrom(provider: seq<Reply>, cap: int, i: nat): (n: nat)
    requires WellFormed(provider) && 1 <= i <= |provider|
    ensures i <= n <= |provider|
    decreases |provider| - i
  {
    if Continues(provider, cap, i) then CallCountFrom(provider, cap, i + 1) else i
  }

  /** The number of calls one listing makes. */
  function CallCount(provider: seq<Reply>, cap: int): (n: nat)
    requires WellFormed(provider)
    ensures 1 <= n <= |provider|
  {
    CallCountFrom(provider, cap, 1)
  }

  /** The first n calls' arguments, in call order. */
  function RequestsUpTo(provider: seq<Reply>, prefix: string, cap: int, n: nat): (calls: seq<Request>)
    requires n <= |provider|
    ensures |calls| == n
    ensures forall j :: 0 <= j < n ==> calls[j] == RequestAt(provider, prefix, cap, j)
  {
    if n == 0 then [] else RequestsUpTo(provider, prefix, cap, n - 1) + [RequestAt(provider, prefix, cap, n - 1)]
  }

  /** Every call one listing makes, in call order. */
  function Requests(provider: seq<Reply>, prefix: string, cap: int): seq<Request>
    requires WellFormed(provider)
  {
    RequestsUpTo(provider, prefix, cap, CallCount(provider, cap))
  }

  /** What one listing yields: a failure if its last call failed, otherwise the
      concatenation of the pages of all its calls. */
  function Listing(provider: seq<Reply>, cap: int): Fetch
    requires WellFormed(provider)
  {
    var n := CallCount(provider, cap);
    if provider[n - 1].Failure? then ProviderFailed else Fetched(Flat(provider[..n]))
  }

  /** The provider never returns more records than a call asked for. */
  predicate Honest(provider: seq<Reply>, cap: int)
    requires WellFormed(provider)
  {
    forall j :: 0 <= j < CallCount(provider, cap) ==> |Records(provider[j])| <= Limit(provider, cap, j)
  }

  /** The listing loop. Call k is answered by provider[k]; `resources` and
      `nextCursor` are the loop's variables, `calls` records every request sent. */
  method Paginate(provider: seq<Reply>, prefix: string, cap: int) returns (result: Fetch, calls: seq<Request>)
    requires WellFormed(provider)
    ensures result == Listing(provider, cap)
    ensures calls == Requests(provider, prefix, cap)
  {
    PaginateStart(provider, prefix, cap);
    calls := [Request(Upload, prefix, Min(PerCallCeiling, cap), None)];
    var response := provider[0];
    if response.Failure? {
      return ProviderFailed, calls;
    }
    var resources := Records(response);
    var nextCursor := HasNext(response);
    var k := 1;
    while nextCursor && |resources| < cap
      invariant 1 <= k <= |provider|
      invariant provider[k - 1].Page?
      invariant resources == Flat(provider[..k])
      invariant nextCursor == HasNext(provider[k - 1])
      invariant CallCountFrom(provider, cap, k) == CallCount(provider, cap)
      invariant calls == RequestsUpTo(provider, prefix, cap, k)
      decreases |provider| - k
    {
      PaginateStep(provider, prefix, cap, k);
      calls := calls + [Request(Upload, prefix, Min(PerCallCeiling, cap - |resources|), Some(k))];
      var page := provider[k];
      if page.Failure? {
        return ProviderFailed, calls;
      }
      resources := resources + Records(page);
      nextCursor := HasNext(page);
      k := k + 1;
    }
    PaginateStop(provider, prefix, cap, k);
    result := Fetched(resources);
  }

  /** Before the loop: the first request, the first page, and a listing that
      ends at once when the first call fails. */
  lemma PaginateStart(provider: seq<Reply>, prefix: string, cap: int)
    requires WellFormed(provider)
    ensures RequestsUpTo(provider, prefix, cap, 1) == [Request(Upload, prefix, Min(PerCallCeiling, cap), None)]
    ensures Flat(provider[..1]) == Records(provider[0])
    ensures CallCountFrom(provider, cap, 1) == CallCount(provider, cap)
    ensures provider[0].Failure? ==>
      Listing(provider, cap) == ProviderFailed && Requests(provider, prefix, cap) == RequestsUpTo(provider, prefix, cap, 1)
  {
    assert provider[..0] == [];
    FlatSnoc(provider, 0);
  }

  /** One turn of the loop: call k is the next call counted, its request is the
      next one recorded, its page is the next one concatenated, and a failure
      of it ends the listing. */
  lemma PaginateStep(provider: seq<Reply>, prefix: string, cap: int, k: nat)
    requires WellFormed(provider) && 1 <= k <= |provider| && Continues(provider, cap, k)
    ensures k < |provider|
    ensures CallCountFrom(provider, cap, k + 1) == CallCountFrom(provider, cap, k)
    ensures RequestsUpTo(provider, prefix, cap, k + 1) ==
      RequestsUpTo(provider, prefix, cap, k) + [Request(Upload, prefix, Min(PerCallCeiling, cap - |Flat(provider[..k])|), Some(k))]
    ensures Flat(provider[..k + 1]) == Flat(provider[..k]) + Records(provider[k])
    ensures provider[k].Failure? && CallCountFrom(provider, cap, k) == CallCount(provider, cap) ==>
      Listing(provider, cap) == ProviderFailed && Requests(provider, prefix, cap) == RequestsUpTo(provider, prefix, cap, k + 1)
  {
    FlatSnoc(provider, k);
  }

  /** After the loop: the condition fails after call k, so k calls were made
      and the listing is the concatenation of their pages. */
  lemma PaginateStop(provider: seq<Reply>, prefix: string, cap: int, k: nat)
    requires WellFormed(provider) && 1 <= k <= |provider| && provider[k - 1].Page?
    requires !Continues(provider, cap, k) && CallCountFrom(provider, cap, k) == CallCount(provider, cap)
    ensures Listing(provider, cap) == Fetched(Flat(provider[..k]))
    ensures Requests(provider, prefix, cap) == RequestsUpTo(provider, prefix, cap, k)
  {
  }

  /** Every call but the last was made because the loop condition held, and
      after the last one it no longer holds: the loop stops at the first reply
      without a cursor or once the cap is met, even if a cursor remains. */
  lemma StoppingRule(provider: seq<Reply>, cap: int)
    requires WellFormed(provider)
    ensures forall i :: 1 <= i < CallCount(provider, cap) ==> Continues(provider, cap, i)
    ensures !Continues(provider, cap, CallCount(provider, cap))
  {
    StoppingRuleFrom(provider, cap, 1);
  }

  lemma {:induction false} StoppingRuleFrom(provider: seq<Reply>, cap: int, i: nat)
    requires WellFormed(provider) && 1 <= i <= |provider|
    ensures forall m :: i <= m < CallCountFrom(provider, cap, i) ==> Continues(provider, cap, m)
    ensures !Continues(provider, cap, CallCountFrom(provider, cap, i))
    decreases |provider| - i
  {
    if Continues(provider, cap, i) {
      StoppingRuleFrom(provider, cap, i + 1);
    }
  }

  /** Each call asks for "upload" assets under the given prefix, at most 500 of
      them and at most what the cap leaves; every call after the first asks for
      at least one, and follows the cursor the previous reply returned. */
  lemma PerCallLimit(provider: seq<Reply>, prefix: string, cap: int)
    requires WellFormed(provider)
    ensures var calls := Requests(provider, prefix, cap);
      forall j :: 0 <= j < |calls| ==>
        calls[j].deliveryType == Upload && calls[j].prefix == prefix &&
        calls[j].maxResults <= PerCallCeiling &&
        calls[j].maxResults <= cap - |Flat(provider[..j])| &&
        (j == 0 ==> calls[j].cursor == None) &&
        (0 < j ==> 1 <= calls[j].maxResults && calls[j].cursor == Some(j) && HasNext(provider[j - 1]))
  {
    StoppingRule(provider, cap);
    var calls := Requests(provider, prefix, cap);
    forall j | 0 < j < |calls|
      ensures 1 <= calls[j].maxResults && HasNext(provider[j - 1])
    {
      assert Continues(provider, cap, j);
    }
  }

  /** A provider that honours each call's limit exists only for a non-negative
      cap: the first call asks for at most `cap` records. */
  lemma HonestCapNonNegative(provider: seq<Reply>, cap: int)
    requires WellFormed(provider) && Honest(provider, cap)
    ensures 0 <= cap
  {
    assert provider[..0] == [];
    assert |Records(provider[0])| <= Limit(provider, cap, 0);
  }

  /** With a provider that honours each call's limit, the listing never holds
      more than `cap` records (a cap that is then non-negative, by
      HonestCapNonNegative). */
  lemma LengthBound(provider: seq<Reply>, cap: int)
    requires WellFormed(provider) && Honest(provider, cap)
    ensures Listing(provider, cap).Fetched? ==> |Listing(provider, cap).records| <= cap
  {
    var n := CallCount(provider, cap);
    FlatSnoc(provider, n - 1);
    assert |Records(provider[n - 1])| <= Limit(provider, cap, n - 1);
  }

  /** The listing fails exactly when one of its calls fails; then it yields no records. */
  lemma FailureIff(provider: seq<Reply>, cap: int)
    requires WellFormed(provider)
    ensures Listing(provider, cap) == ProviderFailed <==>
      exists j :: 0 <= j < CallCount(provider, cap) && provider[j].Failure?
  {
    var n := CallCount(provider, cap);
    StoppingRule(provider, cap);
    forall j | 0 <= j < n - 1
      ensures provider[j].Page?
    {
      assert Continues(provider, cap, j + 1);
    }
  }

  /** The records of call j sit in the listing, whole and in place, right after
      those of the calls before it. */
  lemma PagesInCallOrder(provider: seq<Reply>, cap: int, j: nat)
    requires WellFormed(provider) && Listing(provider, cap).Fetched?
    requires j < CallCount(provider, cap)
    ensures var rs := Listing(provider, cap).records;
      var lo := |Flat(provider[..j])|;
      lo + |Records(provider[j])| <= |rs| && rs[lo..lo + |Records(provider[j])|] == Records(provider[j])
  {
    var n := CallCount(provider, cap);
    FlatSnoc(provider, j);
    assert provider[..n] == provider[..j + 1] + provider[j + 1..n];
    FlatAppend(provider[..j + 1], provider[j + 1..n]);
  }

  /** A first page with no records and no cursor ends the listing after one call,
      with an empty result. */
  lemma EmptyFirstPage(provider: seq<Reply>, prefix: string, cap: int)
    requires WellFormed(provider) && provider[0].Page? && !provider[0].hasNext && Records(provider[0]) == []
    ensures Listing(provider, cap) == Fetched([])
    ensures Requests(provider, prefix, cap) == [Request(Upload, prefix, Min(PerCallCeiling, cap), None)]
  {
    assert CallCount(provider, cap) == 1;
    FlatSnoc(provider, 0);
    assert provider[..0] == [];
  }
}
