/** The listing's outcome for scripted providers. */
module Scenarios {
  import opened Optional
  import opened Assets
  import opened Provider
  import opened Pagination

  /** Two pages of ten records, the first with a cursor, under a cap of 1000:
      two calls, and the twenty records in page order. */
  lemma TwoPagesConcatenated(p1: seq<AssetRecord>, p2: seq<AssetRecord>, prefix: string)
    requires |p1| == 10 && |p2| == 10
    ensures var provider := [Page(Some(p1), true), Page(Some(p2), false)];
      Listing(provider, 1000) == Fetched(p1 + p2) &&
      Requests(provider, prefix, 1000) ==
        [Request(Upload, prefix, 500, None), Request(Upload, prefix, 500, Some(1))]
  {
    var provider := [Page(Some(p1), true), Page(Some(p2), false)];
    assert provider[..0] == [];
    FlatSnoc(provider, 0);
    FlatSnoc(provider, 1);
    assert provider[..2] == provider;
    assert Continues(provider, 1000, 1);
    assert CallCount(provider, 1000) == 2;
  }

  /** A provider that would go on serving pages with cursors, under a cap of
      650: a call for 500, a second call for the remaining 150, and no third
      call although the second reply carries a cursor. */
  lemma CapSplitsLastCall(p1: seq<AssetRecord>, p2: seq<AssetRecord>, rest: seq<Reply>, prefix: string)
    requires |p1| == 500 && |p2| == 150
    requires WellFormed([Page(Some(p1), true), Page(Some(p2), true)] + rest)
    ensures var provider := [Page(Some(p1), true), Page(Some(p2), true)] + rest;
      Listing(provider, 650) == Fetched(p1 + p2) && |p1 + p2| == 650 &&
      Requests(provider, prefix, 650) ==
        [Request(Upload, prefix, 500, None), Request(Upload, prefix, 150, Some(1))]
  {
    var provider := [Page(Some(p1), true), Page(Some(p2), true)] + rest;
    assert provider[..0] == [];
    FlatSnoc(provider, 0);
    FlatSnoc(provider, 1);
    assert Continues(provider, 650, 1);
    assert !Continues(provider, 650, 2);
    assert CallCountFrom(provider, 650, 2) == 2;
    assert CallCount(provider, 650) == 2;
  }

  /** A first call that fails ends the listing at once: one call, no records. */
  lemma FirstCallFails(provider: seq<Reply>, prefix: string, cap: int)
    requires WellFormed(provider) && provider[0] == Failure
    ensures Listing(provider, cap) == ProviderFailed
    ensures Requests(provider, prefix, cap) == [Request(Upload, prefix, Min(PerCallCeiling, cap), None)]
  {
    assert CallCount(provider, cap) == 1;
    assert provider[..0] == [];
  }
}
