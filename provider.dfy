/** The provider's listing primitive, seen from the handler: the requests it is
    sent and the replies it gives, one reply per call, in call order. */
module Provider {
  import opened Optional
  import opened Assets

  /** The `type` every listing call passes: only uploaded assets are listed. */
  const Upload := "upload"

  /** One call's arguments. `cursor` is absent on the first call; on call k it
      is the continuation cursor the reply to call k - 1 returned, which in this
      model names the index k of the reply it leads to. */
  datatype Request = Request(deliveryType: string, prefix: string, maxResults: int, cursor: Option<nat>)

  /** A reply: a page (its `resources` field may be missing; `hasNext` says
      whether its `next_cursor` is truthy, which an empty string is not) or a failed call. */
  datatype Reply = Page(resources: Option<seq<AssetRecord>>, hasNext: bool) | Failure

  /** `page.resources || []`: a failure or a page without records contributes nothing. */
  function Records(r: Reply): (rs: seq<AssetRecord>)
    ensures r.Page? && r.resources.Some? ==> rs == r.resources.value
    ensures !(r.Page? && r.resources.Some?) ==> rs == []
  {
    if r.Page? && r.resources.Some? then r.resources.value else []
  }

  /** The reply carries a continuation cursor. */
  predicate HasNext(r: Reply) {
    r.Page? && r.hasNext
  }

  /** A finite provider: it answers at least the first call, and its last reply
      carries no cursor, so the cursor chain ends within the replies it has. */
  predicate WellFormed(provider: seq<Reply>) {
    |provider| > 0 && !HasNext(provider[|provider| - 1])
  }

  /** The records of a run of replies, concatenated in order. */
  function Flat(replies: seq<Reply>): seq<AssetRecord> {
    if replies == [] then [] else Flat(replies[..|replies| - 1]) + Records(replies[|replies| - 1])
  }

  /** Flattening distributes over concatenation of runs of replies. */
  lemma {:induction false} FlatAppend(xs: seq<Reply>, ys: seq<Reply>)
    ensures Flat(xs + ys) == Flat(xs) + Flat(ys)
    decreases |ys|
  {
    if ys == [] {
      assert xs + ys == xs;
    } else {
      var zs, init, last := xs + ys, ys[..|ys| - 1], ys[|ys| - 1];
      assert zs[..|zs| - 1] == xs + init;
      assert zs[|zs| - 1] == last;
      assert Flat(zs) == Flat(xs + init) + Records(last);
      assert Flat(ys) == Flat(init) + Records(last);
      FlatAppend(xs, init);
    }
  }

  /** Flattening a run extended by one reply appends that reply's records. */
  lemma FlatSnoc(replies: seq<Reply>, k: nat)
    requires k < |replies|
    ensures Flat(replies[..k + 1]) == Flat(replies[..k]) + Records(replies[k])
  {
    assert replies[..k + 1][..k] == replies[..k];
  }

  /** A page whose `resources` field is missing, wherever it stands, leaves the
      concatenation exactly as if it were not there. */
  lemma MissingResourcesContributeNothing(xs: seq<Reply>, ys: seq<Reply>, hasNext: bool)
    ensures Flat(xs + [Page(None, hasNext)] + ys) == Flat(xs + ys)
  {
    FlatAppend(xs + [Page(None, hasNext)], ys);
    FlatAppend(xs, [Page(None, hasNext)]);
    FlatAppend(xs, ys);
    assert [Page(None, hasNext)][..0] == [];
  }
}
