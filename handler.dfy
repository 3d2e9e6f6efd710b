/** The handler of `GET /api/resources/<folder>`: validate the folder, compute the cap,
    paginate, project, and turn a provider failure into a 500 reply. */
module ResourceHandler {
  import opened Optional
  import opened JsString
  import opened Assets
  import opened Provider
  import opened Pagination

  const DefaultMaxResults := 500
  const MaxResultsCeiling := 1000
  const FolderRequired := "Folder path required"
  const ProviderError := "Cloudinary error"

  /** A reply body: the JSON array of summaries, or a JSON object `{ error }`. */
  datatype Body = Items(items: seq<AssetSummary>) | Error(error: string)

  datatype HttpReply = HttpReply(status: int, body: Body)

  /** `!folder || folder.trim() === ''` on the path captured after /api/resources/. */
  function FolderMissing(folder: Option<string>): (missing: bool)
    ensures missing <==> folder.None? || forall k :: 0 <= k < |folder.value| ==> IsWhitespace(folder.value[k])
  {
    folder.None? || folder.value == "" || Trim(folder.value) == ""
  }

  /** The total cap: the parsed `max_results`, 500 when it is absent, and never above 1000. */
  function EffectiveCap(maxParam: Option<int>): (cap: int)
    ensures cap <= MaxResultsCeiling
    ensures maxParam.None? ==> cap == DefaultMaxResults
    ensures maxParam.Some? ==> cap <= maxParam.value && (cap == maxParam.value || cap == MaxResultsCeiling)
  {
    Min(MaxResultsCeiling, if maxParam.Some? then maxParam.value else DefaultMaxResults)
  }

  /** One request to the handler. `folder` is the captured path, `maxParam` the
      parsed `max_results` query parameter; `calls` are the provider calls made. */
  method HandleListing(folder: Option<string>, maxParam: Option<int>, provider: seq<Reply>)
    returns (reply: HttpReply, calls: seq<Request>)
    requires WellFormed(provider)
    ensures FolderMissing(folder) ==> reply == HttpReply(400, Error(FolderRequired)) && calls == []
    ensures !FolderMissing(folder) ==>
      var cap := EffectiveCap(maxParam);
      calls == Requests(provider, folder.value, cap) &&
      match Listing(provider, cap)
      case Fetched(rs) => reply == HttpReply(200, Items(ProjectAll(rs)))
      case ProviderFailed => reply == HttpReply(500, Error(ProviderError))
  {
    if FolderMissing(folder) {
      return HttpReply(400, Error(FolderRequired)), [];
    }
    var maxResults := EffectiveCap(maxParam);
    var result;
    result, calls := Paginate(provider, folder.value, maxResults);
    match result
    case ProviderFailed =>
      reply := HttpReply(500, Error(ProviderError));
    case Fetched(resources) =>
      reply := HttpReply(200, Items(ProjectAll(resources)));
  }

  /** A successful reply holds at most the cap's worth of summaries, one per
      record gathered, when the provider honours each call's limit. */
  lemma ItemsWithinCap(provider: seq<Reply>, maxParam: Option<int>)
    requires WellFormed(provider)
    requires Honest(provider, EffectiveCap(maxParam))
    ensures var cap := EffectiveCap(maxParam);
      Listing(provider, cap).Fetched? ==>
        |ProjectAll(Listing(provider, cap).records)| <= cap <= MaxResultsCeiling
  {
    LengthBound(provider, EffectiveCap(maxParam));
  }
}
