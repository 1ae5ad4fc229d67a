/** The Tavily web search adapter (`services/tavily.py`): one search call,
    its error mapping, and the normalisation of the raw result list. */
module Tavily {
  import opened Wrappers
  import opened Configuration
  import opened PlaceModels

  /** One raw result object: each field absent or a string. */
  datatype RawResult = RawResult(title: Option<string>, url: Option<string>, content: Option<string>)

  datatype SearchRequest = SearchRequest(query: string, maxResults: nat, depth: string, includeAnswer: bool, key: string)

  /** The client call: it raised, or it returned a response whose `results`
      and `answer` entries may each be absent. */
  datatype SearchReply = SearchRaised(what: string) | Answered(results: Option<seq<RawResult>>, answer: Option<string>)

  /** A raw result as a document: a missing title reads "Untitled", a
      missing url or content reads as empty. */
  function NormalizeResult(raw: RawResult): (d: TavilyDocument)
    ensures raw.title.Some? ==> d.title == raw.title.value
    ensures raw.title.None? ==> d.title == "Untitled"
    ensures d.url == raw.url.GetOr("") && d.content == raw.content.GetOr("")
  {
    TavilyDocument(raw.title.GetOr("Untitled"), raw.url.GetOr(""), raw.content.GetOr(""))
  }

  /** A complete raw result survives normalisation unchanged. */
  lemma NormalizeComplete(title: string, url: string, content: string)
    ensures NormalizeResult(RawResult(Some(title), Some(url), Some(content))) == TavilyDocument(title, url, content)
  {
  }

  function NormalizeResults(raws: seq<RawResult>): (r: seq<TavilyDocument>)
    ensures |r| == |raws|
    ensures forall i :: 0 <= i < |raws| ==> r[i] == NormalizeResult(raws[i])
  {
    seq(|raws|, i requires 0 <= i < |raws| => NormalizeResult(raws[i]))
  }

  /** `tavily_search(query, max_results=5, search_depth="basic")`. */
  function TavilySearch(query: string, maxResults: nat, depth: string, settings: Settings,
                        client: SearchRequest -> SearchReply): (r: Result<TavilyResponse, ServiceError>)
    ensures settings.tavilyKey == "" <==> r == Err(MissingApiKey("TAVILY_API_KEY"))
    ensures settings.tavilyKey != "" ==>
              var reply := client(SearchRequest(query, maxResults, depth, true, settings.tavilyKey));
              && (reply.SearchRaised? <==> r == Err(Upstream("TAVILY_API_ERROR")))
              && (reply.Answered? ==>
                    && r.Ok? && r.value.query == query && r.value.answer == reply.answer
                    && var raws := reply.results.GetOr([]);
                       |r.value.results| == |raws|
                       && forall i :: 0 <= i < |raws| ==> r.value.results[i] == NormalizeResult(raws[i]))
  {
    if settings.tavilyKey == "" then Err(MissingApiKey("TAVILY_API_KEY"))
    else
      match client(SearchRequest(query, maxResults, depth, true, settings.tavilyKey))
      case SearchRaised(_) => Err(Upstream("TAVILY_API_ERROR"))
      case Answered(results, answer) => Ok(TavilyResponse(query, NormalizeResults(results.GetOr([])), answer))
  }

  /** The default call of the orchestrator. */
  function DefaultSearch(query: string, settings: Settings, client: SearchRequest -> SearchReply)
    : Result<TavilyResponse, ServiceError>
  {
    TavilySearch(query, 5, "basic", settings, client)
  }

  /** Without a key the client is never reached. */
  lemma NoKeyNoCall(query: string, settings: Settings, a: SearchRequest -> SearchReply, b: SearchRequest -> SearchReply)
    requires settings.tavilyKey == ""
    ensures DefaultSearch(query, settings, a) == DefaultSearch(query, settings, b)
  {
  }
}
