/**
 * Search providers (backend/app/services/search_providers.py): result
 * shaping, the bounded retry policy of the Google providers, the redirect
 * link cleaning of the scraped Google results page, the SerpAPI result
 * choice and the OpenAI provider's one-time balance check.
 *
 * HTTP replies, the parsed HTML blocks and the decoded JSON are inputs.
 */
module SearchProviders {
  import opened Wrappers
  import opened Text

  /** The value of one key of a JSON object: missing, `null`, or a string. */
  datatype Field = Absent | Null | Str(s: string) {
    /** Python truthiness of `d.get(key)`. */
    predicate Truthy() { Str? && s != "" }

    /** `d.get(key)`: a missing key reads as `None`. */
    function Get(): Field { if Absent? then Null else this }

    /** `d.get(key, default)`: the default applies only to a missing key. */
    function GetOr(default: Field): Field { if Absent? then default else this }
  }

  /** A search hit, reduced to the three keys the engines read. */
  datatype Hit = Hit(title: Field, link: Field, snippet: Field)

  /** A provider, by the class that implements it. */
  datatype Provider = GoogleWeb | SerpApi(engine: string) | GoogleCustomSearch | OpenAI

  function ProviderName(p: Provider): (name: string)
    ensures name == "openai" <==> p.OpenAI?
  {
    match p
    case GoogleWeb => "googlesearch"
    case SerpApi(engine) => "serpapi:" + engine
    case GoogleCustomSearch => "google-custom-search"
    case OpenAI => "openai"
  }

  predicate Configured(setting: Option<string>) {
    setting.Some? && setting.value != ""
  }

  /** `get_default_providers`: the web scraper first, SerpAPI after it when a key is configured. */
  function DefaultProviders(serpApiKey: Option<string>, serpApiEngine: string): (r: seq<Provider>)
    ensures |r| >= 1 && r[0] == GoogleWeb
    ensures |r| == (if Configured(serpApiKey) then 2 else 1)
    ensures Configured(serpApiKey) ==> r[1] == SerpApi(serpApiEngine)
    ensures OpenAI !in r && GoogleCustomSearch !in r
  {
    if Configured(serpApiKey) then [GoogleWeb, SerpApi(serpApiEngine)] else [GoogleWeb]
  }

  // ---------------------------------------------------------------------
  // Retry policy shared by the two Google providers
  // ---------------------------------------------------------------------

  /** What one GET attempt ended with. */
  datatype HttpOutcome<T> = Response(payload: T) | StatusError(code: int) | TransportError

  const MaxAttempts: nat := 3

  /** Failures that are retried while attempts remain: transport errors and status 429 or 503. */
  predicate Retryable<T>(o: HttpOutcome<T>) {
    o.TransportError? || (o.StatusError? && (o.code == 429 || o.code == 503))
  }

  /**
   * The `for attempt in range(3)` loop: up to three GETs, retrying only
   * retryable failures and only while the attempt index is below 2, waiting
   * 1.5 * (attempt + 1) seconds before each retry. `outcomes[k]` is what
   * attempt `k` would end with.
   */
  method GetWithRetry<T>(outcomes: seq<HttpOutcome<T>>) returns (reply: Option<T>, attempts: nat, waits: seq<real>)
    requires |outcomes| >= MaxAttempts
    ensures 1 <= attempts <= MaxAttempts
    ensures forall k :: 0 <= k < attempts - 1 ==> Retryable(outcomes[k])
    ensures attempts < MaxAttempts ==> !Retryable(outcomes[attempts - 1])
    ensures outcomes[attempts - 1].Response? ==> reply == Some(outcomes[attempts - 1].payload)
    ensures !outcomes[attempts - 1].Response? ==> reply == None
    ensures |waits| == attempts - 1
    ensures forall k :: 0 <= k < |waits| ==> waits[k] == 1.5 * (k + 1) as real
  {
    var attempt := 0;
    reply, attempts, waits := None, 1, [];
    while attempt < 3
      invariant attempt <= 2
      invariant |waits| == attempt
      invariant forall k :: 0 <= k < attempt ==> Retryable(outcomes[k])
      invariant forall k :: 0 <= k < |waits| ==> waits[k] == 1.5 * (k + 1) as real
      decreases 3 - attempt
    {
      attempts := attempt + 1;
      match outcomes[attempt]
      case Response(payload) =>
        return Some(payload), attempts, waits;
      case StatusError(code) =>
        if (code == 429 || code == 503) && attempt < 2 {
          waits := waits + [1.5 * (attempt + 1) as real];
          attempt := attempt + 1;
        } else {
          return None, attempts, waits;
        }
      case TransportError =>
        if attempt < 2 {
          waits := waits + [1.5 * (attempt + 1) as real];
          attempt := attempt + 1;
        } else {
          return None, attempts, waits;
        }
    }
  }

  // ---------------------------------------------------------------------
  // Google Custom Search
  // ---------------------------------------------------------------------

  /** One CSE item as a result: the link, the title defaulting to the link, the snippet or `None`. */
  function ShapeCseItem(item: Hit): Hit {
    Hit(item.title.GetOr(item.link), item.link, item.snippet.Get())
  }

  /** The CSE items that carry a link, shaped, in order. */
  function CseResults(items: seq<Hit>): (r: seq<Hit>)
    ensures |r| <= |items|
    ensures forall i :: 0 <= i < |r| ==> r[i].link.Truthy() && !r[i].title.Absent? && !r[i].snippet.Absent?
    ensures (forall i :: 0 <= i < |items| ==> items[i].link.Truthy()) ==>
      |r| == |items| && forall i :: 0 <= i < |r| ==> r[i] == ShapeCseItem(items[i])
  {
    if items == [] then []
    else if items[0].link.Truthy() then [ShapeCseItem(items[0])] + CseResults(items[1..])
    else CseResults(items[1..])
  }

  /** Shaping keeps the order of the items: it distributes over concatenation. */
  lemma {:induction false} CseResultsAppend(a: seq<Hit>, b: seq<Hit>)
    ensures CseResults(a + b) == CseResults(a) + CseResults(b)
  {
    if a == [] {
      assert a + b == b;
    } else {
      assert (a + b)[0] == a[0] && (a + b)[1..] == a[1..] + b;
      CseResultsAppend(a[1..], b);
    }
  }

  /** Every result is the shaping of an item that carries a link. */
  lemma {:induction false} CseResultFromLinkedItem(items: seq<Hit>, i: nat)
    requires i < |CseResults(items)|
    ensures exists j :: 0 <= j < |items| && CseResults(items)[i] == ShapeCseItem(items[j]) && items[j].link.Truthy()
  {
    if items[0].link.Truthy() && i == 0 {
    } else if items[0].link.Truthy() {
      CseResultFromLinkedItem(items[1..], i - 1);
      var j :| 0 <= j < |items[1..]| && CseResults(items[1..])[i - 1] == ShapeCseItem(items[1..][j]) && items[1..][j].link.Truthy();
      assert items[j + 1] == items[1..][j];
    } else {
      CseResultFromLinkedItem(items[1..], i);
      var j :| 0 <= j < |items[1..]| && CseResults(items[1..])[i] == ShapeCseItem(items[1..][j]) && items[1..][j].link.Truthy();
      assert items[j + 1] == items[1..][j];
    }
  }

  /** The `for item in items` loop of the CSE provider, then the `[:max_results]` cut. */
  method ShapeCse(items: seq<Hit>, maxResults: int) returns (results: seq<Hit>)
    ensures results == Slice(CseResults(items), maxResults)
  {
    var acc: seq<Hit> := [];
    for i := 0 to |items|
      invariant acc == CseResults(items[..i])
    {
      CseResultsAppend(items[..i], [items[i]]);
      assert items[..i + 1] == items[..i] + [items[i]];
      if items[i].link.Truthy() {
        acc := acc + [ShapeCseItem(items[i])];
      }
    }
    assert items[..|items|] == items;
    results := Slice(acc, maxResults);
  }

  /**
   * `GoogleCustomSearchProvider.search`: nothing and no request without both
   * credentials; otherwise the retry loop, then the shaped items of the
   * reply (an absent `items` key reads as no items).
   */
  method CustomSearch(apiKey: Option<string>, cx: Option<string>, maxResults: int, outcomes: seq<HttpOutcome<seq<Hit>>>)
    returns (results: seq<Hit>, requests: nat)
    requires |outcomes| >= MaxAttempts
    ensures !(Configured(apiKey) && Configured(cx)) ==> results == [] && requests == 0
    ensures Configured(apiKey) && Configured(cx) ==> 1 <= requests <= MaxAttempts
    ensures requests >= 1 && outcomes[requests - 1].Response? ==>
      results == Slice(CseResults(outcomes[requests - 1].payload), maxResults)
    ensures requests >= 1 && !outcomes[requests - 1].Response? ==> results == []
  {
    if !(Configured(apiKey) && Configured(cx)) {
      return [], 0;
    }
    var reply, attempts, waits := GetWithRetry(outcomes);
    requests := attempts;
    if reply.None? {
      return [], requests;
    }
    results := ShapeCse(reply.value, maxResults);
  }

  // ---------------------------------------------------------------------
  // Google web search (scraped results page)
  // ---------------------------------------------------------------------

  /** A `+` in a query string stands for a space. Percent-escapes are not decoded. */
  function PlusToSpace(s: string): (r: string)
    ensures |r| == |s|
    ensures '+' !in s ==> r == s
  {
    if s == [] then []
    else [if s[0] == '+' then ' ' else s[0]] + PlusToSpace(s[1..])
  }

  /** The query component of a URL: after the first `?`, before the first `#`. */
  function UrlQuery(url: string): string {
    Join(Split(Split(url, '#')[0], '?')[1..], "?")
  }

  /**
   * `parse_qs(query).get(name, [None])[0]`: the first non-empty value given
   * to `name` among the `&`-separated fields; fields without `=` or with an
   * empty value are dropped.
   */
  function FirstQueryValue(fields: seq<string>, name: string): (r: Option<string>)
    ensures r.Some? ==> r.value != ""
  {
    if fields == [] then None
    else
      var nameValue := Split(fields[0], '=');
      var value := Join(nameValue[1..], "=");
      if |nameValue| >= 2 && PlusToSpace(nameValue[0]) == name && value != "" then Some(PlusToSpace(value))
      else FirstQueryValue(fields[1..], name)
  }

  /**
   * `_clean_link`: drops a missing or empty href and image links, unwraps a
   * Google redirect `/url?...q=target...` to its target, keeps anything else.
   */
  function CleanLink(url: Option<string>): (r: Option<string>)
    ensures url.None? || url.value == "" ==> r.None?
    ensures r.Some? ==> r.value != ""
    ensures url.Some? && StartsWith(url.value, "/imgres") ==> r.None?
    ensures url.Some? && url.value != "" && !StartsWith(url.value, "/url") && !StartsWith(url.value, "/imgres") ==> r == url
  {
    if url.None? || url.value == "" then None
    else if StartsWith(url.value, "/url") then
      ImageLinksAreNotRedirects(url.value);
      FirstQueryValue(Split(UrlQuery(url.value), '&'), "q")
    else if StartsWith(url.value, "/imgres") then None
    else url
  }

  lemma ImageLinksAreNotRedirects(s: string)
    ensures !(StartsWith(s, "/imgres") && StartsWith(s, "/url"))
  {
    if StartsWith(s, "/imgres") {
      assert s[1] == 'i';
    }
  }

  /**
   * Cleaning a Google redirect link gives back the target it wraps, when the
   * target needs no escaping.
   */
  lemma UnwrapRedirect(target: string, rest: string)
    requires target != ""
    requires '&' !in target && '#' !in target && '+' !in target && '%' !in target
    requires '#' !in rest
    ensures CleanLink(Some("/url?q=" + target + "&" + rest)) == Some(target)
  {
    var url := "/url?q=" + target + "&" + rest;
    assert StartsWith(url, "/url");
    RedirectQuery(target, rest);
    RedirectTarget(target, rest);
  }

  /** The query string of a Google redirect link. */
  lemma RedirectQuery(target: string, rest: string)
    requires '#' !in target && '#' !in rest
    ensures UrlQuery("/url?q=" + target + "&" + rest) == ("q=" + target) + ['&'] + rest
  {
    var url := "/url?q=" + target + "&" + rest;
    SplitNoSep(url, '#');
    assert url == "/url" + ['?'] + ("q=" + target + "&" + rest);
    SplitAtSep("/url", "q=" + target + "&" + rest, '?');
    JoinSplit("q=" + target + "&" + rest, '?');
  }

  /** The `q` field of that query string is the target. */
  lemma RedirectTarget(target: string, rest: string)
    requires target != ""
    requires '&' !in target && '+' !in target
    ensures FirstQueryValue(Split(("q=" + target) + ['&'] + rest, '&'), "q") == Some(target)
  {
    SplitAtSep("q=" + target, rest, '&');
    assert "q=" + target == "q" + ['='] + target;
    SplitAtSep("q", target, '=');
    JoinSplit(target, '=');
    assert PlusToSpace("q") == "q";
  }

  /** One `div.g` block of the results page, as the HTML parser sees it. */
  datatype Block = Block(hasAnchor: bool, href: Option<string>, title: Option<string>, snippet: Option<string>)

  /** The result a block yields, if any: it needs an anchor, a title and a link that survives cleaning. */
  function BlockResult(b: Block): (r: Option<Hit>)
    ensures r.Some? ==> b.hasAnchor && b.title.Some? && r.value.link.Truthy()
  {
    if !b.hasAnchor || b.title.None? then None
    else
      var href := CleanLink(b.href);
      if href.None? then None
      else Some(Hit(Str(b.title.value), Str(href.value), if b.snippet.Some? then Str(b.snippet.value) else Null))
  }

  /** All results the blocks yield, in page order. */
  function WebResults(blocks: seq<Block>): (r: seq<Hit>)
    ensures |r| <= |blocks|
    ensures forall i :: 0 <= i < |r| ==> r[i].link.Truthy()
  {
    if blocks == [] then []
    else
      var first := BlockResult(blocks[0]);
      (if first.Some? then [first.value] else []) + WebResults(blocks[1..])
  }

  lemma {:induction false} WebResultsAppend(a: seq<Block>, b: seq<Block>)
    ensures WebResults(a + b) == WebResults(a) + WebResults(b)
  {
    if a == [] {
      assert a + b == b;
    } else {
      assert (a + b)[0] == a[0] && (a + b)[1..] == a[1..] + b;
      WebResultsAppend(a[1..], b);
    }
  }

  /**
   * The block loop of `GoogleWebSearchProvider.search`: collects results and
   * stops as soon as `max_results` are collected, checking only after an
   * append (so a non-positive limit still lets one result through).
   */
  method ScrapeResults(blocks: seq<Block>, maxResults: int) returns (results: seq<Hit>)
    ensures results == Take(WebResults(blocks), if maxResults >= 1 then maxResults else 1)
  {
    var limit: nat := if maxResults >= 1 then maxResults else 1;
    results := [];
    var i := 0;
    while i < |blocks|
      invariant 0 <= i <= |blocks|
      invariant results == WebResults(blocks[..i]) && |results| < limit
    {
      WebResultsAppend(blocks[..i], [blocks[i]]);
      assert blocks[..i + 1] == blocks[..i] + [blocks[i]];
      var r := BlockResult(blocks[i]);
      i := i + 1;
      if r.Some? {
        results := results + [r.value];
        if |results| >= maxResults {
          WebResultsAppend(blocks[..i], blocks[i..]);
          assert blocks[..i] + blocks[i..] == blocks;
          TakePrefix(results, WebResults(blocks[i..]), limit);
          return;
        }
      }
    }
    assert blocks[..i] == blocks;
  }

  /** `GoogleWebSearchProvider.search`: the retry loop, then the block loop over the page it fetched. */
  method WebSearch(maxResults: int, outcomes: seq<HttpOutcome<seq<Block>>>) returns (results: seq<Hit>, requests: nat)
    requires |outcomes| >= MaxAttempts
    ensures 1 <= requests <= MaxAttempts
    ensures outcomes[requests - 1].Response? ==>
      results == Take(WebResults(outcomes[requests - 1].payload), if maxResults >= 1 then maxResults else 1)
    ensures !outcomes[requests - 1].Response? ==> results == []
    ensures forall i :: 0 <= i < |results| ==> results[i].link.Truthy()
  {
    var reply, attempts, waits := GetWithRetry(outcomes);
    requests := attempts;
    if reply.None? {
      return [], requests;
    }
    results := ScrapeResults(reply.value, maxResults);
  }

  // ---------------------------------------------------------------------
  // SerpAPI
  // ---------------------------------------------------------------------

  /** A SerpAPI reply: failed, or a payload with or without each result list. */
  datatype SerpReply = SerpFailed | SerpPayload(organic: Option<seq<Hit>>, news: Option<seq<Hit>>)

  /**
   * `SerpAPISearchProvider.search`: without a key, no request and no results;
   * otherwise the organic results, else the news results, cut to
   * `max_results`; a failed request or a payload with neither gives nothing.
   */
  function SerpResults(apiKey: Option<string>, reply: SerpReply, maxResults: int): (r: (seq<Hit>, bool))
    ensures r.1 <==> Configured(apiKey)
    ensures !Configured(apiKey) || reply.SerpFailed? ==> r.0 == []
    ensures Configured(apiKey) && reply.SerpPayload? && reply.organic.Some? ==> r.0 == Slice(reply.organic.value, maxResults)
    ensures Configured(apiKey) && reply.SerpPayload? && reply.organic.None? && reply.news.Some? ==> r.0 == Slice(reply.news.value, maxResults)
    ensures reply.SerpPayload? && reply.organic.None? && reply.news.None? ==> r.0 == []
  {
    if !Configured(apiKey) then ([], false)
    else match reply
      case SerpFailed => ([], true)
      case SerpPayload(organic, news) =>
        if organic.Some? then (Slice(organic.value, maxResults), true)
        else if news.Some? then (Slice(news.value, maxResults), true)
        else ([], true)
  }

  // ---------------------------------------------------------------------
  // OpenAI fallback provider
  // ---------------------------------------------------------------------

  /** One element of the JSON array the model answers with. */
  datatype AnswerItem = AnswerItem(url: Field, link: Field, title: Field, summary: Field)

  /** The decoded answer: an array of items, or some other JSON value. */
  datatype Answer = AnswerList(items: seq<AnswerItem>) | AnswerOther

  /** `item.get("url") or item.get("link")`. */
  function ItemUrl(item: AnswerItem): Field {
    if item.url.Truthy() then item.url else item.link.Get()
  }

  function ShapeAnswerItem(item: AnswerItem): Hit {
    Hit(item.title.GetOr(ItemUrl(item)), ItemUrl(item), item.summary.Get())
  }

  /** The answer items that carry a `url` or `link`, shaped; a non-array answer gives nothing. */
  function AnswerResults(answer: Answer): (r: seq<Hit>)
    ensures answer.AnswerOther? ==> r == []
    ensures forall i :: 0 <= i < |r| ==> r[i].link.Truthy()
  {
    if answer.AnswerOther? then [] else ItemResults(answer.items)
  }

  function ItemResults(items: seq<AnswerItem>): (r: seq<Hit>)
    ensures |r| <= |items|
    ensures forall i :: 0 <= i < |r| ==> r[i].link.Truthy()
  {
    if items == [] then []
    else if ItemUrl(items[0]).Truthy() then [ShapeAnswerItem(items[0])] + ItemResults(items[1..])
    else ItemResults(items[1..])
  }

  /** An item with a `url` is linked to it, whatever its `link` says; one with only a `link` to that. */
  lemma UrlPreferredOverLink(item: AnswerItem)
    ensures item.url.Truthy() ==> ItemResults([item]) == [Hit(item.title.GetOr(item.url), item.url, item.summary.Get())]
    ensures !item.url.Truthy() && item.link.Truthy() ==> ItemResults([item]) == [Hit(item.title.GetOr(item.link), item.link, item.summary.Get())]
    ensures !item.url.Truthy() && !item.link.Truthy() ==> ItemResults([item]) == []
  {
    assert [item][1..] == [];
  }

  /** What the balance endpoint answered: a failure, or a payload whose `total_available` may be a number. */
  datatype BalanceReply = BalanceFailed | BalancePayload(totalAvailable: Option<real>)

  class OpenAIProvider {
    const apiKey: Option<string>
    const hasClient: bool
    const balanceThreshold: Option<real>
    var balanceChecked: bool
    /** How many balance requests this instance has issued. */
    var balanceRequests: nat

    ghost predicate Valid()
      reads this
    {
      && hasClient == Configured(apiKey)
      && balanceRequests <= 1
      && (!balanceChecked ==> balanceRequests == 0)
    }

    constructor (apiKey: Option<string>, balanceThreshold: Option<real>)
      ensures Valid()
      ensures this.apiKey == apiKey && this.balanceThreshold == balanceThreshold
      ensures !balanceChecked && balanceRequests == 0
    {
      this.apiKey := apiKey;
      this.hasClient := Configured(apiKey);
      this.balanceThreshold := balanceThreshold;
      balanceChecked := false;
      balanceRequests := 0;
    }

    /**
     * `_maybe_warn_low_balance`: at most one balance request per instance,
     * because the flag is raised before the request; warns when the
     * reported balance is at or below the threshold.
     */
    method MaybeWarnLowBalance(reply: BalanceReply) returns (warned: bool)
      requires Valid()
      modifies this
      ensures Valid()
      ensures balanceRequests == (if !old(balanceChecked) && balanceThreshold.Some? && Configured(apiKey) then 1 else old(balanceRequests))
      ensures balanceChecked == (old(balanceChecked) || (balanceThreshold.Some? && Configured(apiKey)))
      ensures warned <==> (balanceRequests > old(balanceRequests) && reply.BalancePayload?
                           && reply.totalAvailable.Some? && reply.totalAvailable.value <= balanceThreshold.value)
    {
      warned := false;
      if balanceChecked || balanceThreshold.None? {
        return;
      }
      if !Configured(apiKey) {
        return;
      }
      balanceChecked := true;
      balanceRequests := balanceRequests + 1;
      match reply
      case BalanceFailed =>
      case BalancePayload(available) =>
        warned := available.Some? && available.value <= balanceThreshold.value;
    }

    /**
     * `OpenAIProvider.search`: nothing and no request without a client;
     * otherwise the balance check, then the answer text, decoded by
     * `decode` (`None` for text that is not JSON), shaped and cut to
     * `max_results`. Empty or undecodable text gives nothing.
     */
    method Search(maxResults: int, balance: BalanceReply, content: Option<string>, decode: string -> Option<Answer>)
      returns (results: seq<Hit>, completionRequested: bool)
      requires Valid()
      modifies this
      ensures Valid()
      ensures completionRequested <==> hasClient
      ensures !hasClient ==> results == [] && balanceRequests == old(balanceRequests) && balanceChecked == old(balanceChecked)
      ensures hasClient ==> balanceChecked == (old(balanceChecked) || balanceThreshold.Some?)
      ensures hasClient ==> balanceRequests == (if !old(balanceChecked) && balanceThreshold.Some? then 1 else old(balanceRequests))
      ensures (content.None? || content.value == "") ==> results == []
      ensures hasClient && content.Some? && content.value != "" && decode(content.value).Some? ==>
        results == Slice(AnswerResults(decode(content.value).value), maxResults)
      ensures content.Some? && content.value != "" && decode(content.value).None? ==> results == []
    {
      if !hasClient {
        return [], false;
      }
      var warned := MaybeWarnLowBalance(balance);
      completionRequested := true;
      var output := if content.Some? then content.value else "";
      if output == "" {
        return [], completionRequested;
      }
      var data := decode(output);
      if data.None? {
        return [], completionRequested;
      }
      results := Slice(AnswerResults(data.value), maxResults);
    }
  }

  /** A second search never issues a second balance request. */
  method BalanceCheckedOnce(apiKey: Option<string>, threshold: Option<real>, first: BalanceReply, second: BalanceReply)
    returns (requests: nat)
    ensures requests <= 1
    ensures requests == 1 <==> Configured(apiKey) && threshold.Some?
  {
    var provider := new OpenAIProvider(apiKey, threshold);
    var r1, c1 := provider.Search(5, first, None, _ => None);
    var r2, c2 := provider.Search(5, second, None, _ => None);
    requests := provider.balanceRequests;
  }
}
