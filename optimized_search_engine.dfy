/**
 * The staged manufacturer search (backend/app/services/optimized_search_engine.py,
 * `OptimizedPartSearchEngine`). Stage 1 asks the web providers and applies
 * heuristics to result metadata and page text; stage 2 looks for datasheet
 * URLs; stage 3 downloads those documents one by one and asks the AI model
 * to read them. Each run records one status per stage.
 *
 * Everything outside the engine is a parameter bundled in `World`: the
 * providers' replies, page and document downloads, the PDF and HTML text
 * extractors, the AI model, `urlparse(...).hostname`,
 * `normalize_manufacturer_name` (`None` when it raises), the known
 * manufacturer list, the domain table and the fuzzy scorer.
 */
module OptimizedSearchEngine {
  import opened Wrappers
  import opened Text
  import opened SearchProviders
  import opened Parts
  import DocumentParser
  import SearchEngine

  const DatasheetKeywords: seq<string> := ["datasheet", "pdf", "specification", "spec sheet"]
  const DocumentExtensions: seq<string> := [".pdf", ".doc", ".docx"]
  const MaxTextSizeForAi: nat := 3000
  const MaxDocumentSize: nat := 10 * 1024 * 1024
  /** Stage 1 stops collecting results once it holds this many. */
  const WebHitLimit: nat := 10
  /** Stage 1 fetches at most this many result pages. */
  const PageLimit: nat := 5
  /** Stage 1 looks at this many characters of a fetched page. */
  const PageSampleSize: nat := 3000
  /** Stage 2 stops collecting document URLs once it holds this many. */
  const DocUrlLimit: nat := 5
  /** Stage 2 hands at most this many documents to stage 3. */
  const MaxDocuments: nat := 3

  /** `SearchCandidate`. */
  datatype SearchCandidate = SearchCandidate(
    manufacturer: string,
    confidence: real,
    sourceUrl: string,
    debugInfo: string,
    aliasUsed: Option<string>)

  /** The `confidence` entry of the AI reply: absent, a number, or a value `float()` rejects. */
  datatype ReplyConfidence = Missing | Number(value: real) | NotANumber

  /** The JSON object the AI model returns. */
  datatype AiReply = AiReply(manufacturer: Field, confidence: ReplyConfidence)

  /**
   * The outside world of one search. `search(p, q, n)` is `None` when the
   * provider raises; `fetchPage` and `ai` are `None` on any failure
   * (HTTP error, empty or unparsable reply); `normalize` is `None` when
   * `normalize_manufacturer_name` raises.
   */
  datatype World = World(
    providers: seq<Provider>,
    search: (Provider, string, nat) -> Option<seq<Hit>>,
    fetchPage: string -> Option<string>,
    fetchBytes: string -> Option<DocumentParser.Download>,
    readPdf: seq<DocumentParser.Byte> -> Option<seq<Option<string>>>,
    htmlText: seq<DocumentParser.Byte> -> string,
    hasOpenAI: bool,
    ai: string -> Option<AiReply>,
    hostname: string -> Option<string>,
    normalize: string -> Option<string>,
    knownManufacturers: seq<string>,
    domainHints: seq<(string, string)>,
    wratio: (string, string) -> int)

  // ---------------------------------------------------------------------
  // Match evaluation
  // ---------------------------------------------------------------------

  /** `_evaluate_match`: how the resolved manufacturer compares with the submitted one. */
  function EvaluateMatch(submitted: Option<string>, resolved: Option<string>, wratio: (string, string) -> int)
    : (r: (Option<MatchStatus>, Option<real>))
    ensures r.0.None? <==> !Truthy(submitted)
    ensures r.0 == Some(Pending) <==> Truthy(submitted) && !Truthy(resolved)
    ensures r.1.Some? <==> Truthy(submitted) && Truthy(resolved)
    ensures r.0 == Some(Matched) <==> Truthy(submitted) && Truthy(resolved) && wratio(submitted.value, resolved.value) >= 70
    ensures r.0 == Some(Mismatch) <==> Truthy(submitted) && Truthy(resolved) && wratio(submitted.value, resolved.value) < 70
    ensures r.1.Some? ==> r.1.value == wratio(submitted.value, resolved.value) as real / 100.0
  {
    if !Truthy(submitted) then (None, None)
    else if !Truthy(resolved) then (Some(Pending), None)
    else
      var score := wratio(submitted.value, resolved.value);
      (Some(if score >= 70 then Matched else Mismatch), Some(score as real / 100.0))
  }

  // ---------------------------------------------------------------------
  // Manufacturer from the domain
  // ---------------------------------------------------------------------

  predicate DomainMatches(host: string, domain: string) {
    host == domain || EndsWith(host, "." + domain)
  }

  /** The manufacturer of the first domain entry the (lower-cased) host is or lies under. */
  function FirstDomainHit(host: string, hints: seq<(string, string)>): (r: Option<string>)
    ensures r.None? <==> forall i :: 0 <= i < |hints| ==> !DomainMatches(host, hints[i].0)
  {
    if hints == [] then None
    else if DomainMatches(host, hints[0].0) then Some(hints[0].1)
    else
      assert forall i :: 1 <= i < |hints| ==> hints[i] == hints[1..][i - 1];
      FirstDomainHit(host, hints[1..])
  }

  /** The first matching entry, in table order, decides. */
  lemma {:induction false} FirstDomainHitIsFirst(host: string, hints: seq<(string, string)>, i: nat)
    requires i < |hints| && DomainMatches(host, hints[i].0)
    requires forall j :: 0 <= j < i ==> !DomainMatches(host, hints[j].0)
    ensures FirstDomainHit(host, hints) == Some(hints[i].1)
  {
    if i > 0 {
      assert hints[1..][i - 1] == hints[i];
      FirstDomainHitIsFirst(host, hints[1..], i - 1);
    }
  }

  /** `_get_manufacturer_from_domain`, given `urlparse(url).hostname`. */
  function ManufacturerFromDomain(hostname: Option<string>, hints: seq<(string, string)>): (r: Option<string>)
    ensures r.Some? ==> hostname.Some? && hostname.value != ""
    ensures r.Some? <==> hostname.Some? && hostname.value != "" &&
                         exists i :: 0 <= i < |hints| && DomainMatches(Lower(hostname.value), hints[i].0)
  {
    if hostname.None? || hostname.value == "" then None
    else FirstDomainHit(Lower(hostname.value), hints)
  }

  // ---------------------------------------------------------------------
  // Text heuristics
  // ---------------------------------------------------------------------

  const PartNumberSeparators: set<char> := {' ', '-', '_'}

  /** A known manufacturer found together with the part number, and how the number was found. */
  datatype KnownHit = ExactHit(name: string) | NormalizedHit(name: string)

  /** The loop over `KNOWN_MANUFACTURERS`: the first mentioned name for which a part-number test passes. */
  function KnownTier(known: seq<string>, textLower: string, exact: bool, normalized: bool): Option<KnownHit> {
    if known == [] then None
    else if Contains(textLower, Lower(known[0])) && exact then Some(ExactHit(known[0]))
    else if Contains(textLower, Lower(known[0])) && normalized then Some(NormalizedHit(known[0]))
    else KnownTier(known[1..], textLower, exact, normalized)
  }

  /** Without a part-number match no known manufacturer qualifies. */
  lemma {:induction false} KnownTierNeedsPartNumber(known: seq<string>, textLower: string)
    ensures KnownTier(known, textLower, false, false) == None
  {
    if known != [] {
      KnownTierNeedsPartNumber(known[1..], textLower);
    }
  }

  /**
   * The part-number tests do not depend on the manufacturer, so the first
   * known name the text mentions decides the tier.
   */
  lemma {:induction false} FirstMentionedDecides(known: seq<string>, textLower: string, exact: bool, normalized: bool, i: nat)
    requires i < |known| && Contains(textLower, Lower(known[i]))
    requires forall j :: 0 <= j < i ==> !Contains(textLower, Lower(known[j]))
    ensures KnownTier(known, textLower, exact, normalized) ==
            if exact then Some(ExactHit(known[i]))
            else if normalized then Some(NormalizedHit(known[i]))
            else None
  {
    if i > 0 {
      assert known[1..][i - 1] == known[i];
      FirstMentionedDecides(known[1..], textLower, exact, normalized, i - 1);
    } else if !exact && !normalized {
      KnownTierNeedsPartNumber(known[1..], textLower);
    }
  }

  /** A text that mentions no known manufacturer gives no known tier. */
  lemma {:induction false} NoKnownMentioned(known: seq<string>, textLower: string, exact: bool, normalized: bool)
    requires forall j :: 0 <= j < |known| ==> !Contains(textLower, Lower(known[j]))
    ensures KnownTier(known, textLower, exact, normalized) == None
  {
    if known != [] {
      assert forall j :: 0 <= j < |known[1..]| ==> known[1..][j] == known[j + 1];
      NoKnownMentioned(known[1..], textLower, exact, normalized);
    }
  }

  /** The part number exactly as written occurs in the lower-cased text. */
  predicate ExactPartMatch(textLower: string, part: PartQuery) {
    Contains(textLower, Lower(part.partNumber))
  }

  /** The part number occurs once spaces, `-` and `_` are removed from both. */
  predicate NormalizedPartMatch(textLower: string, part: PartQuery) {
    Contains(RemoveChars(textLower, PartNumberSeparators), Lower(RemoveChars(part.partNumber, PartNumberSeparators)))
  }

  /** The test of the hint tier, which removes only spaces and `-` from the text. */
  predicate HintPartMatch(textLower: string, part: PartQuery) {
    ExactPartMatch(textLower, part) ||
    Contains(RemoveChars(textLower, {' ', '-'}), Lower(RemoveChars(part.partNumber, PartNumberSeparators)))
  }

  /** `_analyze_text_heuristically`. */
  function AnalyzeText(text: string, part: PartQuery, url: string, known: seq<string>): (r: Option<SearchCandidate>)
    ensures r.Some? ==> r.value.sourceUrl == url && r.value.confidence >= 0.80
    ensures r.Some? && r.value.confidence == 0.90 ==>
      ExactPartMatch(Lower(text), part) && r.value.manufacturer in known &&
      Contains(Lower(text), Lower(r.value.manufacturer)) && r.value.aliasUsed == part.manufacturerHint
    ensures r.Some? && r.value.confidence == 0.80 ==>
      Truthy(part.manufacturerHint) && r.value.manufacturer == part.manufacturerHint.value &&
      r.value.aliasUsed == part.manufacturerHint &&
      Contains(Lower(text), Lower(part.manufacturerHint.value)) && HintPartMatch(Lower(text), part)
    ensures r.Some? && r.value.confidence == 0.85 ==>
      !ExactPartMatch(Lower(text), part) && NormalizedPartMatch(Lower(text), part) && r.value.manufacturer in known &&
      Contains(Lower(text), Lower(r.value.manufacturer)) && r.value.aliasUsed == part.manufacturerHint
    ensures r.Some? ==> r.value.confidence == 0.90 || r.value.confidence == 0.85 || r.value.confidence == 0.80
  {
    var textLower := Lower(text);
    var tier := KnownTier(known, textLower, ExactPartMatch(textLower, part), NormalizedPartMatch(textLower, part));
    KnownTierSound(known, textLower, ExactPartMatch(textLower, part), NormalizedPartMatch(textLower, part));
    match tier
    case Some(ExactHit(name)) =>
      Some(SearchCandidate(name, 0.90, url, "Found '" + name + "' with exact part number match", part.manufacturerHint))
    case Some(NormalizedHit(name)) =>
      Some(SearchCandidate(name, 0.85, url, "Found '" + name + "' with normalized part number match", part.manufacturerHint))
    case None =>
      if Truthy(part.manufacturerHint) && Contains(textLower, Lower(part.manufacturerHint.value)) && HintPartMatch(textLower, part) then
        Some(SearchCandidate(part.manufacturerHint.value, 0.80, url,
          "Found manufacturer hint '" + part.manufacturerHint.value + "' with part number", part.manufacturerHint))
      else None
  }

  /** What a known-tier hit guarantees. */
  lemma {:induction false} KnownTierSound(known: seq<string>, textLower: string, exact: bool, normalized: bool)
    ensures match KnownTier(known, textLower, exact, normalized)
            case Some(ExactHit(name)) => exact && name in known && Contains(textLower, Lower(name))
            case Some(NormalizedHit(name)) => !exact && normalized && name in known && Contains(textLower, Lower(name))
            case None => true
  {
    if known != [] && !(Contains(textLower, Lower(known[0])) && (exact || normalized)) {
      KnownTierSound(known[1..], textLower, exact, normalized);
    }
  }

  /**
   * The hint tier is reached only when no known manufacturer qualifies:
   * none is mentioned, or the part number matches neither way.
   */
  lemma HintTierOnlyWithoutKnownMatch(text: string, part: PartQuery, url: string, known: seq<string>)
    requires AnalyzeText(text, part, url, known).Some? && AnalyzeText(text, part, url, known).value.confidence == 0.80
    ensures (forall j :: 0 <= j < |known| ==> !Contains(Lower(text), Lower(known[j]))) ||
            (!ExactPartMatch(Lower(text), part) && !NormalizedPartMatch(Lower(text), part))
  {
    var textLower := Lower(text);
    var exact := ExactPartMatch(textLower, part);
    var normalized := NormalizedPartMatch(textLower, part);
    if exact || normalized {
      if j :| 0 <= j < |known| && Contains(textLower, Lower(known[j])) {
        var i := FirstMentioned(known, textLower, j);
        FirstMentionedDecides(known, textLower, exact, normalized, i);
      }
    }
  }

  /** The position of the first known name the text mentions. */
  lemma {:induction false} FirstMentioned(known: seq<string>, textLower: string, j: nat) returns (i: nat)
    requires j < |known| && Contains(textLower, Lower(known[j]))
    ensures i <= j && Contains(textLower, Lower(known[i]))
    ensures forall k :: 0 <= k < i ==> !Contains(textLower, Lower(known[k]))
  {
    i := j;
    while i > 0 && exists k :: 0 <= k < i && Contains(textLower, Lower(known[k]))
      invariant i <= j && Contains(textLower, Lower(known[i]))
      decreases i
    {
      var k :| 0 <= k < i && Contains(textLower, Lower(known[k]));
      i := k;
    }
  }

  /** The first known manufacturer mentioned wins when the part number matches exactly. */
  lemma FirstKnownWins(text: string, part: PartQuery, url: string, known: seq<string>, i: nat)
    requires i < |known| && Contains(Lower(text), Lower(known[i]))
    requires forall j :: 0 <= j < i ==> !Contains(Lower(text), Lower(known[j]))
    requires ExactPartMatch(Lower(text), part)
    ensures AnalyzeText(text, part, url, known) ==
      Some(SearchCandidate(known[i], 0.90, url, "Found '" + known[i] + "' with exact part number match", part.manufacturerHint))
  {
    FirstMentionedDecides(known, Lower(text), true, NormalizedPartMatch(Lower(text), part), i);
  }

  /** Without an exact match, a normalized match on the first known manufacturer mentioned gives the 0.85 candidate. */
  lemma FirstKnownWinsNormalized(text: string, part: PartQuery, url: string, known: seq<string>, i: nat)
    requires i < |known| && Contains(Lower(text), Lower(known[i]))
    requires forall j :: 0 <= j < i ==> !Contains(Lower(text), Lower(known[j]))
    requires !ExactPartMatch(Lower(text), part) && NormalizedPartMatch(Lower(text), part)
    ensures AnalyzeText(text, part, url, known) ==
      Some(SearchCandidate(known[i], 0.85, url, "Found '" + known[i] + "' with normalized part number match", part.manufacturerHint))
  {
    FirstMentionedDecides(known, Lower(text), false, true, i);
  }

  /**
   * There is no candidate exactly when no known manufacturer qualifies
   * (none is mentioned, or the part number matches neither way) and the
   * hint tier's test fails too.
   */
  lemma NoCandidate(text: string, part: PartQuery, url: string, known: seq<string>)
    ensures AnalyzeText(text, part, url, known).None? <==>
      ((forall j :: 0 <= j < |known| ==> !Contains(Lower(text), Lower(known[j]))) ||
       (!ExactPartMatch(Lower(text), part) && !NormalizedPartMatch(Lower(text), part))) &&
      !(Truthy(part.manufacturerHint) && Contains(Lower(text), Lower(part.manufacturerHint.value)) &&
        HintPartMatch(Lower(text), part))
  {
    var textLower := Lower(text);
    var exact := ExactPartMatch(textLower, part);
    var normalized := NormalizedPartMatch(textLower, part);
    if j :| 0 <= j < |known| && Contains(textLower, Lower(known[j])) {
      if exact || normalized {
        var i := FirstMentioned(known, textLower, j);
        FirstMentionedDecides(known, textLower, exact, normalized, i);
      } else {
        KnownTierNeedsPartNumber(known, textLower);
      }
    } else {
      NoKnownMentioned(known, textLower, exact, normalized);
    }
  }

  // ---------------------------------------------------------------------
  // Documents
  // ---------------------------------------------------------------------

  /** Some keyword occurs in the lower-cased URL or title. */
  function HasKeyword(keywords: seq<string>, urlLower: string, titleLower: string): (b: bool)
    ensures b <==> exists i :: 0 <= i < |keywords| && (Contains(urlLower, keywords[i]) || Contains(titleLower, keywords[i]))
  {
    if keywords == [] then false
    else if Contains(urlLower, keywords[0]) || Contains(titleLower, keywords[0]) then true
    else
      assert forall i :: 1 <= i < |keywords| ==> keywords[i] == keywords[1..][i - 1];
      HasKeyword(keywords[1..], urlLower, titleLower)
  }

  /** `_is_likely_document`. */
  function IsLikelyDocument(url: string, title: string): (b: bool)
    ensures b <==>
      (exists i :: 0 <= i < |DocumentExtensions| && EndsWith(Lower(url), DocumentExtensions[i])) ||
      (exists i :: 0 <= i < |DatasheetKeywords| && (Contains(Lower(url), DatasheetKeywords[i]) || Contains(Lower(title), DatasheetKeywords[i])))
  {
    var urlLower := Lower(url);
    assert DocumentExtensions[0] == ".pdf" && DocumentExtensions[1] == ".doc" && DocumentExtensions[2] == ".docx";
    EndsWith(urlLower, ".pdf") || EndsWith(urlLower, ".doc") || EndsWith(urlLower, ".docx") ||
    HasKeyword(DatasheetKeywords, urlLower, Lower(title))
  }

  // ---------------------------------------------------------------------
  // Queries
  // ---------------------------------------------------------------------

  /** The providers used for web and document search: all but OpenAI. */
  function WebProviders(providers: seq<Provider>): (r: seq<Provider>)
    ensures forall p :: p in r <==> p in providers && !p.OpenAI?
  {
    Filter(providers, (p: Provider) => ProviderName(p) != "openai")
  }

  /** The stage-1 queries, given the Latin form of a truthy hint. */
  function SimpleQueries(part: PartQuery, latin: Option<string>): (r: seq<string>)
    ensures 1 <= |r| <= 3 && r[|r| - 1] == part.partNumber
    ensures Truthy(part.manufacturerHint) ==> r[0] == part.partNumber + " " + part.manufacturerHint.value
    ensures |r| == 3 <==> Truthy(part.manufacturerHint) && latin.Some? && latin.value != part.manufacturerHint.value
    ensures |r| == 3 ==> r[1] == part.partNumber + " " + latin.value
  {
    if Truthy(part.manufacturerHint) then
      var hint := part.manufacturerHint.value;
      [part.partNumber + " " + hint] +
      (if latin.Some? && latin.value != hint then [part.partNumber + " " + latin.value] else []) +
      [part.partNumber]
    else [part.partNumber]
  }

  /** The stage-2 queries with a hint: per keyword, the hint form and, if it differs, the Latin form. */
  function HintedDocumentQueries(partNumber: string, hint: string, latin: string, keywords: seq<string>): (r: seq<string>)
    ensures |r| == (if latin != hint then 2 * |keywords| else |keywords|)
    ensures forall i :: 0 <= i < |keywords| ==>
      r[if latin != hint then 2 * i else i] == partNumber + " " + hint + " " + keywords[i]
    ensures latin != hint ==> forall i :: 0 <= i < |keywords| ==> r[2 * i + 1] == partNumber + " " + latin + " " + keywords[i]
  {
    if keywords == [] then []
    else
      [partNumber + " " + hint + " " + keywords[0]] +
      (if latin != hint then [partNumber + " " + latin + " " + keywords[0]] else []) +
      HintedDocumentQueries(partNumber, hint, latin, keywords[1..])
  }

  /** The stage-2 queries, given the Latin form of a truthy hint. */
  function DocumentQueries(part: PartQuery, latin: Option<string>): (r: seq<string>)
    requires Truthy(part.manufacturerHint) ==> latin.Some?
    ensures !Truthy(part.manufacturerHint) ==>
      |r| == |DatasheetKeywords| && forall i :: 0 <= i < |r| ==> r[i] == part.partNumber + " " + DatasheetKeywords[i]
  {
    if Truthy(part.manufacturerHint) then
      HintedDocumentQueries(part.partNumber, part.manufacturerHint.value, latin.value, DatasheetKeywords)
    else
      seq(|DatasheetKeywords|, i requires 0 <= i < |DatasheetKeywords| => part.partNumber + " " + DatasheetKeywords[i])
  }

  // ---------------------------------------------------------------------
  // Stage 1: simple web search
  // ---------------------------------------------------------------------

  /**
   * A reply stage 1 keeps: the provider did not raise, and the debug line
   * that slices the first result's title did not raise on a null title.
   */
  predicate UsableReply(reply: Option<seq<Hit>>) {
    reply.Some? && !(|reply.value| > 0 && reply.value[0].title.Null?)
  }

  /** The queries of one provider, starting from the results `acc` already collected. */
  function GatherQueries(world: World, p: Provider, queries: seq<string>, acc: seq<Hit>): seq<Hit> {
    if queries == [] then acc
    else
      var reply := world.search(p, queries[0], 5);
      if UsableReply(reply) then
        var more := acc + reply.value;
        if |more| >= WebHitLimit then more else GatherQueries(world, p, queries[1..], more)
      else GatherQueries(world, p, queries[1..], acc)
  }

  /** All providers in order, each with every query, until ten results are held. */
  function GatherHits(world: World, providers: seq<Provider>, queries: seq<string>, acc: seq<Hit>): seq<Hit> {
    if providers == [] then acc
    else
      var more := GatherQueries(world, providers[0], queries, acc);
      if |more| >= WebHitLimit then more else GatherHits(world, providers[1..], queries, more)
  }

  /** Gathering only ever appends to what is already held. */
  lemma {:induction false} GatherExtends(world: World, providers: seq<Provider>, queries: seq<string>, acc: seq<Hit>)
    ensures acc <= GatherHits(world, providers, queries, acc)
  {
    if providers != [] {
      GatherQueriesExtends(world, providers[0], queries, acc);
      var more := GatherQueries(world, providers[0], queries, acc);
      if |more| < WebHitLimit {
        GatherExtends(world, providers[1..], queries, more);
      }
    }
  }

  lemma {:induction false} GatherQueriesExtends(world: World, p: Provider, queries: seq<string>, acc: seq<Hit>)
    ensures acc <= GatherQueries(world, p, queries, acc)
  {
    if queries != [] {
      var reply := world.search(p, queries[0], 5);
      if UsableReply(reply) {
        var more := acc + reply.value;
        if |more| < WebHitLimit {
          GatherQueriesExtends(world, p, queries[1..], more);
        }
      } else {
        GatherQueriesExtends(world, p, queries[1..], acc);
      }
    }
  }

  /** How one result is handled: a candidate, move on, or an exception. */
  datatype Step = Found(candidate: SearchCandidate) | Next | Raised

  /** `result.get(key, "")` rendered by an f-string. */
  function FieldText(f: Field): string {
    match f
    case Absent => ""
    case Null => "None"
    case Str(s) => s
  }

  /** The alias a stage-1 domain hit or a stage-3 AI hit carries. */
  function HintAlias(part: PartQuery): (r: Option<string>)
    ensures r.Some? <==> Truthy(part.manufacturerHint)
    ensures r.Some? ==> r == part.manufacturerHint
  {
    if Truthy(part.manufacturerHint) then part.manufacturerHint else None
  }

  /** The metadata test of one result: its domain, then the heuristics on title and snippet. */
  function MetadataStep(world: World, part: PartQuery, hit: Hit): (s: Step)
    ensures s.Found? ==> hit.link.Truthy() && s.candidate.sourceUrl == hit.link.s
    ensures s.Raised? ==> hit.title.Null?
    ensures hit.link.Truthy() && Truthy(ManufacturerFromDomain(world.hostname(hit.link.s), world.domainHints)) ==>
      s.Found? && s.candidate.confidence == 0.95 &&
      Some(s.candidate.manufacturer) == ManufacturerFromDomain(world.hostname(hit.link.s), world.domainHints)
    ensures s.Found? && s.candidate.confidence == 0.95 ==>
      s.candidate.manufacturer != "" &&
      Some(s.candidate.manufacturer) == ManufacturerFromDomain(world.hostname(hit.link.s), world.domainHints)
    ensures s.Found? && s.candidate.confidence != 0.95 ==>
      !Truthy(ManufacturerFromDomain(world.hostname(hit.link.s), world.domainHints)) &&
      var c := AnalyzeText(Lower(FieldText(hit.title) + " " + FieldText(hit.snippet)), part, hit.link.s, world.knownManufacturers);
      c.Some? && s.candidate == c.value.(debugInfo := s.candidate.debugInfo)
  {
    if !hit.link.Truthy() then Next
    else
      var url := hit.link.s;
      var host := world.hostname(url);
      var domain := ManufacturerFromDomain(host, world.domainHints);
      // `if manufacturer:` -- a hint mapped to an empty name is no hit
      if Truthy(domain) then
        Found(SearchCandidate(domain.value, 0.95, url, "Identified from domain: " + host.value, HintAlias(part)))
      else
        var metadata := Lower(FieldText(hit.title) + " " + FieldText(hit.snippet));
        var c := AnalyzeText(metadata, part, url, world.knownManufacturers);
        if c.Some? && c.value.confidence >= 0.80 then
          if hit.title.Null? then Raised
          else Found(c.value.(debugInfo := "Found in search result title/snippet: " + Take(FieldText(hit.title), 100)))
        else Next
  }

  /** The metadata loop: the first result that yields a candidate, or an exception. */
  function ScanMetadata(world: World, part: PartQuery, hits: seq<Hit>): (s: Step)
    ensures s.Found? ==> exists i :: 0 <= i < |hits| && hits[i].link == Str(s.candidate.sourceUrl)
  {
    if hits == [] then Next
    else
      var s := MetadataStep(world, part, hits[0]);
      if s.Next? then
        var rest := ScanMetadata(world, part, hits[1..]);
        assert rest.Found? ==> exists i :: 1 <= i < |hits| && hits[i].link == Str(rest.candidate.sourceUrl) by {
          if rest.Found? {
            var i :| 0 <= i < |hits[1..]| && hits[1..][i].link == Str(rest.candidate.sourceUrl);
            assert hits[i + 1] == hits[1..][i];
          }
        }
        rest
      else s
  }

  /** The page loop: the first fetched page whose first 3000 characters yield a candidate. */
  function ScanPages(world: World, part: PartQuery, hits: seq<Hit>): (r: Option<SearchCandidate>)
    ensures r.Some? ==> exists i :: 0 <= i < |hits| && hits[i].link == Str(r.value.sourceUrl)
  {
    if hits == [] then None
    else
      var found :=
        if !hits[0].link.Truthy() then None
        else
          var page := world.fetchPage(hits[0].link.s);
          if page.None? then None
          else
            var c := AnalyzeText(Take(page.value, PageSampleSize), part, hits[0].link.s, world.knownManufacturers);
            if c.Some? && c.value.confidence >= 0.80 then c else None;
      if found.Some? then found
      else
        var rest := ScanPages(world, part, hits[1..]);
        assert rest.Some? ==> exists i :: 1 <= i < |hits| && hits[i].link == Str(rest.value.sourceUrl) by {
          if rest.Some? {
            var i :| 0 <= i < |hits[1..]| && hits[1..][i].link == Str(rest.value.sourceUrl);
            assert hits[i + 1] == hits[1..][i];
          }
        }
        rest
  }

  /** The Latin form of a truthy hint used to build the queries. */
  function LatinHint(world: World, part: PartQuery): Option<string> {
    if Truthy(part.manufacturerHint) then world.normalize(part.manufacturerHint.value) else None
  }

  /** The results stage 1 collects. */
  function Stage1Hits(world: World, part: PartQuery): seq<Hit> {
    GatherHits(world, WebProviders(world.providers), SimpleQueries(part, LatinHint(world, part)), [])
  }

  /** `_simple_web_search`; `None` also stands for an exception, which `search_part` records as no result. */
  function Stage1(world: World, part: PartQuery): Option<SearchCandidate> {
    if world.providers == [] || WebProviders(world.providers) == [] then None
    else if Truthy(part.manufacturerHint) && LatinHint(world, part).None? then None
    else
      var hits := Stage1Hits(world, part);
      match ScanMetadata(world, part, Take(hits, WebHitLimit))
      case Found(c) => Some(c)
      case Raised => None
      case Next => ScanPages(world, part, Take(hits, PageLimit))
  }

  /** A stage-1 candidate comes from one of the first ten results collected. */
  lemma Stage1FromCollectedResults(world: World, part: PartQuery)
    requires Stage1(world, part).Some?
    ensures exists i :: 0 <= i < |Stage1Hits(world, part)| && i < WebHitLimit &&
                        Stage1Hits(world, part)[i].link == Str(Stage1(world, part).value.sourceUrl)
  {
    var hits := Stage1Hits(world, part);
    var c := Stage1(world, part).value;
    var meta := ScanMetadata(world, part, Take(hits, WebHitLimit));
    if meta.Found? {
      var i :| 0 <= i < |Take(hits, WebHitLimit)| && Take(hits, WebHitLimit)[i].link == Str(c.sourceUrl);
      assert hits[i] == Take(hits, WebHitLimit)[i];
    } else {
      var i :| 0 <= i < |Take(hits, PageLimit)| && Take(hits, PageLimit)[i].link == Str(c.sourceUrl);
      assert hits[i] == Take(hits, PageLimit)[i];
    }
  }

  /** The nested provider/query loops of `_simple_web_search`. */
  method GatherWebHits(world: World, web: seq<Provider>, queries: seq<string>) returns (hits: seq<Hit>)
    ensures hits == GatherHits(world, web, queries, [])
  {
    hits := [];
    var i := 0;
    while i < |web|
      invariant i <= |web| && |hits| < WebHitLimit
      invariant GatherHits(world, web, queries, []) == GatherHits(world, web[i..], queries, hits)
    {
      ghost var start := hits;
      var j := 0;
      while j < |queries|
        invariant j <= |queries|
        invariant GatherQueries(world, web[i], queries, start) == GatherQueries(world, web[i], queries[j..], hits)
      {
        var reply := world.search(web[i], queries[j], 5);
        if UsableReply(reply) {
          hits := hits + reply.value;
          if |hits| >= WebHitLimit {
            break;
          }
        }
        assert queries[j..][1..] == queries[j + 1..];
        j := j + 1;
      }
      if |hits| >= WebHitLimit {
        return;
      }
      assert web[i..][1..] == web[i + 1..];
      i := i + 1;
    }
  }

  /** `_simple_web_search`. */
  method SimpleWebSearch(world: World, part: PartQuery) returns (c: Option<SearchCandidate>)
    ensures c == Stage1(world, part)
  {
    if world.providers == [] {
      return None;
    }
    var web := WebProviders(world.providers);
    if web == [] {
      return None;
    }
    var latin: Option<string> := None;
    if Truthy(part.manufacturerHint) {
      latin := world.normalize(part.manufacturerHint.value);
      if latin.None? {
        return None;
      }
    }
    assert latin == LatinHint(world, part);
    var hits := GatherWebHits(world, web, SimpleQueries(part, latin));
    var meta := ScanMetadata(world, part, Take(hits, WebHitLimit));
    if meta.Found? {
      return Some(meta.candidate);
    } else if meta.Raised? {
      return None;
    }
    c := ScanPages(world, part, Take(hits, PageLimit));
  }

  // ---------------------------------------------------------------------
  // Relevant lines of a document
  // ---------------------------------------------------------------------

  /** `lines[max(0, i - radius):min(len(lines), i + radius + 1)]`. */
  function ContextWindow(lines: seq<string>, i: nat, radius: nat): (r: seq<string>)
    requires i < |lines|
    ensures forall x :: x in r ==> x in lines
    ensures lines[i] in r
  {
    var start := if i >= radius then i - radius else 0;
    var end := if i + radius + 1 <= |lines| then i + radius + 1 else |lines|;
    assert lines[i] == lines[start..end][i - start];
    lines[start..end]
  }

  /** The context windows of the first `n` lines that mention `needle`, in line order. */
  function MentionContext(lines: seq<string>, needle: string, radius: nat, n: nat): (r: seq<string>)
    requires n <= |lines|
    ensures forall x :: x in r ==> x in lines
  {
    if n == 0 then []
    else
      MentionContext(lines, needle, radius, n - 1) +
      (if SearchEngine.Mentions(lines[n - 1], needle) then ContextWindow(lines, n - 1, radius) else [])
  }

  /** Every line that mentions the needle is among its own context. */
  lemma {:induction false} MentionedLineInContext(lines: seq<string>, needle: string, radius: nat, n: nat, i: nat)
    requires i < n <= |lines| && SearchEngine.Mentions(lines[i], needle)
    ensures lines[i] in MentionContext(lines, needle, radius, n)
  {
    if i < n - 1 {
      MentionedLineInContext(lines, needle, radius, n - 1, i);
    }
  }

  /** The lines gathered before de-duplication: the first ten, the part-number context, the hint context. */
  function CollectedLines(lines: seq<string>, part: PartQuery): seq<string> {
    Take(lines, 10) + MentionContext(lines, part.partNumber, 2, |lines|) +
    (if Truthy(part.manufacturerHint) then MentionContext(lines, part.manufacturerHint.value, 1, |lines|) else [])
  }

  predicate NotBlank(line: string) {
    !IsBlank(line)
  }

  /** The non-blank lines of `s`, each once, in order of first occurrence. */
  function UniqueLines(s: seq<string>): (r: seq<string>)
    ensures forall x :: x in r <==> x in s && NotBlank(x)
    ensures NoDuplicates(r)
  {
    if s == [] then []
    else
      var prev := UniqueLines(s[..|s| - 1]);
      var line := s[|s| - 1];
      assert s == s[..|s| - 1] + [line];
      if line in prev || !NotBlank(line) then prev else prev + [line]
  }

  /** The lines `_extract_relevant_text` keeps: non-blank, each once, in gathering order. */
  function RelevantLines(lines: seq<string>, part: PartQuery): seq<string> {
    UniqueLines(CollectedLines(lines, part))
  }

  /** `_extract_relevant_text`. */
  function RelevantText(text: string, part: PartQuery): string {
    Join(RelevantLines(SplitLines(text), part), "\n")
  }

  /**
   * Every kept line is an input line; no line is kept twice or blank; every
   * non-blank line among the first ten and every non-blank line that
   * mentions the part number is kept.
   */
  lemma RelevantLinesProperties(lines: seq<string>, part: PartQuery)
    ensures forall x :: x in RelevantLines(lines, part) ==> x in lines && NotBlank(x)
    ensures NoDuplicates(RelevantLines(lines, part))
    ensures forall i :: 0 <= i < |lines| && i < 10 && NotBlank(lines[i]) ==> lines[i] in RelevantLines(lines, part)
    ensures forall i :: 0 <= i < |lines| && NotBlank(lines[i]) && SearchEngine.Mentions(lines[i], part.partNumber) ==>
              lines[i] in RelevantLines(lines, part)
  {
    var collected := CollectedLines(lines, part);
    forall i | 0 <= i < |lines| && i < 10 && NotBlank(lines[i])
      ensures lines[i] in RelevantLines(lines, part)
    {
      assert lines[i] == Take(lines, 10)[i];
      assert lines[i] in collected;
    }
    forall i | 0 <= i < |lines| && NotBlank(lines[i]) && SearchEngine.Mentions(lines[i], part.partNumber)
      ensures lines[i] in RelevantLines(lines, part)
    {
      MentionedLineInContext(lines, part.partNumber, 2, |lines|, i);
      assert lines[i] in collected;
    }
  }

  /** One context loop of `_extract_relevant_text`: appends the window around every line that mentions `needle`. */
  method AppendContext(relevant: seq<string>, lines: seq<string>, needle: string, radius: nat) returns (r: seq<string>)
    ensures r == relevant + MentionContext(lines, needle, radius, |lines|)
  {
    r := relevant;
    var i := 0;
    while i < |lines|
      invariant i <= |lines|
      invariant r == relevant + MentionContext(lines, needle, radius, i)
    {
      if SearchEngine.Mentions(lines[i], needle) {
        r := r + ContextWindow(lines, i, radius);
      }
      i := i + 1;
    }
  }

  /** The gathering part of `_extract_relevant_text`: the first ten lines, then the two context loops. */
  method GatherRelevant(lines: seq<string>, part: PartQuery) returns (relevant: seq<string>)
    ensures relevant == CollectedLines(lines, part)
  {
    relevant := Take(lines, 10);
    relevant := AppendContext(relevant, lines, part.partNumber, 2);
    if Truthy(part.manufacturerHint) {
      relevant := AppendContext(relevant, lines, part.manufacturerHint.value, 1);
    }
  }

  /** One more line: it is appended when it is non-blank and not yet kept. */
  lemma UniqueLinesStep(s: seq<string>, k: nat)
    requires k < |s|
    ensures UniqueLines(s[..k + 1]) ==
      if s[k] in UniqueLines(s[..k]) || !NotBlank(s[k]) then UniqueLines(s[..k]) else UniqueLines(s[..k]) + [s[k]]
  {
    assert s[..k + 1][..k] == s[..k];
  }

  /** The `seen` loop of `_extract_relevant_text`: non-blank lines, each once, in order. */
  method UniqueNonBlank(relevant: seq<string>) returns (unique: seq<string>)
    ensures unique == UniqueLines(relevant)
  {
    var seen: set<string> := {};
    unique := [];
    var k := 0;
    while k < |relevant|
      invariant k <= |relevant|
      invariant unique == UniqueLines(relevant[..k])
      invariant forall x :: x in seen <==> x in unique
    {
      UniqueLinesStep(relevant, k);
      if relevant[k] !in seen && NotBlank(relevant[k]) {
        seen := seen + {relevant[k]};
        unique := unique + [relevant[k]];
      }
      k := k + 1;
    }
    assert relevant[..k] == relevant;
  }

  /** `_extract_relevant_text`. */
  method ExtractRelevantText(text: string, part: PartQuery) returns (r: string)
    ensures r == RelevantText(text, part)
  {
    var relevant := GatherRelevant(SplitLines(text), part);
    var unique := UniqueNonBlank(relevant);
    r := Join(unique, "\n");
  }

  // ---------------------------------------------------------------------
  // Stage 2: document search
  // ---------------------------------------------------------------------

  /** `result.get("title", "")` for a title that is not null. */
  function TitleText(title: Field): string {
    if title.Str? then title.s else ""
  }

  /**
   * The document URLs one reply contributes, in order, and whether the
   * loop raised: a null title makes `.lower()` raise, which ends the loop
   * for this query.
   */
  function AcceptedLinks(hits: seq<Hit>): (r: (seq<string>, bool))
    ensures |r.0| <= |hits|
  {
    if hits == [] then ([], false)
    else if !hits[0].link.Truthy() then AcceptedLinks(hits[1..])
    else if hits[0].title.Null? then ([], true)
    else
      var rest := AcceptedLinks(hits[1..]);
      (if IsLikelyDocument(hits[0].link.s, TitleText(hits[0].title)) then [hits[0].link.s] + rest.0 else rest.0, rest.1)
  }

  /** Every accepted URL is the link of a result `_is_likely_document` accepts. */
  lemma {:induction false} AcceptedLinksAreDocuments(hits: seq<Hit>)
    ensures forall u :: u in AcceptedLinks(hits).0 ==>
      exists i :: 0 <= i < |hits| && hits[i].link == Str(u) && IsLikelyDocument(u, TitleText(hits[i].title))
  {
    if hits != [] {
      AcceptedLinksAreDocuments(hits[1..]);
      forall u | u in AcceptedLinks(hits[1..]).0
        ensures exists i :: 0 <= i < |hits| && hits[i].link == Str(u) && IsLikelyDocument(u, TitleText(hits[i].title))
      {
        var i :| 0 <= i < |hits[1..]| && hits[1..][i].link == Str(u) && IsLikelyDocument(u, TitleText(hits[1..][i].title));
        assert hits[i + 1] == hits[1..][i];
      }
      if hits[0].link.Truthy() && !hits[0].title.Null? {
        assert hits[0].link == Str(hits[0].link.s);
      }
    }
  }

  /** One stage-2 query: the URLs it adds, and whether the size check after it ran (no exception). */
  function QueryDocuments(reply: Option<seq<Hit>>): (seq<string>, bool) {
    match reply
    case None => ([], false)
    case Some(hits) =>
      var a := AcceptedLinks(hits);
      (a.0, !a.1)
  }

  /** The queries of one provider, starting from the URLs `acc` already collected. */
  function DocumentQueriesOf(world: World, p: Provider, queries: seq<string>, acc: seq<string>): seq<string> {
    if queries == [] then acc
    else
      var step := QueryDocuments(world.search(p, queries[0], 3));
      var more := acc + step.0;
      if step.1 && |more| >= DocUrlLimit then more else DocumentQueriesOf(world, p, queries[1..], more)
  }

  /** All providers in order, until five URLs are held after a provider. */
  function DocumentUrls(world: World, providers: seq<Provider>, queries: seq<string>, acc: seq<string>): seq<string> {
    if providers == [] then acc
    else
      var more := DocumentQueriesOf(world, providers[0], queries, acc);
      if |more| >= DocUrlLimit then more else DocumentUrls(world, providers[1..], queries, more)
  }

  /** Every collected URL was already held or was accepted from a reply to some provider and query. */
  lemma {:induction false} DocumentUrlsFromReplies(world: World, providers: seq<Provider>, queries: seq<string>, acc: seq<string>)
    ensures forall u :: u in DocumentUrls(world, providers, queries, acc) ==>
      u in acc || exists p, q :: p in providers && q in queries && u in QueryDocuments(world.search(p, q, 3)).0
  {
    if providers != [] {
      var more := DocumentQueriesOf(world, providers[0], queries, acc);
      DocumentQueriesFromReplies(world, providers[0], queries, acc);
      if |more| < DocUrlLimit {
        DocumentUrlsFromReplies(world, providers[1..], queries, more);
        forall u | u in DocumentUrls(world, providers[1..], queries, more)
          ensures u in acc || exists p, q :: p in providers && q in queries && u in QueryDocuments(world.search(p, q, 3)).0
        {
          if u !in more {
            var p, q :| p in providers[1..] && q in queries && u in QueryDocuments(world.search(p, q, 3)).0;
          }
        }
      }
    }
  }

  lemma {:induction false} DocumentQueriesFromReplies(world: World, p: Provider, queries: seq<string>, acc: seq<string>)
    ensures forall u :: u in DocumentQueriesOf(world, p, queries, acc) ==>
      u in acc || exists q :: q in queries && u in QueryDocuments(world.search(p, q, 3)).0
  {
    if queries != [] {
      var step := QueryDocuments(world.search(p, queries[0], 3));
      var more := acc + step.0;
      if !(step.1 && |more| >= DocUrlLimit) {
        DocumentQueriesFromReplies(world, p, queries[1..], more);
        forall u | u in DocumentQueriesOf(world, p, queries[1..], more)
          ensures u in acc || exists q :: q in queries && u in QueryDocuments(world.search(p, q, 3)).0
        {
          if u !in more {
            var q :| q in queries[1..] && u in QueryDocuments(world.search(p, q, 3)).0;
          }
        }
      }
    }
  }

  /** The stage-2 queries (none when the hint does not normalise, since the query building then raises). */
  function Stage2Queries(world: World, part: PartQuery): seq<string> {
    if Truthy(part.manufacturerHint) && LatinHint(world, part).None? then []
    else DocumentQueries(part, LatinHint(world, part))
  }

  /** `_search_for_documents`; `None` stands for an exception (from `normalize_manufacturer_name`). */
  function Stage2(world: World, part: PartQuery): (r: Option<seq<string>>)
    ensures r.Some? ==> |r.value| <= MaxDocuments && NoDuplicates(r.value)
  {
    var web := WebProviders(world.providers);
    if web == [] then Some([])
    else if Truthy(part.manufacturerHint) && LatinHint(world, part).None? then None
    else Some(Take(Dedup(DocumentUrls(world, web, Stage2Queries(world, part), [])), MaxDocuments))
  }

  /**
   * The stage-2 URLs are the first distinct collected URLs, in order of
   * first occurrence, and each was accepted as a document link by a reply
   * of a web provider.
   */
  lemma Stage2Documents(world: World, part: PartQuery)
    requires Stage2(world, part).Some?
    ensures var urls := Stage2(world, part).value;
      forall u :: u in urls ==>
        exists p, q :: p in WebProviders(world.providers) && q in Stage2Queries(world, part) &&
          u in QueryDocuments(world.search(p, q, 3)).0
  {
    var web := WebProviders(world.providers);
    if web != [] {
      var collected := DocumentUrls(world, web, Stage2Queries(world, part), []);
      DocumentUrlsFromReplies(world, web, Stage2Queries(world, part), []);
      forall u | u in Stage2(world, part).value
        ensures u in collected
      {
        assert u in Dedup(collected);
      }
    }
  }

  /** The loop over one reply's results in `_search_for_documents`. */
  method AcceptDocuments(hits: seq<Hit>) returns (urls: seq<string>, raised: bool)
    ensures (urls, raised) == AcceptedLinks(hits)
  {
    urls := [];
    var i := 0;
    assert hits[0..] == hits;
    while i < |hits|
      invariant i <= |hits|
      invariant AcceptedLinks(hits).0 == urls + AcceptedLinks(hits[i..]).0
      invariant AcceptedLinks(hits).1 == AcceptedLinks(hits[i..]).1
    {
      assert hits[i..][0] == hits[i] && hits[i..][1..] == hits[i + 1..];
      var hit := hits[i];
      if hit.link.Truthy() {
        if hit.title.Null? {
          assert AcceptedLinks(hits[i..]) == ([], true) && urls + [] == urls;
          return urls, true;
        }
        if IsLikelyDocument(hit.link.s, TitleText(hit.title)) {
          assert urls + ([hit.link.s] + AcceptedLinks(hits[i + 1..]).0) == (urls + [hit.link.s]) + AcceptedLinks(hits[i + 1..]).0;
          urls := urls + [hit.link.s];
        }
      }
      i := i + 1;
    }
    assert hits[i..] == [] && urls + [] == urls;
    raised := false;
  }

  /** The query loop of one provider in `_search_for_documents`, from the URLs already held. */
  method CollectFromProvider(world: World, p: Provider, queries: seq<string>, start: seq<string>) returns (docs: seq<string>)
    ensures docs == DocumentQueriesOf(world, p, queries, start)
  {
    docs := start;
    var j := 0;
    while j < |queries|
      invariant j <= |queries|
      invariant DocumentQueriesOf(world, p, queries, start) == DocumentQueriesOf(world, p, queries[j..], docs)
    {
      assert queries[j..][0] == queries[j] && queries[j..][1..] == queries[j + 1..];
      var reply := world.search(p, queries[j], 3);
      if reply.Some? {
        var urls, raised := AcceptDocuments(reply.value);
        assert QueryDocuments(reply) == (urls, !raised);
        docs := docs + urls;
        if !raised && |docs| >= DocUrlLimit {
          return;
        }
      } else {
        assert QueryDocuments(reply) == ([], false) && docs + [] == docs;
      }
      j := j + 1;
    }
  }

  /** The provider loop of `_search_for_documents`: it stops once five URLs are held after a provider. */
  method CollectDocuments(world: World, web: seq<Provider>, queries: seq<string>) returns (docs: seq<string>)
    ensures docs == DocumentUrls(world, web, queries, [])
  {
    docs := [];
    var i := 0;
    while i < |web|
      invariant i <= |web| && |docs| < DocUrlLimit
      invariant DocumentUrls(world, web, queries, []) == DocumentUrls(world, web[i..], queries, docs)
    {
      assert web[i..][0] == web[i] && web[i..][1..] == web[i + 1..];
      docs := CollectFromProvider(world, web[i], queries, docs);
      if |docs| >= DocUrlLimit {
        return;
      }
      i := i + 1;
    }
  }

  /** `_search_for_documents`; `None` is the exception raised while building the queries. */
  method SearchForDocuments(world: World, part: PartQuery) returns (urls: Option<seq<string>>)
    ensures urls == Stage2(world, part)
  {
    var web := WebProviders(world.providers);
    if web == [] {
      return Some([]);
    }
    var latin: Option<string> := None;
    if Truthy(part.manufacturerHint) {
      latin := world.normalize(part.manufacturerHint.value);
      if latin.None? {
        return None;
      }
    }
    assert latin == LatinHint(world, part);
    var docs := CollectDocuments(world, web, DocumentQueries(part, latin));
    urls := Some(Take(Dedup(docs), MaxDocuments));
  }

  // ---------------------------------------------------------------------
  // Stage 3: documents read by the AI model
  // ---------------------------------------------------------------------

  /** `_download_document` without the file write: the fetched bytes, unless they exceed 10 MiB. */
  function DownloadOf(fetched: Option<DocumentParser.Download>): (r: Option<DocumentParser.Download>)
    ensures r.Some? <==> fetched.Some? && |fetched.value.content| <= MaxDocumentSize
    ensures r.Some? ==> r == fetched
  {
    if fetched.Some? && |fetched.value.content| <= MaxDocumentSize then fetched else None
  }

  /**
   * The text of a downloaded document: PDF-looking data goes to the PDF
   * reader, whose failure (`None`) is an exception here, with no HTML
   * fallback; anything else is read as HTML.
   */
  function DocumentText(world: World, d: DocumentParser.Download): (r: Option<string>)
    ensures r.None? <==> DocumentParser.LooksLikePdf(d.content, d.contentType) && world.readPdf(d.content).None?
    ensures DocumentParser.LooksLikePdf(d.content, d.contentType) && r.Some? ==>
      r.value == DocumentParser.ExtractTextFromPdf(world.readPdf(d.content).value)
    ensures !DocumentParser.LooksLikePdf(d.content, d.contentType) ==>
      r == Some(DocumentParser.ExtractTextFromHtml(world.htmlText(d.content)))
  {
    if DocumentParser.LooksLikePdf(d.content, d.contentType) then
      match world.readPdf(d.content)
      case None => None
      case Some(pages) => Some(DocumentParser.ExtractTextFromPdf(pages))
    else Some(DocumentParser.ExtractTextFromHtml(world.htmlText(d.content)))
  }

  /** The text the AI model is shown: the relevant lines, cut to 3000 characters. */
  function AiText(text: string, part: PartQuery): (r: string)
    ensures |r| <= MaxTextSizeForAi && |r| <= |RelevantText(text, part)|
    ensures r == RelevantText(text, part)[..|r|]
    ensures |RelevantText(text, part)| <= MaxTextSizeForAi ==> r == RelevantText(text, part)
  {
    Take(RelevantText(text, part), MaxTextSizeForAi)
  }

  /** The user prompt sent with the (fixed) system prompt. */
  function AiPrompt(text: string, partNumber: string): string {
    "Datasheet text:\n" + text + "\n\nTarget part: " + partNumber
  }

  /** The confidence `float(result.get("confidence", 0.7))` yields, or `None` when it raises. */
  function ReplyConfidenceValue(c: ReplyConfidence): (r: Option<real>)
    ensures c.Missing? ==> r == Some(0.7)
    ensures r.None? <==> c.NotANumber?
  {
    match c
    case Missing => Some(0.7)
    case Number(v) => Some(v)
    case NotANumber => None
  }

  /**
   * `_analyze_document_with_ai` on a downloaded document; every exception
   * (PDF reader, unparsable confidence, `normalize_manufacturer_name`)
   * and every empty reply is `None`.
   */
  function AiCandidate(world: World, part: PartQuery, url: string, d: DocumentParser.Download): (r: Option<SearchCandidate>)
    ensures r.Some? ==> world.hasOpenAI && DocumentText(world, d).Some?
    ensures r.Some? ==>
      var reply := world.ai(AiPrompt(AiText(DocumentText(world, d).value, part), part.partNumber));
      && reply.Some? && reply.value.manufacturer.Truthy()
      && world.normalize(reply.value.manufacturer.s) == Some(r.value.manufacturer)
      && ReplyConfidenceValue(reply.value.confidence) == Some(r.value.confidence)
    ensures r.Some? ==> r.value.sourceUrl == url && r.value.aliasUsed == HintAlias(part)
  {
    if !world.hasOpenAI then None
    else match DocumentText(world, d)
      case None => None
      case Some(text) =>
        var optimized := AiText(text, part);
        match world.ai(AiPrompt(optimized, part.partNumber))
        case None => None
        case Some(reply) =>
          match ReplyConfidenceValue(reply.confidence)
          case None => None
          case Some(confidence) =>
            if !reply.manufacturer.Truthy() then None
            else match world.normalize(reply.manufacturer.s)
              case None => None
              case Some(name) =>
                Some(SearchCandidate(name, confidence, url,
                  "Extracted from document via AI (tokens used: ~" + NatToString(|optimized| / 4) + ")", HintAlias(part)))
  }

  /** What stage 3 gets out of one URL: nothing when the download fails, else the AI's answer. */
  function DocumentStep(world: World, part: PartQuery, url: string): Option<SearchCandidate> {
    var d := DownloadOf(world.fetchBytes(url));
    if d.Some? then AiCandidate(world, part, url, d.value) else None
  }

  /** The stage-3 loop: the first document the AI model names a manufacturer for. */
  function Stage3(world: World, part: PartQuery, urls: seq<string>): (r: Option<SearchCandidate>)
    ensures r.Some? ==> r.value.sourceUrl in urls
  {
    if urls == [] then None
    else
      var c := DocumentStep(world, part, urls[0]);
      if c.Some? then c else Stage3(world, part, urls[1..])
  }

  /** The URLs stage 3 downloads to the temporary directory: the loop stops at the first answer. */
  function Opened(world: World, part: PartQuery, urls: seq<string>): (r: set<string>)
    ensures forall u :: u in r ==> u in urls
  {
    if urls == [] then {}
    else
      var here := if DownloadOf(world.fetchBytes(urls[0])).Some? then {urls[0]} else {};
      if DocumentStep(world, part, urls[0]).Some? then here
      else here + Opened(world, part, urls[1..])
  }

  /** The document the answer came from was downloaded, and so was removed again. */
  lemma {:induction false} WinnerWasOpened(world: World, part: PartQuery, urls: seq<string>)
    requires Stage3(world, part, urls).Some?
    ensures Stage3(world, part, urls).value.sourceUrl in Opened(world, part, urls)
  {
    if DocumentStep(world, part, urls[0]).None? {
      WinnerWasOpened(world, part, urls[1..]);
    }
  }

  /** Without an answer, every URL whose download succeeded was opened (and removed). */
  lemma {:induction false} AllDownloadsOpenedWithoutAnswer(world: World, part: PartQuery, urls: seq<string>)
    requires Stage3(world, part, urls).None?
    ensures forall u :: u in Opened(world, part, urls) <==> u in urls && DownloadOf(world.fetchBytes(u)).Some?
  {
    if urls != [] {
      AllDownloadsOpenedWithoutAnswer(world, part, urls[1..]);
      forall u | u in urls && DownloadOf(world.fetchBytes(u)).Some?
        ensures u in Opened(world, part, urls)
      {
        if u != urls[0] {
          assert u in urls[1..];
        }
      }
    }
  }

  /** One iteration of the stage-3 loop, seen from URL `i` on. */
  lemma Stage3Step(world: World, part: PartQuery, urls: seq<string>, i: nat)
    requires i < |urls|
    ensures Stage3(world, part, urls[i..]) ==
      if DocumentStep(world, part, urls[i]).Some? then DocumentStep(world, part, urls[i]) else Stage3(world, part, urls[i + 1..])
    ensures Opened(world, part, urls[i..]) ==
      (if DownloadOf(world.fetchBytes(urls[i])).Some? then {urls[i]} else {}) +
      (if DocumentStep(world, part, urls[i]).Some? then {} else Opened(world, part, urls[i + 1..]))
  {
    assert urls[i..][0] == urls[i] && urls[i..][1..] == urls[i + 1..];
  }

  /** The temporary directory stage 3 writes documents to, one file per document URL. */
  class TempDir {
    var files: set<string>

    constructor ()
      ensures files == {}
    {
      files := {};
    }

    /** `file_path.write_bytes(data)` for the file of `url`. */
    method Write(url: string)
      modifies this
      ensures files == old(files) + {url}
    {
      files := files + {url};
    }

    /** `_cleanup_document`: the file of `url` is removed when it exists. */
    method Remove(url: string)
      modifies this
      ensures files == old(files) - {url}
    {
      files := files - {url};
    }
  }

  /** One downloaded document: written to its file, read by the AI model, removed in the `finally`. */
  method AnalyzeDownloaded(world: World, temp: TempDir, part: PartQuery, url: string, d: DocumentParser.Download)
    returns (found: Option<SearchCandidate>)
    modifies temp
    ensures found == AiCandidate(world, part, url, d)
    ensures temp.files == old(temp.files) - {url}
  {
    temp.Write(url);
    found := AiCandidate(world, part, url, d);
    temp.Remove(url);
  }

  /** One URL of the stage-3 loop: a failed download is skipped, a downloaded document is analysed. */
  method TryDocument(world: World, temp: TempDir, part: PartQuery, url: string) returns (found: Option<SearchCandidate>)
    modifies temp
    ensures found == DocumentStep(world, part, url)
    ensures temp.files == old(temp.files) - (if DownloadOf(world.fetchBytes(url)).Some? then {url} else {})
  {
    var d := DownloadOf(world.fetchBytes(url));
    if d.Some? {
      found := AnalyzeDownloaded(world, temp, part, url, d.value);
    } else {
      found := None;
    }
  }

  /**
   * The stage-3 loop of `search_part`: each document is downloaded,
   * handed to the AI model and removed again (in the `finally`), until
   * one yields a candidate.
   */
  method AnalyzeDocuments(world: World, temp: TempDir, part: PartQuery, urls: seq<string>) returns (c: Option<SearchCandidate>)
    modifies temp
    ensures c == Stage3(world, part, urls)
    ensures temp.files == old(temp.files) - Opened(world, part, urls)
  {
    ghost var done: set<string> := {};
    var i := 0;
    while i < |urls|
      invariant i <= |urls|
      invariant Stage3(world, part, urls) == Stage3(world, part, urls[i..])
      invariant Opened(world, part, urls) == done + Opened(world, part, urls[i..])
      invariant temp.files == old(temp.files) - done
    {
      Stage3Step(world, part, urls, i);
      var found := TryDocument(world, temp, part, urls[i]);
      done := done + (if DownloadOf(world.fetchBytes(urls[i])).Some? then {urls[i]} else {});
      if found.Some? {
        return found;
      }
      i := i + 1;
    }
    c := None;
  }

  // ---------------------------------------------------------------------
  // The three stages of `search_part`
  // ---------------------------------------------------------------------

  /** The outcome of the stages: the history, the final candidate and the stage that found it. */
  datatype Run = Run(history: seq<StageStatus>, candidate: Option<SearchCandidate>, stage: Option<string>)

  /** One entry per stage, in the order the stages run. */
  predicate ThreeStages(h: seq<StageStatus>) {
    |h| == 3 && h[0].name == Internet && h[1].name == DocumentSearch && h[2].name == AiAnalysis
  }

  /**
   * The stages of `search_part` after the cache check. A stage-1 candidate
   * skips the other two stages; a stage-2 exception records no results for
   * stages 2 and 3; no document URLs skips stage 3.
   */
  function Pipeline(world: World, part: PartQuery): (r: Run)
    ensures ThreeStages(r.history)
    ensures r.candidate.Some? <==> r.stage.Some?
    ensures r.history[0].status == Success <==> Stage1(world, part).Some?
    ensures r.history[0].status != Skipped
    ensures r.history[0].status == Success ==>
      && r.candidate == Stage1(world, part) && r.stage == Some("Internet")
      && r.history[0].confidence == Some(r.candidate.value.confidence)
      && r.history[1].status == Skipped && r.history[2].status == Skipped
    ensures r.history[1].status == Skipped <==> r.history[0].status == Success
    ensures r.history[1].status == Success <==>
      r.history[0].status != Success && Stage2(world, part).Some? && Stage2(world, part).value != []
    ensures r.history[1].status == Success ==>
      r.history[1].urlsConsidered == Some(|Stage2(world, part).value|) && 1 <= |Stage2(world, part).value| <= MaxDocuments
    ensures r.history[2].status == Success <==> r.stage == Some("AI Analysis")
    ensures r.history[2].status == Success ==>
      && r.history[1].status == Success
      && r.candidate == Stage3(world, part, Stage2(world, part).value)
      && r.candidate.value.sourceUrl in Stage2(world, part).value
      && r.history[2].confidence == Some(r.candidate.value.confidence)
    ensures r.history[2].status == Skipped <==> r.history[0].status == Success || Stage2(world, part) == Some([])
    ensures r.candidate.Some? <==> r.history[0].status == Success || r.history[2].status == Success
  {
    match Stage1(world, part)
    case Some(c) =>
      Run([StageStatus(Internet, Success, Some(c.confidence), Some("heuristics"), None),
           Stage(DocumentSearch, Skipped), Stage(AiAnalysis, Skipped)], Some(c), Some("Internet"))
    case None => DocumentStages(world, part, [Stage(Internet, NoResults)])
  }

  /** Stages 2 and 3, after stage 1 found nothing and left `history`. */
  function DocumentStages(world: World, part: PartQuery, history: seq<StageStatus>): Run {
    match Stage2(world, part)
    case None => Run(history + [Stage(DocumentSearch, NoResults), Stage(AiAnalysis, NoResults)], None, None)
    case Some(urls) =>
      if urls == [] then Run(history + [Stage(DocumentSearch, NoResults), Stage(AiAnalysis, Skipped)], None, None)
      else
        var documents := StageStatus(DocumentSearch, Success, None, None, Some(|urls|));
        match Stage3(world, part, urls)
        case Some(c) =>
          Run(history + [documents, StageStatus(AiAnalysis, Success, Some(c.confidence), Some("openai-document"), None)],
              Some(c), Some("AI Analysis"))
        case None => Run(history + [documents, Stage(AiAnalysis, NoResults)], None, None)
  }

  /** `Pipeline` by the outcome of stage 1. */
  lemma PipelineByStage1(world: World, part: PartQuery)
    ensures Stage1(world, part).Some? ==>
      var c := Stage1(world, part).value;
      Pipeline(world, part) ==
        Run([StageStatus(Internet, Success, Some(c.confidence), Some("heuristics"), None),
             Stage(DocumentSearch, Skipped), Stage(AiAnalysis, Skipped)], Some(c), Some("Internet"))
    ensures Stage1(world, part).None? ==> Pipeline(world, part) == DocumentStages(world, part, [Stage(Internet, NoResults)])
  {
  }

  /** The documents the stages download to the temporary directory. */
  function StagesOpened(world: World, part: PartQuery): set<string> {
    if Stage1(world, part).Some? then {}
    else match Stage2(world, part)
      case None => {}
      case Some(urls) => Opened(world, part, urls)
  }

  /** The stages as `search_part` runs them, building the history entry by entry. */
  method RunStages(world: World, temp: TempDir, part: PartQuery) returns (run: Run)
    modifies temp
    ensures run == Pipeline(world, part)
    ensures temp.files == old(temp.files) - StagesOpened(world, part)
  {
    var history: seq<StageStatus> := [];
    var c := SimpleWebSearch(world, part);
    PipelineByStage1(world, part);
    if c.Some? {
      history := history + [StageStatus(Internet, Success, Some(c.value.confidence), Some("heuristics"), None)];
      history := history + [Stage(DocumentSearch, Skipped)];
      history := history + [Stage(AiAnalysis, Skipped)];
      assert history == [StageStatus(Internet, Success, Some(c.value.confidence), Some("heuristics"), None),
                         Stage(DocumentSearch, Skipped), Stage(AiAnalysis, Skipped)];
      return Run(history, c, Some("Internet"));
    }
    history := history + [Stage(Internet, NoResults)];
    assert history == [Stage(Internet, NoResults)];
    run := RunDocumentStages(world, temp, part, history);
  }

  /** Stages 2 and 3 of `search_part`, appending to the history stage 1 left. */
  method RunDocumentStages(world: World, temp: TempDir, part: PartQuery, history: seq<StageStatus>) returns (run: Run)
    modifies temp
    ensures run == DocumentStages(world, part, history)
    ensures temp.files == old(temp.files) -
      (if Stage2(world, part).Some? then Opened(world, part, Stage2(world, part).value) else {})
  {
    var urls := SearchForDocuments(world, part);
    if urls.None? {
      var h := history + [Stage(DocumentSearch, NoResults)];
      h := h + [Stage(AiAnalysis, NoResults)];
      assert h == history + [Stage(DocumentSearch, NoResults), Stage(AiAnalysis, NoResults)];
      return Run(h, None, None);
    }
    if urls.value == [] {
      var h := history + [Stage(DocumentSearch, NoResults)];
      h := h + [Stage(AiAnalysis, Skipped)];
      assert h == history + [Stage(DocumentSearch, NoResults), Stage(AiAnalysis, Skipped)];
      return Run(h, None, None);
    }
    var h := history + [StageStatus(DocumentSearch, Success, None, None, Some(|urls.value|))];
    var found := AnalyzeDocuments(world, temp, part, urls.value);
    if found.Some? {
      h := h + [StageStatus(AiAnalysis, Success, Some(found.value.confidence), Some("openai-document"), None)];
      return Run(h, found, Some("AI Analysis"));
    }
    h := h + [Stage(AiAnalysis, NoResults)];
    run := Run(h, None, None);
  }

  // ---------------------------------------------------------------------
  // `search_part`: cache, stages, persistence
  // ---------------------------------------------------------------------

  /** The stored part the search starts from: the newest one with the same number. */
  function LatestIndex(parts: seq<Part>, partNumber: string): (r: Option<nat>)
    ensures r.Some? ==> r.value < |parts| && parts[r.value].partNumber == partNumber
    ensures r.Some? ==> forall j :: r.value < j < |parts| ==> parts[j].partNumber != partNumber
    ensures r.None? <==> forall j :: 0 <= j < |parts| ==> parts[j].partNumber != partNumber
  {
    if parts == [] then None
    else if parts[|parts| - 1].partNumber == partNumber then Some(|parts| - 1)
    else LatestIndex(parts[..|parts| - 1], partNumber)
  }

  /** A part appended to the store is the newest one with its number. */
  lemma LatestIndexOfAppended(parts: seq<Part>, p: Part)
    ensures LatestIndex(parts + [p], p.partNumber) == Some(|parts|)
  {
    assert (parts + [p])[|parts|] == p;
  }

  /** A stored result is reused when it names a manufacturer that no submitted hint contradicts. */
  predicate ReusesCache(e: Part, part: PartQuery, wratio: (string, string) -> int)
    reads e
  {
    Truthy(e.manufacturerName) &&
    (!Truthy(part.manufacturerHint) || EvaluateMatch(part.manufacturerHint, e.manufacturerName, wratio).0 == Some(Matched))
  }

  /** Whether `search_part` answers from the store. */
  predicate CacheApplies(store: SearchEngine.PartStore, part: PartQuery, wratio: (string, string) -> int)
    reads store, store.parts
  {
    var k := LatestIndex(store.parts, part.partNumber);
    k.Some? && ReusesCache(store.parts[k.value], part, wratio)
  }

  /** The result built from a stored part; all three stages are skipped. */
  function CachedResult(e: Part, part: PartQuery, wratio: (string, string) -> int, debug: bool): (r: SearchResult)
    reads e
    ensures r.partNumber == part.partNumber && r.searchStage == Some("cache")
    ensures ThreeStages(r.stageHistory) && forall i :: 0 <= i < 3 ==> r.stageHistory[i].status == Skipped
    ensures r.manufacturerName == e.manufacturerName && r.confidence == e.confidence && r.sourceUrl == e.sourceUrl
    ensures r.aliasUsed == e.aliasUsed && r.submittedManufacturer == part.manufacturerHint
    ensures r.debugLog == (if debug then e.debugLog else None)
    ensures (r.matchStatus, r.matchConfidence) == EvaluateMatch(part.manufacturerHint, e.manufacturerName, wratio)
  {
    var m := EvaluateMatch(part.manufacturerHint, e.manufacturerName, wratio);
    SearchResult(part.partNumber, e.manufacturerName, e.aliasUsed, e.confidence, e.sourceUrl,
                 if debug then e.debugLog else None, Some("cache"),
                 [Stage(Internet, Skipped), Stage(DocumentSearch, Skipped), Stage(AiAnalysis, Skipped)],
                 part.manufacturerHint, m.0, m.1)
  }

  /** The result when no stage found a manufacturer. */
  function NotFoundResult(part: PartQuery, history: seq<StageStatus>, debug: bool): (r: SearchResult)
    ensures r.partNumber == part.partNumber && r.manufacturerName.None? && r.searchStage.None?
    ensures r.matchStatus == Some(Pending) && r.matchConfidence.None?
    ensures r.submittedManufacturer == part.manufacturerHint && r.stageHistory == history
    ensures r.aliasUsed == part.manufacturerHint && r.confidence.None? && r.sourceUrl.None?
    ensures r.debugLog == (if debug then Some("No manufacturer found") else None)
  {
    SearchResult(part.partNumber, None, part.manufacturerHint, None, None,
                 if debug then Some("No manufacturer found") else None, None, history,
                 part.manufacturerHint, Some(Pending), None)
  }

  /** A stored part marked as still waiting for its submitted manufacturer to be confirmed. */
  predicate PendingRecorded(p: Part, part: PartQuery, history: seq<StageStatus>)
    reads p
  {
    && p.submittedManufacturer == part.manufacturerHint
    && p.matchStatus == Some(Pending) && p.matchConfidence.None?
    && p.debugLog == Some("No manufacturer found after all stages")
    && p.stageHistory == history
  }

  /** The result fields the not-found branch does not assign keep their values. */
  twostate predicate ResultKept(p: Part)
    reads p
  {
    && p.manufacturerId == old(p.manufacturerId) && p.manufacturerName == old(p.manufacturerName)
    && p.aliasUsed == old(p.aliasUsed) && p.confidence == old(p.confidence)
    && p.sourceUrl == old(p.sourceUrl) && p.searchStage == old(p.searchStage)
  }

  /** A new part row that no stage has given a manufacturer. */
  predicate NoResultYet(p: Part)
    reads p
  {
    && p.manufacturerId.None? && p.manufacturerName.None? && p.aliasUsed.None?
    && p.confidence.None? && p.sourceUrl.None? && p.searchStage.None?
  }

  /**
   * The not-found branch of `search_part`: with a truthy hint, the newest
   * stored part (or a new one) records the hint as pending.
   */
  method SaveNotFound(store: SearchEngine.PartStore, part: PartQuery, existing: Option<nat>, history: seq<StageStatus>, debug: bool)
    returns (result: SearchResult)
    requires existing.Some? ==> existing.value < |store.parts| && store.parts[existing.value].partNumber == part.partNumber
    modifies store, if existing.Some? then {store.parts[existing.value]} else {}
    ensures result == NotFoundResult(part, history, debug)
    ensures !Truthy(part.manufacturerHint) || existing.Some? ==> store.parts == old(store.parts)
    ensures Truthy(part.manufacturerHint) && existing.Some? ==>
      var p := store.parts[existing.value];
      && PendingRecorded(p, part, history)
      && ResultKept(p)
    ensures Truthy(part.manufacturerHint) && existing.None? ==>
      && |store.parts| == |old(store.parts)| + 1 && store.parts[..|old(store.parts)|] == old(store.parts)
      && fresh(store.parts[|old(store.parts)|])
      && store.parts[|old(store.parts)|].partNumber == part.partNumber
      && NoResultYet(store.parts[|old(store.parts)|])
      && PendingRecorded(store.parts[|old(store.parts)|], part, history)
  {
    if Truthy(part.manufacturerHint) {
      var target: Part;
      if existing.Some? {
        target := store.parts[existing.value];
      } else {
        target := new Part(part.partNumber, None);
        store.Add(target);
      }
      target.submittedManufacturer := part.manufacturerHint;
      target.matchStatus := Some(Pending);
      target.matchConfidence := None;
      target.debugLog := Some("No manufacturer found after all stages");
      target.stageHistory := history;
    }
    result := NotFoundResult(part, history, debug);
  }

  /** The result when a stage found a manufacturer, stored under the name `name` it resolved to. */
  function FoundResult(part: PartQuery, c: SearchCandidate, name: string, stage: Option<string>, history: seq<StageStatus>,
                       debug: bool, wratio: (string, string) -> int): (r: SearchResult)
    ensures r.partNumber == part.partNumber && r.manufacturerName == Some(name)
    ensures r.confidence == Some(c.confidence) && r.sourceUrl == Some(c.sourceUrl) && r.aliasUsed == c.aliasUsed
    ensures r.searchStage == stage && r.stageHistory == history
    ensures (r.matchStatus, r.matchConfidence) == EvaluateMatch(part.manufacturerHint, Some(name), wratio)
  {
    var m := EvaluateMatch(part.manufacturerHint, Some(name), wratio);
    SearchResult(part.partNumber, Some(name), c.aliasUsed, Some(c.confidence), Some(c.sourceUrl),
                 if debug then Some(c.debugInfo) else None, stage, history, part.manufacturerHint, m.0, m.1)
  }

  /** A stored part holding what `FoundResult` reports, linked to manufacturer row `id`. */
  predicate FoundRecorded(p: Part, id: nat, r: SearchResult)
    reads p
  {
    p.manufacturerId == Some(id) && ResultRecorded(p, r)
  }

  /** A stored part holding the fields of result `r`. */
  predicate ResultRecorded(p: Part, r: SearchResult)
    reads p
  {
    && p.manufacturerName == r.manufacturerName && p.aliasUsed == r.aliasUsed
    && p.submittedManufacturer == r.submittedManufacturer
    && p.matchStatus == r.matchStatus && p.matchConfidence == r.matchConfidence
    && p.confidence == r.confidence && p.sourceUrl == r.sourceUrl && p.debugLog == r.debugLog
    && p.searchStage == r.searchStage && p.stageHistory == r.stageHistory
  }

  /**
   * The found branch of `search_part` after normalisation: the manufacturer
   * is resolved, the candidate's alias synced to it, and the newest stored
   * part (or a new one) records the result.
   */
  method SaveFound(table: SearchEngine.ManufacturerTable, store: SearchEngine.PartStore, part: PartQuery, existing: Option<nat>,
                   c: SearchCandidate, normalized: string, stage: Option<string>, history: seq<StageStatus>,
                   debug: bool, wratio: (string, string) -> int)
    returns (result: SearchResult, id: nat)
    requires existing.Some? ==> existing.value < |store.parts| && store.parts[existing.value].partNumber == part.partNumber
    modifies table, store, if existing.Some? then {store.parts[existing.value]} else {}
    ensures id < |table.rows| && result.manufacturerName == Some(table.rows[id].name)
    ensures Lower(table.rows[id].name) == Lower(normalized)
    ensures result == FoundResult(part, c, table.rows[id].name, stage, history, debug, wratio)
    ensures SearchEngine.ResolvedAndSynced(old(table.rows), table.rows, normalized, id, c.aliasUsed)
    ensures existing.Some? ==> store.parts == old(store.parts) && FoundRecorded(store.parts[existing.value], id, result)
    ensures existing.None? ==>
      && |store.parts| == |old(store.parts)| + 1 && store.parts[..|old(store.parts)|] == old(store.parts)
      && fresh(store.parts[|old(store.parts)|])
      && store.parts[|old(store.parts)|].partNumber == part.partNumber
      && FoundRecorded(store.parts[|old(store.parts)|], id, result)
  {
    ghost var before := table.rows;
    id := table.Resolve(normalized);
    assert table.rows == SearchEngine.Resolved(before, normalized, id);
    if Truthy(c.aliasUsed) {
      table.SyncAliases(id, [c.aliasUsed.value]);
      SearchEngine.AliasKnownAfterSync(SearchEngine.Resolved(before, normalized, id)[id].aliases, c.aliasUsed.value);
    }
    var name := table.rows[id].name;
    result := FoundResult(part, c, name, stage, history, debug, wratio);
    if existing.Some? {
      Record(store.parts[existing.value], id, result);
    } else {
      var target := new Part(part.partNumber, Some(id));
      Record(target, id, result);
      store.Add(target);
    }
  }

  /** The field assignments of the found branch. */
  method Record(target: Part, id: nat, result: SearchResult)
    modifies target
    ensures FoundRecorded(target, id, result)
  {
    target.manufacturerId := Some(id);
    target.manufacturerName := result.manufacturerName;
    target.aliasUsed := result.aliasUsed;
    target.submittedManufacturer := result.submittedManufacturer;
    target.matchStatus := result.matchStatus;
    target.matchConfidence := result.matchConfidence;
    target.confidence := result.confidence;
    target.sourceUrl := result.sourceUrl;
    target.debugLog := result.debugLog;
    target.searchStage := result.searchStage;
    target.stageHistory := result.stageHistory;
  }

  /**
   * What `search_part` promises once the cache does not apply: the stages'
   * temporary files are gone; without a candidate the "not found" result,
   * with the hint recorded as pending on the newest stored part (or a new
   * one) when a hint was submitted; with a candidate either the exception
   * `normalize_manufacturer_name` raises, changing nothing, or the found
   * result under the resolved name, recorded on the newest stored part (or
   * a new one).
   */
  twostate predicate SearchedAndStored(world: World, table: SearchEngine.ManufacturerTable, store: SearchEngine.PartStore,
                                       temp: TempDir, part: PartQuery, debug: bool, new outcome: Result<SearchResult, string>)
    reads table, store, store.parts, temp
  {
    var existing := LatestIndex(old(store.parts), part.partNumber);
    && temp.files == old(temp.files) - StagesOpened(world, part)
    && (outcome.Ok? ==> outcome.value.partNumber == part.partNumber && outcome.value.stageHistory == Pipeline(world, part).history)
    && (Pipeline(world, part).candidate.None? ==>
      && outcome == Ok(NotFoundResult(part, Pipeline(world, part).history, debug))
      && table.rows == old(table.rows)
      && (!Truthy(part.manufacturerHint) || existing.Some? ==> store.parts == old(store.parts))
      && (Truthy(part.manufacturerHint) && existing.Some? ==>
            PendingRecorded(store.parts[existing.value], part, Pipeline(world, part).history) &&
            ResultKept(store.parts[existing.value]))
      && (Truthy(part.manufacturerHint) && existing.None? ==>
            |store.parts| == |old(store.parts)| + 1 && store.parts[..|old(store.parts)|] == old(store.parts) &&
            store.parts[|old(store.parts)|].partNumber == part.partNumber &&
            NoResultYet(store.parts[|old(store.parts)|]) &&
            PendingRecorded(store.parts[|old(store.parts)|], part, Pipeline(world, part).history))
    )
    && (Pipeline(world, part).candidate.Some? ==>
      var c := Pipeline(world, part).candidate.value;
      && (outcome.Err? <==> world.normalize(c.manufacturer).None?)
      && (outcome.Err? ==> table.rows == old(table.rows) && store.parts == old(store.parts))
      && (outcome.Ok? ==>
            && outcome.value.manufacturerName.Some?
            && Lower(outcome.value.manufacturerName.value) == Lower(world.normalize(c.manufacturer).value)
            && outcome.value == FoundResult(part, c, outcome.value.manufacturerName.value, Pipeline(world, part).stage,
                                            Pipeline(world, part).history, debug, world.wratio))
      && (outcome.Ok? && existing.Some? ==>
            store.parts == old(store.parts) && ResultRecorded(store.parts[existing.value], outcome.value))
      && (outcome.Ok? && existing.None? ==>
            |store.parts| == |old(store.parts)| + 1 && store.parts[..|old(store.parts)|] == old(store.parts) &&
            ResultRecorded(store.parts[|old(store.parts)|], outcome.value))
      && (outcome.Ok? ==>
            var target := if existing.Some? then existing.value else |old(store.parts)|;
            && target < |store.parts|
            && store.parts[target].manufacturerId.Some?
            && var id := store.parts[target].manufacturerId.value;
            && SearchEngine.ResolvedAndSynced(old(table.rows), table.rows, world.normalize(c.manufacturer).value, id, c.aliasUsed)
            && outcome.value.manufacturerName == Some(table.rows[id].name))
    )
  }

  /**
   * `search_part` after the cache check: the stages run and their outcome
   * is stored on the newest stored part `existing`, or on a new one.
   */
  method SearchAndStore(world: World, table: SearchEngine.ManufacturerTable, store: SearchEngine.PartStore, temp: TempDir,
                        part: PartQuery, existing: Option<nat>, debug: bool) returns (outcome: Result<SearchResult, string>)
    requires existing == LatestIndex(store.parts, part.partNumber)
    modifies table, store, if existing.Some? then {store.parts[existing.value]} else {}, temp
    ensures SearchedAndStored(world, table, store, temp, part, debug, outcome)
    ensures outcome.Ok? && Truthy(outcome.value.manufacturerName) &&
            (!Truthy(part.manufacturerHint) || outcome.value.matchStatus == Some(Matched)) ==>
      CacheApplies(store, part, world.wratio)
  {
    var run := RunStages(world, temp, part);
    if run.candidate.None? {
      var r := SaveNotFound(store, part, existing, run.history, debug);
      return Ok(r);
    }
    var normalized := world.normalize(run.candidate.value.manufacturer);
    if normalized.None? {
      return Err("normalize_manufacturer_name raised");
    }
    var r, id := SaveFound(table, store, part, existing, run.candidate.value, normalized.value, run.stage, run.history,
                           debug, world.wratio);
    if existing.None? {
      LatestIndexOfAppended(old(store.parts), store.parts[|old(store.parts)|]);
    }
    outcome := Ok(r);
  }

  /**
   * `OptimizedPartSearchEngine.search_part`. A stored result that no
   * submitted hint contradicts is answered from the store; otherwise the
   * stages run and their outcome is stored (`SearchAndStore`). `Err` is the
   * exception `normalize_manufacturer_name` raises on the final candidate,
   * which `search_part` does not catch.
   */
  method SearchPart(world: World, table: SearchEngine.ManufacturerTable, store: SearchEngine.PartStore, temp: TempDir,
                    part: PartQuery, debug: bool) returns (outcome: Result<SearchResult, string>)
    modifies table, store, temp
    modifies if LatestIndex(store.parts, part.partNumber).Some? then {store.parts[LatestIndex(store.parts, part.partNumber).value]} else {}
    ensures outcome.Ok? ==> outcome.value.partNumber == part.partNumber && ThreeStages(outcome.value.stageHistory)
    ensures old(CacheApplies(store, part, world.wratio)) ==>
      && outcome == Ok(old(CachedResult(store.parts[LatestIndex(store.parts, part.partNumber).value], part, world.wratio, debug)))
      && unchanged(table, store, temp) && unchanged(store.parts)
    ensures forall i :: 0 <= i < |old(store.parts)| && old(store.parts)[i].partNumber != part.partNumber ==>
      unchanged(old(store.parts)[i])
    ensures !old(CacheApplies(store, part, world.wratio)) ==> SearchedAndStored(world, table, store, temp, part, debug, outcome)
    ensures outcome.Ok? && Truthy(outcome.value.manufacturerName) &&
            (!Truthy(part.manufacturerHint) || outcome.value.matchStatus == Some(Matched)) ==>
      CacheApplies(store, part, world.wratio)
  {
    var existing := LatestIndex(store.parts, part.partNumber);
    if existing.Some? {
      var e := store.parts[existing.value];
      if Truthy(e.manufacturerName) {
        var m := EvaluateMatch(part.manufacturerHint, e.manufacturerName, world.wratio);
        if !Truthy(part.manufacturerHint) || m.0 == Some(Matched) {
          return Ok(CachedResult(e, part, world.wratio, debug));
        }
      }
    }
    outcome := SearchAndStore(world, table, store, temp, part, existing, debug);
  }
}
