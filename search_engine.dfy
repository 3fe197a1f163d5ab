/**
 * The legacy search engine (backend/app/services/search_engine.py):
 * URL aggregation with escalation from the configured providers to Google
 * Custom Search and then to the fallback provider, order-preserving
 * de-duplication, the line and token heuristics that guess a manufacturer
 * from document text, the best-candidate choice, case-insensitive alias
 * syncing and the `search_part` / `search_many` bookkeeping.
 *
 * Provider replies, the text extractor, the two fuzzy matchers of
 * rapidfuzz and the formatting of a score with two decimals are the
 * fields of `Web`; the database is two in-memory tables.
 */
module SearchEngine {
  import opened Wrappers
  import opened Text
  import opened SearchProviders
  import opened Parts
  import DocumentParser

  /** Who is asked for URLs: the i-th configured provider, the Google provider or the fallback provider. */
  datatype Source = Primary(index: nat) | Google | Fallback

  /** `process.extractOne`: the chosen name and its score out of 100, or nothing. */
  datatype FuzzyMatch = FuzzyMatch(choice: string, score: int)

  /**
   * The outside world of one engine: what each source replies to a query
   * (`None` when it raises), how many primary providers are configured,
   * whether a Google provider is, the text extractor, the two matchers and
   * the `{x:.2f}` formatting.
   */
  datatype Web = Web(
    search: (Source, string) -> Option<seq<Hit>>,
    primaryCount: nat,
    hasGoogle: bool,
    extract: string -> Option<string>,
    wratio: (string, seq<string>) -> Option<FuzzyMatch>,
    partialRatio: (string, seq<string>) -> Option<FuzzyMatch>,
    formatScore: real -> string)

  // ---------------------------------------------------------------------
  // URL aggregation
  // ---------------------------------------------------------------------

  /** The truthy `link` values of the hits, in order. */
  function LinksOf(hits: seq<Hit>): (r: seq<string>)
    ensures |r| <= |hits|
    ensures forall i :: 0 <= i < |r| ==> r[i] != ""
    ensures forall x :: x in r <==> x != "" && exists j :: 0 <= j < |hits| && hits[j].link == Str(x)
  {
    if hits == [] then []
    else
      var rest := LinksOf(hits[1..]);
      assert forall j :: 1 <= j < |hits| ==> hits[j] == hits[1..][j - 1];
      if hits[0].link.Truthy() then [hits[0].link.s] + rest else rest
  }

  /** Links keep the order of the hits they come from. */
  lemma {:induction false} LinksOfAppend(a: seq<Hit>, b: seq<Hit>)
    ensures LinksOf(a + b) == LinksOf(a) + LinksOf(b)
  {
    if a == [] {
      assert a + b == b;
    } else {
      assert (a + b)[0] == a[0] && (a + b)[1..] == a[1..] + b;
      LinksOfAppend(a[1..], b);
    }
  }

  /** `_search_with_provider`: the links of the reply, nothing when the provider raised. */
  function SearchWithProvider(reply: Option<seq<Hit>>): (r: seq<string>)
    ensures reply.None? ==> r == []
    ensures reply.Some? ==> r == LinksOf(reply.value)
  {
    match reply
    case None => []
    case Some(hits) => LinksOf(hits)
  }

  /** The query `_aggregate_urls` sends to every provider. */
  function AggregateQuery(part: PartQuery): string {
    part.partNumber + " " + part.manufacturerHint.GetOr("") + " datasheet manufacturer"
  }

  /** The links of the first `n` primary providers, in provider order. */
  function PrimaryUrls(web: Web, query: string, n: nat): (r: seq<string>)
    ensures n == 0 ==> r == []
    ensures forall i :: 0 <= i < |r| ==> r[i] != ""
  {
    if n == 0 then []
    else PrimaryUrls(web, query, n - 1) + SearchWithProvider(web.search(Primary(n - 1), query))
  }

  /** The Google provider is asked only when the primary providers gave no URL. */
  predicate AsksGoogle(web: Web, query: string) {
    web.hasGoogle && PrimaryUrls(web, query, web.primaryCount) == []
  }

  function UrlsBeforeFallback(web: Web, query: string): seq<string> {
    if AsksGoogle(web, query) then SearchWithProvider(web.search(Google, query))
    else PrimaryUrls(web, query, web.primaryCount)
  }

  /** The fallback provider is asked only when neither the primary providers nor Google gave a URL. */
  predicate AsksFallback(web: Web, query: string) {
    UrlsBeforeFallback(web, query) == []
  }

  /** Every URL collected by `_aggregate_urls` before de-duplication. */
  function EscalatedUrls(web: Web, query: string): (r: seq<string>)
    ensures PrimaryUrls(web, query, web.primaryCount) != [] ==> r == PrimaryUrls(web, query, web.primaryCount)
    ensures AsksGoogle(web, query) && SearchWithProvider(web.search(Google, query)) != [] ==>
      r == SearchWithProvider(web.search(Google, query))
    ensures AsksFallback(web, query) ==> r == SearchWithProvider(web.search(Fallback, query))
    ensures AsksFallback(web, query) <==>
      PrimaryUrls(web, query, web.primaryCount) == [] && (web.hasGoogle ==> SearchWithProvider(web.search(Google, query)) == [])
  {
    if AsksFallback(web, query) then SearchWithProvider(web.search(Fallback, query))
    else UrlsBeforeFallback(web, query)
  }

  /**
   * `_aggregate_urls`: the primary providers in order, Google only when they
   * gave nothing, the fallback only when there is still nothing, then every
   * URL once, in the order it was first seen.
   */
  method AggregateUrls(web: Web, part: PartQuery) returns (urls: seq<string>, askedGoogle: bool, askedFallback: bool)
    ensures askedGoogle <==> AsksGoogle(web, AggregateQuery(part))
    ensures askedFallback <==> AsksFallback(web, AggregateQuery(part))
    ensures urls == Dedup(EscalatedUrls(web, AggregateQuery(part)))
  {
    var query := AggregateQuery(part);
    var collected: seq<string> := [];
    var i := 0;
    while i < web.primaryCount
      invariant i <= web.primaryCount
      invariant collected == PrimaryUrls(web, query, i)
    {
      collected := collected + SearchWithProvider(web.search(Primary(i), query));
      i := i + 1;
    }
    askedGoogle, askedFallback := false, false;
    if collected == [] && web.hasGoogle {
      askedGoogle := true;
      collected := collected + SearchWithProvider(web.search(Google, query));
    }
    if collected == [] {
      askedFallback := true;
      collected := collected + SearchWithProvider(web.search(Fallback, query));
    }
    assert collected == EscalatedUrls(web, query);
    urls := UniqueUrls(collected);
  }

  /** The `seen` loop of `_aggregate_urls`: every URL once, in the order it was first seen. */
  method UniqueUrls(collected: seq<string>) returns (urls: seq<string>)
    ensures urls == Dedup(collected)
  {
    var seen: set<string> := {};
    urls := [];
    var k := 0;
    while k < |collected|
      invariant k <= |collected|
      invariant urls == Dedup(collected[..k])
      invariant forall u :: u in seen <==> u in urls
    {
      var url := collected[k];
      assert collected[..k + 1] == collected[..k] + [url];
      DedupSnoc(collected[..k], url);
      if url !in seen {
        seen := seen + {url};
        urls := urls + [url];
      }
      k := k + 1;
    }
    assert collected[..k] == collected;
  }

  // ---------------------------------------------------------------------
  // Guessing a manufacturer from document text
  // ---------------------------------------------------------------------

  /** Python's `needle.lower() in line.lower()`. */
  predicate Mentions(line: string, needle: string) {
    Contains(Lower(line), Lower(needle))
  }

  /** The lines that mention `needle`, in order. */
  function LinesContaining(lines: seq<string>, needle: string): seq<string> {
    Filter(lines, (l: string) => Mentions(l, needle))
  }

  /**
   * The candidate lines: those that mention the part number, else those
   * that mention a given hint, else the first 20 lines.
   */
  function CandidateLines(lines: seq<string>, part: PartQuery): seq<string> {
    var byPart := LinesContaining(lines, part.partNumber);
    var byHint := if byPart == [] && Truthy(part.manufacturerHint) then LinesContaining(lines, part.manufacturerHint.value) else byPart;
    if byHint != [] then byHint else Take(lines, 20)
  }

  /**
   * The three tiers of candidate lines: when some line mentions the part
   * number, exactly those lines; otherwise, when a hint is given and some
   * line mentions it, exactly those; otherwise the first 20 lines. There
   * are candidates whenever there are lines.
   */
  lemma CandidateLineTiers(lines: seq<string>, part: PartQuery)
    ensures var r := CandidateLines(lines, part);
      && (forall x :: x in r ==> x in lines)
      && ((exists j :: 0 <= j < |lines| && Mentions(lines[j], part.partNumber)) ==>
            forall x :: x in r <==> x in lines && Mentions(x, part.partNumber))
      && ((forall j :: 0 <= j < |lines| ==> !Mentions(lines[j], part.partNumber)) && Truthy(part.manufacturerHint)
            && (exists j :: 0 <= j < |lines| && Mentions(lines[j], part.manufacturerHint.value)) ==>
            forall x :: x in r <==> x in lines && Mentions(x, part.manufacturerHint.value))
      && ((forall j :: 0 <= j < |lines| ==> !Mentions(lines[j], part.partNumber))
          && (!Truthy(part.manufacturerHint) || forall j :: 0 <= j < |lines| ==> !Mentions(lines[j], part.manufacturerHint.value)) ==>
            r == Take(lines, 20))
      && (r == [] <==> lines == [])
  {
    var r := CandidateLines(lines, part);
    var byPart := LinesContaining(lines, part.partNumber);
    assert forall x :: x in byPart <==> x in lines && Mentions(x, part.partNumber);
    if exists j :: 0 <= j < |lines| && Mentions(lines[j], part.partNumber) {
      var j :| 0 <= j < |lines| && Mentions(lines[j], part.partNumber);
      assert lines[j] in byPart;
      assert r == byPart;
    } else if Truthy(part.manufacturerHint) {
      var byHint := LinesContaining(lines, part.manufacturerHint.value);
      assert forall x :: x in byHint <==> x in lines && Mentions(x, part.manufacturerHint.value);
      FilterNoneKept(lines, (l: string) => Mentions(l, part.partNumber));
      if exists j :: 0 <= j < |lines| && Mentions(lines[j], part.manufacturerHint.value) {
        var j :| 0 <= j < |lines| && Mentions(lines[j], part.manufacturerHint.value);
        assert lines[j] in byHint;
        assert r == byHint;
      } else {
        FilterNoneKept(lines, (l: string) => Mentions(l, part.manufacturerHint.value));
        assert r == Take(lines, 20);
      }
    } else {
      FilterNoneKept(lines, (l: string) => Mentions(l, part.partNumber));
      assert r == Take(lines, 20);
    }
  }

  /** The characters each token is stripped of. */
  const TokenPunctuation: set<char> := {' ', ',', '.', ';', ':', '(', ')', '[', ']'}

  function StripEach(tokens: seq<string>): (r: seq<string>)
    ensures |r| == |tokens|
  {
    if tokens == [] then [] else [StripChars(tokens[0], TokenPunctuation)] + StripEach(tokens[1..])
  }

  /** The alphabetic whitespace-separated tokens of a line, each stripped of punctuation. */
  function AlphaTokens(line: string): seq<string> {
    StripEach(Filter(Words(line), (t: string) => IsAlpha(t)))
  }

  /**
   * The stripping is a no-op: a token is kept only when it is all letters,
   * and no letter is a punctuation character.
   */
  lemma {:induction false} StripIsNoop(tokens: seq<string>)
    requires forall i :: 0 <= i < |tokens| ==> IsAlpha(tokens[i])
    ensures StripEach(tokens) == tokens
  {
    if tokens != [] {
      StripCharsNoop(tokens[0], TokenPunctuation);
      StripIsNoop(tokens[1..]);
    }
  }

  /** The name a candidate line contributes: its first three alphabetic tokens joined with spaces. */
  function NameOf(line: string): Option<string> {
    var tokens := AlphaTokens(line);
    if tokens == [] then None else Some(Join(Take(tokens, 3), " "))
  }

  /** One to three alphabetic words separated by single spaces. */
  predicate ShortAlphaName(name: string) {
    var words := Split(name, ' ');
    1 <= |words| <= 3 && forall i :: 0 <= i < |words| ==> IsAlpha(words[i])
  }

  /** Every name is one to three of the line's own alphabetic words. */
  lemma NameIsAlphaWords(line: string)
    requires NameOf(line).Some?
    ensures ShortAlphaName(NameOf(line).value)
    ensures forall w :: w in Split(NameOf(line).value, ' ') ==> w in Words(line)
  {
    var kept := Filter(Words(line), (t: string) => IsAlpha(t));
    assert forall i :: 0 <= i < |kept| ==> kept[i] in kept;
    StripIsNoop(kept);
    var words := Take(kept, 3);
    assert forall i :: 0 <= i < |words| ==> words[i] == kept[i];
    forall i | 0 <= i < |words|
      ensures ' ' !in words[i]
    {
      assert IsAlpha(words[i]);
    }
    SplitJoin(words, ' ');
  }

  /** The names of the candidate lines, one per line that has an alphabetic token, in line order. */
  function NamesOf(lines: seq<string>): (r: seq<string>)
    ensures |r| <= |lines|
  {
    if lines == [] then []
    else
      var names := NamesOf(lines[..|lines| - 1]);
      var name := NameOf(lines[|lines| - 1]);
      if name.None? then names else names + [name.value]
  }

  /**
   * Each candidate line contributes at most one name, every name is one to
   * three alphabetic words, and there is no name only when no line has an
   * alphabetic token.
   */
  lemma {:induction false} NamesAreShortAlphaNames(lines: seq<string>)
    ensures forall i :: 0 <= i < |NamesOf(lines)| ==> ShortAlphaName(NamesOf(lines)[i])
    ensures NamesOf(lines) == [] <==> forall j :: 0 <= j < |lines| ==> NameOf(lines[j]).None?
  {
    if lines != [] {
      var init := lines[..|lines| - 1];
      var last := lines[|lines| - 1];
      assert forall j :: 0 <= j < |lines| - 1 ==> init[j] == lines[j];
      NamesAreShortAlphaNames(init);
      assert NamesOf(lines) == if NameOf(last).None? then NamesOf(init) else NamesOf(init) + [NameOf(last).value];
      if NameOf(last).Some? {
        NameIsAlphaWords(last);
        ShortAlphaNamesSnoc(NamesOf(init), NameOf(last).value);
      }
    }
  }

  lemma ShortAlphaNamesSnoc(names: seq<string>, name: string)
    requires forall i :: 0 <= i < |names| ==> ShortAlphaName(names[i])
    requires ShortAlphaName(name)
    ensures forall i :: 0 <= i < |names + [name]| ==> ShortAlphaName((names + [name])[i])
  {
    forall i | 0 <= i < |names + [name]|
      ensures ShortAlphaName((names + [name])[i])
    {
      if i < |names| {
        assert (names + [name])[i] == names[i];
      } else {
        assert (names + [name])[i] == name;
      }
    }
  }

  /** The `for line in candidates` loop of `_guess_manufacturer_from_text`. */
  method ManufacturerNames(lines: seq<string>) returns (names: seq<string>)
    ensures names == NamesOf(lines)
  {
    names := [];
    var i := 0;
    while i < |lines|
      invariant i <= |lines|
      invariant names == NamesOf(lines[..i])
    {
      assert lines[..i + 1][..i] == lines[..i];
      var tokens := AlphaTokens(lines[i]);
      if tokens != [] {
        names := names + [Join(Take(tokens, 3), " ")];
      }
      i := i + 1;
    }
    assert lines[..i] == lines;
  }

  /** A guess: manufacturer, alias used, confidence and the debug note. */
  datatype Guess = Guess(manufacturer: string, alias: Option<string>, confidence: real, debug: string)

  /**
   * `_guess_manufacturer_from_text` on the names of the candidate lines:
   * a hint matched by WRatio wins with the hint as alias; otherwise the
   * part number matched by partial_ratio; otherwise the first name at 0.3.
   */
  function GuessFromNames(names: seq<string>, part: PartQuery, web: Web): (g: Option<Guess>)
    ensures g.None? <==> names == []
    ensures g.Some? && g.value.alias.Some? ==> Truthy(part.manufacturerHint) && g.value.alias == part.manufacturerHint
    ensures names != [] && Truthy(part.manufacturerHint) && web.wratio(part.manufacturerHint.value, names).Some? ==>
      var m := web.wratio(part.manufacturerHint.value, names).value;
      g.Some? && g.value.manufacturer == m.choice && g.value.alias == part.manufacturerHint &&
      g.value.confidence == m.score as real / 100.0
    ensures names != [] && (Truthy(part.manufacturerHint) ==> web.wratio(part.manufacturerHint.value, names).None?) &&
            web.partialRatio(part.partNumber, names).Some? ==>
      var m := web.partialRatio(part.partNumber, names).value;
      g.Some? && g.value.manufacturer == m.choice && g.value.alias.None? && g.value.confidence == m.score as real / 100.0
    ensures names != [] && (Truthy(part.manufacturerHint) ==> web.wratio(part.manufacturerHint.value, names).None?) &&
            web.partialRatio(part.partNumber, names).None? ==>
      g == Some(Guess(names[0], None, 0.3, "Fallback manufacturer selection"))
  {
    if names == [] then None
    else
      var byHint := if Truthy(part.manufacturerHint) then web.wratio(part.manufacturerHint.value, names) else None;
      if byHint.Some? then
        var confidence := byHint.value.score as real / 100.0;
        Some(Guess(byHint.value.choice, part.manufacturerHint, confidence,
                   "Matched alias '" + part.manufacturerHint.value + "' with score " + web.formatScore(confidence)))
      else
        match web.partialRatio(part.partNumber, names)
        case Some(top) =>
          var confidence := top.score as real / 100.0;
          Some(Guess(top.choice, None, confidence, "Heuristic manufacturer from datasheet context score " + web.formatScore(confidence)))
        case None => Some(Guess(names[0], None, 0.3, "Fallback manufacturer selection"))
  }

  function GuessOf(text: string, part: PartQuery, web: Web): Option<Guess> {
    GuessFromNames(NamesOf(CandidateLines(SplitLines(text), part)), part, web)
  }

  /** `GuessOf` for one part, as a function of the document text. */
  function Guesser(part: PartQuery, web: Web): string -> Option<Guess> {
    (text: string) => GuessOf(text, part, web)
  }

  /** `_guess_manufacturer_from_text`. */
  method GuessManufacturerFromText(text: string, part: PartQuery, web: Web) returns (g: Option<Guess>)
    ensures g == GuessOf(text, part, web) && g == Guesser(part, web)(text)
  {
    var names := ManufacturerNames(CandidateLines(SplitLines(text), part));
    g := GuessFromNames(names, part, web);
  }

  // ---------------------------------------------------------------------
  // Candidates and the best one
  // ---------------------------------------------------------------------

  /** The `(url, text)` items of `extract_from_urls`, in the order of the URLs, only URLs with text. */
  function ContentItems(urls: seq<string>, extract: string -> Option<string>): (r: seq<(string, string)>)
    ensures |r| <= |urls|
    ensures forall k :: 0 <= k < |r| ==> r[k].0 in urls && extract(r[k].0) == Some(r[k].1) && r[k].1 != ""
  {
    if urls == [] then []
    else
      var init := urls[..|urls| - 1];
      var last := urls[|urls| - 1];
      assert forall k :: 0 <= k < |init| ==> init[k] in urls;
      var items := ContentItems(init, extract);
      if DocumentParser.HasText(extract(last)) then items + [(last, extract(last).value)] else items
  }

  /** The ordered items hold exactly the entries of the map `extract_from_urls` builds. */
  lemma {:induction false} ContentItemsAreTheMap(urls: seq<string>, extract: string -> Option<string>)
    ensures var m := DocumentParser.ExtractFromUrls(urls, extract);
      (forall k :: 0 <= k < |ContentItems(urls, extract)| ==>
         ContentItems(urls, extract)[k].0 in m && m[ContentItems(urls, extract)[k].0] == ContentItems(urls, extract)[k].1)
      && (forall u :: u in m ==> exists k :: 0 <= k < |ContentItems(urls, extract)| && ContentItems(urls, extract)[k].0 == u)
  {
    var m := DocumentParser.ExtractFromUrls(urls, extract);
    var items := ContentItems(urls, extract);
    forall u | u in m
      ensures exists k :: 0 <= k < |items| && items[k].0 == u
    {
      var j :| 0 <= j < |urls| && urls[j] == u;
      ItemOfUrl(urls, extract, j);
    }
  }

  lemma {:induction false} ItemOfUrl(urls: seq<string>, extract: string -> Option<string>, j: nat)
    requires j < |urls| && DocumentParser.HasText(extract(urls[j]))
    ensures exists k :: 0 <= k < |ContentItems(urls, extract)| && ContentItems(urls, extract)[k].0 == urls[j]
  {
    var init := urls[..|urls| - 1];
    var items := ContentItems(init, extract);
    if j == |urls| - 1 {
      assert ContentItems(urls, extract)[|items|].0 == urls[j];
    } else {
      assert init[j] == urls[j];
      ItemOfUrl(init, extract, j);
      var k :| 0 <= k < |items| && items[k].0 == urls[j];
      assert ContentItems(urls, extract)[k] == items[k];
    }
  }

  /** A candidate manufacturer found in one document. */
  datatype Candidate = Candidate(manufacturer: string, aliasUsed: Option<string>, confidence: real, sourceUrl: string, debugLog: string)

  /** The candidates of the content items, in item order. */
  function CandidatesOf(items: seq<(string, string)>, guess: string -> Option<Guess>): (r: seq<Candidate>)
    ensures |r| <= |items|
  {
    if items == [] then []
    else
      var init := items[..|items| - 1];
      var last := items[|items| - 1];
      assert forall k :: 0 <= k < |init| ==> init[k] == items[k];
      var cs := CandidatesOf(init, guess);
      match guess(last.1)
      case None => cs
      case Some(g) => cs + [Candidate(g.manufacturer, g.alias, g.confidence, last.0, g.debug)]
  }

  /** The candidates `_extract_candidates` finds: from the text of the first six aggregated URLs. */
  function CandidatesFor(web: Web, part: PartQuery): seq<Candidate> {
    var urls := Dedup(EscalatedUrls(web, AggregateQuery(part)));
    CandidatesOf(ContentItems(Take(urls, 6), web.extract), Guesser(part, web))
  }

  /** Every candidate names as its source the URL of the item it was guessed from. */
  lemma {:induction false} CandidateSources(items: seq<(string, string)>, guess: string -> Option<Guess>, urls: seq<string>)
    requires forall k :: 0 <= k < |items| ==> items[k].0 in urls
    ensures forall i :: 0 <= i < |CandidatesOf(items, guess)| ==> CandidatesOf(items, guess)[i].sourceUrl in urls
  {
    if items != [] {
      var init := items[..|items| - 1];
      assert forall k :: 0 <= k < |init| ==> init[k] == items[k];
      CandidateSources(init, guess, urls);
    }
  }

  /** At most six candidates, each from one of the first six aggregated URLs. */
  lemma CandidatesFromFirstSixUrls(web: Web, part: PartQuery)
    ensures |CandidatesFor(web, part)| <= 6
    ensures forall i :: 0 <= i < |CandidatesFor(web, part)| ==>
      CandidatesFor(web, part)[i].sourceUrl in Take(Dedup(EscalatedUrls(web, AggregateQuery(part))), 6)
  {
    var urls := Take(Dedup(EscalatedUrls(web, AggregateQuery(part))), 6);
    CandidateSources(ContentItems(urls, web.extract), Guesser(part, web), urls);
  }

  /** The `for url, text in contents.items()` loop of `_extract_candidates`. */
  method GuessAll(items: seq<(string, string)>, part: PartQuery, web: Web) returns (candidates: seq<Candidate>)
    ensures candidates == CandidatesOf(items, Guesser(part, web))
  {
    candidates := [];
    var i := 0;
    while i < |items|
      invariant i <= |items|
      invariant candidates == CandidatesOf(items[..i], Guesser(part, web))
    {
      assert items[..i + 1][..i] == items[..i];
      var (url, text) := items[i];
      var g := GuessManufacturerFromText(text, part, web);
      if g.Some? {
        candidates := candidates + [Candidate(g.value.manufacturer, g.value.alias, g.value.confidence, url, g.value.debug)];
      }
      i := i + 1;
    }
    assert items[..i] == items;
  }

  /** `_extract_candidates`: the candidates guessed from the text of the first six aggregated URLs. */
  method ExtractCandidates(web: Web, part: PartQuery) returns (candidates: seq<Candidate>)
    ensures candidates == CandidatesFor(web, part)
  {
    var urls, _, _ := AggregateUrls(web, part);
    if urls == [] {
      return [];
    }
    candidates := GuessAll(ContentItems(Take(urls, 6), web.extract), part, web);
  }

  /** `max(candidates, key=confidence)`: the first candidate of maximal confidence. */
  function BestIndex(cs: seq<Candidate>): (k: nat)
    requires |cs| >= 1
    ensures k < |cs|
    ensures forall j :: 0 <= j < |cs| ==> cs[j].confidence <= cs[k].confidence
    ensures forall j :: 0 <= j < k ==> cs[j].confidence < cs[k].confidence
  {
    if |cs| == 1 then 0
    else
      var k := BestIndex(cs[..|cs| - 1]);
      assert forall j :: 0 <= j < |cs| - 1 ==> cs[..|cs| - 1][j] == cs[j];
      if cs[|cs| - 1].confidence > cs[k].confidence then |cs| - 1 else k
  }

  // ---------------------------------------------------------------------
  // Manufacturers, aliases and parts
  // ---------------------------------------------------------------------

  /** The lower-cased names of the aliases. */
  function LowerNames(aliases: seq<string>): (r: set<string>)
    ensures forall i :: 0 <= i < |aliases| ==> Lower(aliases[i]) in r
    ensures forall x :: x in r ==> exists i :: 0 <= i < |aliases| && Lower(aliases[i]) == x
  {
    set i | 0 <= i < |aliases| :: Lower(aliases[i])
  }

  /** The aliases `sync_aliases` adds: those whose lower-case form is not among the existing ones. */
  function NewAliases(existing: seq<string>, aliases: seq<string>): (r: seq<string>)
    ensures |r| <= |aliases|
    ensures forall a :: a in r <==> a in aliases && Lower(a) !in LowerNames(existing)
  {
    Filter(aliases, (a: string) => Lower(a) !in LowerNames(existing))
  }

  /** One more alias considered: it is added exactly when its lower-case form is new. */
  lemma NewAliasesStep(existing: seq<string>, aliases: seq<string>, i: nat)
    requires i < |aliases|
    ensures NewAliases(existing, aliases[..i + 1]) ==
      NewAliases(existing, aliases[..i]) + (if Lower(aliases[i]) !in LowerNames(existing) then [aliases[i]] else [])
  {
    assert aliases[..i + 1] == aliases[..i] + [aliases[i]];
    FilterSnoc(aliases[..i], aliases[i], (a: string) => Lower(a) !in LowerNames(existing));
  }

  /** An alias that differs from an existing one only in case is never added. */
  lemma CaseVariantNotAdded(existing: seq<string>, aliases: seq<string>, i: nat, j: nat)
    requires i < |existing| && j < |aliases| && Lower(aliases[j]) == Lower(existing[i])
    ensures aliases[j] !in NewAliases(existing, aliases)
  {
    assert Lower(existing[i]) in LowerNames(existing);
  }

  /** After a sync the alias is known, ignoring case, whether or not it was appended. */
  lemma AliasKnownAfterSync(existing: seq<string>, alias: string)
    ensures Lower(alias) in LowerNames(existing + NewAliases(existing, [alias]))
  {
    var all := existing + NewAliases(existing, [alias]);
    if Lower(alias) !in LowerNames(existing) {
      assert alias in NewAliases(existing, [alias]);
      var i :| |existing| <= i < |all| && all[i] == alias;
    } else {
      var i :| 0 <= i < |existing| && Lower(existing[i]) == Lower(alias);
      assert all[i] == existing[i];
    }
  }

  /** The manufacturer table; a manufacturer is known by its position. */
  class ManufacturerTable {
    var rows: seq<Manufacturer>

    constructor ()
      ensures rows == []
    {
      rows := [];
    }

    /**
     * `ManufacturerResolver.resolve`: the first row whose name equals
     * `name` ignoring case, or a new row with that name at the end.
     */
    method Resolve(name: string) returns (id: nat)
      modifies this
      ensures id <= |old(rows)| && id < |rows| && Lower(rows[id].name) == Lower(name)
      ensures forall j :: 0 <= j < id && j < |old(rows)| ==> Lower(old(rows)[j].name) != Lower(name)
      ensures id < |old(rows)| ==> rows == old(rows)
      ensures id == |old(rows)| ==> rows == old(rows) + [Manufacturer(name, [])]
    {
      var i := 0;
      while i < |rows|
        invariant i <= |rows|
        invariant forall j :: 0 <= j < i ==> Lower(rows[j].name) != Lower(name)
      {
        if Lower(rows[i].name) == Lower(name) {
          return i;
        }
        i := i + 1;
      }
      rows := rows + [Manufacturer(name, [])];
      id := i;
    }

    /**
     * `ManufacturerResolver.sync_aliases`: appends the new aliases in order;
     * the existing ones are kept as they are. The set of known lower-case
     * names is taken once, before the loop.
     */
    method SyncAliases(id: nat, aliases: seq<string>)
      requires id < |rows|
      modifies this
      ensures |rows| == |old(rows)|
      ensures rows == old(rows)[id := Manufacturer(old(rows)[id].name, old(rows)[id].aliases + NewAliases(old(rows)[id].aliases, aliases))]
    {
      var existing := LowerNames(rows[id].aliases);
      ghost var before := rows[id].aliases;
      assert aliases[..0] == [] && before + [] == before;
      var i := 0;
      while i < |aliases|
        invariant i <= |aliases|
        invariant |rows| == |old(rows)|
        invariant forall j :: 0 <= j < |rows| && j != id ==> rows[j] == old(rows)[j]
        invariant rows[id] == Manufacturer(old(rows)[id].name, before + NewAliases(before, aliases[..i]))
      {
        NewAliasesStep(before, aliases, i);
        if Lower(aliases[i]) !in existing {
          rows := rows[id := rows[id].(aliases := rows[id].aliases + [aliases[i]])];
        }
        i := i + 1;
      }
      assert aliases[..i] == aliases;
    }
  }

  /** The part table. */
  class PartStore {
    var parts: seq<Part>

    constructor ()
      ensures parts == []
    {
      parts := [];
    }

    /** `session.add(part)`. */
    method Add(p: Part)
      modifies this
      ensures parts == old(parts) + [p]
    {
      parts := parts + [p];
    }
  }

  /** The result for a part no candidate was found for. */
  function NoSourcesResult(part: PartQuery): SearchResult {
    SearchResult(part.partNumber, None, part.manufacturerHint, None, None, Some("No sources found"), None, [], None, None, None)
  }

  /** The part row `search_part` stores for the best candidate. */
  method NewPartRow(partNumber: string, id: nat, manufacturerName: string, best: Candidate, debugLog: Option<string>)
    returns (p: Part)
    ensures fresh(p)
    ensures p.partNumber == partNumber && p.manufacturerId == Some(id)
    ensures p.manufacturerName == Some(manufacturerName) && p.aliasUsed == best.aliasUsed
    ensures p.confidence == Some(best.confidence) && p.sourceUrl == Some(best.sourceUrl) && p.debugLog == debugLog
  {
    p := new Part(partNumber, Some(id));
    p.manufacturerName := Some(manufacturerName);
    p.aliasUsed := best.aliasUsed;
    p.confidence := Some(best.confidence);
    p.sourceUrl := Some(best.sourceUrl);
    p.debugLog := debugLog;
  }

  /**
   * The rows after `resolve(name)` picked position `id`: unchanged when an
   * existing row matched, one new row with that name at the end otherwise.
   */
  function Resolved(rows: seq<Manufacturer>, name: string, id: nat): seq<Manufacturer> {
    if id < |rows| then rows else rows + [Manufacturer(name, [])]
  }

  /** `resolve(name)` picks `id`: the first row whose name equals `name` ignoring case, or the end. */
  predicate ResolvesTo(rows: seq<Manufacturer>, name: string, id: nat) {
    id <= |rows| && (id < |rows| ==> Lower(rows[id].name) == Lower(name)) &&
    forall j :: 0 <= j < id && j < |rows| ==> Lower(rows[j].name) != Lower(name)
  }

  /** The rows after `sync_aliases(row id, [alias])` when the alias is truthy, else unchanged. */
  function Synced(rows: seq<Manufacturer>, id: nat, alias: Option<string>): seq<Manufacturer>
    requires id < |rows|
  {
    if Truthy(alias) then
      rows[id := Manufacturer(rows[id].name, rows[id].aliases + NewAliases(rows[id].aliases, [alias.value]))]
    else rows
  }

  /**
   * The manufacturer rows `after` a `resolve(name)` on `before` that picked
   * row `id`, followed by `sync_aliases(row id, [alias])` when the alias is
   * truthy; the alias is then known to that row ignoring case.
   */
  predicate ResolvedAndSynced(before: seq<Manufacturer>, after: seq<Manufacturer>, name: string, id: nat,
                              alias: Option<string>)
  {
    && ResolvesTo(before, name, id)
    && id < |Resolved(before, name, id)|
    && after == Synced(Resolved(before, name, id), id, alias)
    && (Truthy(alias) ==> Lower(alias.value) in LowerNames(after[id].aliases))
  }

  /**
   * What `search_part` promises once its candidates are known: without
   * candidates the "No sources found" result and no change to either table;
   * otherwise the best candidate's manufacturer resolved (its alias synced
   * and then known ignoring case), one new part row carrying the resolved
   * name and the best candidate's fields, and the same fields in the result.
   */
  twostate predicate StoredBest(table: ManufacturerTable, store: PartStore, part: PartQuery, candidates: seq<Candidate>,
                                debug: bool, result: SearchResult)
    reads table, store, store.parts
  {
    && result.partNumber == part.partNumber
    && (candidates == [] ==>
          result == NoSourcesResult(part) && store.parts == old(store.parts) && table.rows == old(table.rows))
    && (candidates != [] ==>
          var best := candidates[BestIndex(candidates)];
          var n := |old(store.parts)|;
          && |store.parts| == n + 1 && store.parts[..n] == old(store.parts) && fresh(store.parts[n])
          && store.parts[n].manufacturerId.Some?
          && var id := store.parts[n].manufacturerId.value;
          && ResolvedAndSynced(old(table.rows), table.rows, best.manufacturer, id, best.aliasUsed)
          && result.manufacturerName == Some(table.rows[id].name)
          && Lower(table.rows[id].name) == Lower(best.manufacturer)
          && result.aliasUsed == best.aliasUsed
          && result.confidence == Some(best.confidence)
          && result.sourceUrl == Some(best.sourceUrl)
          && result.debugLog == (if debug then Some(best.debugLog) else None)
          && store.parts[n].partNumber == part.partNumber
          && store.parts[n].manufacturerName == result.manufacturerName
          && store.parts[n].aliasUsed == result.aliasUsed
          && store.parts[n].confidence == result.confidence
          && store.parts[n].sourceUrl == result.sourceUrl
          && store.parts[n].debugLog == result.debugLog)
  }

  /** The part of `search_part` after the candidates are known. */
  method StoreBest(table: ManufacturerTable, store: PartStore, part: PartQuery, candidates: seq<Candidate>, debug: bool)
    returns (result: SearchResult)
    modifies table, store
    ensures StoredBest(table, store, part, candidates, debug, result)
  {
    if candidates == [] {
      return NoSourcesResult(part);
    }
    var best := candidates[BestIndex(candidates)];
    ghost var before := table.rows;
    var id := table.Resolve(best.manufacturer);
    assert table.rows == Resolved(before, best.manufacturer, id);
    if Truthy(best.aliasUsed) {
      table.SyncAliases(id, [best.aliasUsed.value]);
      AliasKnownAfterSync(Resolved(before, best.manufacturer, id)[id].aliases, best.aliasUsed.value);
    }
    var manufacturerName := table.rows[id].name;
    var debugLog := if debug then Some(best.debugLog) else None;
    var newPart := NewPartRow(part.partNumber, id, manufacturerName, best, debugLog);
    store.Add(newPart);
    result := SearchResult(part.partNumber, Some(manufacturerName), best.aliasUsed, Some(best.confidence),
                           Some(best.sourceUrl), debugLog, None, [], None, None, None);
  }

  /**
   * `PartSearchEngine.search_part`: the best candidate's manufacturer is
   * resolved, its alias synced when it has one, and a new part row is
   * stored. Without candidates nothing is stored.
   */
  method SearchPart(web: Web, table: ManufacturerTable, store: PartStore, part: PartQuery, debug: bool)
    returns (result: SearchResult, ghost candidates: seq<Candidate>)
    modifies table, store
    ensures candidates == CandidatesFor(web, part)
    ensures StoredBest(table, store, part, candidates, debug, result)
  {
    var found := ExtractCandidates(web, part);
    candidates := found;
    result := StoreBest(table, store, part, found, debug);
  }

  /** One item of `search_many`. */
  method SearchOne(web: Web, table: ManufacturerTable, store: PartStore, item: PartQuery, debug: bool)
    returns (result: SearchResult)
    modifies table, store
    ensures StoredBest(table, store, item, CandidatesFor(web, item), debug, result)
  {
    var r, _ := SearchPart(web, table, store, item, debug);
    result := r;
  }

  /** `PartSearchEngine.search_many`: one result per item, in item order. */
  method SearchMany(web: Web, table: ManufacturerTable, store: PartStore, items: seq<PartQuery>, debug: bool)
    returns (results: seq<SearchResult>)
    modifies table, store
    ensures |results| == |items|
    ensures forall i :: 0 <= i < |items| ==> results[i].partNumber == items[i].partNumber
  {
    results := [];
    var i := 0;
    while i < |items|
      invariant i <= |items| && |results| == i
      invariant forall j :: 0 <= j < i ==> results[j].partNumber == items[j].partNumber
    {
      var r := SearchOne(web, table, store, items[i], debug);
      results := results + [r];
      i := i + 1;
    }
  }
}
