/**
 * Document download and text extraction (backend/app/services/document_parser.py).
 *
 * Each GET is an input outcome; the PDF reader and the HTML parser are
 * function parameters (the page texts of a PDF, `None` when the reader
 * fails; the text of an HTML document with one line per text node).
 */
module DocumentParser {
  import opened Wrappers
  import opened Text

  newtype Byte = x: int | 0 <= x < 256

  /** What one call of the getter ended with. */
  datatype GetOutcome = Fetched(content: seq<Byte>, contentType: Option<string>) | HttpError(message: string) | OtherError

  datatype Download = Download(content: seq<Byte>, contentType: Option<string>)

  /** An HTTP error whose message says certificate verification failed. */
  predicate CertificateFailure(o: GetOutcome) {
    o.HttpError? && (Contains(o.message, "CERTIFICATE_VERIFY_FAILED") || Contains(o.message, "certificate verify failed"))
  }

  function AsDownload(o: GetOutcome): (r: Option<Download>)
    ensures r.Some? <==> o.Fetched?
  {
    if o.Fetched? then Some(Download(o.content, o.contentType)) else None
  }

  /**
   * `_attempt_fetch`: at most two plain getter calls, one second apart; a
   * certificate failure is retried once as `getter(False)` and whatever
   * that retry does ends the fetch. `verified[k]` is what plain call `k`
   * ends with, `unverified` what the `getter(False)` call ends with (an
   * independent outcome: the getter `fetch_bytes` passes in reuses its one
   * client, so that call is in fact verified again). `calls` lists, per
   * getter call made, whether it was a plain call (`true`) or `getter(False)`.
   */
  method AttemptFetch(verified: seq<GetOutcome>, unverified: GetOutcome) returns (r: Option<Download>, calls: seq<bool>, slept: real)
    requires |verified| >= 2
    ensures 1 <= |calls| <= 3
    ensures forall i :: 0 <= i < |calls| - 1 ==> calls[i]
    ensures verified[0].Fetched? ==> r == AsDownload(verified[0]) && calls == [true] && slept == 0.0
    ensures CertificateFailure(verified[0]) ==> r == AsDownload(unverified) && calls == [true, false] && slept == 0.0
    ensures !verified[0].Fetched? && !CertificateFailure(verified[0]) ==>
      slept == 1.0
      && (verified[1].Fetched? ==> r == AsDownload(verified[1]) && calls == [true, true])
      && (CertificateFailure(verified[1]) ==> r == AsDownload(unverified) && calls == [true, true, false])
      && (!verified[1].Fetched? && !CertificateFailure(verified[1]) ==> r == None && calls == [true, true])
  {
    r, calls, slept := None, [], 0.0;
    var attempt := 0;
    while attempt < 2
      invariant attempt <= 1
      invariant calls == seq(attempt, _ => true)
      invariant attempt == 1 ==> !verified[0].Fetched? && !CertificateFailure(verified[0]) && slept == 1.0
      invariant attempt == 0 ==> slept == 0.0
      decreases 2 - attempt
    {
      var outcome := verified[attempt];
      calls := calls + [true];
      if outcome.Fetched? {
        return AsDownload(outcome), calls, slept;
      }
      if CertificateFailure(outcome) {
        calls := calls + [false];
        return AsDownload(unverified), calls, slept;
      }
      if attempt == 0 {
        slept := slept + 1.0;
        attempt := attempt + 1;
        continue;
      }
      return None, calls, slept;
    }
  }

  /** ASCII whitespace bytes, the ones `bytes.lstrip()` removes. */
  predicate IsSpaceByte(b: Byte) {
    b == 32 || (9 <= b <= 13)
  }

  function LStripBytes(data: seq<Byte>): (r: seq<Byte>)
    ensures |r| <= |data| && r == data[|data| - |r|..]
    ensures r == [] || !IsSpaceByte(r[0])
  {
    if data != [] && IsSpaceByte(data[0]) then LStripBytes(data[1..]) else data
  }

  /** The bytes of `%PDF`. */
  const PdfMagic: seq<Byte> := [37, 80, 68, 70]

  /**
   * The sniffing in `extract_text`: PDF when the data starts with `%PDF`
   * after leading whitespace, or the content type mentions `pdf` in any case.
   */
  predicate LooksLikePdf(data: seq<Byte>, contentType: Option<string>) {
    var stripped := LStripBytes(data);
    (|stripped| >= |PdfMagic| && stripped[..|PdfMagic|] == PdfMagic)
    || (contentType.Some? && Contains(Lower(contentType.value), "pdf"))
  }

  /** Leading whitespace never changes the verdict. */
  lemma {:induction false} SniffIgnoresLeadingSpace(space: seq<Byte>, data: seq<Byte>, contentType: Option<string>)
    requires forall i :: 0 <= i < |space| ==> IsSpaceByte(space[i])
    ensures LooksLikePdf(space + data, contentType) == LooksLikePdf(data, contentType)
    ensures LStripBytes(space + data) == LStripBytes(data)
  {
    if space != [] {
      assert (space + data)[1..] == space[1..] + data;
      SniffIgnoresLeadingSpace(space[1..], data, contentType);
    } else {
      assert space + data == data;
    }
  }

  /** Data that begins with the magic bytes is a PDF whatever the content type says. */
  lemma MagicIsPdf(rest: seq<Byte>, contentType: Option<string>)
    ensures LooksLikePdf(PdfMagic + rest, contentType)
  {
    assert (PdfMagic + rest)[..|PdfMagic|] == PdfMagic;
  }

  /** A content type naming PDF in any case makes the data a PDF. */
  lemma HintedPdf(data: seq<Byte>, prefix: string, suffix: string)
    ensures LooksLikePdf(data, Some(prefix + "PDF" + suffix))
  {
    var ct := prefix + "PDF" + suffix;
    assert Lower(ct)[|prefix|..|prefix| + 3] == "pdf";
    assert OccursAt(Lower(ct), "pdf", |prefix|);
    ContainsIffOccurs(Lower(ct), "pdf");
  }

  /** `extract_text_from_pdf`: the page texts joined with line ends, a page without text counting as empty. */
  function ExtractTextFromPdf(pages: seq<Option<string>>): string {
    Join(PageTexts(pages), "\n")
  }

  function PageTexts(pages: seq<Option<string>>): (r: seq<string>)
    ensures |r| == |pages|
    ensures forall i :: 0 <= i < |pages| ==> r[i] == pages[i].GetOr("")
  {
    seq(|pages|, i requires 0 <= i < |pages| => pages[i].GetOr(""))
  }

  /** Pages whose text has no line end come back one per line, in page order. */
  lemma PdfPagesAreLines(pages: seq<Option<string>>)
    requires |pages| >= 1
    requires forall i :: 0 <= i < |pages| ==> '\n' !in pages[i].GetOr("")
    ensures Split(ExtractTextFromPdf(pages), '\n') == PageTexts(pages)
  {
    SplitJoin(PageTexts(pages), '\n');
  }

  /** `extract_text_from_html` after parsing: every line stripped, blank lines dropped, joined with line ends. */
  function ExtractTextFromHtml(pageText: string): (r: string)
    ensures r == "" <==> StrippedNonBlank(SplitLines(pageText)) == []
    ensures r != "" ==> Split(r, '\n') == StrippedNonBlank(SplitLines(pageText))
  {
    var lines := StrippedNonBlank(SplitLines(pageText));
    NoCharSurvives(SplitLines(pageText), '\n');
    JoinedLines(lines);
    Join(lines, "\n")
  }

  /** Non-empty line-end-free lines joined with line ends split back into themselves. */
  lemma JoinedLines(lines: seq<string>)
    requires forall i :: 0 <= i < |lines| ==> lines[i] != "" && '\n' !in lines[i]
    ensures Join(lines, "\n") == "" <==> lines == []
    ensures lines != [] ==> Split(Join(lines, "\n"), '\n') == lines
  {
    if lines != [] {
      SplitJoin(lines, '\n');
      if |lines| == 1 {
        assert Join(lines, "\n") == lines[0];
      }
    }
  }

  /**
   * `extract_text` after the download: PDF-looking data goes to the PDF
   * reader and falls back to HTML extraction when the reader fails;
   * anything else is read as HTML. No download, no text.
   */
  function ExtractText(fetched: Option<Download>, readPdf: seq<Byte> -> Option<seq<Option<string>>>, htmlText: seq<Byte> -> string)
    : (r: Option<string>)
    ensures r.None? <==> fetched.None?
    ensures fetched.Some? && LooksLikePdf(fetched.value.content, fetched.value.contentType) && readPdf(fetched.value.content).Some? ==>
      r == Some(ExtractTextFromPdf(readPdf(fetched.value.content).value))
    ensures fetched.Some? && !(LooksLikePdf(fetched.value.content, fetched.value.contentType) && readPdf(fetched.value.content).Some?) ==>
      r == Some(ExtractTextFromHtml(htmlText(fetched.value.content)))
  {
    match fetched
    case None => None
    case Some(Download(data, contentType)) =>
      if LooksLikePdf(data, contentType) then
        match readPdf(data)
        case Some(pages) => Some(ExtractTextFromPdf(pages))
        case None => Some(ExtractTextFromHtml(htmlText(data)))
      else Some(ExtractTextFromHtml(htmlText(data)))
  }

  predicate HasText(content: Option<string>) {
    content.Some? && content.value != ""
  }

  /** `extract_from_urls`: each URL mapped to its extracted text, keeping only URLs with some text. */
  function ExtractFromUrls(urls: seq<string>, extract: string -> Option<string>): (r: map<string, string>)
    ensures forall u :: u in r ==> HasText(extract(u)) && r[u] == extract(u).value
    ensures forall u :: u in r ==> u in urls
    ensures forall i :: 0 <= i < |urls| && HasText(extract(urls[i])) ==> urls[i] in r
  {
    if urls == [] then map[]
    else
      var rest := ExtractFromUrls(urls[..|urls| - 1], extract);
      var last := urls[|urls| - 1];
      assert forall i :: 0 <= i < |urls| - 1 ==> urls[..|urls| - 1][i] == urls[i];
      if HasText(extract(last)) then rest[last := extract(last).value] else rest
  }
}
