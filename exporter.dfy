/**
 * The exports (backend/app/services/exporter.py): the rows the Excel file is
 * built from, and the cells written to the PDF. Writing the files is left
 * out; `render` is the `str()` of a confidence.
 */
module Exporter {
  import opened Wrappers
  import opened Parts

  /** A spreadsheet value: a string, a number, or an empty (`None`) cell. */
  datatype SheetValue = Text(s: string) | Number(x: real) | Blank

  const ExcelColumns: seq<string> := ["part_number", "manufacturer_name", "alias_used", "confidence", "source_url"]

  function TextValue(s: Option<string>): SheetValue {
    if s.Some? then Text(s.value) else Blank
  }

  /** A text cell read back: its string, or nothing for a blank or a number. */
  function CellText(v: SheetValue): Option<string> {
    if v.Text? then Some(v.s) else None
  }

  /** A number cell read back: its value, or nothing for a blank or a text. */
  function CellNumber(v: SheetValue): Option<real> {
    if v.Number? then Some(v.x) else None
  }

  /**
   * The record one part contributes to the Excel data frame. Every column
   * reads back as the stored value; a missing value is an empty cell.
   */
  function ExcelRow(p: Part): (r: map<string, SheetValue>)
    reads p
    ensures r.Keys == set k | k in ExcelColumns
    ensures r["part_number"] == Text(p.partNumber)
    ensures CellText(r["manufacturer_name"]) == p.manufacturerName
    ensures CellText(r["alias_used"]) == p.aliasUsed
    ensures CellNumber(r["confidence"]) == p.confidence
    ensures CellText(r["source_url"]) == p.sourceUrl
    ensures forall k :: k in r ==> (r[k].Number? <==> k == "confidence" && p.confidence.Some?)
  {
    map["part_number" := Text(p.partNumber),
        "manufacturer_name" := TextValue(p.manufacturerName),
        "alias_used" := TextValue(p.aliasUsed),
        "confidence" := (if p.confidence.Some? then Number(p.confidence.value) else Blank),
        "source_url" := TextValue(p.sourceUrl)]
  }

  /** The records of `export_parts_to_excel`: one per stored part, in query order. */
  function ExcelRows(parts: seq<Part>): (r: seq<map<string, SheetValue>>)
    reads parts
    ensures |r| == |parts|
    ensures forall i :: 0 <= i < |parts| ==> r[i] == ExcelRow(parts[i])
  {
    if parts == [] then []
    else [ExcelRow(parts[0])] + ExcelRows(parts[1..])
  }

  /** Every record has exactly the five export columns. */
  lemma ExcelRowsHaveTheColumns(parts: seq<Part>)
    ensures forall i :: 0 <= i < |ExcelRows(parts)| ==> ExcelRows(parts)[i].Keys == set k | k in ExcelColumns
  {
  }

  /** The header row of the sheet: a data frame built from no records has no columns. */
  function ExcelHeader(parts: seq<Part>): (r: seq<string>)
    ensures r == [] <==> parts == []
    ensures r != [] ==> r == ExcelColumns
  {
    if parts == [] then [] else ExcelColumns
  }

  /** One PDF call: `cell(..., ln=True)`, `multi_cell(...)` or `ln(4)`. */
  datatype PdfItem = Cell(text: string) | MultiCell(text: string) | Gap

  const PdfTitle: string := "AliasFinder Export"

  /** `value or '-'`. */
  function OrDash(value: Option<string>): (r: string)
    ensures !Truthy(value) ==> r == "-"
    ensures Truthy(value) ==> r == value.value
  {
    if Truthy(value) then value.value else "-"
  }

  /** The confidence text: `-` only when there is none, so a zero confidence is printed as a number. */
  function ConfidenceText(confidence: Option<real>, render: real -> string): (r: string)
    ensures confidence.None? ==> r == "-"
    ensures confidence.Some? ==> r == render(confidence.value)
  {
    if confidence.Some? then render(confidence.value) else "-"
  }

  /** The six calls for one part, in the order the fields are printed. */
  function PartBlock(p: Part, render: real -> string): (r: seq<PdfItem>)
    reads p
    ensures |r| == 6 && r[5] == Gap
  {
    [Cell("Part: " + p.partNumber),
     Cell("Manufacturer: " + OrDash(p.manufacturerName)),
     Cell("Alias used: " + OrDash(p.aliasUsed)),
     Cell("Confidence: " + ConfidenceText(p.confidence, render)),
     MultiCell("Source: " + OrDash(p.sourceUrl)),
     Gap]
  }

  /** The body of the PDF after the title: the parts' blocks in query order. */
  function PdfBody(parts: seq<Part>, render: real -> string): (r: seq<PdfItem>)
    reads parts
    ensures |r| == 6 * |parts|
  {
    if parts == [] then []
    else PdfBody(parts[..|parts| - 1], render) + PartBlock(parts[|parts| - 1], render)
  }

  lemma SliceOfFront<T>(a: seq<T>, b: seq<T>, lo: nat, hi: nat)
    requires lo <= hi <= |a|
    ensures (a + b)[lo..hi] == a[lo..hi]
  {
  }

  lemma SliceOfBack<T>(a: seq<T>, b: seq<T>)
    ensures (a + b)[|a|..|a| + |b|] == b
  {
  }

  /** Part `i` occupies positions `6 * i` to `6 * i + 5` of the body. */
  lemma {:induction false} PdfBodyBlock(parts: seq<Part>, render: real -> string, i: nat)
    requires i < |parts|
    ensures PdfBody(parts, render)[6 * i..6 * i + 6] == PartBlock(parts[i], render)
  {
    var n := |parts| - 1;
    var front := PdfBody(parts[..n], render);
    var last := PartBlock(parts[n], render);
    var body := PdfBody(parts, render);
    assert body == front + last;
    if i < n {
      PdfBodyBlock(parts[..n], render, i);
      SliceOfFront(front, last, 6 * i, 6 * i + 6);
      calc {
        body[6 * i..6 * i + 6];
        front[6 * i..6 * i + 6];
        PartBlock(parts[..n][i], render);
        { assert parts[..n][i] == parts[i]; }
        PartBlock(parts[i], render);
      }
    } else {
      SliceOfBack(front, last);
      assert 6 * i == |front| && 6 * i + 6 == |front + last|;
    }
  }

  /** The six calls of one loop iteration. */
  method RenderPart(items: seq<PdfItem>, p: Part, render: real -> string) returns (r: seq<PdfItem>)
    ensures r == items + PartBlock(p, render)
  {
    r := items + [Cell("Part: " + p.partNumber)];
    r := r + [Cell("Manufacturer: " + OrDash(p.manufacturerName))];
    r := r + [Cell("Alias used: " + OrDash(p.aliasUsed))];
    r := r + [Cell("Confidence: " + ConfidenceText(p.confidence, render))];
    r := r + [MultiCell("Source: " + OrDash(p.sourceUrl))];
    r := r + [Gap];
  }

  /** One more part adds its block to the body. */
  lemma PdfBodyStep(parts: seq<Part>, render: real -> string, i: nat)
    requires i < |parts|
    ensures PdfBody(parts[..i + 1], render) == PdfBody(parts[..i], render) + PartBlock(parts[i], render)
  {
    assert parts[..i + 1][..i] == parts[..i];
  }

  /** The loop of `export_parts_to_pdf`: the calls for each part in turn. */
  method RenderBody(parts: seq<Part>, render: real -> string) returns (body: seq<PdfItem>)
    ensures body == PdfBody(parts, render)
  {
    body := [];
    var i := 0;
    while i < |parts|
      invariant i <= |parts|
      invariant body == PdfBody(parts[..i], render)
    {
      PdfBodyStep(parts, render, i);
      body := RenderPart(body, parts[i], render);
      i := i + 1;
    }
    assert parts[..i] == parts;
  }

  /** `export_parts_to_pdf`: the title cell, then the parts' calls. */
  method RenderPdf(parts: seq<Part>, render: real -> string) returns (items: seq<PdfItem>)
    ensures items == [Cell(PdfTitle)] + PdfBody(parts, render)
  {
    items := [Cell(PdfTitle)];
    var body := RenderBody(parts, render);
    items := items + body;
  }
}
