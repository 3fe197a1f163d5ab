/**
 * The Excel import (backend/app/services/importer.py). The parsed sheet is
 * an input: its column names and, per row, the two cells the importer
 * reads. Each new part number is looked up with the single-pass engine
 * (`SearchEngine.SearchPart`); `raises` gives the message of a search that
 * raises instead, before it stores anything.
 */
module Importer {
  import opened Wrappers
  import opened Text
  import opened Parts
  import SearchEngine

  /** A cell as pandas hands it over: `None`, a NaN float, or any other value as `str()` renders it. */
  datatype Cell = Empty | NaN | Value(text: string)

  datatype Row = Row(partNumber: Cell, manufacturerHint: Cell)

  datatype Sheet = Sheet(columns: set<string>, rows: seq<Row>)

  /** The counters `import_parts_from_excel` returns. */
  datatype Summary = Summary(imported: nat, skipped: nat, errors: seq<string>)

  /** What `scalar_one_or_none` raises when a part number is stored more than once. */
  const MultipleRows: string := "Multiple rows were found when one or none was required"

  /**
   * `_normalize`: no value for `None` and NaN; otherwise the stripped text,
   * and no value when that is empty.
   */
  function Normalize(c: Cell): (r: Option<string>)
    ensures c.Empty? || c.NaN? ==> r.None?
    ensures c.Value? ==> (r.None? <==> IsBlank(c.text))
    ensures r.Some? ==> r.value != [] && !IsSpace(r.value[0]) && !IsSpace(r.value[|r.value| - 1])
    ensures r.Some? ==> exists i :: OccursAt(c.text, r.value, i)
  {
    match c
    case Empty => None
    case NaN => None
    case Value(text) => if Strip(text) == [] then None else Some(Strip(text))
  }

  /** Stripping a normalised value changes nothing, so normalising is idempotent. */
  lemma NormalizeIdempotent(c: Cell)
    requires Normalize(c).Some?
    ensures Normalize(Value(Normalize(c).value)) == Normalize(c)
  {
    StripNoop(Normalize(c).value);
  }

  /** The required columns the sheet lacks. */
  function MissingColumns(columns: set<string>): (r: seq<string>)
    ensures forall x :: x in r <==> x in {"part_number", "manufacturer_hint"} && x !in columns
  {
    (if "part_number" in columns then [] else ["part_number"]) +
    (if "manufacturer_hint" in columns then [] else ["manufacturer_hint"])
  }

  /** How many stored parts carry each part number. */
  function StoredNumbers(parts: seq<Part>): (r: multiset<string>)
    ensures |r| == |parts|
    ensures forall i :: 0 <= i < |parts| ==> parts[i].partNumber in r
  {
    if parts == [] then multiset{}
    else StoredNumbers(parts[..|parts| - 1]) + multiset{parts[|parts| - 1].partNumber}
  }

  lemma StoredNumbersAppend(parts: seq<Part>, p: Part)
    ensures StoredNumbers(parts + [p]) == StoredNumbers(parts) + multiset{p.partNumber}
  {
    assert (parts + [p])[..|parts|] == parts;
  }

  lemma PrefixPlusLast<T>(s: seq<T>, prefix: seq<T>)
    requires |s| == |prefix| + 1 && s[..|prefix|] == prefix
    ensures s == prefix + [s[|prefix|]]
  {
    assert s == s[..|prefix|] + [s[|prefix|]];
  }

  /** What one row does: skipped, a search that raised, a search that ran, or a lookup that raised. */
  datatype RowOutcome = SkipRow | SearchFailed(message: string) | SearchRan | LookupRaised

  /** The part to search for a row, when its part number is not blank. */
  function RowItem(row: Row): (r: Option<PartQuery>)
    ensures r.Some? <==> Normalize(row.partNumber).Some?
    ensures r.Some? ==> r.value.partNumber == Normalize(row.partNumber).value
  {
    match Normalize(row.partNumber)
    case None => None
    case Some(partNumber) => Some(PartQuery(partNumber, Normalize(row.manufacturerHint)))
  }

  /**
   * One row, given the stored part numbers: blank part numbers and stored
   * ones are skipped; a part number stored twice makes the lookup raise;
   * otherwise the search raises or runs.
   */
  function RowStep(raises: string -> Option<string>, row: Row, stored: multiset<string>): (r: RowOutcome)
    ensures RowItem(row).None? ==> r == SkipRow
    ensures r.LookupRaised? <==> RowItem(row).Some? && stored[RowItem(row).value.partNumber] >= 2
    ensures r.SearchRan? || r.SearchFailed? <==> RowItem(row).Some? && stored[RowItem(row).value.partNumber] == 0
    ensures r.SearchFailed? <==>
      RowItem(row).Some? && stored[RowItem(row).value.partNumber] == 0 && raises(RowItem(row).value.partNumber).Some?
    ensures r.SearchFailed? ==> raises(RowItem(row).value.partNumber) == Some(r.message)
    ensures RowItem(row).Some? && stored[RowItem(row).value.partNumber] == 1 ==> r == SkipRow
  {
    match RowItem(row)
    case None => SkipRow
    case Some(item) =>
      if stored[item.partNumber] >= 2 then LookupRaised
      else if stored[item.partNumber] == 1 then SkipRow
      else match raises(item.partNumber)
        case Some(message) => SearchFailed(message)
        case None => SearchRan
  }

  /** The stored part numbers after a row: a search that has candidates stores its part. */
  function StoredAfter(web: SearchEngine.Web, row: Row, stored: multiset<string>, o: RowOutcome): multiset<string> {
    if o.SearchRan? && RowItem(row).Some? && SearchEngine.CandidatesFor(web, RowItem(row).value) != [] then
      stored + multiset{RowItem(row).value.partNumber}
    else stored
  }

  /** The counters after a row that did not abort. */
  function Tally(acc: Summary, o: RowOutcome): (r: Summary)
    requires !o.LookupRaised?
    ensures r.imported + r.skipped + |r.errors| == acc.imported + acc.skipped + |acc.errors| + 1
    ensures |r.errors| >= |acc.errors| && r.errors[..|acc.errors|] == acc.errors
    ensures o.SkipRow? ==> r == Summary(acc.imported, acc.skipped + 1, acc.errors)
    ensures o.SearchRan? ==> r == Summary(acc.imported + 1, acc.skipped, acc.errors)
    ensures o.SearchFailed? ==> r == Summary(acc.imported, acc.skipped, acc.errors + [o.message])
  {
    match o
    case SkipRow => acc.(skipped := acc.skipped + 1)
    case SearchFailed(message) => acc.(errors := acc.errors + [message])
    case SearchRan => acc.(imported := acc.imported + 1)
  }

  /** The row loop from `rows` on, given the stored part numbers and the counters so far. */
  function ImportRows(web: SearchEngine.Web, raises: string -> Option<string>, rows: seq<Row>, stored: multiset<string>,
                      acc: Summary): (r: Result<Summary, string>)
    ensures r.Ok? ==> r.value.imported + r.value.skipped + |r.value.errors| == acc.imported + acc.skipped + |acc.errors| + |rows|
    ensures r.Ok? ==> |r.value.errors| >= |acc.errors| && r.value.errors[..|acc.errors|] == acc.errors
    ensures r.Err? ==> r.error == MultipleRows
  {
    if rows == [] then Ok(acc)
    else
      var o := RowStep(raises, rows[0], stored);
      if o.LookupRaised? then Err(MultipleRows)
      else
        var r := ImportRows(web, raises, rows[1..], StoredAfter(web, rows[0], stored, o), Tally(acc, o));
        assert r.Ok? ==> r.value.errors[..|acc.errors|] == r.value.errors[..|Tally(acc, o).errors|][..|acc.errors|];
        r
  }

  /** `import_parts_from_excel` as a whole: the column check, then the rows from nothing. */
  function Import(web: SearchEngine.Web, raises: string -> Option<string>, sheet: Sheet, stored: multiset<string>)
    : (r: Result<Summary, string>)
    ensures MissingColumns(sheet.columns) != [] ==> r == Err("Missing columns: " + Join(MissingColumns(sheet.columns), ", "))
    ensures r.Ok? ==> r.value.imported + r.value.skipped + |r.value.errors| == |sheet.rows|
  {
    if MissingColumns(sheet.columns) != [] then Err("Missing columns: " + Join(MissingColumns(sheet.columns), ", "))
    else ImportRows(web, raises, sheet.rows, stored, Summary(0, 0, []))
  }

  /**
   * A part number that appears twice in a sheet is searched once at most:
   * when the first search stored it, the second row is skipped.
   */
  lemma RepeatedRowSkipped(web: SearchEngine.Web, raises: string -> Option<string>, row: Row, stored: multiset<string>)
    requires RowStep(raises, row, stored) == SearchRan
    requires SearchEngine.CandidatesFor(web, RowItem(row).value) != []
    ensures RowStep(raises, row, StoredAfter(web, row, stored, SearchRan)) == SkipRow
  {
  }

  /** A raising search leaves the stored numbers alone, so the same part number is tried again on a later row. */
  lemma FailedRowRetried(web: SearchEngine.Web, raises: string -> Option<string>, row: Row, stored: multiset<string>)
    requires RowStep(raises, row, stored).SearchFailed?
    ensures StoredAfter(web, row, stored, RowStep(raises, row, stored)) == stored
    ensures RowStep(raises, row, StoredAfter(web, row, stored, RowStep(raises, row, stored))) == RowStep(raises, row, stored)
  {
  }

  /** One row of the loop, performed on the store. */
  method ProcessRow(web: SearchEngine.Web, raises: string -> Option<string>, table: SearchEngine.ManufacturerTable,
                    store: SearchEngine.PartStore, row: Row, debug: bool)
    returns (o: RowOutcome, ghost searched: Option<SearchResult>)
    modifies table, store
    ensures o == RowStep(raises, row, StoredNumbers(old(store.parts)))
    ensures StoredNumbers(store.parts) == StoredAfter(web, row, StoredNumbers(old(store.parts)), o)
    ensures !o.SearchRan? ==> table.rows == old(table.rows) && store.parts == old(store.parts)
    ensures searched.Some? <==> o.SearchRan?
    ensures searched.Some? ==>
      SearchEngine.StoredBest(table, store, RowItem(row).value, SearchEngine.CandidatesFor(web, RowItem(row).value), debug,
                              searched.value)
  {
    var partNumber := Normalize(row.partNumber);
    if partNumber.None? {
      o, searched := SkipRow, None;
      return;
    }
    var count := StoredNumbers(store.parts)[partNumber.value];
    if count >= 2 {
      o, searched := LookupRaised, None;
      return;
    } else if count == 1 {
      o, searched := SkipRow, None;
      return;
    }
    var failure := raises(partNumber.value);
    if failure.Some? {
      o, searched := SearchFailed(failure.value), None;
      return;
    }
    var item := PartQuery(partNumber.value, Normalize(row.manufacturerHint));
    assert RowItem(row) == Some(item);
    var result := SearchRow(web, table, store, item, debug);
    o, searched := SearchRan, Some(result);
  }

  /** `engine.search_part(item)` for one row, seen through the stored part numbers. */
  method SearchRow(web: SearchEngine.Web, table: SearchEngine.ManufacturerTable, store: SearchEngine.PartStore,
                   item: PartQuery, debug: bool)
    returns (ghost result: SearchResult)
    modifies table, store
    ensures SearchEngine.StoredBest(table, store, item, SearchEngine.CandidatesFor(web, item), debug, result)
    ensures StoredNumbers(store.parts) ==
      if SearchEngine.CandidatesFor(web, item) != [] then StoredNumbers(old(store.parts)) + multiset{item.partNumber}
      else StoredNumbers(old(store.parts))
  {
    ghost var before := store.parts;
    var r, candidates := SearchEngine.SearchPart(web, table, store, item, debug);
    result := r;
    if candidates != [] {
      PrefixPlusLast(store.parts, before);
      StoredNumbersAppend(before, store.parts[|before|]);
    }
  }

  /** The row loop of `import_parts_from_excel`. */
  method ImportRowsLoop(web: SearchEngine.Web, raises: string -> Option<string>, table: SearchEngine.ManufacturerTable,
                        store: SearchEngine.PartStore, rows: seq<Row>, debug: bool)
    returns (outcome: Result<Summary, string>)
    modifies table, store
    ensures outcome == ImportRows(web, raises, rows, StoredNumbers(old(store.parts)), Summary(0, 0, []))
  {
    var counters := Summary(0, 0, []);
    var i := 0;
    while i < |rows|
      invariant i <= |rows|
      invariant ImportRows(web, raises, rows, StoredNumbers(old(store.parts)), Summary(0, 0, [])) ==
                ImportRows(web, raises, rows[i..], StoredNumbers(store.parts), counters)
    {
      assert rows[i..][0] == rows[i] && rows[i..][1..] == rows[i + 1..];
      var o, _ := ProcessRow(web, raises, table, store, rows[i], debug);
      if o.LookupRaised? {
        return Err(MultipleRows);
      }
      counters := Tally(counters, o);
      i := i + 1;
    }
    outcome := Ok(counters);
  }

  /** `import_parts_from_excel`: missing columns raise before any row is read. */
  method ImportParts(web: SearchEngine.Web, raises: string -> Option<string>, table: SearchEngine.ManufacturerTable,
                     store: SearchEngine.PartStore, sheet: Sheet, debug: bool)
    returns (outcome: Result<Summary, string>)
    modifies table, store
    ensures outcome == Import(web, raises, sheet, StoredNumbers(old(store.parts)))
    ensures MissingColumns(sheet.columns) != [] ==> store.parts == old(store.parts) && table.rows == old(table.rows)
  {
    var missing := MissingColumns(sheet.columns);
    if missing != [] {
      return Err("Missing columns: " + Join(missing, ", "));
    }
    outcome := ImportRowsLoop(web, raises, table, store, sheet.rows, debug);
  }
}
