/**
 * The records the search engines, the importer and the exporter share:
 * the submitted part (backend/app/schemas/part.py `PartBase`), the search
 * result returned to the client, the stored `Part` and `Manufacturer` rows
 * (backend/app/models/part.py) and the per-stage status the staged engine
 * records (backend/app/services/optimized_search_engine.py).
 */
module Parts {
  import opened Wrappers

  /** A part to look up: its number and, optionally, the manufacturer the user believes makes it. */
  datatype PartQuery = PartQuery(partNumber: string, manufacturerHint: Option<string>)

  /** Python truthiness of an optional string. */
  predicate Truthy(s: Option<string>) {
    s.Some? && s.value != ""
  }

  /** The three stages of the staged engine, in the order they run. */
  datatype StageName = Internet | DocumentSearch | AiAnalysis

  datatype StageOutcome = Success | NoResults | Skipped

  /** One `stage_history` entry (its human-readable message is not modelled). */
  datatype StageStatus = StageStatus(
    name: StageName,
    status: StageOutcome,
    confidence: Option<real>,
    provider: Option<string>,
    urlsConsidered: Option<nat>)

  function Stage(name: StageName, status: StageOutcome): StageStatus {
    StageStatus(name, status, None, None, None)
  }

  /** How the found manufacturer compares with the one the user submitted. */
  datatype MatchStatus = Matched | Mismatch | Pending

  /** `SearchResult`, as returned to the client. */
  datatype SearchResult = SearchResult(
    partNumber: string,
    manufacturerName: Option<string>,
    aliasUsed: Option<string>,
    confidence: Option<real>,
    sourceUrl: Option<string>,
    debugLog: Option<string>,
    searchStage: Option<string>,
    stageHistory: seq<StageStatus>,
    submittedManufacturer: Option<string>,
    matchStatus: Option<MatchStatus>,
    matchConfidence: Option<real>)

  /** A manufacturer row with its aliases, in the order they were added. */
  datatype Manufacturer = Manufacturer(name: string, aliases: seq<string>)

  /** A stored part row. */
  class Part {
    const partNumber: string
    var manufacturerId: Option<nat>
    var manufacturerName: Option<string>
    var aliasUsed: Option<string>
    var submittedManufacturer: Option<string>
    var matchStatus: Option<MatchStatus>
    var matchConfidence: Option<real>
    var confidence: Option<real>
    var sourceUrl: Option<string>
    var debugLog: Option<string>
    var searchStage: Option<string>
    var stageHistory: seq<StageStatus>

    constructor (partNumber: string, manufacturerId: Option<nat>)
      ensures this.partNumber == partNumber && this.manufacturerId == manufacturerId
      ensures manufacturerName.None? && aliasUsed.None? && submittedManufacturer.None?
      ensures matchStatus.None? && matchConfidence.None? && confidence.None?
      ensures sourceUrl.None? && debugLog.None? && searchStage.None? && stageHistory == []
    {
      this.partNumber := partNumber;
      this.manufacturerId := manufacturerId;
      manufacturerName := None;
      aliasUsed := None;
      submittedManufacturer := None;
      matchStatus := None;
      matchConfidence := None;
      confidence := None;
      sourceUrl := None;
      debugLog := None;
      searchStage := None;
      stageHistory := [];
    }
  }
}
