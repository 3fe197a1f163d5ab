/** Application settings (backend/app/core/config.py): the CORS origin list validator. */
module Config {
  import opened Text

  /** The raw `allowed_origins` value: one comma-separated string, or a ready list. */
  datatype OriginsValue = OriginsText(text: string) | OriginsList(items: seq<string>)

  /**
   * `Settings.split_origins`: a string is split on `,`, every piece stripped
   * and empty pieces dropped; a list is passed through unchanged.
   */
  function SplitOrigins(value: OriginsValue): (r: seq<string>)
    ensures value.OriginsList? ==> r == value.items
    ensures value.OriginsText? ==>
      forall i :: 0 <= i < |r| ==> r[i] != [] && !IsSpace(r[i][0]) && !IsSpace(r[i][|r[i]| - 1]) && ',' !in r[i]
    ensures value.OriginsText? ==> r == StrippedNonBlank(Split(value.text, ','))
    ensures value.OriginsText? ==>
      forall x :: x in r <==> x != [] && exists i :: 0 <= i < |Split(value.text, ',')| && Strip(Split(value.text, ',')[i]) == x
  {
    match value
    case OriginsList(items) => items
    case OriginsText(text) =>
      var pieces := Split(text, ',');
      NoCharSurvives(pieces, ',');
      StrippedNonBlankMembers(pieces);
      StrippedNonBlank(pieces)
  }

  /** Clean origins written as one comma-separated string are read back exactly. */
  lemma {:induction false} SplitOriginsJoin(origins: seq<string>)
    requires |origins| >= 1
    requires forall i :: 0 <= i < |origins| ==>
      origins[i] != [] && ',' !in origins[i] && !IsSpace(origins[i][0]) && !IsSpace(origins[i][|origins[i]| - 1])
    ensures SplitOrigins(OriginsText(Join(origins, ","))) == origins
  {
    SplitJoin(origins, ',');
    assert Split(Join(origins, [',']), ',') == origins;
    CleanPiecesKept(origins);
  }

  /** Origins on either side of a comma come out in order: the origins of the left part, then those of the right. */
  lemma SplitOriginsConcat(left: string, right: string)
    ensures SplitOrigins(OriginsText(left + "," + right)) == SplitOrigins(OriginsText(left)) + SplitOrigins(OriginsText(right))
  {
    SplitConcat(left, right, ',');
    StrippedNonBlankAppend(Split(left, ','), Split(right, ','));
  }
}
