/**
 * `generateRecommendations`: from the grouped data, at most one sentence naming
 * the first group with the largest count.
 */
module Recommender {
  import opened Records

  /** `Math.max(...groups.map(item => item.count))` over a non-empty list. */
  function MaxCount(groups: seq<Group>): (m: nat)
    requires |groups| > 0
    ensures forall i :: 0 <= i < |groups| ==> groups[i].count <= m
    ensures exists i :: 0 <= i < |groups| && groups[i].count == m
  {
    if |groups| == 1 then groups[0].count
    else
      var rest := MaxCount(groups[1..]);
      if groups[0].count >= rest then groups[0].count else rest
  }

  /** `groups.find(item => item.count === m)`, as the index of the element found. */
  function FindCount(groups: seq<Group>, m: nat): (r: Option<nat>)
    ensures r.None? <==> forall i :: 0 <= i < |groups| ==> groups[i].count != m
    ensures r.Some? ==>
      && r.value < |groups| && groups[r.value].count == m
      && (forall j :: 0 <= j < r.value ==> groups[j].count != m)
  {
    if groups == [] then None
    else if groups[0].count == m then Some(0)
    else match FindCount(groups[1..], m)
      case None => None
      case Some(k) => Some(k + 1)
  }

  /** Group `k` has the largest count and no earlier group has that count. */
  predicate IsFirstBest(groups: seq<Group>, k: int) {
    && 0 <= k < |groups|
    && (forall i :: 0 <= i < |groups| ==> groups[i].count <= groups[k].count)
    && (forall j :: 0 <= j < k ==> groups[j].count < groups[k].count)
  }

  const Opening := "Based on the selection '"

  /** The sentence for `filterType` naming `winner`; `None` for a type with no sentence. */
  function Sentence(filterType: string, filterValue: string, winner: Label): (text: Option<string>)
    ensures text.Some? <==> filterType == "animal" || filterType == "camera"
    ensures text.Some? ==> Opening + filterValue + "', the " <= text.value
  {
    if filterType == "animal" then
      Some(Opening + filterValue + "', the best camera is '" + winner + "'.")
    else if filterType == "camera" then
      Some(Opening + filterValue + "', the most frequent animal is '" + winner + "'.")
    else None
  }

  /**
   * `generateRecommendations(data, filter_value, filter_type)`: nothing for an
   * empty list; otherwise the sentence for the first group with the largest
   * count, when the type has one.
   */
  function GenerateRecommendations(data: seq<Group>, filterValue: string, filterType: string)
    : (recs: seq<string>)
    ensures |recs| <= 1
    ensures |recs| == 1 <==> |data| > 0 && (filterType == "animal" || filterType == "camera")
    ensures |recs| == 1 ==>
      exists k :: IsFirstBest(data, k) && Sentence(filterType, filterValue, data[k].key) == Some(recs[0])
  {
    if |data| == 0 then []
    else
      var best := FindCount(data, MaxCount(data));
      if best.None? then assert false; []
      else match Sentence(filterType, filterValue, data[best.value].key)
        case None => []
        case Some(text) => [text]
  }

  /** Exactly one group is the first best one, so the recommendation is determined. */
  lemma FirstBestUnique(groups: seq<Group>, k: int, k': int)
    requires IsFirstBest(groups, k) && IsFirstBest(groups, k')
    ensures k == k'
  {
    assert groups[k].count == groups[k'].count;
  }

  /** The recommendation is the axis sentence for the first group with the largest count. */
  lemma RecommendsFirstBest(data: seq<Group>, filterValue: string, filterType: string, k: int)
    requires IsFirstBest(data, k) && filterType in {"animal", "camera"}
    ensures GenerateRecommendations(data, filterValue, filterType)
      == [Sentence(filterType, filterValue, data[k].key).value]
  {
    var recs := GenerateRecommendations(data, filterValue, filterType);
    var k' :| IsFirstBest(data, k') && Sentence(filterType, filterValue, data[k'].key) == Some(recs[0]);
    FirstBestUnique(data, k, k');
  }

  /** When no group has any upload, the first group is recommended. */
  lemma AllZeroRecommendsFirst(data: seq<Group>, filterValue: string, filterType: string)
    requires |data| > 0 && filterType in {"animal", "camera"}
    requires forall i :: 0 <= i < |data| ==> data[i].count == 0
    ensures GenerateRecommendations(data, filterValue, filterType)
      == [Sentence(filterType, filterValue, data[0].key).value]
  {
    RecommendsFirstBest(data, filterValue, filterType, 0);
  }

  /** The label named in a sentence: the text between the last "'" pair before the final ".". */
  function NamedLabel(sentence: string, filterType: string, filterValue: string): (r: Option<Label>) {
    var head := Opening + filterValue +
      (if filterType == "animal" then "', the best camera is '" else "', the most frequent animal is '");
    if |sentence| >= |head| + 2 && sentence[..|head|] == head && sentence[|sentence| - 2..] == "'."
    then Some(sentence[|head|..|sentence| - 2])
    else None
  }

  /** Round trip: the label can be read back from the sentence, so distinct winners give distinct sentences. */
  lemma NamedLabelOfSentence(filterType: string, filterValue: string, winner: Label)
    requires Sentence(filterType, filterValue, winner).Some?
    ensures NamedLabel(Sentence(filterType, filterValue, winner).value, filterType, filterValue) == Some(winner)
  {
    var head := Opening + filterValue +
      (if filterType == "animal" then "', the best camera is '" else "', the most frequent animal is '");
    var text := Sentence(filterType, filterValue, winner).value;
    assert text == head + winner + "'.";
    assert text[..|head|] == head;
    assert text[|text| - 2..] == "'.";
    assert text[|head|..|text| - 2] == winner;
  }
}
