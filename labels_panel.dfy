/** What `LabelsPanel` shows for the labels the details hook returns: one card
    per label, titled by the last dot-separated segment of the key, with the
    value shortened to at most 100 characters and the full value as a hover
    title when it was shortened. An empty label map renders nothing. */
module LabelsPanel {
  import opened Wrappers
  import opened Strings

  const MaxShownLength: nat := 100
  const KeptLength: nat := 97

  /** `key.split('.').pop() || key`: the text after the last dot, or the whole
      key when there is no dot or nothing follows the last one. */
  function DisplayKey(key: string): (r: string)
    ensures '.' !in key ==> r == key
    ensures key != "" && key[|key| - 1] == '.' ==> r == key
    ensures '.' in key && key[|key| - 1] != '.' ==>
      && r != "" && '.' !in r
      && |r| < |key| && key[|key| - |r|..] == r && key[|key| - |r| - 1] == '.'
  {
    LastPieceIsSuffixWithoutSeparator(key, '.');
    var parts := Split(key, ".");
    var last := parts[|parts| - 1];
    if last != "" then last else key
  }

  /** The shown value: unchanged up to 100 characters, otherwise the first 97
      and an ellipsis. */
  function DisplayValue(value: string): (r: string)
    ensures |r| <= MaxShownLength
    ensures |value| <= MaxShownLength ==> r == value
    ensures |value| > MaxShownLength ==>
      |r| == MaxShownLength && r[..KeptLength] == value[..KeptLength] && r[KeptLength..] == "..."
  {
    if |value| > MaxShownLength then value[..KeptLength] + "..." else value
  }

  /** The hover `title`: the full value, only when it is longer than 100. */
  function Title(value: string): (r: Option<string>)
    ensures r.Some? <==> DisplayValue(value) != value
    ensures r.Some? ==> r.value == value
  {
    if |value| > MaxShownLength then Some(value) else None
  }

  datatype Card = Card(title: string, shown: string, hover: Option<string>)

  function CardFor(key: string, value: string): Card {
    Card(DisplayKey(key), DisplayValue(value), Title(value))
  }

  /** The panel for `Object.entries(labels)`, where `labels` is what
      `Containers.LabelsWithFallback` returns (already in property order):
      nothing for no labels, else one card per entry, in entry order. */
  function Render(entries: seq<(string, string)>): (r: Option<seq<Card>>)
    ensures r.None? <==> entries == []
    ensures r.Some? ==> |r.value| == |entries|
    ensures r.Some? ==> forall i :: 0 <= i < |entries| ==> r.value[i] == CardFor(entries[i].0, entries[i].1)
  {
    if entries == [] then None
    else Some(seq(|entries|, i requires 0 <= i < |entries| => CardFor(entries[i].0, entries[i].1)))
  }
}
