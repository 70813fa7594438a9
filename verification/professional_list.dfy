/** The professionals card: the first three entries of the ranking, each
    with a bar proportional to its share, and a count of the rest. */
module ProfessionalList {
  import opened Wrappers
  import opened Types
  import Grouping

  /** `data.slice(0, 3)`. */
  function Top3(data: seq<Entry>): (shown: seq<Entry>)
    ensures |shown| == if |data| < 3 then |data| else 3
    ensures forall i :: 0 <= i < |shown| ==> shown[i] == data[i]
  {
    if |data| < 3 then data else data[..3]
  }

  /** The width of an entry's bar, in percent of `totalValue`. */
  function BarPercent(value: real, totalValue: real): (p: real)
    ensures totalValue <= 0.0 ==> p == 0.0
    ensures totalValue > 0.0 ==> p * totalValue == value * 100.0
  {
    if totalValue > 0.0 then value / totalValue * 100.0 else 0.0
  }

  /** A share between nothing and the whole fills between none and all
      of the bar. */
  lemma BarWithinTrack(value: real, totalValue: real)
    requires totalValue > 0.0 && 0.0 <= value <= totalValue
    ensures 0.0 <= BarPercent(value, totalValue) <= 100.0
  {
    assert 0.0 <= value / totalValue <= 1.0;
  }

  /** The "+ n outros..." label: present only past three entries, counting
      the ones not shown. */
  function Overflow(data: seq<Entry>): (r: Option<nat>)
    ensures r.Some? <==> |data| > 3
    ensures r.Some? ==> r.value == |data| - 3
  {
    if |data| > 3 then Some(|data| - 3) else None
  }

  /** The entries shown and the ones the label counts make up the list. */
  lemma ShownPlusOverflow(data: seq<Entry>)
    ensures |Top3(data)| + Overflow(data).GetOr(0) == |data|
  {
  }

  /** On a ranking sorted largest first, no hidden entry is worth more
      than a shown one. */
  lemma ShownAreLargest(data: seq<Entry>, i: nat, j: nat)
    requires Grouping.Descending(data)
    requires i < |Top3(data)| && |Top3(data)| <= j < |data|
    ensures Top3(data)[i].value >= data[j].value
  {
  }
}
