/** `groupBy(rows, key)`: totals of `valor` per distinct non-empty key,
    kept in a JavaScript `Map` (which remembers insertion order) and then
    sorted by descending total with the stable `Array.prototype.sort`.

    The map is modelled as a sequence of entries in insertion order; the
    sort as a stable insertion sort. */
module Grouping {
  import opened Types
  import opened Aggregates
  import StateNames
  import Seqs

  /** The three row fields the dashboard ranks by. */
  datatype GroupKey = ByEstado | ByOrigem | ByProfissional

  /** The value a row is grouped under; state names are normalized first. */
  function KeyOf(r: SheetRow, key: GroupKey): string {
    match key
    case ByEstado => StateNames.NormalizeStateName(r.estado)
    case ByOrigem => r.origem
    case ByProfissional => r.profissional
  }

  /** The rows whose key is exactly `name`. */
  function KeyIs(key: GroupKey, name: string): SheetRow -> bool {
    (r: SheetRow) => KeyOf(r, key) == name
  }

  /** The rows that land in some group at all (`if (val)`). */
  function HasKey(key: GroupKey): SheetRow -> bool {
    (r: SheetRow) => KeyOf(r, key) != ""
  }

  // ---------------------------------------------------------------------
  // The insertion-ordered map

  /** The keys of the map in insertion order, `map.keys()`. */
  function Names(m: seq<Entry>): (ns: seq<string>)
    ensures |ns| == |m|
  {
    if |m| == 0 then [] else [m[0].name] + Names(m[1..])
  }

  /** No name occurs twice: a `Map` holds each key once. */
  predicate Distinct(m: seq<Entry>) {
    |m| == 0 || (m[0].name !in Names(m[1..]) && Distinct(m[1..]))
  }

  /** `map.get(name) || 0`: the stored total, or zero for an absent key. */
  function Get(m: seq<Entry>, name: string): real {
    if |m| == 0 then 0.0
    else if m[0].name == name then m[0].value
    else Get(m[1..], name)
  }

  /** `map.set(name, (map.get(name) || 0) + v)`: an existing key keeps its
      place and grows by `v`; a new key goes to the end. */
  function AddTo(m: seq<Entry>, name: string, v: real): (r: seq<Entry>)
    ensures Get(r, name) == Get(m, name) + v
  {
    if |m| == 0 then [Entry(name, v)]
    else if m[0].name == name then [Entry(name, m[0].value + v)] + m[1..]
    else [m[0]] + AddTo(m[1..], name, v)
  }

  /** A known key keeps the key order; a new one is appended to it. */
  lemma {:induction false} AddToNames(m: seq<Entry>, name: string, v: real)
    ensures Names(AddTo(m, name, v)) == if name in Names(m) then Names(m) else Names(m) + [name]
  {
    if |m| > 0 && m[0].name != name {
      AddToNames(m[1..], name, v);
      assert [m[0]] + AddTo(m[1..], name, v) == AddTo(m, name, v);
    }
  }

  /** Every other key keeps its total. */
  lemma {:induction false} AddToGetOther(m: seq<Entry>, name: string, v: real, n: string)
    requires n != name
    ensures Get(AddTo(m, name, v), n) == Get(m, n)
  {
    if |m| > 0 && m[0].name != name {
      AddToGetOther(m[1..], name, v, n);
    }
  }

  /** Adding to a map with distinct keys keeps them distinct. */
  lemma {:induction false} AddToDistinct(m: seq<Entry>, name: string, v: real)
    requires Distinct(m)
    ensures Distinct(AddTo(m, name, v))
  {
    if |m| > 0 && m[0].name != name {
      AddToDistinct(m[1..], name, v);
      AddToNames(m[1..], name, v);
    }
  }

  /** The `forEach` over the rows, first to last: rows with an empty key
      are skipped, every other row adds its amount to its key. */
  function Accumulate(rows: seq<SheetRow>, key: GroupKey): seq<Entry> {
    if |rows| == 0 then []
    else
      var last := rows[|rows| - 1];
      var m := Accumulate(rows[..|rows| - 1], key);
      if KeyOf(last, key) != "" then AddTo(m, KeyOf(last, key), last.valor) else m
  }

  /** The key of every row, in row order. */
  function Keys(rows: seq<SheetRow>, key: GroupKey): (ks: seq<string>)
    ensures |ks| == |rows|
  {
    if |rows| == 0 then [] else Keys(rows[..|rows| - 1], key) + [KeyOf(rows[|rows| - 1], key)]
  }

  /** The map holds exactly the non-empty keys of the rows. */
  lemma {:induction false} AccumulateNames(rows: seq<SheetRow>, key: GroupKey, n: string)
    ensures n in Names(Accumulate(rows, key)) <==> n != "" && n in Keys(rows, key)
  {
    if |rows| > 0 {
      var last := rows[|rows| - 1];
      var m := Accumulate(rows[..|rows| - 1], key);
      AccumulateNames(rows[..|rows| - 1], key, n);
      if KeyOf(last, key) != "" {
        AddToNames(m, KeyOf(last, key), last.valor);
      }
    }
  }

  /** The map holds each key once. */
  lemma {:induction false} AccumulateDistinct(rows: seq<SheetRow>, key: GroupKey)
    ensures Distinct(Accumulate(rows, key))
  {
    if |rows| > 0 {
      var last := rows[|rows| - 1];
      var m := Accumulate(rows[..|rows| - 1], key);
      AccumulateDistinct(rows[..|rows| - 1], key);
      if KeyOf(last, key) != "" {
        AddToDistinct(m, KeyOf(last, key), last.valor);
      }
    }
  }

  /** Each key's total is the sum over the rows with that key. */
  lemma {:induction false} AccumulateGet(rows: seq<SheetRow>, key: GroupKey, n: string)
    requires n != ""
    ensures Get(Accumulate(rows, key), n) == TrySum(rows, KeyIs(key, n))
  {
    if |rows| > 0 {
      var last := rows[|rows| - 1];
      var m := Accumulate(rows[..|rows| - 1], key);
      AccumulateGet(rows[..|rows| - 1], key, n);
      if KeyOf(last, key) != "" && KeyOf(last, key) != n {
        AddToGetOther(m, KeyOf(last, key), last.valor, n);
      }
      assert KeyIs(key, n)(last) <==> KeyOf(last, key) == n;
    }
  }

  /** The distinct non-empty keys in order of first appearance: the order
      in which the `Map` first sees them. */
  function FirstOccurrences(ks: seq<string>): seq<string> {
    if |ks| == 0 then []
    else
      var seen := FirstOccurrences(ks[..|ks| - 1]);
      var k := ks[|ks| - 1];
      if k != "" && k !in seen then seen + [k] else seen
  }

  /** The map's keys are the rows' keys in order of first appearance. */
  lemma {:induction false} AccumulateOrder(rows: seq<SheetRow>, key: GroupKey)
    ensures Names(Accumulate(rows, key)) == FirstOccurrences(Keys(rows, key))
  {
    if |rows| > 0 {
      var last := rows[|rows| - 1];
      var m := Accumulate(rows[..|rows| - 1], key);
      AccumulateOrder(rows[..|rows| - 1], key);
      assert Keys(rows, key)[..|rows| - 1] == Keys(rows[..|rows| - 1], key);
      if KeyOf(last, key) != "" {
        AddToNames(m, KeyOf(last, key), last.valor);
      }
    }
  }

  /** The sum of all totals in the map. */
  function Total(m: seq<Entry>): real {
    if |m| == 0 then 0.0 else m[0].value + Total(m[1..])
  }

  lemma {:induction false} AddToTotal(m: seq<Entry>, name: string, v: real)
    ensures Total(AddTo(m, name, v)) == Total(m) + v
  {
    if |m| > 0 && m[0].name != name {
      AddToTotal(m[1..], name, v);
      assert AddTo(m, name, v)[1..] == AddTo(m[1..], name, v);
    } else if |m| > 0 {
      assert AddTo(m, name, v)[1..] == m[1..];
    }
  }

  /** Together the groups hold every row that has a key, and no other. */
  lemma {:induction false} AccumulateTotal(rows: seq<SheetRow>, key: GroupKey)
    ensures Total(Accumulate(rows, key)) == TrySum(rows, HasKey(key))
  {
    if |rows| > 0 {
      var last := rows[|rows| - 1];
      var m := Accumulate(rows[..|rows| - 1], key);
      AccumulateTotal(rows[..|rows| - 1], key);
      if KeyOf(last, key) != "" {
        AddToTotal(m, KeyOf(last, key), last.valor);
      }
      assert HasKey(key)(last) <==> KeyOf(last, key) != "";
    }
  }

  // ---------------------------------------------------------------------
  // The sort by descending total

  /** Puts `x` in front of the first entry whose total is not larger, so
      that `x` stays ahead of the entries that tie with it. */
  function Insert(x: Entry, s: seq<Entry>): seq<Entry> {
    if |s| == 0 || s[0].value <= x.value then [x] + s
    else [s[0]] + Insert(x, s[1..])
  }

  /** `sort((a, b) => b.value - a.value)`, which is stable: an insertion
      sort that inserts each entry in front of its equals. */
  function SortDesc(m: seq<Entry>): seq<Entry> {
    if |m| == 0 then [] else Insert(m[0], SortDesc(m[1..]))
  }

  predicate Descending(s: seq<Entry>) {
    forall i, j :: 0 <= i < j < |s| ==> s[i].value >= s[j].value
  }

  lemma {:induction false} InsertMultiset(x: Entry, s: seq<Entry>)
    ensures multiset(Insert(x, s)) == multiset(s) + multiset{x}
  {
    if |s| > 0 && s[0].value > x.value {
      InsertMultiset(x, s[1..]);
      assert s == [s[0]] + s[1..];
    }
  }

  lemma {:induction false} InsertDescending(x: Entry, s: seq<Entry>)
    requires Descending(s)
    ensures Descending(Insert(x, s))
  {
    if |s| > 0 && s[0].value > x.value {
      InsertDescending(x, s[1..]);
      InsertMultiset(x, s[1..]);
      var t := Insert(x, s[1..]);
      forall e | e in t ensures s[0].value >= e.value {
        assert e in multiset(t);
        if e != x {
          assert e in s[1..];
        }
      }
    }
  }

  lemma {:induction false} InsertNames(x: Entry, s: seq<Entry>, n: string)
    ensures n in Names(Insert(x, s)) <==> n == x.name || n in Names(s)
  {
    if |s| > 0 && s[0].value > x.value {
      InsertNames(x, s[1..], n);
    }
  }

  lemma {:induction false} InsertDistinct(x: Entry, s: seq<Entry>)
    requires Distinct(s) && x.name !in Names(s)
    ensures Distinct(Insert(x, s))
  {
    if |s| > 0 && s[0].value > x.value {
      InsertDistinct(x, s[1..]);
      InsertNames(x, s[1..], s[0].name);
    }
  }

  lemma {:induction false} InsertGet(x: Entry, s: seq<Entry>, n: string)
    requires x.name !in Names(s)
    ensures Get(Insert(x, s), n) == Get([x] + s, n)
  {
    if |s| > 0 && s[0].value > x.value {
      InsertGet(x, s[1..], n);
    }
  }

  /** `ValueIs(v)` picks the entries that tie at total `v`. */
  function ValueIs(v: real): Entry -> bool {
    (e: Entry) => e.value == v
  }

  /** Inserting keeps `x` ahead of every entry it ties with. */
  lemma {:induction false} InsertStable(x: Entry, s: seq<Entry>, v: real)
    ensures Seqs.Filter(Insert(x, s), ValueIs(v)) == Seqs.Filter([x] + s, ValueIs(v))
  {
    var p := ValueIs(v);
    if |s| > 0 && s[0].value > x.value {
      var y, s' := s[0], s[1..];
      var fx := if p(x) then [x] else [];
      var fy := if p(y) then [y] else [];
      assert fy + fx == fx + fy by {
        assert !p(x) || !p(y);
      }
      calc {
        Seqs.Filter(Insert(x, s), p);
        { assert Insert(x, s) == [y] + Insert(x, s'); }
        Seqs.Filter([y] + Insert(x, s'), p);
        { Seqs.FilterCons(y, Insert(x, s'), p); }
        fy + Seqs.Filter(Insert(x, s'), p);
        { InsertStable(x, s', v); Seqs.FilterCons(x, s', p); }
        fy + (fx + Seqs.Filter(s', p));
        fx + (fy + Seqs.Filter(s', p));
        { Seqs.FilterCons(y, s', p); assert [y] + s' == s; }
        fx + Seqs.Filter(s, p);
        { Seqs.FilterCons(x, s, p); }
        Seqs.Filter([x] + s, p);
      }
    }
  }

  /** The sort reorders the entries and leaves nothing out. */
  lemma {:induction false} SortPermutes(m: seq<Entry>)
    ensures multiset(SortDesc(m)) == multiset(m)
  {
    if |m| > 0 {
      SortPermutes(m[1..]);
      InsertMultiset(m[0], SortDesc(m[1..]));
      assert m == [m[0]] + m[1..];
    }
  }

  /** The totals come out largest first. */
  lemma {:induction false} SortDescending(m: seq<Entry>)
    ensures Descending(SortDesc(m))
  {
    if |m| > 0 {
      SortDescending(m[1..]);
      InsertDescending(m[0], SortDesc(m[1..]));
    }
  }

  /** Entries that tie keep their original relative order. */
  lemma {:induction false} SortStable(m: seq<Entry>, v: real)
    ensures Seqs.Filter(SortDesc(m), ValueIs(v)) == Seqs.Filter(m, ValueIs(v))
  {
    if |m| > 0 {
      SortStable(m[1..], v);
      InsertStable(m[0], SortDesc(m[1..]), v);
      Seqs.FilterCons(m[0], SortDesc(m[1..]), ValueIs(v));
      Seqs.FilterCons(m[0], m[1..], ValueIs(v));
      assert m == [m[0]] + m[1..];
    }
  }

  /** The sort keeps the key set, keeps keys distinct and keeps each total. */
  lemma {:induction false} SortKeepsMap(m: seq<Entry>, n: string)
    requires Distinct(m)
    ensures Distinct(SortDesc(m))
    ensures n in Names(SortDesc(m)) <==> n in Names(m)
    ensures Get(SortDesc(m), n) == Get(m, n)
  {
    if |m| > 0 {
      var t := SortDesc(m[1..]);
      SortKeepsMap(m[1..], n);
      SortKeepsMap(m[1..], m[0].name);
      InsertNames(m[0], t, n);
      InsertDistinct(m[0], t);
      InsertGet(m[0], t, n);
    }
  }

  lemma {:induction false} InsertTotal(x: Entry, s: seq<Entry>)
    ensures Total(Insert(x, s)) == x.value + Total(s)
  {
    if |s| > 0 && s[0].value > x.value {
      InsertTotal(x, s[1..]);
      assert Insert(x, s)[1..] == Insert(x, s[1..]);
    }
  }

  lemma {:induction false} SortTotal(m: seq<Entry>)
    ensures Total(SortDesc(m)) == Total(m)
  {
    if |m| > 0 {
      SortTotal(m[1..]);
      InsertTotal(m[0], SortDesc(m[1..]));
    }
  }

  lemma {:induction false} NamesAt(m: seq<Entry>, i: nat)
    requires i < |m|
    ensures Names(m)[i] == m[i].name
  {
    if i > 0 {
      NamesAt(m[1..], i - 1);
    }
  }

  /** Distinct keys, stated by position. */
  lemma {:induction false} DistinctAt(m: seq<Entry>, i: nat, j: nat)
    requires Distinct(m) && i < j < |m|
    ensures m[i].name != m[j].name
  {
    if i == 0 {
      NamesAt(m[1..], j - 1);
    } else {
      DistinctAt(m[1..], i - 1, j - 1);
    }
  }

  /** In a map with distinct keys, looking up an entry's key finds it. */
  lemma {:induction false} GetAt(m: seq<Entry>, i: nat)
    requires Distinct(m) && i < |m|
    ensures Get(m, m[i].name) == m[i].value
  {
    if i > 0 {
      NamesAt(m[1..], i - 1);
      GetAt(m[1..], i - 1);
    }
  }

  // ---------------------------------------------------------------------
  // groupBy

  /** The ranking a chart shows: per-key totals, largest first. */
  function GroupBy(rows: seq<SheetRow>, key: GroupKey): (g: seq<Entry>)
    ensures Descending(g)
  {
    SortDescending(Accumulate(rows, key));
    SortDesc(Accumulate(rows, key))
  }

  /** Each non-empty key of the rows appears exactly once, and nothing else
      appears. */
  lemma GroupByKeys(rows: seq<SheetRow>, key: GroupKey)
    ensures forall n :: n in Names(GroupBy(rows, key)) <==> n != "" && n in Keys(rows, key)
    ensures forall i, j :: 0 <= i < j < |GroupBy(rows, key)| ==>
      GroupBy(rows, key)[i].name != GroupBy(rows, key)[j].name
  {
    var m := Accumulate(rows, key);
    var g := GroupBy(rows, key);
    AccumulateDistinct(rows, key);
    forall n ensures n in Names(g) <==> n != "" && n in Keys(rows, key) {
      SortKeepsMap(m, n);
      AccumulateNames(rows, key, n);
    }
    SortKeepsMap(m, "");
    forall i, j | 0 <= i < j < |g| ensures g[i].name != g[j].name {
      DistinctAt(g, i, j);
    }
  }

  /** Each entry carries the sum of `valor` over the rows with its key, and
      the entries together account for every row that has a key. */
  lemma GroupByTotals(rows: seq<SheetRow>, key: GroupKey)
    ensures forall i :: 0 <= i < |GroupBy(rows, key)| ==>
      GroupBy(rows, key)[i].value == TrySum(rows, KeyIs(key, GroupBy(rows, key)[i].name))
    ensures Total(GroupBy(rows, key)) == TrySum(rows, HasKey(key))
  {
    var m := Accumulate(rows, key);
    var g := GroupBy(rows, key);
    AccumulateDistinct(rows, key);
    SortPermutes(m);
    forall i | 0 <= i < |g| ensures g[i].value == TrySum(rows, KeyIs(key, g[i].name)) {
      assert g[i] in multiset(m);
      var j :| 0 <= j < |m| && m[j] == g[i];
      GetAt(m, j);
      NamesAt(m, j);
      AccumulateNames(rows, key, m[j].name);
      AccumulateGet(rows, key, m[j].name);
    }
    SortTotal(m);
    AccumulateTotal(rows, key);
  }

  /** Largest total first; entries that tie stay in the order the map
      first saw their keys, which is the order of the rows. */
  lemma GroupByOrder(rows: seq<SheetRow>, key: GroupKey)
    ensures Descending(GroupBy(rows, key))
    ensures multiset(GroupBy(rows, key)) == multiset(Accumulate(rows, key))
    ensures forall v :: Seqs.Filter(GroupBy(rows, key), ValueIs(v)) == Seqs.Filter(Accumulate(rows, key), ValueIs(v))
    ensures Names(Accumulate(rows, key)) == FirstOccurrences(Keys(rows, key))
  {
    var m := Accumulate(rows, key);
    SortDescending(m);
    SortPermutes(m);
    forall v ensures Seqs.Filter(GroupBy(rows, key), ValueIs(v)) == Seqs.Filter(m, ValueIs(v)) {
      SortStable(m, v);
    }
    AccumulateOrder(rows, key);
  }
}
