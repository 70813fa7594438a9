/** Status classification and the two reducers of the metrics: `sum`
    over all rows and `trySum` over the rows a predicate accepts. Both
    add from the first row to the last. */
module Aggregates {
  import opened Text
  import opened Types
  import Seqs

  /** `s?.toUpperCase() === "GANHO"`. */
  function IsGanho(s: string): (r: bool)
    ensures r ==> |s| == 5 && !IsEmAndamento(s)
  {
    Upper(s) == "GANHO"
  }

  /** `s?.toUpperCase() === "EM ANDAMENTO"`. */
  function IsEmAndamento(s: string): (r: bool)
    ensures r ==> |s| == 12
  {
    Upper(s) == "EM ANDAMENTO"
  }

  /** `rows.reduce((acc, r) => acc + r.valor, 0)`. */
  function Sum(rows: seq<SheetRow>): (r: real)
    ensures NonNegative(rows) ==> r >= 0.0
  {
    if |rows| == 0 then 0.0 else Sum(rows[..|rows| - 1]) + rows[|rows| - 1].valor
  }

  /** `rows.reduce((acc, r) => p(r) ? acc + r.valor : acc, 0)`. */
  function TrySum(rows: seq<SheetRow>, p: SheetRow -> bool): (r: real)
    ensures (forall i :: 0 <= i < |rows| ==> !p(rows[i])) ==> r == 0.0
  {
    if |rows| == 0 then 0.0
    else
      var last := rows[|rows| - 1];
      TrySum(rows[..|rows| - 1], p) + (if p(last) then last.valor else 0.0)
  }

  lemma {:induction false} SumAppend(a: seq<SheetRow>, b: seq<SheetRow>)
    ensures Sum(a + b) == Sum(a) + Sum(b)
  {
    if |b| == 0 {
      assert a + b == a;
    } else {
      assert (a + b)[..|a + b| - 1] == a + b[..|b| - 1];
      SumAppend(a, b[..|b| - 1]);
    }
  }

  lemma {:induction false} TrySumAppend(a: seq<SheetRow>, b: seq<SheetRow>, p: SheetRow -> bool)
    ensures TrySum(a + b, p) == TrySum(a, p) + TrySum(b, p)
  {
    if |b| == 0 {
      assert a + b == a;
    } else {
      assert (a + b)[..|a + b| - 1] == a + b[..|b| - 1];
      TrySumAppend(a, b[..|b| - 1], p);
    }
  }

  /** Adding the accepted rows is adding up the filtered rows. */
  lemma {:induction false} TrySumIsSumOfFilter(rows: seq<SheetRow>, p: SheetRow -> bool)
    ensures TrySum(rows, p) == Sum(Seqs.Filter(rows, p))
  {
    if |rows| > 0 {
      var init := rows[..|rows| - 1];
      TrySumIsSumOfFilter(init, p);
      var last := rows[|rows| - 1];
      if p(last) {
        SumAppend(Seqs.Filter(init, p), [last]);
        assert [last][..0] == [];
      }
    }
  }

  /** A predicate that accepts everything sums everything. */
  lemma {:induction false} TrySumAll(rows: seq<SheetRow>, p: SheetRow -> bool)
    requires forall r :: p(r)
    ensures TrySum(rows, p) == Sum(rows)
  {
    if |rows| > 0 {
      TrySumAll(rows[..|rows| - 1], p);
    }
  }

  /** Only the rows the predicates accept matter. */
  lemma {:induction false} TrySumCongruent(rows: seq<SheetRow>, p: SheetRow -> bool, q: SheetRow -> bool)
    requires forall i :: 0 <= i < |rows| ==> p(rows[i]) == q(rows[i])
    ensures TrySum(rows, p) == TrySum(rows, q)
  {
    if |rows| > 0 {
      TrySumCongruent(rows[..|rows| - 1], p, q);
    }
  }

  /** With non-negative amounts, accepting more rows never lowers the sum. */
  lemma {:induction false} TrySumMonotone(rows: seq<SheetRow>, p: SheetRow -> bool, q: SheetRow -> bool)
    requires NonNegative(rows)
    requires forall i :: 0 <= i < |rows| ==> p(rows[i]) ==> q(rows[i])
    ensures TrySum(rows, p) <= TrySum(rows, q)
  {
    if |rows| > 0 {
      TrySumMonotone(rows[..|rows| - 1], p, q);
    }
  }

  /** With non-negative amounts, a partial sum is at most the full sum. */
  lemma {:induction false} TrySumAtMostSum(rows: seq<SheetRow>, p: SheetRow -> bool)
    requires NonNegative(rows)
    ensures 0.0 <= TrySum(rows, p) <= Sum(rows)
  {
    if |rows| > 0 {
      TrySumAtMostSum(rows[..|rows| - 1], p);
    }
  }

  /** Summing the rows `q` accepts among those `p` kept is summing the rows
      both accept. */
  lemma {:induction false} TrySumOfFilter(rows: seq<SheetRow>, p: SheetRow -> bool, q: SheetRow -> bool)
    ensures TrySum(Seqs.Filter(rows, p), q) == TrySum(rows, (r: SheetRow) => p(r) && q(r))
  {
    if |rows| > 0 {
      var init := rows[..|rows| - 1];
      var last := rows[|rows| - 1];
      TrySumOfFilter(init, p, q);
      if p(last) {
        TrySumAppend(Seqs.Filter(init, p), [last], q);
        assert [last][..0] == [];
      }
    }
  }

  /** Filtering keeps amounts non-negative. */
  lemma NonNegativeFilter(rows: seq<SheetRow>, p: SheetRow -> bool)
    requires NonNegative(rows)
    ensures NonNegative(Seqs.Filter(rows, p))
  {
    var f := Seqs.Filter(rows, p);
    forall i | 0 <= i < |f| ensures f[i].valor >= 0.0 {
      assert f[i] in rows;
    }
  }
}
