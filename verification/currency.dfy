/** The pt-BR money mask of the order forms and the parse that reads a
    masked amount back into a number. Amounts are handled as whole cents,
    so "1.234,56" is 123456 cents. */
module Currency {
  import opened Wrappers
  import opened Text
  import opened Decimal
  import Seqs

  /** `value.replace(/\D/g, '')`: the ASCII digits of `s`, in order. */
  function KeepDigits(s: string): (r: string)
    ensures AllDigits(r) && |r| <= |s|
    ensures forall c :: c in r <==> c in s && IsDigit(c)
  {
    var r := Seqs.Filter(s, IsDigit);
    assert forall i :: 0 <= i < |r| ==> r[i] in r;
    r
  }

  /** The cents a masked field holds: every digit typed, read as one integer. */
  function Cents(s: string): nat {
    Value(KeepDigits(s))
  }

  /** The two digits of a number below one hundred, with a leading zero. */
  function TwoDigits(m: nat): (r: string)
    requires m < 100
    ensures |r| == 2 && AllDigits(r) && Value(r) == m
  {
    var r := [DigitChar(m / 10), DigitChar(m % 10)];
    assert r[..1] == [DigitChar(m / 10)];
    assert r[..1][..0] == [];
    assert Value(r[..1]) == m / 10;
    r
  }

  /** `(n / 100).toFixed(2)`, computed exactly on whole cents. */
  function ToFixed2(n: nat): string {
    FromNat(n / 100) + "." + TwoDigits(n % 100)
  }

  /** `toFixed(2)` of n/100 is digits, '.', and two digits, and the two
      parts read back as `n` cents. */
  lemma ToFixed2Reads(n: nat)
    ensures var r := ToFixed2(n);
      |r| >= 4 && r[|r| - 3] == '.'
      && AllDigits(r[..|r| - 3]) && AllDigits(r[|r| - 2..])
      && Value(r[..|r| - 3]) * 100 + Value(r[|r| - 2..]) == n
  {
    var r := ToFixed2(n);
    assert r[..|r| - 3] == FromNat(n / 100) && r[|r| - 2..] == TwoDigits(n % 100);
  }

  /** `s.replace(a, b)` with a one-character pattern: only the first
      occurrence is replaced. */
  function ReplaceFirst(s: string, a: char, b: char): (r: string)
    ensures |r| == |s|
  {
    if |s| == 0 then ""
    else if s[0] == a then [b] + s[1..]
    else [s[0]] + ReplaceFirst(s[1..], a, b)
  }

  /** The replace changes a character only where the pattern stood, and
      only into the replacement. */
  lemma {:induction false} ReplaceFirstOnlyPattern(s: string, a: char, b: char)
    ensures forall i :: 0 <= i < |s| ==>
      ReplaceFirst(s, a, b)[i] == s[i] || (s[i] == a && ReplaceFirst(s, a, b)[i] == b)
  {
    if |s| > 0 && s[0] != a {
      ReplaceFirstOnlyPattern(s[1..], a, b);
      forall i | 1 <= i < |s|
        ensures ReplaceFirst(s, a, b)[i] == s[i] || (s[i] == a && ReplaceFirst(s, a, b)[i] == b)
      {
        assert ReplaceFirst(s, a, b)[i] == ReplaceFirst(s[1..], a, b)[i - 1];
      }
    }
  }

  /** Without an occurrence nothing changes. */
  lemma {:induction false} ReplaceFirstAbsent(s: string, a: char, b: char)
    requires a !in s
    ensures ReplaceFirst(s, a, b) == s
  {
    if |s| > 0 {
      assert s[1..] == s[1..];
      assert a !in s[1..];
      ReplaceFirstAbsent(s[1..], a, b);
      assert [s[0]] + s[1..] == s;
    }
  }

  /** Only the first occurrence changes, whatever follows it. */
  lemma {:induction false} ReplaceFirstAt(pre: string, post: string, a: char, b: char)
    requires a !in pre
    ensures ReplaceFirst(pre + [a] + post, a, b) == pre + [b] + post
  {
    var s := pre + [a] + post;
    if |pre| > 0 {
      assert s[0] == pre[0] && s[0] != a;
      assert s[1..] == pre[1..] + [a] + post;
      assert a !in pre[1..];
      ReplaceFirstAt(pre[1..], post, a, b);
      assert ReplaceFirst(s, a, b) == [pre[0]] + (pre[1..] + [b] + post);
      assert [pre[0]] + (pre[1..] + [b] + post) == pre + [b] + post;
    } else {
      assert s == [a] + post;
      assert s[1..] == post;
    }
  }

  /** How many digits follow at the start of `s`: what the lookahead
      `(?=(\d{3})+(?!\d))` inspects. */
  function DigitsAhead(s: string): nat {
    if |s| > 0 && IsDigit(s[0]) then 1 + DigitsAhead(s[1..]) else 0
  }

  /** The lookahead counts exactly the leading digit run. */
  lemma {:induction false} DigitsAheadIsRun(s: string)
    ensures DigitsAhead(s) == DigitRun(s)
  {
    if |s| > 0 && IsDigit(s[0]) {
      DigitsAheadIsRun(s[1..]);
    }
  }

  /** The separator that goes after a digit followed by `k` more digits:
      one '.' when `k` is a non-zero multiple of three. */
  function Separator(k: nat): string {
    if k > 0 && k % 3 == 0 then "." else ""
  }

  /** The global replace `s.replace(/(\d)(?=(\d{3})+(?!\d))/g, '$1.')`,
      scanned the way the regular expression engine does: a '.' goes after
      every digit whose following run of digits is a non-empty multiple of
      three long. */
  function RegexGroup(s: string): string {
    if |s| == 0 then ""
    else [s[0]] + (if IsDigit(s[0]) then Separator(DigitsAhead(s[1..])) else "") + RegexGroup(s[1..])
  }

  /** Thousands grouping of a digit string, from the left: each digit is
      followed by the separator its position from the right calls for. */
  function Group(ds: string): string {
    if |ds| == 0 then "" else [ds[0]] + Separator(|ds| - 1) + Group(ds[1..])
  }

  /** Grouping `n` digits adds one separator per complete group of three
      beyond the first digit. */
  lemma {:induction false} GroupLength(ds: string)
    requires |ds| > 0
    ensures |Group(ds)| == |ds| + (|ds| - 1) / 3
  {
    if |ds| > 1 {
      GroupLength(ds[1..]);
    }
  }

  predicate IsSeparator(c: char) {
    c == '.'
  }

  predicate NotSeparator(c: char) {
    c != '.'
  }

  /** A filter that drops '.' drops any separator. */
  lemma SeparatorFiltered(k: nat, p: char -> bool)
    requires !p('.')
    ensures Seqs.Filter(Separator(k), p) == []
  {
    Seqs.FilterNone(Separator(k), p);
  }

  /** A digit with its separator filters down to the digit. */
  lemma GroupHeadFiltered(d: char, k: nat, p: char -> bool)
    requires p(d) && !p('.')
    ensures Seqs.Filter([d] + Separator(k), p) == [d]
  {
    Seqs.FilterAppend([d], Separator(k), p);
    Seqs.FilterSingleton(d, p);
    SeparatorFiltered(k, p);
  }

  /** Grouping adds nothing but separators: a filter that keeps every
      digit and drops '.' gives the digits back. */
  lemma {:induction false} GroupFilter(ds: string, p: char -> bool)
    requires AllDigits(ds)
    requires forall c :: IsDigit(c) ==> p(c)
    requires !p('.')
    ensures Seqs.Filter(Group(ds), p) == ds
  {
    if |ds| > 0 {
      var head := [ds[0]] + Separator(|ds| - 1);
      GroupFilter(ds[1..], p);
      assert Group(ds) == head + Group(ds[1..]);
      Seqs.FilterAppend(head, Group(ds[1..]), p);
      GroupHeadFiltered(ds[0], |ds| - 1, p);
      assert [ds[0]] + ds[1..] == ds;
    }
  }

  /** Filtering a masked amount with such a filter leaves the integer
      digits, whatever the filter makes of ',', and the fraction digits. */
  lemma MaskedFilter(ip: string, ff: string, p: char -> bool)
    requires AllDigits(ip) && AllDigits(ff)
    requires forall c :: IsDigit(c) ==> p(c)
    requires !p('.')
    ensures Seqs.Filter(Group(ip) + "," + ff, p) == ip + Seqs.Filter(",", p) + ff
  {
    GroupFilter(ip, p);
    Seqs.FilterAppend(Group(ip) + ",", ff, p);
    Seqs.FilterAppend(Group(ip), ",", p);
    Seqs.FilterKeepsAll(ff, p);
  }

  lemma {:induction false} DigitsAheadOfDigits(ds: string, rest: string)
    requires AllDigits(ds)
    requires DigitsAhead(rest) == 0
    ensures DigitsAhead(ds + rest) == |ds|
  {
    if |ds| > 0 {
      assert (ds + rest)[1..] == ds[1..] + rest;
      DigitsAheadOfDigits(ds[1..], rest);
    } else {
      assert ds + rest == rest;
    }
  }

  /** The regular expression scan and the structural grouping agree on a
      digit string followed by a non-digit. */
  lemma {:induction false} RegexGroupDigits(ds: string, rest: string)
    requires AllDigits(ds)
    requires DigitsAhead(rest) == 0
    ensures RegexGroup(ds + rest) == Group(ds) + RegexGroup(rest)
  {
    if |ds| > 0 {
      assert (ds + rest)[1..] == ds[1..] + rest;
      DigitsAheadOfDigits(ds[1..], rest);
      RegexGroupDigits(ds[1..], rest);
      var head := [ds[0]] + Separator(|ds| - 1);
      assert RegexGroup(ds + rest) == head + (Group(ds[1..]) + RegexGroup(rest));
      assert Group(ds) == head + Group(ds[1..]);
    } else {
      assert ds + rest == rest;
    }
  }

  /** Neither ',' nor two digits after it get a separator. */
  lemma RegexGroupFraction(ff: string)
    requires |ff| == 2 && AllDigits(ff)
    ensures RegexGroup("," + ff) == "," + ff
  {
    var s := "," + ff;
    assert s[1..] == ff;
    assert ff[1..][1..] == [];
    assert DigitsAhead(ff[1..]) == 1;
    assert RegexGroup(ff[1..]) == ff[1..];
    assert [ff[0]] + ff[1..] == ff;
  }

  /** The pt-BR rendering of `n` cents: the grouped integer part, ',' and
      exactly two fraction digits. */
  function Format(n: nat): string {
    Group(FromNat(n / 100)) + "," + TwoDigits(n % 100)
  }

  /** A rendered amount ends in ',' and the two digits of its cents. */
  lemma FormatEndsInCents(n: nat)
    ensures var r := Format(n);
      |r| >= 4 && r[|r| - 3] == ','
      && AllDigits(r[|r| - 2..]) && Value(r[|r| - 2..]) == n % 100
  {
    var r := Format(n);
    assert r[|r| - 2..] == TwoDigits(n % 100);
  }

  /** The mask of CreateOrderModal and EditOrderModal: keep the digits,
      read them as cents, format with two decimals, use ',' as decimal
      mark and '.' between groups of three integer digits. The result is
      the rendering of the cents typed. */
  function Mask(input: string): (r: string)
    ensures r == Format(Cents(input))
  {
    var n := Cents(input);
    var ip := FromNat(n / 100);
    var ff := TwoDigits(n % 100);
    assert '.' !in ip;
    ReplaceFirstAt(ip, ff, '.', ',');
    assert ip + "." + ff == ip + ['.'] + ff;
    assert ip + "," + ff == ip + ("," + ff);
    assert DigitsAhead("," + ff) == 0;
    RegexGroupDigits(ip, "," + ff);
    RegexGroupFraction(ff);
    RegexGroup(ReplaceFirst(ToFixed2(n), '.', ','))
  }

  /** The digits of a rendered amount are the integer digits followed by
      the two fraction digits. */
  lemma FormatDigits(n: nat, ip: string, ff: string)
    requires ip == FromNat(n / 100) && ff == TwoDigits(n % 100)
    ensures KeepDigits(Format(n)) == ip + ff
  {
    MaskedFilter(ip, ff, IsDigit);
    Seqs.FilterSingleton(',', IsDigit);
    assert ip + [] + ff == ip + ff;
  }

  /** A rendered amount holds the cents it renders. */
  lemma CentsOfFormat(n: nat)
    ensures Cents(Format(n)) == n
  {
    var ip := FromNat(n / 100);
    var ff := TwoDigits(n % 100);
    FormatDigits(n, ip, ff);
    ValueAppend(ip, ff);
    assert Pow10(|ff|) == 100;
    assert Value(ip + ff) == (n / 100) * 100 + n % 100;
  }

  /** Masking keeps the amount: the masked string holds the same cents. */
  lemma MaskKeepsCents(input: string)
    ensures Cents(Mask(input)) == Cents(input)
  {
    CentsOfFormat(Cents(input));
  }

  /** Masking an already masked string changes nothing. */
  lemma MaskIdempotent(input: string)
    ensures Mask(Mask(input)) == Mask(input)
  {
    MaskKeepsCents(input);
  }

  /** A string without digits masks to zero. */
  lemma MaskNoDigits(input: string)
    requires forall i :: 0 <= i < |input| ==> !IsDigit(input[i])
    ensures Mask(input) == "0,00"
  {
    Seqs.FilterNone(input, IsDigit);
    assert Cents(input) == 0;
    FormatSmall(0);
  }

  /** Below one unit the integer part is a single "0". */
  lemma FormatSmall(n: nat)
    requires n < 100
    ensures Format(n) == "0," + TwoDigits(n)
  {
    assert FromNat(0) == "0";
    assert Group("0") == "0";
  }

  lemma CentsOfLeadingZeros()
    ensures Cents("0012") == 12
  {
    var s := "0012";
    Seqs.FilterKeepsAll(s, IsDigit);
    TwoDigitsOf12();
    ValueLeadingZero("12");
    ValueLeadingZero("0" + "12");
    assert s == "0" + ("0" + "12");
  }

  /** Leading zeros are dropped: "0012" masks to "0,12". */
  lemma MaskDropsLeadingZeros()
    ensures Mask("0012") == "0,12"
  {
    CentsOfLeadingZeros();
    FormatOf12();
  }

  lemma TwoDigitsOf12()
    ensures TwoDigits(12) == "12"
  {
  }

  lemma FormatOf12()
    ensures Format(12) == "0,12"
  {
    FormatSmall(12);
    TwoDigitsOf12();
  }

  /** The valor parse of App's optimistic create:
      `parseFloat(v.replace(/\./g, '').replace(',', '.'))`. */
  function ParseValor(v: string): (r: Option<real>)
    ensures (forall i :: 0 <= i < |v| ==> !IsDigit(v[i])) ==> r.None?
  {
    var kept := Seqs.Filter(v, NotSeparator);
    var t := ReplaceFirst(kept, ',', '.');
    ReplaceFirstOnlyPattern(kept, ',', '.');
    assert (forall i :: 0 <= i < |v| ==> !IsDigit(v[i])) ==> forall i :: 0 <= i < |t| ==> !IsDigit(t[i]) by {
      if forall i :: 0 <= i < |v| ==> !IsDigit(v[i]) {
        forall i | 0 <= i < |t| ensures !IsDigit(t[i]) {
          assert kept[i] in v;
        }
      }
    }
    ParseFloat(t)
  }

  /** What `parseFloat` gets to see of a rendered amount: "I.FF". */
  lemma FormatPreparedForParse(n: nat, ip: string, ff: string)
    requires ip == FromNat(n / 100) && ff == TwoDigits(n % 100)
    ensures ReplaceFirst(Seqs.Filter(Format(n), NotSeparator), ',', '.') == ip + "." + ff
  {
    MaskedFilter(ip, ff, NotSeparator);
    Seqs.FilterSingleton(',', NotSeparator);
    assert ip + "," + ff == ip + [','] + ff;
    assert ',' !in ip;
    ReplaceFirstAt(ip, ff, ',', '.');
    assert ip + ['.'] + ff == ip + "." + ff;
  }

  /** `n` cents in reais. */
  function Reais(n: int): real {
    n as real / 100.0
  }

  /** `parseFloat` reads "I.FF" built from `n` cents as `n / 100`. */
  lemma ParseFloatOfCents(n: nat, ip: string, ff: string)
    requires ip == FromNat(n / 100) && ff == TwoDigits(n % 100)
    ensures ParseFloat(ip + "." + ff) == Some(Reais(n))
  {
    ParseFloatOfDecimal(ip, ff);
    CentsSplit(n);
  }

  lemma CentsSplit(n: nat)
    ensures DecimalValue(FromNat(n / 100), TwoDigits(n % 100)) == Reais(n)
  {
    assert Pow10(2) == 100;
    assert FractionValue(TwoDigits(n % 100)) == (n % 100) as real / 100.0;
    assert n == (n / 100) * 100 + n % 100;
  }

  /** Parsing a rendered amount yields its cents over one hundred. */
  lemma ParseValorOfFormat(n: nat)
    ensures ParseValor(Format(n)) == Some(Reais(n))
  {
    var ip := FromNat(n / 100);
    var ff := TwoDigits(n % 100);
    FormatPreparedForParse(n, ip, ff);
    ParseFloatOfCents(n, ip, ff);
  }

  /** Parsing a masked string yields exactly the masked cents over one hundred. */
  lemma ParseValorOfMask(input: string)
    ensures ParseValor(Mask(input)) == Some(Reais(Cents(input)))
  {
    ParseValorOfFormat(Cents(input));
  }
}
