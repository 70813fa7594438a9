/** The origins chart: the colour of each slice, picked by ordered
    substring rules on the lower-cased origin name. */
module OriginPieChart {
  import opened Types
  import opened Text

  /** `getColor`: the first rule whose text occurs in the lower-cased name
      decides; with none, the theme colour. */
  function GetColor(name: string, themeColor: string): (c: string)
    ensures c == themeColor || c in ["#3b82f6", "#ec4899", "#ef4444", "#eab308", "#64748b", "#f97316", "#22c55e"]
  {
    var n := Lower(name);
    if Contains(n, "instagram") then "#3b82f6"
    else if Contains(n, "facebook") then "#ec4899"
    else if Contains(n, "website") || Contains(n, "site") then "#ef4444"
    else if Contains(n, "google") then "#eab308"
    else if Contains(n, "email") || Contains(n, "e-mail") then "#64748b"
    else if Contains(n, "evento") then "#f97316"
    else if Contains(n, "indica") then "#22c55e"
    else themeColor
  }

  /** A rule: the texts that trigger it and the colour it gives. */
  datatype Rule = Rule(texts: seq<string>, color: string)

  /** The rules in the order they are tried. */
  const Rules: seq<Rule> := [
    Rule(["instagram"], "#3b82f6"),
    Rule(["facebook"], "#ec4899"),
    Rule(["website", "site"], "#ef4444"),
    Rule(["google"], "#eab308"),
    Rule(["email", "e-mail"], "#64748b"),
    Rule(["evento"], "#f97316"),
    Rule(["indica"], "#22c55e")]

  predicate Fires(rule: Rule, n: string) {
    exists k | 0 <= k < |rule.texts| :: Contains(n, rule.texts[k])
  }

  /** The colour of the first rule that fires on `n`, or `fallback`. */
  function FirstMatch(rules: seq<Rule>, n: string, fallback: string): (c: string)
    ensures (forall i :: 0 <= i < |rules| ==> !Fires(rules[i], n)) ==> c == fallback
  {
    if |rules| == 0 then fallback
    else if Fires(rules[0], n) then rules[0].color
    else FirstMatch(rules[1..], n, fallback)
  }

  /** When some rule fires, the colour is that of a firing rule with no
      firing rule before it. */
  lemma {:induction false} FirstMatchWins(rules: seq<Rule>, n: string, fallback: string, k: nat)
    requires k < |rules| && Fires(rules[k], n)
    ensures exists i :: (0 <= i <= k && Fires(rules[i], n) && FirstMatch(rules, n, fallback) == rules[i].color
      && forall j :: 0 <= j < i ==> !Fires(rules[j], n))
  {
    if !Fires(rules[0], n) {
      assert rules[1..][k - 1] == rules[k];
      FirstMatchWins(rules[1..], n, fallback, k - 1);
      var i :| 0 <= i <= k - 1 && Fires(rules[1..][i], n) && FirstMatch(rules[1..], n, fallback) == rules[1..][i].color
        && forall j :: 0 <= j < i ==> !Fires(rules[1..][j], n);
      forall j | 0 <= j < i + 1 ensures !Fires(rules[j], n) {
        if j > 0 { assert rules[j] == rules[1..][j - 1]; }
      }
      assert rules[i + 1] == rules[1..][i];
    }
  }

  /** Trying the rules from the `k`-th on: the `k`-th decides if it
      fires, the ones after it otherwise. */
  lemma RulesStep(k: nat, n: string, fallback: string)
    requires k < |Rules|
    ensures FirstMatch(Rules[k..], n, fallback)
         == if Fires(Rules[k], n) then Rules[k].color else FirstMatch(Rules[k + 1..], n, fallback)
  {
    assert Rules[k..][0] == Rules[k] && Rules[k..][1..] == Rules[k + 1..];
  }

  /** The rule with one text fires when that text occurs. */
  lemma FiresOne(rule: Rule, n: string)
    requires |rule.texts| == 1
    ensures Fires(rule, n) <==> Contains(n, rule.texts[0])
  {
  }

  /** The rule with two texts fires when either occurs. */
  lemma FiresTwo(rule: Rule, n: string)
    requires |rule.texts| == 2
    ensures Fires(rule, n) <==> Contains(n, rule.texts[0]) || Contains(n, rule.texts[1])
  {
  }

  /** `getColor` is the first rule of the table that fires. */
  lemma GetColorIsFirstMatch(name: string, themeColor: string)
    ensures GetColor(name, themeColor) == FirstMatch(Rules, Lower(name), themeColor)
  {
    var n := Lower(name);
    FiresOne(Rules[0], n);
    FiresOne(Rules[1], n);
    FiresTwo(Rules[2], n);
    FiresOne(Rules[3], n);
    FiresTwo(Rules[4], n);
    FiresOne(Rules[5], n);
    FiresOne(Rules[6], n);
    RulesStep(0, n, themeColor);
    RulesStep(1, n, themeColor);
    RulesStep(2, n, themeColor);
    RulesStep(3, n, themeColor);
    RulesStep(4, n, themeColor);
    RulesStep(5, n, themeColor);
    RulesStep(6, n, themeColor);
    assert Rules[0..] == Rules && Rules[7..] == [];
  }

  /** Every name holding "website" also holds "site", so the first text
      of the third rule never decides on its own. */
  lemma WebsiteHoldsSite(n: string)
    requires Contains(n, "website")
    ensures Contains(n, "site")
  {
    assert OccursAt("website", "site", 3);
    ContainsTransitive(n, "website", "site");
  }

  /** A slice of the chart: the entry with a colour added. */
  datatype Slice = Slice(name: string, value: real, color: string)

  /** `coloredData`. */
  function ColoredData(data: seq<Entry>, themeColor: string): (slices: seq<Slice>)
    ensures |slices| == |data|
    ensures forall i :: 0 <= i < |data| ==>
      slices[i].name == data[i].name && slices[i].value == data[i].value
      && slices[i].color == GetColor(data[i].name, themeColor)
  {
    seq(|data|, i requires 0 <= i < |data| => Slice(data[i].name, data[i].value, GetColor(data[i].name, themeColor)))
  }

  /** Each slice is coloured by the first rule that fires on its name. */
  lemma SlicesFollowRules(data: seq<Entry>, themeColor: string, i: nat)
    requires i < |data|
    ensures ColoredData(data, themeColor)[i].color == FirstMatch(Rules, Lower(data[i].name), themeColor)
  {
    GetColorIsFirstMatch(data[i].name, themeColor);
  }
}
