/** Classification of transactions into spending categories, and the sums per
    category over a period. */
module Classification {
  import opened Transactions

  /** One row of the classification table: a category name and the texts
      that select it. The table is an explicit sequence: its order decides the
      outcome. */
  datatype Rule = Rule(key: string, searchValues: seq<string>)

  /** Some search value of the rule occurs, ignoring case, in the text. */
  predicate RuleMatches(rule: Rule, text: string)
  {
    exists v :: v in rule.searchValues && ContainsIgnoringCase(text, v)
  }

  /** The category of a text: the rules are applied in table order, each one
      replacing the running text by its key when it matches the running text.
      A later rule is therefore matched against the category an earlier rule
      produced, not against the original text. */
  function Classified(rules: seq<Rule>, text: string): string
    decreases |rules|
  {
    if rules == [] then text
    else Classified(rules[1..], if RuleMatches(rules[0], text) then rules[0].key else text)
  }

  /** The two nested loops of the classifier: the outer one walks the table,
      the inner one (ApplyRule) the search values of one rule. */
  method ClassifyCounterparty(rules: seq<Rule>, counterparty: string) returns (category: string)
    ensures category == Classified(rules, counterparty)
  {
    category := counterparty;
    for r := 0 to |rules|
      invariant Classified(rules[r..], category) == Classified(rules, counterparty)
    {
      ClassifiedStep(rules[r..], category);
      assert rules[r..][0] == rules[r] && rules[r..][1..] == rules[r + 1..];
      category := ApplyRule(rules[r], category);
    }
  }

  /** Unfolds one rule of the fold. */
  lemma {:induction false} ClassifiedStep(rules: seq<Rule>, text: string)
    requires rules != []
    ensures Classified(rules, text) == Classified(rules[1..], if RuleMatches(rules[0], text) then rules[0].key else text)
  {
  }

  /** The inner loop over one rule's search values. Once the running text has
      become the rule's key, testing further search values against the key can
      only set the key again. */
  method ApplyRule(rule: Rule, text: string) returns (category: string)
    ensures category == if RuleMatches(rule, text) then rule.key else text
  {
    category := text;
    var values := rule.searchValues;
    for v := 0 to |values|
      invariant category == if exists j :: 0 <= j < v && ContainsIgnoringCase(text, values[j]) then rule.key else text
    {
      if ContainsIgnoringCase(category, values[v]) {
        category := rule.key;
      }
    }
    assert RuleMatches(rule, text) <==> exists j :: 0 <= j < |values| && ContainsIgnoringCase(text, values[j]);
  }

  /** The category is the original text or the key of one of the rules. */
  lemma {:induction false} ClassifiedIsTextOrKey(rules: seq<Rule>, text: string)
    ensures var category := Classified(rules, text);
            category == text || exists i :: 0 <= i < |rules| && category == rules[i].key
  {
    if rules != [] {
      var next := if RuleMatches(rules[0], text) then rules[0].key else text;
      ClassifiedIsTextOrKey(rules[1..], next);
      var category := Classified(rules, text);
      if category != text && category != next {
        var i :| 0 <= i < |rules[1..]| && category == rules[1..][i].key;
        assert category == rules[i + 1].key;
      }
    }
  }

  /** A text that no rule matches is its own category. */
  lemma {:induction false} NoMatchKeepsText(rules: seq<Rule>, text: string)
    requires forall i :: 0 <= i < |rules| ==> !RuleMatches(rules[i], text)
    ensures Classified(rules, text) == text
  {
    if rules != [] {
      assert forall i :: 0 <= i < |rules[1..]| ==> rules[1..][i] == rules[i + 1];
      NoMatchKeepsText(rules[1..], text);
    }
  }

  /** The rules before the first one that matches leave the text alone; from
      that rule on, the classification continues from its key. */
  lemma {:induction false} FirstMatchThenLabel(rules: seq<Rule>, text: string, i: nat)
    requires i < |rules| && RuleMatches(rules[i], text)
    requires forall j :: 0 <= j < i ==> !RuleMatches(rules[j], text)
    ensures Classified(rules, text) == Classified(rules[i + 1..], rules[i].key)
  {
    if i == 0 {
    } else {
      assert rules[1..][i - 1] == rules[i] && rules[1..][i..] == rules[i + 1..];
      assert forall j :: 0 <= j < i - 1 ==> rules[1..][j] == rules[j + 1];
      FirstMatchThenLabel(rules[1..], text, i - 1);
    }
  }

  /** With rules A: ["x"] and B: ["x"] the text "xyz" is labelled A: rule B is
      matched against "A", which does not contain "x". */
  lemma {:induction false} SameSearchValueFirstRuleWins()
    ensures Classified([Rule("A", ["x"]), Rule("B", ["x"])], "xyz") == "A"
  {
    var rules := [Rule("A", ["x"]), Rule("B", ["x"])];
    assert Lower("x") == "x" && Lower("xyz") == "xyz" && Lower("A") == "a";
    assert OccursAt("x", "xyz", 0);
    assert ContainsIgnoringCase("xyz", "x");
    assert RuleMatches(rules[0], "xyz");
    assert !Contains("a", "x");
    assert !RuleMatches(rules[1], "A");
    assert rules[1..][1..] == [];
  }

  /** With rules A: ["x"] and B: ["a"] the text "xyz" is labelled B, although
      "xyz" contains no "a": rule B matches the category A. */
  lemma {:induction false} LaterRuleMatchesEarlierLabel()
    ensures Classified([Rule("A", ["x"]), Rule("B", ["a"])], "xyz") == "B"
  {
    var rules := [Rule("A", ["x"]), Rule("B", ["a"])];
    assert Lower("x") == "x" && Lower("xyz") == "xyz" && Lower("A") == "a" && Lower("a") == "a";
    assert OccursAt("x", "xyz", 0);
    assert ContainsIgnoringCase("xyz", "x");
    assert "x" in rules[0].searchValues;
    assert RuleMatches(rules[0], "xyz");
    assert OccursAt("a", "a", 0);
    assert ContainsIgnoringCase("A", "a");
    assert "a" in rules[1].searchValues;
    assert RuleMatches(rules[1], "A");
    assert rules[1..][1..] == [];
  }

  // ---------------------------------------------------------------------
  // Sums per category

  /** Adds value to the entry of key, creating the entry when it is missing.
      No other entry changes. */
  function AddToDict(sums: map<string, int>, key: string, value: int): (r: map<string, int>)
    ensures r.Keys == sums.Keys + {key}
    ensures r[key] == (if key in sums then sums[key] else 0) + value
    ensures forall k :: k in sums && k != key ==> r[k] == sums[k]
  {
    if key in sums then sums[key := sums[key] + value] else sums[key := value]
  }

  /** Booked in the half-open period [start, end). */
  predicate InPeriod(start: int, end: int, t: Transaction)
  {
    start <= t.bookingDate < end
  }

  /** The transactions of the period, in list order. */
  function InPeriodOnly(start: int, end: int, txs: seq<Transaction>): (r: seq<Transaction>)
    ensures forall t :: t in r <==> t in txs && InPeriod(start, end, t)
  {
    if txs == [] then []
    else
      var n := |txs| - 1;
      assert txs == txs[..n] + [txs[n]];
      InPeriodOnly(start, end, txs[..n]) + (if InPeriod(start, end, txs[n]) then [txs[n]] else [])
  }

  /** The category-to-sum dictionary built by adding each transaction's value
      under its category, in list order. */
  function Tally(rules: seq<Rule>, txs: seq<Transaction>): map<string, int>
  {
    if txs == [] then map[]
    else
      var n := |txs| - 1;
      AddToDict(Tally(rules, txs[..n]), Classified(rules, txs[n].counterparty), txs[n].value)
  }

  /** The sum of the values of the transactions labelled category. */
  function SumLabelled(rules: seq<Rule>, txs: seq<Transaction>, category: string): int
  {
    if txs == [] then 0
    else
      var n := |txs| - 1;
      SumLabelled(rules, txs[..n], category) + (if Classified(rules, txs[n].counterparty) == category then txs[n].value else 0)
  }

  /** The dictionary has an entry for exactly the labels that occur, holding
      the sum of the values of the transactions with that category. */
  lemma {:induction false} TallyMeaning(rules: seq<Rule>, txs: seq<Transaction>)
    ensures forall k :: k in Tally(rules, txs) <==> exists t :: t in txs && Classified(rules, t.counterparty) == k
    ensures forall k :: k in Tally(rules, txs) ==> Tally(rules, txs)[k] == SumLabelled(rules, txs, k)
  {
    TallyKeys(rules, txs);
    TallyValues(rules, txs);
  }

  lemma {:induction false} TallyKeys(rules: seq<Rule>, txs: seq<Transaction>)
    ensures forall k :: k in Tally(rules, txs) <==> exists t :: t in txs && Classified(rules, t.counterparty) == k
  {
    if txs != [] {
      var n := |txs| - 1;
      TallyKeys(rules, txs[..n]);
      assert txs == txs[..n] + [txs[n]];
      forall k ensures k in Tally(rules, txs) <==> exists t :: t in txs && Classified(rules, t.counterparty) == k {
        if k in Tally(rules, txs) && k != Classified(rules, txs[n].counterparty) {
          assert k in Tally(rules, txs[..n]);
          var t :| t in txs[..n] && Classified(rules, t.counterparty) == k;
          assert t in txs;
        }
        if exists t :: t in txs && Classified(rules, t.counterparty) == k {
          var t :| t in txs && Classified(rules, t.counterparty) == k;
          if t != txs[n] {
            assert t in txs[..n];
          }
        }
      }
    }
  }

  lemma {:induction false} TallyValues(rules: seq<Rule>, txs: seq<Transaction>)
    ensures forall k :: k in Tally(rules, txs) ==> Tally(rules, txs)[k] == SumLabelled(rules, txs, k)
  {
    if txs != [] {
      var n := |txs| - 1;
      TallyValues(rules, txs[..n]);
      TallyKeys(rules, txs[..n]);
      forall k | k in Tally(rules, txs) ensures Tally(rules, txs)[k] == SumLabelled(rules, txs, k) {
        if k !in Tally(rules, txs[..n]) {
          SumLabelledAbsent(rules, txs[..n], k);
        }
      }
    }
  }

  /** Reading a category out of the dictionary, 0 when absent, gives its sum. */
  lemma {:induction false} TallyGet(rules: seq<Rule>, txs: seq<Transaction>, category: string)
    ensures (if category in Tally(rules, txs) then Tally(rules, txs)[category] else 0) == SumLabelled(rules, txs, category)
  {
    TallyMeaning(rules, txs);
    if category !in Tally(rules, txs) {
      SumLabelledAbsent(rules, txs, category);
    }
  }

  lemma {:induction false} SumLabelledAbsent(rules: seq<Rule>, txs: seq<Transaction>, category: string)
    requires forall t :: t in txs ==> Classified(rules, t.counterparty) != category
    ensures SumLabelled(rules, txs, category) == 0
  {
    if txs != [] {
      var n := |txs| - 1;
      assert txs[n] in txs;
      assert forall t :: t in txs[..n] ==> t in txs;
      SumLabelledAbsent(rules, txs[..n], category);
    }
  }

  /** The period loop of the classification: the transactions of [start, end)
      are classified and summed per category. */
  method ClassifyPeriod(rules: seq<Rule>, all: seq<Transaction>, start: int, end: int) returns (classified: map<string, int>)
    ensures classified == Tally(rules, InPeriodOnly(start, end, all))
  {
    classified := map[];
    for i := 0 to |all|
      invariant classified == Tally(rules, InPeriodOnly(start, end, all[..i]))
    {
      var t := all[i];
      PeriodStep(rules, start, end, all, i);
      if start <= t.bookingDate < end {
        var category := ClassifyCounterparty(rules, t.counterparty);
        classified := AddToDict(classified, category, t.value);
      }
    }
    assert all[..|all|] == all;
  }

  /** One more transaction extends the period's dictionary exactly when it is
      booked in the period. */
  lemma {:induction false} PeriodStep(rules: seq<Rule>, start: int, end: int, all: seq<Transaction>, i: nat)
    requires i < |all|
    ensures Tally(rules, InPeriodOnly(start, end, all[..i + 1])) ==
            if InPeriod(start, end, all[i])
            then AddToDict(Tally(rules, InPeriodOnly(start, end, all[..i])), Classified(rules, all[i].counterparty), all[i].value)
            else Tally(rules, InPeriodOnly(start, end, all[..i]))
  {
    assert all[..i + 1][..i] == all[..i];
    var s := InPeriodOnly(start, end, all[..i]);
    if InPeriod(start, end, all[i]) {
      assert InPeriodOnly(start, end, all[..i + 1]) == s + [all[i]];
      assert (s + [all[i]])[..|s|] == s;
    } else {
      assert InPeriodOnly(start, end, all[..i + 1]) == s;
    }
  }

  /** Month boundaries listed newest first split time into the periods
      [months[i+1], months[i]); a transaction booked from the oldest boundary
      up to (excluding) the newest one lies in one of them ... */
  lemma {:induction false} SomePeriod(months: seq<int>, t: Transaction) returns (i: nat)
    requires |months| >= 2 && months[|months| - 1] <= t.bookingDate < months[0]
    ensures i < |months| - 1 && InPeriod(months[i + 1], months[i], t)
  {
    if t.bookingDate >= months[1] {
      i := 0;
    } else {
      var k := SomePeriod(months[1..], t);
      i := k + 1;
      assert months[1..][k] == months[i] && months[1..][k + 1] == months[i + 1];
    }
  }

  /** ... and in no other one. */
  lemma {:induction false} OnlyOnePeriod(months: seq<int>, t: Transaction, i: nat, j: nat)
    requires forall k :: 0 <= k < |months| - 1 ==> months[k] > months[k + 1]
    requires i < |months| - 1 && j < |months| - 1
    requires InPeriod(months[i + 1], months[i], t) && InPeriod(months[j + 1], months[j], t)
    ensures i == j
  {
    if i < j {
      DescendingBoundaries(months, i + 1, j);
    } else if j < i {
      DescendingBoundaries(months, j + 1, i);
    }
  }

  lemma {:induction false} DescendingBoundaries(months: seq<int>, i: nat, j: nat)
    requires forall k :: 0 <= k < |months| - 1 ==> months[k] > months[k + 1]
    requires i <= j < |months|
    ensures months[i] >= months[j]
    decreases j - i
  {
    if i < j {
      DescendingBoundaries(months, i + 1, j);
    }
  }
}
