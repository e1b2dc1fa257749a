/** The client-side insight engine: a decision tree and a set of heuristics over
    the last 30 days of one mode's transactions, merged, ranked by priority and
    stored in place of the user's unread insights. */
module InsightsEngine {
  import opened Prelude
  import opened Sorting
  import opened Ledger
  import opened Store

  /** `toLowerCase` on a character, for ASCII and Latin-1 capitals. */
  function LowerChar(c: char): char
  {
    if 'A' <= c <= 'Z' || ('À' <= c <= 'Þ' && c != '×') then (c as int + 32) as char else c
  }

  function Lower(s: string): string
  {
    seq(|s|, i requires 0 <= i < |s| => LowerChar(s[i]))
  }

  ghost predicate OccursAt(s: string, sub: string, i: int)
  {
    0 <= i && i + |sub| <= |s| && s[i..i + |sub|] == sub
  }

  /** `s.includes(sub)` */
  function Contains(s: string, sub: string): (r: bool)
    ensures r <==> exists i :: OccursAt(s, sub, i)
    decreases |s|
  {
    if |sub| > |s| then false
    else if s[..|sub|] == sub then
      assert OccursAt(s, sub, 0);
      true
    else
      var r := Contains(s[1..], sub);
      assert forall i :: OccursAt(s[1..], sub, i) <==> OccursAt(s, sub, i + 1) by {
        forall i ensures OccursAt(s[1..], sub, i) <==> OccursAt(s, sub, i + 1) {
          if 0 <= i && i + |sub| <= |s[1..]| {
            assert s[1..][i..i + |sub|] == s[i + 1..i + 1 + |sub|];
          }
        }
      }
      assert !OccursAt(s, sub, 0);
      assert (exists i :: OccursAt(s, sub, i)) ==> exists i :: OccursAt(s[1..], sub, i) by {
        if exists i :: OccursAt(s, sub, i) {
          var i :| OccursAt(s, sub, i);
          assert OccursAt(s[1..], sub, i - 1);
        }
      }
      r
  }

  const FoodWord := "alimentação"
  const TransportWord := "transporte"

  /** An engine finding for the user: stored unread. */
  function Finding(user: string, topic: Topic, kind: string, origin: string, priority: int): Insight
  {
    Insight(user, topic, kind, origin, priority, false)
  }

  function Priority(x: Insight): real { x.priority as real }

  // ---------------------------------------------------------------- decision tree

  /** Rule 1: the spend/income ratio, only when there is income. */
  function RatioFindings(user: string, outflow: real, inflow: real): (r: seq<Insight>)
    ensures |r| <= 1
    ensures r != [] ==> inflow > 0.0
    ensures forall x :: x in r ==> x.userId == user && !x.read && 1 <= x.priority <= 3 && x.origin == ArvoreDecisao
    ensures forall x :: x in r ==> x.topic.SpendCritical? || x.topic.SpendHigh? || x.topic.SpendHealthy?
    ensures forall x :: x in r ==> (x.priority == 1 <==> x.topic.SpendCritical?)
  {
    if inflow > 0.0 then
      var ratio := outflow / inflow;
      if ratio > 0.9 then [Finding(user, SpendCritical(ratio), Alerta, ArvoreDecisao, 1)]
      else if ratio > 0.75 then [Finding(user, SpendHigh(ratio), Alerta, ArvoreDecisao, 2)]
      else if ratio < 0.5 then [Finding(user, SpendHealthy(ratio), Oportunidade, ArvoreDecisao, 3)]
      else []
    else []
  }

  /** Rule 2, first check: the category's share of all outflow, 0 when there is none. */
  function ConcentrationRule(user: string, category: string, amount: real, outflow: real): (r: seq<Insight>)
    ensures |r| <= 1
    ensures r != [] <==> outflow > 0.0 && amount > 0.4 * outflow
    ensures forall x :: x in r ==> x.topic.Concentration? && x.priority == 2 && x.kind == Informacao
  {
    var share := if outflow > 0.0 then amount / outflow * 100.0 else 0.0;
    assert outflow > 0.0 ==> (share > 40.0 <==> amount > 0.4 * outflow) by {
      if outflow > 0.0 {
        DivCompare(amount, outflow, 0.4);
      }
    }
    if share > 40.0 then [Finding(user, Concentration(category, share), Informacao, ArvoreDecisao, 2)] else []
  }

  /** Rule 2, food and transport checks: a category whose lower-cased name contains
      the word, with outflow above the given part of income. */
  function OverrunRule(user: string, category: string, word: string, amount: real, limit: real, topic: Topic): (r: seq<Insight>)
    ensures |r| <= 1
    ensures r != [] <==> Contains(Lower(category), word) && amount > limit
    ensures forall x :: x in r ==> x.topic == topic && x.priority == 2 && x.kind == Alerta
  {
    if Contains(Lower(category), word) && amount > limit then [Finding(user, topic, Alerta, ArvoreDecisao, 2)] else []
  }

  /** Rule 2 for one category of the grouped outflow, its three checks in order. */
  function CategoryRule(user: string, category: string, amount: real, outflow: real, inflow: real): (r: seq<Insight>)
    ensures |r| <= 3
    ensures forall x :: x in r ==> x.userId == user && !x.read && x.priority == 2 && x.origin == ArvoreDecisao
    ensures forall x :: x in r ==> x.topic.Concentration? || x.topic == FoodOverrun || x.topic == TransportOverrun
  {
    ConcentrationRule(user, category, amount, outflow)
    + OverrunRule(user, category, FoodWord, amount, inflow * 0.3, FoodOverrun)
    + OverrunRule(user, category, TransportWord, amount, inflow * 0.25, TransportOverrun)
  }

  /** Rule 2 over the categories in the order the object holds them. */
  function CategoryFindings(user: string, groups: seq<(string, real)>, outflow: real, inflow: real): (r: seq<Insight>)
    ensures |r| <= 3 * |groups|
    ensures forall x :: x in r ==> x.userId == user && !x.read && x.priority == 2 && x.origin == ArvoreDecisao
    ensures forall x :: x in r ==> x.topic.Concentration? || x.topic == FoodOverrun || x.topic == TransportOverrun
  {
    if groups == [] then []
    else
      var g := groups[|groups| - 1];
      CategoryFindings(user, groups[..|groups| - 1], outflow, inflow) + CategoryRule(user, g.0, g.1, outflow, inflow)
  }

  /** The balance projected to the end of the month at the month's average daily spending. */
  function Projection(balance: real, outflow: real, dayOfMonth: int, daysInMonth: int): real
    requires dayOfMonth >= 1
  {
    balance - (outflow / dayOfMonth as real) * (daysInMonth - dayOfMonth) as real
  }

  /** Rule 3: a projected deficit, or else a projected margin under 10% of the balance. */
  function MonthEndFindings(user: string, balance: real, outflow: real, dayOfMonth: int, daysInMonth: int): (r: seq<Insight>)
    requires dayOfMonth >= 1
    ensures |r| <= 1
    ensures forall x :: x in r ==> x.userId == user && !x.read && 1 <= x.priority <= 2 && x.kind == Alerta
    ensures forall x :: x in r ==> x.topic.MonthDeficit? || x.topic.ThinMargin?
    ensures forall x :: x in r ==> (x.priority == 1 <==> x.topic.MonthDeficit?)
  {
    var projected := Projection(balance, outflow, dayOfMonth, daysInMonth);
    if projected < 0.0 then [Finding(user, MonthDeficit(-projected), Alerta, ArvoreDecisao, 1)]
    else if projected < balance * 0.1 then [Finding(user, ThinMargin(projected), Alerta, ArvoreDecisao, 2)]
    else []
  }

  /** `DecisionTreeAnalyzer.analyze` */
  function TreeFindings(user: string, window: seq<Transaction>, balance: real, dayOfMonth: int, daysInMonth: int): seq<Insight>
    requires dayOfMonth >= 1
  {
    var outflow := Outflow(window);
    var inflow := Inflow(window);
    RatioFindings(user, outflow, inflow)
    + CategoryFindings(user, Group(CategoryPairs(window)), outflow, inflow)
    + MonthEndFindings(user, balance, outflow, dayOfMonth, daysInMonth)
  }

  // ---------------------------------------------------------------- heuristics

  /** The transactions at most `days` days old. */
  function Recent(txs: seq<Transaction>, days: real): (r: seq<Transaction>)
    ensures forall t :: t in r ==> t in txs && t.ageDays <= days
  {
    if txs == [] then []
    else
      var t := txs[|txs| - 1];
      Recent(txs[..|txs| - 1], days) + if t.ageDays <= days then [t] else []
  }

  /** Heuristic 1: more than five transactions a day over the last week. */
  function FrequencyFindings(user: string, week: seq<Transaction>): (r: seq<Insight>)
    ensures |r| <= 1
    ensures r != [] <==> |week| > 35
    ensures forall x :: x in r ==> x.userId == user && !x.read && x.priority == 3 && x.kind == Informacao && x.topic.Frequency?
  {
    var perDay := |week| as real / 7.0;
    if perDay > 5.0 then [Finding(user, Frequency(perDay), Informacao, Heuristica, 3)] else []
  }

  /** Heuristic 2 for one category with outflow in the last week. */
  function GrowthRule(user: string, category: string, weekTotal: real, monthTotal: real): (r: seq<Insight>)
    ensures |r| <= 1
    ensures r != [] <==> weekTotal > 50.0 && 20.0 * weekTotal > 7.0 * monthTotal
  {
    var monthAverage := monthTotal / 30.0;
    var weekAverage := weekTotal / 7.0;
    if weekAverage > monthAverage * 1.5 && weekTotal > 50.0
    then [Finding(user, Growth(category, weekAverage, monthAverage), Alerta, Heuristica, 2)]
    else []
  }

  /** Heuristic 2 over the categories of the week's outflow, in their order. */
  function GrowthFindings(user: string, week: seq<(string, real)>, month: seq<(string, real)>): (r: seq<Insight>)
    ensures |r| <= |week|
    ensures forall x :: x in r ==> x.userId == user && !x.read && x.priority == 2 && x.kind == Alerta && x.topic.Growth?
  {
    if week == [] then []
    else
      var g := week[|week| - 1];
      GrowthFindings(user, week[..|week| - 1], month) + GrowthRule(user, g.0, g.1, LookupOrZero(month, g.0))
  }

  /** The outflows dated on a Saturday or a Sunday. */
  function WeekendOutflows(txs: seq<Transaction>): (r: seq<Transaction>)
    ensures forall t :: t in r ==> t in txs && t.kind == Saida && (t.weekday == 0 || t.weekday == 6)
  {
    if txs == [] then []
    else
      var t := txs[|txs| - 1];
      WeekendOutflows(txs[..|txs| - 1]) + if t.kind == Saida && (t.weekday == 0 || t.weekday == 6) then [t] else []
  }

  /** Heuristic 3: weekend outflow above 35% of all outflow. */
  function WeekendFindings(user: string, txs: seq<Transaction>): (r: seq<Insight>)
    ensures |r| <= 1
    ensures r != [] ==> Outflow(WeekendOutflows(txs)) > 0.35 * Outflow(txs) && Outflow(txs) > 0.0
    ensures forall x :: x in r ==> x.userId == user && !x.read && x.priority == 3 && x.kind == Informacao && x.topic.Weekend?
  {
    var weekend := WeekendOutflows(txs);
    if |weekend| > 0 then
      var all := Outflow(txs);
      var share := if all > 0.0 then Outflow(weekend) / all * 100.0 else 0.0;
      if share > 35.0 then [Finding(user, Weekend(share), Informacao, Heuristica, 3)] else []
    else []
  }

  /** Heuristic 4, as written: the balance below a fifth of itself while positive.
      No balance satisfies both, so the reserve insight is never produced. */
  function ReserveFindings(user: string, balance: real): (r: seq<Insight>)
    ensures r == []
  {
    var target := balance * 0.2;
    if balance < target && balance > 0.0 then [Finding(user, Reserve(target), Oportunidade, Heuristica, 3)] else []
  }

  /** `HeuristicAnalyzer.analyze` */
  function HeuristicFindings(user: string, window: seq<Transaction>, balance: real): seq<Insight>
  {
    var week := Recent(window, 7.0);
    var month := Recent(window, 30.0);
    FrequencyFindings(user, week)
    + GrowthFindings(user, Group(CategoryPairs(week)), Group(CategoryPairs(month)))
    + WeekendFindings(user, window)
    + ReserveFindings(user, balance)
  }

  lemma CategoryFindingsStep(user: string, groups: seq<(string, real)>, i: int, outflow: real, inflow: real)
    requires 0 <= i < |groups|
    ensures CategoryFindings(user, groups[..i + 1], outflow, inflow)
         == CategoryFindings(user, groups[..i], outflow, inflow) + CategoryRule(user, groups[i].0, groups[i].1, outflow, inflow)
  {
    assert groups[..i + 1][..i] == groups[..i];
  }

  lemma GrowthFindingsStep(user: string, week: seq<(string, real)>, i: int, month: seq<(string, real)>)
    requires 0 <= i < |week|
    ensures GrowthFindings(user, week[..i + 1], month)
         == GrowthFindings(user, week[..i], month) + GrowthRule(user, week[i].0, week[i].1, LookupOrZero(month, week[i].0))
  {
    assert week[..i + 1][..i] == week[..i];
  }

  // ---------------------------------------------------------------- the analyzers

  /** `DecisionTreeAnalyzer.analyze`: groups the outflow, then pushes the rules' findings. */
  method AnalyzeTree(user: string, window: seq<Transaction>, balance: real, dayOfMonth: int, daysInMonth: int)
    returns (insights: seq<Insight>)
    requires dayOfMonth >= 1
    ensures insights == TreeFindings(user, window, balance, dayOfMonth, daysInMonth)
  {
    var outflow := Outflow(window);
    var inflow := Inflow(window);
    var groups := SpendByCategory(window);
    var pushed: seq<Insight> := [];
    var i := 0;
    while i < |groups|
      invariant 0 <= i <= |groups|
      invariant pushed == CategoryFindings(user, groups[..i], outflow, inflow)
    {
      CategoryFindingsStep(user, groups, i, outflow, inflow);
      pushed := pushed + CategoryRule(user, groups[i].0, groups[i].1, outflow, inflow);
      i := i + 1;
    }
    assert groups[..|groups|] == groups;
    insights := RatioFindings(user, outflow, inflow) + pushed + MonthEndFindings(user, balance, outflow, dayOfMonth, daysInMonth);
  }

  /** `HeuristicAnalyzer.analyze`: windows, groupings, then the heuristics in order. */
  method AnalyzeHeuristics(user: string, window: seq<Transaction>, balance: real) returns (insights: seq<Insight>)
    ensures insights == HeuristicFindings(user, window, balance)
  {
    var week := Recent(window, 7.0);
    var month := Recent(window, 30.0);
    var monthGroups := SpendByCategory(month);
    var weekGroups := SpendByCategory(week);
    var pushed: seq<Insight> := [];
    var i := 0;
    while i < |weekGroups|
      invariant 0 <= i <= |weekGroups|
      invariant pushed == GrowthFindings(user, weekGroups[..i], monthGroups)
    {
      GrowthFindingsStep(user, weekGroups, i, monthGroups);
      pushed := pushed + GrowthRule(user, weekGroups[i].0, weekGroups[i].1, LookupOrZero(monthGroups, weekGroups[i].0));
      i := i + 1;
    }
    assert weekGroups[..|weekGroups|] == weekGroups;
    insights := FrequencyFindings(user, week) + pushed + WeekendFindings(user, window) + ReserveFindings(user, balance);
  }

  // ---------------------------------------------------------------- merging and storing

  /** Both analyzers' findings, the tree's first. */
  function Analysis(user: string, window: seq<Transaction>, balance: real, dayOfMonth: int, daysInMonth: int): seq<Insight>
    requires dayOfMonth >= 1
  {
    TreeFindings(user, window, balance, dayOfMonth, daysInMonth) + HeuristicFindings(user, window, balance)
  }

  /** `.sort((a, b) => a.prioridade - b.prioridade).slice(0, 10)` */
  function Batch(all: seq<Insight>): (r: seq<Insight>)
    ensures |r| <= 10
    ensures |all| <= 10 ==> multiset(r) == multiset(all)
  {
    Take(SortBy(all, Priority), 10)
  }

  function WelcomeInsight(user: string): Insight
  {
    Finding(user, Welcome, Informacao, Heuristica, 3)
  }

  /** The insights table after one run of `generateInsights` for the user: a welcome
      row added when the window is empty; otherwise the user's unread rows replaced
      by the batch. */
  function AfterRun(stored: seq<Insight>, user: string, window: seq<Transaction>, balance: real, dayOfMonth: int, daysInMonth: int): seq<Insight>
    requires dayOfMonth >= 1
  {
    if window == [] then stored + [WelcomeInsight(user)]
    else WithoutUnread(stored, user) + Batch(Analysis(user, window, balance, dayOfMonth, daysInMonth))
  }

  /** `InsightsEngine.generateInsights` on the 30-day window of the chosen mode. */
  method GenerateInsights(db: Db, user: string, window: seq<Transaction>, dayOfMonth: int, daysInMonth: int)
    requires dayOfMonth >= 1
    modifies db
    ensures db.insights == AfterRun(old(db.insights), user, window, PrincipalBalance(old(db.accounts), user), dayOfMonth, daysInMonth)
    ensures db.accounts == old(db.accounts) && db.transactions == old(db.transactions) && db.logs == old(db.logs)
    ensures db.offers == old(db.offers) && db.goals == old(db.goals) && db.nextId == old(db.nextId)
  {
    var balance := PrincipalBalance(db.accounts, user);
    ghost var stored := db.insights;
    if window == [] {
      db.AddInsights([WelcomeInsight(user)]);
      return;
    }
    var tree := AnalyzeTree(user, window, balance, dayOfMonth, daysInMonth);
    var heuristic := AnalyzeHeuristics(user, window, balance);
    var top := Take(SortBy(tree + heuristic, Priority), 10);
    ghost var expected := WithoutUnread(stored, user) + top;
    assert AfterRun(stored, user, window, balance, dayOfMonth, daysInMonth) == expected;
    db.DeleteUnread(user);
    if |top| > 0 {
      db.AddInsights(top);
    } else {
      assert expected == db.insights;
    }
  }

  // ---------------------------------------------------------------- properties of the rules

  /** The ratio tiers, stated without the division: exactly one applies or none, and
      a ratio between one half and three quarters produces nothing. */
  lemma RatioTiers(user: string, outflow: real, inflow: real)
    requires inflow > 0.0
    ensures var r := RatioFindings(user, outflow, inflow);
      && (r == [] <==> 0.5 * inflow <= outflow <= 0.75 * inflow)
      && (r != [] ==> (r[0].priority == 1 <==> outflow > 0.9 * inflow))
      && (r != [] ==> (r[0].priority == 2 <==> 0.75 * inflow < outflow <= 0.9 * inflow))
      && (r != [] ==> (r[0].priority == 3 <==> outflow < 0.5 * inflow))
      && (r != [] ==> (r[0].kind == Alerta <==> outflow > 0.75 * inflow))
  {
    DivCompare(outflow, inflow, 0.9);
    DivCompare(outflow, inflow, 0.75);
    DivCompare(outflow, inflow, 0.5);
  }

  /** The food and transport checks ignore case: the usual spellings of the
      categories match, an unrelated category does not. */
  lemma CategoryNamesMatchIgnoringCase()
    ensures Contains(Lower("Alimentação"), FoodWord)
    ensures Contains(Lower("ALIMENTAÇÃO"), FoodWord)
    ensures Contains(Lower("Transporte"), TransportWord)
    ensures !Contains(Lower("Lazer"), FoodWord)
  {
    assert Lower("Alimentação") == FoodWord;
    assert OccursAt(FoodWord, FoodWord, 0);
    assert Lower("ALIMENTAÇÃO") == FoodWord;
    assert Lower("Transporte") == TransportWord;
    assert OccursAt(TransportWord, TransportWord, 0);
  }

  /** The number of concentration findings. */
  function Concentrations(xs: seq<Insight>): nat
  {
    if xs == [] then 0
    else Concentrations(xs[..|xs| - 1]) + if xs[|xs| - 1].topic.Concentration? then 1 else 0
  }

  lemma {:induction false} ConcentrationsAppend(a: seq<Insight>, b: seq<Insight>)
    ensures Concentrations(a + b) == Concentrations(a) + Concentrations(b)
  {
    if b == [] {
      assert a + b == a;
    } else {
      assert (a + b)[..|a + b| - 1] == a + b[..|b| - 1];
      ConcentrationsAppend(a, b[..|b| - 1]);
    }
  }

  lemma CategoryRuleConcentrations(user: string, category: string, amount: real, outflow: real, inflow: real)
    ensures Concentrations(CategoryRule(user, category, amount, outflow, inflow))
         == if outflow > 0.0 && amount > 0.4 * outflow then 1 else 0
  {
    var c := ConcentrationRule(user, category, amount, outflow);
    var f := OverrunRule(user, category, FoodWord, amount, inflow * 0.3, FoodOverrun);
    var t := OverrunRule(user, category, TransportWord, amount, inflow * 0.25, TransportOverrun);
    ConcentrationsAppend(c, f);
    ConcentrationsAppend(c + f, t);
    ConcentrationsOfOne(c);
    ConcentrationsOfOne(f);
    ConcentrationsOfOne(t);
  }

  lemma NoConcentrationIn(xs: seq<Insight>)
    requires |xs| <= 1 && forall x :: x in xs ==> !x.topic.Concentration?
    ensures Concentrations(xs) == 0
  {
    ConcentrationsOfOne(xs);
    if xs != [] {
      assert xs[0] in xs;
    }
  }

  lemma ConcentrationsOfOne(xs: seq<Insight>)
    requires |xs| <= 1
    ensures Concentrations(xs) == if xs != [] && xs[0].topic.Concentration? then 1 else 0
  {
    if xs != [] {
      assert xs[..0] == [];
    }
  }

  /** n copies of k added up. */
  function Times(n: nat, k: real): real
  {
    if n == 0 then 0.0 else Times(n - 1, k) + k
  }

  lemma {:induction false} TimesMonotone(m: nat, n: nat, k: real)
    requires k >= 0.0
    ensures m <= n ==> Times(m, k) <= Times(n, k)
  {
    if m < n {
      TimesMonotone(m, n - 1, k);
    }
  }

  /** Each concentration finding stands for a category holding more than 40% of the
      outflow, so together they account for that much of it. */
  lemma {:induction false} ConcentrationMass(user: string, groups: seq<(string, real)>, outflow: real, inflow: real)
    requires outflow > 0.0
    requires forall i :: 0 <= i < |groups| ==> groups[i].1 >= 0.0
    ensures Times(Concentrations(CategoryFindings(user, groups, outflow, inflow)), 0.4 * outflow) <= Sum(Values(groups))
  {
    if groups != [] {
      var front := groups[..|groups| - 1];
      var g := groups[|groups| - 1];
      assert forall i :: 0 <= i < |front| ==> front[i] == groups[i];
      assert groups == front + [g];
      ConcentrationMass(user, front, outflow, inflow);
      ConcentrationMassStep(user, front, g, outflow, inflow);
    }
  }

  /** The inductive step of `ConcentrationMass`: one more category at the end. */
  lemma ConcentrationMassStep(user: string, front: seq<(string, real)>, g: (string, real), outflow: real, inflow: real)
    requires outflow > 0.0 && g.1 >= 0.0
    requires Times(Concentrations(CategoryFindings(user, front, outflow, inflow)), 0.4 * outflow) <= Sum(Values(front))
    ensures Times(Concentrations(CategoryFindings(user, front + [g], outflow, inflow)), 0.4 * outflow) <= Sum(Values(front + [g]))
  {
    var groups := front + [g];
    assert groups[..|groups| - 1] == front;
    var earlier := CategoryFindings(user, front, outflow, inflow);
    var rule := CategoryRule(user, g.0, g.1, outflow, inflow);
    assert CategoryFindings(user, groups, outflow, inflow) == earlier + rule;
    ConcentrationsAppend(earlier, rule);
    CategoryRuleConcentrations(user, g.0, g.1, outflow, inflow);
    SumSnoc(groups);
    var n := Concentrations(earlier);
    if Concentrations(rule) == 1 {
      TimesStep(n, 0.4 * outflow);
    } else {
      assert Concentrations(earlier + rule) == n;
    }
  }

  lemma TimesStep(n: nat, k: real)
    ensures Times(n + 1, k) == Times(n, k) + k
  {
  }

  lemma {:induction false} NoConcentrationWithoutOutflow(user: string, groups: seq<(string, real)>, outflow: real, inflow: real)
    requires outflow <= 0.0
    ensures Concentrations(CategoryFindings(user, groups, outflow, inflow)) == 0
  {
    if groups != [] {
      var front := groups[..|groups| - 1];
      var g := groups[|groups| - 1];
      NoConcentrationWithoutOutflow(user, front, outflow, inflow);
      ConcentrationsAppend(CategoryFindings(user, front, outflow, inflow), CategoryRule(user, g.0, g.1, outflow, inflow));
      CategoryRuleConcentrations(user, g.0, g.1, outflow, inflow);
    }
  }

  lemma {:induction false} CategoryTotalsNonNegative(txs: seq<Transaction>)
    requires forall i :: 0 <= i < |txs| ==> txs[i].amount >= 0.0
    ensures forall i :: 0 <= i < |CategoryPairs(txs)| ==> CategoryPairs(txs)[i].1 >= 0.0
  {
    if txs != [] {
      CategoryTotalsNonNegative(txs[..|txs| - 1]);
    }
  }

  lemma TimesThree(k: real)
    ensures Times(3, k) == 3.0 * k
  {
    assert Times(1, k) == k;
    assert Times(2, k) == k + k;
  }

  /** At most two categories can each hold more than 40% of a positive outflow made of
      non-negative category totals. */
  lemma CategoryConcentrationsAtMostTwo(user: string, groups: seq<(string, real)>, outflow: real, inflow: real)
    requires outflow > 0.0
    requires forall i :: 0 <= i < |groups| ==> groups[i].1 >= 0.0
    requires Sum(Values(groups)) == outflow
    ensures Concentrations(CategoryFindings(user, groups, outflow, inflow)) <= 2
  {
    ConcentrationMass(user, groups, outflow, inflow);
    AtMostTwoShares(Concentrations(CategoryFindings(user, groups, outflow, inflow)), outflow, Sum(Values(groups)));
  }

  /** Shares of more than 40% each fit at most twice into the whole. */
  lemma AtMostTwoShares(n: nat, whole: real, covered: real)
    requires whole > 0.0 && covered == whole
    requires Times(n, 0.4 * whole) <= covered
    ensures n <= 2
  {
    var k := 0.4 * whole;
    TimesMonotone(3, n, k);
    TimesThree(k);
  }

  /** With non-negative amounts, at most two categories can each hold more than 40%
      of the outflow, so the decision tree reports at most two concentrations. */
  lemma AtMostTwoConcentrations(user: string, window: seq<Transaction>, balance: real, dayOfMonth: int, daysInMonth: int)
    requires dayOfMonth >= 1
    requires forall i :: 0 <= i < |window| ==> window[i].amount >= 0.0
    ensures Concentrations(TreeFindings(user, window, balance, dayOfMonth, daysInMonth)) <= 2
  {
    var outflow := Outflow(window);
    var inflow := Inflow(window);
    var r := RatioFindings(user, outflow, inflow);
    var c := CategoryFindings(user, Group(CategoryPairs(window)), outflow, inflow);
    var m := MonthEndFindings(user, balance, outflow, dayOfMonth, daysInMonth);
    assert TreeFindings(user, window, balance, dayOfMonth, daysInMonth) == r + c + m;
    ConcentrationsAppend(r, c);
    ConcentrationsAppend(r + c, m);
    NoConcentrationIn(r);
    NoConcentrationIn(m);
    WindowConcentrationsAtMostTwo(user, window);
  }

  /** Rule 2 over a window's grouped outflow reports at most two concentrations. */
  lemma WindowConcentrationsAtMostTwo(user: string, window: seq<Transaction>)
    requires forall i :: 0 <= i < |window| ==> window[i].amount >= 0.0
    ensures Concentrations(CategoryFindings(user, Group(CategoryPairs(window)), Outflow(window), Inflow(window))) <= 2
  {
    var outflow := Outflow(window);
    var inflow := Inflow(window);
    var groups := Group(CategoryPairs(window));
    if outflow > 0.0 {
      CategoryTotalsNonNegative(window);
      GroupNonNegative(CategoryPairs(window));
      CategoryTotalsPartitionOutflow(window);
      CategoryConcentrationsAtMostTwo(user, groups, outflow, inflow);
    } else {
      NoConcentrationWithoutOutflow(user, groups, outflow, inflow);
    }
  }

  // ---------------------------------------------------------------- properties of a run

  /** A user's unread finding of priority 1 to 3 that is not a reserve suggestion. */
  predicate Owned(xs: seq<Insight>, user: string)
  {
    forall x :: x in xs ==> x.userId == user && !x.read && 1 <= x.priority <= 3 && !x.topic.Reserve?
  }

  lemma OwnedAppend(a: seq<Insight>, b: seq<Insight>, user: string)
    requires Owned(a, user) && Owned(b, user)
    ensures Owned(a + b, user)
  {
    forall x | x in a + b ensures x in a || x in b {}
  }

  lemma TreeOwned(user: string, window: seq<Transaction>, balance: real, dayOfMonth: int, daysInMonth: int)
    requires dayOfMonth >= 1
    ensures Owned(TreeFindings(user, window, balance, dayOfMonth, daysInMonth), user)
  {
    var outflow := Outflow(window);
    var inflow := Inflow(window);
    var r := RatioFindings(user, outflow, inflow);
    var c := CategoryFindings(user, Group(CategoryPairs(window)), outflow, inflow);
    var m := MonthEndFindings(user, balance, outflow, dayOfMonth, daysInMonth);
    OwnedAppend(r, c, user);
    OwnedAppend(r + c, m, user);
  }

  lemma HeuristicsOwned(user: string, window: seq<Transaction>, balance: real)
    ensures Owned(HeuristicFindings(user, window, balance), user)
  {
    var week := Recent(window, 7.0);
    var month := Recent(window, 30.0);
    var f := FrequencyFindings(user, week);
    var g := GrowthFindings(user, Group(CategoryPairs(week)), Group(CategoryPairs(month)));
    var w := WeekendFindings(user, window);
    OwnedAppend(f, g, user);
    OwnedAppend(f + g, w, user);
    OwnedAppend(f + g + w, ReserveFindings(user, balance), user);
  }

  /** Every finding of a run is the user's, unread, of priority 1 to 3, and none is a
      reserve suggestion. */
  lemma AnalysisOwned(user: string, window: seq<Transaction>, balance: real, dayOfMonth: int, daysInMonth: int)
    requires dayOfMonth >= 1
    ensures Owned(Analysis(user, window, balance, dayOfMonth, daysInMonth), user)
  {
    TreeOwned(user, window, balance, dayOfMonth, daysInMonth);
    HeuristicsOwned(user, window, balance);
    OwnedAppend(TreeFindings(user, window, balance, dayOfMonth, daysInMonth), HeuristicFindings(user, window, balance), user);
  }

  /** Only the critical ratio and the month-end deficit carry priority 1, so a run
      produces at most two urgent findings. */
  lemma AtMostTwoUrgent(user: string, window: seq<Transaction>, balance: real, dayOfMonth: int, daysInMonth: int)
    requires dayOfMonth >= 1
    ensures |WithKey(Analysis(user, window, balance, dayOfMonth, daysInMonth), Priority, 1.0)| <= 2
  {
    var tree := TreeFindings(user, window, balance, dayOfMonth, daysInMonth);
    var h := HeuristicFindings(user, window, balance);
    WithKeyAppend(tree, h, Priority, 1.0);
    TreeAtMostTwoUrgent(user, window, balance, dayOfMonth, daysInMonth);
    HeuristicsNotUrgent(user, window, balance);
  }

  /** The decision tree's urgent findings: at most the critical ratio and the deficit. */
  lemma TreeAtMostTwoUrgent(user: string, window: seq<Transaction>, balance: real, dayOfMonth: int, daysInMonth: int)
    requires dayOfMonth >= 1
    ensures |WithKey(TreeFindings(user, window, balance, dayOfMonth, daysInMonth), Priority, 1.0)| <= 2
  {
    var outflow := Outflow(window);
    var inflow := Inflow(window);
    var r := RatioFindings(user, outflow, inflow);
    var c := CategoryFindings(user, Group(CategoryPairs(window)), outflow, inflow);
    var m := MonthEndFindings(user, balance, outflow, dayOfMonth, daysInMonth);
    assert TreeFindings(user, window, balance, dayOfMonth, daysInMonth) == r + c + m;
    WithKeyAppend(r + c, m, Priority, 1.0);
    WithKeyAppend(r, c, Priority, 1.0);
    WithKeyMembers(r, Priority, 1.0);
    WithKeyMembers(m, Priority, 1.0);
    assert forall i :: 0 <= i < |c| ==> c[i] in c;
    WithKeyNone(c, Priority, 1.0);
  }

  lemma HeuristicsNotUrgent(user: string, window: seq<Transaction>, balance: real)
    ensures WithKey(HeuristicFindings(user, window, balance), Priority, 1.0) == []
  {
    var week := Recent(window, 7.0);
    var month := Recent(window, 30.0);
    var h := HeuristicFindings(user, window, balance);
    var parts := [
      FrequencyFindings(user, week),
      GrowthFindings(user, Group(CategoryPairs(week)), Group(CategoryPairs(month))),
      WeekendFindings(user, window),
      ReserveFindings(user, balance)];
    assert h == parts[0] + parts[1] + parts[2] + parts[3];
    forall i | 0 <= i < |h| ensures Priority(h[i]) != 1.0 {
      assert h[i] in h;
    }
    WithKeyNone(h, Priority, 1.0);
  }

  /** The stored batch is ordered by non-decreasing priority and is drawn from the findings. */
  lemma BatchOrdered(all: seq<Insight>)
    ensures SortedBy(Batch(all), Priority)
    ensures multiset(Batch(all)) <= multiset(all)
  {
    var s := SortBy(all, Priority);
    SortBySorted(all, Priority);
    TakeSorted(s, 10, Priority);
    var n := |Batch(all)|;
    assert s == s[..n] + s[n..];
  }

  /** Findings of equal priority keep the order the analyzers produced them in, and
      the batch keeps the first of them. */
  lemma BatchStable(all: seq<Insight>, v: real)
    ensures var kept := WithKey(Batch(all), Priority, v);
      |kept| <= |WithKey(all, Priority, v)| && kept == WithKey(all, Priority, v)[..|kept|]
  {
    var s := SortBy(all, Priority);
    var n := |Batch(all)|;
    assert s == s[..n] + s[n..];
    WithKeyAppend(s[..n], s[n..], Priority, v);
    SortByStable(all, Priority, v);
  }

  /** When there are at most ten findings of the least priority, truncation keeps all of them. */
  lemma LeastPriorityKept(all: seq<Insight>)
    requires forall x :: x in all ==> x.priority >= 1
    requires |WithKey(all, Priority, 1.0)| <= 10
    ensures WithKey(Batch(all), Priority, 1.0) == WithKey(all, Priority, 1.0)
  {
    var s := SortBy(all, Priority);
    SortBySorted(all, Priority);
    SortByStable(all, Priority, 1.0);
    forall i | 0 <= i < |s| ensures Priority(s[i]) >= 1.0 {
      assert s[i] in multiset(all);
    }
    WithKeyMembers(s, Priority, 1.0);
    if |s| > 10 {
      PrefixKeepsLeast(s, Priority, 1.0, 10);
    }
  }

  /** Urgent findings are never dropped by the ten-item cut. */
  lemma UrgentAlwaysStored(user: string, window: seq<Transaction>, balance: real, dayOfMonth: int, daysInMonth: int)
    requires dayOfMonth >= 1
    ensures var all := Analysis(user, window, balance, dayOfMonth, daysInMonth);
      WithKey(Batch(all), Priority, 1.0) == WithKey(all, Priority, 1.0)
  {
    AnalysisOwned(user, window, balance, dayOfMonth, daysInMonth);
    AtMostTwoUrgent(user, window, balance, dayOfMonth, daysInMonth);
    LeastPriorityKept(Analysis(user, window, balance, dayOfMonth, daysInMonth));
  }

  /** Running the engine twice on the same non-empty window leaves the table as one run
      does: the second run deletes exactly the batch the first one stored. */
  lemma RunIsIdempotent(stored: seq<Insight>, user: string, window: seq<Transaction>, balance: real, dayOfMonth: int, daysInMonth: int)
    requires dayOfMonth >= 1
    requires window != []
    ensures var once := AfterRun(stored, user, window, balance, dayOfMonth, daysInMonth);
      AfterRun(once, user, window, balance, dayOfMonth, daysInMonth) == once
  {
    var all := Analysis(user, window, balance, dayOfMonth, daysInMonth);
    var batch := Batch(all);
    AnalysisOwned(user, window, balance, dayOfMonth, daysInMonth);
    BatchOrdered(all);
    forall x | x in batch ensures x.userId == user && !x.read {
      assert x in multiset(all);
    }
    WithoutUnreadAppend(WithoutUnread(stored, user), batch, user);
    WithoutUnreadIdempotent(stored, user);
    WithoutUnreadOwn(batch, user);
    assert WithoutUnread(stored, user) + [] == WithoutUnread(stored, user);
  }

  /** A run stores no reserve suggestion, and keeps every row that is read or belongs
      to someone else. */
  lemma RunKeepsOthers(stored: seq<Insight>, user: string, window: seq<Transaction>, balance: real, dayOfMonth: int, daysInMonth: int)
    requires dayOfMonth >= 1
    ensures var after := AfterRun(stored, user, window, balance, dayOfMonth, daysInMonth);
      && (forall x :: x in stored && (x.userId != user || x.read) ==> x in after)
      && (forall x :: x in after && x !in stored ==> !x.topic.Reserve?)
  {
    if window != [] {
      var all := Analysis(user, window, balance, dayOfMonth, daysInMonth);
      AnalysisOwned(user, window, balance, dayOfMonth, daysInMonth);
      BatchOrdered(all);
      forall x | x in Batch(all) ensures !x.topic.Reserve? {
        assert x in multiset(all);
      }
    }
  }

  /** With non-negative amounts the weekend outflow is part of the outflow, so the
      weekend share never exceeds 100%. */
  lemma {:induction false} WeekendWithinOutflow(txs: seq<Transaction>)
    requires forall i :: 0 <= i < |txs| ==> txs[i].amount >= 0.0
    ensures 0.0 <= Outflow(WeekendOutflows(txs)) <= Outflow(txs)
  {
    if txs != [] {
      var front := txs[..|txs| - 1];
      var t := txs[|txs| - 1];
      assert txs == front + [t];
      WeekendWithinOutflow(front);
      WeekendWithinOutflowStep(front, t);
    }
  }

  /** The inductive step of `WeekendWithinOutflow`: one more transaction at the end. */
  lemma WeekendWithinOutflowStep(front: seq<Transaction>, t: Transaction)
    requires t.amount >= 0.0
    requires 0.0 <= Outflow(WeekendOutflows(front)) <= Outflow(front)
    ensures 0.0 <= Outflow(WeekendOutflows(front + [t])) <= Outflow(front + [t])
  {
    var txs := front + [t];
    assert txs[..|txs| - 1] == front;
    RecordingMovesOneTotal(front, t);
    if t.kind == Saida && (t.weekday == 0 || t.weekday == 6) {
      assert WeekendOutflows(txs) == WeekendOutflows(front) + [t];
      RecordingMovesOneTotal(WeekendOutflows(front), t);
    } else {
      assert WeekendOutflows(txs) == WeekendOutflows(front) + [];
      assert WeekendOutflows(txs) == WeekendOutflows(front);
    }
  }

  /** On the last day of the month the projection is the balance itself, so a
      non-negative balance raises no month-end alert. */
  lemma LastDayNoMonthEndAlert(user: string, balance: real, outflow: real, day: int)
    requires day >= 1
    requires balance >= 0.0
    ensures MonthEndFindings(user, balance, outflow, day, day) == []
  {
    assert Projection(balance, outflow, day, day) == balance;
  }

  /** More spending at the same point of the month never raises the projection. */
  lemma ProjectionFallsWithSpending(balance: real, less: real, more: real, dayOfMonth: int, daysInMonth: int)
    requires dayOfMonth >= 1 && dayOfMonth <= daysInMonth
    requires less <= more
    ensures Projection(balance, more, dayOfMonth, daysInMonth) <= Projection(balance, less, dayOfMonth, daysInMonth)
  {
    var d := dayOfMonth as real;
    var left := (daysInMonth - dayOfMonth) as real;
    assert less / d <= more / d by {
      assert (more / d - less / d) * d == more - less;
    }
    assert (more / d - less / d) * left >= 0.0;
  }
}
