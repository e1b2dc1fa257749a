/** Monthly spending goals (`src/pages/Metas.tsx`): each goal's spend is its
    category's outflow this month, shown as a percentage of the limit with a
    colour band, a capped progress bar and the non-negative remainder. */
module Goals {
  import opened Prelude
  import opened Ledger
  import opened Store

  /** The page's mode selector stores these labels, not the ones transactions carry. */
  const Personal := "Personal"
  const Work := "Work"

  // ---------------------------------------------------------------- spend per category

  /** The `(categoria, valor)` pairs of the user's outflows stored under `mode`. */
  function ModeOutflows(rows: seq<TxRecord>, user: string, mode: string): (r: seq<(string, real)>)
    ensures |r| <= |rows|
  {
    if rows == [] then []
    else
      var t := rows[|rows| - 1];
      ModeOutflows(rows[..|rows| - 1], user, mode)
        + if t.userId == user && t.mode == mode && t.kind == Saida then [(t.category, t.amount)] else []
  }

  /** The category totals as the page computes them: the transactions query filters by
      the selector's label ("Personal" or "Work") as it stands. */
  function SpendAsWritten(rows: seq<TxRecord>, user: string, selector: string): seq<(string, real)>
  {
    Group(ModeOutflows(rows, user, selector))
  }

  /** The mode value the rest of the application stores for a selector label. */
  function StoredMode(selector: string): (r: string)
    ensures r == Pessoal || r == Trabalho
    ensures r == Trabalho <==> selector == Work
  {
    if selector == Work then Trabalho else Pessoal
  }

  /** The category totals with the selector mapped to the stored mode. */
  function Spend(rows: seq<TxRecord>, user: string, selector: string): seq<(string, real)>
  {
    Group(ModeOutflows(rows, user, StoredMode(selector)))
  }

  lemma {:induction false} NoOutflowsUnderLabel(rows: seq<TxRecord>, user: string, selector: string)
    requires selector == Personal || selector == Work
    requires forall i :: 0 <= i < |rows| ==> rows[i].mode == Pessoal || rows[i].mode == Trabalho
    ensures ModeOutflows(rows, user, selector) == []
  {
    if rows != [] {
      NoOutflowsUnderLabel(rows[..|rows| - 1], user, selector);
    }
  }

  /** As written, no transaction the application stores ("pessoal" or "trabalho") is
      ever counted, so every goal shows a spend of 0. */
  lemma AsWrittenGoalsSeeNoSpend(rows: seq<TxRecord>, user: string, selector: string, category: string)
    requires selector == Personal || selector == Work
    requires forall i :: 0 <= i < |rows| ==> rows[i].mode == Pessoal || rows[i].mode == Trabalho
    ensures SpendAsWritten(rows, user, selector) == []
    ensures LookupOrZero(SpendAsWritten(rows, user, selector), category) == 0.0
  {
    NoOutflowsUnderLabel(rows, user, selector);
  }

  /** A personal outflow of 50 in "Alimentação": the page as written reports 0 spent,
      the mapped query reports 50. */
  lemma AsWrittenMissesPersonalOutflow()
    ensures var rows := [TxRecord("u", 0, Text("mercado"), 50.0, Saida, "Alimentação", Pessoal)];
      && LookupOrZero(SpendAsWritten(rows, "u", Personal), "Alimentação") == 0.0
      && LookupOrZero(Spend(rows, "u", Personal), "Alimentação") == 50.0
  {
    var rows := [TxRecord("u", 0, Text("mercado"), 50.0, Saida, "Alimentação", Pessoal)];
    assert rows[..0] == [];
    assert ModeOutflows(rows, "u", Personal) == [];
    assert ModeOutflows(rows, "u", Pessoal) == [("Alimentação", 50.0)];
    assert Group(ModeOutflows(rows, "u", Pessoal)) == Add([], "Alimentação", 50.0);
  }

  /** With the mapped mode, a goal's spend is the sum of the user's outflows in its
      category stored under the selected mode, and 0 for a category without any. */
  lemma SpendIsCategoryOutflow(rows: seq<TxRecord>, user: string, selector: string, category: string)
    ensures LookupOrZero(Spend(rows, user, selector), category)
         == KeyTotal(ModeOutflows(rows, user, StoredMode(selector)), category)
    ensures category !in Keys(ModeOutflows(rows, user, StoredMode(selector))) ==>
      LookupOrZero(Spend(rows, user, selector), category) == 0.0
  {
    var xs := ModeOutflows(rows, user, StoredMode(selector));
    GroupLookupOrZero(xs, category);
    if category !in Keys(xs) {
      KeyTotalAbsent(xs, category);
    }
  }

  // ---------------------------------------------------------------- percentage and bands

  /** A JavaScript number as the percentage can take it: dividing by a limit of 0
      gives an infinity, or NaN when nothing was spent. */
  datatype Percent = Finite(value: real) | PosInf | NegInf | NaN

  /** `(spend / limit) * 100` */
  function Percentage(spend: real, limit: real): (r: Percent)
    ensures r.Finite? <==> limit != 0.0
    ensures r.Finite? ==> r.value * limit == spend * 100.0
    ensures r == NaN <==> limit == 0.0 && spend == 0.0
    ensures r == PosInf <==> limit == 0.0 && spend > 0.0
  {
    if limit != 0.0 then Finite(spend / limit * 100.0)
    else if spend > 0.0 then PosInf
    else if spend < 0.0 then NegInf
    else NaN
  }

  /** `percentual || 0`: NaN (and 0) read as 0. */
  function OrZero(p: Percent): (r: Percent)
    ensures r != NaN
    ensures p != NaN ==> r == p
  {
    if p == NaN then Finite(0.0) else p
  }

  /** `p >= bound` on a JavaScript number. */
  predicate AtLeast(p: Percent, bound: real)
  {
    match p
    case Finite(v) => v >= bound
    case PosInf => true
    case _ => false
  }

  datatype StatusColor = Destructive | Yellow | Green

  /** `getStatusColor` */
  function Status(p: Percent): StatusColor
  {
    if AtLeast(p, 100.0) then Destructive
    else if AtLeast(p, 80.0) then Yellow
    else Green
  }

  function Severity(c: StatusColor): int
  {
    match c
    case Green => 0
    case Yellow => 1
    case Destructive => 2
  }

  /** The three bands are disjoint and cover every finite percentage: destructive from
      100, yellow from 80 below 100, green below 80; an infinite overrun is destructive. */
  lemma StatusBands(v: real)
    ensures Status(Finite(v)) == Destructive <==> v >= 100.0
    ensures Status(Finite(v)) == Yellow <==> 80.0 <= v < 100.0
    ensures Status(Finite(v)) == Green <==> v < 80.0
    ensures Status(PosInf) == Destructive
  {
  }

  /** Spending more of the limit never shows a milder colour. */
  lemma StatusMonotone(v: real, w: real)
    requires v <= w
    ensures Severity(Status(Finite(v))) <= Severity(Status(Finite(w)))
  {
  }

  /** `Math.min(p, 100)` for the progress bar. */
  function Progress(p: Percent): (r: Percent)
    ensures p.Finite? ==> r.Finite? && r.value <= 100.0 && r.value <= p.value
    ensures p.Finite? ==> (r.value == p.value || r.value == 100.0)
    ensures p == PosInf ==> r == Finite(100.0)
  {
    match p
    case Finite(v) => Finite(if v <= 100.0 then v else 100.0)
    case PosInf => Finite(100.0)
    case NegInf => NegInf
    case NaN => NaN
  }

  /** `Math.max(0, limit - spend)` */
  function Remaining(limit: real, spend: real): (r: real)
    ensures r >= 0.0 && r >= limit - spend
    ensures r == 0.0 || r == limit - spend
  {
    if limit - spend > 0.0 then limit - spend else 0.0
  }

  /** With a positive limit the bar is full exactly when nothing remains. */
  lemma FullBarMeansNothingLeft(limit: real, spend: real)
    requires limit > 0.0
    ensures Progress(Percentage(spend, limit)) == Finite(100.0) <==> Remaining(limit, spend) == 0.0
  {
    DivCompare(spend, limit, 1.0);
  }

  // ---------------------------------------------------------------- the page

  /** A goal as the page lists it: the row, its spend and its percentage. */
  datatype GoalView = GoalView(goal: Goal, spent: real, percent: Percent)

  /** `metasData.map(meta => ({ ...meta, gasto_atual, percentual }))` */
  function WithSpend(goals: seq<Goal>, totals: seq<(string, real)>): (r: seq<GoalView>)
    ensures |r| == |goals|
    ensures forall i :: 0 <= i < |goals| ==>
      r[i].goal == goals[i] && r[i].spent == LookupOrZero(totals, goals[i].category)
      && r[i].percent == Percentage(r[i].spent, goals[i].limit)
  {
    seq(|goals|, i requires 0 <= i < |goals| =>
      var spent := LookupOrZero(totals, goals[i].category);
      GoalView(goals[i], spent, Percentage(spent, goals[i].limit)))
  }

  /** The user's goals for the month in the selected mode, in table order. */
  function GoalsOf(goals: seq<Goal>, user: string, selector: string, month: string): (r: seq<Goal>)
    ensures forall g :: g in r <==> g in goals && g.userId == user && g.mode == selector && g.month == month
  {
    if goals == [] then []
    else
      var g := goals[0];
      assert forall h :: h in goals <==> h == g || h in goals[1..];
      (if g.userId == user && g.mode == selector && g.month == month then [g] else [])
        + GoalsOf(goals[1..], user, selector, month)
  }

  /** What the insert of a goal returned. */
  datatype InsertOutcome = Inserted | Failed(code: string)

  const FillAllFields := "Preencha todos os campos"
  const GoalCreated := "Meta criada com sucesso!"
  const GoalExists := "Já existe uma meta para esta categoria neste mês"
  const GoalNotCreated := "Erro ao criar meta"
  const GoalRemoved := "Meta removida"
  const GoalNotRemoved := "Erro ao remover meta"
  const GoalsNotLoaded := "Erro ao carregar metas"

  /** The message shown when the insert fails with the given code. */
  function CreateError(code: string): (r: string)
    ensures r == GoalExists <==> code == "23505"
  {
    if code == "23505" then GoalExists else GoalNotCreated
  }

  class GoalsPage {
    var selector: string
    var goals: seq<GoalView>
    var category: string
    var limit: Field
    var dialogOpen: bool
    var notice: string

    constructor ()
      ensures selector == Personal && goals == [] && category == "" && limit == Blank
      ensures !dialogOpen && notice == ""
    {
      selector := Personal;
      goals := [];
      category := "";
      limit := Blank;
      dialogOpen := false;
      notice := "";
    }

    /** `fetchMetas`: `monthRows` are the transactions dated this month, and `failed`
        says whether either query returned an error. */
    method Load(db: Db, user: string, month: string, monthRows: seq<TxRecord>, failed: bool)
      modifies this
      ensures failed ==> goals == old(goals) && notice == GoalsNotLoaded
      ensures !failed ==>
        goals == WithSpend(GoalsOf(db.goals, user, selector, month), Spend(monthRows, user, selector))
        && notice == old(notice)
      ensures selector == old(selector) && category == old(category) && limit == old(limit)
      ensures dialogOpen == old(dialogOpen)
    {
      if failed {
        notice := GoalsNotLoaded;
        return;
      }
      var totals := Spend(monthRows, user, selector);
      goals := WithSpend(GoalsOf(db.goals, user, selector, month), totals);
    }

    /** `criarMeta`: an empty category or limit is rejected before any insert. */
    method CreateGoal(db: Db, user: string, month: string, outcome: InsertOutcome)
      modifies this, db
      ensures (old(category) == "" || old(limit) == Blank) ==>
        notice == FillAllFields && db.goals == old(db.goals) && db.nextId == old(db.nextId)
        && category == old(category) && limit == old(limit) && dialogOpen == old(dialogOpen)
      ensures old(category) != "" && old(limit).Entered? && outcome.Failed? ==>
        notice == CreateError(outcome.code) && db.goals == old(db.goals) && db.nextId == old(db.nextId)
        && category == old(category) && limit == old(limit) && dialogOpen == old(dialogOpen)
      ensures old(category) != "" && old(limit).Entered? && outcome == Inserted ==>
        && db.goals == old(db.goals) + [Goal(old(db.nextId), user, old(category), selector, old(limit).value, month)]
        && db.nextId == old(db.nextId) + 1
        && notice == GoalCreated && !dialogOpen && category == "" && limit == Blank
      ensures selector == old(selector) && goals == old(goals)
      ensures db.accounts == old(db.accounts) && db.transactions == old(db.transactions)
      ensures db.logs == old(db.logs) && db.insights == old(db.insights) && db.offers == old(db.offers)
    {
      if category == "" || limit == Blank {
        notice := FillAllFields;
        return;
      }
      if outcome.Failed? {
        notice := CreateError(outcome.code);
        return;
      }
      var _ := db.AddGoal(user, category, selector, limit.value, month);
      notice := GoalCreated;
      dialogOpen := false;
      category := "";
      limit := Blank;
    }

    /** `deletarMeta` */
    method DeleteGoal(db: Db, id: nat, failed: bool)
      modifies this, db
      ensures failed ==> db.goals == old(db.goals) && notice == GoalNotRemoved
      ensures !failed ==> db.goals == WithoutGoal(old(db.goals), id) && notice == GoalRemoved
      ensures forall g :: g in db.goals ==> g.id != id || failed
      ensures db.accounts == old(db.accounts) && db.transactions == old(db.transactions) && db.nextId == old(db.nextId)
      ensures db.logs == old(db.logs) && db.insights == old(db.insights) && db.offers == old(db.offers)
      ensures selector == old(selector) && goals == old(goals) && category == old(category)
      ensures limit == old(limit) && dialogOpen == old(dialogOpen)
    {
      if failed {
        notice := GoalNotRemoved;
        return;
      }
      db.RemoveGoal(id);
      notice := GoalRemoved;
    }
  }
}
