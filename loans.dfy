/** The loan simulator (`src/components/servicos/EmprestimosModal.tsx`): a monthly
    rate of 3% compounded over the term, the installment and the total shown as
    the fields are typed, and the confirmation that records the loan. */
module Loans {
  import opened Prelude
  import opened Ledger
  import opened Store

  /** `TAXA_JUROS`, per month. */
  const Rate: real := 0.03

  function Pow(x: real, n: nat): real
  {
    if n == 0 then 1.0 else Pow(x, n - 1) * x
  }

  lemma {:induction false} PowAtLeastOne(x: real, n: nat)
    requires x >= 1.0
    ensures Pow(x, n) >= 1.0
  {
    if n > 0 {
      PowAtLeastOne(x, n - 1);
      assert Pow(x, n - 1) * x >= Pow(x, n - 1) * 1.0;
    }
  }

  lemma {:induction false} PowGrows(x: real, n: nat)
    requires x > 1.0 && n >= 1
    ensures Pow(x, n) > 1.0
  {
    PowAtLeastOne(x, n - 1);
    assert Pow(x, n - 1) * x > Pow(x, n - 1) * 1.0;
  }

  /** `parseInt` of the decimal text of a number field: its integer part, truncated
      toward zero. */
  function Trunc(x: real): (r: int)
    ensures 0.0 <= x ==> 0 <= r && r as real <= x < r as real + 1.0
    ensures x < 0.0 ==> r <= 0 && r as real - 1.0 < x <= r as real
  {
    if x >= 0.0 then x.Floor else -((-x).Floor)
  }

  /** `calcularParcela`: 0 while a field is empty or the term is not a positive whole
      number of months. */
  function Installment(amount: Field, term: Field): (r: real)
    ensures amount.Blank? || term.Blank? || Trunc(term.value) <= 0 ==> r == 0.0
  {
    if amount.Blank? || term.Blank? then 0.0
    else
      var n := Trunc(term.value);
      if n <= 0 then 0.0 else amount.value * Pow(1.0 + Rate, n) / n as real
  }

  /** `calcularTotal`: the installment times `parseInt(prazo)`, which is NaN (None) when
      the term is empty. */
  function TotalDue(amount: Field, term: Field): (r: Option<real>)
    ensures r.None? <==> term.Blank?
  {
    if term.Blank? then None else Some(Installment(amount, term) * Trunc(term.value) as real)
  }

  /** The amount after `n` months of compound interest at `Rate`. */
  function Compounded(v: real, n: nat): real
  {
    v * Pow(1.0 + Rate, n)
  }

  /** For a term of n >= 1 months the total is the amount compounded n times, and each
      installment is an equal n-th of it. */
  lemma TotalIsCompounded(v: real, t: real)
    requires Trunc(t) >= 1
    ensures TotalDue(Entered(v), Entered(t)).Some?
    ensures TotalDue(Entered(v), Entered(t)).value == Compounded(v, Trunc(t))
    ensures Installment(Entered(v), Entered(t)) * Trunc(t) as real == Compounded(v, Trunc(t))
  {
    var n := Trunc(t) as real;
    var m := Compounded(v, Trunc(t));
    assert Installment(Entered(v), Entered(t)) == m / n;
    assert m / n * n == m;
  }

  /** A positive amount borrowed for at least one month costs interest: the total due
      exceeds the amount. */
  lemma InterestIsPositive(v: real, t: real)
    requires v > 0.0 && Trunc(t) >= 1
    ensures TotalDue(Entered(v), Entered(t)).value - v > 0.0
  {
    TotalIsCompounded(v, t);
    PowGrows(1.0 + Rate, Trunc(t));
    assert v * Pow(1.0 + Rate, Trunc(t)) > v * 1.0;
  }

  const FillAllFields := "Preencha todos os campos"
  const InvalidValues := "Valores inválidos"
  const NoPrincipal := "Conta principal não encontrada"
  const NotRecorded := "Erro ao registrar empréstimo"
  const LoanSimulated := "Empréstimo simulado com sucesso!"
  const LoanCategory := "empréstimo recebido"
  const LoanService := "Emprestimo"

  /** The loan dialog's state. */
  class LoanModal {
    var amount: Field
    var term: Field
    var mode: string
    var open: bool
    var notice: string

    constructor ()
      ensures amount == Blank && term == Blank && mode == Pessoal && !open && notice == ""
    {
      amount := Blank;
      term := Blank;
      mode := Pessoal;
      open := false;
      notice := "";
    }

    /** True when the guards reject the input before anything is read. */
    predicate Rejected()
      reads this
    {
      amount.Blank? || term.Blank? || amount.value <= 0.0 || Trunc(term.value) <= 0
    }

    /** `handleConfirmar`. `insertFails` is the outcome of the transaction insert. */
    method Confirm(db: Db, user: string, insertFails: bool)
      modifies this, db
      ensures old(amount.Blank? || term.Blank?) ==> notice == FillAllFields
      ensures old(!amount.Blank? && !term.Blank?) && old(Rejected()) ==> notice == InvalidValues
      ensures old(Rejected()) || PrincipalAccount(old(db.accounts), user).None? || insertFails ==>
        db.transactions == old(db.transactions) && db.logs == old(db.logs) && db.insights == old(db.insights)
        && amount == old(amount) && term == old(term) && open == old(open)
      ensures !old(Rejected()) && PrincipalAccount(old(db.accounts), user).None? ==> notice == NoPrincipal
      ensures !old(Rejected()) && PrincipalAccount(old(db.accounts), user).Some? && insertFails ==> notice == NotRecorded
      ensures !old(Rejected()) && PrincipalAccount(old(db.accounts), user).Some? && !insertFails ==>
        var v := old(amount).value;
        var n := Trunc(old(term).value);
        var installment := Installment(old(amount), old(term));
        var total := TotalDue(old(amount), old(term)).value;
        && db.transactions == old(db.transactions) + [TxRecord(user, PrincipalAccount(old(db.accounts), user).value.id,
             LoanReceived(n, installment), v, Entrada, LoanCategory, old(mode))]
        && db.logs == old(db.logs) + [ServiceLog(user, LoanService, LoanDetails(v, n, 3.0, installment, total, old(mode)), v)]
        && db.insights == old(db.insights) + [Insight(user, LoanTaken(v, n, total, installment), Alerta, Heuristica, 3, false)]
        && notice == LoanSimulated && amount == Blank && term == Blank && !open
      ensures mode == old(mode)
      ensures db.accounts == old(db.accounts) && db.offers == old(db.offers) && db.goals == old(db.goals)
      ensures db.nextId == old(db.nextId)
    {
      if amount.Blank? || term.Blank? {
        notice := FillAllFields;
        return;
      }
      var v := amount.value;
      var n := Trunc(term.value);
      if v <= 0.0 || n <= 0 {
        notice := InvalidValues;
        return;
      }
      var account := PrincipalAccount(db.accounts, user);
      if account.None? {
        notice := NoPrincipal;
        return;
      }
      var installment := Installment(amount, term);
      var total := TotalDue(amount, term).value;
      if insertFails {
        notice := NotRecorded;
        return;
      }
      db.AddTransaction(TxRecord(user, account.value.id, LoanReceived(n, installment), v, Entrada, LoanCategory, mode));
      db.AddLog(ServiceLog(user, LoanService, LoanDetails(v, n, 3.0, installment, total, mode), v));
      db.AddInsights([Insight(user, LoanTaken(v, n, total, installment), Alerta, Heuristica, 3, false)]);
      notice := LoanSimulated;
      amount := Blank;
      term := Blank;
      open := false;
    }
  }
}
