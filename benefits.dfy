/** The benefits wallet (`src/components/servicos/BeneficiosModal.tsx`): three vouchers
    whose balances live in the dialog, each spend recorded as a personal outflow
    against the principal account. */
module Benefits {
  import opened Prelude
  import opened Ledger
  import opened Store

  datatype Voucher = VR | VA | VT

  /** The label written into the log's `tipo`. */
  function Code(v: Voucher): string
  {
    match v
    case VR => "VR"
    case VA => "VA"
    case VT => "VT"
  }

  /** The transaction's description names the voucher. */
  function Description(v: Voucher): string
  {
    match v
    case VR => "Gasto com Vale Refeição"
    case VA => "Gasto com Vale Alimentação"
    case VT => "Gasto com Vale Transporte"
  }

  /** Meal and food vouchers are food spending, the transport voucher transport. */
  function Category(v: Voucher): (r: string)
    ensures r == "Transporte" <==> v == VT
    ensures r == "Alimentação" <==> v != VT
  {
    if v == VT then "Transporte" else "Alimentação"
  }

  const MissingAmount := "Informe o valor do gasto"
  const InvalidOrInsufficient := "Valor inválido ou saldo insuficiente"
  const NoPrincipal := "Conta principal não encontrada"
  const NotRecorded := "Erro ao registrar gasto"
  const SpendRecorded := "Gasto registrado"
  const BenefitsService := "Beneficios"

  class BenefitsWallet {
    var meal: real
    var food: real
    var transport: real
    var amount: Field
    var notice: string

    /** The starting balances of 350, 200 and 150. */
    constructor ()
      ensures meal == 350.0 && food == 200.0 && transport == 150.0
      ensures amount == Blank && notice == ""
    {
      meal := 350.0;
      food := 200.0;
      transport := 150.0;
      amount := Blank;
      notice := "";
    }

    function Balance(v: Voucher): real
      reads this
    {
      match v
      case VR => meal
      case VA => food
      case VT => transport
    }

    function Held(): real
      reads this
    {
      meal + food + transport
    }

    /** No voucher is overdrawn. */
    predicate Solvent()
      reads this
    {
      meal >= 0.0 && food >= 0.0 && transport >= 0.0
    }

    /** The guards: an amount was typed, it is positive and the voucher covers it. */
    predicate Accepts(v: Voucher)
      reads this
    {
      amount.Entered? && 0.0 < amount.value <= Balance(v)
    }

    /** `handleGastar(v, saldo)`. `insertFails` is the outcome of the transaction
        insert. */
    method Spend(db: Db, user: string, v: Voucher, insertFails: bool)
      modifies this, db
      ensures old(amount.Blank?) ==> notice == MissingAmount
      ensures old(amount.Entered?) && !old(Accepts(v)) ==> notice == InvalidOrInsufficient
      ensures old(Accepts(v)) && PrincipalAccount(db.accounts, user).None? ==> notice == NoPrincipal
      ensures old(Accepts(v)) && PrincipalAccount(db.accounts, user).Some? && insertFails ==> notice == NotRecorded
      ensures !old(Accepts(v)) || PrincipalAccount(db.accounts, user).None? || insertFails ==>
        meal == old(meal) && food == old(food) && transport == old(transport) && amount == old(amount)
        && db.transactions == old(db.transactions) && db.logs == old(db.logs)
      ensures old(Accepts(v)) && PrincipalAccount(db.accounts, user).Some? && !insertFails ==>
        var x := old(amount).value;
        var before := old(Balance(v));
        && db.transactions == old(db.transactions) + [TxRecord(user, PrincipalAccount(db.accounts, user).value.id,
             Text(Description(v)), x, Saida, Category(v), Pessoal)]
        && db.logs == old(db.logs) + [ServiceLog(user, BenefitsService, VoucherDetails(Code(v), x, before, before - x), x)]
        && Balance(v) == before - x
        && (forall w :: w != v ==> Balance(w) == old(Balance(w)))
        && Held() == old(Held()) - x
        && notice == SpendRecorded && amount == Blank
      ensures old(Solvent()) ==> Solvent()
      ensures db.accounts == old(db.accounts) && db.insights == old(db.insights)
      ensures db.offers == old(db.offers) && db.goals == old(db.goals) && db.nextId == old(db.nextId)
    {
      if amount.Blank? {
        notice := MissingAmount;
        return;
      }
      var x := amount.value;
      var before := Balance(v);
      if x <= 0.0 || x > before {
        notice := InvalidOrInsufficient;
        return;
      }
      var account := PrincipalAccount(db.accounts, user);
      if account.None? {
        notice := NoPrincipal;
        return;
      }
      if insertFails {
        notice := NotRecorded;
        return;
      }
      db.AddTransaction(TxRecord(user, account.value.id, Text(Description(v)), x, Saida, Category(v), Pessoal));
      db.AddLog(ServiceLog(user, BenefitsService, VoucherDetails(Code(v), x, before, before - x), x));
      match v {
        case VR => meal := meal - x;
        case VA => food := food - x;
        case VT => transport := transport - x;
      }
      notice := SpendRecorded;
      amount := Blank;
    }
  }
}
