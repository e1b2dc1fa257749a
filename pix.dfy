/** The PIX transfer dialog (`src/components/servicos/PixModal.tsx`). A cleared transfer
    is recorded as a personal outflow in "Transferência" and logged; the account's
    stored balance is left as it was. */
module Pix {
  import opened Prelude
  import opened Ledger
  import opened Store
  import opened Checkout

  const TransferCategory := "Transferência"
  const PixService := "PIX"
  const NotTransferred := "Erro ao realizar transferência"
  const Transferred := "Transferência PIX realizada com sucesso!"

  function Description(key: string, p: Payment): string
  {
    "PIX para " + key + " " + CardSuffix(p)
  }

  class PixForm {
    var key: string
    var amount: Field
    var payment: Payment
    var card: Card
    var open: bool
    var notice: string

    constructor ()
      ensures key == "" && amount == Blank && payment == FromBalance && card == NoCard
      ensures !open && notice == ""
    {
      key, amount, payment, card := "", Blank, FromBalance, NoCard;
      open, notice := false, "";
    }

    function Screened(db: Db, user: string): Verdict
      reads this, db
    {
      Screen(key != "", amount, payment, card, db.accounts, user)
    }

    /** `handleTransferir`. `insertFails` is the outcome of the transaction insert. */
    method Transfer(db: Db, user: string, insertFails: bool)
      modifies this, db
      ensures old(Screened(db, user)).Refused? ==>
        notice == old(Screened(db, user)).message
        && key == old(key) && amount == old(amount) && payment == old(payment) && card == old(card)
        && db.transactions == old(db.transactions) && db.logs == old(db.logs)
      ensures old(Screened(db, user)).Cleared? && insertFails ==>
        notice == NotTransferred
        && key == old(key) && amount == old(amount) && payment == old(payment) && card == old(card)
        && db.transactions == old(db.transactions) && db.logs == old(db.logs)
      ensures old(Screened(db, user)).Cleared? && !insertFails ==>
        var v := old(Screened(db, user));
        && db.transactions == old(db.transactions)
             + [TxRecord(user, v.account.id, Text(Description(old(key), old(payment))), v.amount, Saida, TransferCategory, Pessoal)]
        && db.logs == old(db.logs) + [ServiceLog(user, PixService, PixDetails(old(key), v.amount, PaymentCode(old(payment))), v.amount)]
        && notice == Transferred
        && key == "" && amount == Blank && payment == FromBalance && card == NoCard && !open
      ensures db.accounts == old(db.accounts) && db.insights == old(db.insights)
      ensures db.offers == old(db.offers) && db.goals == old(db.goals) && db.nextId == old(db.nextId)
    {
      var verdict := Screen(key != "", amount, payment, card, db.accounts, user);
      if verdict.Refused? {
        notice := verdict.message;
        return;
      }
      if insertFails {
        notice := NotTransferred;
        return;
      }
      var row := TxRecord(user, verdict.account.id, Text(Description(key, payment)), verdict.amount, Saida, TransferCategory, Pessoal);
      var log := ServiceLog(user, PixService, PixDetails(key, verdict.amount, PaymentCode(payment)), verdict.amount);
      db.AddTransaction(row);
      db.AddLog(log);
      notice := Transferred;
      key, amount, payment, card := "", Blank, FromBalance, NoCard;
      open := false;
    }
  }
}
