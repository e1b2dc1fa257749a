/** The guard chain shared by the PIX and top-up dialogs
    (`src/components/servicos/PixModal.tsx`, `src/components/servicos/RecargaModal.tsx`):
    required fields, card data when paying by card, a positive amount, a unique principal
    account and, when paying from the balance, enough balance. */
module Checkout {
  import opened Prelude
  import opened Store

  datatype Payment = FromBalance | ByCard

  /** `metodo_pagamento` as logged. */
  function PaymentCode(p: Payment): string
  {
    if p == FromBalance then "saldo" else "cartao"
  }

  /** The tail of the transaction description. */
  function CardSuffix(p: Payment): string
  {
    if p == ByCard then "(via Cartão)" else ""
  }

  datatype Card = Card(number: string, cvv: string, expiry: string)

  const NoCard := Card("", "", "")

  predicate CardComplete(c: Card)
  {
    c.number != "" && c.cvv != "" && c.expiry != ""
  }

  const FillRequired := "Preencha todos os campos obrigatórios"
  const FillCard := "Preencha os dados do cartão de crédito"
  const InvalidAmount := "Valor inválido"
  const NoPrincipal := "Conta principal não encontrada"
  const Insufficient := "Saldo insuficiente"

  datatype Verdict = Refused(message: string) | Cleared(account: Account, amount: real)

  /** The guards in the dialogs' order. `filled` says whether the dialog's own text
      fields are non-empty. */
  function Screen(filled: bool, amount: Field, payment: Payment, card: Card,
                  accounts: seq<Account>, user: string): (r: Verdict)
    ensures r.Cleared? <==>
      && filled && amount.Entered?
      && (payment == ByCard ==> CardComplete(card))
      && amount.value > 0.0
      && PrincipalAccount(accounts, user).Some?
      && (payment == FromBalance ==> PrincipalAccount(accounts, user).value.balance >= amount.value)
    ensures r.Cleared? ==> r.account == PrincipalAccount(accounts, user).value && r.amount == amount.value
    ensures !filled || amount.Blank? ==> r == Refused(FillRequired)
    ensures r.Refused? && payment == ByCard ==> r.message != Insufficient
  {
    if !filled || amount.Blank? then Refused(FillRequired)
    else if payment == ByCard && !CardComplete(card) then Refused(FillCard)
    else if amount.value <= 0.0 then Refused(InvalidAmount)
    else
      match PrincipalAccount(accounts, user)
      case None => Refused(NoPrincipal)
      case Some(a) =>
        if payment == FromBalance && a.balance < amount.value then Refused(Insufficient)
        else Cleared(a, amount.value)
  }
}
