/** The mobile top-up dialog (`src/components/servicos/RecargaModal.tsx`): the phone mask
    applied on every keystroke, the preset amounts, and the top-up recorded as a
    personal outflow in "Telefonia". The account's stored balance is left as it was. */
module TopUp {
  import opened Prelude
  import opened Ledger
  import opened Store
  import opened Checkout

  predicate IsDigit(c: char)
  {
    '0' <= c <= '9'
  }

  /** `replace(/\D/g, '')`: the digits of `s`, in order. */
  function Digits(s: string): (r: string)
    ensures |r| <= |s|
    ensures forall i :: 0 <= i < |r| ==> IsDigit(r[i])
  {
    if s == [] then []
    else if IsDigit(s[0]) then [s[0]] + Digits(s[1..])
    else Digits(s[1..])
  }

  lemma {:induction false} DigitsAppend(a: string, b: string)
    ensures Digits(a + b) == Digits(a) + Digits(b)
  {
    if a == [] {
      assert a + b == b;
    } else {
      assert (a + b)[1..] == a[1..] + b;
      DigitsAppend(a[1..], b);
    }
  }

  lemma {:induction false} DigitsOfDigits(s: string)
    requires forall i :: 0 <= i < |s| ==> IsDigit(s[i])
    ensures Digits(s) == s
  {
    if s != [] {
      DigitsOfDigits(s[1..]);
    }
  }

  /** The mask `(dd) ddddd-dddd` over eleven digits. */
  function Mask(c: string): (r: string)
    requires |c| == 11
    ensures |r| == 15
  {
    "(" + c[..2] + ") " + c[2..7] + "-" + c[7..]
  }

  predicate AllDigits(s: string)
  {
    forall i :: 0 <= i < |s| ==> IsDigit(s[i])
  }

  /** Appending digits appends them to the digits kept. */
  lemma DigitsThenDigits(p: string, q: string)
    requires AllDigits(q)
    ensures Digits(p + q) == Digits(p) + q
  {
    DigitsAppend(p, q);
    DigitsOfDigits(q);
  }

  /** Appending mask punctuation keeps no digit. */
  lemma DigitsThenPunct(p: string, q: string)
    requires q == "(" || q == ") " || q == "-"
    ensures Digits(p + q) == Digits(p)
  {
    DigitsAppend(p, q);
    assert Digits(q) == [];
  }

  /** The mask up to the dash keeps the area code and the first five digits. */
  lemma MaskHeadDigits(a: string, b: string)
    requires AllDigits(a) && AllDigits(b)
    ensures Digits("(" + a + ") " + b + "-") == a + b
  {
    var p1 := "(" + a;
    var p2 := p1 + ") ";
    var p3 := p2 + b;
    DigitsThenPunct([], "(");
    assert [] + "(" == "(";
    DigitsThenDigits("(", a);
    DigitsThenPunct(p1, ") ");
    DigitsThenDigits(p2, b);
    DigitsThenPunct(p3, "-");
  }

  /** The mask only adds punctuation: its digits are the eleven it was given. */
  lemma MaskKeepsDigits(c: string)
    requires |c| == 11 && forall i :: 0 <= i < |c| ==> IsDigit(c[i])
    ensures Digits(Mask(c)) == c
  {
    var a, b, d := c[..2], c[2..7], c[7..];
    var head := "(" + a + ") " + b + "-";
    assert AllDigits(a) && AllDigits(b) && AllDigits(d);
    MaskHeadDigits(a, b);
    DigitsThenDigits(head, d);
    assert Mask(c) == head + d;
    assert a + b + d == c;
  }

  /** `formatPhone`: up to eleven digits are kept as bare digits, exactly eleven get the
      mask, and input with more digits is returned untouched. */
  function FormatPhone(p: string): (r: string)
    ensures |Digits(p)| > 11 ==> r == p
    ensures |Digits(p)| < 11 ==> r == Digits(p)
    ensures |Digits(p)| == 11 ==> r == Mask(Digits(p))
    ensures |Digits(p)| <= 11 ==> |r| <= 15
  {
    var c := Digits(p);
    if |c| <= 11 then (if |c| == 11 then Mask(c) else c) else p
  }

  /** The mask never changes which digits were typed. */
  lemma FormatKeepsDigits(p: string)
    ensures Digits(FormatPhone(p)) == Digits(p)
  {
    var c := Digits(p);
    if |c| == 11 {
      MaskKeepsDigits(c);
    } else if |c| < 11 {
      DigitsOfDigits(c);
    }
  }

  /** Reformatting a formatted number changes nothing, so the mask is stable across
      keystrokes. */
  lemma FormatIdempotent(p: string)
    ensures FormatPhone(FormatPhone(p)) == FormatPhone(p)
  {
    FormatKeepsDigits(p);
  }

  /** The preset buttons. */
  const Presets: seq<int> := [10, 15, 20, 25, 30, 50, 100]
  const Operators: seq<string> := ["Vivo", "Claro", "TIM", "Oi"]

  const PhoneCategory := "Telefonia"
  const TopUpService := "Recarga"
  const NotToppedUp := "Erro ao realizar recarga"
  const ToppedUp := "Recarga realizada com sucesso!"

  function Description(operator: string, phone: string, p: Payment): string
  {
    "Recarga " + operator + " " + phone + " " + CardSuffix(p)
  }

  class TopUpForm {
    var phone: string
    var operator: string
    var amount: Field
    var payment: Payment
    var card: Card
    var open: bool
    var notice: string

    constructor ()
      ensures phone == "" && operator == "" && amount == Blank && payment == FromBalance && card == NoCard
      ensures !open && notice == ""
    {
      phone, operator, amount, payment, card := "", "", Blank, FromBalance, NoCard;
      open, notice := false, "";
    }

    /** The phone field's `onChange`. */
    method TypePhone(typed: string)
      modifies this
      ensures phone == FormatPhone(typed) && Digits(phone) == Digits(typed)
      ensures operator == old(operator) && amount == old(amount) && payment == old(payment) && card == old(card)
      ensures open == old(open) && notice == old(notice)
    {
      FormatKeepsDigits(typed);
      phone := FormatPhone(typed);
    }

    /** A preset button. */
    method PickPreset(i: nat)
      requires i < |Presets|
      modifies this
      ensures amount == Entered(Presets[i] as real) && amount.value > 0.0
      ensures phone == old(phone) && operator == old(operator) && payment == old(payment) && card == old(card)
      ensures open == old(open) && notice == old(notice)
    {
      amount := Entered(Presets[i] as real);
    }

    function Screened(db: Db, user: string): Verdict
      reads this, db
    {
      Screen(phone != "" && operator != "", amount, payment, card, db.accounts, user)
    }

    /** `handleRecarregar`. `insertFails` is the outcome of the transaction insert. */
    method Recharge(db: Db, user: string, insertFails: bool)
      modifies this, db
      ensures old(Screened(db, user)).Refused? ==>
        notice == old(Screened(db, user)).message
        && phone == old(phone) && operator == old(operator) && amount == old(amount)
        && payment == old(payment) && card == old(card)
        && db.transactions == old(db.transactions) && db.logs == old(db.logs)
      ensures old(Screened(db, user)).Cleared? && insertFails ==>
        notice == NotToppedUp
        && phone == old(phone) && operator == old(operator) && amount == old(amount)
        && payment == old(payment) && card == old(card)
        && db.transactions == old(db.transactions) && db.logs == old(db.logs)
      ensures old(Screened(db, user)).Cleared? && !insertFails ==>
        var v := old(Screened(db, user));
        && db.transactions == old(db.transactions)
             + [TxRecord(user, v.account.id, Text(Description(old(operator), old(phone), old(payment))),
                         v.amount, Saida, PhoneCategory, Pessoal)]
        && db.logs == old(db.logs)
             + [ServiceLog(user, TopUpService, TopUpDetails(old(phone), old(operator), v.amount, PaymentCode(old(payment))), v.amount)]
        && notice == ToppedUp
        && phone == "" && operator == "" && amount == Blank && payment == FromBalance && card == NoCard && !open
      ensures db.accounts == old(db.accounts) && db.insights == old(db.insights)
      ensures db.offers == old(db.offers) && db.goals == old(db.goals) && db.nextId == old(db.nextId)
    {
      var verdict := Screen(phone != "" && operator != "", amount, payment, card, db.accounts, user);
      if verdict.Refused? {
        notice := verdict.message;
        return;
      }
      if insertFails {
        notice := NotToppedUp;
        return;
      }
      var row := TxRecord(user, verdict.account.id, Text(Description(operator, phone, payment)), verdict.amount, Saida, PhoneCategory, Pessoal);
      var log := ServiceLog(user, TopUpService, TopUpDetails(phone, operator, verdict.amount, PaymentCode(payment)), verdict.amount);
      db.AddTransaction(row);
      db.AddLog(log);
      notice := ToppedUp;
      phone, operator, amount, payment, card := "", "", Blank, FromBalance, NoCard;
      open := false;
    }
  }
}
