/** The rows the application reads and writes, and the database holding them.
    Every table is a sequence of rows in insertion order; generated ids come
    from a counter. Row-level security and the generated timestamps live in
    the database and are not part of the rows. */
module Store {
  import opened Prelude
  import opened Ledger

  /** A row of `accounts`. */
  datatype Account = Account(id: nat, userId: string, name: string, accountType: string, balance: real)

  const PrincipalType := "principal"

  /** The `descricao` of a transaction: plain text, or the loan description whose
      text interpolates the term and the formatted installment. */
  datatype Note = Text(text: string) | LoanReceived(term: int, installment: real)

  /** A row of `transactions` as the services and the dialog write it. */
  datatype TxRecord = TxRecord(
    userId: string,
    accountId: nat,
    note: Note,
    amount: real,
    kind: Kind,
    category: string,
    mode: string)

  /** The JSON `detalhes` of a `services_logs` row, without its timestamp. */
  datatype LogDetails =
    | PixDetails(key: string, amount: real, payment: string)
    | TopUpDetails(phone: string, operator: string, amount: real, payment: string)
    | VoucherDetails(voucher: string, spent: real, before: real, after: real)
    | LoanDetails(requested: real, termMonths: int, ratePercent: real, installment: real, total: real, mode: string)

  datatype ServiceLog = ServiceLog(userId: string, service: string, details: LogDetails, amount: real)

  /** What an insight says. The rule engine's titles and messages are fixed texts
      around a few figures; each topic carries exactly those figures. */
  datatype Topic =
    | SpendCritical(ratio: real)
    | SpendHigh(ratio: real)
    | SpendHealthy(ratio: real)
    | Concentration(category: string, share: real)
    | FoodOverrun
    | TransportOverrun
    | MonthDeficit(shortfall: real)
    | ThinMargin(projected: real)
    | Frequency(perDay: real)
    | Growth(category: string, weekAverage: real, monthAverage: real)
    | Weekend(share: real)
    | Reserve(target: real)
    | Welcome
    | LoanTaken(amount: real, term: int, total: real, installment: real)
    | Generated(title: string, message: string)

  /** A row of `insights`; `lido` is false when the row is inserted. */
  datatype Insight = Insight(userId: string, topic: Topic, kind: string, origin: string, priority: int, read: bool)

  const Alerta := "alerta"
  const Oportunidade := "oportunidade"
  const Informacao := "informacao"
  const RegressaoLinear := "regressao_linear"
  const ArvoreDecisao := "arvore_decisao"
  const Heuristica := "heuristica"

  /** The JSON `detalhes` of an offer. */
  datatype OfferDetails =
    | CategoryBoost(category: string, percent: real)
    | LoanRate(monthlyRate: real, maxAmount: real, maxInstallments: int)
    | InsuranceDiscount(discountPercent: real, coverageKind: string, coverage: string)

  /** A row of `ofertas`; `ativa` is true when the row is inserted. */
  datatype Offer = Offer(id: nat, userId: string, kind: string, details: OfferDetails, active: bool)

  /** A row of `metas`: a monthly spending limit for one category in one mode. */
  datatype Goal = Goal(id: nat, userId: string, category: string, mode: string, limit: real, month: string)

  /** The user's rows of `accounts` whose type is "principal", in table order. */
  function PrincipalRows(accounts: seq<Account>, user: string): (r: seq<Account>)
    ensures forall a :: a in r ==> a in accounts && a.userId == user && a.accountType == PrincipalType
    ensures forall a :: a in accounts && a.userId == user && a.accountType == PrincipalType ==> a in r
  {
    if accounts == [] then []
    else
      var a := accounts[|accounts| - 1];
      var rest := PrincipalRows(accounts[..|accounts| - 1], user);
      assert accounts == accounts[..|accounts| - 1] + [a];
      if a.userId == user && a.accountType == PrincipalType then rest + [a] else rest
  }

  /** `.single()` and `.maybeSingle()` on the principal-account query: the row when
      exactly one matches; no data when none matches or when several do (an error). */
  function PrincipalAccount(accounts: seq<Account>, user: string): (r: Option<Account>)
    ensures r.Some? <==> |PrincipalRows(accounts, user)| == 1
    ensures r.Some? ==> r.value in accounts && r.value.userId == user && r.value.accountType == PrincipalType
  {
    var rows := PrincipalRows(accounts, user);
    if |rows| == 1 then Some(rows[0]) else None
  }

  /** `accountData ? Number(accountData.saldo_atual) : 0` after `.maybeSingle()`. */
  function PrincipalBalance(accounts: seq<Account>, user: string): (r: real)
    ensures PrincipalAccount(accounts, user).None? ==> r == 0.0
    ensures PrincipalAccount(accounts, user).Some? ==> r == PrincipalAccount(accounts, user).value.balance
  {
    match PrincipalAccount(accounts, user)
    case Some(a) => a.balance
    case None => 0.0
  }

  /** `.limit(1)` on the user's accounts of any type: the first one, if any. */
  function FirstAccount(accounts: seq<Account>, user: string): (r: Option<Account>)
    ensures r.None? <==> forall a :: a in accounts ==> a.userId != user
    ensures r.Some? ==> r.value in accounts && r.value.userId == user
  {
    if accounts == [] then None
    else if accounts[0].userId == user then Some(accounts[0])
    else
      var r := FirstAccount(accounts[1..], user);
      assert forall a :: a in accounts ==> a == accounts[0] || a in accounts[1..];
      r
  }

  /** `update({ saldo_atual: b }).eq("id", id)` */
  function WithBalance(accounts: seq<Account>, id: nat, b: real): (r: seq<Account>)
    ensures |r| == |accounts|
    ensures forall i :: 0 <= i < |r| ==>
      r[i] == if accounts[i].id == id then accounts[i].(balance := b) else accounts[i]
  {
    if accounts == [] then []
    else
      var a := accounts[0];
      [if a.id == id then a.(balance := b) else a] + WithBalance(accounts[1..], id, b)
  }

  /** `delete().eq("user_id", user).eq("lido", false)` */
  function WithoutUnread(rows: seq<Insight>, user: string): (r: seq<Insight>)
    ensures forall x :: x in r <==> x in rows && (x.userId != user || x.read)
    ensures |r| <= |rows|
  {
    if rows == [] then []
    else
      var x := rows[0];
      var rest := WithoutUnread(rows[1..], user);
      assert forall y :: y in rows <==> y == x || y in rows[1..];
      if x.userId != user || x.read then [x] + rest else rest
  }

  lemma {:induction false} WithoutUnreadAppend(a: seq<Insight>, b: seq<Insight>, user: string)
    ensures WithoutUnread(a + b, user) == WithoutUnread(a, user) + WithoutUnread(b, user)
  {
    if a == [] {
      assert a + b == b;
    } else {
      assert (a + b)[1..] == a[1..] + b;
      WithoutUnreadAppend(a[1..], b, user);
    }
  }

  /** Deleting the unread rows twice deletes nothing more. */
  lemma {:induction false} WithoutUnreadIdempotent(rows: seq<Insight>, user: string)
    ensures WithoutUnread(WithoutUnread(rows, user), user) == WithoutUnread(rows, user)
  {
    if rows != [] {
      WithoutUnreadIdempotent(rows[1..], user);
      var x := rows[0];
      if x.userId != user || x.read {
        assert ([x] + WithoutUnread(rows[1..], user))[1..] == WithoutUnread(rows[1..], user);
      }
    }
  }

  /** Rows that are all the user's and unread are deleted entirely. */
  lemma {:induction false} WithoutUnreadOwn(rows: seq<Insight>, user: string)
    requires forall x :: x in rows ==> x.userId == user && !x.read
    ensures WithoutUnread(rows, user) == []
  {
    if rows != [] {
      assert rows[0] in rows;
      assert forall x :: x in rows[1..] ==> x in rows;
      WithoutUnreadOwn(rows[1..], user);
    }
  }

  /** `update({ ativa: false }).eq("id", id)` */
  function Deactivated(offers: seq<Offer>, id: nat): (r: seq<Offer>)
    ensures |r| == |offers|
    ensures forall i :: 0 <= i < |r| ==>
      r[i] == if offers[i].id == id then offers[i].(active := false) else offers[i]
  {
    if offers == [] then []
    else
      var o := offers[0];
      [if o.id == id then o.(active := false) else o] + Deactivated(offers[1..], id)
  }

  /** `delete().eq("id", id)` on the goals. */
  function WithoutGoal(goals: seq<Goal>, id: nat): (r: seq<Goal>)
    ensures forall g :: g in r <==> g in goals && g.id != id
  {
    if goals == [] then []
    else
      var g := goals[0];
      var rest := WithoutGoal(goals[1..], id);
      assert forall h :: h in goals <==> h == g || h in goals[1..];
      if g.id != id then [g] + rest else rest
  }

  /** The database: one sequence per table, and the next id it will generate. */
  class Db {
    var accounts: seq<Account>
    var transactions: seq<TxRecord>
    var logs: seq<ServiceLog>
    var insights: seq<Insight>
    var offers: seq<Offer>
    var goals: seq<Goal>
    var nextId: nat

    constructor ()
      ensures accounts == [] && transactions == [] && logs == []
      ensures insights == [] && offers == [] && goals == [] && nextId == 0
    {
      accounts, transactions, logs := [], [], [];
      insights, offers, goals := [], [], [];
      nextId := 0;
    }

    method AddAccount(user: string, name: string, accountType: string, balance: real) returns (a: Account)
      modifies this
      ensures a == Account(old(nextId), user, name, accountType, balance)
      ensures accounts == old(accounts) + [a] && nextId == old(nextId) + 1
      ensures transactions == old(transactions) && logs == old(logs)
      ensures insights == old(insights) && offers == old(offers) && goals == old(goals)
    {
      a := Account(nextId, user, name, accountType, balance);
      accounts := accounts + [a];
      nextId := nextId + 1;
    }

    method SetBalance(id: nat, b: real)
      modifies this
      ensures accounts == WithBalance(old(accounts), id, b)
      ensures transactions == old(transactions) && logs == old(logs) && nextId == old(nextId)
      ensures insights == old(insights) && offers == old(offers) && goals == old(goals)
    {
      accounts := WithBalance(accounts, id, b);
    }

    method AddTransaction(t: TxRecord)
      modifies this
      ensures transactions == old(transactions) + [t]
      ensures accounts == old(accounts) && logs == old(logs) && nextId == old(nextId)
      ensures insights == old(insights) && offers == old(offers) && goals == old(goals)
    {
      transactions := transactions + [t];
    }

    method AddLog(l: ServiceLog)
      modifies this
      ensures logs == old(logs) + [l]
      ensures accounts == old(accounts) && transactions == old(transactions) && nextId == old(nextId)
      ensures insights == old(insights) && offers == old(offers) && goals == old(goals)
    {
      logs := logs + [l];
    }

    method AddInsights(rows: seq<Insight>)
      modifies this
      ensures insights == old(insights) + rows
      ensures accounts == old(accounts) && transactions == old(transactions) && logs == old(logs)
      ensures offers == old(offers) && goals == old(goals) && nextId == old(nextId)
    {
      insights := insights + rows;
    }

    method DeleteUnread(user: string)
      modifies this
      ensures insights == WithoutUnread(old(insights), user)
      ensures accounts == old(accounts) && transactions == old(transactions) && logs == old(logs)
      ensures offers == old(offers) && goals == old(goals) && nextId == old(nextId)
    {
      insights := WithoutUnread(insights, user);
    }

    method AddOffer(user: string, kind: string, details: OfferDetails) returns (o: Offer)
      modifies this
      ensures o == Offer(old(nextId), user, kind, details, true)
      ensures offers == old(offers) + [o] && nextId == old(nextId) + 1
      ensures accounts == old(accounts) && transactions == old(transactions) && logs == old(logs)
      ensures insights == old(insights) && goals == old(goals)
    {
      o := Offer(nextId, user, kind, details, true);
      offers := offers + [o];
      nextId := nextId + 1;
    }

    method DeactivateOffer(id: nat)
      modifies this
      ensures offers == Deactivated(old(offers), id)
      ensures accounts == old(accounts) && transactions == old(transactions) && logs == old(logs)
      ensures insights == old(insights) && goals == old(goals) && nextId == old(nextId)
    {
      offers := Deactivated(offers, id);
    }

    method AddGoal(user: string, category: string, mode: string, limit: real, month: string) returns (g: Goal)
      modifies this
      ensures g == Goal(old(nextId), user, category, mode, limit, month)
      ensures goals == old(goals) + [g] && nextId == old(nextId) + 1
      ensures accounts == old(accounts) && transactions == old(transactions) && logs == old(logs)
      ensures insights == old(insights) && offers == old(offers)
    {
      g := Goal(nextId, user, category, mode, limit, month);
      goals := goals + [g];
      nextId := nextId + 1;
    }

    method RemoveGoal(id: nat)
      modifies this
      ensures goals == WithoutGoal(old(goals), id)
      ensures accounts == old(accounts) && transactions == old(transactions) && logs == old(logs)
      ensures insights == old(insights) && offers == old(offers) && nextId == old(nextId)
    {
      goals := WithoutGoal(goals, id);
    }
  }
}
