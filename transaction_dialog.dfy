/** The new-transaction dialog (`src/components/TransactionDialog.tsx`): records an
    inflow or outflow against the user's first account, creating a principal account
    on the way when the user has none, and moves that account's balance. */
module TransactionDialog {
  import opened Prelude
  import opened Ledger
  import opened Store

  const FillRequired := "Preencha todos os campos obrigatórios"
  const AccountNotCreated := "Erro ao criar conta. Tente fazer logout e login novamente."
  const NotAdded := "Erro ao adicionar transação"
  const Added := "Transação adicionada com sucesso!"
  const NewAccountName := "Conta Principal"

  /** The balance change a transaction of this kind and amount causes: inflows add,
      everything else subtracts. */
  function Signed(kind: Kind, amount: real): (r: real)
    ensures kind == Entrada ==> r == amount
    ensures kind != Entrada ==> r == -amount
  {
    if kind == Entrada then amount else -amount
  }

  /** Inflow minus outflow. */
  function NetFlow(txs: seq<Transaction>): real
  {
    Inflow(txs) - Outflow(txs)
  }

  /** The balance update agrees with the ledger: recording an inflow or an outflow
      moves the net flow by exactly the amount the dialog adds to the balance. */
  lemma BalanceTracksNetFlow(txs: seq<Transaction>, t: Transaction)
    requires t.kind == Entrada || t.kind == Saida
    ensures NetFlow(txs + [t]) == NetFlow(txs) + Signed(t.kind, t.amount)
  {
    RecordingMovesOneTotal(txs, t);
  }

  /** The mode a new transaction gets from the header's work toggle. */
  function ModeOf(workMode: bool): (r: string)
    ensures r == Trabalho <==> workMode
    ensures r == Pessoal <==> !workMode
  {
    if workMode then Trabalho else Pessoal
  }

  /** The account the dialog books against: the user's first account, or else the
      principal account it creates with the next id and a zero balance. */
  function Booked(accounts: seq<Account>, user: string, nextId: nat): (r: Account)
    ensures FirstAccount(accounts, user).Some? ==> r in accounts && r.userId == user
    ensures FirstAccount(accounts, user).None? ==>
      r == Account(nextId, user, NewAccountName, PrincipalType, 0.0)
  {
    match FirstAccount(accounts, user)
    case Some(a) => a
    case None => Account(nextId, user, NewAccountName, PrincipalType, 0.0)
  }

  /** The account's balance after the transaction is posted to it. */
  function Moved(a: Account, kind: Kind, amount: real): real
  {
    a.balance + Signed(kind, amount)
  }

  /** The accounts table once the booked account exists. */
  function WithBooked(accounts: seq<Account>, user: string, nextId: nat): seq<Account>
  {
    if FirstAccount(accounts, user).Some? then accounts else accounts + [Booked(accounts, user, nextId)]
  }

  /** The accounts table after a successful submission: the booked account exists and
      its balance has moved by the signed amount. */
  function Posted(accounts: seq<Account>, user: string, nextId: nat, kind: Kind, amount: real): seq<Account>
  {
    WithBalance(WithBooked(accounts, user, nextId), Booked(accounts, user, nextId).id,
      Moved(Booked(accounts, user, nextId), kind, amount))
  }

  lemma {:induction false} PostedIs(accounts: seq<Account>, user: string, nextId: nat, kind: Kind, amount: real,
                 e: seq<Account>, a: Account, b: real)
    requires e == WithBooked(accounts, user, nextId) && a == Booked(accounts, user, nextId)
    requires b == Moved(a, kind, amount)
    ensures Posted(accounts, user, nextId, kind, amount) == WithBalance(e, a.id, b)
  {
  }

  /** A user without accounts ends with one new principal account, holding exactly the
      signed amount of the first transaction, and every other row as it was, provided
      the stored ids are below the next id. */
  lemma FirstSubmissionOpensAccount(accounts: seq<Account>, user: string, nextId: nat, kind: Kind, amount: real)
    requires forall a :: a in accounts ==> a.id < nextId
    requires FirstAccount(accounts, user).None?
    ensures Posted(accounts, user, nextId, kind, amount)
      == accounts + [Account(nextId, user, NewAccountName, PrincipalType, Signed(kind, amount))]
  {
    var created := Account(nextId, user, NewAccountName, PrincipalType, 0.0);
    var r := Posted(accounts, user, nextId, kind, amount);
    var expected := accounts + [created.(balance := Signed(kind, amount))];
    assert WithBooked(accounts, user, nextId) == accounts + [created];
    forall i | 0 <= i < |accounts|
      ensures r[i] == expected[i]
    {
      assert (accounts + [created])[i] == accounts[i];
      assert accounts[i] in accounts;
    }
  }

  class TransactionForm {
    var description: string
    var amount: Field
    var kind: Kind
    var category: string
    var open: bool
    var notice: string

    /** An empty form set to an outflow. */
    constructor ()
      ensures description == "" && amount == Blank && kind == Saida && category == ""
      ensures !open && notice == ""
    {
      description, amount, kind, category := "", Blank, Saida, "";
      open, notice := false, "";
    }

    predicate Complete()
      reads this
    {
      description != "" && amount.Entered? && category != ""
    }

    /** `handleSubmit`. `user` is the signed-in user, `accountFails` and `insertFails`
        the outcomes of the account and transaction inserts, and `updateFails` that of
        the balance update, whose error the dialog never reads: it reports success
        either way. */
    method Submit(db: Db, user: Option<string>, workMode: bool, accountFails: bool, insertFails: bool,
                  updateFails: bool)
      modifies this, db
      ensures user.None? ==>
        notice == old(notice) && db.accounts == old(db.accounts) && db.transactions == old(db.transactions)
      ensures user.Some? && !old(Complete()) ==>
        notice == FillRequired && db.accounts == old(db.accounts) && db.transactions == old(db.transactions)
      ensures user.Some? && old(Complete()) && FirstAccount(old(db.accounts), user.value).None? && accountFails ==>
        notice == AccountNotCreated && db.accounts == old(db.accounts) && db.transactions == old(db.transactions)
      ensures user.Some? && old(Complete()) && (FirstAccount(old(db.accounts), user.value).Some? || !accountFails) && insertFails ==>
        && db.accounts == WithBooked(old(db.accounts), user.value, old(db.nextId))
        && db.transactions == old(db.transactions) && notice == NotAdded
        && description == old(description) && amount == old(amount) && open == old(open)
      ensures user.Some? && old(Complete()) && (FirstAccount(old(db.accounts), user.value).Some? || !accountFails) && !insertFails ==>
        var account := Booked(old(db.accounts), user.value, old(db.nextId));
        && db.transactions == old(db.transactions)
             + [TxRecord(user.value, account.id, Text(old(description)), old(amount).value, old(kind), old(category), ModeOf(workMode))]
        && db.accounts == (if updateFails then WithBooked(old(db.accounts), user.value, old(db.nextId))
                           else Posted(old(db.accounts), user.value, old(db.nextId), old(kind), old(amount).value))
        && notice == Added && description == "" && amount == Blank && kind == Saida && category == "" && !open
      ensures db.logs == old(db.logs) && db.insights == old(db.insights)
      ensures db.offers == old(db.offers) && db.goals == old(db.goals)
    {
      if user.None? {
        return;
      }
      var u := user.value;
      if description == "" || amount.Blank? || category == "" {
        notice := FillRequired;
        return;
      }
      ghost var expected := WithBooked(old(db.accounts), user.value, old(db.nextId));
      ghost var booked := Booked(old(db.accounts), user.value, old(db.nextId));
      var account := Booked(db.accounts, u, db.nextId);
      if FirstAccount(db.accounts, u).None? {
        if accountFails {
          notice := AccountNotCreated;
          return;
        }
        account := db.AddAccount(u, NewAccountName, PrincipalType, 0.0);
      }
      assert db.accounts == expected && account == booked;
      var v := amount.value;
      if insertFails {
        notice := NotAdded;
        return;
      }
      var row := TxRecord(u, account.id, Text(description), v, kind, category, ModeOf(workMode));
      var newBalance := Moved(account, kind, v);
      assert row == TxRecord(u, booked.id, Text(old(description)), old(amount).value, old(kind), old(category), ModeOf(workMode));
      assert newBalance == Moved(booked, old(kind), old(amount).value);
      ghost var balanced := WithBalance(expected, booked.id, newBalance);
      PostedIs(old(db.accounts), user.value, old(db.nextId), old(kind), old(amount).value, expected, booked, newBalance);
      db.AddTransaction(row);
      if !updateFails {
        db.SetBalance(account.id, newBalance);
        assert db.accounts == balanced;
      }
      notice := Added;
      description, amount, kind, category := "", Blank, Saida, "";
      open := false;
    }
  }
}
