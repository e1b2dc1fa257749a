/** The `generate-insights` edge function: it checks the request, summarises the
    user's last 30 days of one mode, asks the AI gateway for insights through a
    `create_insights` tool call, and stores them in place of the user's unread
    insights. The gateway, the clock and the database client are parameters:
    the reply the gateway gives and whether the insert is rejected. */
module AiInsights {
  import opened Prelude
  import opened Sorting
  import opened Ledger
  import opened Store
  import InsightsEngine

  // ---------------------------------------------------------------- the figures sent to the gateway

  /** Sort key of `.sort(([, a], [, b]) => b - a)`: largest spend first. */
  function Rank(p: (string, real)): real { -p.1 }

  /** `Object.entries(gastosPorCategoria).sort(...).slice(0, 5)` */
  function TopCategories(window: seq<Transaction>): seq<(string, real)>
  {
    Take(SortBy(Group(CategoryPairs(window)), Rank), 5)
  }

  /** The "Taxa de consumo" line: outflow as a percentage of inflow, "N/A" (None)
      unless inflow is positive. */
  function ConsumptionRate(window: seq<Transaction>): (r: Option<real>)
    ensures r.None? <==> Inflow(window) <= 0.0
    ensures r.Some? ==> r.value * Inflow(window) == 100.0 * Outflow(window)
    ensures r.Some? ==> (r.value <= 100.0 <==> Outflow(window) <= Inflow(window))
  {
    if Inflow(window) > 0.0 then Some(Outflow(window) / Inflow(window) * 100.0) else None
  }

  /** `transactions.slice(-10)`: the last ten rows, or all of them. */
  function LastRows(window: seq<Transaction>): (r: seq<Transaction>)
    ensures |r| == if |window| <= 10 then |window| else 10
    ensures r == window[|window| - |r|..]
  {
    if |window| <= 10 then window else window[|window| - 10..]
  }

  /** What the prompt reports: balance of the principal account, the two totals,
      the consumption rate, the five largest categories and the last ten rows. */
  datatype Context = Context(
    balance: real, outflow: real, inflow: real, rate: Option<real>,
    top: seq<(string, real)>, history: seq<Transaction>)

  /** The metrics block of the handler; the per-category totals are filled by the
      `forEach` loop, the rest are `filter`/`reduce` chains. */
  method PrepareContext(accounts: seq<Account>, user: string, window: seq<Transaction>) returns (c: Context)
    ensures c.balance == PrincipalBalance(accounts, user)
    ensures c.outflow == Outflow(window) && c.inflow == Inflow(window)
    ensures c.rate == ConsumptionRate(window)
    ensures c.top == TopCategories(window)
    ensures c.history == LastRows(window)
  {
    var totals := SpendByCategory(window);
    c := Context(PrincipalBalance(accounts, user), Outflow(window), Inflow(window), ConsumptionRate(window),
                 Take(SortBy(totals, Rank), 5), LastRows(window));
  }

  // ---------------------------------------------------------------- the gateway's reply and the response

  /** One element of the tool call's `insights` array. */
  datatype Proposed = Proposed(title: string, message: string, kind: string, origin: string, priority: int)

  /** `const { insights } = JSON.parse(arguments)` and what `insights.map` meets: the
      message of the error thrown before the delete (a `SyntaxError`, or a `TypeError`
      destructuring `null`), the message of the `TypeError` thrown after it when
      `insights` is not an array, or the array itself. */
  datatype Arguments = Unparsable(message: string) | NotAList(message: string) | Parsed(insights: seq<Proposed>)

  /** `tool_calls[0]`: its function name and its arguments. */
  datatype ToolCall = ToolCall(name: string, arguments: Arguments)

  /** A non-ok HTTP status with its body text, or an ok reply with its first tool call, if any. */
  datatype Gateway = HttpError(status: nat, text: string) | Reply(call: Option<ToolCall>)

  datatype Failure =
    | UserIdRequired
    | KeyMissing
    | RateLimited
    | NoCredits
    | GatewayError(status: nat, text: string)
    | BadFormat
    | Thrown(message: string)
    | InsertRejected

  /** An error response with its HTTP status, or `{ success: true, count }`. */
  datatype Response = Failed(status: nat, failure: Failure) | Created(count: nat)

  /** The `error` text of each failure; the text of a rejected insert is the one the
      database client puts on its error object. */
  function ErrorText(f: Failure): string
  {
    match f
    case UserIdRequired => "userId is required"
    case KeyMissing => "AI key not configured"
    case RateLimited => "Limite de requisições atingido. Aguarde alguns segundos."
    case NoCredits => "Créditos insuficientes no workspace."
    case GatewayError(status, text) => "AI Gateway error: " + Decimal(status) + " " + text
    case BadFormat => "Invalid AI response format"
    case Thrown(message) => message
    case InsertRejected => "Unknown error"
  }

  function ToolName(): string { "create_insights" }

  /** `insights.map(...)`: each proposal becomes an unread row of the user carrying
      its title, message, type, origin and priority and nothing else. */
  function Rows(user: string, ps: seq<Proposed>): (r: seq<Insight>)
    ensures |r| == |ps|
  {
    if ps == [] then []
    else [Insight(user, Generated(ps[0].title, ps[0].message), ps[0].kind, ps[0].origin, ps[0].priority, false)]
         + Rows(user, ps[1..])
  }

  /** The response and the `insights` table after one request. */
  function Outcome(stored: seq<Insight>, userId: Option<string>, keyConfigured: bool, window: seq<Transaction>,
                   gateway: Gateway, insertFails: bool): (Response, seq<Insight>)
  {
    if userId.None? || userId.value == "" then (Failed(400, UserIdRequired), stored)
    else if !keyConfigured then (Failed(500, KeyMissing), stored)
    else if window == [] then
      (Created(1), if insertFails then stored else stored + [InsightsEngine.WelcomeInsight(userId.value)])
    else match gateway
      case HttpError(status, text) =>
        if status == 429 then (Failed(429, RateLimited), stored)
        else if status == 402 then (Failed(402, NoCredits), stored)
        else (Failed(500, GatewayError(status, text)), stored)
      case Reply(call) =>
        if call.None? || call.value.name != ToolName() then (Failed(500, BadFormat), stored)
        else match call.value.arguments
          case Unparsable(m) => (Failed(500, Thrown(m)), stored)
          case NotAList(m) => (Failed(500, Thrown(m)), WithoutUnread(stored, userId.value))
          case Parsed(ps) =>
            if insertFails then (Failed(500, InsertRejected), WithoutUnread(stored, userId.value))
            else (Created(|ps|), WithoutUnread(stored, userId.value) + Rows(userId.value, ps))
  }

  /** The handler, step by step: guards, the welcome path, the metrics, the gateway
      call, the tool-call check, then delete-unread followed by the insert. `sent`
      is the context the prompt is built from, when the gateway is called. */
  method GenerateInsights(db: Db, userId: Option<string>, keyConfigured: bool, window: seq<Transaction>,
                          gateway: Gateway, insertFails: bool) returns (r: Response, sent: Option<Context>)
    modifies db
    ensures (r, db.insights) == Outcome(old(db.insights), userId, keyConfigured, window, gateway, insertFails)
    ensures sent.Some? <==> userId.Some? && userId.value != "" && keyConfigured && window != []
    ensures sent.Some? ==> sent.value.balance == PrincipalBalance(db.accounts, userId.value)
                           && sent.value.top == TopCategories(window)
                           && sent.value.rate == ConsumptionRate(window)
    ensures db.accounts == old(db.accounts) && db.transactions == old(db.transactions) && db.logs == old(db.logs)
    ensures db.offers == old(db.offers) && db.goals == old(db.goals) && db.nextId == old(db.nextId)
  {
    if userId.None? || userId.value == "" {
      return Failed(400, UserIdRequired), None;
    }
    if !keyConfigured {
      return Failed(500, KeyMissing), None;
    }
    var user := userId.value;
    if window == [] {
      // the result of this insert is not looked at
      if !insertFails {
        db.AddInsights([InsightsEngine.WelcomeInsight(user)]);
      }
      return Created(1), None;
    }
    var context := PrepareContext(db.accounts, user, window);
    sent := Some(context);
    match gateway {
      case HttpError(status, text) =>
        if status == 429 {
          r := Failed(429, RateLimited);
        } else if status == 402 {
          r := Failed(402, NoCredits);
        } else {
          r := Failed(500, GatewayError(status, text));
        }
      case Reply(call) =>
        if call.None? || call.value.name != ToolName() {
          r := Failed(500, BadFormat);
        } else {
          match call.value.arguments {
            case Unparsable(m) =>
              r := Failed(500, Thrown(m));
            case NotAList(m) =>
              db.DeleteUnread(user);
              r := Failed(500, Thrown(m));
            case Parsed(ps) =>
              db.DeleteUnread(user);
              if insertFails {
                r := Failed(500, InsertRejected);
              } else {
                db.AddInsights(Rows(user, ps));
                r := Created(|ps|);
              }
          }
        }
    }
  }

  // ---------------------------------------------------------------- properties

  /** The user's unread rows, in order. */
  function Unread(rows: seq<Insight>, user: string): (r: seq<Insight>)
  {
    if rows == [] then []
    else (if rows[0].userId == user && !rows[0].read then [rows[0]] else []) + Unread(rows[1..], user)
  }

  lemma {:induction false} UnreadAppend(a: seq<Insight>, b: seq<Insight>, user: string)
    ensures Unread(a + b, user) == Unread(a, user) + Unread(b, user)
  {
    if a == [] {
      assert a + b == b;
    } else {
      assert (a + b)[1..] == a[1..] + b;
      UnreadAppend(a[1..], b, user);
    }
  }

  /** After the delete, none of the user's unread rows is left. */
  lemma {:induction false} NoUnreadAfterDelete(rows: seq<Insight>, user: string)
    ensures Unread(WithoutUnread(rows, user), user) == []
  {
    if rows != [] {
      NoUnreadAfterDelete(rows[1..], user);
      var x := rows[0];
      if x.userId != user || x.read {
        assert ([x] + WithoutUnread(rows[1..], user))[1..] == WithoutUnread(rows[1..], user);
      }
    }
  }

  /** The inserted rows are all the user's and all unread. */
  lemma {:induction false} RowsAreUnread(user: string, ps: seq<Proposed>)
    ensures Unread(Rows(user, ps), user) == Rows(user, ps)
    ensures WithoutUnread(Rows(user, ps), user) == []
  {
    if ps != [] {
      RowsAreUnread(user, ps[1..]);
      assert Rows(user, ps)[1..] == Rows(user, ps[1..]);
    }
  }

  /** A stored row copies the proposal's five fields and carries the caller's id. */
  lemma {:induction false} RowsCopyProposals(user: string, ps: seq<Proposed>, i: int)
    requires 0 <= i < |ps|
    ensures Rows(user, ps)[i].userId == user && !Rows(user, ps)[i].read
    ensures Rows(user, ps)[i].topic == Generated(ps[i].title, ps[i].message)
    ensures Rows(user, ps)[i].kind == ps[i].kind && Rows(user, ps)[i].origin == ps[i].origin
    ensures Rows(user, ps)[i].priority == ps[i].priority
  {
    if i > 0 {
      RowsCopyProposals(user, ps[1..], i - 1);
    }
  }

  /** A request whose gateway reply is a well-formed tool call. */
  lemma OutcomeOfReply(stored: seq<Insight>, user: string, window: seq<Transaction>, ps: seq<Proposed>)
    requires user != "" && window != []
    ensures Outcome(stored, Some(user), true, window, Reply(Some(ToolCall(ToolName(), Parsed(ps)))), false)
            == (Created(|ps|), WithoutUnread(stored, user) + Rows(user, ps))
  {
  }

  /** A successful run replaces the user's unread insights by the new ones and keeps
      every other row (other users', and the user's read ones) as it was. */
  lemma SuccessReplacesUnread(stored: seq<Insight>, user: string, window: seq<Transaction>, ps: seq<Proposed>)
    requires user != "" && window != []
    ensures var o := Outcome(stored, Some(user), true, window, Reply(Some(ToolCall(ToolName(), Parsed(ps)))), false);
            o.0 == Created(|ps|)
            && Unread(o.1, user) == Rows(user, ps)
            && WithoutUnread(o.1, user) == WithoutUnread(stored, user)
  {
    OutcomeOfReply(stored, user, window, ps);
    var kept := WithoutUnread(stored, user);
    UnreadAppend(kept, Rows(user, ps), user);
    NoUnreadAfterDelete(stored, user);
    RowsAreUnread(user, ps);
    WithoutUnreadAppend(kept, Rows(user, ps), user);
    WithoutUnreadIdempotent(stored, user);
  }

  /** Two successful runs in a row leave only the second batch unread: the first is
      deleted by the second run's delete. */
  lemma SecondRunReplacesFirst(stored: seq<Insight>, user: string, window: seq<Transaction>,
                               first: seq<Proposed>, second: seq<Proposed>)
    requires user != "" && window != []
    ensures var once := Outcome(stored, Some(user), true, window, Reply(Some(ToolCall(ToolName(), Parsed(first)))), false).1;
            Outcome(once, Some(user), true, window, Reply(Some(ToolCall(ToolName(), Parsed(second)))), false).1
            == WithoutUnread(stored, user) + Rows(user, second)
  {
    var kept := WithoutUnread(stored, user);
    var once := kept + Rows(user, first);
    OutcomeOfReply(stored, user, window, first);
    OutcomeOfReply(once, user, window, second);
    RowsAreUnread(user, first);
    WithoutUnreadAppend(kept, Rows(user, first), user);
    WithoutUnreadIdempotent(stored, user);
    assert WithoutUnread(once, user) == kept;
  }

  /** Whether a request gets as far as the delete: its reply is a `create_insights`
      tool call whose arguments parse and destructure. */
  predicate ReachesDelete(gateway: Gateway)
  {
    gateway.Reply? && gateway.call.Some? && gateway.call.value.name == ToolName()
    && !gateway.call.value.arguments.Unparsable?
  }

  /** A failure before the delete leaves the table as it was. A failure after it, a
      rejected insert or arguments without an `insights` array, leaves the user's unread
      insights gone and nothing in their place. */
  lemma FailuresKeepTable(stored: seq<Insight>, userId: Option<string>, keyConfigured: bool, window: seq<Transaction>,
                          gateway: Gateway, insertFails: bool)
    ensures var o := Outcome(stored, userId, keyConfigured, window, gateway, insertFails);
            o.0.Failed? && !ReachesDelete(gateway) ==> o.1 == stored
    ensures var o := Outcome(stored, userId, keyConfigured, window, gateway, insertFails);
            o.0.Failed? && o.1 != stored ==>
              ReachesDelete(gateway) && userId.Some?
              && o.1 == WithoutUnread(stored, userId.value) && Unread(o.1, userId.value) == []
    ensures var o := Outcome(stored, userId, keyConfigured, window, gateway, insertFails);
            o.0 == Failed(500, InsertRejected) ==> Unread(o.1, userId.value) == [] && o.1 == WithoutUnread(stored, userId.value)
  {
    if userId.Some? {
      NoUnreadAfterDelete(stored, userId.value);
    }
  }

  /** Arguments such as `{}`, with no `insights` array, fail with 500 after the delete
      has removed the user's unread insights. */
  lemma NotAListLosesUnread(stored: seq<Insight>, user: string, window: seq<Transaction>, m: string, insertFails: bool)
    requires user != "" && window != []
    ensures var o := Outcome(stored, Some(user), true, window, Reply(Some(ToolCall(ToolName(), NotAList(m)))), insertFails);
            o == (Failed(500, Thrown(m)), WithoutUnread(stored, user)) && Unread(o.1, user) == []
  {
    NoUnreadAfterDelete(stored, user);
  }

  /** The guards in their order: a missing `userId` is answered with 400 whatever
      else holds, a missing key with 500, an empty window with the welcome row and
      count 1 (nothing deleted), a 429 or 402 with its own status. */
  lemma GuardOrder(stored: seq<Insight>, userId: Option<string>, keyConfigured: bool, window: seq<Transaction>,
                   gateway: Gateway, insertFails: bool)
    ensures var o := Outcome(stored, userId, keyConfigured, window, gateway, insertFails);
            (userId.None? || userId.value == "") ==> o == (Failed(400, UserIdRequired), stored)
    ensures var o := Outcome(stored, userId, keyConfigured, window, gateway, insertFails);
            o.0.Created? && window == [] ==> o.0.count == 1 && o.1[..|stored|] == stored
    ensures var o := Outcome(stored, userId, keyConfigured, window, gateway, insertFails);
            o.0.Failed? && o.0.status in {429, 402} ==> gateway.HttpError? && gateway.status == o.0.status
    ensures var o := Outcome(stored, userId, keyConfigured, window, gateway, insertFails);
            o.0.Created? && window != [] ==> gateway.Reply? && gateway.call.Some? && gateway.call.value.name == ToolName()
  {
  }

  /** Every entry of the grouped totals is a category that occurs, with its full total. */
  lemma TotalsAreExact(xs: seq<(string, real)>, p: (string, real))
    requires p in Group(xs)
    ensures p.0 in Keys(xs) && p.1 == KeyTotal(xs, p.0)
  {
    var totals := Group(xs);
    GroupKeys(xs);
    var i :| 0 <= i < |totals| && totals[i] == p;
    LookupEntry(totals, i);
    GroupLookup(xs, p.0);
  }

  /** In a sequence sorted by largest spend first, whatever a prefix leaves out spends
      no more than anything it keeps. */
  lemma PrefixDominates(s: seq<(string, real)>, n: nat)
    requires SortedBy(s, Rank)
    ensures forall p, q :: p in s && p !in Take(s, n) && q in Take(s, n) ==> p.1 <= q.1
  {
    var top := Take(s, n);
    forall p, q | p in s && p !in top && q in top
      ensures p.1 <= q.1
    {
      var j :| 0 <= j < |s| && s[j] == p;
      var i :| 0 <= i < |top| && top[i] == q;
      assert j >= |top|;
      assert Rank(s[i]) <= Rank(s[j]);
    }
  }

  /** The ranking: at most five categories, largest spend first, each with its true total. */
  lemma TopCategoriesRanked(window: seq<Transaction>)
    ensures |TopCategories(window)| <= 5
    ensures forall i, j :: 0 <= i < j < |TopCategories(window)| ==> TopCategories(window)[i].1 >= TopCategories(window)[j].1
    ensures forall p :: p in TopCategories(window) ==>
              p.0 in Keys(CategoryPairs(window)) && p.1 == KeyTotal(CategoryPairs(window), p.0)
  {
    var totals := Group(CategoryPairs(window));
    var sorted := SortBy(totals, Rank);
    SortBySorted(totals, Rank);
    TakeSorted(sorted, 5, Rank);
    forall p | p in Take(sorted, 5)
      ensures p.0 in Keys(CategoryPairs(window)) && p.1 == KeyTotal(CategoryPairs(window), p.0)
    {
      assert p in multiset(sorted);
      TotalsAreExact(CategoryPairs(window), p);
    }
  }

  /** No category left out of the five spends more than one that was kept. */
  lemma TopCategoriesDominate(window: seq<Transaction>)
    ensures forall p, q :: p in Group(CategoryPairs(window)) && p !in TopCategories(window) && q in TopCategories(window) ==> p.1 <= q.1
  {
    var totals := Group(CategoryPairs(window));
    var sorted := SortBy(totals, Rank);
    SortBySorted(totals, Rank);
    PrefixDominates(sorted, 5);
    assert forall p :: p in totals ==> p in multiset(sorted);
  }
}
