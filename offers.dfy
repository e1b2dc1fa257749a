/** Personalised offers (`src/pages/Ofertas.tsx`): three threshold rules over the
    last month's outflow per category propose a cashback, a loan and an
    insurance offer; each is inserted unless the user already has an active
    offer of its kind; the page lists the active offers and can dismiss one. */
module Offers {
  import opened Prelude
  import opened Ledger
  import opened Store

  const Cashback := "cashback"
  const Loan := "emprestimo"
  const Insurance := "seguro"
  const TransportCategory := "Transporte"

  // ---------------------------------------------------------------- the rules

  /** The position `Object.keys(g).reduce((a, b) => g[a] > g[b] ? a : b)` ends on: a
      greatest total, the last one among equal greatest totals. */
  function TopIndex(g: seq<(string, real)>): (i: nat)
    requires g != []
    ensures i < |g|
    ensures forall j :: 0 <= j < |g| ==> g[j].1 <= g[i].1
    ensures forall j :: i < j < |g| ==> g[j].1 < g[i].1
  {
    if |g| == 1 then 0
    else
      var i := TopIndex(g[..|g| - 1]);
      assert forall j :: 0 <= j < |g| - 1 ==> g[..|g| - 1][j] == g[j];
      if g[i].1 > g[|g| - 1].1 then i else |g| - 1
  }

  /** `categoriaMaisGasta`: "" when no category has outflow. */
  function TopCategory(g: seq<(string, real)>): (r: string)
    ensures g == [] ==> r == ""
    ensures g != [] ==> r == g[TopIndex(g)].0
  {
    if g == [] then "" else g[TopIndex(g)].0
  }

  datatype Candidate = Candidate(kind: string, details: OfferDetails)

  function CashbackRule(g: seq<(string, real)>): (r: seq<Candidate>)
    ensures r != [] <==> TopCategory(g) != ""
    ensures r != [] ==> r == [Candidate(Cashback, CategoryBoost(TopCategory(g), 5.0))]
  {
    var top := TopCategory(g);
    if top != "" then [Candidate(Cashback, CategoryBoost(top, 5.0))] else []
  }

  function LoanRule(g: seq<(string, real)>): (r: seq<Candidate>)
    ensures r != [] <==> Sum(Values(g)) > 500.0
    ensures r != [] ==> r == [Candidate(Loan, LoanRate(1.5, 5000.0, 12))]
  {
    if Sum(Values(g)) > 500.0 then [Candidate(Loan, LoanRate(1.5, 5000.0, 12))] else []
  }

  /** `gastosPorCategoria["Transporte"] > 200`: an absent key compares false. */
  function InsuranceRule(g: seq<(string, real)>): (r: seq<Candidate>)
    ensures r != [] <==> Lookup(g, TransportCategory).Some? && Lookup(g, TransportCategory).value > 200.0
    ensures r != [] ==> r == [Candidate(Insurance, InsuranceDiscount(20.0, "auto", "completa"))]
  {
    match Lookup(g, TransportCategory)
    case Some(v) => if v > 200.0 then [Candidate(Insurance, InsuranceDiscount(20.0, "auto", "completa"))] else []
    case None => []
  }

  /** `novasOfertas` for the user's transactions of the last month. */
  function Candidates(window: seq<Transaction>): (r: seq<Candidate>)
    ensures |r| <= 3
    ensures forall i, j :: 0 <= i < j < |r| ==> r[i].kind != r[j].kind
  {
    var g := Group(CategoryPairs(window));
    var c, l, s := CashbackRule(g), LoanRule(g), InsuranceRule(g);
    RulesDistinctKinds(c, l, s);
    c + l + s
  }

  /** The offer kinds in the order the rules run. */
  function KindRank(kind: string): nat
  {
    if kind == Cashback then 0 else if kind == Loan then 1 else 2
  }

  /** At most one cashback, then at most one loan, then at most one insurance offer:
      no kind appears twice. */
  lemma RulesDistinctKinds(c: seq<Candidate>, l: seq<Candidate>, s: seq<Candidate>)
    requires |c| <= 1 && |l| <= 1 && |s| <= 1
    requires forall x :: x in c ==> x.kind == Cashback
    requires forall x :: x in l ==> x.kind == Loan
    requires forall x :: x in s ==> x.kind == Insurance
    ensures forall i, j :: 0 <= i < j < |c + l + s| ==> (c + l + s)[i].kind != (c + l + s)[j].kind
  {
    var r := c + l + s;
    forall i | 0 <= i < |r|
      ensures KindRank(r[i].kind) == if i < |c| then 0 else if i < |c| + |l| then 1 else 2
    {
      if i < |c| {
        assert r[i] == c[i] && c[i] in c;
      } else if i < |c| + |l| {
        assert r[i] == l[i - |c|] && l[i - |c|] in l;
      } else {
        assert r[i] == s[i - |c| - |l|] && s[i - |c| - |l|] in s;
      }
    }
  }

  /** The loan rule restated on the transactions: a loan offer exactly when the
      month's outflow exceeds 500. */
  lemma LoanOffered(window: seq<Transaction>)
    ensures Candidate(Loan, LoanRate(1.5, 5000.0, 12)) in Candidates(window) <==> Outflow(window) > 500.0
  {
    var g := Group(CategoryPairs(window));
    var loan := Candidate(Loan, LoanRate(1.5, 5000.0, 12));
    var c, l, s := CashbackRule(g), LoanRule(g), InsuranceRule(g);
    assert Candidates(window) == c + l + s;
    assert loan !in c && loan !in s;
    assert loan in l <==> Sum(Values(g)) > 500.0;
    CategoryTotalsPartitionOutflow(window);
  }

  /** The insurance rule restated on the transactions: an insurance offer exactly when
      "Transporte" has outflow above 200; a category without outflow compares false. */
  lemma InsuranceOffered(window: seq<Transaction>)
    ensures Candidate(Insurance, InsuranceDiscount(20.0, "auto", "completa")) in Candidates(window)
      <==> TransportCategory in Keys(CategoryPairs(window)) && KeyTotal(CategoryPairs(window), TransportCategory) > 200.0
  {
    var g := Group(CategoryPairs(window));
    var insurance := Candidate(Insurance, InsuranceDiscount(20.0, "auto", "completa"));
    var c, l, s := CashbackRule(g), LoanRule(g), InsuranceRule(g);
    assert Candidates(window) == c + l + s;
    assert insurance !in c && insurance !in l;
    assert insurance in s <==> Lookup(g, TransportCategory).Some? && Lookup(g, TransportCategory).value > 200.0;
    GroupLookup(CategoryPairs(window), TransportCategory);
  }

  /** A month without outflow proposes nothing. */
  lemma NoOutflowNoOffers(window: seq<Transaction>)
    requires CategoryPairs(window) == []
    ensures Candidates(window) == []
  {
    var g := Group(CategoryPairs(window));
    assert g == [];
    assert Sum(Values(g)) == 0.0;
  }

  /** The cashback offer names a category whose outflow no other category exceeds. */
  lemma CashbackTargetsTopCategory(window: seq<Transaction>, category: string)
    requires Candidate(Cashback, CategoryBoost(category, 5.0)) in Candidates(window)
    ensures category in Keys(CategoryPairs(window))
    ensures forall k :: k in Keys(CategoryPairs(window)) ==>
      KeyTotal(CategoryPairs(window), k) <= KeyTotal(CategoryPairs(window), category)
  {
    var xs := CategoryPairs(window);
    CashbackNamesTop(window, category);
    TopEntryHoldsMost(xs, TopIndex(Group(xs)));
  }

  /** The only cashback candidate names the top entry of the grouping. */
  lemma CashbackNamesTop(window: seq<Transaction>, category: string)
    requires Candidate(Cashback, CategoryBoost(category, 5.0)) in Candidates(window)
    ensures Group(CategoryPairs(window)) != []
    ensures category == Group(CategoryPairs(window))[TopIndex(Group(CategoryPairs(window)))].0
  {
    var g := Group(CategoryPairs(window));
    var c, l, s := CashbackRule(g), LoanRule(g), InsuranceRule(g);
    assert Candidates(window) == c + l + s;
    var cashback := Candidate(Cashback, CategoryBoost(category, 5.0));
    assert cashback !in l && cashback !in s;
    assert cashback in c;
  }

  /** An entry no other entry exceeds holds the greatest total among the keys. */
  lemma TopEntryHoldsMost(xs: seq<(string, real)>, i: nat)
    requires i < |Group(xs)|
    requires forall j :: 0 <= j < |Group(xs)| ==> Group(xs)[j].1 <= Group(xs)[i].1
    ensures Group(xs)[i].0 in Keys(xs)
    ensures forall k :: k in Keys(xs) ==> KeyTotal(xs, k) <= KeyTotal(xs, Group(xs)[i].0)
  {
    EntryIsKeyTotal(xs, i);
    forall k | k in Keys(xs) ensures KeyTotal(xs, k) <= KeyTotal(xs, Group(xs)[i].0) {
      var j := KeyTotalIsEntry(xs, k);
    }
  }

  // ---------------------------------------------------------------- dedupe

  /** The user's active offers of the given kind. */
  function ActiveCount(offers: seq<Offer>, user: string, kind: string): nat
  {
    if offers == [] then 0
    else
      var o := offers[|offers| - 1];
      ActiveCount(offers[..|offers| - 1], user, kind) + if o.userId == user && o.kind == kind && o.active then 1 else 0
  }

  lemma ActiveCountSnoc(offers: seq<Offer>, o: Offer, user: string, kind: string)
    ensures ActiveCount(offers + [o], user, kind)
         == ActiveCount(offers, user, kind) + if o.userId == user && o.kind == kind && o.active then 1 else 0
  {
    assert (offers + [o])[..|offers|] == offers;
  }

  /** The check as written: `.select("id")...single()` yields a row only when exactly one
      matches, so the candidate is inserted unless the count is exactly one. */
  predicate InsertsAsWritten(offers: seq<Offer>, user: string, kind: string)
  {
    ActiveCount(offers, user, kind) != 1
  }

  /** The check as intended: insert only when no active offer of that kind exists. */
  predicate Inserts(offers: seq<Offer>, user: string, kind: string)
  {
    ActiveCount(offers, user, kind) == 0
  }

  /** As written, once two active offers of a kind exist every run adds another. */
  lemma AsWrittenAddsThird()
    ensures var a := Offer(1, "u", Cashback, CategoryBoost("Lazer", 5.0), true);
      var b := Offer(2, "u", Cashback, CategoryBoost("Lazer", 5.0), true);
      var c := Offer(3, "u", Cashback, CategoryBoost("Lazer", 5.0), true);
      && InsertsAsWritten([a, b], "u", Cashback)
      && ActiveCount([a, b] + [c], "u", Cashback) == 3
      && !Inserts([a, b], "u", Cashback)
  {
    var a := Offer(1, "u", Cashback, CategoryBoost("Lazer", 5.0), true);
    var b := Offer(2, "u", Cashback, CategoryBoost("Lazer", 5.0), true);
    var c := Offer(3, "u", Cashback, CategoryBoost("Lazer", 5.0), true);
    assert [a, b][..1] == [a];
    assert [a][..0] == [];
    assert ActiveCount([a], "u", Cashback) == 1;
    assert ActiveCount([a, b], "u", Cashback) == 2;
    ActiveCountSnoc([a, b], c, "u", Cashback);
  }

  /** The intended check never creates a second active offer of a kind. */
  lemma InsertKeepsAtMostOne(offers: seq<Offer>, o: Offer, user: string, kind: string)
    requires ActiveCount(offers, user, kind) <= 1
    requires o.userId == user && o.kind == kind ==> Inserts(offers, user, kind)
    ensures ActiveCount(offers + [o], user, kind) <= 1
  {
    ActiveCountSnoc(offers, o, user, kind);
  }

  /** One iteration of the loop: the candidate is inserted when the user has no active
      offer of its kind. */
  method OfferIfNone(db: Db, user: string, c: Candidate)
    modifies db
    ensures Inserts(old(db.offers), user, c.kind) ==>
      db.offers == old(db.offers) + [Offer(old(db.nextId), user, c.kind, c.details, true)]
    ensures !Inserts(old(db.offers), user, c.kind) ==> db.offers == old(db.offers)
    ensures forall k ::
      ActiveCount(db.offers, user, k)
      == ActiveCount(old(db.offers), user, k) + if k == c.kind && Inserts(old(db.offers), user, k) then 1 else 0
    ensures db.accounts == old(db.accounts) && db.transactions == old(db.transactions) && db.logs == old(db.logs)
    ensures db.insights == old(db.insights) && db.goals == old(db.goals)
  {
    if ActiveCount(db.offers, user, c.kind) == 0 {
      var o := db.AddOffer(user, c.kind, c.details);
      forall k ensures ActiveCount(db.offers, user, k)
        == ActiveCount(old(db.offers), user, k) + if k == c.kind && Inserts(old(db.offers), user, k) then 1 else 0
      {
        ActiveCountSnoc(old(db.offers), o, user, k);
      }
    }
  }

  /** The number of active offers of kind k once the candidates of the given kinds have
      been offered: one when there was none and the kind was offered. */
  function CountAfter(before: nat, offered: bool): nat
  {
    if offered && before == 0 then 1 else before
  }

  /** `offers` is `base` followed by active offers of the user made from the candidates. */
  ghost predicate Appended(offers: seq<Offer>, base: seq<Offer>, user: string, cs: seq<Candidate>)
  {
    |offers| >= |base| && offers[..|base|] == base
    && forall j :: |base| <= j < |offers| ==>
      offers[j].userId == user && offers[j].active && Candidate(offers[j].kind, offers[j].details) in cs
  }

  /** The active counts once the given kinds have been offered. */
  ghost predicate Counted(offers: seq<Offer>, base: seq<Offer>, user: string, kinds: set<string>)
  {
    forall k :: ActiveCount(offers, user, k) == CountAfter(ActiveCount(base, user, k), k in kinds)
  }

  lemma AppendedStep(before: seq<Offer>, after: seq<Offer>, base: seq<Offer>, user: string, cs: seq<Candidate>, c: Candidate, id: nat)
    requires Appended(before, base, user, cs)
    requires after == before || after == before + [Offer(id, user, c.kind, c.details, true)]
    ensures Appended(after, base, user, cs + [c])
  {
    assert after[..|base|] == before[..|base|];
    forall j | |base| <= j < |after|
      ensures after[j].userId == user && after[j].active && Candidate(after[j].kind, after[j].details) in cs + [c]
    {
      if j < |before| {
        assert after[j] == before[j];
      }
    }
  }

  lemma CountedStep(before: seq<Offer>, after: seq<Offer>, base: seq<Offer>, user: string, kinds: set<string>, c: Candidate)
    requires Counted(before, base, user, kinds)
    requires c.kind !in kinds
    requires forall k ::
      ActiveCount(after, user, k)
      == ActiveCount(before, user, k) + if k == c.kind && Inserts(before, user, k) then 1 else 0
    ensures Counted(after, base, user, kinds + {c.kind})
  {
    forall k ensures ActiveCount(after, user, k) == CountAfter(ActiveCount(base, user, k), k in kinds + {c.kind}) {
      assert ActiveCount(before, user, k) == CountAfter(ActiveCount(base, user, k), k in kinds);
    }
  }

  lemma CandidatesStep(candidates: seq<Candidate>, i: int)
    requires 0 <= i < |candidates|
    ensures candidates[..i + 1] == candidates[..i] + [candidates[i]]
    ensures KindsOf(candidates[..i + 1]) == KindsOf(candidates[..i]) + {candidates[i].kind}
  {
    assert candidates[..i + 1] == candidates[..i] + [candidates[i]];
  }

  /** `gerarOfertasPersonalizadas`: the candidates in order, each inserted when the user
      has no active offer of its kind. */
  method GenerateOffers(db: Db, user: string, window: seq<Transaction>)
    modifies db
    ensures |db.offers| >= |old(db.offers)| && db.offers[..|old(db.offers)|] == old(db.offers)
    ensures forall i :: |old(db.offers)| <= i < |db.offers| ==>
      db.offers[i].userId == user && db.offers[i].active
      && Candidate(db.offers[i].kind, db.offers[i].details) in Candidates(window)
    ensures forall k ::
      ActiveCount(db.offers, user, k)
      == CountAfter(ActiveCount(old(db.offers), user, k), k in KindsOf(Candidates(window)))
    ensures db.accounts == old(db.accounts) && db.transactions == old(db.transactions) && db.logs == old(db.logs)
    ensures db.insights == old(db.insights) && db.goals == old(db.goals)
  {
    var candidates := SpendCandidates(window);
    OfferEach(db, user, candidates);
  }

  /** The loop over `novasOfertas`: each candidate in order, inserted when the user has no
      active offer of its kind. */
  method OfferEach(db: Db, user: string, candidates: seq<Candidate>)
    requires forall j, l :: 0 <= j < l < |candidates| ==> candidates[j].kind != candidates[l].kind
    modifies db
    ensures Appended(db.offers, old(db.offers), user, candidates)
    ensures Counted(db.offers, old(db.offers), user, KindsOf(candidates))
    ensures db.accounts == old(db.accounts) && db.transactions == old(db.transactions) && db.logs == old(db.logs)
    ensures db.insights == old(db.insights) && db.goals == old(db.goals)
  {
    var i := 0;
    while i < |candidates|
      invariant 0 <= i <= |candidates|
      invariant Appended(db.offers, old(db.offers), user, candidates[..i])
      invariant Counted(db.offers, old(db.offers), user, KindsOf(candidates[..i]))
      invariant db.accounts == old(db.accounts) && db.transactions == old(db.transactions) && db.logs == old(db.logs)
      invariant db.insights == old(db.insights) && db.goals == old(db.goals)
    {
      ghost var before := db.offers;
      ghost var id := db.nextId;
      OfferIfNone(db, user, candidates[i]);
      OfferStep(before, db.offers, old(db.offers), user, candidates, i, id);
      i := i + 1;
    }
    assert candidates[..|candidates|] == candidates;
  }

  /** One iteration keeps both invariants, one candidate further on. */
  lemma OfferStep(before: seq<Offer>, after: seq<Offer>, base: seq<Offer>, user: string,
                  candidates: seq<Candidate>, i: int, id: nat)
    requires 0 <= i < |candidates|
    requires forall j, l :: 0 <= j < l < |candidates| ==> candidates[j].kind != candidates[l].kind
    requires Appended(before, base, user, candidates[..i])
    requires Counted(before, base, user, KindsOf(candidates[..i]))
    requires Inserts(before, user, candidates[i].kind) ==>
      after == before + [Offer(id, user, candidates[i].kind, candidates[i].details, true)]
    requires !Inserts(before, user, candidates[i].kind) ==> after == before
    requires forall k ::
      ActiveCount(after, user, k)
      == ActiveCount(before, user, k) + if k == candidates[i].kind && Inserts(before, user, k) then 1 else 0
    ensures Appended(after, base, user, candidates[..i + 1])
    ensures Counted(after, base, user, KindsOf(candidates[..i + 1]))
  {
    var c := candidates[i];
    FreshKind(candidates, i);
    CandidatesStep(candidates, i);
    AppendedStep(before, after, base, user, candidates[..i], c, id);
    CountedStep(before, after, base, user, KindsOf(candidates[..i]), c);
  }

  /** The kinds of a list of candidates. */
  function KindsOf(cs: seq<Candidate>): set<string>
  {
    set c | c in cs :: c.kind
  }

  /** Before candidate i, its kind has not been offered yet: the kinds are distinct. */
  lemma FreshKind(candidates: seq<Candidate>, i: int)
    requires 0 <= i < |candidates|
    requires forall j, l :: 0 <= j < l < |candidates| ==> candidates[j].kind != candidates[l].kind
    ensures candidates[i].kind !in KindsOf(candidates[..i])
  {
    forall c | c in candidates[..i] ensures c.kind != candidates[i].kind {
      var j :| 0 <= j < i && candidates[..i][j] == c;
      assert candidates[j] == c;
    }
  }

  /** A run never creates a second active offer of a kind, and after it every proposed
      kind has an active offer. */
  lemma GenerateKeepsAtMostOne(before: nat, offered: bool)
    ensures before <= 1 ==> CountAfter(before, offered) <= 1
    ensures offered ==> CountAfter(before, offered) >= 1
    ensures before >= 1 ==> CountAfter(before, offered) == before
  {
  }

  /** `gastosPorCategoria` filled in a `forEach`, then the rules. */
  method SpendCandidates(window: seq<Transaction>) returns (r: seq<Candidate>)
    ensures r == Candidates(window)
    ensures forall j, l :: 0 <= j < l < |r| ==> r[j].kind != r[l].kind
  {
    var g := SpendByCategory(window);
    r := CashbackRule(g) + LoanRule(g) + InsuranceRule(g);
  }

  // ---------------------------------------------------------------- the page

  /** The user's active offers, newest first (`order("criado_em", { ascending: false })`). */
  function ActiveOffers(offers: seq<Offer>, user: string): (r: seq<Offer>)
    ensures forall o :: o in r <==> o in offers && o.userId == user && o.active
  {
    if offers == [] then []
    else
      var o := offers[0];
      assert forall x :: x in offers <==> x == o || x in offers[1..];
      ActiveOffers(offers[1..], user) + if o.userId == user && o.active then [o] else []
  }

  /** Dismissing an offer hides exactly that offer: it leaves the list and every other
      listed offer stays. */
  lemma DismissHidesOnlyThatOffer(offers: seq<Offer>, user: string, id: nat)
    requires forall i, j :: 0 <= i < j < |offers| ==> offers[i].id != offers[j].id
    ensures forall o :: o in ActiveOffers(Deactivated(offers, id), user) ==> o.id != id
    ensures forall o :: o in ActiveOffers(offers, user) && o.id != id ==> o in ActiveOffers(Deactivated(offers, id), user)
  {
    var d := Deactivated(offers, id);
    forall o | o in ActiveOffers(d, user) ensures o.id != id {
      var i :| 0 <= i < |d| && d[i] == o;
    }
    forall o | o in ActiveOffers(offers, user) && o.id != id ensures o in d {
      var i :| 0 <= i < |offers| && offers[i] == o;
      assert d[i] == o;
    }
  }

  const OfferRemoved := "Oferta removida"
  const OfferNotRemoved := "Erro ao remover oferta"

  class OffersPage {
    var listed: seq<Offer>
    var notice: string

    constructor ()
      ensures listed == [] && notice == ""
    {
      listed := [];
      notice := "";
    }

    /** `fetchOfertas`; a failed query leaves the list as it was. */
    method Load(db: Db, user: string, failed: bool)
      modifies this
      ensures listed == if failed then old(listed) else ActiveOffers(db.offers, user)
      ensures notice == old(notice)
    {
      if !failed {
        listed := ActiveOffers(db.offers, user);
      }
    }

    /** `desativarOferta`, then the list is fetched again. */
    method Dismiss(db: Db, user: string, id: nat, failed: bool)
      modifies this, db
      ensures failed ==> db.offers == old(db.offers) && listed == old(listed) && notice == OfferNotRemoved
      ensures !failed ==>
        db.offers == Deactivated(old(db.offers), id) && notice == OfferRemoved
        && listed == ActiveOffers(db.offers, user)
      ensures db.accounts == old(db.accounts) && db.transactions == old(db.transactions) && db.logs == old(db.logs)
      ensures db.insights == old(db.insights) && db.goals == old(db.goals) && db.nextId == old(db.nextId)
    {
      if failed {
        notice := OfferNotRemoved;
        return;
      }
      db.DeactivateOffer(id);
      notice := OfferRemoved;
      Load(db, user, false);
    }
  }
}
