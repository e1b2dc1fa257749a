/** Transactions as the analyses read them, their totals, and the per-key
    grouping that the source builds in plain JavaScript objects. */
module Ledger {
  import opened Prelude

  /** The `tipo` column: "entrada" (inflow), "saida" (outflow) or anything else. */
  datatype Kind = Entrada | Saida | OtherKind(name: string)

  /** One row returned by a transactions query. The calendar facts derived from
      its `data` timestamp relative to the current clock are carried as fields:
      `day` is `getDate()`, `weekday` is `getDay()` (0 = Sunday, 6 = Saturday),
      `ageDays` is the time elapsed since it, in days. */
  datatype Transaction = Transaction(
    amount: real,
    kind: Kind,
    category: string,
    mode: string,
    day: int,
    weekday: int,
    ageDays: real)

  const Trabalho := "trabalho"
  const Pessoal := "pessoal"

  /** `txs.filter(t => t.tipo === k).reduce((s, t) => s + t.valor, 0)` */
  function Total(txs: seq<Transaction>, k: Kind): real
  {
    if txs == [] then 0.0
    else Total(txs[..|txs| - 1], k) + (if txs[|txs| - 1].kind == k then txs[|txs| - 1].amount else 0.0)
  }

  function Outflow(txs: seq<Transaction>): real { Total(txs, Saida) }

  function Inflow(txs: seq<Transaction>): real { Total(txs, Entrada) }

  lemma {:induction false} TotalAppend(a: seq<Transaction>, b: seq<Transaction>, k: Kind)
    ensures Total(a + b, k) == Total(a, k) + Total(b, k)
  {
    if b == [] {
      assert a + b == a;
    } else {
      assert (a + b)[..|a + b| - 1] == a + b[..|b| - 1];
      TotalAppend(a, b[..|b| - 1], k);
    }
  }

  /** Recording one more transaction moves exactly one of the totals, by its amount:
      the outflow for "saida", the inflow for "entrada", neither for any other type. */
  lemma RecordingMovesOneTotal(txs: seq<Transaction>, t: Transaction)
    ensures Outflow(txs + [t]) == Outflow(txs) + (if t.kind == Saida then t.amount else 0.0)
    ensures Inflow(txs + [t]) == Inflow(txs) + (if t.kind == Entrada then t.amount else 0.0)
  {
    assert (txs + [t])[..|txs + [t]| - 1] == txs;
  }

  lemma {:induction false} TotalNonNegative(txs: seq<Transaction>, k: Kind)
    requires forall i :: 0 <= i < |txs| ==> txs[i].amount >= 0.0
    ensures Total(txs, k) >= 0.0
  {
    if txs != [] {
      TotalNonNegative(txs[..|txs| - 1], k);
    }
  }

  /** The `(categoria, valor)` pairs of the outflows, in row order. */
  function CategoryPairs(txs: seq<Transaction>): (r: seq<(string, real)>)
    ensures |r| <= |txs|
  {
    if txs == [] then []
    else
      var t := txs[|txs| - 1];
      CategoryPairs(txs[..|txs| - 1]) + (if t.kind == Saida then [(t.category, t.amount)] else [])
  }

  /** The `(day of month, valor)` pairs of the outflows, in row order. */
  function DayPairs(txs: seq<Transaction>): seq<(int, real)>
  {
    if txs == [] then []
    else
      var t := txs[|txs| - 1];
      DayPairs(txs[..|txs| - 1]) + (if t.kind == Saida then [(t.day, t.amount)] else [])
  }

  function Keys<K>(g: seq<(K, real)>): (r: seq<K>)
    ensures |r| == |g| && forall i :: 0 <= i < |g| ==> r[i] == g[i].0
  {
    seq(|g|, i requires 0 <= i < |g| => g[i].0)
  }

  function Values<K>(g: seq<(K, real)>): (r: seq<real>)
    ensures |r| == |g| && forall i :: 0 <= i < |g| ==> r[i] == g[i].1
  {
    seq(|g|, i requires 0 <= i < |g| => g[i].1)
  }

  ghost predicate DistinctKeys<K>(g: seq<(K, real)>)
  {
    forall i, j :: 0 <= i < j < |g| ==> g[i].0 != g[j].0
  }

  /** `obj[k]`: the value stored under k, if any. */
  function Lookup<K(==)>(g: seq<(K, real)>, k: K): Option<real>
  {
    if g == [] then None
    else if g[0].0 == k then Some(g[0].1)
    else Lookup(g[1..], k)
  }

  /** A key is found exactly when it is one of the keys. */
  lemma {:induction false} LookupFound<K>(g: seq<(K, real)>, k: K)
    ensures Lookup(g, k).Some? <==> k in Keys(g)
  {
    if g != [] && g[0].0 != k {
      assert Keys(g) == [g[0].0] + Keys(g[1..]);
      LookupFound(g[1..], k);
    }
  }

  /** `obj[k] || 0` */
  function LookupOrZero<K(==)>(g: seq<(K, real)>, k: K): real
  {
    match Lookup(g, k)
    case Some(v) => v
    case None => 0.0
  }

  /** `obj[k] = (obj[k] || 0) + v`: updates the entry for k in place, or appends
      a new entry at the end (a JavaScript object keeps insertion order). */
  function Add<K(==)>(g: seq<(K, real)>, k: K, v: real): (r: seq<(K, real)>)
    ensures Keys(r) == if k in Keys(g) then Keys(g) else Keys(g) + [k]
  {
    if g == [] then [(k, v)]
    else if g[0].0 == k then [(k, g[0].1 + v)] + g[1..]
    else
      assert Keys(g) == [g[0].0] + Keys(g[1..]);
      [g[0]] + Add(g[1..], k, v)
  }

  /** Per-key totals of a sequence of pairs, in first-occurrence order of the keys. */
  function Group<K(==)>(xs: seq<(K, real)>): seq<(K, real)>
  {
    if xs == [] then [] else Add(Group(xs[..|xs| - 1]), xs[|xs| - 1].0, xs[|xs| - 1].1)
  }

  /** The sum of the values paired with k. */
  function KeyTotal<K(==)>(xs: seq<(K, real)>, k: K): real
  {
    if xs == [] then 0.0
    else KeyTotal(xs[..|xs| - 1], k) + (if xs[|xs| - 1].0 == k then xs[|xs| - 1].1 else 0.0)
  }

  /** The keys of xs with repetitions removed, each at its first occurrence. */
  function FirstOccurrences<K(==)>(ks: seq<K>): seq<K>
  {
    if ks == [] then []
    else
      var rest := FirstOccurrences(ks[..|ks| - 1]);
      if ks[|ks| - 1] in rest then rest else rest + [ks[|ks| - 1]]
  }

  lemma {:induction false} AddLookup<K>(g: seq<(K, real)>, k: K, v: real, j: K)
    ensures Lookup(Add(g, k, v), j) == if j == k then Some(LookupOrZero(g, k) + v) else Lookup(g, j)
  {
    if g != [] && g[0].0 != k {
      AddLookup(g[1..], k, v, j);
      var tail := Add(g[1..], k, v);
      assert ([g[0]] + tail)[0] == g[0];
      assert ([g[0]] + tail)[1..] == tail;
    }
  }

  lemma ValuesAppend<K>(a: seq<(K, real)>, b: seq<(K, real)>)
    ensures Values(a + b) == Values(a) + Values(b)
  {
  }

  lemma ValuesSnoc<K>(xs: seq<(K, real)>, last: (K, real))
    ensures Values(xs + [last]) == Values(xs) + [last.1]
  {
  }

  lemma SumSnoc<K>(g: seq<(K, real)>)
    requires g != []
    ensures Sum(Values(g)) == Sum(Values(g[..|g| - 1])) + g[|g| - 1].1
  {
    var front := g[..|g| - 1];
    assert g == front + [g[|g| - 1]];
    ValuesSnoc(front, g[|g| - 1]);
  }

  lemma SumCons(x: real, xs: seq<real>)
    ensures Sum([x] + xs) == x + Sum(xs)
  {
    SumAppend([x], xs);
    assert Sum([x]) == Sum([]) + x;
  }

  lemma {:induction false} AddValues<K>(g: seq<(K, real)>, k: K, v: real)
    ensures Sum(Values(Add(g, k, v))) == Sum(Values(g)) + v
  {
    if g == [] {
      assert Values([(k, v)]) == [] + [v];
    } else if g[0].0 == k {
      AddValuesHere(g, k, v);
    } else {
      AddValues(g[1..], k, v);
      AddValuesPast(g, k, v);
    }
  }

  lemma ValuesCons<K>(x: (K, real), rest: seq<(K, real)>)
    ensures Sum(Values([x] + rest)) == x.1 + Sum(Values(rest))
  {
    ValuesAppend([x], rest);
    assert Values([x]) == [x.1];
    SumCons(x.1, Values(rest));
  }

  /** The entry for k is the first one: its value grows by v. */
  lemma AddValuesHere<K>(g: seq<(K, real)>, k: K, v: real)
    requires g != [] && g[0].0 == k
    ensures Sum(Values(Add(g, k, v))) == Sum(Values(g)) + v
  {
    var rest := g[1..];
    var grown := (k, g[0].1 + v);
    assert g == [g[0]] + rest;
    assert Add(g, k, v) == [grown] + rest;
    ValuesCons(g[0], rest);
    ValuesCons(grown, rest);
  }

  /** The entry for k lies further on: the first entry is kept and the rest updated. */
  lemma AddValuesPast<K>(g: seq<(K, real)>, k: K, v: real)
    requires g != [] && g[0].0 != k
    requires Sum(Values(Add(g[1..], k, v))) == Sum(Values(g[1..])) + v
    ensures Sum(Values(Add(g, k, v))) == Sum(Values(g)) + v
  {
    var rest := g[1..];
    var tail := Add(rest, k, v);
    assert g == [g[0]] + rest;
    assert Add(g, k, v) == [g[0]] + tail;
    ValuesCons(g[0], rest);
    ValuesCons(g[0], tail);
  }

  lemma {:induction false} AddDistinct<K>(g: seq<(K, real)>, k: K, v: real)
    requires DistinctKeys(g)
    ensures DistinctKeys(Add(g, k, v))
  {
    var r := Add(g, k, v);
    forall i, j | 0 <= i < j < |r| ensures r[i].0 != r[j].0 {
      assert Keys(r)[i] == r[i].0 && Keys(r)[j] == r[j].0;
      if k in Keys(g) {
        assert Keys(g)[i] == g[i].0 && Keys(g)[j] == g[j].0;
      } else if j < |g| {
        assert Keys(g)[i] == g[i].0 && Keys(g)[j] == g[j].0;
      } else {
        assert Keys(g)[i] == g[i].0;
      }
    }
  }

  /** Grouping yields one entry per distinct key, in first-occurrence order. */
  lemma {:induction false} GroupKeys<K>(xs: seq<(K, real)>)
    ensures Keys(Group(xs)) == FirstOccurrences(Keys(xs))
    ensures DistinctKeys(Group(xs))
  {
    if xs != [] {
      var p := xs[..|xs| - 1];
      GroupKeys(p);
      assert Keys(p) == Keys(xs)[..|xs| - 1];
      AddDistinct(Group(p), xs[|xs| - 1].0, xs[|xs| - 1].1);
    }
  }

  lemma {:induction false} KeyTotalAbsent<K>(xs: seq<(K, real)>, k: K)
    requires k !in Keys(xs)
    ensures KeyTotal(xs, k) == 0.0
  {
    if xs != [] {
      assert Keys(xs[..|xs| - 1]) == Keys(xs)[..|xs| - 1];
      KeyTotalAbsent(xs[..|xs| - 1], k);
    }
  }

  /** Grouping stores under each key exactly the sum of the values paired with it,
      and nothing under a key that never occurs. */
  lemma {:induction false} GroupLookup<K>(xs: seq<(K, real)>, k: K)
    ensures Lookup(Group(xs), k) == if k in Keys(xs) then Some(KeyTotal(xs, k)) else None
  {
    if xs != [] {
      var p := xs[..|xs| - 1];
      var last := xs[|xs| - 1];
      assert xs == p + [last];
      GroupLookup(p, k);
      if k == last.0 {
        GroupLookupLast(p, last);
      } else {
        GroupLookupOther(p, last, k);
      }
    }
  }

  /** Adding a pair at the end: its key's entry grows by its value. */
  lemma GroupLookupLast<K>(p: seq<(K, real)>, last: (K, real))
    requires Lookup(Group(p), last.0) == if last.0 in Keys(p) then Some(KeyTotal(p, last.0)) else None
    ensures last.0 in Keys(p + [last])
    ensures Lookup(Group(p + [last]), last.0) == Some(KeyTotal(p + [last], last.0))
  {
    var xs := p + [last];
    var k := last.0;
    var g := Group(p);
    assert xs[..|xs| - 1] == p;
    assert Keys(xs)[|p|] == k;
    GroupSnoc(p, last);
    AddLookupSame(g, k, last.1);
    if k !in Keys(p) {
      KeyTotalAbsent(p, k);
    }
    var found := Lookup(Group(xs), k);
    var before := KeyTotal(p, k);
    var total := KeyTotal(xs, k);
    assert LookupOrZero(g, k) == before;
    assert total == before + last.1;
    assert found == Lookup(Add(g, k, last.1), k);
    assert found.Some? && found.value == before + last.1;
    assert found.value == total;
  }

  lemma AddLookupSame<K>(g: seq<(K, real)>, k: K, v: real)
    ensures Lookup(Add(g, k, v), k).Some?
    ensures Lookup(Add(g, k, v), k).value == LookupOrZero(g, k) + v
  {
    AddLookup(g, k, v, k);
  }

  /** Adding a pair at the end leaves the entries of other keys alone. */
  lemma GroupLookupOther<K>(p: seq<(K, real)>, last: (K, real), k: K)
    requires k != last.0
    ensures Lookup(Group(p + [last]), k) == Lookup(Group(p), k)
    ensures KeyTotal(p + [last], k) == KeyTotal(p, k)
    ensures k in Keys(p + [last]) <==> k in Keys(p)
  {
    var xs := p + [last];
    assert xs[..|xs| - 1] == p;
    assert Keys(xs) == Keys(p) + [last.0];
    GroupSnoc(p, last);
    AddLookup(Group(p), last.0, last.1, k);
  }

  /** The group totals partition the grand total: they add up to the sum of all values. */
  lemma {:induction false} GroupSum<K>(xs: seq<(K, real)>)
    ensures Sum(Values(Group(xs))) == Sum(Values(xs))
  {
    if xs != [] {
      var p := xs[..|xs| - 1];
      var last := xs[|xs| - 1];
      assert xs == p + [last];
      GroupSum(p);
      var gp := Group(p);
      assert Group(xs) == Add(gp, last.0, last.1);
      AddValues(gp, last.0, last.1);
      ValuesSnoc(p, last);
      SumAppend(Values(p), [last.1]);
      assert Sum([last.1]) == Sum([]) + last.1;
    }
  }

  lemma {:induction false} AddNonNegative<K>(g: seq<(K, real)>, k: K, v: real)
    requires forall i :: 0 <= i < |g| ==> g[i].1 >= 0.0
    requires v >= 0.0
    ensures forall i :: 0 <= i < |Add(g, k, v)| ==> Add(g, k, v)[i].1 >= 0.0
  {
    if g != [] && g[0].0 != k {
      AddNonNegative(g[1..], k, v);
      var tail := Add(g[1..], k, v);
      assert forall i :: 1 <= i < |[g[0]] + tail| ==> ([g[0]] + tail)[i] == tail[i - 1];
    }
  }

  /** Totals of non-negative values are non-negative. */
  lemma {:induction false} GroupNonNegative<K>(xs: seq<(K, real)>)
    requires forall i :: 0 <= i < |xs| ==> xs[i].1 >= 0.0
    ensures forall i :: 0 <= i < |Group(xs)| ==> Group(xs)[i].1 >= 0.0
  {
    if xs != [] {
      GroupNonNegative(xs[..|xs| - 1]);
      AddNonNegative(Group(xs[..|xs| - 1]), xs[|xs| - 1].0, xs[|xs| - 1].1);
    }
  }

  /** The outflow pairs carry exactly the outflow total. */
  lemma {:induction false} CategoryPairsSum(txs: seq<Transaction>)
    ensures Sum(Values(CategoryPairs(txs))) == Outflow(txs)
  {
    if txs != [] {
      var p := txs[..|txs| - 1];
      var t := txs[|txs| - 1];
      CategoryPairsSum(p);
      var extra := if t.kind == Saida then [(t.category, t.amount)] else [];
      assert Values(CategoryPairs(txs)) == Values(CategoryPairs(p)) + Values(extra);
      SumAppend(Values(CategoryPairs(p)), Values(extra));
      if t.kind == Saida {
        assert Values(extra) == [] + [t.amount];
      }
    }
  }

  lemma {:induction false} DayPairsSum(txs: seq<Transaction>)
    ensures Sum(Values(DayPairs(txs))) == Outflow(txs)
  {
    if txs != [] {
      var p := txs[..|txs| - 1];
      var t := txs[|txs| - 1];
      DayPairsSum(p);
      var extra := if t.kind == Saida then [(t.day, t.amount)] else [];
      assert Values(DayPairs(txs)) == Values(DayPairs(p)) + Values(extra);
      SumAppend(Values(DayPairs(p)), Values(extra));
      if t.kind == Saida {
        assert Values(extra) == [] + [t.amount];
      }
    }
  }

  /** Per-category outflow totals add up to the total outflow. */
  lemma CategoryTotalsPartitionOutflow(txs: seq<Transaction>)
    ensures Sum(Values(Group(CategoryPairs(txs)))) == Outflow(txs)
  {
    GroupSum(CategoryPairs(txs));
    CategoryPairsSum(txs);
  }

  /** Each entry of a grouping is a key that occurs, paired with that key's total. */
  lemma EntryIsKeyTotal<K>(xs: seq<(K, real)>, i: nat)
    requires i < |Group(xs)|
    ensures Group(xs)[i].0 in Keys(xs) && Group(xs)[i].1 == KeyTotal(xs, Group(xs)[i].0)
  {
    GroupKeys(xs);
    LookupEntry(Group(xs), i);
    GroupLookup(xs, Group(xs)[i].0);
  }

  /** Each key that occurs has an entry in the grouping, carrying its total. */
  lemma KeyTotalIsEntry<K>(xs: seq<(K, real)>, k: K) returns (i: nat)
    requires k in Keys(xs)
    ensures i < |Group(xs)| && Group(xs)[i] == (k, KeyTotal(xs, k))
  {
    var g := Group(xs);
    GroupKeys(xs);
    GroupLookup(xs, k);
    LookupFound(g, k);
    i :| i < |g| && Keys(g)[i] == k;
    LookupEntry(g, i);
  }

  /** `obj[k] || 0` on a grouping reads the total of the values paired with k. */
  lemma GroupLookupOrZero<K>(xs: seq<(K, real)>, k: K)
    ensures LookupOrZero(Group(xs), k) == KeyTotal(xs, k)
  {
    GroupLookup(xs, k);
    if k !in Keys(xs) {
      KeyTotalAbsent(xs, k);
    }
  }

  /** Every entry of a grouping is found by its own key. */
  lemma {:induction false} LookupEntry<K>(g: seq<(K, real)>, i: int)
    requires DistinctKeys(g) && 0 <= i < |g|
    ensures Lookup(g, g[i].0) == Some(g[i].1)
  {
    if i > 0 {
      assert g[1..][i - 1] == g[i];
      assert g[0].0 != g[i].0;
      LookupEntry(g[1..], i - 1);
    }
  }

  lemma GroupSnoc<K>(xs: seq<(K, real)>, p: (K, real))
    ensures Group(xs + [p]) == Add(Group(xs), p.0, p.1)
  {
    assert (xs + [p])[..|xs|] == xs;
  }

  lemma CategoryPairsStep(txs: seq<Transaction>, i: int)
    requires 0 <= i < |txs|
    ensures CategoryPairs(txs[..i + 1]) ==
      CategoryPairs(txs[..i]) + if txs[i].kind == Saida then [(txs[i].category, txs[i].amount)] else []
  {
    assert txs[..i + 1][..i] == txs[..i];
  }

  lemma DayPairsStep(txs: seq<Transaction>, i: int)
    requires 0 <= i < |txs|
    ensures DayPairs(txs[..i + 1]) ==
      DayPairs(txs[..i]) + if txs[i].kind == Saida then [(txs[i].day, txs[i].amount)] else []
  {
    assert txs[..i + 1][..i] == txs[..i];
  }

  /** One more row adds its outflow to its category's entry. */
  lemma GroupCategoryStep(txs: seq<Transaction>, i: int)
    requires 0 <= i < |txs|
    ensures Group(CategoryPairs(txs[..i + 1])) ==
      if txs[i].kind == Saida then Add(Group(CategoryPairs(txs[..i])), txs[i].category, txs[i].amount)
      else Group(CategoryPairs(txs[..i]))
  {
    CategoryPairsStep(txs, i);
    if txs[i].kind == Saida {
      GroupSnoc(CategoryPairs(txs[..i]), (txs[i].category, txs[i].amount));
    } else {
      assert CategoryPairs(txs[..i + 1]) == CategoryPairs(txs[..i]);
    }
  }

  /** One more row adds its outflow to its day's entry. */
  lemma GroupDayStep(txs: seq<Transaction>, i: int)
    requires 0 <= i < |txs|
    ensures Group(DayPairs(txs[..i + 1])) ==
      if txs[i].kind == Saida then Add(Group(DayPairs(txs[..i])), txs[i].day, txs[i].amount)
      else Group(DayPairs(txs[..i]))
  {
    DayPairsStep(txs, i);
    if txs[i].kind == Saida {
      GroupSnoc(DayPairs(txs[..i]), (txs[i].day, txs[i].amount));
    } else {
      assert DayPairs(txs[..i + 1]) == DayPairs(txs[..i]);
    }
  }

  /** The `forEach` over the outflows that fills `acc[categoria] = (acc[categoria] || 0) + valor`. */
  method SpendByCategory(txs: seq<Transaction>) returns (acc: seq<(string, real)>)
    ensures acc == Group(CategoryPairs(txs))
  {
    acc := [];
    var i := 0;
    while i < |txs|
      invariant 0 <= i <= |txs|
      invariant acc == Group(CategoryPairs(txs[..i]))
    {
      GroupCategoryStep(txs, i);
      if txs[i].kind == Saida {
        acc := Add(acc, txs[i].category, txs[i].amount);
      }
      i := i + 1;
    }
    assert txs[..|txs|] == txs;
  }

  /** The `forEach` over the outflows that fills `acc[dia] = (acc[dia] || 0) + valor`. */
  method SpendByDay(txs: seq<Transaction>) returns (acc: seq<(int, real)>)
    ensures acc == Group(DayPairs(txs))
  {
    acc := [];
    var i := 0;
    while i < |txs|
      invariant 0 <= i <= |txs|
      invariant acc == Group(DayPairs(txs[..i]))
    {
      GroupDayStep(txs, i);
      if txs[i].kind == Saida {
        acc := Add(acc, txs[i].day, txs[i].amount);
      }
      i := i + 1;
    }
    assert txs[..|txs|] == txs;
  }
}
