/**
 * The per-category aggregation behind the pie chart (`TransactionsChartData`):
 * persisted transactions are converted to records, then one pass adds every
 * amount to a grand total and to its category's subtotal.
 */
module ChartData {
  import opened Transactions

  /** The chart state: the converted records, their total, and a subtotal per category. */
  datatype ChartData = ChartData(
    transactions: seq<Transaction>,
    totalTransactionsAmount: int,
    categoryAmounts: map<string, int>)

  /** The state before `init` runs: no records, a zero total, no subtotals. */
  const EmptyChart := ChartData([], 0, map[])

  /* ---------------- Reference definitions ---------------- */

  /** The sum of all amounts. */
  function Sum(ts: seq<Transaction>): int
    decreases |ts|
  {
    if |ts| == 0 then 0 else Sum(ts[..|ts| - 1]) + ts[|ts| - 1].amount
  }

  /** The sum of the amounts of the records whose category is `c`. */
  function CategorySum(ts: seq<Transaction>, c: string): int
    decreases |ts|
  {
    if |ts| == 0 then 0
    else CategorySum(ts[..|ts| - 1], c) + (if ts[|ts| - 1].category == c then ts[|ts| - 1].amount else 0)
  }

  /** The categories that occur in `ts`. */
  function Categories(ts: seq<Transaction>): set<string>
  {
    set i | 0 <= i < |ts| :: ts[i].category
  }

  /** The records of persisted transactions, in order. */
  function Records(objects: seq<StoredTransaction>): (ts: seq<Transaction>)
    ensures |ts| == |objects|
    ensures forall i :: 0 <= i < |objects| ==> ts[i] == objects[i].record
    decreases |objects|
  {
    if |objects| == 0 then [] else [objects[0].record] + Records(objects[1..])
  }

  /** A dictionary read with `?? 0`. */
  function Lookup(m: map<string, int>, c: string): int
  {
    if c in m then m[c] else 0
  }

  /** Some key of a non-empty map. */
  ghost function PickKey(m: map<string, int>): (k: string)
    requires m != map[]
    ensures k in m
  {
    var k :| k in m; k
  }

  /** The sum of the values of a map. */
  ghost function MapSum(m: map<string, int>): int
    decreases |m|
  {
    if m == map[] then 0
    else
      var k := PickKey(m);
      assert (m - {k}).Keys == m.Keys - {k};
      m[k] + MapSum(m - {k})
  }

  /** The sum of a map's values may start from any key. */
  lemma {:induction false} MapSumRemove(m: map<string, int>, k: string)
    requires k in m
    ensures MapSum(m) == m[k] + MapSum(m - {k})
    decreases |m|
  {
    var j := PickKey(m);
    if j != k {
      assert (m - {j}).Keys == m.Keys - {j};
      assert (m - {k}).Keys == m.Keys - {k};
      MapSumRemove(m - {j}, k);
      MapSumRemove(m - {k}, j);
      assert m - {j} - {k} == m - {k} - {j};
    }
  }

  /** Overwriting one entry changes the sum of values by the difference. */
  lemma MapSumUpdate(m: map<string, int>, k: string, v: int)
    ensures MapSum(m[k := v]) == MapSum(m) - Lookup(m, k) + v
  {
    MapSumRemove(m[k := v], k);
    assert m[k := v] - {k} == m - {k};
    if k in m {
      MapSumRemove(m, k);
    } else {
      assert m - {k} == m;
    }
  }

  /** Extending a prefix by one record extends every reference value by that record. */
  lemma PrefixStep(ts: seq<Transaction>, i: int)
    requires 0 <= i < |ts|
    ensures Sum(ts[..i + 1]) == Sum(ts[..i]) + ts[i].amount
    ensures forall c :: CategorySum(ts[..i + 1], c) == CategorySum(ts[..i], c) + (if ts[i].category == c then ts[i].amount else 0)
    ensures Categories(ts[..i + 1]) == Categories(ts[..i]) + {ts[i].category}
  {
    var p, q := ts[..i], ts[..i + 1];
    assert q[..i] == p && q[i] == ts[i];
    forall c | c in Categories(q) ensures c in Categories(p) + {ts[i].category} {
      var j :| 0 <= j < i + 1 && q[j].category == c;
      if j < i { assert p[j] == q[j]; }
    }
    forall c | c in Categories(p) ensures c in Categories(q) {
      var j :| 0 <= j < i && p[j].category == c;
      assert q[j] == p[j];
    }
  }

  /** The effect of adding one record's amount into its category's entry. */
  lemma AddToCategory(m: map<string, int>, t: Transaction)
    ensures var m' := m[t.category := Lookup(m, t.category) + t.amount];
      && m'.Keys == m.Keys + {t.category}
      && (forall c :: Lookup(m', c) == Lookup(m, c) + (if t.category == c then t.amount else 0))
      && MapSum(m') == MapSum(m) + t.amount
  {
    MapSumUpdate(m, t.category, Lookup(m, t.category) + t.amount);
  }

  /* ---------------- The operations ---------------- */

  /**
   * `convertTransactions`: appends one record per persisted transaction, in
   * order, read through the four record keys.
   */
  method ConvertTransactions(d: ChartData, transactionData: seq<StoredTransaction>) returns (r: ChartData)
    ensures r.transactions == d.transactions + Records(transactionData)
    ensures r.totalTransactionsAmount == d.totalTransactionsAmount
    ensures r.categoryAmounts == d.categoryAmounts
  {
    r := d;
    for i := 0 to |transactionData|
      invariant r.transactions == d.transactions + Records(transactionData[..i])
      invariant r.totalTransactionsAmount == d.totalTransactionsAmount
      invariant r.categoryAmounts == d.categoryAmounts
    {
      var transaction := transactionData[i];
      var newTransaction := Transaction(
        ValueForKey(transaction, Date).date, ValueForKey(transaction, Category).text,
        ValueForKey(transaction, Amount).amount, ValueForKey(transaction, Vendor).text);
      assert newTransaction == transaction.record;
      assert Records(transactionData[..i + 1]) == Records(transactionData[..i]) + [transaction.record];
      r := r.(transactions := r.transactions + [newTransaction]);
    }
    assert transactionData[..|transactionData|] == transactionData;
  }

  /** `calculateTotalTransactionsAmount`: the total becomes the sum of all amounts; nothing else changes. */
  method CalculateTotalTransactionsAmount(d: ChartData) returns (r: ChartData)
    ensures r.totalTransactionsAmount == Sum(d.transactions)
    ensures r.transactions == d.transactions && r.categoryAmounts == d.categoryAmounts
  {
    var ts := d.transactions;
    var total := 0;
    for i := 0 to |ts|
      invariant total == Sum(ts[..i])
    {
      assert ts[..i + 1][..i] == ts[..i];
      total := total + ts[i].amount;
    }
    assert ts[..|ts|] == ts;
    r := d.(totalTransactionsAmount := total);
  }

  /**
   * `calculateCategoryAmounts`: adds every amount into its category's entry,
   * on top of whatever the map already held; with `calculateTotal` the total
   * is reset and recomputed, otherwise it is left alone.
   */
  method CalculateCategoryAmounts(d: ChartData, calculateTotal: bool) returns (r: ChartData)
    ensures r.transactions == d.transactions
    ensures r.categoryAmounts.Keys == d.categoryAmounts.Keys + Categories(d.transactions)
    ensures forall c :: Lookup(r.categoryAmounts, c) == Lookup(d.categoryAmounts, c) + CategorySum(d.transactions, c)
    ensures r.totalTransactionsAmount == if calculateTotal then Sum(d.transactions) else d.totalTransactionsAmount
    ensures MapSum(r.categoryAmounts) == MapSum(d.categoryAmounts) + Sum(d.transactions)
  {
    var ts := d.transactions;
    var amounts := d.categoryAmounts;
    var total := if calculateTotal then 0 else d.totalTransactionsAmount;
    for i := 0 to |ts|
      invariant amounts.Keys == d.categoryAmounts.Keys + Categories(ts[..i])
      invariant forall c :: Lookup(amounts, c) == Lookup(d.categoryAmounts, c) + CategorySum(ts[..i], c)
      invariant total == if calculateTotal then Sum(ts[..i]) else d.totalTransactionsAmount
      invariant MapSum(amounts) == MapSum(d.categoryAmounts) + Sum(ts[..i])
    {
      var t := ts[i];
      PrefixStep(ts, i);
      AddToCategory(amounts, t);
      amounts := amounts[t.category := Lookup(amounts, t.category) + t.amount];
      if calculateTotal {
        total := total + t.amount;
      }
    }
    assert ts[..|ts|] == ts;
    r := ChartData(ts, total, amounts);
  }

  /**
   * `init`: converts the persisted transactions and aggregates them. The total
   * is the sum of all amounts, the keys are exactly the categories that occur,
   * each subtotal is its category's sum, and the subtotals add up to the total.
   */
  method Init(transactionData: seq<StoredTransaction>) returns (r: ChartData)
    ensures r.transactions == Records(transactionData)
    ensures r.totalTransactionsAmount == Sum(r.transactions)
    ensures r.categoryAmounts.Keys == Categories(r.transactions)
    ensures forall c :: c in r.categoryAmounts ==> r.categoryAmounts[c] == CategorySum(r.transactions, c)
    ensures MapSum(r.categoryAmounts) == r.totalTransactionsAmount
    ensures transactionData == [] ==> r.totalTransactionsAmount == 0 && r.categoryAmounts == map[]
  {
    var converted := ConvertTransactions(EmptyChart, transactionData);
    assert converted.transactions == Records(transactionData);
    r := CalculateCategoryAmounts(converted, true);
    assert r.categoryAmounts.Keys == {} + Categories(r.transactions);
    forall c | c in r.categoryAmounts ensures r.categoryAmounts[c] == CategorySum(r.transactions, c) {
      assert Lookup(r.categoryAmounts, c) == CategorySum(r.transactions, c);
    }
  }

  /* ---------------- Properties ---------------- */

  lemma {:induction false} SumConcat(a: seq<Transaction>, b: seq<Transaction>)
    ensures Sum(a + b) == Sum(a) + Sum(b)
    ensures forall c :: CategorySum(a + b, c) == CategorySum(a, c) + CategorySum(b, c)
    decreases |b|
  {
    if |b| == 0 {
      assert a + b == a;
    } else {
      var b' := b[..|b| - 1];
      assert (a + b)[..|a + b| - 1] == a + b';
      assert (a + b)[|a + b| - 1] == b[|b| - 1];
      SumConcat(a, b');
    }
  }

  /**
   * The total and every category's subtotal depend only on which records
   * there are, not on their order.
   */
  lemma {:induction false} SumsIgnoreOrder(a: seq<Transaction>, b: seq<Transaction>)
    requires multiset(a) == multiset(b)
    ensures Sum(a) == Sum(b)
    ensures forall c :: CategorySum(a, c) == CategorySum(b, c)
    decreases |a|
  {
    if |a| == 0 {
      assert |b| == |multiset(b)| == 0;
    } else {
      var x, a' := a[|a| - 1], a[..|a| - 1];
      assert multiset(a') == multiset(a) - multiset{x} by {
        assert a == a' + [x];
      }
      assert x in multiset(b) by {
        assert x in multiset(a);
      }
      var j :| 0 <= j < |b| && b[j] == x;
      var b' := b[..j] + b[j + 1..];
      assert multiset(b') == multiset(b) - multiset{x} by {
        assert b == b[..j] + [x] + b[j + 1..];
      }
      SumsIgnoreOrder(a', b');
      SumsWithout(b, j);
    }
  }

  /** Taking one record out of a list takes its amount out of the total and out of its category's sum. */
  lemma SumsWithout(b: seq<Transaction>, j: int)
    requires 0 <= j < |b|
    ensures Sum(b) == Sum(b[..j] + b[j + 1..]) + b[j].amount
    ensures forall c :: CategorySum(b, c) == CategorySum(b[..j] + b[j + 1..], c) + (if b[j].category == c then b[j].amount else 0)
  {
    var x := b[j];
    assert b == (b[..j] + [x]) + b[j + 1..];
    SumConcat(b[..j] + [x], b[j + 1..]);
    SumConcat(b[..j], [x]);
    SumConcat(b[..j], b[j + 1..]);
    SumOne(x);
  }

  lemma SumOne(x: Transaction)
    ensures Sum([x]) == x.amount
    ensures forall c :: CategorySum([x], c) == if x.category == c then x.amount else 0
  {
    assert [x][..0] == [];
  }

  /** Grocery 50.00, Grocery 30.00 and Gas 20.00 total 100.00, with Grocery 80.00 and Gas 20.00. */
  lemma AggregationScenario()
    ensures var ts := [Transaction(0, "Grocery", 5000, "Market"), Transaction(0, "Grocery", 3000, "Market"),
                       Transaction(0, "Gas", 2000, "Station")];
      && Sum(ts) == 10000
      && Categories(ts) == {"Grocery", "Gas"}
      && CategorySum(ts, "Grocery") == 8000
      && CategorySum(ts, "Gas") == 2000
  {
    var ts := [Transaction(0, "Grocery", 5000, "Market"), Transaction(0, "Grocery", 3000, "Market"),
               Transaction(0, "Gas", 2000, "Station")];
    assert "Grocery" != "Gas";
    assert ts[..0] == [];
    assert Categories(ts[..0]) == {};
    PrefixStep(ts, 0);
    PrefixStep(ts, 1);
    PrefixStep(ts, 2);
    assert ts[..3] == ts;
    assert CategorySum(ts[..1], "Grocery") == 5000 && CategorySum(ts[..1], "Gas") == 0;
    assert CategorySum(ts[..2], "Grocery") == 8000 && CategorySum(ts[..2], "Gas") == 0;
  }
}
