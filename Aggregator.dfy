/** Folding a list of purchase transactions into one points summary per
    customer, sorted by customer id. */
module Aggregator {
  import opened Points

  /** One purchase: who made it, in which month, and for how much. */
  datatype Transaction = Transaction(customerId: int, month: int, purchaseAmount: real)

  /** The per-customer record: points for months 1, 2 and 3 and their total. */
  datatype CustomerSummary = CustomerSummary(
    customerId: int,
    monthOnePts: int,
    monthTwoPts: int,
    monthThreePts: int,
    totalPts: int)

  /** The record created the first time a customer id is seen: all fields zero
      but the id. It is the record of a customer with no transactions, both
      while scanning and once finished. */
  function NewCustomer(id: int): (c: CustomerSummary)
    ensures c == Accumulated([], id)
    ensures c == ExpectedSummary([], id)
  {
    CustomerSummary(id, 0, 0, 0, 0)
  }

  // ---------------------------------------------------------------------------
  // Specification

  /** Points transaction `t` brings to the month-`month` bucket of customer `id`. */
  function Contribution(t: Transaction, id: int, month: int): (pts: int)
  {
    if t.customerId == id && t.month == month then CalculatePoints(t.purchaseAmount) else 0
  }

  /** Sum of the points of the transactions in `txs` of customer `id` in month `month`. */
  function MonthTotal(txs: seq<Transaction>, id: int, month: int): (total: int)
    ensures total >= 0
  {
    if txs == [] then 0
    else MonthTotal(txs[..|txs| - 1], id, month) + Contribution(txs[|txs| - 1], id, month)
  }

  /** The distinct customer ids occurring in `txs`. */
  function CustomerIds(txs: seq<Transaction>): (ids: set<int>)
  {
    set t | t in txs :: t.customerId
  }

  /** The finished summary that customer `id` must get from `txs`. */
  function ExpectedSummary(txs: seq<Transaction>, id: int): (s: CustomerSummary)
  {
    var one, two, three := MonthTotal(txs, id, 1), MonthTotal(txs, id, 2), MonthTotal(txs, id, 3);
    CustomerSummary(id, one, two, three, one + two + three)
  }

  /** Records sorted by customer id, with equal ids allowed. */
  predicate SortedById(s: seq<CustomerSummary>)
  {
    forall i, j :: 0 <= i < j < |s| ==> s[i].customerId <= s[j].customerId
  }

  /** Records sorted strictly by customer id, so no id occurs twice. */
  predicate StrictlySortedById(s: seq<CustomerSummary>)
  {
    forall i, j :: 0 <= i < j < |s| ==> s[i].customerId < s[j].customerId
  }

  /** The customer ids of a list of records. */
  function SummaryIds(out: seq<CustomerSummary>): (ids: set<int>)
  {
    set s | s in out :: s.customerId
  }

  /** `out` is a correct result for `txs`: strictly ascending by customer id,
      exactly one record per customer id of `txs`, and every record holding
      that customer's month sums and their total. */
  predicate IsSummaryOf(txs: seq<Transaction>, out: seq<CustomerSummary>)
  {
    && StrictlySortedById(out)
    && SummaryIds(out) == CustomerIds(txs)
    && forall s :: s in out ==> s == ExpectedSummary(txs, s.customerId)
  }

  // ---------------------------------------------------------------------------
  // The routine

  /** The record of customer `id` while transactions are still being scanned:
      the month sums so far and a total not yet computed. */
  function Accumulated(txs: seq<Transaction>, id: int): (c: CustomerSummary)
  {
    CustomerSummary(id, MonthTotal(txs, id, 1), MonthTotal(txs, id, 2), MonthTotal(txs, id, 3), 0)
  }

  /** Builds the sorted per-customer summary of `data`: accumulate points into
      a map keyed by customer id, then set each total, then sort by id. */
  method ProcessTransactionData(data: seq<Transaction>) returns (sortedCustomers: seq<CustomerSummary>)
    ensures IsSummaryOf(data, sortedCustomers)
    ensures forall s :: s in sortedCustomers ==>
              s.totalPts == s.monthOnePts + s.monthTwoPts + s.monthThreePts
  {
    var customers, insertionOrder := AccumulatePoints(data);

    // Finalise every record's total, visiting the map in insertion order.
    var customersArray: seq<CustomerSummary> := [];
    for k := 0 to |insertionOrder|
      invariant |customersArray| == k
      invariant forall j :: 0 <= j < k ==> customersArray[j] == ExpectedSummary(data, insertionOrder[j])
    {
      assert insertionOrder[k] in insertionOrder;
      var customer := customers[insertionOrder[k]];
      customer := customer.(totalPts := customer.monthOnePts + customer.monthTwoPts + customer.monthThreePts);
      customersArray := customersArray + [customer];
    }
    assert SummaryIds(customersArray) == CustomerIds(data) by {
      forall c ensures c in SummaryIds(customersArray) <==> c in CustomerIds(data) {
        if c in CustomerIds(data) {
          var j :| 0 <= j < |insertionOrder| && insertionOrder[j] == c;
          assert customersArray[j] in customersArray;
        }
      }
    }

    // Sort by customer id, in place.
    var a := new CustomerSummary[|customersArray|](j requires 0 <= j < |customersArray| => customersArray[j]);
    assert a[..] == customersArray;
    SortByCustomerId(a);
    sortedCustomers := a[..];
    SortedRecordsAreSummary(data, customersArray, sortedCustomers);
  }

  /** The first pass: one record per customer id, created zeroed on first
      sight, with every transaction's points added to its month's bucket.
      Also returns the ids in the order they were first seen. */
  method AccumulatePoints(data: seq<Transaction>)
    returns (customers: map<int, CustomerSummary>, insertionOrder: seq<int>)
    ensures customers.Keys == CustomerIds(data)
    ensures forall j :: 0 <= j < |insertionOrder| ==> insertionOrder[j] in customers
    ensures forall id :: id in customers ==> id in insertionOrder
    ensures forall j, k :: 0 <= j < k < |insertionOrder| ==> insertionOrder[j] != insertionOrder[k]
    ensures forall id :: id in customers ==> customers[id] == Accumulated(data, id)
  {
    customers := map[];
    insertionOrder := [];
    for i := 0 to |data|
      invariant customers.Keys == CustomerIds(data[..i])
      invariant forall j :: 0 <= j < |insertionOrder| ==> insertionOrder[j] in customers
      invariant forall id :: id in customers ==> id in insertionOrder
      invariant forall j, k :: 0 <= j < k < |insertionOrder| ==> insertionOrder[j] != insertionOrder[k]
      invariant forall id :: id in customers ==> customers[id] == Accumulated(data[..i], id)
    {
      var transaction := data[i];
      var id := transaction.customerId;
      if id !in customers {
        assert Accumulated(data[..i], id) == NewCustomer(id) by {
          UnseenCustomerHasNoPoints(data[..i], id);
        }
        customers := customers[id := NewCustomer(id)];
        insertionOrder := insertionOrder + [id];
      }
      var currentCustomer := customers[id];
      var points := CalculatePoints(transaction.purchaseAmount);
      match transaction.month {
        case 1 =>
          currentCustomer := currentCustomer.(monthOnePts := currentCustomer.monthOnePts + points);
        case 2 =>
          currentCustomer := currentCustomer.(monthTwoPts := currentCustomer.monthTwoPts + points);
        case 3 =>
          currentCustomer := currentCustomer.(monthThreePts := currentCustomer.monthThreePts + points);
        case _ =>
      }
      assert currentCustomer == Accumulated(data[..i + 1], id) by {
        AccumulatedStep(data, i, id);
      }
      customers := customers[id := currentCustomer];
      assert customers.Keys == CustomerIds(data[..i + 1]) by {
        IdsStep(data, i);
      }
      forall c | c in customers ensures customers[c] == Accumulated(data[..i + 1], c) {
        if c != id {
          OtherCustomerUnchanged(data, i, c);
        }
      }
    }
    assert data[..|data|] == data;
  }

  /** Sorts `a` ascending by customer id by insertion sort. */
  method SortByCustomerId(a: array<CustomerSummary>)
    modifies a
    ensures SortedById(a[..])
    ensures multiset(a[..]) == old(multiset(a[..]))
  {
    var i := 0;
    while i < a.Length
      invariant 0 <= i <= a.Length
      invariant forall p, q :: 0 <= p < q < i ==> a[p].customerId <= a[q].customerId
      invariant multiset(a[..]) == old(multiset(a[..]))
    {
      var j := i;
      while j > 0 && a[j - 1].customerId > a[j].customerId
        invariant 0 <= j <= i
        invariant forall p, q :: 0 <= p < q <= i && q != j ==> a[p].customerId <= a[q].customerId
        invariant forall p, q :: 0 <= p < j < q <= i ==> a[p].customerId <= a[q].customerId
        invariant multiset(a[..]) == old(multiset(a[..]))
      {
        SwapAdjacent(a, j);
        j := j - 1;
      }
      i := i + 1;
    }
  }

  /** Exchanges `a[j - 1]` and `a[j]`. */
  method SwapAdjacent(a: array<CustomerSummary>, j: int)
    requires 0 < j < a.Length
    modifies a
    ensures a[j - 1] == old(a[j]) && a[j] == old(a[j - 1])
    ensures forall p :: 0 <= p < a.Length && p != j - 1 && p != j ==> a[p] == old(a[p])
    ensures multiset(a[..]) == old(multiset(a[..]))
  {
    a[j - 1], a[j] := a[j], a[j - 1];
  }

  // ---------------------------------------------------------------------------
  // Lemmas

  /** Scanning one more transaction adds exactly its contribution. */
  lemma PrefixStep(txs: seq<Transaction>, i: int, id: int, month: int)
    requires 0 <= i < |txs|
    ensures MonthTotal(txs[..i + 1], id, month) == MonthTotal(txs[..i], id, month) + Contribution(txs[i], id, month)
  {
    assert txs[..i + 1][..i] == txs[..i];
  }

  /** Scanning one more transaction adds its customer id. */
  lemma IdsStep(txs: seq<Transaction>, i: int)
    requires 0 <= i < |txs|
    ensures CustomerIds(txs[..i + 1]) == CustomerIds(txs[..i]) + {txs[i].customerId}
  {
  }

  /** Scanning one more transaction adds its points to the bucket of its own
      month in its own customer's record, and changes nothing else. */
  lemma AccumulatedStep(txs: seq<Transaction>, i: int, id: int)
    requires 0 <= i < |txs|
    ensures var before, after := Accumulated(txs[..i], id), Accumulated(txs[..i + 1], id);
            && after.customerId == before.customerId == id
            && after.monthOnePts == before.monthOnePts + Contribution(txs[i], id, 1)
            && after.monthTwoPts == before.monthTwoPts + Contribution(txs[i], id, 2)
            && after.monthThreePts == before.monthThreePts + Contribution(txs[i], id, 3)
            && after.totalPts == before.totalPts == 0
  {
    PrefixStep(txs, i, id, 1);
    PrefixStep(txs, i, id, 2);
    PrefixStep(txs, i, id, 3);
  }

  /** Scanning one more transaction leaves every other customer's record as it was. */
  lemma OtherCustomerUnchanged(txs: seq<Transaction>, i: int, id: int)
    requires 0 <= i < |txs| && id != txs[i].customerId
    ensures Accumulated(txs[..i + 1], id) == Accumulated(txs[..i], id)
  {
    AccumulatedStep(txs, i, id);
  }

  /** A customer without transactions has no points in any month. */
  lemma {:induction false} UnseenCustomerHasNoPoints(txs: seq<Transaction>, id: int)
    requires id !in CustomerIds(txs)
    ensures forall m :: MonthTotal(txs, id, m) == 0
  {
    if txs != [] {
      var init := txs[..|txs| - 1];
      assert CustomerIds(init) <= CustomerIds(txs) by {
        forall c | c in CustomerIds(init) ensures c in CustomerIds(txs) {
          var t :| t in init && t.customerId == c;
          assert t in txs;
        }
      }
      UnseenCustomerHasNoPoints(init, id);
      assert txs[|txs| - 1] in txs;
    }
  }

  /** No customer id occurs at two positions of `s`. */
  predicate DistinctIds(s: seq<CustomerSummary>)
  {
    forall j, k :: 0 <= j < k < |s| ==> s[j].customerId != s[k].customerId
  }

  /** In a list without repeated ids, every record occurs at most once. */
  lemma {:induction false} DistinctIdsOccurOnce(s: seq<CustomerSummary>)
    requires DistinctIds(s)
    ensures forall x :: multiset(s)[x] <= 1
  {
    if s != [] {
      var init := s[..|s| - 1];
      assert s == init + [s[|s| - 1]];
      DistinctIdsOccurOnce(init);
      assert s[|s| - 1] !in init;
    }
  }

  /** A record found at two positions occurs at least twice. */
  lemma TwoPositionsTwoOccurrences(s: seq<CustomerSummary>, i: int, j: int)
    requires 0 <= i < j < |s| && s[i] == s[j]
    ensures multiset(s)[s[i]] >= 2
  {
    assert s == s[..j] + [s[j]] + s[j + 1..];
    assert s[..j][i] == s[i];
  }

  /** A sorted permutation of records that each occur once, and whose records
      are determined by their ids, is strictly sorted. */
  lemma SortedDistinctIsStrict(sorted: seq<CustomerSummary>, original: seq<CustomerSummary>)
    requires SortedById(sorted)
    requires multiset(sorted) == multiset(original)
    requires forall x :: multiset(original)[x] <= 1
    requires forall s, t :: s in sorted && t in sorted && s.customerId == t.customerId ==> s == t
    ensures StrictlySortedById(sorted)
  {
    forall i, j | 0 <= i < j < |sorted| ensures sorted[i].customerId < sorted[j].customerId {
      if sorted[i].customerId == sorted[j].customerId {
        TwoPositionsTwoOccurrences(sorted, i, j);
        assert false;
      }
    }
  }

  /** Sorting the finished records, one per customer id of `txs`, gives the
      correct summary of `txs`. */
  lemma SortedRecordsAreSummary(txs: seq<Transaction>, records: seq<CustomerSummary>, sorted: seq<CustomerSummary>)
    requires forall s :: s in records ==> s == ExpectedSummary(txs, s.customerId)
    requires forall j, k :: 0 <= j < k < |records| ==> records[j] != records[k]
    requires SummaryIds(records) == CustomerIds(txs)
    requires SortedById(sorted)
    requires multiset(sorted) == multiset(records)
    ensures IsSummaryOf(txs, sorted)
  {
    assert forall s :: s in sorted <==> s in records by {
      forall s ensures s in sorted <==> s in records {
        assert s in sorted <==> s in multiset(sorted);
        assert s in records <==> s in multiset(records);
      }
    }
    assert DistinctIds(records) by {
      forall j, k | 0 <= j < k < |records|
        ensures records[j].customerId != records[k].customerId
      {
        assert records[j] in records && records[k] in records;
      }
    }
    DistinctIdsOccurOnce(records);
    SortedDistinctIsStrict(sorted, records);
  }

  /** Two strictly increasing id lists with the same ids are equal. */
  lemma {:induction false} IncreasingIdsUnique(a: seq<CustomerSummary>, b: seq<CustomerSummary>)
    requires StrictlySortedById(a) && StrictlySortedById(b)
    requires SummaryIds(a) == SummaryIds(b)
    ensures |a| == |b|
    ensures forall i :: 0 <= i < |a| ==> a[i].customerId == b[i].customerId
  {
    if a == [] || b == [] {
      FirstIdIsAnId(a);
      FirstIdIsAnId(b);
    } else {
      assert a[0].customerId in SummaryIds(b);
      assert b[0].customerId in SummaryIds(a);
      assert a[0].customerId == b[0].customerId;
      assert SummaryIds(a[1..]) == SummaryIds(a) - {a[0].customerId} by {
        assert a == [a[0]] + a[1..];
      }
      assert SummaryIds(b[1..]) == SummaryIds(b) - {b[0].customerId} by {
        assert b == [b[0]] + b[1..];
      }
      IncreasingIdsUnique(a[1..], b[1..]);
    }
  }

  /** The id of the first record of a non-empty list is one of its ids. */
  lemma FirstIdIsAnId(s: seq<CustomerSummary>)
    ensures s != [] ==> s[0].customerId in SummaryIds(s)
  {
  }

  /** A transaction list has exactly one correct summary. */
  lemma SummaryIsUnique(txs: seq<Transaction>, out1: seq<CustomerSummary>, out2: seq<CustomerSummary>)
    requires IsSummaryOf(txs, out1) && IsSummaryOf(txs, out2)
    ensures out1 == out2
  {
    IncreasingIdsUnique(out1, out2);
    forall i | 0 <= i < |out1| ensures out1[i] == out2[i] {
      assert out1[i] in out1 && out2[i] in out2;
    }
  }

  /** Taking out the transaction at position k takes out exactly its contribution. */
  lemma {:induction false} MonthTotalRemove(txs: seq<Transaction>, k: int, id: int, month: int)
    requires 0 <= k < |txs|
    ensures MonthTotal(txs, id, month) == MonthTotal(txs[..k] + txs[k + 1..], id, month) + Contribution(txs[k], id, month)
  {
    var n := |txs|;
    if k == n - 1 {
      assert txs[..k] + txs[k + 1..] == txs[..n - 1];
    } else {
      var init := txs[..n - 1];
      MonthTotalRemove(init, k, id, month);
      var rest := txs[..k] + txs[k + 1..];
      assert rest == (init[..k] + init[k + 1..]) + [txs[n - 1]];
      assert rest[..|rest| - 1] == init[..k] + init[k + 1..];
    }
  }

  /** Taking the last transaction off one list and the same transaction off a
      reordering of it leaves reorderings of each other. */
  lemma RemoveMatchingElement(s: seq<Transaction>, t: seq<Transaction>, k: int)
    requires multiset(s) == multiset(t)
    requires s != [] && 0 <= k < |t| && t[k] == s[|s| - 1]
    ensures multiset(s[..|s| - 1]) == multiset(t[..k] + t[k + 1..])
  {
    var x := s[|s| - 1];
    assert s == s[..|s| - 1] + [x];
    assert t == t[..k] + [x] + t[k + 1..];
    assert multiset(t[..k] + t[k + 1..]) == multiset(t) - multiset{x};
  }

  /** A month sum does not depend on the order of the transactions. */
  lemma {:induction false} MonthTotalPermutation(s: seq<Transaction>, t: seq<Transaction>, id: int, month: int)
    requires multiset(s) == multiset(t)
    ensures MonthTotal(s, id, month) == MonthTotal(t, id, month)
    decreases |s|
  {
    if s == [] {
      assert |t| == |multiset(t)| == 0;
    } else {
      var x := s[|s| - 1];
      assert x in multiset(t) by {
        assert x in s;
      }
      var k :| 0 <= k < |t| && t[k] == x;
      RemoveMatchingElement(s, t, k);
      MonthTotalRemove(t, k, id, month);
      MonthTotalPermutation(s[..|s| - 1], t[..k] + t[k + 1..], id, month);
    }
  }

  /** Any reordering of the transactions has the same correct summaries. */
  lemma PermutationPreservesSummary(d1: seq<Transaction>, d2: seq<Transaction>, out: seq<CustomerSummary>)
    requires multiset(d1) == multiset(d2)
    requires IsSummaryOf(d1, out)
    ensures IsSummaryOf(d2, out)
  {
    assert CustomerIds(d1) == CustomerIds(d2) by {
      forall t ensures t in d1 <==> t in d2 {
        assert t in d1 <==> t in multiset(d1);
        assert t in d2 <==> t in multiset(d2);
      }
    }
    forall c, m ensures MonthTotal(d1, c, m) == MonthTotal(d2, c, m) {
      MonthTotalPermutation(d1, d2, c, m);
    }
  }

  /** The result of the routine does not depend on the order of its input. */
  lemma SummaryIsOrderIndependent(d1: seq<Transaction>, d2: seq<Transaction>,
                                  out1: seq<CustomerSummary>, out2: seq<CustomerSummary>)
    requires multiset(d1) == multiset(d2)
    requires IsSummaryOf(d1, out1) && IsSummaryOf(d2, out2)
    ensures out1 == out2
  {
    PermutationPreservesSummary(d1, d2, out1);
    SummaryIsUnique(d2, out1, out2);
  }

  /** A transaction in a month other than 1, 2 or 3 changes no customer's
      record; it only makes its customer appear. */
  lemma UnrecognizedMonthAddsNothing(txs: seq<Transaction>, t: Transaction, id: int)
    requires t.month != 1 && t.month != 2 && t.month != 3
    ensures ExpectedSummary(txs + [t], id) == ExpectedSummary(txs, id)
    ensures CustomerIds(txs + [t]) == CustomerIds(txs) + {t.customerId}
  {
  }

  /** A transaction in month 1, 2 or 3 adds its points to that month of its
      own customer and to nothing else. */
  lemma RecognizedMonthAddsToItsBucket(txs: seq<Transaction>, t: Transaction, id: int, month: int)
    requires month == 1 || month == 2 || month == 3
    ensures MonthTotal(txs + [t], id, month) ==
            MonthTotal(txs, id, month) + (if id == t.customerId && month == t.month then CalculatePoints(t.purchaseAmount) else 0)
  {
  }

  /** No transactions, no records. */
  lemma EmptyInput()
    ensures IsSummaryOf([], [])
  {
  }

  /** Two purchases by customer 1 and a small one by customer 2. */
  lemma ThreeTransactionExample()
    ensures IsSummaryOf(
              [Transaction(1, 1, 120.0), Transaction(1, 2, 75.0), Transaction(2, 1, 10.0)],
              [CustomerSummary(1, 90, 25, 0, 115), CustomerSummary(2, 0, 0, 0, 0)])
  {
    var t0 := [Transaction(1, 1, 120.0)];
    var t1 := t0 + [Transaction(1, 2, 75.0)];
    var txs := t1 + [Transaction(2, 1, 10.0)];
    assert txs == [Transaction(1, 1, 120.0), Transaction(1, 2, 75.0), Transaction(2, 1, 10.0)];
    assert t0[..0] == [] && t1[..1] == t0 && txs[..2] == t1;
    assert CalculatePoints(120.0) == 90 && CalculatePoints(75.0) == 25 && CalculatePoints(10.0) == 0;
    assert MonthTotal(t0, 1, 1) == 90 && MonthTotal(t0, 1, 2) == 0 && MonthTotal(t0, 1, 3) == 0;
    assert MonthTotal(t0, 2, 1) == 0 && MonthTotal(t0, 2, 2) == 0 && MonthTotal(t0, 2, 3) == 0;
    assert MonthTotal(t1, 1, 1) == 90 && MonthTotal(t1, 1, 2) == 25 && MonthTotal(t1, 1, 3) == 0;
    assert MonthTotal(t1, 2, 1) == 0 && MonthTotal(t1, 2, 2) == 0 && MonthTotal(t1, 2, 3) == 0;
    assert ExpectedSummary(txs, 1) == CustomerSummary(1, 90, 25, 0, 115);
    assert ExpectedSummary(txs, 2) == CustomerSummary(2, 0, 0, 0, 0);
    assert CustomerIds(txs) == {1, 2} by {
      assert txs[0] in txs && txs[2] in txs;
    }
    assert SummaryIds([CustomerSummary(1, 90, 25, 0, 115), CustomerSummary(2, 0, 0, 0, 0)]) == {1, 2};
  }

  /** A customer whose only purchase falls in month 4 still gets a record,
      with zero points everywhere. */
  lemma UnrecognizedMonthExample()
    ensures IsSummaryOf([Transaction(3, 4, 200.0)], [CustomerSummary(3, 0, 0, 0, 0)])
  {
    var txs := [Transaction(3, 4, 200.0)];
    assert CustomerIds(txs) == {3} by {
      assert txs[0] in txs;
    }
    assert SummaryIds([CustomerSummary(3, 0, 0, 0, 0)]) == {3};
  }
}
