# Loyalty points: points rule and per-customer aggregation

This project models the computational core of a small loyalty-points
dashboard (`src/App.js`). It has two parts:

- **`calculatePoints`**: turns one purchase amount into whole points. The
  amount is floored to whole dollars. Each dollar from 51 to 100 earns one
  point, and each dollar above 100 earns two. So 50 gives 0, 100 gives 50,
  101 gives 52 and 120 gives 90.
- **`processTransactionData`**: folds a list of transactions
  `{customer_id, month, purchase_amount}` into one summary record per
  customer. It keeps a map from customer id to record, creating a zeroed record
  for each new id. It adds each transaction's points to the bucket of month 1,
  2 or 3 and ignores any other month. It then sets each record's total to the
  sum of its three buckets and sorts the records ascending by customer id.

`Points.dfy` holds the points rule as a function. Beside it is an independent
dollar-by-dollar definition (`PointsPerDollar`, the sum of the per-dollar
rates given in the comment at `src/App.js:26-28`), which is proved equal to the
rule.

`Aggregator.dfy` holds the aggregation as a method. The method scans the
input once into a `map<int, CustomerSummary>` and a list of its keys in
insertion order, because a JavaScript `Map` iterates in insertion order. It
finalises each total, copies the records into an array and sorts the array in
place with an insertion sort. The method is proved against the predicate
`IsSummaryOf(txs, out)`, which requires that:

- `out` is strictly ascending by id;
- its ids are exactly the ids of `txs`;
- every record holds that customer's three month sums and their total.

Separate lemmas prove three things about this predicate:

- It allows only one output per input.
- It does not depend on the order of the transactions.
- A transaction with an unrecognised month changes no bucket.

The model takes customer ids and months as integers, and amounts as
mathematical reals floored with `.Floor`.

Negative amounts are not rejected. For them the code takes neither branch of
the rule, so they earn 0 points. `CalculatePoints` does the same: it is total,
returns 0 for every amount whose floor is at most 50, and ensures
`points >= 0`.

## Model

| member | source | states |
|---|---|---|
| `Points.CalculatePoints` | src/App.js:29-47 | points are never negative, and they are zero exactly when the floored amount is at most 50, including negative amounts |
| `Points.PointsPerDollarIsTiered` | src/App.js:26-47 | for every whole amount n, the tiered formula equals the sum over dollars 1..n of 1 point per dollar in 51..100 and 2 points per dollar above 100 |
| `Points.CalculatePointsIsPerDollarSum` | src/App.js:26-47 | for every real amount, the points equal that dollar-by-dollar sum taken up to the floored amount |
| `Points.FractionIsIgnored` | src/App.js:31 | an amount and its floor earn the same points |
| `Points.Tiers` | src/App.js:30-46 | floor at most 50 gives 0; floor in 51..100 gives floor - 50; floor above 100 gives 50 + 2 * (floor - 100) |
| `Points.PointsPerDollarMonotone` | src/App.js:26-28 | the dollar-by-dollar sum never decreases as dollars are added |
| `Points.CalculatePointsMonotone` | src/App.js:29-47 | a larger amount never earns fewer points |
| `Points.BoundaryCases` | src/App.js:29-47 | 45.99, 50, 50.99 and -3.5 give 0; 51 gives 1; 100 and 100.5 give 50; 101 gives 52; 120 gives 90 |
| `Aggregator.MonthTotal` | src/App.js:60-75 | a customer's month bucket, the sum of the points of their transactions in that month, is never negative |
| `Aggregator.ProcessTransactionData` | src/App.js:50-93 | the result has one record per distinct customer id of the input, including customers seen only in unrecognised months; it is strictly ascending by id; each record's month-k bucket, for k in 1..3, is the sum of the points of exactly that customer's month-k transactions; each total is the sum of the three buckets |
| `Aggregator.NewCustomer` | src/App.js:55-56 | the record made the first time an id is seen: that id, and zero in every bucket and in the total, which is exactly the record of a customer with no transactions |
| `Aggregator.AccumulatePoints` | src/App.js:52-76 | after the first pass the map has exactly the customer ids of the input as keys; the insertion-order list holds each key once; each record holds that customer's month sums and a total of 0, not yet computed |
| `Aggregator.SortByCustomerId` | src/App.js:87-89 | after the in-place sort the array is ascending by customer id and is a permutation of the array before |
| `Aggregator.UnseenCustomerHasNoPoints` | src/App.js:54-58 | a customer with no transactions so far has zero in every bucket, so the zeroed record created on first sight is the right starting point |
| `Aggregator.IdsStep` | src/App.js:54-58 | scanning one more transaction adds exactly its customer id to the set of ids seen |
| `Aggregator.AccumulatedStep` | src/App.js:60-75 | scanning one more transaction adds its points to the bucket of its month in its customer's record, and changes no other field |
| `Aggregator.OtherCustomerUnchanged` | src/App.js:60-75 | scanning one more transaction leaves every other customer's record as it was |
| `Aggregator.SortedRecordsAreSummary` | src/App.js:80-89 | sorting the finished records, one per customer id, gives a list that is strictly ascending by id and is the correct summary |
| `Aggregator.PrefixStep` | src/App.js:60-75 | scanning one more transaction adds its points to its own customer's bucket for its month and to nothing else |
| `Aggregator.RecognizedMonthAddsToItsBucket` | src/App.js:63-72 | appending a transaction adds its points to its own customer's bucket for its month (1, 2 or 3) and leaves every other bucket unchanged |
| `Aggregator.UnrecognizedMonthAddsNothing` | src/App.js:63-75 | appending a transaction whose month is not 1, 2 or 3 changes no customer's record; it only adds its customer id to the set of ids |
| `Aggregator.IncreasingIdsUnique` | src/App.js:87-89 | two strictly ascending record lists with the same set of ids have the same ids at every position |
| `Aggregator.SummaryIsUnique` | src/App.js:80-89 | a transaction list has exactly one correct summary list |
| `Aggregator.MonthTotalRemove` | src/App.js:53-76 | removing the transaction at any position removes exactly its contribution from a bucket |
| `Aggregator.MonthTotalPermutation` | src/App.js:53-76 | a bucket sum is the same for any reordering of the transactions |
| `Aggregator.PermutationPreservesSummary` | src/App.js:53-89 | a correct summary of a transaction list is also a correct summary of any reordering of it |
| `Aggregator.SummaryIsOrderIndependent` | src/App.js:50-93 | any reordering of the input gives the same result |
| `Aggregator.EmptyInput` | src/App.js:50-93 | no transactions give no records |
| `Aggregator.ThreeTransactionExample` | src/App.js:50-93 | customer 1 buying 120 in month 1 and 75 in month 2, and customer 2 buying 10 in month 1, give records (1, 90, 25, 0, 115) and (2, 0, 0, 0, 0) |
| `Aggregator.UnrecognizedMonthExample` | src/App.js:53-84 | a customer whose only purchase is in month 4 still gets a record, with zero in every field |

## Left out

- The React component is not modelled: `useState`, `useEffect` and the JSX table rendering (`src/App.js:15-24`, `src/App.js:105-144`) are presentation only.
- `setCustomerPointsData` (`src/App.js:92`) is not modelled. Storing the result in component state becomes the method's return value.
- `fetchTransactionData` (`src/App.js:96-103`) is not modelled. It covers the JSON import, the `await` and the 1.5-second `setTimeout`, which are I/O and timing. The transactions are a parameter instead.
- `simulated-data.json` is not part of this model.
- IEEE-754 doubles are not modelled. Amounts are exact reals, so `Math.floor` on huge or non-finite values is not covered. NaN from non-numeric amounts or ids is not covered either.
- Customer ids are taken as integers. Non-integer numeric ids and string ids are not covered. The comparator `a.customerId - b.customerId` would order non-integer numbers and numeric strings too, but it returns NaN for non-numeric strings.
- Months are integers. Values such as the string `"1"` or the non-integer `1.5` are not covered. The source's `switch` uses strict equality, so it ignores them like any other unrecognised month.
- The JavaScript engine's sort algorithm is not modelled. It is replaced by an insertion sort with the same specification: ascending by id, and a permutation of the input. With distinct ids the result is the same whatever the algorithm.
- The model does not copy the prototype pattern. The source creates each new record with `Object.create(customerData)`, so unset fields are read through a shared default object. The model builds an explicitly zeroed record instead, which has the same observable values because `+=` only writes the new object's own fields.
- `ProcessTransactionData` does not model a side effect of the finalising loop. In the source, that loop writes `totalPts` into the very objects held by the map. The model writes the total into a copy, which is the record pushed to the array. The map is not observable after the routine returns.
