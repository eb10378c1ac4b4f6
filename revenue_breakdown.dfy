/** The revenue breakdown table (components/RevenueBreakdownModal.tsx): one
    row per invoice with its applied credit and net revenue, a status filter
    and a text search, a sort on date, amount or status, column totals, and
    an optional grouping of the visible rows with per-group sums. */
module RevenueBreakdown {
  import opened Ledger
  import opened Credits
  import opened Text
  import opened Sorting

  /** One table row. */
  datatype Row = Row(
    id: string,
    project: string,
    client: string,
    date: string,
    amount: real,
    status: FinancialStatus,
    appliedCredit: real,
    netRevenue: real)

  // ---------------------------------------------------------------------
  // Rows
  // ---------------------------------------------------------------------

  /** The row of one invoice given the applied-credit dictionary. */
  function ToRow(inv: Invoice, credits: map<string, real>): Row {
    Row(
      id := inv.id,
      project := inv.projectName,
      client := if inv.clientName == "" then "Unknown Client" else inv.clientName,
      date := inv.date,
      amount := inv.amount,
      status := inv.status,
      appliedCredit := Lookup(credits, inv.id),
      netRevenue := if inv.status == FinancialStatus.Paid then NetRevenue(inv, credits) else 0.0)
  }

  /** `invoices.map(...)`: the rows in invoice order. */
  function Rows(invoices: seq<Invoice>, credits: map<string, real>): (rows: seq<Row>)
    ensures |rows| == |invoices|
    ensures forall i :: 0 <= i < |invoices| ==> rows[i] == ToRow(invoices[i], credits)
  {
    seq(|invoices|, i requires 0 <= i < |invoices| => ToRow(invoices[i], credits))
  }

  /** A row shows the total of the applied credit notes naming its invoice;
      its net revenue is that credit taken off the amount and clamped at
      zero for a paid invoice, and zero for any other status; it never
      exceeds the amount when amounts and credits are non-negative. An empty
      client name shows as "Unknown Client". */
  lemma RowFigures(inv: Invoice, notes: seq<CreditNote>)
    ensures var r := ToRow(inv, CreditMap(notes));
      && r.appliedCredit == AppliedCredit(notes, inv.id)
      && (inv.status == FinancialStatus.Paid ==> r.netRevenue == Max(inv.amount - r.appliedCredit, 0.0))
      && (inv.status != FinancialStatus.Paid ==> r.netRevenue == 0.0)
      && r.netRevenue >= 0.0
      && ((inv.amount >= 0.0 && forall i :: 0 <= i < |notes| ==> notes[i].amount >= 0.0) ==> r.netRevenue <= inv.amount)
      && r.client != "" && (inv.clientName != "" ==> r.client == inv.clientName)
  {
    CreditMapIsAppliedSum(notes, inv.id);
    if forall i :: 0 <= i < |notes| ==> notes[i].amount >= 0.0 {
      AppliedCreditNonNegative(notes, inv.id);
    }
  }

  // ---------------------------------------------------------------------
  // Filters
  // ---------------------------------------------------------------------

  /** The status drop-down: 'all' or one status. */
  datatype StatusFilter = AllStatuses | OnlyStatus(status: FinancialStatus)

  predicate PassesStatus(r: Row, filter: StatusFilter) {
    filter.AllStatuses? || r.status == filter.status
  }

  /** The lower-cased query, untrimmed, occurs in the lower-cased id,
      project name or client. */
  predicate MatchesQuery(r: Row, query: string) {
    var q := Lower(query);
    Contains(Lower(r.id), q) || Contains(Lower(r.project), q) || Contains(Lower(r.client), q)
  }

  /** The search only applies when the query is not blank. */
  predicate Visible(r: Row, filter: StatusFilter, query: string) {
    PassesStatus(r, filter) && (|Trim(query)| == 0 || MatchesQuery(r, query))
  }

  /** The status filter, then the search filter, both order-preserving. */
  function VisibleRows(rows: seq<Row>, filter: StatusFilter, query: string): (r: seq<Row>)
    ensures |r| <= |rows|
    ensures forall x :: x in r <==> x in rows && Visible(x, filter, query)
    decreases |rows|
  {
    if rows == [] then []
    else
      var last := rows[|rows| - 1];
      VisibleRows(rows[..|rows| - 1], filter, query) + (if Visible(last, filter, query) then [last] else [])
  }

  /** A status filter keeps only rows of that status; with a blank query
      the status filter alone decides; 'all' with a blank query keeps every
      row in its order. */
  lemma {:induction false} FilterExact(rows: seq<Row>, filter: StatusFilter, query: string)
    ensures filter.OnlyStatus? ==> forall x :: x in VisibleRows(rows, filter, query) ==> x.status == filter.status
    ensures |Trim(query)| == 0 ==> forall x :: x in VisibleRows(rows, filter, query) <==> x in rows && PassesStatus(x, filter)
    ensures |Trim(query)| == 0 && filter == AllStatuses ==> VisibleRows(rows, filter, query) == rows
    decreases |rows|
  {
    if rows != [] {
      FilterExact(rows[..|rows| - 1], filter, query);
      assert rows == rows[..|rows| - 1] + [rows[|rows| - 1]];
    }
  }

  // ---------------------------------------------------------------------
  // Sorting
  // ---------------------------------------------------------------------

  datatype SortKey = ByDate | ByAmount | ByStatus

  datatype SortDir = Asc | Desc

  function DirSign(dir: SortDir): real {
    if dir == Asc then 1.0 else -1.0
  }

  /** The comparator: its sign says which row goes first. Dates are ISO
      `YYYY-MM-DD` strings, which order like the instants they denote. */
  function RowCompare(key: SortKey, dir: SortDir, a: Row, b: Row): real {
    match key
    case ByDate => (Compare(a.date, b.date) as real) * DirSign(dir)
    case ByAmount => (a.amount - b.amount) * DirSign(dir)
    case ByStatus => (Compare(StatusName(a.status), StatusName(b.status)) as real) * DirSign(dir)
  }

  /** `a` may be placed before `b`. */
  predicate InOrder(key: SortKey, dir: SortDir, a: Row, b: Row) {
    RowCompare(key, dir, a, b) <= 0.0
  }

  predicate Ordered(rows: seq<Row>, key: SortKey, dir: SortDir) {
    forall i :: 0 < i < |rows| ==> InOrder(key, dir, rows[i - 1], rows[i])
  }

  /** Any two rows can be placed one way round or the other. */
  lemma InOrderTotal(key: SortKey, dir: SortDir, a: Row, b: Row)
    ensures InOrder(key, dir, a, b) || InOrder(key, dir, b, a)
  {
    CompareAntisymmetric(a.date, b.date);
    CompareAntisymmetric(StatusName(a.status), StatusName(b.status));
  }

  /** The placement order chains. */
  lemma InOrderTransitive(key: SortKey, dir: SortDir, a: Row, b: Row, c: Row)
    requires InOrder(key, dir, a, b) && InOrder(key, dir, b, c)
    ensures InOrder(key, dir, a, c)
  {
    match key
    case ByDate =>
      CompareAntisymmetric(a.date, b.date);
      CompareAntisymmetric(b.date, c.date);
      CompareAntisymmetric(a.date, c.date);
      if dir == Asc {
        CompareTransitive(a.date, b.date, c.date);
      } else {
        CompareTransitive(c.date, b.date, a.date);
      }
    case ByAmount =>
    case ByStatus =>
      var x, y, z := StatusName(a.status), StatusName(b.status), StatusName(c.status);
      CompareAntisymmetric(x, y);
      CompareAntisymmetric(y, z);
      CompareAntisymmetric(x, z);
      if dir == Asc {
        CompareTransitive(x, y, z);
      } else {
        CompareTransitive(z, y, x);
      }
  }

  /** In sorted rows every earlier row is placed correctly against every
      later one: ascending amounts never decrease and descending ones never
      increase, and likewise for dates and status names. */
  lemma OrderedMeaning(rows: seq<Row>, key: SortKey, dir: SortDir, i: int, j: int)
    requires Ordered(rows, key, dir) && 0 <= i < j < |rows|
    ensures InOrder(key, dir, rows[i], rows[j])
    ensures key == ByAmount && dir == Asc ==> rows[i].amount <= rows[j].amount
    ensures key == ByAmount && dir == Desc ==> rows[i].amount >= rows[j].amount
    ensures key == ByDate && dir == Asc ==> Compare(rows[i].date, rows[j].date) <= 0
    ensures key == ByDate && dir == Desc ==> Compare(rows[i].date, rows[j].date) >= 0
    ensures key == ByStatus && dir == Asc ==> Compare(StatusName(rows[i].status), StatusName(rows[j].status)) <= 0
    ensures key == ByStatus && dir == Desc ==> Compare(StatusName(rows[i].status), StatusName(rows[j].status)) >= 0
  {
    var leq := (x: Row, y: Row) => InOrder(key, dir, x, y);
    forall x: Row, y: Row, z: Row | leq(x, y) && leq(y, z) ensures leq(x, z) {
      InOrderTransitive(key, dir, x, y, z);
    }
    assert Sorted(rows, leq);
    SortedAllPairs(rows, leq, i, j);
  }

  /** `baseRows`: the credit dictionary, the rows, both filters, and the
      sort in place. The result holds exactly the visible rows, each as often
      as it occurs, in the chosen order. */
  method BaseRows(invoices: seq<Invoice>, notes: seq<CreditNote>, filter: StatusFilter, query: string,
                  key: SortKey, dir: SortDir) returns (rows: seq<Row>)
    ensures multiset(rows) == multiset(VisibleRows(Rows(invoices, CreditMap(notes)), filter, query))
    ensures Ordered(rows, key, dir)
  {
    var credits := BuildCreditMap(notes);
    rows := SortRows(VisibleRows(Rows(invoices, credits), filter, query), key, dir);
  }

  /** The sort step of `baseRows`: the rows copied into an array and sorted
      there with the column comparator. */
  method SortRows(visible: seq<Row>, key: SortKey, dir: SortDir) returns (rows: seq<Row>)
    ensures multiset(rows) == multiset(visible)
    ensures Ordered(rows, key, dir)
  {
    var a := new Row[|visible|](i requires 0 <= i < |visible| => visible[i]);
    assert a[..] == visible;
    var leq := (x: Row, y: Row) => InOrder(key, dir, x, y);
    forall x: Row, y: Row ensures leq(x, y) || leq(y, x) {
      InOrderTotal(key, dir, x, y);
    }
    InsertionSort(a, leq);
    rows := a[..];
    assert Sorted(rows, leq);
  }

  // ---------------------------------------------------------------------
  // Totals
  // ---------------------------------------------------------------------

  /** The column a sum runs over; `Outstanding` is the net for a paid row
      and the full amount for any other. */
  datatype Measure = Amount | Credit | Net | Outstanding

  function Measured(r: Row, m: Measure): real {
    match m
    case Amount => r.amount
    case Credit => r.appliedCredit
    case Net => r.netRevenue
    case Outstanding => if r.status == FinancialStatus.Paid then r.netRevenue else r.amount
  }

  /** `rows.reduce((s, r) => s + ..., 0)` */
  function SumOf(rows: seq<Row>, m: Measure): real
    decreases |rows|
  {
    if rows == [] then 0.0 else SumOf(rows[..|rows| - 1], m) + Measured(rows[|rows| - 1], m)
  }

  lemma {:induction false} SumOfAppend(a: seq<Row>, b: seq<Row>, m: Measure)
    ensures SumOf(a + b, m) == SumOf(a, m) + SumOf(b, m)
    decreases |b|
  {
    if b == [] {
      assert a + b == a;
    } else {
      assert (a + b)[..|a + b| - 1] == a + b[..|b| - 1];
      SumOfAppend(a, b[..|b| - 1], m);
    }
  }

  /** Taking out the row at `k` takes its value off the sum. */
  lemma SumOfWithout(b: seq<Row>, k: int, m: Measure)
    requires 0 <= k < |b|
    ensures SumOf(b, m) == SumOf(b[..k] + b[k + 1..], m) + Measured(b[k], m)
  {
    assert b == b[..k] + [b[k]] + b[k + 1..];
    SumOfAppend(b[..k] + [b[k]], b[k + 1..], m);
    SumOfAppend(b[..k], [b[k]], m);
    SumOfAppend(b[..k], b[k + 1..], m);
    assert [b[k]][..0] == [];
  }

  /** The last row of `a` sits at some `k` in its permutation `b`, and the
      rest of `a` is a permutation of the rest of `b`. */
  lemma PermutationWithoutLast(a: seq<Row>, b: seq<Row>) returns (k: int)
    requires multiset(a) == multiset(b) && a != []
    ensures 0 <= k < |b| && b[k] == a[|a| - 1]
    ensures multiset(a[..|a| - 1]) == multiset(b[..k] + b[k + 1..])
  {
    var x := a[|a| - 1];
    assert x in multiset(b);
    k :| 0 <= k < |b| && b[k] == x;
    assert a == a[..|a| - 1] + [x];
    assert b == b[..k] + [x] + b[k + 1..];
    assert multiset(a[..|a| - 1]) == multiset(a) - multiset{x};
    assert multiset(b[..k] + b[k + 1..]) == multiset(b) - multiset{x};
  }

  /** A sum does not depend on the order of the rows. */
  lemma {:induction false} SumOfPermutation(a: seq<Row>, b: seq<Row>, m: Measure)
    requires multiset(a) == multiset(b)
    ensures SumOf(a, m) == SumOf(b, m)
    decreases |a|
  {
    if a == [] {
      assert |multiset(b)| == 0;
    } else {
      var k := PermutationWithoutLast(a, b);
      SumOfPermutation(a[..|a| - 1], b[..k] + b[k + 1..], m);
      SumOfWithout(b, k, m);
    }
  }

  datatype Totals = Totals(sumAmount: real, sumCredits: real, net: real)

  /** `totals` over the visible rows. */
  function TotalsOf(rows: seq<Row>): Totals {
    Totals(SumOf(rows, Amount), SumOf(rows, Credit), SumOf(rows, Outstanding))
  }

  /** The totals do not depend on the sort: any ordering of the same rows
      gives the same three figures. */
  lemma TotalsIgnoreOrder(a: seq<Row>, b: seq<Row>)
    requires multiset(a) == multiset(b)
    ensures TotalsOf(a) == TotalsOf(b)
  {
    SumOfPermutation(a, b, Amount);
    SumOfPermutation(a, b, Credit);
    SumOfPermutation(a, b, Outstanding);
  }

  /** The net total counts paid rows at their net revenue and other rows at
      their full amount; it agrees with the sum of net revenue when every
      row is paid, and is at least that sum when unpaid rows carry zero net
      revenue and a non-negative amount. */
  lemma {:induction false} NetTotalAgainstNetRevenue(rows: seq<Row>)
    ensures (forall i :: 0 <= i < |rows| ==> rows[i].status == FinancialStatus.Paid) ==>
              TotalsOf(rows).net == SumOf(rows, Net)
    ensures (forall i :: 0 <= i < |rows| && rows[i].status != FinancialStatus.Paid ==>
               rows[i].netRevenue == 0.0 && rows[i].amount >= 0.0) ==>
              TotalsOf(rows).net >= SumOf(rows, Net)
    decreases |rows|
  {
    if rows != [] {
      NetTotalAgainstNetRevenue(rows[..|rows| - 1]);
    }
  }

  // ---------------------------------------------------------------------
  // Grouping
  // ---------------------------------------------------------------------

  datatype GroupBy = NoGrouping | ByProject | ByClient | ByMonth | ByStatusLabel

  /** The group a row falls in: its project name ("Unassigned" when empty),
      its client, the `YYYY-MM` prefix of its date, or its upper-cased
      status. */
  function GroupKey(r: Row, grouping: GroupBy): string {
    match grouping
    case NoGrouping => ""
    case ByProject => if r.project == "" then "Unassigned" else r.project
    case ByClient => r.client
    case ByMonth => MonthKey(r.date)
    case ByStatusLabel => Upper(StatusName(r.status))
  }

  /** The `groups` dictionary: its keys in insertion order and the rows
      pushed under each. */
  datatype Buckets = Buckets(keys: seq<string>, items: map<string, seq<Row>>)

  /** One step of the `forEach`: open the key's list if it is missing, then
      push the row. */
  function Push(b: Buckets, r: Row, grouping: GroupBy): Buckets {
    var k := GroupKey(r, grouping);
    var ready := if k in b.items then b else Buckets(b.keys + [k], b.items[k := []]);
    Buckets(ready.keys, ready.items[k := ready.items[k] + [r]])
  }

  function Bucketed(rows: seq<Row>, grouping: GroupBy): Buckets
    decreases |rows|
  {
    if rows == [] then Buckets([], map[]) else Push(Bucketed(rows[..|rows| - 1], grouping), rows[|rows| - 1], grouping)
  }

  /** Reference definition: the rows with key `k`, in order. */
  function RowsWithKey(rows: seq<Row>, grouping: GroupBy, k: string): (r: seq<Row>)
    ensures forall x :: x in r <==> x in rows && GroupKey(x, grouping) == k
    decreases |rows|
  {
    if rows == [] then []
    else
      var last := rows[|rows| - 1];
      RowsWithKey(rows[..|rows| - 1], grouping, k) + (if GroupKey(last, grouping) == k then [last] else [])
  }

  predicate Distinct(keys: seq<string>) {
    forall i, j :: 0 <= i < j < |keys| ==> keys[i] != keys[j]
  }

  /** The insertion-order key list and the dictionary describe the same
      keys, each once. */
  predicate WellFormed(b: Buckets) {
    Distinct(b.keys) && b.items.Keys == set k | k in b.keys
  }

  /** Some row has key `k`. */
  predicate KeyOccurs(rows: seq<Row>, grouping: GroupBy, k: string) {
    exists i :: 0 <= i < |rows| && GroupKey(rows[i], grouping) == k
  }

  lemma KeyOccursLast(rows: seq<Row>, grouping: GroupBy, k: string)
    requires rows != []
    ensures KeyOccurs(rows, grouping, k) <==>
      KeyOccurs(rows[..|rows| - 1], grouping, k) || GroupKey(rows[|rows| - 1], grouping) == k
  {
    if KeyOccurs(rows, grouping, k) {
      KeyOccursSplit(rows, grouping, k);
    }
    KeyOccursExtend(rows, grouping, k);
  }

  lemma KeyOccursSplit(rows: seq<Row>, grouping: GroupBy, k: string)
    requires rows != [] && KeyOccurs(rows, grouping, k)
    ensures KeyOccurs(rows[..|rows| - 1], grouping, k) || GroupKey(rows[|rows| - 1], grouping) == k
  {
    var prefix := rows[..|rows| - 1];
    var i :| 0 <= i < |rows| && GroupKey(rows[i], grouping) == k;
    if i < |prefix| {
      assert prefix[i] == rows[i];
    }
  }

  lemma KeyOccursExtend(rows: seq<Row>, grouping: GroupBy, k: string)
    requires rows != []
    ensures KeyOccurs(rows[..|rows| - 1], grouping, k) ==> KeyOccurs(rows, grouping, k)
    ensures GroupKey(rows[|rows| - 1], grouping) == k ==> KeyOccurs(rows, grouping, k)
  {
    var prefix := rows[..|rows| - 1];
    if KeyOccurs(prefix, grouping, k) {
      var i :| 0 <= i < |prefix| && GroupKey(prefix[i], grouping) == k;
      assert prefix[i] == rows[i];
    }
  }

  lemma NoKeyNoRows(rows: seq<Row>, grouping: GroupBy, k: string)
    requires !KeyOccurs(rows, grouping, k)
    ensures RowsWithKey(rows, grouping, k) == []
  {
  }

  /** A push either extends the list of a key already present or adds the
      key at the end of the key order with a one-row list. */
  lemma PushShape(b: Buckets, r: Row, grouping: GroupBy)
    ensures var k := GroupKey(r, grouping);
      && (k in b.items ==> Push(b, r, grouping) == Buckets(b.keys, b.items[k := b.items[k] + [r]]))
      && (k !in b.items ==> Push(b, r, grouping) == Buckets(b.keys + [k], b.items[k := [r]]))
  {
    var k := GroupKey(r, grouping);
    if k !in b.items {
      assert [] + [r] == [r];
      assert b.items[k := []][k := [] + [r]] == b.items[k := [r]];
    }
  }

  /** Pushing keeps the keys distinct and the dictionary's entries exactly
      the listed keys. */
  lemma {:induction false} BucketedWellFormed(rows: seq<Row>, grouping: GroupBy)
    ensures WellFormed(Bucketed(rows, grouping))
    decreases |rows|
  {
    if rows != [] {
      var prefix, r := rows[..|rows| - 1], rows[|rows| - 1];
      BucketedWellFormed(prefix, grouping);
      var b := Bucketed(prefix, grouping);
      var k := GroupKey(r, grouping);
      PushShape(b, r, grouping);
      if k !in b.items {
        assert k !in b.keys;
        assert (set x | x in b.keys + [k]) == (set x | x in b.keys) + {k};
      }
    }
  }

  /** The dictionary has one entry per distinct key among the rows, listed
      once each in order of first appearance. */
  lemma {:induction false} BucketedKeys(rows: seq<Row>, grouping: GroupBy)
    ensures WellFormed(Bucketed(rows, grouping))
    ensures forall k :: k in Bucketed(rows, grouping).items <==> KeyOccurs(rows, grouping, k)
    decreases |rows|
  {
    BucketedWellFormed(rows, grouping);
    if rows != [] {
      var prefix, r := rows[..|rows| - 1], rows[|rows| - 1];
      BucketedKeys(prefix, grouping);
      PushShape(Bucketed(prefix, grouping), r, grouping);
      forall k ensures k in Bucketed(rows, grouping).items <==> KeyOccurs(rows, grouping, k) {
        KeyOccursLast(rows, grouping, k);
      }
    }
  }

  /** The entry for a key lists exactly the rows with that key, in row
      order. */
  lemma {:induction false} BucketedItems(rows: seq<Row>, grouping: GroupBy, k: string)
    requires k in Bucketed(rows, grouping).items
    ensures Bucketed(rows, grouping).items[k] == RowsWithKey(rows, grouping, k)
    decreases |rows|
  {
    var prefix, r := rows[..|rows| - 1], rows[|rows| - 1];
    var b := Bucketed(prefix, grouping);
    PushShape(b, r, grouping);
    BucketedKeys(prefix, grouping);
    if k in b.items {
      BucketedItems(prefix, grouping, k);
    } else {
      NoKeyNoRows(prefix, grouping, k);
    }
  }

  /** The dictionary's lists laid end to end in key order. */
  function ItemsOver(keys: seq<string>, items: map<string, seq<Row>>): seq<Row>
    requires forall k :: k in keys ==> k in items
    decreases |keys|
  {
    if keys == [] then [] else ItemsOver(keys[..|keys| - 1], items) + items[keys[|keys| - 1]]
  }

  lemma {:induction false} ItemsOverFrame(keys: seq<string>, items: map<string, seq<Row>>, k: string, v: seq<Row>)
    requires forall k' :: k' in keys ==> k' in items
    requires k !in keys
    ensures ItemsOver(keys, items[k := v]) == ItemsOver(keys, items)
    decreases |keys|
  {
    if keys != [] {
      ItemsOverFrame(keys[..|keys| - 1], items, k, v);
    }
  }

  lemma {:induction false} ItemsOverPush(keys: seq<string>, items: map<string, seq<Row>>, k: string, r: Row)
    requires forall k' :: k' in keys ==> k' in items
    requires Distinct(keys) && k in keys
    ensures multiset(ItemsOver(keys, items[k := items[k] + [r]])) == multiset(ItemsOver(keys, items)) + multiset{r}
    decreases |keys|
  {
    var prefix, last := keys[..|keys| - 1], keys[|keys| - 1];
    if last == k {
      ItemsOverFrame(prefix, items, k, items[k] + [r]);
    } else {
      assert k in prefix by {
        var i :| 0 <= i < |keys| && keys[i] == k;
        assert prefix[i] == k;
      }
      ItemsOverPush(prefix, items, k, r);
    }
  }

  /** Pushing one row onto well-formed buckets adds exactly that row to the
      lists laid end to end. */
  lemma CoversPush(b: Buckets, r: Row, grouping: GroupBy)
    requires WellFormed(b)
    ensures forall k :: k in b.keys ==> k in b.items
    ensures var b' := Push(b, r, grouping);
      && (forall k :: k in b'.keys ==> k in b'.items)
      && multiset(ItemsOver(b'.keys, b'.items)) == multiset(ItemsOver(b.keys, b.items)) + multiset{r}
  {
    var k := GroupKey(r, grouping);
    PushShape(b, r, grouping);
    if k in b.items {
      ItemsOverPush(b.keys, b.items, k, r);
    } else {
      ItemsOverFrame(b.keys, b.items, k, [r]);
      assert (b.keys + [k])[..|b.keys|] == b.keys;
      assert ItemsOver(b.keys + [k], b.items[k := [r]]) == ItemsOver(b.keys, b.items[k := [r]]) + [r];
    }
  }

  /** Every row lands in exactly one list: the lists together are the rows,
      each as often as it occurs. */
  lemma {:induction false} BucketedCoversRows(rows: seq<Row>, grouping: GroupBy)
    ensures forall k :: k in Bucketed(rows, grouping).keys ==> k in Bucketed(rows, grouping).items
    ensures multiset(ItemsOver(Bucketed(rows, grouping).keys, Bucketed(rows, grouping).items)) == multiset(rows)
    decreases |rows|
  {
    BucketedWellFormed(rows, grouping);
    if rows != [] {
      var prefix, r := rows[..|rows| - 1], rows[|rows| - 1];
      assert multiset(rows) == multiset(prefix) + multiset{r} by {
        assert rows == prefix + [r];
      }
      BucketedCoversRows(prefix, grouping);
      BucketedWellFormed(prefix, grouping);
      CoversPush(Bucketed(prefix, grouping), r, grouping);
      assert Bucketed(rows, grouping) == Push(Bucketed(prefix, grouping), r, grouping);
    }
  }

  datatype GroupMetrics = GroupMetrics(net: real, amount: real, credits: real, percent: real)

  datatype Group = Group(key: string, items: seq<Row>, metrics: GroupMetrics)

  /** A dictionary entry with its sums; `percent` is its share of the net
      total, zero when that total is not positive. */
  function MakeGroup(key: string, items: seq<Row>, totalNet: real): Group {
    var net := SumOf(items, Net);
    Group(key, items, GroupMetrics(net, SumOf(items, Amount), SumOf(items, Credit), Percent(net, totalNet)))
  }

  /** `Object.entries(groups).map(...)`, in key insertion order. */
  function Entries(keys: seq<string>, items: map<string, seq<Row>>, totalNet: real): (gs: seq<Group>)
    requires forall k :: k in keys ==> k in items
    ensures |gs| == |keys|
    ensures forall j :: 0 <= j < |keys| ==> gs[j] == MakeGroup(keys[j], items[keys[j]], totalNet)
    decreases |keys|
  {
    if keys == [] then []
    else Entries(keys[..|keys| - 1], items, totalNet) + [MakeGroup(keys[|keys| - 1], items[keys[|keys| - 1]], totalNet)]
  }

  /** The group list before its sort. */
  function GroupList(rows: seq<Row>, grouping: GroupBy, totalNet: real): seq<Group> {
    BucketedCoversRows(rows, grouping);
    Entries(Bucketed(rows, grouping).keys, Bucketed(rows, grouping).items, totalNet)
  }

  /** The total of one measure over all groups. */
  function GroupSum(gs: seq<Group>, m: Measure): real
    decreases |gs|
  {
    if gs == [] then 0.0 else GroupSum(gs[..|gs| - 1], m) + SumOf(gs[|gs| - 1].items, m)
  }

  lemma {:induction false} EntriesSum(keys: seq<string>, items: map<string, seq<Row>>, totalNet: real, m: Measure)
    requires forall k :: k in keys ==> k in items
    ensures GroupSum(Entries(keys, items, totalNet), m) == SumOf(ItemsOver(keys, items), m)
    decreases |keys|
  {
    if keys != [] {
      var prefix := keys[..|keys| - 1];
      EntriesSum(prefix, items, totalNet, m);
      assert Entries(keys, items, totalNet)[..|keys| - 1] == Entries(prefix, items, totalNet);
      SumOfAppend(ItemsOver(prefix, items), items[keys[|keys| - 1]], m);
    }
  }

  /** The groups partition the rows: keys are distinct, every row's key has
      a group, and a group holds exactly the rows with its key, in row
      order, so none is empty. */
  lemma GroupsPartitionRows(rows: seq<Row>, grouping: GroupBy, totalNet: real)
    ensures var gs := GroupList(rows, grouping, totalNet);
      && (forall i, j :: 0 <= i < j < |gs| ==> gs[i].key != gs[j].key)
      && (forall i :: 0 <= i < |rows| ==> exists j :: 0 <= j < |gs| && gs[j].key == GroupKey(rows[i], grouping))
      && (forall j :: 0 <= j < |gs| ==> gs[j].items == RowsWithKey(rows, grouping, gs[j].key) && gs[j].items != [])
  {
    BucketedKeys(rows, grouping);
    GroupsCoverRows(rows, grouping, totalNet);
    GroupsHoldRowsWithKey(rows, grouping, totalNet);
  }

  lemma GroupsCoverRows(rows: seq<Row>, grouping: GroupBy, totalNet: real)
    ensures var gs := GroupList(rows, grouping, totalNet);
      forall i :: 0 <= i < |rows| ==> exists j :: 0 <= j < |gs| && gs[j].key == GroupKey(rows[i], grouping)
  {
    BucketedKeys(rows, grouping);
    var b := Bucketed(rows, grouping);
    var gs := GroupList(rows, grouping, totalNet);
    forall i | 0 <= i < |rows| ensures exists j :: 0 <= j < |gs| && gs[j].key == GroupKey(rows[i], grouping) {
      var k := GroupKey(rows[i], grouping);
      assert KeyOccurs(rows, grouping, k);
      var j :| 0 <= j < |b.keys| && b.keys[j] == k;
      assert gs[j].key == k;
    }
  }

  lemma GroupsHoldRowsWithKey(rows: seq<Row>, grouping: GroupBy, totalNet: real)
    ensures var gs := GroupList(rows, grouping, totalNet);
      forall j :: 0 <= j < |gs| ==> gs[j].items == RowsWithKey(rows, grouping, gs[j].key) && gs[j].items != []
  {
    BucketedKeys(rows, grouping);
    var b := Bucketed(rows, grouping);
    var gs := GroupList(rows, grouping, totalNet);
    forall j | 0 <= j < |gs| ensures gs[j].items == RowsWithKey(rows, grouping, gs[j].key) && gs[j].items != [] {
      var k := b.keys[j];
      BucketedItems(rows, grouping, k);
      var i :| 0 <= i < |rows| && GroupKey(rows[i], grouping) == k;
      assert rows[i] in RowsWithKey(rows, grouping, k);
    }
  }

  /** Each group's percent is its net in percent of the net total (zero
      when that is not positive), and over all groups the amounts, credits
      and net revenues add up to the rows' sums. */
  lemma GroupSumsAddUp(rows: seq<Row>, grouping: GroupBy, totalNet: real)
    ensures var gs := GroupList(rows, grouping, totalNet);
      && (forall j :: 0 <= j < |gs| ==> IsPercentOf(gs[j].metrics.percent, gs[j].metrics.net, totalNet))
      && GroupSum(gs, Net) == SumOf(rows, Net)
      && GroupSum(gs, Amount) == SumOf(rows, Amount)
      && GroupSum(gs, Credit) == SumOf(rows, Credit)
  {
    BucketedCoversRows(rows, grouping);
    var b := Bucketed(rows, grouping);
    var gs := GroupList(rows, grouping, totalNet);
    forall j | 0 <= j < |gs| ensures IsPercentOf(gs[j].metrics.percent, gs[j].metrics.net, totalNet) {
      PercentMeaning(gs[j].metrics.net, totalNet, gs[j].metrics.percent);
    }
    var all := ItemsOver(b.keys, b.items);
    EntriesSum(b.keys, b.items, totalNet, Net);
    EntriesSum(b.keys, b.items, totalNet, Amount);
    EntriesSum(b.keys, b.items, totalNet, Credit);
    SumOfPermutation(all, rows, Net);
    SumOfPermutation(all, rows, Amount);
    SumOfPermutation(all, rows, Credit);
  }

  predicate NetDescending(gs: seq<Group>) {
    forall i :: 0 < i < |gs| ==> gs[i - 1].metrics.net >= gs[i].metrics.net
  }

  /** `groupedData`: nothing without a grouping; otherwise the dictionary
      is filled row by row, turned into groups with their sums, and the
      groups are sorted by net revenue, largest first. */
  method GroupRows(rows: seq<Row>, grouping: GroupBy, totalNet: real) returns (groups: Option<seq<Group>>)
    ensures grouping == NoGrouping ==> groups == None
    ensures grouping != NoGrouping ==>
      && groups.Some?
      && multiset(groups.value) == multiset(GroupList(rows, grouping, totalNet))
      && NetDescending(groups.value)
  {
    if grouping == NoGrouping {
      return None;
    }
    var keys: seq<string> := [];
    var buckets: map<string, seq<Row>> := map[];
    for i := 0 to |rows|
      invariant Buckets(keys, buckets) == Bucketed(rows[..i], grouping)
    {
      assert rows[..i + 1][..i] == rows[..i];
      var row := rows[i];
      var key := GroupKey(row, grouping);
      if key !in buckets {
        keys := keys + [key];
        buckets := buckets[key := []];
      }
      buckets := buckets[key := buckets[key] + [row]];
    }
    assert rows[..|rows|] == rows;
    BucketedCoversRows(rows, grouping);
    var list := Entries(keys, buckets, totalNet);
    var a := new Group[|list|](j requires 0 <= j < |list| => list[j]);
    assert a[..] == list;
    var leq := (x: Group, y: Group) => y.metrics.net - x.metrics.net <= 0.0;
    InsertionSort(a, leq);
    groups := Some(a[..]);
  }

  /** The dialog's three derived values together: the sorted visible rows,
      their totals, and the groups built from those rows, whose shares are
      taken of the same rows' net total. */
  method BreakdownTable(invoices: seq<Invoice>, notes: seq<CreditNote>, filter: StatusFilter, query: string,
                        key: SortKey, dir: SortDir, grouping: GroupBy)
    returns (rows: seq<Row>, totals: Totals, groups: Option<seq<Group>>)
    ensures var visible := VisibleRows(Rows(invoices, CreditMap(notes)), filter, query);
      && multiset(rows) == multiset(visible) && Ordered(rows, key, dir)
      && totals == TotalsOf(visible)
    ensures groups.None? <==> grouping == NoGrouping
    ensures groups.Some? ==>
      && multiset(groups.value) == multiset(GroupList(rows, grouping, totals.net))
      && NetDescending(groups.value)
      && forall g :: g in groups.value ==> IsPercentOf(g.metrics.percent, g.metrics.net, totals.net)
  {
    rows := BaseRows(invoices, notes, filter, query, key, dir);
    totals := TotalsOf(rows);
    TotalsIgnoreOrder(rows, VisibleRows(Rows(invoices, CreditMap(notes)), filter, query));
    groups := GroupRows(rows, grouping, totals.net);
    if groups.Some? {
      GroupPercents(rows, grouping, totals.net, groups.value);
    }
  }

  /** Any reordering of the groups keeps each group's percent of the net
      total. */
  lemma GroupPercents(rows: seq<Row>, grouping: GroupBy, totalNet: real, groups: seq<Group>)
    requires multiset(groups) == multiset(GroupList(rows, grouping, totalNet))
    ensures forall g :: g in groups ==> IsPercentOf(g.metrics.percent, g.metrics.net, totalNet)
  {
    var gs := GroupList(rows, grouping, totalNet);
    GroupSumsAddUp(rows, grouping, totalNet);
    forall g | g in groups ensures IsPercentOf(g.metrics.percent, g.metrics.net, totalNet) {
      assert g in multiset(groups);
      assert g in multiset(gs);
      var j :| 0 <= j < |gs| && gs[j] == g;
    }
  }

  // ---------------------------------------------------------------------
  // Expanded groups
  // ---------------------------------------------------------------------

  /** `toggleGroup`: a copy of the expanded set with `key` flipped. */
  function Toggle(expanded: set<string>, key: string): (r: set<string>)
    ensures key in r <==> key !in expanded
    ensures forall k :: k != key ==> (k in r <==> k in expanded)
  {
    if key in expanded then expanded - {key} else expanded + {key}
  }

  /** Toggling the same key twice restores the set. */
  lemma ToggleTwice(expanded: set<string>, key: string)
    ensures Toggle(Toggle(expanded, key), key) == expanded
  {
  }
}
